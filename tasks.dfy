/** The tasks table (convex/tasks.ts): its record and the partial update
    its `updateTask` handler applies. */
module Tasks {
  import opened Common
  import opened Tables

  datatype TaskStatus = Todo | InProgress | Review | Completed

  datatype Priority = Low | Medium | High

  /** The arguments of `createTask`, stored as given. A task need not belong
      to a project. */
  datatype TaskFields = TaskFields(
    title: string,
    description: Option<string>,
    projectId: Option<Id>,
    assignedTo: Option<string>,
    status: TaskStatus,
    priority: Priority,
    dueDate: Option<int>)

  type Task = Stamped<TaskFields>

  /** The optional arguments of `updateTask`. There is no `projectId` among
      them: a task cannot be moved to another project. */
  datatype TaskPatch = TaskPatch(
    title: Option<string>,
    description: Option<string>,
    assignedTo: Option<string>,
    status: Option<TaskStatus>,
    priority: Option<Priority>,
    dueDate: Option<int>)
  {
    /** Some argument is defined: the filtered update object is non-empty. */
    predicate Supplies() {
      title.Some? || description.Some? || assignedTo.Some? || status.Some? ||
      priority.Some? || dueDate.Some?
    }
  }

  /** The stored fields after `ctx.db.patch` with the defined arguments:
      exactly the fields the patch supplies are written, the others kept. */
  function Apply(f: TaskFields, p: TaskPatch): (g: TaskFields)
    ensures
      && g.projectId == f.projectId
      && (if p.title.Some? then g.title == p.title.value else g.title == f.title)
      && (if p.description.Some? then g.description == p.description else g.description == f.description)
      && (if p.assignedTo.Some? then g.assignedTo == p.assignedTo else g.assignedTo == f.assignedTo)
      && (if p.status.Some? then g.status == p.status.value else g.status == f.status)
      && (if p.priority.Some? then g.priority == p.priority.value else g.priority == f.priority)
      && (if p.dueDate.Some? then g.dueDate == p.dueDate else g.dueDate == f.dueDate)
  {
    TaskFields(
      p.title.GetOr(f.title),
      p.description.OrElse(f.description),
      f.projectId,
      p.assignedTo.OrElse(f.assignedTo),
      p.status.GetOr(f.status),
      p.priority.GetOr(f.priority),
      p.dueDate.OrElse(f.dueDate))
  }

  /** Applying the same patch twice is applying it once. */
  lemma ApplyIdempotent(f: TaskFields, p: TaskPatch)
    ensures Apply(Apply(f, p), p) == Apply(f, p)
  {
  }

  /** A patch that supplies nothing would change no field: the case the
      handler rejects before writing. */
  lemma ApplyNothing(f: TaskFields, p: TaskPatch)
    requires !p.Supplies()
    ensures Apply(f, p) == f
  {
  }

  /** The `by_status` index lookup over a scan of the table. */
  function ByStatus(rows: seq<Doc<Task>>, s: TaskStatus): seq<Doc<Task>> {
    Where(rows, (t: Task) => t.fields.status == s)
  }

  /** The `by_project` index lookup over a scan of the table: a task with
      no project never matches. */
  function ByProject(rows: seq<Doc<Task>>, projectId: Id): seq<Doc<Task>> {
    Where(rows, (t: Task) => t.fields.projectId == Some(projectId))
  }
}
