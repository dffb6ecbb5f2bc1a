/** The projects table (convex/projects.ts): its record and the partial
    update its `updateProject` handler applies. */
module Projects {
  import opened Common
  import opened Tables

  datatype ProjectStatus = Planning | InProgress | Review | Completed | OnHold

  /** The arguments of `createProject`, stored as given. `clientId` refers
      to the clients table; nothing keeps that reference alive. */
  datatype ProjectFields = ProjectFields(
    title: string,
    description: Option<string>,
    clientId: Id,
    status: ProjectStatus,
    startDate: Option<int>,
    endDate: Option<int>,
    budget: Option<int>,
    currency: Option<string>)

  type Project = Stamped<ProjectFields>

  /** The optional arguments of `updateProject`. There is no `clientId`
      among them: a project cannot be moved to another client. */
  datatype ProjectPatch = ProjectPatch(
    title: Option<string>,
    description: Option<string>,
    status: Option<ProjectStatus>,
    startDate: Option<int>,
    endDate: Option<int>,
    budget: Option<int>,
    currency: Option<string>)
  {
    /** Some argument is defined: the filtered update object is non-empty. */
    predicate Supplies() {
      title.Some? || description.Some? || status.Some? || startDate.Some? ||
      endDate.Some? || budget.Some? || currency.Some?
    }
  }

  /** The stored fields after `ctx.db.patch` with the defined arguments:
      exactly the fields the patch supplies are written, the others kept. */
  function Apply(f: ProjectFields, p: ProjectPatch): (g: ProjectFields)
    ensures
      && g.clientId == f.clientId
      && (if p.title.Some? then g.title == p.title.value else g.title == f.title)
      && (if p.description.Some? then g.description == p.description else g.description == f.description)
      && (if p.status.Some? then g.status == p.status.value else g.status == f.status)
      && (if p.startDate.Some? then g.startDate == p.startDate else g.startDate == f.startDate)
      && (if p.endDate.Some? then g.endDate == p.endDate else g.endDate == f.endDate)
      && (if p.budget.Some? then g.budget == p.budget else g.budget == f.budget)
      && (if p.currency.Some? then g.currency == p.currency else g.currency == f.currency)
  {
    ProjectFields(
      p.title.GetOr(f.title),
      p.description.OrElse(f.description),
      f.clientId,
      p.status.GetOr(f.status),
      p.startDate.OrElse(f.startDate),
      p.endDate.OrElse(f.endDate),
      p.budget.OrElse(f.budget),
      p.currency.OrElse(f.currency))
  }

  /** Applying the same patch twice is applying it once. */
  lemma ApplyIdempotent(f: ProjectFields, p: ProjectPatch)
    ensures Apply(Apply(f, p), p) == Apply(f, p)
  {
  }

  /** A patch that supplies nothing would change no field: the case the
      handler rejects before writing. */
  lemma ApplyNothing(f: ProjectFields, p: ProjectPatch)
    requires !p.Supplies()
    ensures Apply(f, p) == f
  {
  }

  /** The `by_status` index lookup over a scan of the table. */
  function ByStatus(rows: seq<Doc<Project>>, s: ProjectStatus): seq<Doc<Project>> {
    Where(rows, (p: Project) => p.fields.status == s)
  }

  /** The `by_client` index lookup over a scan of the table. */
  function ByClient(rows: seq<Doc<Project>>, clientId: Id): seq<Doc<Project>> {
    Where(rows, (p: Project) => p.fields.clientId == clientId)
  }

  /** The status of each row, in order: what the metrics query tallies. */
  function Statuses(rows: seq<Doc<Project>>): (r: seq<ProjectStatus>)
    ensures |r| == |rows|
  {
    if rows == [] then [] else [rows[0].rec.fields.status] + Statuses(rows[1..])
  }

  /** A status occurs among the rows' statuses as often as the `by_status`
      lookup finds rows with it. */
  lemma {:induction false} StatusCount(rows: seq<Doc<Project>>, s: ProjectStatus)
    ensures multiset(Statuses(rows))[s] == |ByStatus(rows, s)|
  {
    if rows != [] {
      StatusCount(rows[1..], s);
      WhereCons(rows, (p: Project) => p.fields.status == s);
    }
  }

  /** Every project has exactly one of the five statuses, so the five status
      counts add up to the number of projects. */
  lemma {:induction false} StatusesPartition(rows: seq<Doc<Project>>)
    ensures |ByStatus(rows, Planning)| + |ByStatus(rows, InProgress)| + |ByStatus(rows, Review)|
          + |ByStatus(rows, Completed)| + |ByStatus(rows, OnHold)| == |rows|
  {
    if rows != [] {
      StatusesPartition(rows[1..]);
      forall s: ProjectStatus
        ensures ByStatus(rows, s)
             == (if rows[0].rec.fields.status == s then [rows[0]] else []) + ByStatus(rows[1..], s)
      {
        WhereCons(rows, (p: Project) => p.fields.status == s);
      }
    }
  }
}
