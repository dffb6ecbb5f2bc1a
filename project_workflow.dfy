/** The project workflow board (components/project-workflow.tsx): the
    selected project's tasks grouped into one column per stage. */
module ProjectWorkflow {
  import opened Common
  import Seqs

  datatype Stage = Discovery | Planning | Design | Development | QA | Launch

  datatype Priority = Low | Medium | High | Critical

  datatype Task = Task(
    id: string,
    title: string,
    description: string,
    assignee: string,
    priority: Priority,
    dueDate: string,
    status: Stage,
    tags: seq<string>)

  datatype Project = Project(
    id: string,
    name: string,
    client: string,
    status: Stage,
    progress: int,
    startDate: string,
    dueDate: string,
    budget: string,
    team: seq<string>,
    tasks: seq<Task>)

  /** A stage as the code spells it: the value of a task's `status` and the
      id of its column. */
  function StageId(s: Stage): string {
    match s
    case Discovery => "Discovery"
    case Planning => "Planning"
    case Design => "Design"
    case Development => "Development"
    case QA => "QA"
    case Launch => "Launch"
  }

  /** The board's column ids, left to right. */
  const Columns: seq<string> := ["Discovery", "Planning", "Design", "Development", "QA", "Launch"]

  /** Every stage has its own column, at the stage's position. */
  function ColumnOf(s: Stage): (i: nat)
    ensures i < |Columns| && Columns[i] == StageId(s)
    ensures forall j :: 0 <= j < |Columns| && Columns[j] == StageId(s) ==> j == i
  {
    match s
    case Discovery => 0
    case Planning => 1
    case Design => 2
    case Development => 3
    case QA => 4
    case Launch => 5
  }

  /** The tasks of `tasks` whose status has the id `status`, in order. */
  function InStage(tasks: seq<Task>, status: string): seq<Task> {
    Seqs.Filter(tasks, (t: Task) => StageId(t.status) == status)
  }

  /** `getTasksByStatus`: the selected project's tasks with that status, in
      order; nothing when no project is selected. */
  function TasksByStatus(selected: Option<Project>, status: string): (r: seq<Task>)
    ensures selected.None? ==> r == []
    ensures selected.Some? ==> forall t :: t in r <==> t in selected.value.tasks && StageId(t.status) == status
    ensures selected.Some? ==> forall t ::
              multiset(r)[t] == if StageId(t.status) == status then multiset(selected.value.tasks)[t] else 0
    ensures selected.Some? ==> Seqs.IsSubsequence(r, selected.value.tasks)
  {
    if selected.None? then []
    else
      var tasks := selected.value.tasks;
      Seqs.FilterIsSubsequence(tasks, (t: Task) => StageId(t.status) == status);
      Seqs.FilterMultiplicity(tasks, (t: Task) => StageId(t.status) == status);
      InStage(tasks, status)
  }

  /** Each task of the selected project shows in exactly one column: the
      one of its status. */
  lemma TaskInOneColumn(p: Project, t: Task)
    requires t in p.tasks
    ensures t in TasksByStatus(Some(p), Columns[ColumnOf(t.status)])
    ensures forall j :: 0 <= j < |Columns| && t in TasksByStatus(Some(p), Columns[j]) ==> j == ColumnOf(t.status)
  {
  }

  /** The column counts add up to the number of tasks. */
  lemma {:induction false} ColumnCountsSum(tasks: seq<Task>)
    ensures |InStage(tasks, Columns[0])| + |InStage(tasks, Columns[1])| + |InStage(tasks, Columns[2])|
          + |InStage(tasks, Columns[3])| + |InStage(tasks, Columns[4])| + |InStage(tasks, Columns[5])|
         == |tasks|
  {
    if tasks != [] {
      ColumnCountsSum(tasks[1..]);
      forall c: string
        ensures InStage(tasks, c)
             == (if StageId(tasks[0].status) == c then [tasks[0]] else []) + InStage(tasks[1..], c)
      {
      }
      var i := ColumnOf(tasks[0].status);
      assert forall j :: 0 <= j < |Columns| && j != i ==> StageId(tasks[0].status) != Columns[j];
    }
  }

  /** The badges on the board add up to the "Total Tasks" figure. */
  lemma BoardShowsEveryTask(p: Project)
    ensures |TasksByStatus(Some(p), Columns[0])| + |TasksByStatus(Some(p), Columns[1])|
          + |TasksByStatus(Some(p), Columns[2])| + |TasksByStatus(Some(p), Columns[3])|
          + |TasksByStatus(Some(p), Columns[4])| + |TasksByStatus(Some(p), Columns[5])|
         == |p.tasks|
  {
    ColumnCountsSum(p.tasks);
  }
}
