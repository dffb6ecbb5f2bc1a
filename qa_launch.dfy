/** The QA and launch checklist screen (components/qa-launch.tsx): the
    progress percentages, the category filter and the two toggles, which
    update the project list and the selected project. */
module QALaunch {
  import opened Common
  import Seqs

  datatype QAPriority = Low | Medium | High | Critical

  datatype QAItem = QAItem(
    id: string,
    category: string,
    item: string,
    completed: bool,
    priority: QAPriority,
    notes: Option<string>)

  datatype LaunchStep = LaunchStep(
    id: string,
    step: string,
    description: string,
    completed: bool,
    url: Option<string>,
    notes: Option<string>)

  datatype LaunchStatus = QATesting | PreLaunch | Launched | PostLaunch

  datatype Project = Project(
    id: string,
    name: string,
    client: string,
    status: LaunchStatus,
    qaItems: seq<QAItem>,
    launchSteps: seq<LaunchStep>,
    staging: string,
    production: Option<string>)

  // ------------------------------------------------------------- progress

  /** `Math.round(done / total * 100)` in exact arithmetic: the whole
      percentage nearest to done/total, a half rounding up. */
  function Percent(done: nat, total: nat): (r: nat)
    requires done <= total && 0 < total
    ensures r <= 100
    ensures 2 * total * r <= 200 * done + total < 2 * total * (r + 1)
    ensures done == total ==> r == 100
    ensures done == 0 ==> r == 0
  {
    RoundedPercent(done, total);
    (200 * done + total) / (2 * total)
  }

  /** The facts about the rounding formula that `Percent` promises. */
  lemma RoundedPercent(done: nat, total: nat)
    requires done <= total && 0 < total
    ensures var r := (200 * done + total) / (2 * total);
      && r <= 100
      && 2 * total * r <= 200 * done + total < 2 * total * (r + 1)
      && (done == total ==> r == 100)
      && (done == 0 ==> r == 0)
  {
    var d, r := 2 * total, (200 * done + total) / (2 * total);
    DivBounds(200 * done + total, d);
    CancelLess(d, r, 101);
    if done == total {
      CancelLess(d, 100, r + 1);
    }
    if done == 0 {
      CancelLess(d, r, 1);
    }
  }

  /** The quotient brackets the dividend. */
  lemma DivBounds(x: nat, d: nat)
    requires 0 < d
    ensures d * (x / d) <= x < d * (x / d + 1)
  {
  }

  /** A positive factor cancels from a strict inequality. */
  lemma CancelLess(d: nat, a: nat, b: nat)
    requires 0 < d && d * a < d * b
    ensures a < b
  {
  }

  /** The checked QA items. */
  function DoneItems(items: seq<QAItem>): seq<QAItem> {
    Seqs.Filter(items, (i: QAItem) => i.completed)
  }

  /** The checked launch steps. */
  function DoneSteps(steps: seq<LaunchStep>): seq<LaunchStep> {
    Seqs.Filter(steps, (s: LaunchStep) => s.completed)
  }

  /** All items checked: every item is done; none checked: none is. */
  lemma DoneItemsExtremes(items: seq<QAItem>)
    ensures (forall i :: i in items ==> i.completed) ==> DoneItems(items) == items
    ensures (forall i :: i in items ==> !i.completed) ==> DoneItems(items) == []
  {
    if forall i :: i in items ==> i.completed {
      Seqs.FilterAll(items, (i: QAItem) => i.completed);
    }
    if forall i :: i in items ==> !i.completed {
      Seqs.FilterNone(items, (i: QAItem) => i.completed);
    }
  }

  /** All steps checked: every step is done; none checked: none is. */
  lemma DoneStepsExtremes(steps: seq<LaunchStep>)
    ensures (forall s :: s in steps ==> s.completed) ==> DoneSteps(steps) == steps
    ensures (forall s :: s in steps ==> !s.completed) ==> DoneSteps(steps) == []
  {
    if forall s :: s in steps ==> s.completed {
      Seqs.FilterAll(steps, (s: LaunchStep) => s.completed);
    }
    if forall s :: s in steps ==> !s.completed {
      Seqs.FilterNone(steps, (s: LaunchStep) => s.completed);
    }
  }

  /** `getQAProgress`: the rounded percentage of checked QA items. The
      source divides by zero on an empty list, hence the precondition. */
  function QAProgress(p: Project): (r: nat)
    requires |p.qaItems| > 0
    ensures r <= 100
    ensures var done, total := |DoneItems(p.qaItems)|, |p.qaItems|;
      2 * total * r <= 200 * done + total < 2 * total * (r + 1)
    ensures (forall i :: i in p.qaItems ==> i.completed) ==> r == 100
    ensures (forall i :: i in p.qaItems ==> !i.completed) ==> r == 0
  {
    DoneItemsExtremes(p.qaItems);
    Percent(|DoneItems(p.qaItems)|, |p.qaItems|)
  }

  /** `getLaunchProgress`: the rounded percentage of checked launch steps. */
  function LaunchProgress(p: Project): (r: nat)
    requires |p.launchSteps| > 0
    ensures r <= 100
    ensures var done, total := |DoneSteps(p.launchSteps)|, |p.launchSteps|;
      2 * total * r <= 200 * done + total < 2 * total * (r + 1)
    ensures (forall s :: s in p.launchSteps ==> s.completed) ==> r == 100
    ensures (forall s :: s in p.launchSteps ==> !s.completed) ==> r == 0
  {
    DoneStepsExtremes(p.launchSteps);
    Percent(|DoneSteps(p.launchSteps)|, |p.launchSteps|)
  }

  /** `getItemsByCategory`: exactly the QA items of that category, in the
      checklist's order. */
  function ItemsByCategory(p: Project, category: string): (r: seq<QAItem>)
    ensures forall i :: i in r <==> i in p.qaItems && i.category == category
    ensures forall i :: multiset(r)[i] == if i.category == category then multiset(p.qaItems)[i] else 0
    ensures Seqs.IsSubsequence(r, p.qaItems)
  {
    Seqs.FilterIsSubsequence(p.qaItems, (i: QAItem) => i.category == category);
    Seqs.FilterMultiplicity(p.qaItems, (i: QAItem) => i.category == category);
    Seqs.Filter(p.qaItems, (i: QAItem) => i.category == category)
  }

  // -------------------------------------------------------------- toggles

  /** The QA items with `completed` flipped on those whose id is `id`: only
      that flag changes, and only on those items. */
  function ToggleItems(items: seq<QAItem>, id: string): (r: seq<QAItem>)
    ensures |r| == |items|
    ensures forall k :: 0 <= k < |r| ==>
      && r[k] == items[k].(completed := r[k].completed)
      && (r[k].completed != items[k].completed <==> items[k].id == id)
  {
    seq(|items|, k requires 0 <= k < |items| =>
      if items[k].id == id then items[k].(completed := !items[k].completed) else items[k])
  }

  /** The launch steps with `completed` flipped on those whose id is `id`. */
  function ToggleSteps(steps: seq<LaunchStep>, id: string): (r: seq<LaunchStep>)
    ensures |r| == |steps|
    ensures forall k :: 0 <= k < |r| ==>
      && r[k] == steps[k].(completed := r[k].completed)
      && (r[k].completed != steps[k].completed <==> steps[k].id == id)
  {
    seq(|steps|, k requires 0 <= k < |steps| =>
      if steps[k].id == id then steps[k].(completed := !steps[k].completed) else steps[k])
  }

  /** Toggling the same item twice restores the checklist. */
  lemma ToggleItemsTwice(items: seq<QAItem>, id: string)
    ensures ToggleItems(ToggleItems(items, id), id) == items
  {
  }

  /** Toggling an id that no item has changes nothing. */
  lemma ToggleItemsAbsent(items: seq<QAItem>, id: string)
    requires forall i :: i in items ==> i.id != id
    ensures ToggleItems(items, id) == items
  {
  }

  /** Toggling the same step twice restores the steps. */
  lemma ToggleStepsTwice(steps: seq<LaunchStep>, id: string)
    ensures ToggleSteps(ToggleSteps(steps, id), id) == steps
  {
  }

  /** Toggling an id that no step has changes nothing. */
  lemma ToggleStepsAbsent(steps: seq<LaunchStep>, id: string)
    requires forall s :: s in steps ==> s.id != id
    ensures ToggleSteps(steps, id) == steps
  {
  }

  /** Ids are unique within the checklist. */
  predicate DistinctIds(items: seq<QAItem>) {
    forall a, b :: 0 <= a < b < |items| ==> items[a].id != items[b].id
  }

  /** With unique ids, toggling one item moves the number of checked items
      by exactly one: down if it was checked, up if it was not. */
  lemma {:induction false} ToggleItemsMovesCountByOne(items: seq<QAItem>, j: nat)
    requires j < |items| && DistinctIds(items)
    ensures |DoneItems(ToggleItems(items, items[j].id))|
         == |DoneItems(items)| + (if items[j].completed then -1 else 1)
  {
    var id := items[j].id;
    var t := ToggleItems(items, id);
    assert t == [t[0]] + t[1..];
    assert t[1..] == ToggleItems(items[1..], id);
    if j == 0 {
      ToggleItemsAbsent(items[1..], id);
    } else {
      assert items[0].id != id;
      ToggleItemsMovesCountByOne(items[1..], j - 1);
    }
  }

  /** A project with one QA item toggled. */
  function WithItemToggled(p: Project, itemId: string): (q: Project)
    ensures q == p.(qaItems := q.qaItems)
    ensures q.(qaItems := ToggleItems(q.qaItems, itemId)) == p
  {
    ToggleItemsTwice(p.qaItems, itemId);
    p.(qaItems := ToggleItems(p.qaItems, itemId))
  }

  /** A project with one launch step toggled. */
  function WithStepToggled(p: Project, stepId: string): (q: Project)
    ensures q == p.(launchSteps := q.launchSteps)
    ensures q.(launchSteps := ToggleSteps(q.launchSteps, stepId)) == p
  {
    ToggleStepsTwice(p.launchSteps, stepId);
    p.(launchSteps := ToggleSteps(p.launchSteps, stepId))
  }

  /** The screen's state: the project list and the project on display, a
      separate copy that the toggles keep in step with its list entry. */
  class Screen {
    var projects: seq<Project>
    var selectedProject: Project

    /** The screen as it opens: the first project on display. */
    constructor (projects: seq<Project>)
      requires projects != []
      ensures this.projects == projects && selectedProject == projects[0]
    {
      this.projects := projects;
      selectedProject := projects[0];
    }

    /** `toggleQAItem`: flips the item in every listed project with the
        selected project's id, and in the selected project. */
    method ToggleQAItem(itemId: string)
      modifies this
      ensures |projects| == |old(projects)|
      ensures forall k :: 0 <= k < |projects| ==>
        projects[k] == (if old(projects)[k].id == old(selectedProject).id
                        then WithItemToggled(old(projects)[k], itemId) else old(projects)[k])
      ensures selectedProject == WithItemToggled(old(selectedProject), itemId)
      ensures forall k :: 0 <= k < |projects| && old(projects)[k] == old(selectedProject) ==>
        projects[k] == selectedProject
    {
      var sel := selectedProject;
      projects := seq(|projects|, k requires 0 <= k < |projects| reads this =>
        if projects[k].id == sel.id then WithItemToggled(projects[k], itemId) else projects[k]);
      selectedProject := WithItemToggled(selectedProject, itemId);
    }

    /** `toggleLaunchStep`: flips the step in every listed project with the
        selected project's id, and in the selected project. */
    method ToggleLaunchStep(stepId: string)
      modifies this
      ensures |projects| == |old(projects)|
      ensures forall k :: 0 <= k < |projects| ==>
        projects[k] == (if old(projects)[k].id == old(selectedProject).id
                        then WithStepToggled(old(projects)[k], stepId) else old(projects)[k])
      ensures selectedProject == WithStepToggled(old(selectedProject), stepId)
      ensures forall k :: 0 <= k < |projects| && old(projects)[k] == old(selectedProject) ==>
        projects[k] == selectedProject
    {
      var sel := selectedProject;
      projects := seq(|projects|, k requires 0 <= k < |projects| reads this =>
        if projects[k].id == sel.id then WithStepToggled(projects[k], stepId) else projects[k]);
      selectedProject := WithStepToggled(selectedProject, stepId);
    }
  }
}
