/** The client portal backed by the store (components/client-portal-convex.tsx):
    the status-to-progress table, the shilling conversion, the days-remaining
    figure, the project on display and the two quick actions, which call
    `updateProject` and `recordRevenue`. */
module ClientPortalConvex {
  import opened Common
  import opened Tables
  import Projects
  import Analytics

  /** The status as the store spells it. */
  function StatusName(s: Projects.ProjectStatus): (n: string)
    ensures |n| > 0
  {
    match s
    case Planning => "planning"
    case InProgress => "in_progress"
    case Review => "review"
    case Completed => "completed"
    case OnHold => "on_hold"
  }

  /** `getProjectProgress`: the percentage shown for a status string, 0 for
      a string outside the table. */
  function ProjectProgress(status: string): (r: nat)
    ensures r <= 100
    ensures r == 100 <==> status == "completed"
    ensures r == 0 <==> status !in {"planning", "in_progress", "review", "completed", "on_hold"}
  {
    if status == "planning" then 20
    else if status == "in_progress" then 60
    else if status == "review" then 85
    else if status == "completed" then 100
    else if status == "on_hold" then 50
    else 0
  }

  /** Every stored status has a place in the table, and the later stages
      show more progress than the earlier ones. */
  lemma ProgressOfStatus(s: Projects.ProjectStatus)
    ensures 0 < ProjectProgress(StatusName(s))
    ensures ProjectProgress(StatusName(s)) == 100 <==> s == Projects.Completed
    ensures ProjectProgress(StatusName(Projects.Planning)) < ProjectProgress(StatusName(Projects.InProgress))
          < ProjectProgress(StatusName(Projects.Review)) < ProjectProgress(StatusName(Projects.Completed))
  {
  }

  /** Shillings per US dollar. */
  const KshPerUsd := 130

  /** The amount `convertToKSH` formats: the dollar amount in shillings,
      from which the dollar amount is recovered exactly. */
  function ConvertToKsh(usd: int): (ksh: int)
    ensures ksh % KshPerUsd == 0 && ksh / KshPerUsd == usd
    ensures usd >= 0 ==> ksh >= usd
  {
    usd * KshPerUsd
  }

  /** Milliseconds in a day. */
  const MsPerDay := 1000 * 60 * 60 * 24

  /** `Math.max(0, Math.ceil(ms / MsPerDay))`: the whole days needed to cover
      `ms` milliseconds, and 0 once the time has passed. */
  function CeilDays(ms: int): (days: nat)
    ensures ms <= 0 ==> days == 0
    ensures ms > 0 ==> (days - 1) * MsPerDay < ms <= days * MsPerDay
  {
    if ms <= 0 then 0 else (ms + MsPerDay - 1) / MsPerDay
  }

  /** The "Days Remaining" card: "TBD" (None) when there is no end date, or
      when it is 0, which the source treats as absent; otherwise the days
      left until it, never negative. */
  function DaysRemaining(endDate: Option<int>, now: int): (r: Option<nat>)
    ensures r.None? <==> endDate.None? || endDate.value == 0
    ensures r.Some? && endDate.value <= now ==> r.value == 0
    ensures r.Some? && endDate.value > now ==>
      (r.value - 1) * MsPerDay < endDate.value - now <= r.value * MsPerDay
  {
    if endDate.None? || endDate.value == 0 then None else Some(CeilDays(endDate.value - now))
  }

  /** The project on display, or None for the "No projects found"
      placeholder: the selected project, falling back to the first. */
  function CurrentProject(projects: seq<Doc<Projects.Project>>, selected: Option<Doc<Projects.Project>>)
    : (r: Option<Doc<Projects.Project>>)
    ensures r.None? <==> projects == []
    ensures r.Some? ==> r == selected || (selected.None? && r.value == projects[0])
  {
    if projects == [] then None
    else if selected.Some? then selected
    else Some(projects[0])
  }

  // ------------------------------------------------------------ Request Review

  /** The Request Review button is enabled unless the project is already in
      review or completed: exactly while its progress bar is short of the
      review mark. */
  function CanRequestReview(s: Projects.ProjectStatus): (r: bool)
    ensures r <==> ProjectProgress(StatusName(s)) < ProjectProgress("review")
  {
    s != Projects.Review && s != Projects.Completed
  }

  /** The update the button sends: `{ status: 'review' }`. */
  const ReviewPatch := Projects.ProjectPatch(None, None, Some(Projects.Review), None, None, None, None)

  /** The review request is an update the handler accepts, and it moves the
      project to "review" and changes nothing else; after it the button is
      disabled and the bar shows 85. */
  lemma RequestReviewMovesToReview(f: Projects.ProjectFields)
    ensures ReviewPatch.Supplies()
    ensures Projects.Apply(f, ReviewPatch) == f.(status := Projects.Review)
    ensures !CanRequestReview(Projects.Apply(f, ReviewPatch).status)
    ensures ProjectProgress(StatusName(Projects.Apply(f, ReviewPatch).status)) == 85
  {
  }

  // ------------------------------------------------------------ Record Payment

  /** The arguments Record Payment sends to `recordRevenue`, or None when it
      sends nothing because the budget is absent or 0. */
  function PaymentFor(p: Doc<Projects.Project>): (r: Option<Analytics.RevenueArgs>)
    ensures r.Some? <==> p.rec.fields.budget.Some? && p.rec.fields.budget.value != 0
    ensures r.Some? ==>
      && r.value.amount == p.rec.fields.budget.value
      && r.value.projectId == Some(p.id) && r.value.clientId == None
      && r.value.description == Some("Revenue from " + p.rec.fields.title)
      && r.value.currency != ""
      && (p.rec.fields.currency.Some? && p.rec.fields.currency.value != "" ==>
            r.value.currency == p.rec.fields.currency.value)
      && (p.rec.fields.currency.None? || p.rec.fields.currency == Some("") ==>
            r.value.currency == "USD")
  {
    var f := p.rec.fields;
    if f.budget.Some? && f.budget.value != 0 then
      var currency := if f.currency.Some? && f.currency.value != "" then f.currency.value else "USD";
      Some(Analytics.RevenueArgs(f.budget.value, currency, Some(p.id), None,
                                 Some("Revenue from " + f.title)))
    else
      None
  }

  /** A recorded payment is a `revenue_generated` entry for the project,
      worth its budget, which the revenue total then includes. */
  lemma PaymentRecordsBudget(p: Doc<Projects.Project>, now: int)
    requires PaymentFor(p).Some?
    ensures var e := Analytics.Revenue(PaymentFor(p).value, now);
      && e.kind == Analytics.RevenueGenerated
      && e.value == p.rec.fields.budget.value
      && e.projectId == Some(p.id)
      && e.date == now
  {
  }
}
