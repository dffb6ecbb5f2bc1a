/** The leads table (convex/leads.ts): its record, the partial update of
    `updateLead`, and the three records `convertLeadToClient` writes. */
module Leads {
  import opened Common
  import opened Tables
  import Clients
  import Analytics

  datatype LeadStatus = New | Contacted | Qualified | Proposal | Won | Lost

  /** The arguments of `createLead`, stored as given. */
  datatype LeadFields = LeadFields(
    name: string,
    email: string,
    phone: Option<string>,
    company: Option<string>,
    source: Option<string>,
    status: LeadStatus,
    notes: Option<string>,
    estimatedValue: Option<int>,
    currency: Option<string>)

  type Lead = Stamped<LeadFields>

  /** The optional arguments of `updateLead` (everything but the id). */
  datatype LeadPatch = LeadPatch(
    name: Option<string>,
    email: Option<string>,
    phone: Option<string>,
    company: Option<string>,
    source: Option<string>,
    status: Option<LeadStatus>,
    notes: Option<string>,
    estimatedValue: Option<int>,
    currency: Option<string>)
  {
    /** Some argument is defined: the filtered update object is non-empty. */
    predicate Supplies() {
      name.Some? || email.Some? || phone.Some? || company.Some? || source.Some? ||
      status.Some? || notes.Some? || estimatedValue.Some? || currency.Some?
    }
  }

  /** The stored fields after `ctx.db.patch` with the defined arguments:
      exactly the fields the patch supplies are written, the others kept. */
  function Apply(f: LeadFields, p: LeadPatch): (g: LeadFields)
    ensures
      && (if p.name.Some? then g.name == p.name.value else g.name == f.name)
      && (if p.email.Some? then g.email == p.email.value else g.email == f.email)
      && (if p.phone.Some? then g.phone == p.phone else g.phone == f.phone)
      && (if p.company.Some? then g.company == p.company else g.company == f.company)
      && (if p.source.Some? then g.source == p.source else g.source == f.source)
      && (if p.status.Some? then g.status == p.status.value else g.status == f.status)
      && (if p.notes.Some? then g.notes == p.notes else g.notes == f.notes)
      && (if p.estimatedValue.Some? then g.estimatedValue == p.estimatedValue else g.estimatedValue == f.estimatedValue)
      && (if p.currency.Some? then g.currency == p.currency else g.currency == f.currency)
  {
    LeadFields(
      p.name.GetOr(f.name),
      p.email.GetOr(f.email),
      p.phone.OrElse(f.phone),
      p.company.OrElse(f.company),
      p.source.OrElse(f.source),
      p.status.GetOr(f.status),
      p.notes.OrElse(f.notes),
      p.estimatedValue.OrElse(f.estimatedValue),
      p.currency.OrElse(f.currency))
  }

  /** Applying the same patch twice is applying it once. */
  lemma ApplyIdempotent(f: LeadFields, p: LeadPatch)
    ensures Apply(Apply(f, p), p) == Apply(f, p)
  {
  }

  /** A patch that supplies nothing would change no field: the case the
      handler rejects before writing. */
  lemma ApplyNothing(f: LeadFields, p: LeadPatch)
    requires !p.Supplies()
    ensures Apply(f, p) == f
  {
  }

  // ---- convertLeadToClient ----

  /** The client a conversion inserts: the lead's contact fields, "active". */
  function ConvertedClient(f: LeadFields): (c: Clients.ClientFields)
    ensures c.name == f.name && c.email == f.email
    ensures c.phone == f.phone && c.company == f.company
    ensures c.status == Clients.Active
  {
    Clients.ClientFields(f.name, f.email, f.phone, f.company, Clients.Active)
  }

  /** The patch a conversion applies to the lead: status "won" only. */
  const WonPatch := LeadPatch(None, None, None, None, None, Some(Won), None, None, None)

  /** `lead.estimatedValue || 0`: an absent (or zero) estimate counts as 0. */
  function ConvertedValue(f: LeadFields): int {
    if f.estimatedValue.Some? && f.estimatedValue.value != 0 then f.estimatedValue.value else 0
  }

  /** `lead.currency || "USD"`: an absent or empty currency becomes "USD". */
  function ConvertedCurrency(f: LeadFields): string {
    if f.currency.Some? && f.currency.value != "" then f.currency.value else "USD"
  }

  /** The analytics row a conversion inserts. */
  function ConversionEntry(f: LeadFields, leadId: Id, clientId: Id, now: int): (e: Analytics.Entry)
    ensures e.kind == Analytics.LeadConverted && e.date == now
    ensures e.leadId == Some(leadId) && e.clientId == Some(clientId) && e.projectId == None
    ensures e.value == f.estimatedValue.GetOr(0)
    ensures e.currency.Some? && e.currency.value != ""
    ensures f.currency.Some? && f.currency.value != "" ==> e.currency == f.currency
    ensures f.currency.None? || f.currency == Some("") ==> e.currency == Some("USD")
    ensures e.metadata == Analytics.ConvertedFrom("lead")
  {
    Analytics.Entry(Analytics.LeadConverted, ConvertedValue(f), Some(ConvertedCurrency(f)),
                    None, Some(clientId), Some(leadId), now, Analytics.ConvertedFrom("lead"))
  }

  /** The conversion patch changes the status to "won" and nothing else. */
  lemma WonPatchOnlySetsStatus(f: LeadFields)
    ensures Apply(f, WonPatch) == f.(status := Won)
  {
  }

  // ---- index lookups ----

  /** The `by_status` index lookup over a scan of the table. */
  function ByStatus(rows: seq<Doc<Lead>>, s: LeadStatus): seq<Doc<Lead>> {
    Where(rows, (l: Lead) => l.fields.status == s)
  }

  /** The status of each row, in order: what the metrics query tallies. */
  function Statuses(rows: seq<Doc<Lead>>): (r: seq<LeadStatus>)
    ensures |r| == |rows|
  {
    if rows == [] then [] else [rows[0].rec.fields.status] + Statuses(rows[1..])
  }

  /** A status occurs among the rows' statuses as often as the `by_status`
      lookup finds rows with it. */
  lemma {:induction false} StatusCount(rows: seq<Doc<Lead>>, s: LeadStatus)
    ensures multiset(Statuses(rows))[s] == |ByStatus(rows, s)|
  {
    if rows != [] {
      StatusCount(rows[1..], s);
      WhereCons(rows, (l: Lead) => l.fields.status == s);
    }
  }

  /** Every lead has exactly one of the six statuses, so the six status
      counts add up to the number of leads. */
  lemma {:induction false} StatusesPartition(rows: seq<Doc<Lead>>)
    ensures |ByStatus(rows, New)| + |ByStatus(rows, Contacted)| + |ByStatus(rows, Qualified)|
          + |ByStatus(rows, Proposal)| + |ByStatus(rows, Won)| + |ByStatus(rows, Lost)| == |rows|
  {
    if rows != [] {
      StatusesPartition(rows[1..]);
      forall s: LeadStatus
        ensures ByStatus(rows, s)
             == (if rows[0].rec.fields.status == s then [rows[0]] else []) + ByStatus(rows[1..], s)
      {
        WhereCons(rows, (l: Lead) => l.fields.status == s);
      }
    }
  }
}
