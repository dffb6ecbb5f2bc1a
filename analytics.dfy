/** The analytics table (convex/analytics.ts): its entries, the two insert
    handlers' records and the arithmetic of the metrics queries. */
module Analytics {
  import opened Common
  import opened Tables
  import Seqs

  datatype AnalyticsType = ProjectCompleted | ClientAcquired | LeadConverted | RevenueGenerated

  /** The free-form `metadata` object, in the shapes the code writes. */
  datatype Metadata =
    | NoMetadata                              // left out by the caller
    | ConvertedFrom(origin: string)           // `{ convertedFrom: ... }`
    | Described(description: Option<string>)  // `{ description: ... }`
    | Custom(payload: string)                 // anything else a caller passes

  /** One analytics row. `date` is the insertion time. */
  datatype Entry = Entry(
    kind: AnalyticsType,
    value: int,
    currency: Option<string>,
    projectId: Option<Id>,
    clientId: Option<Id>,
    leadId: Option<Id>,
    date: int,
    metadata: Metadata)

  /** The arguments of `recordAnalytics`. */
  datatype EntryArgs = EntryArgs(
    kind: AnalyticsType,
    value: int,
    currency: Option<string>,
    projectId: Option<Id>,
    clientId: Option<Id>,
    leadId: Option<Id>,
    metadata: Metadata)

  /** The arguments of `recordRevenue`. */
  datatype RevenueArgs = RevenueArgs(
    amount: int,
    currency: string,
    projectId: Option<Id>,
    clientId: Option<Id>,
    description: Option<string>)

  /** The row `recordAnalytics` inserts: the arguments, dated `now`. */
  function Recorded(a: EntryArgs, now: int): (e: Entry)
    ensures EntryArgs(e.kind, e.value, e.currency, e.projectId, e.clientId, e.leadId, e.metadata) == a
    ensures e.date == now
  {
    Entry(a.kind, a.value, a.currency, a.projectId, a.clientId, a.leadId, now, a.metadata)
  }

  /** The row `recordRevenue` inserts. */
  function Revenue(a: RevenueArgs, now: int): (e: Entry)
    ensures e.kind == RevenueGenerated && e.value == a.amount && e.date == now
    ensures e.currency == Some(a.currency) && e.leadId == None
    ensures e.projectId == a.projectId && e.clientId == a.clientId
    ensures e.metadata == Described(a.description)
  {
    Entry(RevenueGenerated, a.amount, Some(a.currency), a.projectId, a.clientId, None, now,
          Described(a.description))
  }

  /** `entries.reduce((sum, entry) => sum + entry.value, 0)`. */
  function SumValues(rows: seq<Doc<Entry>>): int {
    if rows == [] then 0 else rows[0].rec.value + SumValues(rows[1..])
  }

  lemma {:induction false} SumValuesAppend(a: seq<Doc<Entry>>, b: seq<Doc<Entry>>)
    ensures SumValues(a + b) == SumValues(a) + SumValues(b)
  {
    if a == [] {
      assert a + b == b;
    } else {
      assert (a + b)[1..] == a[1..] + b;
      SumValuesAppend(a[1..], b);
    }
  }

  /** The total of a set of rows is the total of those dated from `since`
      on plus the total of the earlier ones: the monthly revenue is the part
      of the total revenue recorded since the month began. */
  lemma {:induction false} SumValuesSplit(rows: seq<Doc<Entry>>, since: int)
    ensures SumValues(rows)
         == SumValues(Since(rows, since)) + SumValues(Before(rows, since))
  {
    if rows != [] {
      SumValuesSplit(rows[1..], since);
      var head, tail := rows[..1], rows[1..];
      assert rows == head + tail;
      Seqs.FilterAppend(head, tail, (d: Doc<Entry>) => d.rec.date >= since);
      Seqs.FilterAppend(head, tail, (d: Doc<Entry>) => d.rec.date < since);
      SumValuesAppend(Since(head, since), Since(tail, since));
      SumValuesAppend(Before(head, since), Before(tail, since));
    }
  }

  /** Rows with no negative value have a non-negative total. With the
      split above, this keeps the monthly revenue between 0 and the total
      revenue when no payment is negative. */
  lemma {:induction false} SumValuesNonNegative(rows: seq<Doc<Entry>>)
    ensures (forall d :: d in rows ==> d.rec.value >= 0) ==> SumValues(rows) >= 0
  {
    if rows != [] {
      SumValuesNonNegative(rows[1..]);
      if forall d :: d in rows ==> d.rec.value >= 0 {
        assert rows[0] in rows;
      }
    }
  }

  /** `leads.length > 0 ? (won / leads.length) * 100 : 0`, in exact
      arithmetic: a percentage between 0 and 100 that is 100 exactly when
      every lead is won and 0 exactly when none is. */
  function ConversionRate(won: nat, total: nat): (r: real)
    requires won <= total
    ensures 0.0 <= r <= 100.0
    ensures total == 0 ==> r == 0.0
    ensures total > 0 ==> r * (total as real) == 100.0 * (won as real)
    ensures total > 0 ==> (r == 100.0 <==> won == total)
    ensures r == 0.0 <==> won == 0
  {
    if total > 0 then (won as real) / (total as real) * 100.0 else 0.0
  }

  /** The `by_type` index lookup over a scan of the table. */
  function ByType(rows: seq<Doc<Entry>>, kind: AnalyticsType): seq<Doc<Entry>> {
    Where(rows, (e: Entry) => e.kind == kind)
  }

  /** The `by_date` range lookup, inclusive at both ends. */
  function InDateRange(rows: seq<Doc<Entry>>, startDate: int, endDate: int): seq<Doc<Entry>> {
    Where(rows, (e: Entry) => startDate <= e.date <= endDate)
  }

  /** The rows dated from `since` on. */
  function Since(rows: seq<Doc<Entry>>, since: int): seq<Doc<Entry>> {
    Where(rows, (e: Entry) => e.date >= since)
  }

  /** The rows dated before `since`. */
  function Before(rows: seq<Doc<Entry>>, since: int): seq<Doc<Entry>> {
    Where(rows, (e: Entry) => e.date < since)
  }
}
