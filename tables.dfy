/** The document-store view shared by all tables: ids, stored documents and
    the order in which a table query returns them.

    Ids are handed out by one increasing counter, so the order in which
    documents were inserted is the order of their ids. A plain `collect()`
    (and an index lookup on one value) returns documents in that order;
    `order("desc")` returns them newest first. */
module Tables {
  import Seqs
  import opened Common

  type Id = nat

  /** A document as a query returns it: its id and its stored record. */
  datatype Doc<R> = Doc(id: Id, rec: R)

  /** A record with the two timestamps every create and update stamps. */
  datatype Stamped<F> = Stamped(fields: F, createdAt: int, updatedAt: int)

  /** Every id in use is below the next id to be handed out. */
  ghost predicate Bounded<R>(m: map<Id, R>, next: Id) {
    forall id :: id in m ==> id < next
  }

  /** Ids strictly increase along `rows`: insertion order, without repeats. */
  predicate Increasing<R>(rows: seq<Doc<R>>) {
    forall i, j :: 0 <= i < j < |rows| ==> rows[i].id < rows[j].id
  }

  /** The documents of table `m` whose ids lie in [lo, hi), oldest first. */
  function Rows<R(!new)>(m: map<Id, R>, lo: Id, hi: Id): (r: seq<Doc<R>>)
    ensures forall d :: d in r <==> lo <= d.id < hi && d.id in m && m[d.id] == d.rec
    ensures Increasing(r)
    decreases hi - lo
  {
    if lo >= hi then []
    else
      var rest := Rows(m, lo + 1, hi);
      assert forall j :: 0 <= j < |rest| ==> rest[j] in rest;
      if lo in m then [Doc(lo, m[lo])] + rest else rest
  }

  /** The whole table in insertion order: what `collect()` returns. */
  function All<R(!new)>(m: map<Id, R>, next: Id): seq<Doc<R>> {
    Rows(m, 0, next)
  }

  /** The whole table newest first: what `order("desc").collect()` returns. */
  function Newest<R(!new)>(m: map<Id, R>, next: Id): (r: seq<Doc<R>>)
    requires Bounded(m, next)
    ensures |r| == |All(m, next)|
    ensures forall k :: 0 <= k < |r| ==> r[k] == All(m, next)[|r| - 1 - k]
    ensures forall d :: d in r <==> d.id in m && m[d.id] == d.rec
    ensures forall i, j :: 0 <= i < j < |r| ==> r[i].id > r[j].id
  {
    var rows := All(m, next);
    var r := seq(|rows|, k requires 0 <= k < |rows| => rows[|rows| - 1 - k]);
    assert forall d :: d in rows ==> d in r by {
      forall d | d in rows ensures d in r {
        var k :| 0 <= k < |rows| && rows[k] == d;
        assert r[|rows| - 1 - k] == d;
      }
    }
    r
  }

  /** The ids `Rows(m, lo, hi)` lists. */
  ghost function KeysIn<R>(m: map<Id, R>, lo: Id, hi: Id): set<Id> {
    set id | id in m && lo <= id < hi
  }

  /** A scan lists each document of its range once. */
  lemma {:induction false} RowsCount<R(!new)>(m: map<Id, R>, lo: Id, hi: Id)
    ensures |Rows(m, lo, hi)| == |KeysIn(m, lo, hi)|
    decreases hi - lo
  {
    if lo >= hi {
      assert KeysIn(m, lo, hi) == {};
    } else {
      RowsCount(m, lo + 1, hi);
      if lo in m {
        assert KeysIn(m, lo, hi) == {lo} + KeysIn(m, lo + 1, hi);
      } else {
        assert KeysIn(m, lo, hi) == KeysIn(m, lo + 1, hi);
      }
    }
  }

  /** `collect()` returns as many documents as the table holds. */
  lemma AllCount<R(!new)>(m: map<Id, R>, next: Id)
    requires Bounded(m, next)
    ensures |All(m, next)| == |m|
  {
    RowsCount(m, 0, next);
    assert KeysIn(m, 0, next) == m.Keys;
  }

  /** The documents of a query, keeping those whose record satisfies `p`. */
  function Where<R(!new)>(rows: seq<Doc<R>>, p: R -> bool): (r: seq<Doc<R>>)
    ensures forall d :: d in r <==> d in rows && p(d.rec)
    ensures Seqs.IsSubsequence(r, rows)
    ensures Increasing(rows) ==> Increasing(r)
  {
    Seqs.FilterIsSubsequence(rows, (d: Doc<R>) => p(d.rec));
    Seqs.FilterKeepsIncreasing(rows, (d: Doc<R>) => p(d.rec), (d: Doc<R>) => d.id);
    Seqs.Filter(rows, (d: Doc<R>) => p(d.rec))
  }

  /** One step of a filtered scan. */
  lemma WhereCons<R(!new)>(rows: seq<Doc<R>>, p: R -> bool)
    requires rows != []
    ensures Where(rows, p) == (if p(rows[0].rec) then [rows[0]] else []) + Where(rows[1..], p)
  {
  }

  /** Over rows without repeats, a filter that at most one row can pass
      keeps at most one. */
  lemma WhereAtMostOne<R(!new)>(rows: seq<Doc<R>>, p: R -> bool)
    requires Increasing(rows)
    requires forall x, y :: x in rows && y in rows && p(x.rec) && p(y.rec) ==> x == y
    ensures |Where(rows, p)| <= 1
  {
    Seqs.FilterAtMostOne(rows, (d: Doc<R>) => p(d.rec));
  }

  /** `ctx.db.get(id)`: the stored record, or null when there is none. */
  function Get<R>(m: map<Id, R>, id: Id): (r: Option<R>)
    ensures r.Some? <==> id in m
    ensures r.Some? ==> r.value == m[id]
  {
    if id in m then Some(m[id]) else None
  }
}
