/** The CRM lead list (components/crm-leads.tsx): the search-and-status
    filter over the leads and the per-status counts above it. */
module CrmLeads {
  import Seqs

  datatype Status = New | Qualified | ProposalSent | Won | Lost

  /** The status as the page spells it, which is what the status filter
      compares against. */
  function Label(s: Status): (l: string)
    ensures l != "all"
  {
    match s
    case New => "New"
    case Qualified => "Qualified"
    case ProposalSent => "Proposal Sent"
    case Won => "Won"
    case Lost => "Lost"
  }

  /** Distinct statuses have distinct labels. */
  lemma LabelInjective(s: Status, t: Status)
    requires Label(s) == Label(t)
    ensures s == t
  {
  }

  datatype Lead = Lead(
    id: string,
    name: string,
    email: string,
    phone: string,
    company: string,
    budget: string,
    status: Status,
    source: string,
    createdAt: string,
    notes: string)

  // ---------------------------------------------------------------- search

  /** `toLowerCase` on one character, for the ASCII letters. */
  function LowerChar(c: char): (d: char)
    ensures 'A' <= c <= 'Z' ==> d as int == c as int + 32
    ensures !('A' <= c <= 'Z') ==> d == c
  {
    if 'A' <= c <= 'Z' then (c as int + 32) as char else c
  }

  /** `toLowerCase`: every character lowered, the length kept. */
  function Lower(s: string): (r: string)
    ensures |r| == |s|
    ensures forall i :: 0 <= i < |s| ==> r[i] == LowerChar(s[i])
  {
    seq(|s|, i requires 0 <= i < |s| => LowerChar(s[i]))
  }

  /** `t` occurs in `s` starting at index `i`. */
  predicate OccursAt(s: string, t: string, i: int) {
    0 <= i <= |s| - |t| && s[i..i + |t|] == t
  }

  /** `s.includes(t)`: `t` occurs in `s` at some position. */
  function Includes(s: string, t: string): (r: bool)
    ensures r <==> exists i :: OccursAt(s, t, i)
    decreases |s|
  {
    if |t| <= |s| && s[..|t|] == t then
      assert OccursAt(s, t, 0);
      true
    else if |s| <= |t| then
      NoRoomNoMatch(s, t);
      false
    else
      ShiftMatch(s, t);
      Includes(s[1..], t)
  }

  /** When `t` does not start `s` and is no shorter, it occurs nowhere. */
  lemma NoRoomNoMatch(s: string, t: string)
    requires !(|t| <= |s| && s[..|t|] == t) && |s| <= |t|
    ensures forall i :: !OccursAt(s, t, i)
  {
    forall i ensures !OccursAt(s, t, i) {
      if i == 0 && |s| == |t| {
        assert s[..|t|] == s[0..0 + |t|];
      }
    }
  }

  /** When `t` does not start `s`, it occurs in `s` exactly when it occurs
      in `s` without its first character. */
  lemma ShiftMatch(s: string, t: string)
    requires !(|t| <= |s| && s[..|t|] == t) && |t| < |s|
    ensures (exists i :: OccursAt(s, t, i)) <==> (exists j :: OccursAt(s[1..], t, j))
  {
    var s' := s[1..];
    if exists i :: OccursAt(s, t, i) {
      var i :| OccursAt(s, t, i);
      assert i != 0 by {
        assert s[..|t|] == s[0..0 + |t|];
      }
      assert s'[i - 1..i - 1 + |t|] == s[i..i + |t|];
      assert OccursAt(s', t, i - 1);
    }
    if exists j :: OccursAt(s', t, j) {
      var j :| OccursAt(s', t, j);
      assert s[j + 1..j + 1 + |t|] == s'[j..j + |t|];
      assert OccursAt(s, t, j + 1);
    }
  }

  /** The search part of the filter: the lowercased term occurs, at some
      position, in the lowercased name, company or email. */
  function MatchesSearch(l: Lead, term: string): (r: bool)
    ensures r <==> exists i ::
      OccursAt(Lower(l.name), Lower(term), i) || OccursAt(Lower(l.company), Lower(term), i)
      || OccursAt(Lower(l.email), Lower(term), i)
  {
    var t := Lower(term);
    Includes(Lower(l.name), t) || Includes(Lower(l.company), t) || Includes(Lower(l.email), t)
  }

  /** The status part of the filter: "all" lets every lead through, a
      status's label exactly the leads with that status, and any other
      string none. */
  function MatchesStatus(l: Lead, statusFilter: string): (r: bool)
    ensures statusFilter == "all" ==> r
    ensures forall s :: statusFilter == Label(s) ==> (r <==> l.status == s)
    ensures statusFilter != "all" && (forall s :: Label(s) != statusFilter) ==> !r
  {
    statusFilter == "all" || Label(l.status) == statusFilter
  }

  /** `filteredLeads`: the leads passing both parts, in list order. */
  function FilteredLeads(leads: seq<Lead>, term: string, statusFilter: string): (r: seq<Lead>)
    ensures forall l :: l in r <==> l in leads && MatchesSearch(l, term) && MatchesStatus(l, statusFilter)
    ensures forall l ::
              multiset(r)[l] == if MatchesSearch(l, term) && MatchesStatus(l, statusFilter) then multiset(leads)[l] else 0
    ensures Seqs.IsSubsequence(r, leads)
    ensures statusFilter != "all" ==> forall l :: l in r ==> Label(l.status) == statusFilter
  {
    var p := (l: Lead) => MatchesSearch(l, term) && MatchesStatus(l, statusFilter);
    Seqs.FilterIsSubsequence(leads, p);
    Seqs.FilterMultiplicity(leads, p);
    Seqs.Filter(leads, p)
  }

  /** The empty term occurs in every string. */
  lemma EmptyTermMatchesAll(l: Lead)
    ensures MatchesSearch(l, "")
  {
    assert Lower("") == "";
    assert OccursAt(Lower(l.name), "", 0);
  }

  /** With no search term and the "all" filter, every lead is listed. */
  lemma NoFilterListsAll(leads: seq<Lead>)
    ensures FilteredLeads(leads, "", "all") == leads
  {
    forall l | l in leads ensures MatchesSearch(l, "") && MatchesStatus(l, "all") {
      EmptyTermMatchesAll(l);
    }
    Seqs.FilterAll(leads, (l: Lead) => MatchesSearch(l, "") && MatchesStatus(l, "all"));
  }

  /** The search looks at name, company and email only: two leads that agree
      on those three match the same terms, whatever their phone or notes. */
  lemma SearchIgnoresOtherFields(a: Lead, b: Lead, term: string)
    requires a.name == b.name && a.company == b.company && a.email == b.email
    ensures MatchesSearch(a, term) <==> MatchesSearch(b, term)
  {
  }

  // ----------------------------------------------------------------- stats

  /** The summary cards' figures. */
  datatype Stats = Stats(total: nat, newLeads: nat, qualified: nat, proposals: nat, won: nat)

  /** The leads with status `s`. */
  function WithStatus(leads: seq<Lead>, s: Status): seq<Lead> {
    Seqs.Filter(leads, (l: Lead) => l.status == s)
  }

  /** The status of each lead, in list order. */
  function StatusList(leads: seq<Lead>): (r: seq<Status>)
    ensures |r| == |leads|
  {
    seq(|leads|, i requires 0 <= i < |leads| => leads[i].status)
  }

  /** The leads counted for `s` are as many as the times `s` occurs among
      the leads' statuses. */
  lemma {:induction false} StatusCount(leads: seq<Lead>, s: Status)
    ensures |WithStatus(leads, s)| == multiset(StatusList(leads))[s]
  {
    if leads != [] {
      StatusCount(leads[1..], s);
      assert StatusList(leads) == [leads[0].status] + StatusList(leads[1..]);
    }
  }

  /** `leadStats`: the number of leads, and of those with each of the four
      statuses shown. The four add up to the total less the lost leads, so
      they reach the total exactly when no lead is lost. */
  function LeadStats(leads: seq<Lead>): (st: Stats)
    ensures st.total == |leads|
    ensures st.newLeads == multiset(StatusList(leads))[New]
    ensures st.qualified == multiset(StatusList(leads))[Qualified]
    ensures st.proposals == multiset(StatusList(leads))[ProposalSent]
    ensures st.won == multiset(StatusList(leads))[Won]
    ensures st.newLeads + st.qualified + st.proposals + st.won + |WithStatus(leads, Lost)| == st.total
    ensures st.newLeads + st.qualified + st.proposals + st.won <= st.total
    ensures st.newLeads + st.qualified + st.proposals + st.won == st.total
        <==> forall l :: l in leads ==> l.status != Lost
  {
    StatusesPartition(leads);
    NoneLost(leads);
    StatusCount(leads, New);
    StatusCount(leads, Qualified);
    StatusCount(leads, ProposalSent);
    StatusCount(leads, Won);
    Stats(|leads|, |WithStatus(leads, New)|, |WithStatus(leads, Qualified)|,
          |WithStatus(leads, ProposalSent)|, |WithStatus(leads, Won)|)
  }

  /** No lead has status `s` exactly when none is counted for it. */
  lemma NoneLost(leads: seq<Lead>)
    ensures |WithStatus(leads, Lost)| == 0 <==> forall l :: l in leads ==> l.status != Lost
  {
    if forall l :: l in leads ==> l.status != Lost {
      Seqs.FilterNone(leads, (l: Lead) => l.status == Lost);
    } else {
      var l :| l in leads && l.status == Lost;
      assert l in WithStatus(leads, Lost);
    }
  }

  /** Each lead has exactly one of the five statuses. */
  lemma {:induction false} StatusesPartition(leads: seq<Lead>)
    ensures |WithStatus(leads, New)| + |WithStatus(leads, Qualified)| + |WithStatus(leads, ProposalSent)|
          + |WithStatus(leads, Won)| + |WithStatus(leads, Lost)| == |leads|
  {
    if leads != [] {
      StatusesPartition(leads[1..]);
    }
  }
}
