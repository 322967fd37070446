/**
 The dashboard's derived views of the patient queue: the filtered and
 triage-ordered list shown in the queue panel, and the header statistics.
 */
module DashboardView {
  import opened Types
  import opened Text
  import opened QueueOrder

  /** The level selector: every level, or one level only. */
  datatype PriorityFilter = AllLevels | OnlyLevel(level: Priority)

  /** The search box: the lower-cased name contains the lower-cased query,
      or the identifier contains the query as typed. */
  predicate MatchesSearch(p: Patient, query: string)
  {
    Contains(Lower(p.name), Lower(query)) || Contains(p.id, query)
  }

  predicate MatchesFilter(p: Patient, f: PriorityFilter)
  {
    f.AllLevels? || p.priority == f.level
  }

  /** A patient appears in the queue panel iff both the search and the level selector accept it. */
  predicate Shown(p: Patient, f: PriorityFilter, query: string)
  {
    MatchesSearch(p, query) && MatchesFilter(p, f)
  }

  /** The patients the panel keeps, in queue order (the `filter` step). */
  function Select(ps: seq<Patient>, f: PriorityFilter, query: string): (r: seq<Patient>)
    ensures forall p :: multiset(r)[p] == (if Shown(p, f, query) then multiset(ps)[p] else 0)
    ensures IsSubsequence(r, ps)
  {
    if |ps| == 0 then []
    else
      assert ps == [ps[0]] + ps[1..];
      var rest := Select(ps[1..], f, query);
      if Shown(ps[0], f, query) then
        var r := [ps[0]] + rest;
        assert r[0] == ps[0] && r[1..] == rest;
        r
      else rest
  }

  lemma SelectCons(x: Patient, rest: seq<Patient>, f: PriorityFilter, query: string)
    ensures Select([x] + rest, f, query)
      == (if Shown(x, f, query) then [x] + Select(rest, f, query) else Select(rest, f, query))
  {
    assert ([x] + rest)[1..] == rest;
  }

  /** The queue panel's list: the shown patients, ordered by triage level. */
  function FilteredPatients(ps: seq<Patient>, f: PriorityFilter, query: string): (r: seq<Patient>)
    ensures forall i :: 0 <= i < |r| ==> Shown(r[i], f, query)
    ensures forall i :: 0 <= i < |ps| && Shown(ps[i], f, query) ==> ps[i] in r
    ensures forall p :: multiset(r)[p] == (if Shown(p, f, query) then multiset(ps)[p] else 0)
    ensures SortedByPriority(r)
  {
    var sel := Select(ps, f, query);
    var r := SortByPriority(sel);
    assert forall i :: 0 <= i < |r| ==> Shown(r[i], f, query) by {
      forall i | 0 <= i < |r|
        ensures Shown(r[i], f, query)
      {
        assert multiset(r)[r[i]] > 0;
      }
    }
    assert forall i :: 0 <= i < |ps| && Shown(ps[i], f, query) ==> ps[i] in r by {
      forall i | 0 <= i < |ps| && Shown(ps[i], f, query)
        ensures ps[i] in r
      {
        assert multiset(ps)[ps[i]] > 0;
        assert multiset(r)[ps[i]] > 0;
      }
    }
    r
  }

  /** Within one triage level the panel keeps the queue's order: its
      patients of that level are the filter's, which are a subsequence of
      the queue's patients of that level. */
  lemma FilteredKeepsQueueOrder(ps: seq<Patient>, f: PriorityFilter, query: string, q: Priority)
    ensures OfLevel(FilteredPatients(ps, f, query), q) == OfLevel(Select(ps, f, query), q)
    ensures IsSubsequence(OfLevel(FilteredPatients(ps, f, query), q), OfLevel(ps, q))
  {
    SortIsStable(Select(ps, f, query), q);
    OfLevelSubsequence(Select(ps, f, query), ps, q);
  }

  lemma NoFilterStep(ps: seq<Patient>)
    requires |ps| > 0
    requires Select(ps[1..], AllLevels, "") == ps[1..]
    ensures Select(ps, AllLevels, "") == ps
  {
    ContainsEmpty(Lower(ps[0].name));
    assert Lower("") == "";
    assert Shown(ps[0], AllLevels, "");
    assert ps == [ps[0]] + ps[1..];
    SelectCons(ps[0], ps[1..], AllLevels, "");
  }

  /** With an empty search and every level selected the panel shows the
      whole queue in triage order. */
  lemma {:induction false} NoFilterShowsAll(ps: seq<Patient>)
    ensures Select(ps, AllLevels, "") == ps
    ensures FilteredPatients(ps, AllLevels, "") == SortByPriority(ps)
  {
    if |ps| > 0 {
      NoFilterShowsAll(ps[1..]);
      NoFilterStep(ps);
    }
  }

  // ------------------------------------------------------------- statistics

  /** The header cards: waiting, critical (P1 or P2), mean P3 wait in whole
      minutes, and the fixed staff-load figure. */
  datatype Stats = Stats(waiting: nat, critical: nat, avgWaitMins: nat, staffLoad: nat)

  const STAFF_LOAD: nat := 85

  predicate IsCritical(p: Patient)
  {
    p.priority == P1 || p.priority == P2
  }

  /** The critical filter: each P1 or P2 patient as often as in the queue, no other patient. */
  function CriticalPatients(ps: seq<Patient>): (r: seq<Patient>)
    ensures |r| <= |ps|
    ensures forall p :: multiset(r)[p] == (if IsCritical(p) then multiset(ps)[p] else 0)
  {
    if |ps| == 0 then []
    else
      assert ps == [ps[0]] + ps[1..];
      if IsCritical(ps[0]) then [ps[0]] + CriticalPatients(ps[1..])
      else CriticalPatients(ps[1..])
  }

  function CountLevel(ps: seq<Patient>, q: Priority): nat
  {
    |OfLevel(ps, q)|
  }

  /** Total seconds waited by the patients of `ps`. */
  function WaitSum(ps: seq<Patient>): nat
  {
    if |ps| == 0 then 0 else ps[0].waitTimeSeconds + WaitSum(ps[1..])
  }

  function Max(a: int, b: int): int
  {
    if a >= b then a else b
  }

  /** The critical patients are the P1 patients and the P2 patients. */
  lemma {:induction false} CriticalIsP1AndP2(ps: seq<Patient>)
    ensures |CriticalPatients(ps)| == CountLevel(ps, P1) + CountLevel(ps, P2)
  {
    if |ps| > 0 {
      CriticalIsP1AndP2(ps[1..]);
    }
  }

  /** Every patient is of exactly one level. */
  lemma {:induction false} LevelsPartitionQueue(ps: seq<Patient>)
    ensures CountLevel(ps, P1) + CountLevel(ps, P2) + CountLevel(ps, P3)
          + CountLevel(ps, P4) + CountLevel(ps, P5) == |ps|
  {
    if |ps| > 0 {
      LevelsPartitionQueue(ps[1..]);
    }
  }

  /** Division rounding down, as `Math.floor` of the quotient does for
      non-negative operands. */
  function FloorDiv(a: nat, d: nat): (q: nat)
    requires d > 0
    ensures d * q <= a < d * (q + 1)
  {
    var q := a / d;
    assert a == d * q + a % d;
    assert d * (q + 1) == d * q + d;
    q
  }

  /** Whole minutes in the mean wait of the P3 patients (0 when there are none). */
  function MeanP3Minutes(ps: seq<Patient>): nat
  {
    FloorDiv(WaitSum(OfLevel(ps, P3)), 60 * Max(1, CountLevel(ps, P3)))
  }

  /** The header statistics. The mean P3 wait is the floor of the P3 wait
      total over the number of P3 patients (at least one), in minutes. */
  function ComputeStats(ps: seq<Patient>): (st: Stats)
    ensures st.waiting == |ps|
    ensures st.critical == CountLevel(ps, P1) + CountLevel(ps, P2)
    ensures st.critical <= st.waiting
    ensures CountLevel(ps, P3) == 0 ==> st.avgWaitMins == 0
    ensures st.staffLoad == STAFF_LOAD
  {
    CriticalIsP1AndP2(ps);
    LevelsPartitionQueue(ps);
    assert CountLevel(ps, P3) == 0 ==> WaitSum(OfLevel(ps, P3)) == 0;
    Stats(|ps|, |CriticalPatients(ps)|, MeanP3Minutes(ps), STAFF_LOAD)
  }

  /** The mean P3 wait is the number of whole minutes in the P3 patients'
      average wait: the largest m with 60 * m * (P3 count) within their
      total wait. */
  lemma AvgWaitIsFlooredMean(ps: seq<Patient>)
    ensures var d := 60 * Max(1, CountLevel(ps, P3));
      d * ComputeStats(ps).avgWaitMins <= WaitSum(OfLevel(ps, P3)) < d * (ComputeStats(ps).avgWaitMins + 1)
  {
    var a, d := WaitSum(OfLevel(ps, P3)), 60 * Max(1, CountLevel(ps, P3));
    var q := FloorDiv(a, d);
    assert ComputeStats(ps).avgWaitMins == q by {
      assert MeanP3Minutes(ps) == q;
    }
  }
}
