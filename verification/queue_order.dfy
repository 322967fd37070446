/**
 Ordering of the patient queue by triage level. Both queue views sort a copy
 of the list with `a.priority.localeCompare(b.priority)`; on the codes
 "P1".."P5" that comparison is the rank order (Types.CodeOrderIsRankOrder),
 and the runtime's sort is stable, so the model is a stable insertion sort
 keyed on the rank.
 */
module QueueOrder {
  import opened Types

  /** Non-decreasing by triage level: every P1 before every P2, and so on. */
  predicate SortedByPriority(s: seq<Patient>)
  {
    forall i, j :: 0 <= i < j < |s| ==> Rank(s[i].priority) <= Rank(s[j].priority)
  }

  /** The patients of one triage level, in their order in `s`. */
  function OfLevel(s: seq<Patient>, q: Priority): (r: seq<Patient>)
    ensures |r| <= |s|
  {
    if |s| == 0 then []
    else if s[0].priority == q then [s[0]] + OfLevel(s[1..], q)
    else OfLevel(s[1..], q)
  }

  /** Every patient of `rest` is at level `h` or later when `rest` holds `x`
      and `tail`, and both are. */
  lemma HeadBoundsRest(h: Patient, x: Patient, tail: seq<Patient>, rest: seq<Patient>)
    requires Rank(h.priority) <= Rank(x.priority)
    requires forall k :: 0 <= k < |tail| ==> Rank(h.priority) <= Rank(tail[k].priority)
    requires multiset(rest) == multiset{x} + multiset(tail)
    ensures forall k :: 0 <= k < |rest| ==> Rank(h.priority) <= Rank(rest[k].priority)
  {
    forall k | 0 <= k < |rest|
      ensures Rank(h.priority) <= Rank(rest[k].priority)
    {
      var y := rest[k];
      assert y in multiset(rest);
      if y != x {
        assert y in multiset(tail);
        assert y in tail;
      }
    }
  }

  /** `r` is `s` with some elements left out: the rest in their order in `s`. */
  predicate IsSubsequence<T(==)>(r: seq<T>, s: seq<T>)
    decreases |s|
  {
    if |r| == 0 then true
    else if |s| == 0 then false
    else (r[0] == s[0] && IsSubsequence(r[1..], s[1..])) || IsSubsequence(r, s[1..])
  }

  /** Taking one level's patients keeps a subsequence a subsequence. */
  lemma {:induction false} OfLevelSubsequence(r: seq<Patient>, s: seq<Patient>, q: Priority)
    requires IsSubsequence(r, s)
    ensures IsSubsequence(OfLevel(r, q), OfLevel(s, q))
    decreases |s|
  {
    var a, b := OfLevel(r, q), OfLevel(s, q);
    if |r| > 0 {
      var tail := OfLevel(s[1..], q);
      if r[0] == s[0] && IsSubsequence(r[1..], s[1..]) {
        OfLevelSubsequence(r[1..], s[1..], q);
        if s[0].priority == q {
          assert a == [r[0]] + OfLevel(r[1..], q);
          assert b == [s[0]] + tail;
          assert a[0] == b[0] && a[1..] == OfLevel(r[1..], q) && b[1..] == tail;
        }
      } else {
        OfLevelSubsequence(r, s[1..], q);
        if s[0].priority == q && |a| > 0 {
          assert b == [s[0]] + tail && b[1..] == tail;
        }
      }
    }
  }

  /** Places `x` before the first patient of the same or a later level. */
  function Insert(x: Patient, t: seq<Patient>): (r: seq<Patient>)
    requires SortedByPriority(t)
    ensures SortedByPriority(r)
    ensures multiset(r) == multiset{x} + multiset(t)
    ensures |r| == |t| + 1
  {
    if |t| == 0 || Rank(x.priority) <= Rank(t[0].priority) then
      [x] + t
    else
      var tail := t[1..];
      assert SortedByPriority(tail);
      var rest := Insert(x, tail);
      assert t == [t[0]] + tail;
      HeadBoundsRest(t[0], x, tail, rest);
      [t[0]] + rest
  }

  /** A patient of a later level than the head is inserted past it. */
  lemma InsertPast(x: Patient, h: Patient, tail: seq<Patient>)
    requires SortedByPriority([h] + tail)
    requires Rank(h.priority) < Rank(x.priority)
    ensures SortedByPriority(tail)
    ensures Insert(x, [h] + tail) == [h] + Insert(x, tail)
  {
    var t := [h] + tail;
    assert t[0] == h && t[1..] == tail;
    assert SortedByPriority(tail) by {
      forall i, j | 0 <= i < j < |tail|
        ensures Rank(tail[i].priority) <= Rank(tail[j].priority)
      {
        assert tail[i] == t[i + 1] && tail[j] == t[j + 1];
      }
    }
  }

  /** The queue in triage order: a sorted permutation of its input. */
  function SortByPriority(s: seq<Patient>): (r: seq<Patient>)
    ensures SortedByPriority(r)
    ensures multiset(r) == multiset(s)
    ensures |r| == |s|
  {
    if |s| == 0 then []
    else
      assert s == [s[0]] + s[1..];
      Insert(s[0], SortByPriority(s[1..]))
  }

  lemma {:induction false} InsertOfLevel(x: Patient, t: seq<Patient>, q: Priority)
    requires SortedByPriority(t)
    ensures OfLevel(Insert(x, t), q)
      == (if x.priority == q then [x] + OfLevel(t, q) else OfLevel(t, q))
    decreases |t|
  {
    if |t| == 0 || Rank(x.priority) <= Rank(t[0].priority) {
      assert ([x] + t)[1..] == t;
    } else {
      InsertOfLevel(x, t[1..], q);
      var rest := Insert(x, t[1..]);
      assert ([t[0]] + rest)[1..] == rest;
    }
  }

  /** Sorting is stable: within each triage level the queue keeps its order. */
  lemma {:induction false} SortIsStable(s: seq<Patient>, q: Priority)
    ensures OfLevel(SortByPriority(s), q) == OfLevel(s, q)
    decreases |s|
  {
    if |s| > 0 {
      SortIsStable(s[1..], q);
      InsertOfLevel(s[0], SortByPriority(s[1..]), q);
    }
  }

  /** A queue already in triage order is left as it is. */
  lemma {:induction false} SortKeepsSorted(s: seq<Patient>)
    requires SortedByPriority(s)
    ensures SortByPriority(s) == s
    decreases |s|
  {
    if |s| > 0 {
      assert SortedByPriority(s[1..]);
      SortKeepsSorted(s[1..]);
      assert s == [s[0]] + s[1..];
    }
  }

  /** Sorting twice is sorting once. */
  lemma SortIdempotent(s: seq<Patient>)
    ensures SortByPriority(SortByPriority(s)) == SortByPriority(s)
  {
    SortKeepsSorted(SortByPriority(s));
  }

  /** The triage level of rank `k`. */
  function LevelAt(k: nat): (q: Priority)
    requires 1 <= k <= 5
    ensures Rank(q) == k
  {
    if k == 1 then P1 else if k == 2 then P2 else if k == 3 then P3 else if k == 4 then P4 else P5
  }

  /** The patients of ranks `k` to 5, level after level, each level in its
      original order. */
  function GroupedFrom(s: seq<Patient>, k: nat): seq<Patient>
    requires 1 <= k
    decreases 6 - k
  {
    if k > 5 then [] else OfLevel(s, LevelAt(k)) + GroupedFrom(s, k + 1)
  }

  /** The queue regrouped level by level: all P1 patients, then all P2, ...,
      each group in its original order. */
  function Grouped(s: seq<Patient>): seq<Patient>
  {
    GroupedFrom(s, 1)
  }

  lemma {:induction false} NoneOfLevel(t: seq<Patient>, q: Priority)
    requires forall k :: 0 <= k < |t| ==> Rank(q) < Rank(t[k].priority)
    ensures OfLevel(t, q) == []
    decreases |t|
  {
    if |t| > 0 {
      NoneOfLevel(t[1..], q);
    }
  }

  lemma OfLevelCons(x: Patient, rest: seq<Patient>, q: Priority)
    ensures OfLevel([x] + rest, q) == (if x.priority == q then [x] + OfLevel(rest, q) else OfLevel(rest, q))
  {
    assert ([x] + rest)[1..] == rest;
  }

  /** A patient whose level comes before rank `k` is not in the regrouping
      from `k` on. */
  lemma {:induction false} GroupedFromSkip(x: Patient, rest: seq<Patient>, k: nat)
    requires Rank(x.priority) < k
    ensures GroupedFrom([x] + rest, k) == GroupedFrom(rest, k)
    decreases 6 - k
  {
    if k <= 5 {
      OfLevelCons(x, rest, LevelAt(k));
      GroupedFromSkip(x, rest, k + 1);
    }
  }

  lemma LevelAtRank(p: Priority)
    ensures LevelAt(Rank(p)) == p
  {
    match p
    case P1 =>
    case P2 =>
    case P3 =>
    case P4 =>
    case P5 =>
  }

  /** At the patient's own level it heads the regrouping. */
  lemma GroupedFromAtLevel(x: Patient, rest: seq<Patient>, k: nat)
    requires k == Rank(x.priority)
    ensures GroupedFrom([x] + rest, k) == [x] + GroupedFrom(rest, k)
  {
    var s := [x] + rest;
    LevelAtRank(x.priority);
    var q := x.priority;
    var b, g := OfLevel(rest, q), GroupedFrom(rest, k + 1);
    assert GroupedFrom(rest, k) == b + g;
    assert GroupedFrom(s, k) == OfLevel(s, q) + GroupedFrom(s, k + 1);
    OfLevelCons(x, rest, q);
    assert OfLevel(s, q) == [x] + b;
    GroupedFromSkip(x, rest, k + 1);
    assert ([x] + b) + g == [x] + (b + g);
  }

  lemma {:induction false} GroupedFromCons(x: Patient, rest: seq<Patient>, k: nat)
    requires 1 <= k <= Rank(x.priority)
    requires forall q: Priority :: k <= Rank(q) < Rank(x.priority) ==> OfLevel(rest, q) == []
    ensures GroupedFrom([x] + rest, k) == [x] + GroupedFrom(rest, k)
    decreases 6 - k
  {
    if k == Rank(x.priority) {
      GroupedFromAtLevel(x, rest, k);
    } else {
      var q, s := LevelAt(k), [x] + rest;
      var g := GroupedFrom(rest, k + 1);
      GroupedFromCons(x, rest, k + 1);
      OfLevelCons(x, rest, q);
      assert OfLevel(rest, q) == [];
      assert GroupedFrom(rest, k) == [] + g;
      assert GroupedFrom(s, k) == [] + ([x] + g);
    }
  }

  /** A queue in triage order already is its regrouping. */
  lemma {:induction false} SortedIsGrouped(r: seq<Patient>)
    requires SortedByPriority(r)
    ensures r == Grouped(r)
    decreases |r|
  {
    if |r| > 0 {
      var x, rest := r[0], r[1..];
      assert SortedByPriority(rest);
      SortedIsGrouped(rest);
      forall q: Priority | Rank(q) < Rank(x.priority)
        ensures OfLevel(rest, q) == []
      {
        NoneOfLevel(rest, q);
      }
      assert r == [x] + rest;
      GroupedFromCons(x, rest, 1);
    }
  }

  /** Queues with the same patients level by level regroup alike. */
  lemma {:induction false} GroupedFromSameLevels(s: seq<Patient>, t: seq<Patient>, k: nat)
    requires 1 <= k
    requires forall q: Priority :: OfLevel(s, q) == OfLevel(t, q)
    ensures GroupedFrom(s, k) == GroupedFrom(t, k)
    decreases 6 - k
  {
    if k <= 5 {
      GroupedFromSameLevels(s, t, k + 1);
    }
  }

  /** The triage order in closed form, and its uniqueness: a queue that is
      sorted by level and keeps each level's order is exactly the regrouped
      input, which is what SortByPriority returns. */
  lemma SortIsGrouping(s: seq<Patient>, r: seq<Patient>)
    requires SortedByPriority(r)
    requires forall q: Priority :: OfLevel(r, q) == OfLevel(s, q)
    ensures r == Grouped(s)
    ensures SortByPriority(s) == Grouped(s)
  {
    SortedIsGrouped(r);
    GroupedFromSameLevels(r, s, 1);
    var t := SortByPriority(s);
    SortedIsGrouped(t);
    forall q: Priority
      ensures OfLevel(t, q) == OfLevel(s, q)
    {
      SortIsStable(s, q);
    }
    GroupedFromSameLevels(t, s, 1);
  }
}
