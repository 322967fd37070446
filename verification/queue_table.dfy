/**
 The queue table component: its rows in triage order, the total it reports,
 the badge style per triage level, and the vital-sign alert colouring.
 */
module QueueTable {
  import opened Types
  import opened QueueOrder

  /** The table's rows: a sorted copy of the patient list. The input is an
      immutable value, so the caller's list is untouched by construction. */
  function SortedPatients(ps: seq<Patient>): (r: seq<Patient>)
    ensures SortedByPriority(r)
    ensures multiset(r) == multiset(ps)
    ensures forall q: Priority :: OfLevel(r, q) == OfLevel(ps, q)
  {
    var r := SortByPriority(ps);
    forall q: Priority
      ensures OfLevel(r, q) == OfLevel(ps, q)
    {
      SortIsStable(ps, q);
    }
    r
  }

  /** The "total active" figure in the table header. */
  function TotalActive(ps: seq<Patient>): nat
  {
    |ps|
  }

  /** The header total counts exactly the rows shown, whatever their order. */
  lemma RowsMatchTotal(ps: seq<Patient>)
    ensures |SortedPatients(ps)| == TotalActive(ps)
    ensures forall other: seq<Patient> :: multiset(other) == multiset(ps) ==> TotalActive(other) == TotalActive(ps)
  {
    var r := SortedPatients(ps);
    assert |multiset(r)| == |multiset(ps)|;
    forall other: seq<Patient> | multiset(other) == multiset(ps)
      ensures TotalActive(other) == TotalActive(ps)
    {
      assert |multiset(other)| == |multiset(ps)|;
    }
  }

  const DEFAULT_BADGE := "bg-gray-200 text-gray-700"
  const BADGE_P1 := "bg-red-500 text-white shadow-lg shadow-red-200 animate-pulse"
  const BADGE_P2 := "bg-orange-500 text-white"
  const BADGE_P3 := "bg-yellow-400 text-gray-900"
  const BADGE_P4 := "bg-green-500 text-white"
  const BADGE_P5 := "bg-nhs-blue text-white"

  /** The badge classes for a level code; any other text gets the grey default. */
  function PriorityClasses(code: string): (r: string)
    ensures (exists p: Priority :: PriorityCode(p) == code) <==> r != DEFAULT_BADGE
  {
    if code == "P1" then
      assert PriorityCode(P1) == code;
      BADGE_P1
    else if code == "P2" then
      assert PriorityCode(P2) == code;
      BADGE_P2
    else if code == "P3" then
      assert PriorityCode(P3) == code;
      BADGE_P3
    else if code == "P4" then
      assert PriorityCode(P4) == code;
      BADGE_P4
    else if code == "P5" then
      assert PriorityCode(P5) == code;
      BADGE_P5
    else
      DEFAULT_BADGE
  }

  /** Each of the five levels has a badge style of its own. */
  lemma BadgesDistinct(a: Priority, b: Priority)
    ensures PriorityClasses(PriorityCode(a)) == PriorityClasses(PriorityCode(b)) <==> a == b
  {
  }

  const ALERT_SPO2 := "text-red-500"
  const ALERT_HR := "text-orange-500"
  const NORMAL_VITAL := "text-gray-700"

  /** Oxygen saturation is shown in red below 92 %. */
  function SpO2Class(spo2: real): (r: string)
    ensures r == ALERT_SPO2 <==> spo2 < 92.0
    ensures r == ALERT_SPO2 || r == NORMAL_VITAL
  {
    if spo2 < 92.0 then ALERT_SPO2 else NORMAL_VITAL
  }

  /** Heart rate is shown in orange above 110 beats per minute. */
  function HrClass(hr: real): (r: string)
    ensures r == ALERT_HR <==> hr > 110.0
    ensures r == ALERT_HR || r == NORMAL_VITAL
  {
    if hr > 110.0 then ALERT_HR else NORMAL_VITAL
  }
}
