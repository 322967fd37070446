/**
 The records and enumerations of the triage dashboard: triage levels, staff
 roles, the views of the single-page application, the interface languages,
 patients and users.
 */
module Types {

  datatype Option<+T> = None | Some(value: T)

  /** Triage level; P1 is the most urgent, P5 the least. */
  datatype Priority = P1 | P2 | P3 | P4 | P5

  /** The ordinal of a triage level, 1 for P1 up to 5 for P5. */
  function Rank(p: Priority): (r: nat)
    ensures 1 <= r <= 5
  {
    match p
    case P1 => 1
    case P2 => 2
    case P3 => 3
    case P4 => 4
    case P5 => 5
  }

  /** The text the application stores and compares for a level: "P1" .. "P5". */
  function PriorityCode(p: Priority): (c: string)
    ensures |c| == 2 && c[0] == 'P'
    ensures c[1] as int == '0' as int + Rank(p)
  {
    match p
    case P1 => "P1"
    case P2 => "P2"
    case P3 => "P3"
    case P4 => "P4"
    case P5 => "P5"
  }

  /** Lexicographic comparison of two strings by code point, the order
      `localeCompare` induces on the ASCII codes of the triage levels. */
  function LexLe(a: string, b: string): bool
    decreases |a|
  {
    if |a| == 0 then true
    else if |b| == 0 then false
    else if a[0] != b[0] then a[0] < b[0]
    else LexLe(a[1..], b[1..])
  }

  /** Comparing the level codes as text orders the levels exactly as their ranks do. */
  lemma CodeOrderIsRankOrder(a: Priority, b: Priority)
    ensures LexLe(PriorityCode(a), PriorityCode(b)) <==> Rank(a) <= Rank(b)
  {
    var ca, cb := PriorityCode(a), PriorityCode(b);
    assert LexLe(ca, cb) == LexLe(ca[1..], cb[1..]);
    assert ca[1..][0] == ca[1] && cb[1..][0] == cb[1];
    assert ca[1..][1..] == [] && cb[1..][1..] == [];
    assert LexLe(ca[1..][1..], cb[1..][1..]);
  }

  datatype Role = Nurse | Doctor | Admin | Manager

  datatype View = Landing | Dashboard | SignIn | SignUp | Billing | AdminPanel | ApiDocs | Profile

  datatype Language = En | Fr | Ar | Dar | Tzm

  /** One point of a patient's vital-sign history. */
  datatype VitalSample = VitalSample(hr: real, spo2: real, time: string)

  /** Vital signs at intake; a missing history is the empty sequence. */
  datatype Vitals = Vitals(hr: real, bp: string, spo2: real, temp: real, history: seq<VitalSample>)

  /** One feature's contribution to the displayed triage explanation. */
  datatype ShapValue = ShapValue(feature: string, value: int)

  datatype Patient = Patient(
    id: string,
    name: string,
    age: int,
    gender: string,
    vitals: Vitals,
    symptoms: string,
    priority: Priority,
    arrivalTime: string,
    waitTimeSeconds: nat,
    assignedDoctor: Option<string>,
    riskScore: int,
    predictedWaitMinutes: int,
    shapValues: seq<ShapValue>,
    explanation: Option<string>,
    isHighRisk: Option<bool>
  )

  datatype User = User(
    id: string,
    email: string,
    name: string,
    role: Role,
    hospital: string,
    specialty: Option<string>,
    avatar: Option<string>
  )
}
