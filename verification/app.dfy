/**
 The application shell: the patient queue and session held in state, the
 once-per-second wait tick, admission of a newly triaged patient, sign-in
 and logout, view routing with its administrator gate, and the text
 direction per language.
 */
module App {
  import opened Types
  import opened Text
  import opened QueueOrder
  import opened DashboardView
  import Auth

  /** Everything the shell keeps in state, plus the browser store it writes. */
  datatype AppState = AppState(
    lang: Language,
    view: View,
    user: Option<User>,
    patients: seq<Patient>,
    isAnalyzing: bool,
    isSearchOpen: bool,
    store: Auth.Store
  )

  // -------------------------------------------------------------- language

  const RTL_LANGUAGES: seq<Language> := [Ar, Dar]

  /** Arabic and Darija are written right to left. */
  function IsRtl(lang: Language): (r: bool)
    ensures r <==> lang == Ar || lang == Dar
  {
    lang in RTL_LANGUAGES
  }

  /** The `dir` attribute set on the document. */
  function Direction(lang: Language): string
  {
    if IsRtl(lang) then "rtl" else "ltr"
  }

  /** Exactly Arabic and Darija get a right-to-left document. */
  lemma RtlLanguages()
    ensures forall l: Language :: Direction(l) == "rtl" <==> l in {Ar, Dar}
    ensures Direction(En) == "ltr" && Direction(Fr) == "ltr" && Direction(Tzm) == "ltr"
  {
    assert "rtl" != "ltr" by { assert "rtl"[0] != "ltr"[0]; }
  }

  // ------------------------------------------------------------------ tick

  function Bump(p: Patient): Patient
  {
    p.(waitTimeSeconds := p.waitTimeSeconds + 1)
  }

  /** One second passes: every patient has waited one second more. */
  function Tick(ps: seq<Patient>): (r: seq<Patient>)
    ensures |r| == |ps|
    ensures forall i :: 0 <= i < |ps| ==> r[i].waitTimeSeconds == ps[i].waitTimeSeconds + 1
    ensures forall i :: 0 <= i < |ps| ==> r[i] == ps[i].(waitTimeSeconds := r[i].waitTimeSeconds)
  {
    if |ps| == 0 then [] else [Bump(ps[0])] + Tick(ps[1..])
  }

  function TickState(s: AppState): (r: AppState)
    ensures r.patients == Tick(s.patients)
    ensures r.(patients := s.patients) == s
  {
    s.(patients := Tick(s.patients))
  }

  /** A tick keeps every level's patients, in order, one second older. */
  lemma {:induction false} TickKeepsLevels(ps: seq<Patient>, q: Priority)
    ensures OfLevel(Tick(ps), q) == Tick(OfLevel(ps, q))
  {
    if |ps| > 0 {
      TickKeepsLevels(ps[1..], q);
      assert Tick(ps)[1..] == Tick(ps[1..]);
    }
  }

  lemma {:induction false} TickAddsToWaitSum(ps: seq<Patient>)
    ensures WaitSum(Tick(ps)) == WaitSum(ps) + |ps|
  {
    if |ps| > 0 {
      TickAddsToWaitSum(ps[1..]);
      assert Tick(ps)[1..] == Tick(ps[1..]);
    }
  }

  /** The header statistics across a tick: the waiting and critical counts
      are unchanged, and every P3 patient adds one second to the P3 total. */
  lemma TickStats(ps: seq<Patient>)
    ensures ComputeStats(Tick(ps)).waiting == ComputeStats(ps).waiting
    ensures ComputeStats(Tick(ps)).critical == ComputeStats(ps).critical
    ensures WaitSum(OfLevel(Tick(ps), P3)) == WaitSum(OfLevel(ps, P3)) + CountLevel(ps, P3)
  {
    TickKeepsLevels(ps, P1);
    TickKeepsLevels(ps, P2);
    TickKeepsLevels(ps, P3);
    TickAddsToWaitSum(OfLevel(ps, P3));
  }

  lemma TickCons(x: Patient, t: seq<Patient>)
    ensures Tick([x] + t) == [Bump(x)] + Tick(t)
  {
    assert ([x] + t)[1..] == t;
  }

  lemma TickKeepsSorted(t: seq<Patient>)
    requires SortedByPriority(t)
    ensures SortedByPriority(Tick(t))
  {
  }

  /** Inserting at the head commutes with a tick. */
  lemma TickInsertAtHead(x: Patient, t: seq<Patient>)
    requires SortedByPriority(t)
    requires |t| == 0 || Rank(x.priority) <= Rank(t[0].priority)
    ensures Tick(Insert(x, t)) == Insert(Bump(x), Tick(t))
  {
    TickKeepsSorted(t);
    TickCons(x, t);
    assert |t| > 0 ==> Tick(t)[0].priority == t[0].priority;
  }

  /** Inserting past the head commutes with a tick once it does for the tail. */
  lemma TickInsertPast(x: Patient, h: Patient, tail: seq<Patient>)
    requires SortedByPriority([h] + tail)
    requires Rank(h.priority) < Rank(x.priority)
    requires SortedByPriority(Tick(tail))
    requires Tick(Insert(x, tail)) == Insert(Bump(x), Tick(tail))
    ensures Tick(Insert(x, [h] + tail)) == Insert(Bump(x), Tick([h] + tail))
  {
    InsertPast(x, h, tail);
    TickKeepsSorted([h] + tail);
    TickCons(h, tail);
    TickCons(h, Insert(x, tail));
    InsertPast(Bump(x), Bump(h), Tick(tail));
  }

  lemma {:induction false} TickInsert(x: Patient, t: seq<Patient>)
    requires SortedByPriority(t)
    ensures SortedByPriority(Tick(t))
    ensures Tick(Insert(x, t)) == Insert(Bump(x), Tick(t))
    decreases |t|
  {
    TickKeepsSorted(t);
    if |t| == 0 || Rank(x.priority) <= Rank(t[0].priority) {
      TickInsertAtHead(x, t);
    } else {
      var h, tail := t[0], t[1..];
      assert t == [h] + tail;
      InsertPast(x, h, tail);
      TickInsert(x, tail);
      TickInsertPast(x, h, tail);
    }
  }

  /** Ticking and ordering commute: the triage order does not depend on waits. */
  lemma {:induction false} TickCommutesWithSort(ps: seq<Patient>)
    ensures SortByPriority(Tick(ps)) == Tick(SortByPriority(ps))
  {
    if |ps| > 0 {
      TickCommutesWithSort(ps[1..]);
      assert Tick(ps)[1..] == Tick(ps[1..]);
      TickInsert(ps[0], SortByPriority(ps[1..]));
    }
  }

  /** The search and the level filter do not look at waits. */
  lemma ShownIgnoresWait(x: Patient, f: PriorityFilter, query: string)
    ensures Shown(Bump(x), f, query) == Shown(x, f, query)
  {
  }

  lemma TickSelectStep(x: Patient, rest: seq<Patient>, f: PriorityFilter, query: string)
    requires Select(Tick(rest), f, query) == Tick(Select(rest, f, query))
    ensures Select(Tick([x] + rest), f, query) == Tick(Select([x] + rest, f, query))
  {
    TickCons(x, rest);
    ShownIgnoresWait(x, f, query);
    SelectCons(Bump(x), Tick(rest), f, query);
    SelectCons(x, rest, f, query);
    if Shown(x, f, query) {
      TickCons(x, Select(rest, f, query));
    }
  }

  lemma {:induction false} TickCommutesWithSelect(ps: seq<Patient>, f: PriorityFilter, query: string)
    ensures Select(Tick(ps), f, query) == Tick(Select(ps, f, query))
  {
    if |ps| > 0 {
      var x, rest := ps[0], ps[1..];
      assert ps == [x] + rest;
      TickCommutesWithSelect(rest, f, query);
      TickSelectStep(x, rest, f, query);
    }
  }

  /** After a tick the queue panel lists the same patients in the same
      order, each one second older. */
  lemma TickCommutesWithPanel(ps: seq<Patient>, f: PriorityFilter, query: string)
    ensures FilteredPatients(Tick(ps), f, query) == Tick(FilteredPatients(ps, f, query))
  {
    TickCommutesWithSelect(ps, f, query);
    TickCommutesWithSort(Select(ps, f, query));
  }

  // ------------------------------------------------------------- admission

  /** The intake form, with its numeric fields already converted. */
  datatype Intake = Intake(
    name: string,
    age: int,
    gender: string,
    hr: real,
    bp: string,
    spo2: real,
    temp: real,
    symptoms: string
  )

  /** What the awaited triage call yields: a level and an explanation, or
      an exception escaping the call. */
  datatype TriageReply = Triaged(priority: Priority, explanation: string) | Threw

  /** The risk score assigned at admission. */
  function RiskScore(p: Priority): (r: int)
    ensures 0 <= r <= 100
  {
    if p == P1 then 85 else if p == P2 then 50 else 10
  }

  /** The predicted wait in minutes assigned at admission. */
  function PredictedWait(p: Priority): (r: int)
    ensures 0 <= r
  {
    if p == P1 then 0 else if p == P2 then 10 else 30
  }

  /** A more urgent level never gets a lower risk score or a longer predicted wait. */
  lemma AdmissionScalesFollowUrgency(a: Priority, b: Priority)
    requires Rank(a) <= Rank(b)
    ensures RiskScore(a) >= RiskScore(b)
    ensures PredictedWait(a) <= PredictedWait(b)
    ensures a != b && Rank(a) <= 2 ==> RiskScore(a) > RiskScore(b) && PredictedWait(a) < PredictedWait(b)
    ensures Rank(a) >= 3 ==> RiskScore(a) == RiskScore(b) && PredictedWait(a) == PredictedWait(b)
  {
  }

  const ID_PREFIX := "PT-"

  /** "PT-" and a number in 1000..9999; `draw` in 0..8999 stands for the
      random part `floor(random * 9000)`. */
  function PatientId(draw: nat): (id: string)
    requires draw < 9000
    ensures |id| == 7 && id[..3] == ID_PREFIX
    ensures AllDigits(id[3..]) && NumeralValue(id[3..]) == 1000 + draw
    ensures 1000 <= NumeralValue(id[3..]) <= 9999
  {
    var n := 1000 + draw;
    DigitsLength(n, 4);
    DigitsRoundTrip(n);
    var id := ID_PREFIX + Digits(n);
    assert id[3..] == Digits(n);
    id
  }

  /** The fixed explanation weights every admitted patient starts with. */
  const ADMISSION_SHAP: seq<ShapValue> :=
    [ShapValue("Symptoms", 40), ShapValue("SpO2", 20), ShapValue("Age", 15)]

  /** The record built for a newly admitted patient. */
  function NewPatient(form: Intake, priority: Priority, explanation: string, draw: nat, now: string): (p: Patient)
    requires draw < 9000
    ensures p.priority == priority && p.explanation == Some(explanation)
    ensures p.waitTimeSeconds == 0 && p.assignedDoctor == None
    ensures p.riskScore == RiskScore(priority) && p.predictedWaitMinutes == PredictedWait(priority)
    ensures 0 <= p.riskScore <= 100 && 0 <= p.predictedWaitMinutes
    ensures p.name == form.name && p.age == form.age && p.gender == form.gender && p.symptoms == form.symptoms
    ensures p.arrivalTime == now && p.shapValues == ADMISSION_SHAP && p.isHighRisk == None
    ensures p.vitals == Vitals(form.hr, form.bp, form.spo2, form.temp, [])
    ensures |p.id| == 7 && p.id[..3] == ID_PREFIX && AllDigits(p.id[3..])
    ensures 1000 <= NumeralValue(p.id[3..]) <= 9999
  {
    Patient(
      PatientId(draw), form.name, form.age, form.gender,
      Vitals(form.hr, form.bp, form.spo2, form.temp, []),
      form.symptoms, priority, now, 0, None,
      RiskScore(priority), PredictedWait(priority),
      ADMISSION_SHAP, Some(explanation), None)
  }

  /** Submitting the intake form marks the dashboard as analysing. */
  function BeginAdmission(s: AppState): (r: AppState)
    ensures r.isAnalyzing
    ensures r.(isAnalyzing := s.isAnalyzing) == s
  {
    s.(isAnalyzing := true)
  }

  /** The triage call returns: on a reply the new patient goes to the front
      of the current queue; either way analysing ends. */
  function FinishAdmission(s: AppState, form: Intake, reply: TriageReply, draw: nat, now: string): (r: AppState)
    requires draw < 9000
    ensures !r.isAnalyzing
    ensures reply.Threw? ==> r.patients == s.patients
    ensures reply.Triaged? ==> (
      && |r.patients| == |s.patients| + 1
      && r.patients[0] == NewPatient(form, reply.priority, reply.explanation, draw, now)
      && r.patients[1..] == s.patients)
    ensures r.(patients := s.patients, isAnalyzing := s.isAnalyzing) == s
  {
    var patients := match reply
      case Triaged(priority, explanation) =>
        [NewPatient(form, priority, explanation, draw, now)] + s.patients
      case Threw => s.patients;
    s.(patients := patients, isAnalyzing := false)
  }

  /** The whole admission: analysing is over afterwards whether or not the
      triage call failed, and nothing but the queue has changed. */
  lemma AdmissionEndsAnalysis(s: AppState, form: Intake, reply: TriageReply, draw: nat, now: string)
    requires draw < 9000
    ensures var r := FinishAdmission(BeginAdmission(s), form, reply, draw, now);
      !r.isAnalyzing && r.(patients := s.patients, isAnalyzing := s.isAnalyzing) == s
  {
  }

  /** An admission adds one to the waiting count, and one to the critical
      count exactly when the new patient is P1 or P2. */
  lemma AdmissionStats(s: AppState, form: Intake, priority: Priority, explanation: string, draw: nat, now: string)
    requires draw < 9000
    ensures var r := FinishAdmission(s, form, Triaged(priority, explanation), draw, now);
      && ComputeStats(r.patients).waiting == ComputeStats(s.patients).waiting + 1
      && ComputeStats(r.patients).critical
        == ComputeStats(s.patients).critical + (if priority == P1 || priority == P2 then 1 else 0)
  {
    var r := FinishAdmission(s, form, Triaged(priority, explanation), draw, now);
    assert r.patients[1..] == s.patients;
  }

  // ---------------------------------------------------- session and routing

  /** Sign-in (or sign-up) succeeded: remember the user, record it in the
      store as `userJson`, and open the dashboard. */
  function AuthSuccess(s: AppState, u: User, userJson: string): (r: AppState)
    ensures r.user == Some(u) && r.view == Dashboard
    ensures r.store == Auth.SetItem(s.store, Auth.USER_KEY, userJson)
    ensures r.(user := s.user, view := s.view, store := s.store) == s
  {
    s.(user := Some(u), store := Auth.SetItem(s.store, Auth.USER_KEY, userJson), view := Dashboard)
  }

  /** Logout: clear the session keys and the user, back to the landing page. */
  function HandleLogout(s: AppState): (r: AppState)
    ensures r.user == None && r.view == Landing
    ensures r.store.Keys == s.store.Keys - {Auth.USER_KEY, Auth.TOKEN_KEY}
    ensures forall k :: k in r.store ==> r.store[k] == s.store[k]
    ensures r.(user := s.user, view := s.view, store := s.store) == s
  {
    s.(store := Auth.Logout(s.store), user := None, view := Landing)
  }

  /** What the shell renders; a landing page carries where its launch button leads. */
  datatype Screen =
    | LandingScreen(launchTo: View)
    | AuthScreen(mode: View)
    | DashboardScreen
    | BillingScreen
    | AdminScreen
    | ApiDocsScreen

  predicate CanManage(user: Option<User>)
  {
    user.Some? && (user.value.role == Admin || user.value.role == Manager)
  }

  /** The view router. The administrator panel is shown only to
      administrators and managers; everybody else gets the dashboard. */
  function Render(view: View, user: Option<User>): Screen
  {
    match view
    case Landing => LandingScreen(if user.Some? then Dashboard else SignIn)
    case SignIn => AuthScreen(SignIn)
    case SignUp => AuthScreen(SignUp)
    case Dashboard => DashboardScreen
    case Billing => BillingScreen
    case AdminPanel => if CanManage(user) then AdminScreen else DashboardScreen
    case ApiDocs => ApiDocsScreen
    case Profile => LandingScreen(Dashboard)
  }

  /** The navigation bar's view buttons: Home always; Dashboard, Admin (for
      administrators and managers) and Billing once signed in. */
  function NavEntries(user: Option<User>): seq<View>
  {
    [Landing] + (if user.Some? then
      [Dashboard] + (if user.value.role == Admin || user.value.role == Manager then [AdminPanel] else []) + [Billing]
    else [])
  }

  /** The router's gate agrees with the navigation bar: the panel renders
      exactly for the users who are offered its button. */
  lemma AdminGateMatchesNav(user: Option<User>)
    ensures Render(AdminPanel, user) == (if AdminPanel in NavEntries(user) then AdminScreen else DashboardScreen)
  {
    if user.Some? && !(user.value.role == Admin || user.value.role == Manager) {
      assert NavEntries(user) == [Landing, Dashboard, Billing];
    }
  }

  /** The landing page's launch button, when a landing page is shown. */
  function Launch(s: AppState): AppState
  {
    match Render(s.view, s.user)
    case LandingScreen(target) => s.(view := target)
    case _ => s
  }

  /** From the landing page, launch opens the dashboard iff someone is
      signed in, and the sign-in page otherwise. */
  lemma LaunchFromLanding(s: AppState)
    requires s.view == Landing
    ensures Launch(s).view == Dashboard <==> s.user.Some?
    ensures Launch(s).view == SignIn <==> s.user.None?
    ensures Launch(s).(view := Landing) == s
  {
  }

  /** Signing in, the stored record identifies the user; after logout
      nobody is signed in either in state or in the store. */
  lemma SessionLifecycle(s: AppState, u: User, userJson: string, parse: string -> Option<User>)
    requires userJson != ""
    requires parse(userJson) == Some(u)
    ensures Auth.GetCurrentUser(AuthSuccess(s, u, userJson).store, parse) == Some(u)
    ensures var t := HandleLogout(AuthSuccess(s, u, userJson));
      t.user == None && t.view == Landing && Auth.GetCurrentUser(t.store, parse) == None
  {
    Auth.StoredUserIsCurrent(s.store, userJson, parse);
    Auth.NoUserAfterLogout(AuthSuccess(s, u, userJson).store, parse);
  }

  /** End to end: a demo account signs in with the demo password and then
      sees the administrator panel iff its role is administrator or manager. */
  lemma SignInThenAdminPanel(s: AppState, email: string, now: int, userJson: string)
    requires Auth.MockLogin(email, Auth.DEMO_PASSWORD, now).success
    ensures var u := Auth.MockLogin(email, Auth.DEMO_PASSWORD, now).user.value;
      var t := AuthSuccess(s, u, userJson).(view := AdminPanel);
      Render(t.view, t.user) == AdminScreen <==> u.role == Admin || u.role == Manager
  {
  }

  // -------------------------------------------------------- initial state

  // Symptom and explanation texts of the demo patients, named so that the
  // patient records stay short.
  const SYMPTOMS_1 := "Sudden chest pain, respiratory distress, cold sweat."
  const SYMPTOMS_2 := "High grade fever (40C), persistent vomiting, dehydration."
  const SYMPTOMS_3 := "Abdominal pain, nausea for 2 days."
  const EXPLANATION_1 := "Critical hypoxia (89%) and tachycardia (135bpm) in a 60+ patient with chest pain indicates immediate high-acuity priority."
  const EXPLANATION_2 := "Severe hyperpyrexia with systemic signs of dehydration classifies as P2."
  const EXPLANATION_3 := "Stable vitals with localized abdominal discomfort, standard urgency."

  /** The first demo patient: P1, waiting 15 minutes. */
  function DemoPatient1(arrival: string): Patient
  {
    Patient("PT-4782", "A. Bennani", 62, "F",
      Vitals(135.0, "165/105", 89.0, 38.5, []),
      SYMPTOMS_1,
      P1, arrival, 15 * 60, None, 92, 0,
      [ShapValue("SpO2", 45), ShapValue("Heart Rate", 30),
       ShapValue("Blood Pressure", 15), ShapValue("Age", 10)],
      Some(EXPLANATION_1),
      Some(true))
  }

  /** The second demo patient: P2, waiting 40 minutes. */
  function DemoPatient2(arrival: string): Patient
  {
    Patient("PT-3891", "M. Alami", 24, "M",
      Vitals(110.0, "130/85", 96.0, 39.8, []),
      SYMPTOMS_2,
      P2, arrival, 40 * 60, Some("Dr. Hassan"), 45, 12,
      [ShapValue("Temperature", 50), ShapValue("Symptoms", 20), ShapValue("Heart Rate", 15)],
      Some(EXPLANATION_2),
      None)
  }

  /** The third demo patient: P3, waiting two hours. */
  function DemoPatient3(arrival: string): Patient
  {
    Patient("PT-1204", "S. Touhami", 45, "F",
      Vitals(88.0, "120/80", 98.0, 37.2, []),
      SYMPTOMS_3,
      P3, arrival, 120 * 60, None, 12, 45,
      [ShapValue("Duration", 30), ShapValue("Age", 10)],
      Some(EXPLANATION_3),
      None)
  }

  /** The three patients the demo queue starts with; arrival instants are parameters. */
  function InitialPatients(arrival1: string, arrival2: string, arrival3: string): seq<Patient>
  {
    [DemoPatient1(arrival1), DemoPatient2(arrival2), DemoPatient3(arrival3)]
  }

  /** The shell at start-up: landing page, the user recorded in the store,
      and the given queue (InitialPatients in the application). */
  function InitialState(lang: Language, store: Auth.Store, parse: string -> Option<User>, queue: seq<Patient>): (s: AppState)
    ensures s.view == Landing && !s.isAnalyzing && !s.isSearchOpen && s.patients == queue
    ensures s.lang == lang && s.store == store
    ensures Auth.USER_KEY !in store || store[Auth.USER_KEY] == "" ==> s.user == None
    ensures Auth.USER_KEY in store && store[Auth.USER_KEY] != "" ==> s.user == parse(store[Auth.USER_KEY])
  {
    AppState(lang, Landing, Auth.GetCurrentUser(store, parse), queue, false, false, store)
  }

  lemma LevelsOfThree(x: Patient, y: Patient, z: Patient)
    requires x.priority == P1 && y.priority == P2 && z.priority == P3
    ensures OfLevel([x] + ([y] + [z]), P1) == [x]
    ensures OfLevel([x] + ([y] + [z]), P2) == [y]
    ensures OfLevel([x] + ([y] + [z]), P3) == [z]
  {
    forall q: Priority
      ensures OfLevel([x] + ([y] + [z]), q)
        == (if q == P1 then [x] else if q == P2 then [y] else if q == P3 then [z] else [])
    {
      OfLevelCons(z, [], q);
      assert [z] == [z] + [];
      OfLevelCons(y, [z], q);
      OfLevelCons(x, [y] + [z], q);
    }
  }

  /** The header of a P1, P2, P3 queue whose P3 patient has waited two hours. */
  lemma HeaderOfThree(x: Patient, y: Patient, z: Patient)
    requires x.priority == P1 && y.priority == P2 && z.priority == P3
    requires z.waitTimeSeconds == 7200
    ensures ComputeStats([x, y, z]) == Stats(3, 2, 120, STAFF_LOAD)
  {
    assert [x, y, z] == [x] + ([y] + [z]);
    LevelsOfThree(x, y, z);
    assert WaitSum([z]) == 7200;
    assert FloorDiv(7200, 60) == 120;
  }

  /** The demo queue's header: three waiting, two critical, and a mean P3
      wait of 120 minutes. */
  lemma InitialHeader(a1: string, a2: string, a3: string)
    ensures ComputeStats(InitialPatients(a1, a2, a3)) == Stats(3, 2, 120, STAFF_LOAD)
  {
    HeaderOfThree(DemoPatient1(a1), DemoPatient2(a2), DemoPatient3(a3));
  }
}
