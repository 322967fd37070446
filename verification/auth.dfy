/**
 Mock authentication: a fixed table of demo accounts sharing one password,
 a login that issues an eight-hour token payload, and the session keys kept
 in the browser's key/value store.
 */
module Auth {
  import opened Types

  const DEMO_PASSWORD := "Password123!"
  const LOGIN_ERROR := "Invalid email or password"
  /** Eight hours in milliseconds. */
  const TOKEN_LIFETIME_MS: int := 8 * 60 * 60 * 1000

  const AVATAR_BASE := "https://api.dicebear.com/7.x/avataaars/svg?seed="
  const CHU_CASABLANCA := "CHU Ibn Rochd (Casablanca)"

  /** The demo accounts. */
  const MOCK_USERS: seq<User> := [
    User("1", "nurse@hayattriage.ma", "Fatima El Mansouri", Nurse,
         CHU_CASABLANCA, None, Some(AVATAR_BASE + "Fatima")),
    User("2", "doctor@hayattriage.ma", "Dr. Youssef Bennani", Doctor,
         CHU_CASABLANCA, Some("Cardiology"), Some(AVATAR_BASE + "Youssef")),
    User("3", "admin@hayattriage.ma", "Ahmed Alami", Admin,
         CHU_CASABLANCA, None, Some(AVATAR_BASE + "Ahmed")),
    User("4", "manager@hayattriage.ma", "Nadia Idrissi", Manager,
         "Ministry of Health", None, Some(AVATAR_BASE + "Nadia"))
  ]

  /** No two demo accounts share an email address. */
  lemma MockEmailsDistinct()
    ensures forall i, j :: 0 <= i < j < |MOCK_USERS| ==> MOCK_USERS[i].email != MOCK_USERS[j].email
  {
    var e := seq(|MOCK_USERS|, k requires 0 <= k < |MOCK_USERS| => MOCK_USERS[k].email);
    assert e[0][0] == 'n' && e[1][0] == 'd' && e[2][0] == 'a' && e[3][0] == 'm';
  }

  /** `users[i]` is the first entry whose email equals `email`. */
  predicate FirstMatch(users: seq<User>, email: string, i: int)
  {
    && 0 <= i < |users|
    && users[i].email == email
    && forall j :: 0 <= j < i ==> users[j].email != email
  }

  /** The first user whose email equals `email` exactly (case-sensitive), as `find` returns it. */
  function FindByEmail(users: seq<User>, email: string): (r: Option<User>)
    ensures r.None? <==> forall i :: 0 <= i < |users| ==> users[i].email != email
    ensures r.Some? ==> exists i :: FirstMatch(users, email, i) && users[i] == r.value
  {
    if |users| == 0 then None
    else if users[0].email == email then
      assert FirstMatch(users, email, 0);
      Some(users[0])
    else
      var r := FindByEmail(users[1..], email);
      assert r.Some? ==> exists i :: FirstMatch(users, email, i) && users[i] == r.value by {
        if r.Some? {
          var i :| FirstMatch(users[1..], email, i) && users[1..][i] == r.value;
          forall j | 0 <= j < i + 1
            ensures users[j].email != email
          {
            if j > 0 {
              assert users[j] == users[1..][j - 1];
            }
          }
          assert FirstMatch(users, email, i + 1);
        }
      }
      assert r.None? ==> forall i :: 0 <= i < |users| ==> users[i].email != email by {
        if r.None? {
          forall i | 0 <= i < |users|
            ensures users[i].email != email
          {
            if i > 0 {
              assert users[i] == users[1..][i - 1];
            }
          }
        }
      }
      r
  }

  /** What the token encodes: the user's id and the expiry instant in
      milliseconds since the epoch. The base64/JSON encoding is not modelled. */
  datatype TokenPayload = TokenPayload(id: string, exp: int)

  /** The login reply, with the same optional parts as the service's object. */
  datatype LoginResult = LoginResult(
    success: bool,
    user: Option<User>,
    token: Option<TokenPayload>,
    error: Option<string>
  )

  predicate IsDemoEmail(email: string)
  {
    exists i :: 0 <= i < |MOCK_USERS| && MOCK_USERS[i].email == email
  }

  /** Login against the demo table at time `now` (milliseconds). */
  function MockLogin(email: string, password: string, now: int): (r: LoginResult)
    ensures r.success <==> IsDemoEmail(email) && password == DEMO_PASSWORD
    ensures r.success ==> r.user.Some? && r.user.value in MOCK_USERS && r.user.value.email == email
    ensures r.success ==> r.token == Some(TokenPayload(r.user.value.id, now + 28_800_000))
    ensures r.success ==> r.error.None?
    ensures !r.success ==> r.user.None? && r.token.None? && r.error == Some(LOGIN_ERROR)
  {
    var found := FindByEmail(MOCK_USERS, email);
    if found.Some? && password == DEMO_PASSWORD then
      var token := TokenPayload(found.value.id, now + TOKEN_LIFETIME_MS);
      LoginResult(true, found, Some(token), None)
    else
      LoginResult(false, None, None, Some(LOGIN_ERROR))
  }

  /** A successful login returns the one demo account with that email. */
  lemma LoginUserIsUnique(email: string, password: string, now: int, u: User)
    requires MockLogin(email, password, now).success
    requires u in MOCK_USERS && u.email == email
    ensures MockLogin(email, password, now).user == Some(u)
  {
    MockEmailsDistinct();
    var v := MockLogin(email, password, now).user.value;
    var i :| 0 <= i < |MOCK_USERS| && MOCK_USERS[i] == u;
    var j :| 0 <= j < |MOCK_USERS| && MOCK_USERS[j] == v;
    assert MOCK_USERS[i].email == MOCK_USERS[j].email;
    assert i == j;
  }

  /** The administrator account signs in with the demo password. */
  lemma AdminCanSignIn(now: int)
    ensures var r := MockLogin("admin@hayattriage.ma", DEMO_PASSWORD, now);
      r.success && r.user.value.role == Admin && r.token.value.id == "3"
  {
    assert MOCK_USERS[2].email == "admin@hayattriage.ma";
    LoginUserIsUnique("admin@hayattriage.ma", DEMO_PASSWORD, now, MOCK_USERS[2]);
  }

  // ---------------------------------------------------------- browser store

  /** The browser's string key/value store. */
  type Store = map<string, string>

  const USER_KEY := "hayat_user"
  const TOKEN_KEY := "hayat_token"

  function RemoveItem(store: Store, key: string): (r: Store)
    ensures key !in r
    ensures forall k :: k != key ==> (k in r <==> k in store)
    ensures forall k :: k in r ==> r[k] == store[k]
  {
    store - {key}
  }

  function SetItem(store: Store, key: string, value: string): (r: Store)
    ensures key in r && r[key] == value
    ensures forall k :: k != key ==> (k in r <==> k in store)
    ensures forall k :: k in r && k != key ==> r[k] == store[k]
  {
    store[key := value]
  }

  /** Logout removes the user record, then the token. */
  function Logout(store: Store): (r: Store)
    ensures r.Keys == store.Keys - {USER_KEY, TOKEN_KEY}
    ensures forall k :: k in r ==> r[k] == store[k]
  {
    RemoveItem(RemoveItem(store, USER_KEY), TOKEN_KEY)
  }

  lemma LogoutIdempotent(store: Store)
    ensures Logout(Logout(store)) == Logout(store)
  {
  }

  /** The signed-in user recorded in the store, if any. A missing or empty
      record means nobody is signed in; a non-empty record is decoded by
      `parse`, which yields None for a record that decodes to `null`. */
  function GetCurrentUser(store: Store, parse: string -> Option<User>): (r: Option<User>)
    ensures USER_KEY !in store || store[USER_KEY] == "" ==> r == None
    ensures USER_KEY in store && store[USER_KEY] != "" ==> r == parse(store[USER_KEY])
    ensures r.Some? ==> USER_KEY in store && store[USER_KEY] != "" && parse(store[USER_KEY]) == r
  {
    var userJson := if USER_KEY in store then store[USER_KEY] else "";
    if userJson != "" then parse(userJson) else None
  }

  /** After logout nobody is signed in. */
  lemma NoUserAfterLogout(store: Store, parse: string -> Option<User>)
    ensures GetCurrentUser(Logout(store), parse) == None
  {
  }

  /** A non-empty user record written to the store is what is read back. */
  lemma StoredUserIsCurrent(store: Store, userJson: string, parse: string -> Option<User>)
    requires userJson != ""
    ensures GetCurrentUser(SetItem(store, USER_KEY, userJson), parse) == parse(userJson)
  {
  }
}
