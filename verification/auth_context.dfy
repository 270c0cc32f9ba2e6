/**
 * The mock authentication provider (`AuthContext`): a user record and a token
 * kept in browser storage, restored on mount.
 */
module AuthContext {
  import opened Results
  import opened Text

  /** A user field: the mock user's fields are strings, except `teamId`, which is null. */
  datatype JsonValue = JNull | JStr(s: string)

  type UserRecord = map<string, JsonValue>

  /**
   * A storage slot. A user record written by this provider is kept as its
   * serialisation; `Raw` is text put there by anything else.
   */
  datatype Stored = Raw(text: string) | Serialized(user: UserRecord)

  type Storage = map<string, Stored>

  const UserKey := "innohacks_user"
  const TokenKey := "innohacks_token"
  const TokenPrefix := "mock_jwt_token_"
  const AvatarPrefix := "https://api.dicebear.com/7.x/avataaars/svg?seed="

  const LoginToast := "Welcome back to InnoHacks 2.0!"
  const SignupToast := "Welcome to InnoHacks 2.0!"
  const LogoutToast := "Logged out successfully"
  const UpdateToast := "Profile updated successfully"

  datatype AuthState = AuthState(user: Option<UserRecord>, isAuthenticated: bool, isLoading: bool)

  /** The provider's state and the storage it writes through to. */
  datatype Provider = Provider(state: AuthState, storage: Storage)

  const SignedOut := AuthState(None, false, false)

  /** Before the mount effect has run: nobody signed in, still loading. */
  function Initial(storage: Storage): (p: Provider)
    ensures p.state.isLoading && !p.state.isAuthenticated && p.state.user.None?
  {
    Provider(AuthState(None, false, true), storage)
  }

  /** `getItem` gives a truthy value: the key is present and its text is not empty. */
  predicate Truthy(storage: Storage, key: string) {
    key in storage && (storage[key].Serialized? || storage[key].text != "")
  }

  /**
   * The mount effect: signed in with the stored user when both keys hold a
   * truthy value, otherwise signed out; loading ends either way. Stored user
   * text this provider did not write is reported as an error, not parsed.
   */
  function Restore(storage: Storage): (r: Result<AuthState>)
    ensures r.Ok? ==> !r.value.isLoading
    ensures r.Ok? && r.value.isAuthenticated <==>
              Truthy(storage, UserKey) && Truthy(storage, TokenKey) && storage[UserKey].Serialized?
    ensures r.Ok? && r.value.isAuthenticated ==> r.value.user == Some(storage[UserKey].user)
    ensures r.Ok? && !r.value.isAuthenticated ==> r.value == SignedOut
    ensures r.Err? <==> Truthy(storage, UserKey) && Truthy(storage, TokenKey) && storage[UserKey].Raw?
  {
    if Truthy(storage, UserKey) && Truthy(storage, TokenKey) then
      match storage[UserKey]
      case Serialized(u) => Ok(AuthState(Some(u), true, false))
      case Raw(_) => Err("stored user is not a serialised user record")
    else
      Ok(SignedOut)
  }

  /** Runs the mount effect on a freshly created provider. */
  function Mount(storage: Storage): (r: Result<Provider>)
    ensures r.Ok? <==> Restore(storage).Ok?
    ensures r.Ok? ==> r.value.storage == storage && !r.value.state.isLoading
  {
    match Restore(storage)
    case Ok(st) => Ok(Provider(st, storage))
    case Err(e) => Err(e)
  }

  /** The token: the prefix followed by the clock's milliseconds. */
  function Token(nowMs: nat): (t: string)
    ensures |t| > |TokenPrefix|
    ensures t[..|TokenPrefix|] == TokenPrefix && t[|TokenPrefix|..] == Decimal(nowMs)
  {
    TokenPrefix + Decimal(nowMs)
  }

  /** Two logins at different instants get different tokens. */
  lemma TokenInjective(m: nat, n: nat)
    requires Token(m) == Token(n)
    ensures m == n
  {
    DecimalInjective(m, n);
  }

  /** The mock user every login and signup creates. */
  function MockUser(email: string, name: string, college: string, isoNow: string): (u: UserRecord)
    ensures u.Keys == {"id", "email", "name", "avatar", "college", "role", "teamId", "registeredAt"}
    ensures u["id"] == JStr("1") && u["email"] == JStr(email) && u["name"] == JStr(name)
    ensures u["avatar"] == JStr(AvatarPrefix + email) && u["college"] == JStr(college)
    ensures u["role"] == JStr("participant") && u["teamId"] == JNull && u["registeredAt"] == JStr(isoNow)
  {
    map["id" := JStr("1"), "email" := JStr(email), "name" := JStr(name),
        "avatar" := JStr(AvatarPrefix + email), "college" := JStr(college),
        "role" := JStr("participant"), "teamId" := JNull, "registeredAt" := JStr(isoNow)]
  }

  /** Stores the user and a fresh token, then signs in with that user. */
  function SignIn(p: Provider, u: UserRecord, nowMs: nat): (r: Provider)
    ensures r.state.user == Some(u) && r.state.isAuthenticated
    ensures r.state.isLoading == p.state.isLoading
    ensures r.storage == p.storage[UserKey := Serialized(u)][TokenKey := Raw(Token(nowMs))]
  {
    Provider(p.state.(user := Some(u), isAuthenticated := true),
             p.storage[UserKey := Serialized(u)][TokenKey := Raw(Token(nowMs))])
  }

  /**
   * `login`: any password is accepted; the display name is the part of the
   * address before the first `@` (all of it when there is none).
   */
  function Login(p: Provider, email: string, password: string, nowMs: nat, isoNow: string): (r: (Provider, string))
    ensures r.0.state.isAuthenticated && r.0.state.user.Some?
    ensures var u := r.0.state.user.value;
            && "email" in u && "name" in u && "college" in u
            && u["email"] == JStr(email)
            && u["name"] == JStr(BeforeFirst(email, '@'))
            && u["college"] == JStr("Tech University")
            && "role" in u && "teamId" in u && u["role"] == JStr("participant") && u["teamId"] == JNull
    ensures r.0.state.user == Some(MockUser(email, BeforeFirst(email, '@'), "Tech University", isoNow))
    ensures r.0.state.isLoading == p.state.isLoading
    ensures UserKey in r.0.storage && TokenKey in r.0.storage
    ensures r.0.storage[UserKey] == Serialized(r.0.state.user.value)
    ensures r.0.storage[TokenKey] == Raw(Token(nowMs))
    ensures r.1 == LoginToast
  {
    (SignIn(p, MockUser(email, BeforeFirst(email, '@'), "Tech University", isoNow), nowMs), LoginToast)
  }

  /** `signup`: like login, but with the given name and college. */
  function Signup(p: Provider, name: string, email: string, password: string, college: string,
                  nowMs: nat, isoNow: string): (r: (Provider, string))
    ensures r.0.state.isAuthenticated && r.0.state.user.Some?
    ensures var u := r.0.state.user.value;
            && "email" in u && "name" in u && "college" in u
            && u["email"] == JStr(email) && u["name"] == JStr(name) && u["college"] == JStr(college)
            && "role" in u && "teamId" in u && u["role"] == JStr("participant") && u["teamId"] == JNull
    ensures r.0.state.user == Some(MockUser(email, name, college, isoNow))
    ensures r.0.state.isLoading == p.state.isLoading
    ensures UserKey in r.0.storage && TokenKey in r.0.storage
    ensures r.0.storage[UserKey] == Serialized(r.0.state.user.value)
    ensures r.0.storage[TokenKey] == Raw(Token(nowMs))
    ensures r.1 == SignupToast
  {
    (SignIn(p, MockUser(email, name, college, isoNow), nowMs), SignupToast)
  }

  /** `logout`: both keys leave storage, nothing else there changes. */
  function Logout(p: Provider): (r: (Provider, string))
    ensures r.0.state.user.None? && !r.0.state.isAuthenticated
    ensures r.0.state.isLoading == p.state.isLoading
    ensures UserKey !in r.0.storage && TokenKey !in r.0.storage
    ensures forall k :: k in p.storage && k != UserKey && k != TokenKey ==>
              k in r.0.storage && r.0.storage[k] == p.storage[k]
    ensures r.1 == LogoutToast
  {
    (Provider(p.state.(user := None, isAuthenticated := false), p.storage - {UserKey, TokenKey}), LogoutToast)
  }

  /**
   * `updateProfile`: the updates are laid over the current user (over an empty
   * record when there is none) and stored; being signed in does not change.
   */
  function UpdateProfile(p: Provider, updates: UserRecord): (r: (Provider, string))
    ensures r.0.state.user.Some?
    ensures var u := r.0.state.user.value;
            && (forall k :: k in updates ==> k in u && u[k] == updates[k])
            && (forall k :: k !in updates && p.state.user.Some? && k in p.state.user.value ==>
                  k in u && u[k] == p.state.user.value[k])
            && (forall k :: k in u ==> k in updates || (p.state.user.Some? && k in p.state.user.value))
    ensures r.0.state.isAuthenticated == p.state.isAuthenticated
    ensures r.0.state.isLoading == p.state.isLoading
    ensures r.0.storage == p.storage[UserKey := Serialized(r.0.state.user.value)]
    ensures r.1 == UpdateToast
  {
    var base := if p.state.user.Some? then p.state.user.value else map[];
    var u := base + updates;
    (Provider(p.state.(user := Some(u)), p.storage[UserKey := Serialized(u)]), UpdateToast)
  }

  /** A reload would restore the session the provider holds now. */
  predicate Persisted(p: Provider) {
    Restore(p.storage) == Ok(if p.state.isAuthenticated then p.state.(isLoading := false) else SignedOut)
  }

  /** A provider that has just mounted is persisted. */
  lemma MountPersisted(storage: Storage)
    requires Mount(storage).Ok?
    ensures Persisted(Mount(storage).value)
  {
  }

  /** After a login, a reload finds the same user signed in. */
  lemma LoginSurvivesReload(p: Provider, email: string, password: string, nowMs: nat, isoNow: string)
    ensures var q := Login(p, email, password, nowMs, isoNow).0;
            Restore(q.storage) == Ok(AuthState(q.state.user, true, false))
  {
    var q := Login(p, email, password, nowMs, isoNow).0;
    assert Truthy(q.storage, TokenKey) by {
      assert |Token(nowMs)| > 0;
    }
  }

  /** After a signup, a reload finds the same user signed in. */
  lemma SignupSurvivesReload(p: Provider, name: string, email: string, password: string, college: string,
                             nowMs: nat, isoNow: string)
    ensures var q := Signup(p, name, email, password, college, nowMs, isoNow).0;
            Restore(q.storage) == Ok(AuthState(q.state.user, true, false))
  {
    var q := Signup(p, name, email, password, college, nowMs, isoNow).0;
    assert Truthy(q.storage, TokenKey) by {
      assert |Token(nowMs)| > 0;
    }
  }

  /** After a logout, a reload finds nobody signed in, whatever storage held before. */
  lemma LogoutSurvivesReload(p: Provider)
    ensures Restore(Logout(p).0.storage) == Ok(SignedOut)
    ensures Persisted(Logout(p).0)
  {
  }

  /** While signed in, a profile update keeps storage and memory in step. */
  lemma UpdateProfileKeepsPersisted(p: Provider, updates: UserRecord)
    requires Persisted(p) && p.state.isAuthenticated
    ensures Persisted(UpdateProfile(p, updates).0)
  {
    var q := UpdateProfile(p, updates).0;
    assert Truthy(p.storage, TokenKey);
    assert q.storage[TokenKey] == p.storage[TokenKey];
  }

  /** The context hook: outside a provider it fails with the hook's message. */
  function UseAuth(context: Option<Provider>): (r: Result<Provider>)
    ensures r.Ok? <==> context.Some?
    ensures r.Ok? ==> r.value == context.value
    ensures r.Err? ==> r.message == "useAuth must be used within an AuthProvider"
  {
    match context
    case Some(p) => Ok(p)
    case None => Err("useAuth must be used within an AuthProvider")
  }
}
