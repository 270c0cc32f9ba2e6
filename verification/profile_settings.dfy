/** Profile settings (`ProfileSettings`): the profile form, its save, and notification switches. */
module ProfileSettings {
  import opened Results
  import opened AuthContext
  import Text

  /**
   * The form's editable named inputs. The email input is disabled, so it never
   * fires a change and is not among them.
   */
  datatype Field = Name | Phone | College | Branch | Year | Github | Linkedin | Bio

  datatype Profile = Profile(name: string, email: string, phone: string, college: string,
                             branch: string, year: string, github: string, linkedin: string, bio: string)

  function Get(p: Profile, f: Field): string {
    match f
    case Name => p.name
    case Phone => p.phone
    case College => p.college
    case Branch => p.branch
    case Year => p.year
    case Github => p.github
    case Linkedin => p.linkedin
    case Bio => p.bio
  }

  /** `handleChange`: the input named `f` takes the typed value. */
  function HandleChange(p: Profile, f: Field, value: string): (r: Profile)
    ensures Get(r, f) == value
    ensures forall g :: g != f ==> Get(r, g) == Get(p, g)
    ensures r.email == p.email
  {
    match f
    case Name => p.(name := value)
    case Phone => p.(phone := value)
    case College => p.(college := value)
    case Branch => p.(branch := value)
    case Year => p.(year := value)
    case Github => p.(github := value)
    case Linkedin => p.(linkedin := value)
    case Bio => p.(bio := value)
  }

  /** Typing the value a field already holds changes nothing; the last edit of a field wins. */
  lemma HandleChangeLaws(p: Profile, f: Field, v: string, w: string)
    ensures HandleChange(p, f, Get(p, f)) == p
    ensures HandleChange(HandleChange(p, f, v), f, w) == HandleChange(p, f, w)
  {
  }

  /** `user?.key || fallback`: a present, non-empty string field of the user, else the fallback. */
  function UserText(user: Option<UserRecord>, key: string, fallback: string): (s: string)
    ensures user.Some? && key in user.value && user.value[key].JStr? && user.value[key].s != "" ==>
              s == user.value[key].s
    ensures !(user.Some? && key in user.value && user.value[key].JStr? && user.value[key].s != "") ==>
              s == fallback
  {
    if user.Some? && key in user.value && user.value[key].JStr? && user.value[key].s != "" then
      user.value[key].s
    else fallback
  }

  /** The form's starting values: name, email and college from the user, the rest fixed. */
  function InitialProfile(user: Option<UserRecord>): (p: Profile)
    ensures p.name == UserText(user, "name", "") && p.email == UserText(user, "email", "")
    ensures p.college == UserText(user, "college", "Tech University")
    ensures p.phone == "+91 98765 43210" && p.branch == "Computer Science" && p.year == "3rd Year"
    ensures p.github == "github.com/username" && p.linkedin == "linkedin.com/in/username"
    ensures p.bio == "Passionate developer excited to build innovative solutions!"
  {
    Profile(UserText(user, "name", ""), UserText(user, "email", ""), "+91 98765 43210",
            UserText(user, "college", "Tech University"), "Computer Science", "3rd Year",
            "github.com/username", "linkedin.com/in/username",
            "Passionate developer excited to build innovative solutions!")
  }

  /** A logged-in user's form starts from their login details. */
  lemma InitialProfileAfterLogin(q: Provider, email: string, password: string, nowMs: nat, isoNow: string)
    ensures var u := Login(q, email, password, nowMs, isoNow).0.state.user;
            var p := InitialProfile(u);
            p.name == Text.BeforeFirst(email, '@') && p.email == email && p.college == "Tech University"
  {
  }

  /** `handleSave`: only the name is sent to the provider. */
  function Save(auth: Provider, p: Profile): (r: (Provider, string))
    ensures r.0.state.user.Some? && "name" in r.0.state.user.value
    ensures r.0.state.user.value["name"] == JStr(p.name)
    ensures r.0.state.isAuthenticated == auth.state.isAuthenticated
  {
    UpdateProfile(auth, map["name" := JStr(p.name)])
  }

  /**
   * Saving changes the stored name and nothing else about the user: edits to
   * email, phone, college and the rest stay on the form only.
   */
  lemma SaveChangesOnlyName(auth: Provider, p: Profile)
    requires auth.state.user.Some?
    ensures var u := Save(auth, p).0.state.user.value;
            && u.Keys == auth.state.user.value.Keys + {"name"}
            && forall k :: k in u && k != "name" ==> u[k] == auth.state.user.value[k]
  {
  }

  /** While signed in, a save survives a reload. */
  lemma SaveKeepsPersisted(auth: Provider, p: Profile)
    requires Persisted(auth) && auth.state.isAuthenticated
    ensures Persisted(Save(auth, p).0)
  {
    UpdateProfileKeepsPersisted(auth, map["name" := JStr(p.name)]);
  }

  type Notifications = map<string, bool>

  const InitialNotifications: Notifications := map[
    "emailUpdates" := true, "hackathonAlerts" := true, "teamMessages" := true,
    "mentorSessions" := true, "marketingEmails" := false]

  const NotificationToast := "Notification preferences updated"

  /** `handleNotificationChange`: flips one switch; a key never set counts as off and turns on. */
  function ToggleNotification(n: Notifications, key: string): (r: (Notifications, string))
    ensures key in r.0 && r.0[key] == !(key in n && n[key])
    ensures forall k :: k != key ==> (k in r.0 <==> k in n) && (k in n ==> r.0[k] == n[k])
    ensures r.1 == NotificationToast
  {
    (n[key := !(key in n && n[key])], NotificationToast)
  }

  /** Flipping a switch twice leaves every switch as it was. */
  lemma ToggleTwiceRestores(n: Notifications, key: string)
    requires key in n
    ensures ToggleNotification(ToggleNotification(n, key).0, key).0 == n
  {
    var m := ToggleNotification(ToggleNotification(n, key).0, key).0;
    assert m.Keys == n.Keys;
  }

  /** Every switch starts on except marketing mail. */
  lemma InitialNotificationsOnExceptMarketing()
    ensures forall k :: k in InitialNotifications ==> (InitialNotifications[k] <==> k != "marketingEmails")
  {
  }
}
