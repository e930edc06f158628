/// The sign-in screen (components/Login.tsx): with no account yet, the form
/// creates the administrator; otherwise it looks the credentials up.
module Login {
  import opened Options
  import opened Strings
  import opened Types
  import ManagementPanel
  import Layout

  /** The form's answer: register the first administrator, sign a user in, or show an error. */
  datatype LoginOutcome = RegisterAdmin(admin: User) | LoggedIn(user: User) | Failed(error: string)

  const BadCredentials: string := "Identifiants incorrects."

  /** `isFirstRun` */
  predicate IsFirstRun(users: seq<User>) {
    |users| == 0
  }

  /** The user name agrees up to case and the stored password is exactly the one typed. */
  predicate Matches(u: User, user: string, pass: string) {
    Lower(u.username) == Lower(user) && u.password == Some(pass)
  }

  /** `existingUsers.find(...)`: the first account whose credentials match. */
  function FindUser(users: seq<User>, user: string, pass: string): (r: Option<User>)
    ensures r.None? <==> forall u :: u in users ==> !Matches(u, user, pass)
    ensures r.Some? ==> exists i :: (0 <= i < |users| && users[i] == r.value && Matches(r.value, user, pass) &&
      forall j :: 0 <= j < i ==> !Matches(users[j], user, pass))
  {
    if |users| == 0 then None
    else if Matches(users[0], user, pass) then Some(users[0])
    else
      var r := FindUser(users[1..], user, pass);
      assert forall u :: u in users ==> u == users[0] || u in users[1..];
      if r.Some? then
        var i :| 0 <= i < |users[1..]| && users[1..][i] == r.value && Matches(r.value, user, pass) &&
          forall j :: 0 <= j < i ==> !Matches(users[1..][j], user, pass);
        assert users[i + 1] == r.value;
        assert forall j :: 1 <= j < i + 1 ==> users[j] == users[1..][j - 1];
        r
      else r
  }

  /**
    * `handleSubmit`, with the generated id and the clock as parameters. On the
    * first run the typed name becomes the administrator, with that name
    * lower-cased as user name, the typed password and every tab; afterwards
    * the first matching account in list order signs in, and without one the
    * error is shown.
    */
  function HandleSubmit(users: seq<User>, user: string, pass: string, id: string, createdAt: int): (r: LoginOutcome)
    ensures r.RegisterAdmin? <==> IsFirstRun(users)
    ensures r.RegisterAdmin? ==>
      r.admin == User(id, user, Lower(user), Some(pass), Admin, createdAt, AllTabs)
    ensures r.LoggedIn? ==> r.user in users && Matches(r.user, user, pass) && FindUser(users, user, pass) == Some(r.user)
    ensures r.Failed? <==> !IsFirstRun(users) && forall u :: u in users ==> !Matches(u, user, pass)
    ensures r.Failed? ==> r.error == BadCredentials
  {
    if IsFirstRun(users) then
      RegisterAdmin(User(id, user, Lower(user), Some(pass), Admin, createdAt, AllTabs))
    else
      match FindUser(users, user, pass)
      case Some(u) => LoggedIn(u)
      case None => Failed(BadCredentials)
  }

  /** A list whose first part matches nothing is searched as its second part. */
  lemma {:induction false} FindUserSkips(a: seq<User>, b: seq<User>, user: string, pass: string)
    requires forall u :: u in a ==> !Matches(u, user, pass)
    ensures FindUser(a + b, user, pass) == FindUser(b, user, pass)
    decreases |a|
  {
    if |a| > 0 {
      assert (a + b)[1..] == a[1..] + b;
      assert (a + b)[0] == a[0];
      FindUserSkips(a[1..], b, user, pass);
    } else {
      assert a + b == b;
    }
  }

  /**
    * The administrator registered on the first run signs in with the same
    * name, typed in any case, and the same password.
    */
  lemma FirstAdminSignsIn(user: string, pass: string, id: string, createdAt: int, typed: string)
    requires Lower(typed) == Lower(user)
    ensures var admin := HandleSubmit([], user, pass, id, createdAt).admin;
      HandleSubmit([admin], typed, pass, id, createdAt) == LoggedIn(admin)
  {
    LowerIdempotent(user);
  }

  /** The first administrator may open every tab and sees the whole menu. */
  lemma FirstAdminSeesEverything(user: string, pass: string, id: string, createdAt: int)
    ensures var admin := HandleSubmit([], user, pass, id, createdAt).admin;
      (forall t :: Layout.IsTabAllowed(admin, t)) && Layout.VisibleMenu(admin) == Layout.MenuItems(admin)
  {
    Layout.AdminSeesEverything(HandleSubmit([], user, pass, id, createdAt).admin);
  }

  /**
    * An operator created on the administration screen and appended to the
    * accounts signs in with its user name, typed in any case, and its
    * password, even when an older account has the same password.
    */
  lemma CreatedOperatorSignsIn(users: seq<User>, name: string, username: string, password: string,
                               id: string, createdAt: int, typed: string, loginId: string, now: int)
    requires ManagementPanel.CreateOperator(users, name, username, password, id, createdAt).Created?
    requires Lower(typed) == Lower(username)
    ensures var op := ManagementPanel.CreateOperator(users, name, username, password, id, createdAt).user;
      HandleSubmit(users + [op], typed, password, loginId, now) == LoggedIn(op)
  {
    var op := ManagementPanel.CreateOperator(users, name, username, password, id, createdAt).user;
    LowerIdempotent(username);
    forall u | u in users ensures !Matches(u, typed, password) {
      assert !ManagementPanel.SameLogin(u.username, username);
    }
    FindUserSkips(users, [op], typed, password);
  }
}
