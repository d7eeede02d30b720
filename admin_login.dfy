/** The admin login page: the sign-in gate that admits only users with one
    active admin row, the sign-up flow that makes the very first user a
    super admin and everyone after an editor, the redirect check on load,
    and the sign-in/sign-up mode switch. Auth answers and store failures are
    parameters. */
module AdminLogin {
  import opened Values
  import opened Tables
  import opened Store

  /** `!existingAdmins || existingAdmins.length === 0` on the result of
      `.select('id').limit(1)`: the query failing counts as "first". */
  function IsFirstUser(admins: seq<AdminUser>, queryFails: bool): (r: bool)
    ensures r <==> queryFails || |admins| == 0
  {
    var existing: Option<seq<string>> := if queryFails then None else Some(if admins == [] then [] else [admins[0].id]);
    existing.None? || |existing.value| == 0
  }

  /** `isFirstUser ? 'super_admin' : 'editor'`. */
  function NewAdminRole(isFirst: bool): (r: Role)
    ensures r == SuperAdmin <==> isFirst
    ensures r != Admin
  {
    if isFirst then SuperAdmin else Editor
  }

  /** With a working query, only sign-up into an empty admin table yields a
      super admin. */
  lemma OnlyFirstUserIsSuperAdmin(admins: seq<AdminUser>)
    ensures NewAdminRole(IsFirstUser(admins, false)) == SuperAdmin <==> admins == []
    ensures admins != [] ==> NewAdminRole(IsFirstUser(admins, false)) == Editor
  {
  }

  /** `.update({last_login: now}).eq('user_id', uid)`: every row of that auth
      identity, active or not, and no other. */
  function StampLogin(rows: seq<AdminUser>, uid: string, now: int): (r: seq<AdminUser>)
    ensures |r| == |rows|
    ensures forall i :: 0 <= i < |rows| && rows[i].userId != uid ==> r[i] == rows[i]
    ensures forall i :: 0 <= i < |rows| && rows[i].userId == uid ==> r[i] == rows[i].(lastLogin := Some(now))
  {
    if rows == [] then []
    else
      var last := rows[|rows| - 1];
      StampLogin(rows[..|rows| - 1], uid, now) + [if last.userId == uid then last.(lastLogin := Some(now)) else last]
  }

  /** Stamping a login leaves every user's active rows as many as before, so
      it never changes who passes the gate. */
  lemma {:induction false} StampKeepsGate(rows: seq<AdminUser>, uid: string, now: int, who: string)
    ensures |ActiveAdminRows(StampLogin(rows, uid, now), who)| == |ActiveAdminRows(rows, who)|
    ensures ActiveAdminFor(StampLogin(rows, uid, now), who).Some? <==> ActiveAdminFor(rows, who).Some?
  {
    if rows != [] {
      var n := |rows| - 1;
      var stamped := StampLogin(rows, uid, now);
      StampKeepsGate(rows[..n], uid, now, who);
      assert stamped[..n] == StampLogin(rows[..n], uid, now);
      assert stamped[n].userId == rows[n].userId && stamped[n].isActive == rows[n].isActive;
    }
  }

  /** Appending a row to the table adds it to its user's active rows
      exactly when it is active. */
  lemma ActiveRowsAppend(rows: seq<AdminUser>, row: AdminUser, uid: string)
    ensures ActiveAdminRows(rows + [row], uid) ==
      ActiveAdminRows(rows, uid) + (if row.userId == uid && row.isActive then [row] else [])
  {
    assert (rows + [row])[..|rows|] == rows;
  }

  /** A freshly added active row opens the gate only for a user who had no
      active row before: a second row makes `.single()` fail. */
  lemma SignUpThenGate(rows: seq<AdminUser>, row: AdminUser)
    requires row.isActive
    ensures ActiveAdminFor(rows + [row], row.userId).Some? <==> |ActiveAdminRows(rows, row.userId)| == 0
    ensures |ActiveAdminRows(rows, row.userId)| == 0 ==> ActiveAdminFor(rows + [row], row.userId) == Some(row)
  {
    ActiveRowsAppend(rows, row, row.userId);
  }

  /** The answer of `signInWithPassword`. */
  datatype SignInAuth = BadCredentials | SignedIn(userId: string)

  /** The answer of `auth.signUp`: an error, no user object, or a new user. */
  datatype SignUpAuth = SignUpError | NoUser | UserCreated(userId: string)

  datatype SignUpOutcome = SignUpFailed | NothingCreated | AccountCreated(superAdmin: bool)

  class Login {
    const db: Database
    var email: string
    var password: string
    var fullName: string
    var isSignUp: bool
    var loading: bool

    constructor (db: Database)
      ensures this.db == db && email == "" && password == "" && fullName == "" && !isSignUp && !loading
    {
      this.db := db;
      email, password, fullName := "", "", "";
      isSignUp, loading := false, false;
    }

    /** `checkAuth`: go to the dashboard only with a session whose user has
        one active admin row. */
    method CheckAuth() returns (redirect: bool)
      ensures redirect <==> db.session.Some? && ActiveAdminFor(db.admins, db.session.value).Some?
    {
      redirect := false;
      if db.session.Some? {
        var adminUser := ActiveAdminFor(db.admins, db.session.value);
        if adminUser.Some? {
          redirect := true;
        }
      }
    }

    /** `handleSignIn`: the credentials open a session; a user without one
        active admin row is signed out again; only then is `last_login`
        written, for that user's rows (a failing write is not checked). */
    method SignIn(auth: SignInAuth, now: int, stampFails: bool) returns (ok: bool)
      modifies this, db
      ensures ok <==> auth.SignedIn? && ActiveAdminFor(old(db.admins), auth.userId).Some?
      ensures ok ==> db.session == Some(auth.userId)
      ensures ok ==> db.admins == (if stampFails then old(db.admins) else StampLogin(old(db.admins), auth.userId, now))
      ensures !ok ==> db.admins == old(db.admins)
      ensures auth.SignedIn? && !ok ==> db.session.None?
      ensures auth.BadCredentials? ==> db.session == old(db.session)
      ensures db.sections == old(db.sections) && db.history == old(db.history)
      ensures db.assets == old(db.assets) && db.settings == old(db.settings)
      ensures !loading && email == old(email) && password == old(password)
      ensures fullName == old(fullName) && isSignUp == old(isSignUp)
    {
      loading := true;
      ok := false;
      if auth.SignedIn? {
        db.session := Some(auth.userId);
        var adminUser := ActiveAdminFor(db.admins, auth.userId);
        if adminUser.None? {
          db.session := None;
        } else {
          if !stampFails {
            db.admins := StampLogin(db.admins, auth.userId, now);
          }
          ok := true;
        }
      }
      loading := false;
    }

    /** `handleSignUp`: decide "first user" from the admin table, create the
        auth identity, insert the admin row; back to sign-in mode only after
        creating the first user. */
    method SignUp(queryFails: bool, auth: SignUpAuth, rowId: string, now: int, insertFails: bool)
      returns (outcome: SignUpOutcome)
      modifies this, db
      ensures var first := IsFirstUser(old(db.admins), queryFails);
        && (auth.SignUpError? || (auth.UserCreated? && insertFails) ==> outcome == SignUpFailed)
        && (auth.NoUser? ==> outcome == NothingCreated)
        && (auth.UserCreated? && !insertFails ==> outcome == AccountCreated(first))
        && (outcome.AccountCreated? ==>
              db.admins == old(db.admins) + [AdminUser(rowId, auth.userId, old(email), NewAdminRole(first),
                                                       old(fullName), true, None, now)]
              && isSignUp == (old(isSignUp) && !first))
        && (!outcome.AccountCreated? ==> db.admins == old(db.admins) && isSignUp == old(isSignUp))
      ensures db.session == old(db.session) && db.sections == old(db.sections) && db.history == old(db.history)
      ensures db.assets == old(db.assets) && db.settings == old(db.settings)
      ensures !loading && email == old(email) && password == old(password) && fullName == old(fullName)
    {
      loading := true;
      var isFirstUser := IsFirstUser(db.admins, queryFails);
      if auth.SignUpError? {
        outcome := SignUpFailed;
      } else if auth.NoUser? {
        outcome := NothingCreated;
      } else if insertFails {
        outcome := SignUpFailed;
      } else {
        db.admins := db.admins + [AdminUser(rowId, auth.userId, email, NewAdminRole(isFirstUser), fullName, true, None, now)];
        if isFirstUser {
          isSignUp := false;
        }
        outcome := AccountCreated(isFirstUser);
      }
      loading := false;
    }

    /** The mode link: flip the mode and clear the three fields. */
    method ToggleMode()
      modifies this
      ensures isSignUp == !old(isSignUp) && email == "" && password == "" && fullName == ""
      ensures loading == old(loading)
    {
      isSignUp := !isSignUp;
      email, password, fullName := "", "", "";
    }
  }
}
