/** The sign-in / sign-up form (components/Auth.tsx): login by exact email and
    password match against the stored user list, or registration guarded by a
    duplicate-email check. */
module Auth {
  import opened Types
  import opened Storage

  const InvalidCredentialsMessage: string := "Invalid email or password. Please try again."
  const EmailTakenMessage: string := "This email is already registered."

  datatype AuthError = InvalidCredentials | EmailTaken

  /** The outcome of one submit: the user list as it stands afterwards and the
      session record (password removed), or the error shown. */
  datatype Outcome = Success(users: seq<User>, current: User) | Failure(error: AuthError)

  /** The text shown under the form; never empty, so `{error && ...}` renders it. */
  function ErrorMessage(e: AuthError): (m: string)
    ensures m != ""
    ensures e == InvalidCredentials <==> m == InvalidCredentialsMessage
  {
    match e
    case InvalidCredentials => InvalidCredentialsMessage
    case EmailTaken => EmailTakenMessage
  }

  /** `u.email === email && u.password === password`; a user stored without a
      password never matches. */
  predicate Matches(u: User, email: string, password: string) {
    u.email == email && u.password == Some(password)
  }

  /** The position `users.find(...)` stops at: the first user that matches. */
  function FirstMatch(users: seq<User>, email: string, password: string): (r: Option<nat>)
    ensures r.None? <==> forall i :: 0 <= i < |users| ==> !Matches(users[i], email, password)
    ensures r.Some? ==> r.value < |users| && Matches(users[r.value], email, password)
    ensures r.Some? ==> forall j :: 0 <= j < r.value ==> !Matches(users[j], email, password)
  {
    if |users| == 0 then None
    else if Matches(users[0], email, password) then Some(0)
    else match FirstMatch(users[1..], email, password)
      case None => None
      case Some(k) => Some(k + 1)
  }

  /** `users.some(u => u.email === email)`. */
  function EmailRegistered(users: seq<User>, email: string): (b: bool)
    ensures b <==> exists i :: 0 <= i < |users| && users[i].email == email
  {
    if |users| == 0 then false
    else users[0].email == email || EmailRegistered(users[1..], email)
  }

  /** The record a successful registration appends: theme 'light'. */
  function NewUser(id: string, name: string, email: string, password: string): (u: User)
    ensures Matches(u, email, password) && u.name == name && u.id == id
    ensures u.preferences == Some(Preferences(Light)) && !PrefersDark(u)
  {
    User(id, name, email, Some(password), Some(Preferences(Light)))
  }

  /** Login mode: succeeds exactly when some stored user has this email and this
      password; the list is left as it is and the session record is the first
      such user (the one `find` stops at) without the password. Both kinds of mismatch give one error. */
  function Login(users: seq<User>, email: string, password: string): (r: Outcome)
    ensures r.Success? <==> exists i :: 0 <= i < |users| && Matches(users[i], email, password)
    ensures r.Success? ==> r.users == users && r.current.password == None
    ensures r.Success? ==> exists i :: 0 <= i < |users| && Matches(users[i], email, password)
                                      && (forall j :: 0 <= j < i ==> !Matches(users[j], email, password))
                                      && r.current == WithoutPassword(users[i])
    ensures r.Failure? ==> r.error == InvalidCredentials
  {
    match FirstMatch(users, email, password)
    case None => Failure(InvalidCredentials)
    case Some(i) => Success(users, WithoutPassword(users[i]))
  }

  /** Register mode: refused when the email is already present (the list is
      untouched); otherwise exactly one user is appended and becomes the session
      record, without its password. */
  function Register(users: seq<User>, id: string, name: string, email: string, password: string): (r: Outcome)
    ensures r.Failure? <==> exists i :: 0 <= i < |users| && users[i].email == email
    ensures r.Failure? ==> r.error == EmailTaken
    ensures r.Success? ==> |r.users| == |users| + 1 && r.users[..|users|] == users
    ensures r.Success? ==> r.users[|users|] == NewUser(id, name, email, password)
    ensures r.Success? ==> r.current == WithoutPassword(NewUser(id, name, email, password))
  {
    if EmailRegistered(users, email) then Failure(EmailTaken)
    else
      var u := NewUser(id, name, email, password);
      Success(users + [u], WithoutPassword(u))
  }

  /** What one submit of the form decides, by mode. */
  function Submitted(isLogin: bool, users: seq<User>, id: string, name: string,
                     email: string, password: string): Outcome
  {
    if isLogin then Login(users, email, password) else Register(users, id, name, email, password)
  }

  predicate UniqueEmails(users: seq<User>) {
    forall i, j :: 0 <= i < j < |users| ==> users[i].email != users[j].email
  }

  /** A user who has just registered can log in with the same credentials, and
      gets the same session record. */
  lemma {:induction false} RegisterThenLogin(users: seq<User>, id: string, name: string,
                                             email: string, password: string)
    requires Register(users, id, name, email, password).Success?
    ensures var r := Register(users, id, name, email, password);
            Login(r.users, email, password) == Success(r.users, r.current)
  {
    var r := Register(users, id, name, email, password);
    var k := |users|;
    forall j | 0 <= j < k ensures !Matches(r.users[j], email, password) {
      assert r.users[j] == users[j];
    }
    assert Matches(r.users[k], email, password);
  }

  /** The duplicate-email check keeps emails unique across the stored list. */
  lemma RegisterKeepsEmailsUnique(users: seq<User>, id: string, name: string,
                                  email: string, password: string)
    requires UniqueEmails(users)
    requires Register(users, id, name, email, password).Success?
    ensures UniqueEmails(Register(users, id, name, email, password).users)
  {
    var r := Register(users, id, name, email, password).users;
    forall i, j | 0 <= i < j < |r| ensures r[i].email != r[j].email {
      if j == |users| {
        assert r[i] == users[i];
      } else {
        assert r[i] == users[i] && r[j] == users[j];
      }
    }
  }

  class AuthForm {
    var isLogin: bool
    var email: string
    var password: string
    var name: string
    var error: string

    /** The form opens in login mode with every field empty. */
    constructor ()
      ensures isLogin && email == "" && password == "" && name == "" && error == ""
    {
      isLogin := true;
      email := "";
      password := "";
      name := "";
      error := "";
    }

    /** The name field's change handler (register mode only). */
    method SetName(text: string)
      modifies this`name
      ensures name == text
    {
      name := text;
    }

    /** The email field's change handler. */
    method SetEmail(text: string)
      modifies this`email
      ensures email == text
    {
      email := text;
    }

    /** The password field's change handler. */
    method SetPassword(text: string)
      modifies this`password
      ensures password == text
    {
      password := text;
    }

    /** The "Join Manas" / "Sign in" link: flips the mode and clears the error. */
    method ToggleMode()
      modifies this`isLogin, this`error
      ensures isLogin == !old(isLogin) && error == ""
    {
      isLogin := !isLogin;
      error := "";
    }

    /** `handleSubmit`: the error is cleared, the stored list is read (absent
        means empty), and the mode's outcome is written through. A failure
        sets its message and leaves both stored keys as they were; login never
        rewrites the user list. The returned user is what `onLogin` receives. */
    method Submit(store: LocalStore, newId: string) returns (loggedIn: Option<User>)
      modifies this`error, store`users, store`currentUser
      ensures var r := Submitted(isLogin, old(store.UserList()), newId, name, email, password);
              && (r.Success? ==> loggedIn == Some(r.current) && store.currentUser == Some(r.current)
                                 && error == "")
              && (r.Failure? ==> loggedIn == None && store.currentUser == old(store.currentUser)
                                 && error == ErrorMessage(r.error))
              && store.users == (if !isLogin && r.Success? then Some(r.users) else old(store.users))
    {
      error := "";
      var users := store.UserList();
      if isLogin {
        match FirstMatch(users, email, password)
        case Some(i) =>
          var current := WithoutPassword(users[i]);
          store.currentUser := Some(current);
          loggedIn := Some(current);
        case None =>
          error := InvalidCredentialsMessage;
          loggedIn := None;
      } else {
        if EmailRegistered(users, email) {
          error := EmailTakenMessage;
          loggedIn := None;
          return;
        }
        var u := NewUser(newId, name, email, password);
        users := users + [u];
        store.users := Some(users);
        var current := WithoutPassword(u);
        store.currentUser := Some(current);
        loggedIn := Some(current);
      }
    }
  }
}
