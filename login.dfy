/** The login form: the credential check, the user record it derives, the
    field edits and the demo-user autofill. */
module Login {
  import opened Wrappers
  import opened Strings

  datatype Credentials = Credentials(username: string, password: string, role: string)

  /** The record handed to `onLogin`. */
  datatype User = User(id: int, username: string, role: string, name: string, email: string)

  /** A demo chip: the username and role it fills in, and the name it shows. */
  datatype DemoUser = DemoUser(username: string, role: string, name: string)

  const InitialCredentials := Credentials("", "", "staff")
  const MissingFieldsError := "Please enter username and password"
  const EmailDomain := "@municipality.gov"
  const DemoPassword := "demo123"
  /** Every user record carries this id. */
  const UserId := 1

  const DemoUsers := [
    DemoUser("admin", "admin", "System Administrator"),
    DemoUser("supervisor", "supervisor", "Area Supervisor"),
    DemoUser("staff", "staff", "Municipal Staff")
  ]

  /** `credentials.username && credentials.password`: both strings are
      non-empty (truthy). */
  predicate CanSubmit(c: Credentials)
  {
    c.username != [] && c.password != []
  }

  /** The user record built from accepted credentials. */
  function MakeUser(c: Credentials): (u: User)
    ensures u.id == UserId && u.username == c.username && u.role == c.role
    ensures |u.name| == |c.username|
    ensures c.username != [] ==> u.name[0] == UpperChar(c.username[0]) && u.name[1..] == c.username[1..]
    ensures u.email == c.username + EmailDomain
  {
    User(UserId, c.username, c.role, Capitalize(c.username), c.username + EmailDomain)
  }

  /** The username can be read back from the email, and, when it has no
      upper-case letter, from the name by lower-casing it. */
  lemma MakeUserRecoversUsername(c: Credentials)
    ensures MakeUser(c).email[..|c.username|] == c.username
    ensures MakeUser(c).email[|c.username|..] == EmailDomain
    ensures (forall i :: 0 <= i < |c.username| ==> !IsUpper(c.username[i])) ==>
              Lower(MakeUser(c).name) == c.username
  {
    var u := MakeUser(c);
    assert u.email == c.username + EmailDomain;
    if forall i :: 0 <= i < |c.username| ==> !IsUpper(c.username[i]) {
      forall i | 0 <= i < |c.username| ensures Lower(u.name)[i] == c.username[i] {
        if i > 0 {
          assert u.name[i] == u.name[1..][i - 1] == c.username[1..][i - 1];
        }
      }
    }
  }

  /** `handleChange` on the credentials: the named field takes the value,
      the others keep theirs; any other name adds a key nothing reads. */
  function WithField(c: Credentials, name: string, value: string): (r: Credentials)
    ensures r.username == if name == "username" then value else c.username
    ensures r.password == if name == "password" then value else c.password
    ensures r.role == if name == "role" then value else c.role
  {
    if name == "username" then c.(username := value)
    else if name == "password" then c.(password := value)
    else if name == "role" then c.(role := value)
    else c
  }

  /** Writing a field twice keeps the last value; writing it back to its
      own value changes nothing. */
  lemma WithFieldOverwrites(c: Credentials, name: string, v: string, w: string)
    ensures WithField(WithField(c, name, v), name, w) == WithField(c, name, w)
    ensures name == "username" ==> WithField(c, name, c.username) == c
    ensures name == "password" ==> WithField(c, name, c.password) == c
    ensures name == "role" ==> WithField(c, name, c.role) == c
    ensures name !in ["username", "password", "role"] ==> WithField(c, name, v) == c
  {
  }

  /** What a demo chip fills in. */
  function DemoCredentials(d: DemoUser): (c: Credentials)
    ensures c.username == d.username && c.password == DemoPassword && c.role == d.role
  {
    Credentials(d.username, DemoPassword, d.role)
  }

  /** Submitting a demo user's credentials always succeeds, with that
      user's role; the record's name is the capitalised username, not the
      name shown on the chip. */
  lemma DemoLoginSucceeds(d: DemoUser)
    requires d in DemoUsers
    ensures CanSubmit(DemoCredentials(d))
    ensures MakeUser(DemoCredentials(d)).role == d.role
    ensures MakeUser(DemoCredentials(d)).name != d.name
  {
    var u := MakeUser(DemoCredentials(d));
    assert |u.name| == |d.username|;
  }

  class LoginForm {
    var credentials: Credentials
    var loading: bool
    var error: string

    constructor ()
      ensures credentials == InitialCredentials && !loading && error == ""
    {
      credentials := InitialCredentials;
      loading := false;
      error := "";
    }

    /** The synchronous part of `handleSubmit`: loading starts, the error
        clears, and the delayed validation is scheduled over the
        credentials as they are now (the returned snapshot). */
    method BeginSubmit() returns (snapshot: Credentials)
      modifies this`loading, this`error
      ensures loading && error == "" && snapshot == credentials
    {
      loading := true;
      error := "";
      snapshot := credentials;
    }

    /** The delayed part of `handleSubmit`: `onLogin` receives the user
        record when both fields of the snapshot are non-empty; otherwise
        the error is set. Loading stops either way. */
    method CompleteSubmit(snapshot: Credentials) returns (loggedIn: Option<User>)
      modifies this`loading, this`error
      ensures !loading
      ensures CanSubmit(snapshot) ==> loggedIn == Some(MakeUser(snapshot)) && error == old(error)
      ensures !CanSubmit(snapshot) ==> loggedIn == None && error == MissingFieldsError
    {
      if snapshot.username != [] && snapshot.password != [] {
        loggedIn := Some(MakeUser(snapshot));
      } else {
        loggedIn := None;
        error := MissingFieldsError;
      }
      loading := false;
    }

    /** `handleChange`: one field changes and the error clears. */
    method Change(name: string, value: string)
      modifies this`credentials, this`error
      ensures credentials == WithField(old(credentials), name, value) && error == ""
    {
      credentials := WithField(credentials, name, value);
      error := "";
    }

    /** A demo chip's click. The error is left as it was. */
    method DemoFill(d: DemoUser)
      requires d in DemoUsers
      modifies this`credentials
      ensures credentials == DemoCredentials(d)
    {
      credentials := Credentials(d.username, DemoPassword, d.role);
    }
  }
}
