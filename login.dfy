/** The login form: a directory lookup by email and a password comparison. */
module Login {
  import opened Types
  import Constants
  import Session

  const InvalidCredentialsMessage := "Invalid credentials. Select a persona below to auto-fill."

  /** The directory record a submitted email and password sign in as, if any. */
  function Authenticate(directory: map<string, StaffRecord>, email: string, password: string): (r: Option<StaffRecord>)
    ensures r.Some? <==> email in directory && directory[email].password == password
    ensures r.Some? ==> r.value == directory[email]
  {
    if email in directory && directory[email].password == password then Some(directory[email]) else None
  }

  /** Every identity of the directory signs in with its own email and password, and the
      session receives exactly its record. */
  lemma PersonaLoginSucceeds(r: StaffRecord)
    requires r in Constants.TestUsers().Values
    ensures Authenticate(Constants.TestUsers(), r.user.email, r.password) == Some(r)
  {
    var d := Constants.TestUsers();
    var k :| k in d && d[k] == r;
    Constants.DirectoryKeysAreEmails();
    assert r.user.email == k;
  }

  /** Any other password for a known email is rejected. */
  lemma WrongPasswordRejected(email: string, password: string)
    requires email in Constants.TestUsers() && password != Constants.TestUsers()[email].password
    ensures Authenticate(Constants.TestUsers(), email, password) == None
  {
  }

  /** An email outside the directory is rejected whatever the password. */
  lemma UnknownEmailRejected(email: string, password: string)
    requires email !in Constants.TestUsers()
    ensures Authenticate(Constants.TestUsers(), email, password) == None
  {
  }

  /** The login form's state. */
  class LoginPage {
    var email: string
    var password: string
    var error: string

    constructor ()
      ensures email == "" && password == "" && error == ""
    {
      email, password, error := "", "", "";
    }

    method SetEmail(value: string)
      modifies this
      ensures email == value && password == old(password) && error == old(error)
    {
      email := value;
    }

    method SetPassword(value: string)
      modifies this
      ensures password == value && email == old(email) && error == old(error)
    {
      password := value;
    }

    /** Choosing a persona from the list fills in its email and password. */
    method SelectPersona(r: StaffRecord)
      requires r in Constants.TestUsers().Values
      modifies this
      ensures email == r.user.email && password == r.password && error == old(error)
      ensures Authenticate(Constants.TestUsers(), email, password) == Some(r)
    {
      email := r.user.email;
      password := r.password;
      PersonaLoginSucceeds(r);
    }

    /** Submitting the form: on a match the application's login handler runs with the
        directory record; otherwise only the error message changes. */
    method HandleLogin(app: Session.App)
      requires app.Valid()
      modifies this, app
      ensures app.Valid()
      ensures email == old(email) && password == old(password)
      ensures match Authenticate(Constants.TestUsers(), email, password)
        case Some(r) => app.State() == Session.Step(old(app.State()), Session.Login(r)) && error == old(error)
        case None => app.State() == old(app.State()) && error == InvalidCredentialsMessage
    {
      var found := Authenticate(Constants.TestUsers(), email, password);
      if found.Some? {
        app.HandleLogin(found.value);
      } else {
        error := InvalidCredentialsMessage;
      }
    }
  }
}
