/**
 * backend/app/auth/services.py: login, logout, registration and the current
 * user. The user table is a map from the normalised email (the unique column)
 * to the user row; `current` is Flask-Login's authenticated user, if any.
 * The clock and the outcome of `db.session.commit()` are parameters.
 */
module AuthServices {
  import opened Wrappers
  import opened JsonValue
  import opened AppErrors
  import opened Models
  import opened PyText
  import opened EmailRegex

  const BodyRequired := "JSON body is required."
  const FirstNameRequired := "First name is required."
  const LastNameRequired := "Last name is required."
  const EmailRequired := "Email is required."
  const PasswordRequired := "Password is required."
  const EmailInvalid := "Email address is not valid."
  const PasswordTooShort := "Password must be at least 8 characters long."
  const EmailTaken := "User has been already registered using this email address."
  const InvalidCredentials := "Invalid email or password."
  const MinPasswordLength := 8

  function BadRequest(msg: string): Fault {
    Raise(BadRequestError, msg)
  }

  /** The login fields after normalisation. */
  datatype Credentials = Credentials(email: string, password: string)

  /** The key is present with a non-empty string value that is not blank once stripped. */
  predicate NonBlankText(m: map<string, Json>, key: string) {
    key in m && m[key].JStr? && m[key].s != [] && Strip(m[key].s) != []
  }

  /** The presence checks of `user_login` on the values as sent (lines 22-25). */
  function LoginPresence(m: map<string, Json>): (f: Option<Fault>)
    ensures f.None? <==> !MissingOrFalsy(m, "email") && !MissingOrFalsy(m, "password")
  {
    if MissingOrFalsy(m, "email") then Some(BadRequest(EmailRequired))
    else if MissingOrFalsy(m, "password") then Some(BadRequest(PasswordRequired))
    else None
  }

  /**
   * The checks of `user_login` before the lookup (lines 20-33): the body,
   * then the email and the password as sent, then the same after stripping.
   */
  function LoginInput(data: Body): (r: Result<Credentials, Fault>)
    ensures r.Success? <==> !NoBody(data) && NonBlankText(data.value, "email") && NonBlankText(data.value, "password")
    ensures r.Success? ==> r.value == Credentials(Lower(Strip(data.value["email"].s)), Strip(data.value["password"].s))
  {
    if NoBody(data) then Failure(BadRequest(BodyRequired))
    else
      var m := data.value;
      match LoginPresence(m)
      case Some(f) => Failure(f)
      case None =>
        if !IsText(m, "email") || !IsText(m, "password") then Failure(Crash(AttributeError))
        else
          var stripped := Strip(m["email"].s);
          var c := Credentials(Lower(stripped), Strip(m["password"].s));
          assert |c.email| == |stripped|;
          if c.email == [] then Failure(BadRequest(EmailRequired))
          else if c.password == [] then Failure(BadRequest(PasswordRequired))
          else Success(c)
  }

  /** The first failing check decides the message: body, then email, then password. */
  lemma LoginInputOrder(data: Body)
    ensures NoBody(data) ==> LoginInput(data) == Failure(BadRequest(BodyRequired))
    ensures !NoBody(data) && MissingOrFalsy(data.value, "email") ==>
      LoginInput(data) == Failure(BadRequest(EmailRequired))
    ensures !NoBody(data) && !MissingOrFalsy(data.value, "email") && MissingOrFalsy(data.value, "password") ==>
      LoginInput(data) == Failure(BadRequest(PasswordRequired))
  {
  }

  /** A whitespace-only email is refused as missing, after stripping. */
  lemma {:induction false} BlankEmailIsRequired(data: map<string, Json>, blank: string)
    requires blank != [] && AllSpace(blank)
    requires "email" in data && data["email"] == JStr(blank)
    requires "password" in data && data["password"].JStr? && data["password"].s != []
    ensures LoginInput(Some(data)) == Failure(BadRequest(EmailRequired))
  {
    StripEmptyIffAllSpace(blank);
  }

  /** The registration fields after normalisation. */
  datatype Registration = Registration(firstName: string, lastName: string, email: string, password: string)

  /** The presence checks of `user_register` on the values as sent (lines 70-77). */
  function RegisterPresence(m: map<string, Json>): (f: Option<Fault>)
    ensures f.None? <==>
      !MissingOrFalsy(m, "first_name") && !MissingOrFalsy(m, "last_name") && !MissingOrFalsy(m, "email") && !MissingOrFalsy(m, "password")
  {
    if MissingOrFalsy(m, "first_name") then Some(BadRequest(FirstNameRequired))
    else if MissingOrFalsy(m, "last_name") then Some(BadRequest(LastNameRequired))
    else if MissingOrFalsy(m, "email") then Some(BadRequest(EmailRequired))
    else if MissingOrFalsy(m, "password") then Some(BadRequest(PasswordRequired))
    else None
  }

  predicate IsText(m: map<string, Json>, key: string) {
    key in m && m[key].JStr?
  }

  predicate AllText(m: map<string, Json>) {
    IsText(m, "first_name") && IsText(m, "last_name") && IsText(m, "email") && IsText(m, "password")
  }

  /** Lines 79-82: strip every field and lower-case the email. */
  function Normalise(m: map<string, Json>): Registration
    requires AllText(m)
  {
    Registration(Strip(m["first_name"].s), Strip(m["last_name"].s), Lower(Strip(m["email"].s)), Strip(m["password"].s))
  }

  /** The checks on the normalised fields (lines 84-99), in the source's order. */
  function RegisterValidate(reg: Registration): (f: Option<Fault>)
    ensures f.None? <==>
      reg.firstName != [] && reg.lastName != [] && reg.email != [] && reg.password != []
      && EmailMatches(reg.email) && |reg.password| >= MinPasswordLength
  {
    if reg.firstName == [] then Some(BadRequest(FirstNameRequired))
    else if reg.lastName == [] then Some(BadRequest(LastNameRequired))
    else if reg.email == [] then Some(BadRequest(EmailRequired))
    else if reg.password == [] then Some(BadRequest(PasswordRequired))
    else if !EmailMatches(reg.email) then Some(BadRequest(EmailInvalid))
    else if |reg.password| < MinPasswordLength then Some(BadRequest(PasswordTooShort))
    else None
  }

  /** The checks of `user_register` before the lookup (lines 68-99). */
  function RegisterInput(data: Body): (r: Result<Registration, Fault>)
    ensures r.Success? ==> !NoBody(data) && AllText(data.value) && r.value == Normalise(data.value)
  {
    if NoBody(data) then Failure(BadRequest(BodyRequired))
    else
      var m := data.value;
      match RegisterPresence(m)
      case Some(f) => Failure(f)
      case None =>
        if !AllText(m) then Failure(Crash(AttributeError))
        else
          var reg := Normalise(m);
          match RegisterValidate(reg)
          case Some(f) => Failure(f)
          case None => Success(reg)
  }

  /** Registration input passes exactly when every stage passes. */
  lemma RegisterStages(data: Body)
    ensures RegisterInput(data).Success? <==>
      && !NoBody(data) && RegisterPresence(data.value).None? && AllText(data.value)
      && RegisterValidate(Normalise(data.value)).None?
  {
  }

  /** Presence, string type and non-emptiness after stripping together say the field is non-blank text. */
  lemma NonBlankFields(m: map<string, Json>)
    ensures (RegisterPresence(m).None? && AllText(m)
      && Normalise(m).firstName != [] && Normalise(m).lastName != [] && Normalise(m).email != [] && Normalise(m).password != [])
      <==>
      (NonBlankText(m, "first_name") && NonBlankText(m, "last_name") && NonBlankText(m, "email") && NonBlankText(m, "password"))
  {
    if AllText(m) {
      assert |Normalise(m).email| == |Strip(m["email"].s)|;
    }
  }

  /**
   * Registration input is accepted exactly when all four fields are non-blank
   * strings, the normalised email has the pattern's shape and the stripped
   * password has at least eight characters.
   */
  lemma RegisterAccepts(data: Body)
    ensures RegisterInput(data).Success? <==>
      && !NoBody(data)
      && NonBlankText(data.value, "first_name") && NonBlankText(data.value, "last_name")
      && NonBlankText(data.value, "email") && NonBlankText(data.value, "password")
      && Pattern(Normalise(data.value).email)
      && |Normalise(data.value).password| >= MinPasswordLength
  {
    RegisterStages(data);
    if !NoBody(data) {
      NonBlankFields(data.value);
      if AllText(data.value) {
        EmailMatchesIffPattern(Normalise(data.value).email);
      }
    }
  }

  /** Only an address the pattern describes is ever accepted, whatever its case and padding as sent. */
  lemma RegisteredEmailMatchesPattern(data: Body)
    requires RegisterInput(data).Success?
    ensures Pattern(RegisterInput(data).value.email)
    ensures RegexMatch(RegisterInput(data).value.email)
  {
    var e := RegisterInput(data).value.email;
    EmailMatchesIffPattern(e);
  }

  /** Presence is checked field by field, first name first. */
  lemma RegisterInputOrder(data: Body)
    ensures NoBody(data) ==> RegisterInput(data) == Failure(BadRequest(BodyRequired))
    ensures !NoBody(data) && MissingOrFalsy(data.value, "first_name") ==>
      RegisterInput(data) == Failure(BadRequest(FirstNameRequired))
    ensures !NoBody(data) && !MissingOrFalsy(data.value, "first_name") && MissingOrFalsy(data.value, "last_name") ==>
      RegisterInput(data) == Failure(BadRequest(LastNameRequired))
    ensures (!NoBody(data) && !MissingOrFalsy(data.value, "first_name") && !MissingOrFalsy(data.value, "last_name")
      && MissingOrFalsy(data.value, "email")) ==> RegisterInput(data) == Failure(BadRequest(EmailRequired))
    ensures (!NoBody(data) && !MissingOrFalsy(data.value, "first_name") && !MissingOrFalsy(data.value, "last_name")
      && !MissingOrFalsy(data.value, "email") && MissingOrFalsy(data.value, "password")) ==>
      RegisterInput(data) == Failure(BadRequest(PasswordRequired))
  {
  }

  /** A first name of spaces passes the presence check but is refused once stripped. */
  lemma {:induction false} BlankFirstNameRefused(data: map<string, Json>, blank: string)
    requires blank != [] && AllSpace(blank)
    requires "first_name" in data && data["first_name"] == JStr(blank)
    requires forall k :: k in {"last_name", "email", "password"} ==> k in data && data[k].JStr? && data[k].s != []
    ensures RegisterInput(Some(data)) == Failure(BadRequest(FirstNameRequired))
  {
    StripEmptyIffAllSpace(blank);
  }

  /** An accepted password is never refused by the `password` setter. */
  lemma AcceptedPasswordIsSettable(reg: Registration, data: Body)
    requires RegisterInput(data) == Success(reg)
    ensures !AllSpace(reg.password)
  {
    var raw := data.value["password"].s;
    StripEmptyIffAllSpace(raw);
    StripIdempotent(raw);
    StripEmptyIffAllSpace(reg.password);
  }

  /** Lines 106-114: the row built from accepted input and given its password is `NewUser`. */
  lemma RegisteredRow(reg: Registration, data: Body, id: nat, now: Instant)
    requires RegisterInput(data) == Success(reg)
    ensures User(id, reg.firstName, reg.lastName, reg.email, Bcrypt([]), now, None).SetPassword(JStr(reg.password))
      == Success(NewUser(id, reg, now))
  {
    AcceptedPasswordIsSettable(reg, data);
  }

  class AuthService {
    var users: map<string, User>
    var current: Option<string>
    var nextId: nat

    /** Every row is filed under its own email, ids are below the next id, and the session names a stored user. */
    ghost predicate Valid()
      reads this
    {
      && Filed(users, nextId)
      && (current.Some? ==> current.value in users)
    }

    constructor ()
      ensures Valid() && users == map[] && current == None && nextId == 1
    {
      users := map[];
      current := None;
      nextId := 1;
    }

    /** `get_current_user`. */
    function GetCurrentUser(): (r: Result<map<string, Json>, Fault>)
      requires Valid()
      reads this
      ensures r.Failure? <==> current.None?
      ensures r.Failure? ==> r.error == Raise(UnauthorizedError, "Please log in to access the current user.")
      ensures r.Success? ==> r.value == users[current.value].ToDict()
    {
      if current.None? then Failure(Raise(UnauthorizedError, "Please log in to access the current user."))
      else Success(users[current.value].ToDict())
    }

    /** `user_logout`. */
    method UserLogout() returns (r: Result<(), Fault>)
      requires Valid()
      modifies this
      ensures Valid() && users == old(users) && nextId == old(nextId)
      ensures r.Failure? <==> old(current).None?
      ensures r.Failure? ==> r.error == Raise(UnauthorizedError, "No user is logged in to logout.") && current == old(current)
      ensures current == None
    {
      if current.None? {
        return Failure(Raise(UnauthorizedError, "No user is logged in to logout."));
      }
      current := None;
      return Success(());
    }

    /**
     * `user_login`. Flask-Login records the user before the commit, so a
     * failed commit still leaves the user logged in, with `last_login`
     * rolled back.
     */
    method UserLogin(data: Body, now: Instant, commitOk: bool) returns (r: Result<map<string, Json>, Fault>)
      requires Valid()
      modifies this
      ensures Valid() && nextId == old(nextId)
      ensures LoginInput(data).Failure? ==>
        r == Failure(LoginInput(data).error) && users == old(users) && current == old(current)
      ensures LoginInput(data).Success? && !Authenticates(old(users), LoginInput(data).value) ==>
        r == Failure(Raise(UnauthorizedError, InvalidCredentials)) && users == old(users) && current == old(current)
      ensures LoginInput(data).Success? && Authenticates(old(users), LoginInput(data).value) ==>
        var email := LoginInput(data).value.email;
        && current == Some(email)
        && (commitOk ==> users == old(users)[email := old(users)[email].(lastLogin := Some(now))] && r == Success(users[email].ToDict()))
        && (!commitOk ==> users == old(users) && r == Failure(Crash(CommitFailed)))
    {
      var input := LoginInput(data);
      if input.Failure? {
        return Failure(input.error);
      }
      var email, password := input.value.email, input.value.password;
      if email !in users {
        return Failure(Raise(UnauthorizedError, InvalidCredentials));
      }
      var user := users[email];
      if !user.CheckPassword(password) {
        return Failure(Raise(UnauthorizedError, InvalidCredentials));
      }
      current := Some(email);
      if !commitOk {
        return Failure(Crash(CommitFailed));
      }
      users := users[email := user.(lastLogin := Some(now))];
      r := Success(users[email].ToDict());
    }

    /** `user_register`: a new row for a new email, or an error with the table unchanged. */
    method UserRegister(data: Body, now: Instant, commitOk: bool) returns (r: Result<map<string, Json>, Fault>)
      requires Valid()
      modifies this
      ensures Valid() && current == old(current)
      ensures var input := RegisterInput(data);
        && (input.Failure? ==> r == Failure(input.error) && users == old(users) && nextId == old(nextId))
        && (input.Success? && input.value.email in old(users) ==>
              r == Failure(Raise(ConflictError, EmailTaken)) && users == old(users) && nextId == old(nextId))
        && (input.Success? && input.value.email !in old(users) && !commitOk ==>
              r == Failure(Crash(CommitFailed)) && users == old(users) && nextId == old(nextId))
        && (input.Success? && input.value.email !in old(users) && commitOk ==>
              && users == old(users)[input.value.email := NewUser(old(nextId), input.value, now)]
              && nextId == old(nextId) + 1
              && r == Success(NewUser(old(nextId), input.value, now).ToDict()))
    {
      match RegisterInput(data) {
        case Failure(e) =>
          return Failure(e);
        case Success(reg) =>
          if reg.email in users {
            return Failure(Raise(ConflictError, EmailTaken));
          }
          var row := User(nextId, reg.firstName, reg.lastName, reg.email, Bcrypt([]), now, None);
          RegisteredRow(reg, data, nextId, now);
          var withPassword := row.SetPassword(JStr(reg.password)).value;
          if !commitOk {
            return Failure(Crash(CommitFailed));
          }
          FiledAdd(users, nextId, withPassword);
          users := users[reg.email := withPassword];
          nextId := nextId + 1;
          r := Success(withPassword.ToDict());
      }
    }
  }

  /** Every row is filed under its own email and has an id below `nextId`. */
  predicate Filed(users: map<string, User>, nextId: nat) {
    forall e :: e in users ==> users[e].email == e && users[e].id < nextId
  }

  /** Adding a row with a fresh email and the next id keeps the table filed. */
  lemma FiledAdd(users: map<string, User>, nextId: nat, u: User)
    requires Filed(users, nextId) && u.email !in users && u.id == nextId
    ensures Filed(users[u.email := u], nextId + 1)
  {
  }

  /** The stored user's digest verifies the normalised password. */
  predicate Authenticates(users: map<string, User>, c: Credentials) {
    c.email in users && users[c.email].CheckPassword(c.password)
  }

  /** The row `user_register` adds: normalised fields, a digest of the stripped password, no login yet. */
  function NewUser(id: nat, reg: Registration, now: Instant): (u: User)
    ensures u.email == reg.email && u.id == id && u.lastLogin == None
    ensures u.CheckPassword(reg.password)
  {
    User(id, reg.firstName, reg.lastName, reg.email, GeneratePasswordHash(reg.password), now, None)
  }

  /** After a successful registration, logging in with the same email and password authenticates. */
  lemma RegisterThenLogin(data: Body, users: map<string, User>, id: nat, now: Instant, login: Body)
    requires RegisterInput(data).Success?
    requires login.Some? && login.value == map["email" := data.value["email"], "password" := data.value["password"]]
    ensures LoginInput(login).Success?
    ensures Authenticates(users[RegisterInput(data).value.email := NewUser(id, RegisterInput(data).value, now)], LoginInput(login).value)
  {
    var reg := RegisterInput(data).value;
    var m := login.value;
    RegisterAccepts(data);
    assert NonBlankText(m, "email") && NonBlankText(m, "password");
    assert LoginInput(login).value == Credentials(reg.email, reg.password);
  }
}
