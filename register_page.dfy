/**
 * frontend/src/auth/Register.jsx: the sign-up form and its submit handler,
 * and what the backend's registration checks make of the body it sends.
 */
module RegisterPage {
  import opened Wrappers
  import opened JsonValue
  import opened WebApi
  import opened AuthContext
  import opened PyText
  import opened EmailRegex
  import AuthServices

  /** The names of the form's four inputs (lines 81, 96, 112, 127), which are also the keys of `form`. */
  const FormFields: set<string> := {"firstName", "lastName", "email", "password"}

  const Dashboard := "/dashboard"

  /** The JSON object `register(form)` sends: the form's own keys, each with its text. */
  function Payload(form: map<string, string>): (body: map<string, Json>)
    ensures body.Keys == form.Keys
    ensures forall k :: k in form ==> body[k] == JStr(form[k])
  {
    map k | k in form :: JStr(form[k])
  }

  /** Every field of the form is filled in, the client-side check of lines 21-24. */
  predicate Filled(form: map<string, string>)
    requires form.Keys == FormFields
  {
    form["firstName"] != "" && form["lastName"] != "" && form["email"] != "" && form["password"] != ""
  }

  /**
   * The backend refuses every body this page can send: it asks for
   * `first_name`, which the camelCase form never carries.
   */
  lemma CamelCaseRefused(form: map<string, string>)
    requires form.Keys == FormFields
    ensures AuthServices.RegisterInput(Some(Payload(form))) == Failure(AuthServices.BadRequest(AuthServices.FirstNameRequired))
  {
    var body := Payload(form);
    assert "email" in body;
    assert "first_name" !in body;
  }

  /** The body the backend expects: the same four values under snake_case keys. */
  function SnakeCasePayload(form: map<string, string>): (body: map<string, Json>)
    requires form.Keys == FormFields
    ensures body.Keys == {"first_name", "last_name", "email", "password"}
  {
    map["first_name" := JStr(form["firstName"]), "last_name" := JStr(form["lastName"]),
        "email" := JStr(form["email"]), "password" := JStr(form["password"])]
  }

  /**
   * With snake_case keys the backend's checks decide on the values: the body
   * is accepted exactly when no field is blank, the email has the pattern's
   * shape and the stripped password has at least eight characters.
   */
  lemma SnakeCaseAccepted(form: map<string, string>)
    requires form.Keys == FormFields
    ensures AuthServices.RegisterInput(Some(SnakeCasePayload(form))).Success? <==>
      && Strip(form["firstName"]) != [] && Strip(form["lastName"]) != []
      && Strip(form["email"]) != [] && Strip(form["password"]) != []
      && Pattern(Lower(Strip(form["email"])))
      && |Strip(form["password"])| >= AuthServices.MinPasswordLength
    ensures AuthServices.RegisterInput(Some(SnakeCasePayload(form))).Success? ==>
      AuthServices.RegisterInput(Some(SnakeCasePayload(form))).value ==
        AuthServices.Registration(Strip(form["firstName"]), Strip(form["lastName"]),
                                  Lower(Strip(form["email"])), Strip(form["password"]))
  {
    var body := SnakeCasePayload(form);
    AuthServices.RegisterAccepts(Some(body));
    forall k | k in {"first_name", "last_name", "email", "password"}
      ensures body[k].JStr? && (body[k].s == [] ==> Strip(body[k].s) == [])
    {
      assert body[k].JStr?;
      if body[k].s == [] {
        assert Strip(body[k].s) == [];
      }
    }
    assert |Lower(Strip(form["email"]))| == |Strip(form["email"])|;
  }

  /** The page's `form` state. */
  class Register {
    var form: map<string, string>

    ghost predicate Valid()
      reads this
    {
      form.Keys == FormFields
    }

    /** The initial form (lines 9-14): four empty fields. */
    constructor ()
      ensures Valid()
      ensures form == map["firstName" := "", "lastName" := "", "email" := "", "password" := ""]
    {
      form := map["firstName" := "", "lastName" := "", "email" := "", "password" := ""];
    }

    /**
     * `handleChange` (lines 34-39): the field named by the input gets the
     * new value and the others are kept. The handler is attached to the four
     * inputs only, so `name` is one of their names.
     */
    method HandleChange(name: string, value: string)
      requires Valid() && name in FormFields
      modifies this
      ensures Valid()
      ensures form[name] == value
      ensures forall k :: k in FormFields && k != name ==> form[k] == old(form)[k]
    {
      form := form[name := value];
    }

    /**
     * `handleSubmit` as written (lines 17-32): an empty field stops it before
     * `register`; otherwise the camelCase form is sent, and since `register`
     * resolves to undefined the page never navigates.
     */
    method HandleSubmit(auth: AuthProvider, o: Outcome, loginOutcome: Outcome)
      returns (sent: Option<map<string, Json>>, nav: Option<string>)
      requires Valid()
      modifies auth
      ensures sent.Some? <==> Filled(form)
      ensures sent.Some? ==> sent.value == Payload(form) && !auth.actionLoading
      ensures sent.Some? ==>
        auth.State() == (if Succeeded(o) then LoginResult(loginOutcome) else RegisterResult(o))
      ensures sent.None? ==> unchanged(auth)
      ensures nav == None
    {
      sent := None;
      nav := None;
      if form["firstName"] == "" || form["lastName"] == "" || form["email"] == "" || form["password"] == "" {
        return;
      }
      sent := Some(Payload(form));
      var ok := auth.Register(o, loginOutcome);
      if JsTruthy(ok) {
        nav := Some(Dashboard);
      }
    }

    /**
     * `handleSubmit` with the snake_case body and a `register` that reports
     * success: it navigates to the dashboard exactly when registration succeeded.
     */
    method HandleSubmitCorrected(auth: AuthProvider, o: Outcome, loginOutcome: Outcome)
      returns (sent: Option<map<string, Json>>, nav: Option<string>)
      requires Valid()
      modifies auth
      ensures sent.Some? <==> Filled(form)
      ensures sent.Some? ==> sent.value == SnakeCasePayload(form) && !auth.actionLoading
      ensures sent.Some? ==>
        auth.State() == (if Succeeded(o) then LoginResult(loginOutcome) else RegisterResult(o))
      ensures sent.None? ==> unchanged(auth)
      ensures nav.Some? <==> sent.Some? && Succeeded(o)
      ensures nav.Some? ==> nav.value == Dashboard
    {
      sent := None;
      nav := None;
      if form["firstName"] == "" || form["lastName"] == "" || form["email"] == "" || form["password"] == "" {
        return;
      }
      sent := Some(SnakeCasePayload(form));
      var ok := auth.RegisterCorrected(o, loginOutcome);
      if JsTruthy(ok) {
        nav := Some(Dashboard);
      }
    }
  }
}
