/**
 * The sign-up endpoint (WeThrift/src/app/api/auth/register/route.ts): `registerSchema` checks
 * thirteen fields and then, on an object whose fields all have the right types, that the two
 * passwords agree; an accepted body is passed to the identity provider's sign-up with the
 * profile fields under their column names.
 *
 * The email check is the library's own rule and is a parameter (`isEmail`); the sign-up call
 * is an outside service whose outcome is a parameter (`signUp`).
 */
module RegisterRoute {
  import opened Wrappers
  import opened Text
  import opened Schema
  import Auth

  /** What `registerSchema` yields. */
  datatype Registration = Registration(
    email: string,
    password: string,
    confirmPassword: string,
    firstName: string,
    lastName: string,
    phone: string,
    dateOfBirth: string,
    address: string,
    city: string,
    state: string,
    country: string,
    postalCode: Option<string>,
    acceptTerms: bool)

  /** The parse of every field, in the schema's order. */
  datatype FieldParses = FieldParses(
    email: Parsed<string>,
    password: Parsed<string>,
    confirmPassword: Parsed<string>,
    firstName: Parsed<string>,
    lastName: Parsed<string>,
    phone: Parsed<string>,
    dateOfBirth: Parsed<string>,
    address: Parsed<string>,
    city: Parsed<string>,
    state: Parsed<string>,
    country: Parsed<string>,
    postalCode: Parsed<Option<string>>,
    acceptTerms: Parsed<bool>)

  const PasswordsDiffer := Issue(["confirmPassword"], Custom, Some("Passwords don't match"))

  /** A string property of at least `n` UTF-16 code units. */
  function StringField(f: map<string, Json>, key: string, n: nat, message: string): (p: Parsed<string>)
    ensures p.value.Some? <==> key in f && f[key].JString?
    ensures p.value.Some? ==> p.value.value == f[key].s
    ensures p.issues == [] <==> key in f && f[key].JString? && Utf16Length(f[key].s) >= n
  {
    MinLength(StringAt(Property(f, key), [key]), [key], n, message)
  }

  /** A string property the given pattern must accept. */
  function PatternField(f: map<string, Json>, key: string, test: string -> bool, message: string): (p: Parsed<string>)
    ensures p.value.Some? <==> key in f && f[key].JString?
    ensures p.value.Some? ==> p.value.value == f[key].s
    ensures p.issues == [] <==> key in f && f[key].JString? && test(f[key].s)
  {
    Matching(StringAt(Property(f, key), [key]), [key], test, message)
  }

  function ParseFields(f: map<string, Json>, isEmail: string -> bool): FieldParses {
    FieldParses(
      PatternField(f, "email", isEmail, "Invalid email address"),
      StringField(f, "password", 6, "Password must be at least 6 characters"),
      StringAt(Property(f, "confirmPassword"), ["confirmPassword"]),
      StringField(f, "firstName", 2, "First name must be at least 2 characters"),
      StringField(f, "lastName", 2, "Last name must be at least 2 characters"),
      PatternField(f, "phone", MatchesNigerianPhone, "Invalid Nigerian phone number"),
      PatternField(f, "dateOfBirth", MatchesDateShape, "Invalid date format"),
      StringField(f, "address", 10, "Address must be at least 10 characters"),
      StringField(f, "city", 2, "City is required"),
      StringField(f, "state", 2, "State is required"),
      StringAt(Defaulted(Property(f, "country"), JString("Nigeria")), ["country"]),
      OptionalStringAt(Property(f, "postalCode"), ["postalCode"]),
      MustBeTrue(BooleanAt(Property(f, "acceptTerms"), ["acceptTerms"]), ["acceptTerms"],
                 "You must accept the terms and conditions"))
  }

  /** Every field has a value of the right type: the object's parse was not aborted. */
  predicate Typed(p: FieldParses) {
    && p.email.value.Some? && p.password.value.Some? && p.confirmPassword.value.Some?
    && p.firstName.value.Some? && p.lastName.value.Some? && p.phone.value.Some?
    && p.dateOfBirth.value.Some? && p.address.value.Some? && p.city.value.Some?
    && p.state.value.Some? && p.country.value.Some? && p.postalCode.value.Some?
    && p.acceptTerms.value.Some?
  }

  /** The fields' issues, in the schema's order. */
  function FieldIssues(p: FieldParses): seq<Issue> {
    p.email.issues + p.password.issues + p.confirmPassword.issues + p.firstName.issues
    + p.lastName.issues + p.phone.issues + p.dateOfBirth.issues + p.address.issues
    + p.city.issues + p.state.issues + p.country.issues + p.postalCode.issues
    + p.acceptTerms.issues
  }

  /** A field rejected outright always reports at least one issue. */
  lemma UntypedHasIssues(f: map<string, Json>, isEmail: string -> bool)
    ensures !Typed(ParseFields(f, isEmail)) ==> |FieldIssues(ParseFields(f, isEmail))| > 0
  {
  }

  /** `registerSchema.parse(body)`: the password check runs only when no field was rejected outright. */
  function ParseRegistration(body: Json, isEmail: string -> bool): (c: Checked<Registration>)
    ensures c.Rejected? ==> |c.issues| > 0
  {
    if !body.JObject? then Rejected(NotAnObject)
    else
      var p := ParseFields(body.fields, isEmail);
      UntypedHasIssues(body.fields, isEmail);
      if !Typed(p) then Rejected(FieldIssues(p))
      else
        var issues := FieldIssues(p)
          + (if p.password.value.value != p.confirmPassword.value.value then [PasswordsDiffer] else []);
        if issues == [] then
          Accepted(Registration(
            p.email.value.value, p.password.value.value, p.confirmPassword.value.value,
            p.firstName.value.value, p.lastName.value.value, p.phone.value.value,
            p.dateOfBirth.value.value, p.address.value.value, p.city.value.value,
            p.state.value.value, p.country.value.value, p.postalCode.value.value,
            p.acceptTerms.value.value))
        else
          Rejected(issues)
  }

  predicate StringOf(f: map<string, Json>, key: string, n: nat) {
    key in f && f[key].JString? && Utf16Length(f[key].s) >= n
  }

  /** Absent, or a string. */
  predicate OptionalString(f: map<string, Json>, key: string) {
    key !in f || f[key].JString?
  }

  /** The bodies `registerSchema` accepts, field by field. */
  predicate Acceptable(body: Json, isEmail: string -> bool) {
    && body.JObject?
    && FieldsAcceptable(body.fields, isEmail)
    && body.fields["password"].s == body.fields["confirmPassword"].s
  }

  /** No field reported an issue. */
  predicate AllClean(p: FieldParses) {
    && p.email.issues == [] && p.password.issues == [] && p.confirmPassword.issues == []
    && p.firstName.issues == [] && p.lastName.issues == [] && p.phone.issues == []
    && p.dateOfBirth.issues == [] && p.address.issues == [] && p.city.issues == []
    && p.state.issues == [] && p.country.issues == [] && p.postalCode.issues == []
    && p.acceptTerms.issues == []
  }

  lemma FieldIssuesEmpty(p: FieldParses)
    ensures FieldIssues(p) == [] <==> AllClean(p)
  {
    assert |FieldIssues(p)| == |p.email.issues| + |p.password.issues| + |p.confirmPassword.issues|
      + |p.firstName.issues| + |p.lastName.issues| + |p.phone.issues| + |p.dateOfBirth.issues|
      + |p.address.issues| + |p.city.issues| + |p.state.issues| + |p.country.issues|
      + |p.postalCode.issues| + |p.acceptTerms.issues|;
  }

  /** Every field passes its own checks (everything but the password comparison). */
  predicate FieldsAcceptable(f: map<string, Json>, isEmail: string -> bool) {
    && "email" in f && f["email"].JString? && isEmail(f["email"].s)
    && StringOf(f, "password", 6)
    && StringOf(f, "confirmPassword", 0)
    && StringOf(f, "firstName", 2) && StringOf(f, "lastName", 2)
    && "phone" in f && f["phone"].JString? && MatchesNigerianPhone(f["phone"].s)
    && "dateOfBirth" in f && f["dateOfBirth"].JString? && MatchesDateShape(f["dateOfBirth"].s)
    && StringOf(f, "address", 10) && StringOf(f, "city", 2) && StringOf(f, "state", 2)
    && OptionalString(f, "country") && OptionalString(f, "postalCode")
    && "acceptTerms" in f && f["acceptTerms"] == JBool(true)
  }

  lemma FieldsAcceptedExactly(f: map<string, Json>, isEmail: string -> bool)
    ensures var p := ParseFields(f, isEmail);
      Typed(p) && AllClean(p) <==> FieldsAcceptable(f, isEmail)
  {
  }

  /** The schema accepts exactly the bodies described by `Acceptable`, and keeps their values. */
  lemma AcceptedExactly(body: Json, isEmail: string -> bool)
    ensures ParseRegistration(body, isEmail).Accepted? <==> Acceptable(body, isEmail)
    ensures Acceptable(body, isEmail) ==>
      var r := ParseRegistration(body, isEmail).data;
      var f := body.fields;
      && r.email == f["email"].s && r.password == f["password"].s && r.phone == f["phone"].s
      && r.firstName == f["firstName"].s && r.lastName == f["lastName"].s
      && r.dateOfBirth == f["dateOfBirth"].s && r.address == f["address"].s
      && r.city == f["city"].s && r.state == f["state"].s && r.acceptTerms
      && r.country == (if "country" in f then f["country"].s else "Nigeria")
      && r.postalCode == (if "postalCode" in f then Some(f["postalCode"].s) else None)
  {
    if body.JObject? {
      var p := ParseFields(body.fields, isEmail);
      FieldIssuesEmpty(p);
      FieldsAcceptedExactly(body.fields, isEmail);
    }
  }

  /**
   * Passwords that differ on an otherwise well-typed object are reported last, on the path
   * `confirmPassword`; when some field has the wrong type the comparison is never made.
   */
  lemma PasswordMismatch(body: Json, isEmail: string -> bool)
    requires body.JObject?
    ensures var p := ParseFields(body.fields, isEmail);
      Typed(p) && p.password.value.value != p.confirmPassword.value.value ==>
        && ParseRegistration(body, isEmail).Rejected?
        && ParseRegistration(body, isEmail).issues == FieldIssues(p) + [PasswordsDiffer]
    ensures !Typed(ParseFields(body.fields, isEmail)) ==>
      ParseRegistration(body, isEmail) == Rejected(FieldIssues(ParseFields(body.fields, isEmail)))
  {
  }

  /** What the route passes to the provider's `signUp`: the profile goes without the email. */
  datatype SignUpRequest = SignUpRequest(email: string, password: string, data: Auth.ProfileData)

  function SignUpFor(r: Registration): (s: SignUpRequest)
    ensures s.email == r.email && s.password == r.password
    ensures s.data.email.None? && s.data.phone == Some(r.phone) && s.data.country == Some(r.country)
    ensures s.data.postalCode == r.postalCode
  {
    SignUpRequest(r.email, r.password, Auth.ProfileData(
      None, Some(r.phone), Some(r.firstName), Some(r.lastName), Some(r.dateOfBirth),
      Some(r.address), Some(r.city), Some(r.state), Some(r.country), r.postalCode))
  }

  /** The provider's `{ user, session }` after a sign-up. */
  datatype Account = Account(user: Option<string>, session: Option<string>)

  const Registered := "Registration successful. Please check your email to verify your account."

  /**
   * `POST`: an unreadable body is a 500, a refused one a 400 with the issues, and a sign-up
   * error a 400 with its message.
   */
  function Answer(body: Option<Json>, isEmail: string -> bool, signUp: SignUpRequest -> Result<Account, string>)
    : (r: Reply<Account>)
    ensures Status(r) == 500 <==> body.None?
    ensures body.Some? && ParseRegistration(body.value, isEmail).Rejected? ==>
      r == Invalid(ParseRegistration(body.value, isEmail).issues)
    ensures body.Some? && ParseRegistration(body.value, isEmail).Accepted? ==>
      var s := SignUpFor(ParseRegistration(body.value, isEmail).data);
      && (signUp(s).Err? ==> r == Failure(400, signUp(s).error, []))
      && (signUp(s).Ok? ==> r == Success(signUp(s).value, Some(Registered)))
  {
    if body.None? then Internal()
    else
      match ParseRegistration(body.value, isEmail)
      case Rejected(issues) => Invalid(issues)
      case Accepted(registration) =>
        match signUp(SignUpFor(registration))
        case Err(message) => Failure(400, message, [])
        case Ok(account) => Success(account, Some(Registered))
  }

  /** Only an unreadable body gives 500: a refused body and a failed sign-up both give 400. */
  lemma StatusCodes(body: Option<Json>, isEmail: string -> bool, signUp: SignUpRequest -> Result<Account, string>)
    ensures Status(Answer(body, isEmail, signUp)) in {200, 400, 500}
    ensures body.Some? ==> Status(Answer(body, isEmail, signUp)) != 500
  {
  }
}
