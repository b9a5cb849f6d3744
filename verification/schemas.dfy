/**
  Request schemas of the authentication service: the password-strength rule, the
  name rule, and the per-endpoint field lists whose failures are collected in
  field order (as a schema library reports them).

  Character classes are ASCII: `isupper`, `islower`, `isdigit` and `strip` on
  the ASCII range only.
 */
module Schemas {
  import opened Common

  // ---------------------------------------------------------------------------
  // Character classes
  // ---------------------------------------------------------------------------

  predicate IsUpper(c: char) { 'A' <= c <= 'Z' }
  predicate IsLower(c: char) { 'a' <= c <= 'z' }
  predicate IsDigit(c: char) { '0' <= c <= '9' }

  /** ASCII characters for which `str.isspace` holds: tab to carriage return, the four separators, space. */
  predicate IsSpace(c: char) {
    || c == ' ' || c == '\t' || c == '\n' || c == '\U{b}' || c == '\U{c}' || c == '\r'
    || c == '\U{1c}' || c == '\U{1d}' || c == '\U{1e}' || c == '\U{1f}'
  }

  /** `any(p(c) for c in s)`. */
  function Any(s: string, p: char -> bool): (r: bool)
    ensures r <==> exists i :: 0 <= i < |s| && p(s[i])
  {
    if s == [] then false
    else if p(s[0]) then true
    else
      var rest := Any(s[1..], p);
      assert forall i :: 1 <= i < |s| ==> s[i] == s[1..][i - 1];
      rest
  }

  // ---------------------------------------------------------------------------
  // strip()
  // ---------------------------------------------------------------------------

  function StripLeading(s: string): (r: string)
    ensures |r| <= |s| && r == s[|s| - |r|..]
    ensures forall k :: 0 <= k < |s| - |r| ==> IsSpace(s[k])
    ensures r != [] ==> !IsSpace(r[0])
  {
    if s != [] && IsSpace(s[0]) then StripLeading(s[1..]) else s
  }

  function StripTrailing(s: string): (r: string)
    ensures |r| <= |s| && r == s[..|r|]
    ensures forall k :: |r| <= k < |s| ==> IsSpace(s[k])
    ensures r != [] ==> !IsSpace(r[|r| - 1])
  {
    if s != [] && IsSpace(s[|s| - 1]) then StripTrailing(s[..|s| - 1]) else s
  }

  /** No whitespace at either end. */
  predicate Trimmed(t: string) {
    t == [] || (!IsSpace(t[0]) && !IsSpace(t[|t| - 1]))
  }

  /** Python's `str.strip()`: the longest slice of `s` with no whitespace at either end. */
  function Strip(s: string): (r: string)
    ensures |r| <= |s|
    ensures Trimmed(r)
    ensures (forall k :: 0 <= k < |s| ==> IsSpace(s[k])) <==> r == []
  {
    var t := StripLeading(s);
    var r := StripTrailing(t);
    if r != [] then
      assert r[0] == t[0] == s[|s| - |t|];
      r
    else
      r
  }

  /** A string with no whitespace at either end is left as it is by `strip()`. */
  lemma StripOfStripped(t: string)
    requires Trimmed(t)
    ensures Strip(t) == t
  {
    assert StripLeading(t) == t;
  }

  /** Stripping twice is stripping once. */
  lemma {:induction false} StripIdempotent(s: string)
    ensures Strip(Strip(s)) == Strip(s)
  {
    StripOfStripped(Strip(s));
  }

  // ---------------------------------------------------------------------------
  // Field validators
  // ---------------------------------------------------------------------------

  /** The reasons a password is refused, in the order they are checked. */
  datatype PasswordError = TooShort | NoUppercase | NoLowercase | NoDigit {
    function Message(): string {
      match this
      case TooShort => "Password must be at least 8 characters long"
      case NoUppercase => "Password must contain at least one uppercase letter"
      case NoLowercase => "Password must contain at least one lowercase letter"
      case NoDigit => "Password must contain at least one digit"
    }
  }

  const MinPasswordLength := 8
  const MinNameLength := 2

  /** The password policy, stated independently of the validator. */
  ghost predicate StrongPassword(v: string) {
    && |v| >= MinPasswordLength
    && (exists i :: 0 <= i < |v| && IsUpper(v[i]))
    && (exists i :: 0 <= i < |v| && IsLower(v[i]))
    && (exists i :: 0 <= i < |v| && IsDigit(v[i]))
  }

  /** `UserRegistrationRequest.validate_password`: accept the value unchanged or raise one reason. */
  function ValidatePassword(v: string): (r: Result<string, PasswordError>)
    ensures r.Success? <==> StrongPassword(v)
    ensures r.Success? ==> r.value == v
    ensures r == Failure(TooShort) <==> |v| < MinPasswordLength
    ensures r == Failure(NoUppercase) <==>
      |v| >= MinPasswordLength && !(exists i :: 0 <= i < |v| && IsUpper(v[i]))
    ensures r == Failure(NoLowercase) <==>
      && |v| >= MinPasswordLength
      && (exists i :: 0 <= i < |v| && IsUpper(v[i]))
      && !(exists i :: 0 <= i < |v| && IsLower(v[i]))
    ensures r == Failure(NoDigit) <==>
      && |v| >= MinPasswordLength
      && (exists i :: 0 <= i < |v| && IsUpper(v[i]))
      && (exists i :: 0 <= i < |v| && IsLower(v[i]))
      && !(exists i :: 0 <= i < |v| && IsDigit(v[i]))
  {
    if |v| < MinPasswordLength then Failure(TooShort)
    else if !Any(v, IsUpper) then Failure(NoUppercase)
    else if !Any(v, IsLower) then Failure(NoLowercase)
    else if !Any(v, IsDigit) then Failure(NoDigit)
    else Success(v)
  }

  /** `PasswordChangeRequest.validate_new_password`: a second copy of the registration rule. */
  function ValidateNewPassword(v: string): (r: Result<string, PasswordError>)
    ensures r == ValidatePassword(v)
  {
    if |v| < MinPasswordLength then Failure(TooShort)
    else if !Any(v, IsUpper) then Failure(NoUppercase)
    else if !Any(v, IsLower) then Failure(NoLowercase)
    else if !Any(v, IsDigit) then Failure(NoDigit)
    else Success(v)
  }

  const NameTooShortMessage := "Name must be at least 2 characters long"

  /** `validate_names`: refuse a name shorter than two characters once stripped; keep it stripped. */
  function ValidateName(v: string): (r: Result<string, string>)
    ensures r.Success? <==> |Strip(v)| >= MinNameLength
    ensures r.Success? ==> r.value == Strip(v) && |r.value| >= MinNameLength
    ensures r.Success? ==> Trimmed(r.value)
    ensures r.Failure? ==> r.error == NameTooShortMessage
  {
    var t := Strip(v);
    if |t| < MinNameLength then Failure(NameTooShortMessage) else Success(t)
  }

  /** An accepted name is a fixed point of the name rule. */
  lemma {:induction false} ValidateNameIdempotent(v: string)
    requires ValidateName(v).Success?
    ensures ValidateName(ValidateName(v).value) == ValidateName(v)
  {
    StripIdempotent(v);
  }

  // ---------------------------------------------------------------------------
  // Request schemas: fields in declaration order, failures collected
  // ---------------------------------------------------------------------------

  /** A JSON value as a `str` field sees it: a string, or any other JSON value (number, boolean, null, array, object). */
  datatype JsonValue = JString(str: string) | NonString

  /** A decoded JSON object. */
  type JsonObject = map<string, JsonValue>

  /** A decoded body other than `null`: an object, or any other JSON value. */
  datatype Document = Object(fields: JsonObject) | NonObject

  /** One reported failure: the field's location ("" for the body as a whole) and the library's message. */
  datatype FieldError = FieldError(loc: string, msg: string)

  const FieldRequired := "Field required"
  const NotAString := "Input should be a valid string"
  const NotAnEmail := "value is not a valid email address"
  const NotADictionary := "Input should be a valid dictionary or instance of "

  /**
    The address check of `EmailStr`: the normalised address (surrounding
    spaces gone, domain lower-cased, a display name cut off), or the reason
    the text is not an address. The address grammar is not part of this model.
   */
  type EmailCheck = string -> Result<string, string>

  /** A validator's `ValueError` as the schema library reports it. */
  function ValueError(message: string): string { "Value error, " + message }

  /** The field is present and holds a string. */
  predicate HasString(body: JsonObject, name: string) {
    name in body && body[name].JString?
  }

  /** A `str` field: missing, not a string, or its text. */
  function PlainField(body: JsonObject, name: string): (r: Result<string, FieldError>)
    ensures r.Success? <==> HasString(body, name)
    ensures r.Success? ==> r.value == body[name].str
    ensures name !in body ==> r == Failure(FieldError(name, FieldRequired))
    ensures name in body && body[name].NonString? ==> r == Failure(FieldError(name, NotAString))
  {
    if name !in body then Failure(FieldError(name, FieldRequired))
    else match body[name]
      case JString(s) => Success(s)
      case NonString => Failure(FieldError(name, NotAString))
  }

  /** An `EmailStr` field: a string first, then the address check, which yields the normalised address. */
  function EmailField(body: JsonObject, name: string, checkEmail: EmailCheck): (r: Result<string, FieldError>)
    ensures r.Success? <==> HasString(body, name) && checkEmail(body[name].str).Success?
    ensures r.Success? ==> r.value == checkEmail(body[name].str).value
    ensures !HasString(body, name) ==> r == PlainField(body, name)
    ensures HasString(body, name) && checkEmail(body[name].str).Failure? ==>
      r == Failure(FieldError(name, NotAnEmail + ": " + checkEmail(body[name].str).error))
  {
    match PlainField(body, name)
    case Failure(e) => Failure(e)
    case Success(v) =>
      match checkEmail(v)
      case Success(address) => Success(address)
      case Failure(reason) => Failure(FieldError(name, NotAnEmail + ": " + reason))
  }

  /** A `str` field with a password validator, which runs only on a string. */
  function PasswordField(body: JsonObject, name: string, rule: string -> Result<string, PasswordError>): (r: Result<string, FieldError>)
    ensures r.Success? <==> HasString(body, name) && rule(body[name].str).Success?
    ensures r.Success? ==> r.value == rule(body[name].str).value
    ensures !HasString(body, name) ==> r == PlainField(body, name)
    ensures HasString(body, name) && rule(body[name].str).Failure? ==>
      r == Failure(FieldError(name, ValueError(rule(body[name].str).error.Message())))
  {
    match PlainField(body, name)
    case Failure(e) => Failure(e)
    case Success(v) =>
      match rule(v)
      case Success(p) => Success(p)
      case Failure(e) => Failure(FieldError(name, ValueError(e.Message())))
  }

  /** A `str` field with the name validator, which runs only on a string. */
  function NameField(body: JsonObject, name: string): (r: Result<string, FieldError>)
    ensures r.Success? <==> HasString(body, name) && |Strip(body[name].str)| >= MinNameLength
    ensures r.Success? ==> r.value == Strip(body[name].str)
    ensures !HasString(body, name) ==> r == PlainField(body, name)
    ensures HasString(body, name) && |Strip(body[name].str)| < MinNameLength ==>
      r == Failure(FieldError(name, ValueError(NameTooShortMessage)))
  {
    match PlainField(body, name)
    case Failure(e) => Failure(e)
    case Success(v) =>
      match ValidateName(v)
      case Success(n) => Success(n)
      case Failure(m) => Failure(FieldError(name, ValueError(m)))
  }

  /** The failures among the field results, in field order. */
  function Errors(rs: seq<Result<string, FieldError>>): (errs: seq<FieldError>)
    ensures |errs| <= |rs|
    ensures errs == [] <==> forall i :: 0 <= i < |rs| ==> rs[i].Success?
    ensures forall i :: 0 <= i < |rs| && rs[i].Failure? ==> rs[i].error in errs
    ensures forall e :: e in errs ==> exists i :: 0 <= i < |rs| && rs[i] == Failure(e)
  {
    if rs == [] then []
    else
      var rest := Errors(rs[1..]);
      assert forall i :: 1 <= i < |rs| ==> rs[i] == rs[1..][i - 1];
      if rs[0].Failure? then [rs[0].error] + rest else rest
  }

  /** What one field adds to the failure list: its failure, if it has one. */
  function Reported(f: Result<string, FieldError>): seq<FieldError> {
    if f.Failure? then [f.error] else []
  }

  /** A single field reports exactly its own failure. */
  lemma ErrorsOfOne(f: Result<string, FieldError>)
    ensures Errors([f]) == Reported(f)
    ensures f.Failure? ==> Errors([f]) == [f.error]
    ensures f.Success? ==> Errors([f]) == []
  {
    assert [f][1..] == [];
  }

  /** The failures of consecutive fields are those of the first fields followed by those of the rest. */
  lemma {:induction false} ErrorsOfConcat(a: seq<Result<string, FieldError>>, b: seq<Result<string, FieldError>>)
    ensures Errors(a + b) == Errors(a) + Errors(b)
  {
    if a == [] {
      assert a + b == b;
    } else {
      assert (a + b)[1..] == a[1..] + b;
      ErrorsOfConcat(a[1..], b);
    }
  }

  /** Two fields' failures, in field order. */
  lemma ErrorsOfTwo(f1: Result<string, FieldError>, f2: Result<string, FieldError>)
    ensures Errors([f1, f2]) == Reported(f1) + Reported(f2)
  {
    assert [f1, f2] == [f1] + [f2];
    ErrorsOfConcat([f1], [f2]);
    ErrorsOfOne(f1);
    ErrorsOfOne(f2);
  }

  /** Four fields' failures, in field order. */
  lemma ErrorsOfFour(f1: Result<string, FieldError>, f2: Result<string, FieldError>,
                     f3: Result<string, FieldError>, f4: Result<string, FieldError>)
    ensures Errors([f1, f2, f3, f4]) == Reported(f1) + Reported(f2) + Reported(f3) + Reported(f4)
  {
    var first3 := [f1, f2, f3];
    ErrorsOfTwo(f1, f2);
    assert first3 == [f1, f2] + [f3];
    ErrorsOfConcat([f1, f2], [f3]);
    ErrorsOfOne(f3);
    assert [f1, f2, f3, f4] == first3 + [f4];
    ErrorsOfConcat(first3, [f4]);
    ErrorsOfOne(f4);
  }

  /** What `model_validate` reports for a body that is not an object: one failure for the body as a whole. */
  function NotAnObject(schema: string): (errs: seq<FieldError>)
    ensures |errs| == 1 && errs[0].loc == ""
  {
    [FieldError("", NotADictionary + schema)]
  }

  /** The password field under the registration rule passes exactly the strong passwords, unchanged. */
  lemma StrongPasswordField(body: JsonObject, name: string)
    ensures PasswordField(body, name, ValidatePassword).Success? <==> HasString(body, name) && StrongPassword(body[name].str)
    ensures PasswordField(body, name, ValidatePassword).Success? ==> PasswordField(body, name, ValidatePassword).value == body[name].str
  {
    if HasString(body, name) {
      assert ValidatePassword(body[name].str).Success? <==> StrongPassword(body[name].str);
    }
  }

  datatype Registration = Registration(email: string, password: string, firstName: string, lastName: string)

  /**
    `UserRegistrationRequest`: email, password, first_name, last_name. Every
    failing field is reported, once, in that order.
   */
  function ValidateRegistration(body: JsonObject, checkEmail: EmailCheck): (r: Result<Registration, seq<FieldError>>)
    ensures r.Success? <==>
      && HasString(body, "email") && checkEmail(body["email"].str).Success?
      && HasString(body, "password") && StrongPassword(body["password"].str)
      && HasString(body, "first_name") && |Strip(body["first_name"].str)| >= MinNameLength
      && HasString(body, "last_name") && |Strip(body["last_name"].str)| >= MinNameLength
    ensures r.Success? ==> r.value == Registration(
      checkEmail(body["email"].str).value, body["password"].str,
      Strip(body["first_name"].str), Strip(body["last_name"].str))
    ensures r.Failure? ==>
      r.error == Reported(EmailField(body, "email", checkEmail)) + Reported(PasswordField(body, "password", ValidatePassword))
                 + Reported(NameField(body, "first_name")) + Reported(NameField(body, "last_name"))
    ensures r.Failure? ==> 1 <= |r.error| <= 4
  {
    var email, password := EmailField(body, "email", checkEmail), PasswordField(body, "password", ValidatePassword);
    var first, last := NameField(body, "first_name"), NameField(body, "last_name");
    StrongPasswordField(body, "password");
    if email.Success? && password.Success? && first.Success? && last.Success? then
      Success(Registration(email.value, password.value, first.value, last.value))
    else
      var fs := [email, password, first, last];
      assert fs[0].Failure? || fs[1].Failure? || fs[2].Failure? || fs[3].Failure?;
      ErrorsOfFour(email, password, first, last);
      Failure(Errors(fs))
  }

  datatype Login = Login(email: string, password: string)

  /** `UserLoginRequest`: email, password (no strength rule); every failing field is reported, in that order. */
  function ValidateLogin(body: JsonObject, checkEmail: EmailCheck): (r: Result<Login, seq<FieldError>>)
    ensures r.Success? <==>
      HasString(body, "email") && checkEmail(body["email"].str).Success? && HasString(body, "password")
    ensures r.Success? ==> r.value == Login(checkEmail(body["email"].str).value, body["password"].str)
    ensures r.Failure? ==>
      r.error == Reported(EmailField(body, "email", checkEmail)) + Reported(PlainField(body, "password"))
    ensures r.Failure? ==> 1 <= |r.error| <= 2
  {
    var email, password := EmailField(body, "email", checkEmail), PlainField(body, "password");
    if email.Success? && password.Success? then Success(Login(email.value, password.value))
    else
      ErrorsOfTwo(email, password);
      Failure(Errors([email, password]))
  }

  /** `TokenRefreshRequest`: refresh_token. */
  function ValidateRefreshRequest(body: JsonObject): (r: Result<string, seq<FieldError>>)
    ensures r.Success? <==> HasString(body, "refresh_token")
    ensures r.Success? ==> r.value == body["refresh_token"].str
    ensures r.Failure? ==> r.error == [PlainField(body, "refresh_token").error]
  {
    match PlainField(body, "refresh_token")
    case Success(v) => Success(v)
    case Failure(e) => Failure([e])
  }

  datatype PasswordChange = PasswordChange(currentPassword: string, newPassword: string)

  /** `PasswordChangeRequest`: current_password, new_password (strength rule); every failing field is reported, in that order. */
  function ValidatePasswordChange(body: JsonObject): (r: Result<PasswordChange, seq<FieldError>>)
    ensures r.Success? <==>
      HasString(body, "current_password") && HasString(body, "new_password") && StrongPassword(body["new_password"].str)
    ensures r.Success? ==> r.value == PasswordChange(body["current_password"].str, body["new_password"].str)
    ensures r.Failure? ==>
      r.error == Reported(PlainField(body, "current_password")) + Reported(PasswordField(body, "new_password", ValidateNewPassword))
    ensures r.Failure? ==> 1 <= |r.error| <= 2
  {
    var current, next := PlainField(body, "current_password"), PasswordField(body, "new_password", ValidateNewPassword);
    if current.Success? && next.Success? then Success(PasswordChange(current.value, next.value))
    else
      ErrorsOfTwo(current, next);
      Failure(Errors([current, next]))
  }

  // ---------------------------------------------------------------------------
  // The cases the test suite relies on
  // ---------------------------------------------------------------------------

  lemma TestPasswordAccepted()
    ensures ValidatePassword("TestPassword123") == Success("TestPassword123")
  {
    var p := "TestPassword123";
    assert IsUpper(p[0]) && IsLower(p[1]) && IsDigit(p[12]);
  }

  lemma WeakPasswordRejectedForLengthOnly()
    ensures ValidatePassword("weak") == Failure(TooShort)
  {
  }

  lemma OneLetterNamesRejected()
    ensures ValidateName("J").Failure? && ValidateName("D").Failure?
  {
    var j := Strip("J");
    assert |j| <= 1;
  }

  /** When the password is the only field that fails, it is the one reported failure. */
  lemma OnlyPasswordReported(body: JsonObject, checkEmail: EmailCheck)
    requires EmailField(body, "email", checkEmail).Success?
    requires PasswordField(body, "password", ValidatePassword).Failure?
    requires NameField(body, "first_name").Success? && NameField(body, "last_name").Success?
    ensures ValidateRegistration(body, checkEmail) == Failure([PasswordField(body, "password", ValidatePassword).error])
  {
    OnlySecondReported(EmailField(body, "email", checkEmail), PasswordField(body, "password", ValidatePassword),
                       NameField(body, "first_name"), NameField(body, "last_name"));
  }

  /** Of four fields, only the failing second one is reported. */
  lemma OnlySecondReported(f1: Result<string, FieldError>, f2: Result<string, FieldError>,
                           f3: Result<string, FieldError>, f4: Result<string, FieldError>)
    requires f1.Success? && f2.Failure? && f3.Success? && f4.Success?
    ensures Reported(f1) + Reported(f2) + Reported(f3) + Reported(f4) == [f2.error]
  {
    assert Reported(f1) == [] && Reported(f3) == [] && Reported(f4) == [];
  }

  /** The test suite's weak-password registration reports the length rule for the password alone. */
  lemma WeakPasswordRegistration(checkEmail: EmailCheck)
    requires checkEmail("test@example.com").Success?
    ensures ValidateRegistration(
      map["email" := JString("test@example.com"), "password" := JString("weak"),
          "first_name" := JString("John"), "last_name" := JString("Doe")],
      checkEmail) == Failure([FieldError("password", ValueError(TooShort.Message()))])
  {
    ShortPasswordOnly(map["email" := JString("test@example.com"), "password" := JString("weak"),
                          "first_name" := JString("John"), "last_name" := JString("Doe")],
                      checkEmail, "test@example.com", "weak", "John", "Doe");
  }

  /** A registration whose only fault is a short password reports the length rule for the password alone. */
  lemma ShortPasswordOnly(body: JsonObject, checkEmail: EmailCheck, email: string, password: string, first: string, last: string)
    requires body == map["email" := JString(email), "password" := JString(password),
                         "first_name" := JString(first), "last_name" := JString(last)]
    requires checkEmail(email).Success? && |password| < MinPasswordLength
    requires |first| >= MinNameLength && !IsSpace(first[0]) && !IsSpace(first[|first| - 1])
    requires |last| >= MinNameLength && !IsSpace(last[0]) && !IsSpace(last[|last| - 1])
    ensures ValidateRegistration(body, checkEmail) == Failure([FieldError("password", ValueError(TooShort.Message()))])
  {
    assert body["email"] == JString(email) && body["password"] == JString(password);
    NamesPass(body, first, last);
    OnlyPasswordReported(body, checkEmail);
  }

  /** Two names that pass unchanged are the values of the two name fields. */
  lemma NamesPass(body: JsonObject, first: string, last: string)
    requires "first_name" in body && body["first_name"] == JString(first)
    requires "last_name" in body && body["last_name"] == JString(last)
    requires |first| >= MinNameLength && !IsSpace(first[0]) && !IsSpace(first[|first| - 1])
    requires |last| >= MinNameLength && !IsSpace(last[0]) && !IsSpace(last[|last| - 1])
    ensures NameField(body, "first_name") == Success(first)
    ensures NameField(body, "last_name") == Success(last)
  {
    NameFieldPasses(body, "first_name", first);
    NameFieldPasses(body, "last_name", last);
  }

  /** A name field holding a name that passes unchanged yields that name. */
  lemma NameFieldPasses(body: JsonObject, name: string, v: string)
    requires name in body && body[name] == JString(v)
    requires |v| >= MinNameLength && !IsSpace(v[0]) && !IsSpace(v[|v| - 1])
    ensures NameField(body, name) == Success(v)
  {
    NamePasses(v);
  }

  /** A name of at least two characters with no whitespace at either end passes unchanged. */
  lemma NamePasses(v: string)
    requires |v| >= MinNameLength && !IsSpace(v[0]) && !IsSpace(v[|v| - 1])
    ensures ValidateName(v) == Success(v)
  {
    StripOfStripped(v);
  }

  /** A field of the wrong JSON type is reported as not a string, and its validator does not run. */
  lemma NonStringReportedAsSuch(body: JsonObject, checkEmail: EmailCheck)
    requires "first_name" in body && body["first_name"] == NonString
    requires "password" in body && body["password"] == NonString
    ensures ValidateRegistration(body, checkEmail).Failure?
    ensures FieldError("first_name", NotAString) in ValidateRegistration(body, checkEmail).error
    ensures FieldError("password", NotAString) in ValidateRegistration(body, checkEmail).error
  {
    var password := PasswordField(body, "password", ValidatePassword);
    var first := NameField(body, "first_name");
    assert password == Failure(FieldError("password", NotAString));
    assert first == Failure(FieldError("first_name", NotAString));
    var r := ValidateRegistration(body, checkEmail);
    assert r.Failure?;
    assert r.error == Reported(EmailField(body, "email", checkEmail)) + Reported(password)
                      + Reported(first) + Reported(NameField(body, "last_name"));
  }
}
