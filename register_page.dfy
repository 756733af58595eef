/** The registration page's rules (frontend/src/pages/Register.jsx): the
    password-strength label, the form check, the payload sent to the
    server and the message shown when registration fails. Rendering, toasts
    and navigation are not modelled. */
module RegisterPage {
  import opened Text
  import AuthApi

  /** The six labels `validatePasswordStrength` can give. */
  datatype Strength = TooShort | AddUppercase | AddLowercase | AddNumber | AddSymbol | Strong

  function Label(s: Strength): string
  {
    match s
    case TooShort => "Too short"
    case AddUppercase => "Add uppercase"
    case AddLowercase => "Add lowercase"
    case AddNumber => "Add number"
    case AddSymbol => "Add symbol"
    case Strong => "Strong"
  }

  /** `/[^A-Za-z0-9]/`: anything but an ASCII letter or digit. */
  predicate IsSymbol(c: char)
  {
    !IsUpper(c) && !IsLower(c) && !IsDigit(c)
  }

  predicate HasUpper(p: string) { exists i :: 0 <= i < |p| && IsUpper(p[i]) }

  predicate HasLower(p: string) { exists i :: 0 <= i < |p| && IsLower(p[i]) }

  predicate HasDigit(p: string) { exists i :: 0 <= i < |p| && IsDigit(p[i]) }

  predicate HasSymbol(p: string) { exists i :: 0 <= i < |p| && IsSymbol(p[i]) }

  /** `validatePasswordStrength`: the length first, then the first missing
      class of character in the order upper case, lower case, digit,
      symbol. */
  function PasswordStrength(password: string): (s: Strength)
    ensures |password| < 6 ==> s == TooShort
    ensures s == Strong <==>
      |password| >= 6 && HasUpper(password) && HasLower(password) && HasDigit(password) && HasSymbol(password)
    ensures s == AddUppercase <==> |password| >= 6 && !HasUpper(password)
    ensures s == AddLowercase <==> |password| >= 6 && HasUpper(password) && !HasLower(password)
    ensures s == AddNumber <==> |password| >= 6 && HasUpper(password) && HasLower(password) && !HasDigit(password)
    ensures s == AddSymbol <==>
      |password| >= 6 && HasUpper(password) && HasLower(password) && HasDigit(password) && !HasSymbol(password)
  {
    if |password| < 6 then TooShort
    else if !HasUpper(password) then AddUppercase
    else if !HasLower(password) then AddLowercase
    else if !HasDigit(password) then AddNumber
    else if !HasSymbol(password) then AddSymbol
    else Strong
  }

  /** Appending characters never takes a password below "Strong": each
      class present stays present and the length only grows. */
  lemma StrongStaysStrong(password: string, more: string)
    requires PasswordStrength(password) == Strong
    ensures PasswordStrength(password + more) == Strong
  {
    var p := password + more;
    var u :| 0 <= u < |password| && IsUpper(password[u]);
    var l :| 0 <= l < |password| && IsLower(password[l]);
    var d :| 0 <= d < |password| && IsDigit(password[d]);
    var s :| 0 <= s < |password| && IsSymbol(password[s]);
    assert p[u] == password[u] && p[l] == password[l] && p[d] == password[d] && p[s] == password[s];
  }

  /** Five characters are too short whatever they are, and six well-mixed
      ones are strong. */
  lemma StrengthExamples()
    ensures PasswordStrength("Ab1!x") == TooShort
    ensures PasswordStrength("Ab1!xy") == Strong
    ensures PasswordStrength("abcdef") == AddUppercase
  {
    assert IsUpper("Ab1!xy"[0]) && IsLower("Ab1!xy"[1]) && IsDigit("Ab1!xy"[2]) && IsSymbol("Ab1!xy"[3]);
  }

  /** The page's form state. */
  datatype RegisterForm = RegisterForm(
    firstName: string,
    lastName: string,
    email: string,
    password: string,
    confirmPassword: string,
    registerAs: string,
    agencyName: string)

  /** `Object.entries(formData)`, in declaration order. */
  function Entries(f: RegisterForm): seq<(string, string)>
  {
    [("first_name", f.firstName), ("last_name", f.lastName), ("email", f.email),
     ("password", f.password), ("confirm_password", f.confirmPassword),
     ("register_as", f.registerAs), ("agency_name", f.agencyName)]
  }

  const FieldNames: set<string> :=
    {"first_name", "last_name", "email", "password", "confirm_password", "register_as", "agency_name"}

  /** The fields that must be filled in: all but `agency_name`. */
  const RequiredFields: set<string> := FieldNames - {"agency_name"}

  /** `formData[key]`. */
  function Value(f: RegisterForm, key: string): string
    requires key in FieldNames
  {
    if key == "first_name" then f.firstName
    else if key == "last_name" then f.lastName
    else if key == "email" then f.email
    else if key == "password" then f.password
    else if key == "confirm_password" then f.confirmPassword
    else if key == "register_as" then f.registerAs
    else f.agencyName
  }

  lemma EntriesAreFields(f: RegisterForm)
    ensures forall i :: 0 <= i < |Entries(f)| ==>
      Entries(f)[i].0 in FieldNames && Entries(f)[i].1 == Value(f, Entries(f)[i].0)
    ensures forall k :: k in FieldNames ==> exists i :: 0 <= i < |Entries(f)| && Entries(f)[i].0 == k
  {
    var e := Entries(f);
    forall k | k in FieldNames ensures exists i :: 0 <= i < |e| && e[i].0 == k {
      if k == "first_name" { assert e[0].0 == k; }
      else if k == "last_name" { assert e[1].0 == k; }
      else if k == "email" { assert e[2].0 == k; }
      else if k == "password" { assert e[3].0 == k; }
      else if k == "confirm_password" { assert e[4].0 == k; }
      else if k == "register_as" { assert e[5].0 == k; }
      else { assert e[6].0 == k; }
    }
  }

  const RequiredMessage := "This field is required"
  const MismatchMessage := "Passwords do not match"

  predicate Mismatch(f: RegisterForm)
  {
    f.password != f.confirmPassword
  }

  /** The error map `validateForm` should produce: every empty required
      field is required, and `confirm_password` reports a mismatch above
      all. */
  function FormErrors(f: RegisterForm): (errors: map<string, string>)
    ensures errors.Keys <= RequiredFields
    ensures forall k :: k in errors ==> errors[k] in {RequiredMessage, MismatchMessage}
  {
    map k | k in FieldNames && ((k in RequiredFields && Value(f, k) == "") || (k == "confirm_password" && Mismatch(f))) ::
      if k == "confirm_password" && Mismatch(f) then MismatchMessage else RequiredMessage
  }

  /** No errors exactly when every required field is filled in and the
      passwords match; an empty `agency_name` is never an error. */
  lemma FormErrorsEmptyIff(f: RegisterForm)
    ensures FormErrors(f) == map[] <==>
      (forall k :: k in RequiredFields ==> Value(f, k) != "") && !Mismatch(f)
    ensures "agency_name" !in FormErrors(f)
    ensures Mismatch(f) ==> FormErrors(f)["confirm_password"] == MismatchMessage
  {
    if FormErrors(f) == map[] {
      forall k | k in RequiredFields ensures Value(f, k) != "" {
        assert k !in FormErrors(f);
      }
      assert "confirm_password" !in FormErrors(f);
    } else {
      var k :| k in FormErrors(f);
    }
  }

  /** Field by field: an empty required field is reported as required, a
      reported field other than `confirm_password` is empty, and
      `confirm_password` is reported when it is empty or does not match,
      the mismatch taking precedence. */
  lemma FormErrorsByField(f: RegisterForm)
    ensures forall k :: k in RequiredFields && Value(f, k) == "" ==> k in FormErrors(f)
    ensures forall k :: k in FormErrors(f) && k != "confirm_password" ==>
      Value(f, k) == "" && FormErrors(f)[k] == RequiredMessage
    ensures "confirm_password" in FormErrors(f) <==> f.confirmPassword == "" || Mismatch(f)
    ensures "confirm_password" in FormErrors(f) ==>
      FormErrors(f)["confirm_password"] == if Mismatch(f) then MismatchMessage else RequiredMessage
  {
  }

  /** The fields an empty entry among `entries` makes required, as the loop
      of `validateForm` records them. */
  ghost predicate RequiredAmong(entries: seq<(string, string)>, k: string)
  {
    exists j :: 0 <= j < |entries| && entries[j].0 == k && entries[j].1 == "" && k != "agency_name"
  }

  /** One more entry adds at most its own field to the required ones. */
  lemma RequiredAmongSnoc(entries: seq<(string, string)>, e: (string, string), k: string)
    ensures RequiredAmong(entries + [e], k) <==>
      RequiredAmong(entries, k) || (e.0 == k && e.1 == "" && k != "agency_name")
  {
    var es := entries + [e];
    if RequiredAmong(es, k) && !(e.0 == k && e.1 == "" && k != "agency_name") {
      var j :| 0 <= j < |es| && es[j].0 == k && es[j].1 == "" && k != "agency_name";
      assert j < |entries| && es[j] == entries[j];
    }
    if RequiredAmong(entries, k) {
      var j :| 0 <= j < |entries| && entries[j].0 == k && entries[j].1 == "" && k != "agency_name";
      assert es[j] == entries[j];
    }
    if e.0 == k && e.1 == "" && k != "agency_name" {
      assert es[|entries|] == e;
    }
  }

  /** Once every entry has been seen, the required errors and the mismatch
      check make up the specified error map. */
  lemma RequiredErrorsComplete(f: RegisterForm, required: map<string, string>)
    requires forall k :: k in required <==> RequiredAmong(Entries(f), k)
    requires forall k :: k in required ==> required[k] == RequiredMessage
    ensures (if Mismatch(f) then required["confirm_password" := MismatchMessage] else required) == FormErrors(f)
  {
    var entries := Entries(f);
    EntriesAreFields(f);
    var errors := if Mismatch(f) then required["confirm_password" := MismatchMessage] else required;
    forall k ensures k in errors <==> k in FormErrors(f) {
      if k in required {
        var j :| 0 <= j < |entries| && entries[j].0 == k && entries[j].1 == "" && k != "agency_name";
      }
      if k in FormErrors(f) && !(k == "confirm_password" && Mismatch(f)) {
        var j :| 0 <= j < |entries| && entries[j].0 == k;
        assert RequiredAmong(entries, k);
      }
    }
  }

  /** `validateForm`: one pass over the entries, then the mismatch check. */
  method ValidateForm(f: RegisterForm) returns (errors: map<string, string>)
    ensures errors == FormErrors(f)
  {
    var entries := Entries(f);
    errors := map[];
    for i := 0 to |entries|
      invariant forall k :: k in errors <==> RequiredAmong(entries[..i], k)
      invariant forall k :: k in errors ==> errors[k] == RequiredMessage
    {
      var (key, value) := entries[i];
      assert entries[..i + 1] == entries[..i] + [entries[i]];
      forall k {
        RequiredAmongSnoc(entries[..i], entries[i], k);
      }
      if !Truthy(value) && key != "agency_name" {
        errors := errors[key := RequiredMessage];
      }
    }
    assert entries[..|entries|] == entries;
    RequiredErrorsComplete(f, errors);
    if f.password != f.confirmPassword {
      errors := errors["confirm_password" := MismatchMessage];
    }
  }

  /** The body `handleSubmit` posts: every field but `agency_name`, as
      entered. */
  function Payload(f: RegisterForm): (p: map<string, string>)
    ensures p.Keys == RequiredFields
    ensures "agency_name" !in p
    ensures forall k :: k in p ==> p[k] == Value(f, k)
  {
    map k | k in RequiredFields :: Value(f, k)
  }

  /** What `register` throws: a plain `Error` carrying the mapped message;
      it has no `response`. */
  datatype Thrown = Thrown(message: string, response: Option<AuthApi.Body>)

  function ThrownBy(reply: AuthApi.Reply<AuthApi.Body>): (e: Thrown)
    requires reply.Failed?
  {
    Thrown(AuthApi.Register(reply).error, None)
  }

  /** The message shown on failure as written:
      `error?.response?.data?.detail || "Registration failed"`. */
  function FailureMessageAsWritten(e: Thrown): (r: string)
    ensures e.response.None? ==> r == "Registration failed"
    ensures e.response.Some? && AuthApi.HasTruthyDetail(e.response.value) ==>
      r == AuthApi.ValueText(AuthApi.DetailOf(e.response.value).value)
  {
    if e.response.Some? && AuthApi.HasTruthyDetail(e.response.value) then
      AuthApi.ValueText(AuthApi.DetailOf(e.response.value).value)
    else "Registration failed"
  }

  /** The message shown on failure, taken from the error `register` throws:
      never empty, and the thrown message whenever there is one. */
  function FailureMessage(e: Thrown): (r: string)
    ensures r != ""
    ensures e.message != "" ==> r == e.message
  {
    if e.message != "" then e.message else "Registration failed"
  }

  /** As written, every failed registration shows "Registration failed":
      the error `register` throws has no `response`, so the server's
      explanation is dropped. */
  lemma FailureMessageAsWrittenIsConstant(reply: AuthApi.Reply<AuthApi.Body>)
    requires reply.Failed?
    ensures FailureMessageAsWritten(ThrownBy(reply)) == "Registration failed"
  {
  }

  /** Shown from the thrown error, the message is what `handleAuthError`
      made of the failure, e.g. the field errors of a 400. */
  lemma FailureMessageShowsServerError(reply: AuthApi.Reply<AuthApi.Body>)
    requires reply.Failed?
    requires AuthApi.HandleAuthError(reply.error) != ""
    ensures FailureMessage(ThrownBy(reply)) == AuthApi.HandleAuthError(reply.error)
  {
  }

  datatype SubmitResult = Invalid(errors: map<string, string>) | Registered | RegistrationFailed(message: string)

  /** `handleSubmit`: an invalid form is reported and nothing is sent;
      otherwise the payload is posted and the reply decides. `sent` is the
      body posted, if any. As written, a failure always shows "Registration
      failed". */
  method HandleSubmit(f: RegisterForm, reply: AuthApi.Reply<AuthApi.Body>)
    returns (result: SubmitResult, sent: Option<map<string, string>>)
    ensures FormErrors(f) != map[] ==> result == Invalid(FormErrors(f)) && sent.None?
    ensures FormErrors(f) == map[] ==> sent == Some(Payload(f))
    ensures FormErrors(f) == map[] && reply.Succeeded? ==> result == Registered
    ensures FormErrors(f) == map[] && reply.Failed? ==>
      result == RegistrationFailed(FailureMessageAsWritten(ThrownBy(reply)))
    ensures FormErrors(f) == map[] && reply.Failed? ==> result == RegistrationFailed("Registration failed")
    ensures sent.Some? ==> "agency_name" !in sent.value
  {
    var errors := ValidateForm(f);
    if |errors| > 0 {
      return Invalid(errors), None;
    }
    assert errors == map[];
    var payload := Payload(f);
    sent := Some(payload);
    match AuthApi.Register(reply)
    case Ok(_) =>
      result := Registered;
    case Err(message) =>
      result := RegistrationFailed(FailureMessageAsWritten(Thrown(message, None)));
  }
}
