/**
 * frontend/src/components/Auth/Register.tsx: the registration form's state
 * (`formData` and the `errors` dictionary), its change handler, its client
 * validation and the mapping of the server's answer onto the errors.
 */
module RegisterForm {
  import opened Wrappers
  import opened Text
  import opened Numeric
  import opened Types
  import AuthRoutes
  import UserSchema

  /** The names of the form's inputs. */
  const Fields: seq<string> := ["name", "email", "password", "age", "gender", "country"]

  /** `parseInt(value) || 0`: the integer the text starts with, or 0 for NaN. */
  function AgeFromInput(value: string): int {
    match ParseIntPrefix(value)
    case Some(n) => n
    case None => 0
  }

  /** Typing a number into the age input stores that number. */
  lemma AgeFromInputNumber(n: int)
    ensures AgeFromInput(IntToString(n)) == n
  {
    ParseIntRoundTrip(n);
  }

  /** A text with no leading digit stores 0. */
  lemma AgeFromInputNonNumeric(value: string)
    requires value != [] && !IsDigit(value[0]) && !IsSpace(value[0]) && value[0] != '-' && value[0] != '+'
    ensures AgeFromInput(value) == 0
  {
    assert TrimStart(value) == value;
  }

  /**
   * The unanchored pattern `\S+@\S+\.\S+`: some '@' with a non-space before
   * it, then a '.' with at least one non-space between them, all of it
   * non-space, and a non-space after the '.'.
   */
  predicate EmailLike(s: string) {
    exists at, dot :: 0 < at && at + 1 < dot && dot + 1 < |s| && EmailMatchAt(s, at, dot)
  }

  predicate EmailMatchAt(s: string, at: int, dot: int)
    requires 0 < at && at + 1 < dot && dot + 1 < |s|
  {
    && s[at] == '@' && s[dot] == '.'
    && !IsSpace(s[at - 1]) && !IsSpace(s[dot + 1])
    && forall k :: at < k < dot ==> !IsSpace(s[k])
  }

  /** The name check: "required" when nothing but white space, then at least 2 UTF-16 units once trimmed. */
  function NameError(name: string): (e: Option<string>)
    ensures e.None? <==> Utf16Length(Trim(name)) >= 2
    ensures Trim(name) == "" ==> e == Some("Name is required")
  {
    if Trim(name) == "" then Some("Name is required")
    else if Utf16Length(Trim(name)) < 2 then Some("Name must be at least 2 characters")
    else None
  }

  /** The email check: "required" when empty, then the pattern. */
  function EmailError(email: string): (e: Option<string>)
    ensures e.None? <==> EmailLike(email)
    ensures email == "" ==> e == Some("Email is required")
  {
    if email == "" then Some("Email is required")
    else if !EmailLike(email) then Some("Please enter a valid email address")
    else None
  }

  /** The password check: "required" when empty, then at least 6 UTF-16 units. */
  function PasswordError(password: string): (e: Option<string>)
    ensures e.None? <==> Utf16Length(password) >= 6
    ensures password == "" ==> e == Some("Password is required")
  {
    if password == "" then Some("Password is required")
    else if Utf16Length(password) < 6 then Some("Password must be at least 6 characters")
    else None
  }

  /** The age check: 0 or under 13, then over 120. */
  function AgeError(age: int): (e: Option<string>)
    ensures e.None? <==> 13 <= age <= 120
    ensures age < 13 ==> e == Some("You must be at least 13 years old")
  {
    if age == 0 || age < 13 then Some("You must be at least 13 years old")
    else if age > 120 then Some("Please enter a valid age")
    else None
  }

  /** The country check: not empty once trimmed. */
  function CountryError(country: string): (e: Option<string>)
    ensures e.None? <==> Trim(country) != ""
  {
    if Trim(country) == "" then Some("Country is required") else None
  }

  /** `if (error) newErrors[key] = error`: records a field's message when it has one. */
  function Record(errs: map<string, string>, key: string, e: Option<string>): map<string, string> {
    if e.Some? then errs[key := e.value] else errs
  }

  /** The dictionary built from the five field checks, in the form's order. */
  function ErrorsOf(name: Option<string>, email: Option<string>, password: Option<string>,
                    age: Option<string>, country: Option<string>): (errs: map<string, string>)
    ensures errs.Keys <= {"name", "email", "password", "age", "country"}
    ensures "name" in errs <==> name.Some?
    ensures "email" in errs <==> email.Some?
    ensures "password" in errs <==> password.Some?
    ensures "age" in errs <==> age.Some?
    ensures "country" in errs <==> country.Some?
    ensures name.Some? ==> errs["name"] == name.value
    ensures email.Some? ==> errs["email"] == email.value
    ensures password.Some? ==> errs["password"] == password.value
    ensures age.Some? ==> errs["age"] == age.value
    ensures country.Some? ==> errs["country"] == country.value
  {
    var m0: map<string, string> := map[];
    var m1 := Record(m0, "name", name);
    var m2 := Record(m1, "email", email);
    var m3 := Record(m2, "password", password);
    var m4 := Record(m3, "age", age);
    Record(m4, "country", country)
  }

  /**
   * The errors validateForm records for the given form data, one message at
   * most per field; the gender has no check.
   */
  function FormErrors(d: RegisterData): (errs: map<string, string>)
    ensures errs.Keys <= {"name", "email", "password", "age", "country"}
    ensures "name" in errs <==> NameError(d.name).Some?
    ensures "email" in errs <==> EmailError(d.email).Some?
    ensures "password" in errs <==> PasswordError(d.password).Some?
    ensures "age" in errs <==> AgeError(d.age).Some?
    ensures "country" in errs <==> CountryError(d.country).Some?
    ensures "name" in errs ==> errs["name"] == NameError(d.name).value
    ensures "email" in errs ==> errs["email"] == EmailError(d.email).value
    ensures "password" in errs ==> errs["password"] == PasswordError(d.password).value
    ensures "age" in errs ==> errs["age"] == AgeError(d.age).value
    ensures "country" in errs ==> errs["country"] == CountryError(d.country).value
  {
    ErrorsOf(NameError(d.name), EmailError(d.email), PasswordError(d.password), AgeError(d.age), CountryError(d.country))
  }

  /** The client-side acceptance rule, stated field by field. */
  predicate ClientValid(d: RegisterData) {
    && Utf16Length(Trim(d.name)) >= 2
    && EmailLike(d.email)
    && Utf16Length(d.password) >= 6
    && 13 <= d.age <= 120
    && Trim(d.country) != ""
  }

  /** validateForm answers true exactly when every field passes. */
  lemma FormAcceptedIff(d: RegisterData)
    ensures FormErrors(d) == map[] <==> ClientValid(d)
  {
    var errs := FormErrors(d);
    if ClientValid(d) {
      assert errs.Keys == {};
    } else if Utf16Length(Trim(d.name)) < 2 {
      assert "name" in errs;
    } else if !EmailLike(d.email) {
      assert "email" in errs;
    } else if Utf16Length(d.password) < 6 {
      assert "password" in errs;
    } else if Trim(d.country) == "" {
      assert "country" in errs;
    } else {
      assert "age" in errs;
    }
  }

  /** The gender is never checked: changing it changes no error. */
  lemma GenderUnchecked(d: RegisterData, gender: string)
    ensures FormErrors(d.(gender := gender)) == FormErrors(d)
  {
  }

  /**
   * What the client accepts, the server's schema accepts too for the password
   * and the age (both measure UTF-16 units and the same bounds); the route's
   * age chain accepts the number as JSON sends it.
   */
  lemma ClientAgreesWithSchema(d: RegisterData)
    requires ClientValid(d)
    ensures UserSchema.PasswordError(Some(d.password)).None?
    ensures UserSchema.AgeError(Some(d.age as real)).None?
    ensures AuthRoutes.AgeChain(IntToString(d.age))
  {
    AuthRoutes.AgeChainOnNumber(d.age);
  }

  /**
   * The route's password chain counts code points, the form counts UTF-16
   * units: three astral characters pass the form and fail the chain.
   */
  lemma PasswordLengthsDisagree()
    ensures Utf16Length("\U{1F600}\U{1F600}\U{1F600}") == 6
    ensures !AuthRoutes.PasswordChain("\U{1F600}\U{1F600}\U{1F600}")
  {
    var s := "\U{1F600}\U{1F600}\U{1F600}";
    assert s[..2] == "\U{1F600}\U{1F600}" && s[..2][..1] == "\U{1F600}" && s[..2][..1][..0] == "";
  }

  /** The server's field errors as a dictionary: later entries for a field overwrite earlier ones. */
  function ServerErrorMap(list: seq<FieldMessage>): map<string, string> {
    if list == [] then map[] else ServerErrorMap(list[..|list| - 1])[list[|list| - 1].field := list[|list| - 1].message]
  }

  /** The dictionary has one key per field named in the list. */
  lemma {:induction false} ServerErrorMapKeys(list: seq<FieldMessage>)
    ensures ServerErrorMap(list).Keys == set e | e in list :: e.field
  {
    if list != [] {
      var init := list[..|list| - 1];
      ServerErrorMapKeys(init);
      assert forall e :: e in list <==> e in init || e == list[|list| - 1];
    }
  }

  /** Each field holds the last message the list gives for it. */
  lemma {:induction false} ServerErrorMapLastWins(list: seq<FieldMessage>)
    ensures forall i :: 0 <= i < |list| && (forall j :: i < j < |list| ==> list[j].field != list[i].field) ==>
      list[i].field in ServerErrorMap(list) && ServerErrorMap(list)[list[i].field] == list[i].message
  {
    if list != [] {
      var init := list[..|list| - 1];
      var last := list[|list| - 1];
      ServerErrorMapLastWins(init);
      assert ServerErrorMap(list) == ServerErrorMap(init)[last.field := last.message];
      forall i | 0 <= i < |list| - 1 && (forall j :: i < j < |list| ==> list[j].field != list[i].field)
        ensures list[i].field in ServerErrorMap(list) && ServerErrorMap(list)[list[i].field] == list[i].message
      {
        assert init[i] == list[i];
        assert last.field != list[i].field;
        assert forall j :: i < j < |init| ==> init[j].field != init[i].field by {
          forall j | i < j < |init| ensures init[j].field != init[i].field {
            assert init[j] == list[j];
          }
        }
      }
    }
  }

  /** `response.errors.forEach(error => errorObj[error.field] = error.message)`. */
  method ErrorsFromServer(list: seq<FieldMessage>) returns (errorObj: map<string, string>)
    ensures errorObj == ServerErrorMap(list)
  {
    errorObj := map[];
    var i := 0;
    while i < |list|
      invariant 0 <= i <= |list|
      invariant errorObj == ServerErrorMap(list[..i])
    {
      assert list[..i + 1][..i] == list[..i];
      errorObj := errorObj[list[i].field := list[i].message];
      i := i + 1;
    }
    assert list[..|list|] == list;
  }

  /** What `register(formData)` gave: a response, or an exception. */
  datatype SubmitOutcome = Responded(response: AuthResponse) | Threw

  /** `response.message || 'Registration failed'`. */
  function FailureMessage(message: Option<string>): (m: string)
    ensures m != ""
    ensures message.Some? && message.value != "" ==> m == message.value
  {
    if message.Some? && message.value != "" then message.value else "Registration failed"
  }

  class Form {
    var formData: RegisterData
    var errors: map<string, string>

    /** The initial state: empty texts, age 18, gender "prefer-not-to-say", no errors. */
    constructor ()
      ensures formData == RegisterData("", "", "", 18, "prefer-not-to-say", "")
      ensures errors == map[]
    {
      formData := RegisterData("", "", "", 18, "prefer-not-to-say", "");
      errors := map[];
    }

    /**
     * handleChange: only the named field changes (the age input is parsed,
     * non-numeric text giving 0), and only that field's error, and only when
     * one is showing, is blanked.
     */
    method HandleChange(field: string, value: string)
      requires field in Fields
      modifies this
      ensures field == "name" ==> formData == old(formData).(name := value)
      ensures field == "email" ==> formData == old(formData).(email := value)
      ensures field == "password" ==> formData == old(formData).(password := value)
      ensures field == "age" ==> formData == old(formData).(age := AgeFromInput(value))
      ensures field == "gender" ==> formData == old(formData).(gender := value)
      ensures field == "country" ==> formData == old(formData).(country := value)
      ensures errors == if field in old(errors) && old(errors)[field] != "" then old(errors)[field := ""] else old(errors)
      ensures errors.Keys == old(errors).Keys
    {
      if field == "name" {
        formData := formData.(name := value);
      } else if field == "email" {
        formData := formData.(email := value);
      } else if field == "password" {
        formData := formData.(password := value);
      } else if field == "age" {
        formData := formData.(age := AgeFromInput(value));
      } else if field == "gender" {
        formData := formData.(gender := value);
      } else {
        formData := formData.(country := value);
      }
      if field in errors && errors[field] != "" {
        errors := errors[field := ""];
      }
    }

    /** validateForm: replaces the errors with this data's errors and answers whether there are none. */
    method ValidateForm() returns (ok: bool)
      modifies this
      ensures formData == old(formData)
      ensures errors == FormErrors(formData)
      ensures ok <==> ClientValid(formData)
    {
      var d := formData;
      var newErrors: map<string, string> := map[];
      newErrors := Record(newErrors, "name", NameError(d.name));
      newErrors := Record(newErrors, "email", EmailError(d.email));
      newErrors := Record(newErrors, "password", PasswordError(d.password));
      newErrors := Record(newErrors, "age", AgeError(d.age));
      newErrors := Record(newErrors, "country", CountryError(d.country));
      errors := newErrors;
      assert errors == FormErrors(d);
      FormAcceptedIff(d);
      ok := |newErrors| == 0;
    }

    /**
     * handleSubmit: nothing is sent unless the form validates. A failed answer
     * with a field list shows exactly those fields' messages; one without a
     * list shows a general message; an exception shows the generic one. A
     * successful answer leaves the (empty) errors as they are.
     */
    method HandleSubmit(outcome: SubmitOutcome) returns (sent: bool)
      modifies this
      ensures formData == old(formData)
      ensures sent <==> ClientValid(formData)
      ensures !sent ==> errors == FormErrors(formData)
      ensures sent ==> match outcome
        case Threw => errors == map["general" := "An unexpected error occurred. Please try again."]
        case Responded(r) =>
          if r.success then errors == map[]
          else if r.errors.Some? then errors == ServerErrorMap(r.errors.value)
          else errors == map["general" := FailureMessage(r.message)]
    {
      var ok := ValidateForm();
      if !ok {
        return false;
      }
      FormAcceptedIff(formData);
      sent := true;
      match outcome {
        case Threw =>
          errors := map["general" := "An unexpected error occurred. Please try again."];
        case Responded(r) =>
          if !r.success {
            if r.errors.Some? {
              errors := ErrorsFromServer(r.errors.value);
            } else {
              errors := map["general" := FailureMessage(r.message)];
            }
          }
      }
    }
  }
}
