/**
 * backend/models/User.js: the field constraints of the user schema. A
 * document is cast first (the `trim` and `lowercase` setters), then every
 * path is validated; a path reports only its first failing validator, with
 * the message the schema gives it; a valid document is stored with its
 * defaults filled in.
 */
module UserSchema {
  import opened Wrappers
  import opened Text
  import opened Types

  /** The fields a new user document is given; any may be missing. */
  datatype UserInput = UserInput(
    name: Option<string>,
    email: Option<string>,
    password: Option<string>,
    age: Option<real>,
    gender: Option<string>,
    country: Option<string>)

  /** A stored user document, defaults included. */
  datatype UserDoc = UserDoc(
    name: string,
    email: string,
    password: string,
    age: real,
    gender: string,
    country: string,
    createdAt: int,
    lastLogin: int,
    isActive: bool)

  function MapText(v: Option<string>, trim: bool): (r: Option<string>)
    ensures r.Some? <==> v.Some?
    ensures r.Some? ==> r.value == if trim then Trim(v.value) else ToLower(v.value)
  {
    match v
    case None => None
    case Some(s) => Some(if trim then Trim(s) else ToLower(s))
  }

  /** The setters: `trim` on name and country, `lowercase` on email; other fields are kept as given. */
  function Cast(input: UserInput): (c: UserInput)
    ensures c.name.Some? ==> c.name.value == [] || (!IsSpace(c.name.value[0]) && !IsSpace(c.name.value[|c.name.value| - 1]))
    ensures c.email.Some? ==> forall i :: 0 <= i < |c.email.value| ==> !IsUpper(c.email.value[i])
    ensures c.name.Some? <==> input.name.Some?
    ensures c.name.Some? ==> c.name.value == Trim(input.name.value)
    ensures c.country.Some? <==> input.country.Some?
    ensures c.country.Some? ==> c.country.value == Trim(input.country.value)
    ensures c.email.Some? <==> input.email.Some?
    ensures c.email.Some? ==> c.email.value == ToLower(input.email.value)
    ensures c.password == input.password && c.age == input.age && c.gender == input.gender
  {
    var name, email, country := MapText(input.name, true), MapText(input.email, false), MapText(input.country, true);
    input.(name := name, email := email, country := country)
  }

  /** Casting a cast document changes nothing. */
  lemma CastIdempotent(input: UserInput)
    ensures Cast(Cast(input)) == Cast(input)
  {
    if input.name.Some? { TrimIdempotent(input.name.value); }
    if input.country.Some? { TrimIdempotent(input.country.value); }
    if input.email.Some? { ToLowerIdempotent(input.email.value); }
  }

  /** `required` on a string path: present and not empty. */
  predicate Present(v: Option<string>) {
    v.Some? && v.value != ""
  }

  /** name: required, then `maxlength` 50. */
  function NameError(v: Option<string>): (e: Option<string>)
    ensures e.None? <==> Present(v) && Utf16Length(v.value) <= 50
  {
    if !Present(v) then Some("Please provide a name")
    else if Utf16Length(v.value) > 50 then Some("Name cannot be more than 50 characters")
    else None
  }

  /** email: required (the pattern and uniqueness are not modelled). */
  function EmailError(v: Option<string>): (e: Option<string>)
    ensures e.None? <==> Present(v)
  {
    if !Present(v) then Some("Please provide an email") else None
  }

  /** password: required, then `minlength` 6. */
  function PasswordError(v: Option<string>): (e: Option<string>)
    ensures e.None? <==> Present(v) && Utf16Length(v.value) >= 6
  {
    if !Present(v) then Some("Please provide a password")
    else if Utf16Length(v.value) < 6 then Some("Password must be at least 6 characters")
    else None
  }

  /** age: required, then `min` 13 and `max` 120. */
  function AgeError(v: Option<real>): (e: Option<string>)
    ensures e.None? <==> v.Some? && 13.0 <= v.value <= 120.0
  {
    if v.None? then Some("Please provide your age")
    else if v.value < 13.0 then Some("You must be at least 13 years old")
    else if v.value > 120.0 then Some("Please provide a valid age")
    else None
  }

  /** gender: required, then the enum. */
  function GenderError(v: Option<string>): (e: Option<string>)
    ensures e.None? <==> Present(v) && IsGender(v.value)
  {
    if !Present(v) then Some("Please select your gender")
    else if !IsGender(v.value) then Some("Gender must be either male, female, other, or prefer-not-to-say")
    else None
  }

  /** country: required, then `maxlength` 100. */
  function CountryError(v: Option<string>): (e: Option<string>)
    ensures e.None? <==> Present(v) && Utf16Length(v.value) <= 100
  {
    if !Present(v) then Some("Please provide your country")
    else if Utf16Length(v.value) > 100 then Some("Country name cannot be more than 100 characters")
    else None
  }

  /** The errors of the paths that have one, in path order. */
  function Collect(checks: seq<(string, Option<string>)>): (errs: seq<FieldMessage>)
    ensures errs == [] <==> forall i :: 0 <= i < |checks| ==> checks[i].1.None?
    ensures forall i :: 0 <= i < |checks| && checks[i].1.Some? ==> FieldMessage(checks[i].0, checks[i].1.value) in errs
    ensures forall e :: e in errs ==> exists i :: 0 <= i < |checks| && checks[i].0 == e.field && checks[i].1 == Some(e.message)
  {
    if checks == [] then []
    else
      var rest := Collect(checks[1..]);
      assert forall i :: 1 <= i < |checks| ==> checks[i] == checks[1..][i - 1];
      match checks[0].1
      case Some(m) => [FieldMessage(checks[0].0, m)] + rest
      case None => rest
  }

  /** The schema's validated paths, in declaration order. */
  const Paths: seq<string> := ["name", "email", "password", "age", "gender", "country"]

  /** Every path with the result of its validators, in schema order. */
  function Checks(c: UserInput): seq<(string, Option<string>)> {
    [ ("name", NameError(c.name)), ("email", EmailError(c.email)), ("password", PasswordError(c.password)),
      ("age", AgeError(c.age)), ("gender", GenderError(c.gender)), ("country", CountryError(c.country)) ]
  }

  /**
   * The validation errors: none exactly when every path passes, and a path's
   * first failure is listed whenever it has one.
   */
  function PathErrors(c: UserInput): (errs: seq<FieldMessage>)
    ensures errs == [] <==>
      && NameError(c.name).None? && EmailError(c.email).None? && PasswordError(c.password).None?
      && AgeError(c.age).None? && GenderError(c.gender).None? && CountryError(c.country).None?
  {
    var checks := Checks(c);
    assert (forall i :: 0 <= i < |checks| ==> checks[i].1.None?) <==>
      checks[0].1.None? && checks[1].1.None? && checks[2].1.None? &&
      checks[3].1.None? && checks[4].1.None? && checks[5].1.None?;
    Collect(checks)
  }

  /** Each failing path is listed with its first failure's message, and only schema paths are listed. */
  lemma FailingPathsReported(c: UserInput)
    ensures NameError(c.name).Some? ==> FieldMessage("name", NameError(c.name).value) in PathErrors(c)
    ensures EmailError(c.email).Some? ==> FieldMessage("email", EmailError(c.email).value) in PathErrors(c)
    ensures PasswordError(c.password).Some? ==> FieldMessage("password", PasswordError(c.password).value) in PathErrors(c)
    ensures AgeError(c.age).Some? ==> FieldMessage("age", AgeError(c.age).value) in PathErrors(c)
    ensures GenderError(c.gender).Some? ==> FieldMessage("gender", GenderError(c.gender).value) in PathErrors(c)
    ensures CountryError(c.country).Some? ==> FieldMessage("country", CountryError(c.country).value) in PathErrors(c)
    ensures forall e :: e in PathErrors(c) ==> e.field in Paths
  {
    var checks := Checks(c);
    assert PathErrors(c) == Collect(checks);
    assert forall i :: 0 <= i < |checks| ==> checks[i].0 == Paths[i];
    assert checks[0] == ("name", NameError(c.name)) && checks[1] == ("email", EmailError(c.email));
    assert checks[2] == ("password", PasswordError(c.password)) && checks[3] == ("age", AgeError(c.age));
    assert checks[4] == ("gender", GenderError(c.gender)) && checks[5] == ("country", CountryError(c.country));
  }

  /** What every stored document satisfies. */
  predicate Conforms(d: UserDoc) {
    && d.name != [] && Trim(d.name) == d.name && Utf16Length(d.name) <= 50
    && d.email != [] && ToLower(d.email) == d.email
    && Utf16Length(d.password) >= 6
    && 13.0 <= d.age <= 120.0
    && IsGender(d.gender)
    && d.country != [] && Trim(d.country) == d.country && Utf16Length(d.country) <= 100
  }

  /**
   * Creating a user: cast, validate, and on success store the cast values
   * with `createdAt` and `lastLogin` at the current time and `isActive` true.
   */
  function Create(input: UserInput, now: int): (r: Result<UserDoc, seq<FieldMessage>>)
    ensures r.Success? <==> PathErrors(Cast(input)) == []
    ensures r.Success? ==> Conforms(r.value)
    ensures r.Success? ==> r.value.createdAt == now && r.value.lastLogin == now && r.value.isActive
    ensures r.Success? ==> AsInput(r.value) == Cast(input)
    ensures r.Failure? ==> r.error == PathErrors(Cast(input)) && r.error != []
  {
    var c := Cast(input);
    var errs := PathErrors(c);
    if errs == [] then
      TrimIdempotent(input.name.value);
      TrimIdempotent(input.country.value);
      ToLowerIdempotent(input.email.value);
      Success(UserDoc(c.name.value, c.email.value, c.password.value, c.age.value, c.gender.value, c.country.value, now, now, true))
    else
      Failure(errs)
  }

  /** A stored document, given back as input. */
  function AsInput(d: UserDoc): UserInput {
    UserInput(Some(d.name), Some(d.email), Some(d.password), Some(d.age), Some(d.gender), Some(d.country))
  }

  /** Saving a stored document again passes validation and keeps every field. */
  lemma StoredDocRevalidates(d: UserDoc, now: int)
    requires Conforms(d)
    ensures Create(AsInput(d), now) == Success(d.(createdAt := now, lastLogin := now, isActive := true))
  {
    assert Cast(AsInput(d)) == AsInput(d);
  }

  /** Surrounding white space never makes a name invalid; it is removed before the length is checked. */
  lemma PaddedNameAccepted(d: UserDoc, now: int)
    requires Conforms(d)
    ensures Create(AsInput(d).(name := Some(" " + d.name + " ")), now).Success?
    ensures Create(AsInput(d).(name := Some(" " + d.name + " ")), now).value.name == d.name
  {
    var padded := " " + d.name + " ";
    assert TrimStart(padded) == d.name + " " by {
      assert padded[1..] == d.name + " ";
      assert !IsSpace(d.name[0]);
    }
    assert Trim(padded) == d.name by {
      assert (d.name + " ")[..|d.name|] == d.name;
    }
    assert Cast(AsInput(d).(name := Some(padded))) == AsInput(d);
  }
}
