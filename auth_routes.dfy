/**
 * backend/routes/auth.js: the registration and login chains as field
 * predicates (with the trimming the name and country chains do), and which
 * authentication routes sit behind `protect`. Each field arrives as the text
 * express-validator sees (a JSON number as its decimal text, a missing field
 * as the empty text).
 */
module AuthRoutes {
  import opened Text
  import opened Numeric
  import opened Types
  import opened Routing
  import CurrencyRoutes

  type FieldResult = CurrencyRoutes.FieldResult

  /** `trim().isLength({ min: 2, max: 50 })`: the verdict is on the trimmed text, which replaces the field. */
  function NameChain(raw: string): (r: FieldResult)
    ensures r.value == Trim(raw)
    ensures r.valid <==> 2 <= ValidatorLength(Trim(raw)) <= 50
    ensures r.value == [] || (!IsSpace(r.value[0]) && !IsSpace(r.value[|r.value| - 1]))
    ensures r.valid ==> 2 <= ValidatorLength(r.value) <= 50 && 2 <= |r.value| <= |raw|
  {
    var trimmed := Trim(raw);
    CurrencyRoutes.FieldResult(2 <= ValidatorLength(trimmed) <= 50, trimmed)
  }

  /** `trim().isLength({ min: 2, max: 100 })` on the country. */
  function CountryChain(raw: string): (r: FieldResult)
    ensures r.value == Trim(raw)
    ensures r.valid <==> 2 <= ValidatorLength(Trim(raw)) <= 100
    ensures r.value == [] || (!IsSpace(r.value[0]) && !IsSpace(r.value[|r.value| - 1]))
    ensures r.valid ==> 2 <= ValidatorLength(r.value) <= 100 && 2 <= |r.value| <= |raw|
  {
    var trimmed := Trim(raw);
    CurrencyRoutes.FieldResult(2 <= ValidatorLength(trimmed) <= 100, trimmed)
  }

  /** Trimming chains are idempotent: a second pass keeps the value and the verdict. */
  lemma TrimChainsIdempotent(raw: string)
    ensures NameChain(NameChain(raw).value) == NameChain(raw)
    ensures CountryChain(CountryChain(raw).value) == CountryChain(raw)
  {
    var trimmed := Trim(raw);
    assert Trim(trimmed) == trimmed by {
      TrimIdempotent(raw);
    }
    assert NameChain(trimmed) == NameChain(raw);
    assert CountryChain(trimmed) == CountryChain(raw);
  }

  /** `isLength({ min: 6 })` on the registration password. */
  function PasswordChain(raw: string): (ok: bool)
    ensures ok <==> ValidatorLength(raw) >= 6
    ensures ok ==> |raw| >= 6
  {
    ValidatorLength(raw) >= 6
  }

  /** `notEmpty()` on the login password. */
  function LoginPasswordChain(raw: string): (ok: bool)
    ensures ok <==> |raw| > 0
  {
    raw != ""
  }

  /** Every password registration accepts is also accepted at login, and not the other way round. */
  lemma RegisterPasswordSuffices(raw: string)
    ensures PasswordChain(raw) ==> LoginPasswordChain(raw)
    ensures LoginPasswordChain("a") && !PasswordChain("a")
  {
  }

  /** `isInt({ min: 13, max: 120 })` on the age text. */
  function AgeChain(raw: string): (ok: bool)
    ensures ok <==> IntTextValue(raw).Some? && 13 <= IntTextValue(raw).value <= 120
  {
    match IntTextValue(raw)
    case Some(n) => 13 <= n <= 120
    case None => false
  }

  /** A numeric age sent as JSON passes the chain exactly when it lies in 13..120. */
  lemma AgeChainOnNumber(n: int)
    ensures AgeChain(IntToString(n)) <==> 13 <= n <= 120
  {
    IntTextRoundTrip(n);
  }

  /** `isIn([...])` on the gender. */
  function GenderChain(raw: string): (ok: bool)
    ensures ok <==> raw in GenderValues
  {
    IsGender(raw)
  }

  /** The registration body as the chains see it. */
  datatype RegisterBody = RegisterBody(name: string, email: string, password: string, age: string, gender: string, country: string)

  /** A failing check's entry in the error list. */
  function Report(ok: bool, field: string, message: string): (r: seq<FieldMessage>)
    ensures r == [] <==> ok
  {
    if ok then [] else [FieldMessage(field, message)]
  }

  const NameMessage := "Name must be between 2 and 50 characters"
  const PasswordMessage := "Password must be at least 6 characters long"
  const AgeMessage := "Age must be between 13 and 120"
  const GenderMessage := "Please select a valid gender option"
  const CountryMessage := "Country must be between 2 and 100 characters"

  /** The error list from the five verdicts, in chain order. */
  function ErrorList(name: bool, password: bool, age: bool, gender: bool, country: bool): (errs: seq<FieldMessage>)
    ensures errs == [] <==> name && password && age && gender && country
    ensures FieldMessage("name", NameMessage) in errs <==> !name
    ensures FieldMessage("password", PasswordMessage) in errs <==> !password
    ensures FieldMessage("age", AgeMessage) in errs <==> !age
    ensures FieldMessage("gender", GenderMessage) in errs <==> !gender
    ensures FieldMessage("country", CountryMessage) in errs <==> !country
  {
    Report(name, "name", NameMessage)
    + Report(password, "password", PasswordMessage)
    + Report(age, "age", AgeMessage)
    + Report(gender, "gender", GenderMessage)
    + Report(country, "country", CountryMessage)
  }

  /**
   * The messages of the registration chains that fail, in chain order, one
   * per field (the email chain's library check is not modelled): the list is
   * empty exactly when every chain passes, and holds a field's message
   * exactly when that field's chain fails.
   */
  function RegisterErrors(b: RegisterBody): (errs: seq<FieldMessage>)
    ensures errs == [] <==>
      NameChain(b.name).valid && PasswordChain(b.password) && AgeChain(b.age) &&
      GenderChain(b.gender) && CountryChain(b.country).valid
    ensures FieldMessage("age", AgeMessage) in errs <==> !AgeChain(b.age)
    ensures FieldMessage("password", PasswordMessage) in errs <==> !PasswordChain(b.password)
  {
    ErrorList(NameChain(b.name).valid, PasswordChain(b.password), AgeChain(b.age), GenderChain(b.gender), CountryChain(b.country).valid)
  }

  /** The four authentication routes, each with its middleware in registration order. */
  const Routes: seq<Route> := [
    Route(Post, "/register", [Validate("registerValidation"), Handle("register")]),
    Route(Post, "/login", [Validate("loginValidation"), Handle("login")]),
    Route(Get, "/me", [Protect, Handle("getMe")]),
    Route(Post, "/logout", [Protect, Handle("logout")])
  ]

  /**
   * Registration and login are reachable without a credential; `/me` and
   * `/logout` turn away every request without one.
   */
  lemma AuthRoutesGate()
    ensures forall r :: r in Routes && (r.path == "/register" || r.path == "/login") ==>
      Open(r) && Run(r.stages, false).Reached?
    ensures forall r :: r in Routes && (r.path == "/me" || r.path == "/logout") ==>
      Protected(r) && Run(r.stages, false) == Unauthorized && Run(r.stages, true).Reached?
  {
    forall r | r in Routes && (r.path == "/register" || r.path == "/login")
      ensures Open(r) && Run(r.stages, false).Reached?
    {
      OpenRouteReached(r, false);
    }
    forall r | r in Routes && (r.path == "/me" || r.path == "/logout")
      ensures Protected(r) && Run(r.stages, false) == Unauthorized && Run(r.stages, true).Reached?
    {
      ProtectedRouteGate(r);
    }
  }
}
