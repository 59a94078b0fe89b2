/**
 * backend/routes/currency.js: the express-validator chains for currency
 * codes, the amount and the `days` query, and the order of the middleware on
 * each currency route. A chain is modelled as its verdict together with the
 * value its sanitiser leaves in the request; express-validator reads a
 * missing field as the empty text.
 */
module CurrencyRoutes {
  import opened Wrappers
  import opened Text
  import opened Numeric
  import opened Catalogue
  import opened Routing
  import CurrencyController

  /** A chain's verdict on one field and the value it leaves in the request. */
  datatype FieldResult = FieldResult(valid: bool, value: string)

  /**
   * `isLength({ min: 3, max: 3 }).isAlpha().toUpperCase()`: the verdict is
   * taken on the raw text, and the upper-casing applies whatever the verdict.
   * It passes exactly when what it leaves behind is a catalogue-shaped code.
   */
  function CodeChain(raw: string): (r: FieldResult)
    ensures r.value == ToUpper(raw)
    ensures r.valid <==> |raw| == 3 && AllAlpha(raw)
    ensures r.valid <==> IsCurrencyCode(r.value)
    ensures |r.value| == |raw|
    ensures forall i :: 0 <= i < |raw| ==> (IsAlpha(raw[i]) <==> IsAlpha(r.value[i]))
  {
    var upper := ToUpper(raw);
    assert forall i :: 0 <= i < |raw| ==> (IsAlpha(raw[i]) <==> IsAlpha(upper[i]));
    assert IsCurrencyCode(upper) ==> AllAlpha(raw);
    FieldResult(|raw| == 3 && AllAlpha(raw), upper)
  }

  /** Running a code chain on the value it produced changes neither the value nor the verdict. */
  lemma CodeChainIdempotent(raw: string)
    ensures CodeChain(CodeChain(raw).value) == CodeChain(raw)
  {
    ToUpperIdempotent(raw);
  }

  /** Every code of the catalogue passes the chain unchanged. */
  lemma CatalogueCodesPass()
    ensures forall code :: code in Supported() ==> CodeChain(code) == FieldResult(true, code)
  {
    var r := GetSupportedCurrencies();
    forall code | code in Supported()
      ensures CodeChain(code) == FieldResult(true, code)
    {
      assert IsCurrencyCode(code);
      assert ToUpper(code) == code;
    }
  }

  /**
   * `isFloat({ min: 0.01 })` on the amount's text: an optional sign and a
   * decimal text worth at least 0.01.
   */
  function AmountChain(raw: string): (ok: bool)
    ensures ok <==> SignedDecimal(raw).Some? && SignedDecimal(raw).value >= 0.01
    ensures ok ==> raw != [] && raw[0] != '-'
    ensures ok ==> SignedDecimal(raw).Some?
  {
    match SignedDecimal(raw)
    case Some(v) => v >= 0.01
    case None => false
  }

  /** An amount the chain accepts also passes the controller's own amount checks. */
  lemma AmountChainStricterThanController(raw: string, from: string, to: string)
    requires AmountChain(raw) && from != "" && to != ""
    ensures CurrencyController.CheckRequest(CurrencyController.Text(raw), Some(from), Some(to)) == Success(SignedDecimal(raw).value)
  {
  }

  /** The controller accepts amounts below 0.01 that the chain rejects. */
  lemma AmountBelowMinimumReachesController()
    ensures !AmountChain("0.005")
    ensures CurrencyController.CheckRequest(CurrencyController.Text("0.005"), Some("USD"), Some("EUR")) == Success(0.005)
  {
    assert IndexOf("0.005", '.') == 1;
    assert "0.005"[..1] == "0" && "0.005"[2..] == "005";
    assert DigitsValue("0") == 0;
    assert DigitsValue("005") == 5 by {
      assert "005"[..2] == "00" && "00"[..1] == "0";
    }
    assert Pow10(3) == 1000;
  }

  /** `query('days').optional().isInt({ min: 1, max: 365 })`: absent, or an integer text in 1..365. */
  function DaysChain(days: Option<string>): (ok: bool)
    ensures ok <==> days.None? || (IntTextValue(days.value).Some? && 1 <= IntTextValue(days.value).value <= 365)
  {
    match days
    case None => true
    case Some(text) =>
      match IntTextValue(text)
      case Some(n) => 1 <= n <= 365
      case None => false
  }

  /** A `days` value the chain accepts makes the controller produce between 2 and 366 points. */
  lemma DaysChainBoundsSeries(days: Option<string>)
    requires DaysChain(days)
    ensures 1 <= CurrencyController.StartDay(days) <= 365
    ensures 2 <= CurrencyController.SeriesLength(CurrencyController.StartDay(days)) <= 366
    ensures days.Some? ==> CurrencyController.StartDay(days) == IntTextValue(days.value).value
  {
    if days.Some? {
      ParseIntAgreesWithIntText(days.value);
    }
  }

  /**
   * parseInt without a radix reads a "0x" `days` text as hexadecimal: the
   * chain rejects "0x10" and "0x", yet the controller (which reads no
   * verdict) counts down from 16 for the first, giving 17 points, and finds
   * NaN for the second, giving none.
   */
  lemma HexDaysReachController()
    ensures !DaysChain(Some("0x10")) && !DaysChain(Some("0x"))
    ensures CurrencyController.StartDay(Some("0x10")) == 16
    ensures CurrencyController.SeriesLength(CurrencyController.StartDay(Some("0x10"))) == 17
    ensures CurrencyController.StartDay(Some("0x")) == -1
    ensures CurrencyController.SeriesLength(CurrencyController.StartDay(Some("0x"))) == 0
  {
    assert TrimStart("0x10") == "0x10";
    assert TrimStart("0x") == "0x";
    assert "0x10"[2..] == "10" && "0x"[2..] == [];
    assert HexPrefix("10") == "10" by {
      assert HexPrefix("0") == "0";
      assert "10"[1..] == "0";
    }
    assert HexValue("10") == 16 by {
      assert "10"[..1] == "1";
    }
  }

  /**
   * A conversion request whose three chains pass reaches the controller with
   * catalogue-shaped codes and an amount that clears the controller's checks.
   */
  lemma ConversionChainsFeedController(amount: string, from: string, to: string)
    requires AmountChain(amount) && CodeChain(from).valid && CodeChain(to).valid
    ensures IsCurrencyCode(CodeChain(from).value) && IsCurrencyCode(CodeChain(to).value)
    ensures CurrencyController.CheckRequest(
              CurrencyController.Text(amount), Some(CodeChain(from).value), Some(CodeChain(to).value)).Success?
  {
  }

  /** The four currency routes, each with its middleware in registration order. */
  const Routes: seq<Route> := [
    Route(Get, "/rates/:base", [Protect, Validate("currencyCodeValidation"), Handle("getExchangeRates")]),
    Route(Post, "/convert", [Protect, Validate("conversionValidation"), Handle("convertCurrency")]),
    Route(Get, "/historical/:from/:to", [Protect, Validate("historicalValidation"), Handle("getHistoricalRates")]),
    Route(Get, "/supported", [Protect, Handle("getSupportedCurrencies")])
  ]

  /**
   * Every currency route runs `protect` first and its handler last, so no
   * request without a valid credential reaches a controller; `/supported`
   * has no validation chain.
   */
  lemma CurrencyRoutesProtected()
    ensures forall r :: r in Routes ==> Protected(r)
    ensures forall r :: r in Routes ==> Run(r.stages, false) == Unauthorized
    ensures forall r :: r in Routes && r.path == "/supported" ==> forall s :: s in r.stages ==> !s.Validate?
  {
    forall r | r in Routes
      ensures Protected(r) && Run(r.stages, false) == Unauthorized
    {
      ProtectedRouteGate(r);
    }
  }
}
