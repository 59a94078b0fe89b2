/**
 * The conversion engine and the historical series generator of
 * backend/controllers/currencyController.js (both copies of the file carry
 * the same logic). The upstream rate service, the clock and Math.random are
 * parameters: a function from base code to what the fetch gave, a day
 * number for "today", and the random draws in the order they are made.
 */
module CurrencyController {
  import opened Wrappers
  import opened Numeric
  import opened Types

  // ----- convertCurrency -----

  /** The `amount` member of the request body: absent (or null), a JSON number, or a JSON string. */
  datatype AmountField = Absent | Number(n: real) | Text(s: string)

  /** `!!amount`: absent, zero and the empty string are falsy. */
  predicate AmountTruthy(amount: AmountField) {
    match amount
    case Absent => false
    case Number(n) => n != 0.0
    case Text(s) => s != ""
  }

  /** `!!from`, `!!to`: an absent or empty code is falsy. */
  predicate CodeTruthy(code: Option<string>) {
    code.Some? && code.value != ""
  }

  /** `Number(amount)`, which both `isNaN` and `<= 0` coerce to (and `parseFloat` agrees on); None is NaN. */
  function AmountValue(amount: AmountField): Option<real> {
    match amount
    case Absent => None
    case Number(n) => Some(n)
    case Text(s) => SignedDecimal(s)
  }

  /** What the rate fetch for the `from` currency gave. */
  datatype RateFetch =
    | FetchFailed                              // the request threw (transport error, non-2xx status)
    | NoBody                                   // `response.data` is falsy
    | Body(rates: Option<map<string, real>>)   // `response.data.rates`, None when it is undefined

  datatype ConvertError = MissingFields | AmountNotPositive | ConversionUnavailable | ConversionFailed {
    function Status(): int {
      if ConversionFailed? then 500 else 400
    }

    function Message(): string {
      match this
      case MissingFields => "Please provide amount, from currency, and to currency"
      case AmountNotPositive => "Amount must be a positive number"
      case ConversionUnavailable => "Invalid currency codes or conversion not available"
      case ConversionFailed => "Failed to convert currency"
    }
  }

  /**
   * The two checks convertCurrency makes before it fetches anything: all three
   * fields present, then a numeric, positive amount. Success carries the amount.
   */
  function CheckRequest(amount: AmountField, from: Option<string>, to: Option<string>): (r: Result<real, ConvertError>)
    ensures r == Failure(MissingFields) <==> !(AmountTruthy(amount) && CodeTruthy(from) && CodeTruthy(to))
    ensures r == Failure(AmountNotPositive) <==>
      AmountTruthy(amount) && CodeTruthy(from) && CodeTruthy(to) &&
      (AmountValue(amount).None? || AmountValue(amount).value <= 0.0)
    ensures r.Success? ==> r.value > 0.0 && AmountValue(amount) == Some(r.value)
    ensures r.Failure? ==> r.error == MissingFields || r.error == AmountNotPositive
  {
    if !AmountTruthy(amount) || !CodeTruthy(from) || !CodeTruthy(to) then Failure(MissingFields)
    else
      match AmountValue(amount)
      case None => Failure(AmountNotPositive)
      case Some(v) => if v <= 0.0 then Failure(AmountNotPositive) else Success(v)
  }

  /** The result built from a rate table that has a usable rate for `to`. */
  function Quote(amount: real, from: string, to: string, rate: real): ConversionData
    requires rate != 0.0
  {
    ConversionData(amount, from, to, ToFixed(rate, 6), ToFixed(1.0 / rate, 6), ToFixed(amount * rate, 2))
  }

  /** Everything convertCurrency does once the checks passed and the table for `from` was fetched. */
  function ConvertWithRates(amount: real, from: string, to: string, fetched: RateFetch): (r: Result<ConversionData, ConvertError>)
    ensures r.Success? <==> fetched.Body? && fetched.rates.Some? && to in fetched.rates.value && fetched.rates.value[to] != 0.0
    ensures r.Success? ==> r.value == Quote(amount, from, to, fetched.rates.value[to])
    ensures r == Failure(ConversionFailed) <==> fetched.FetchFailed? || fetched == Body(None)
    ensures r.Failure? && r.error != ConversionFailed ==> r.error == ConversionUnavailable
  {
    match fetched
    case FetchFailed => Failure(ConversionFailed)
    case NoBody => Failure(ConversionUnavailable)
    case Body(None) => Failure(ConversionFailed)
    case Body(Some(rates)) =>
      if to !in rates || rates[to] == 0.0 then Failure(ConversionUnavailable)
      else Success(Quote(amount, from, to, rates[to]))
  }

  /**
   * convertCurrency: the checks in their order, then one fetch of the table
   * whose base is `from`, then the three independently rounded numbers.
   */
  function ConvertCurrency(amount: AmountField, from: Option<string>, to: Option<string>, fetch: string -> RateFetch)
    : (r: Result<ConversionData, ConvertError>)
    ensures CheckRequest(amount, from, to).Failure? ==> r == Failure(CheckRequest(amount, from, to).error)
    ensures CheckRequest(amount, from, to).Success? ==>
      r == ConvertWithRates(CheckRequest(amount, from, to).value, from.value, to.value, fetch(from.value))
    ensures r.Success? ==>
      && r.value.from == from.value && r.value.to == to.value
      && r.value.amount > 0.0 && AmountValue(amount) == Some(r.value.amount)
  {
    match CheckRequest(amount, from, to)
    case Failure(e) => Failure(e)
    case Success(v) => ConvertWithRates(v, from.value, to.value, fetch(from.value))
  }

  /** A request that fails a check gets the same answer whatever the rate service would say: nothing is fetched. */
  lemma ChecksPrecedeFetch(amount: AmountField, from: Option<string>, to: Option<string>, f1: string -> RateFetch, f2: string -> RateFetch)
    requires CheckRequest(amount, from, to).Failure?
    ensures ConvertCurrency(amount, from, to, f1) == ConvertCurrency(amount, from, to, f2)
    ensures ConvertCurrency(amount, from, to, f1) == Failure(MissingFields) || ConvertCurrency(amount, from, to, f1) == Failure(AmountNotPositive)
  {
  }

  /** Only the table whose base is `from` matters. */
  lemma OnlyFromTableConsulted(amount: AmountField, from: Option<string>, to: Option<string>, f1: string -> RateFetch, f2: string -> RateFetch)
    requires CodeTruthy(from) && f1(from.value) == f2(from.value)
    ensures ConvertCurrency(amount, from, to, f1) == ConvertCurrency(amount, from, to, f2)
  {
  }

  /**
   * A successful conversion is the quote of the checked amount at the fetched
   * rate (ConvertWithRates), and a quote's three numbers are rounded
   * independently: the converted amount is amount * rate (the unrounded rate)
   * to 2 decimals, the rate and its inverse to 6 decimals; each is within half
   * a unit of its last digit of the exact value, and none is negative for a
   * positive rate and amount.
   */
  lemma ConversionRounding(amount: real, from: string, to: string, rate: real)
    requires rate != 0.0
    ensures var c := Quote(amount, from, to, rate);
      && c.amount * rate - 0.005 <= c.convertedAmount <= c.amount * rate + 0.005
      && rate - 0.0000005 <= c.rate <= rate + 0.0000005
      && 1.0 / rate - 0.0000005 <= c.inverseRate <= 1.0 / rate + 0.0000005
      && (rate > 0.0 && amount >= 0.0 ==> c.convertedAmount >= 0.0 && c.rate >= 0.0 && c.inverseRate >= 0.0)
  {
    assert Pow10(2) == 100 && Pow10(6) == 1000000;
    ToFixedError(amount * rate, 2);
    ToFixedError(rate, 6);
    ToFixedError(1.0 / rate, 6);
    if rate > 0.0 && amount >= 0.0 {
      assert amount * rate >= 0.0;
    }
  }

  /**
   * The converted amount is not derived from the rounded rate: 100000 units
   * at 1.0000004 convert to 100000.04, while 100000 * round6(rate) = 100000
   * would round to 100000.00.
   */
  lemma RoundingPathsIndependent()
    ensures var r := ConvertCurrency(Number(100000.0), Some("USD"), Some("EUR"), _ => Body(Some(map["EUR" := 1.0000004])));
      && r.Success?
      && r.value.convertedAmount == 100000.04
      && r.value.rate == 1.0
      && ToFixed(r.value.amount * r.value.rate, 2) == 100000.0
  {
    assert Pow10(2) == 100 && Pow10(6) == 1000000;
    assert FixedUnits(100000.0 * 1.0000004, 2) == 10000004;
    assert FixedUnits(1.0000004, 6) == 1000000;
    assert FixedUnits(100000.0, 2) == 10000000;
  }

  /** 100 USD at an upstream EUR rate of 0.9123456: rate 0.912346, 91.23 EUR, inverse 1.096076. */
  lemma WorkedExample()
    ensures ConvertCurrency(Number(100.0), Some("USD"), Some("EUR"), _ => Body(Some(map["EUR" := 0.9123456])))
      == Success(ConversionData(100.0, "USD", "EUR", 0.912346, 1.096076, 91.23))
  {
    assert Pow10(2) == 100 && Pow10(6) == 1000000;
    assert FixedUnits(0.9123456, 6) == 912346;
    assert FixedUnits(1.0 / 0.9123456, 6) == 1096076;
    assert FixedUnits(100.0 * 0.9123456, 2) == 9123;
  }

  // ----- getHistoricalRates -----

  /** `Math.random()`: a value in [0, 1). */
  predicate IsRandom(x: real) {
    0.0 <= x < 1.0
  }

  /** `Math.random() * 2 + 0.5`. */
  function BaseRate(draw: real): real {
    draw * 2.0 + 0.5
  }

  /** `(Math.random() - 0.5) * 0.1`. */
  function Fluctuation(draw: real): real {
    (draw - 0.5) * 0.1
  }

  /**
   * Where `parseInt(days)` starts the count-down: the query text, or the
   * default 30; a text parseInt reads as NaN gives -1, which like NaN makes
   * the loop run zero times.
   */
  function StartDay(days: Option<string>): int {
    match days
    case None => 30
    case Some(text) =>
      match ParseIntPrefix(text)
      case Some(n) => n
      case None => -1
  }

  /** The `days` text as `${days}` prints it. */
  function DaysText(days: Option<string>): string {
    match days
    case None => "30"
    case Some(text) => text
  }

  function SeriesLength(start: int): nat {
    if start >= 0 then start + 1 else 0
  }

  /** The k-th point pushed: dated `start - k` days before today, at the k-th fluctuation around the base rate. */
  function PointAt(start: int, today: int, baseRate: real, draws: seq<real>, k: nat): HistoricalPoint
    requires k < |draws|
  {
    HistoricalPoint(today - (start - k), DayRate(baseRate, draws[k]))
  }

  /** `parseFloat((baseRate * (1 + fluctuation)).toFixed(6))` for one draw. */
  function DayRate(baseRate: real, draw: real): real {
    ToFixed(baseRate * (1.0 + Fluctuation(draw)), 6)
  }

  /** The whole series, oldest first. */
  function Series(start: int, today: int, baseRate: real, draws: seq<real>): (s: seq<HistoricalPoint>)
    requires SeriesLength(start) <= |draws|
    ensures |s| == SeriesLength(start)
  {
    seq(SeriesLength(start), k requires 0 <= k < SeriesLength(start) => PointAt(start, today, baseRate, draws, k))
  }

  /** The count-down loop of getHistoricalRates: `i` runs from `start` down to 0, one point pushed per step. */
  method GenerateSeries(start: int, today: int, baseRate: real, draws: seq<real>) returns (historical: seq<HistoricalPoint>)
    requires SeriesLength(start) <= |draws|
    ensures historical == Series(start, today, baseRate, draws)
  {
    historical := [];
    var i := start;
    while i >= 0
      invariant start >= 0 ==> -1 <= i <= start
      invariant start < 0 ==> i == start
      invariant |historical| == SeriesLength(start) - SeriesLength(i)
      invariant forall k :: 0 <= k < |historical| ==> historical[k] == PointAt(start, today, baseRate, draws, k)
    {
      var date := today - i;
      var k := start - i;
      var fluctuation := Fluctuation(draws[k]);
      var rate := baseRate * (1.0 + fluctuation);
      var point := HistoricalPoint(date, ToFixed(rate, 6));
      assert rate == baseRate * (1.0 + Fluctuation(draws[k]));
      assert point == PointAt(start, today, baseRate, draws, k);
      historical := historical + [point];
      i := i - 1;
    }
    assert forall k :: 0 <= k < |historical| ==> historical[k] == Series(start, today, baseRate, draws)[k];
  }

  datatype HistoricalData = HistoricalData(from: string, to: string, period: string, historical: seq<HistoricalPoint>)

  /**
   * getHistoricalRates: one base-rate draw, then the series; `from` and `to`
   * are echoed and `period` is the raw `days` text followed by " days".
   */
  method GetHistoricalRates(from: string, to: string, days: Option<string>, today: int, baseDraw: real, draws: seq<real>)
    returns (data: HistoricalData)
    requires SeriesLength(StartDay(days)) <= |draws|
    ensures data.from == from && data.to == to
    ensures data.period == DaysText(days) + " days"
    ensures data.historical == Series(StartDay(days), today, BaseRate(baseDraw), draws)
  {
    var baseRate := BaseRate(baseDraw);
    var historical := GenerateSeries(StartDay(days), today, baseRate, draws);
    data := HistoricalData(from, to, DaysText(days) + " days", historical);
  }

  /** Without a `days` query the series has 31 points, the last one today, and the period reads "30 days". */
  lemma DefaultPeriod(today: int, baseRate: real, draws: seq<real>)
    requires 31 <= |draws|
    ensures |Series(StartDay(None), today, baseRate, draws)| == 31
    ensures Series(StartDay(None), today, baseRate, draws)[30].date == today
    ensures DaysText(None) + " days" == "30 days"
  {
  }

  /** Dates run over consecutive days, oldest first, and the last point is today. */
  lemma SeriesDates(start: int, today: int, baseRate: real, draws: seq<real>)
    requires SeriesLength(start) <= |draws|
    ensures var s := Series(start, today, baseRate, draws);
      && (forall k :: 0 <= k < |s| ==> s[k].date == today - (start - k))
      && (forall k :: 0 < k < |s| ==> s[k].date == s[k - 1].date + 1)
      && (start >= 0 ==> s[|s| - 1].date == today)
  {
  }

  /**
   * Every rate lies within 5% of the one base rate, up to the 6-decimal
   * rounding, and the base rate itself lies in [0.5, 2.5).
   */
  lemma SeriesRatesBounded(start: int, today: int, baseDraw: real, draws: seq<real>)
    requires SeriesLength(start) <= |draws|
    requires IsRandom(baseDraw)
    requires forall k :: 0 <= k < |draws| ==> IsRandom(draws[k])
    ensures 0.5 <= BaseRate(baseDraw) < 2.5
    ensures var b := BaseRate(baseDraw);
      var s := Series(start, today, b, draws);
      forall k :: 0 <= k < |s| ==> 0.95 * b - 0.0000005 <= s[k].rate <= 1.05 * b + 0.0000005 && s[k].rate > 0.0
  {
    var b := BaseRate(baseDraw);
    var s := Series(start, today, b, draws);
    forall k | 0 <= k < |s|
      ensures 0.95 * b - 0.0000005 <= s[k].rate <= 1.05 * b + 0.0000005 && s[k].rate > 0.0
    {
      RateNearBase(b, draws[k]);
    }
  }

  /** One point's rate: within 5% of a base rate of at least 0.5, up to rounding, and positive. */
  lemma RateNearBase(b: real, draw: real)
    requires b >= 0.5 && IsRandom(draw)
    ensures var r := DayRate(b, draw);
      0.95 * b - 0.0000005 <= r <= 1.05 * b + 0.0000005 && r > 0.0
  {
    var f := Fluctuation(draw);
    var exact := b * (1.0 + f);
    assert exact - 0.95 * b == b * (f + 0.05);
    assert 1.05 * b - exact == b * (0.05 - f);
    assert f + 0.05 >= 0.0 && 0.05 - f > 0.0;
    assert b * (f + 0.05) >= 0.0;
    assert b * (0.05 - f) >= 0.0;
    ToFixedError(exact, 6);
    assert Pow10(6) == 1000000;
  }
}
