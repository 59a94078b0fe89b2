/**
 * frontend/src/components/CurrencyConverter/CurrencyConverter.tsx: the
 * converter screen's state (the amount text, the two codes, the catalogue it
 * fetched, the last conversion, the loading flag and the error text) and the
 * handlers that update it. What the server answers is a parameter of the
 * handler that awaits it; the 500 ms debounce is not modelled, so a request
 * the effect schedules is one call of ConvertCurrency.
 */
module ConverterUi {
  import opened Wrappers
  import opened Text
  import opened Numeric
  import opened Types
  import opened Catalogue
  import CurrencyController

  /** Every character is a digit or a '.'. */
  predicate DigitsAndDots(v: string) {
    forall i :: 0 <= i < |v| ==> IsDigit(v[i]) || v[i] == '.'
  }

  /** No two positions hold a '.'. */
  predicate AtMostOneDot(v: string) {
    forall i, j :: 0 <= i < j < |v| && v[i] == '.' ==> v[j] != '.'
  }

  /** The pattern `^\d*\.?\d*$` describes exactly the digit-and-dot texts with at most one dot. */
  lemma AmountPatternIff(v: string)
    ensures IsDecimalText(v) <==> DigitsAndDots(v) && AtMostOneDot(v)
  {
    var d := IndexOf(v, '.');
    if d >= 0 {
      if IsDecimalText(v) {
        forall k | 0 <= k < |v| && k != d ensures IsDigit(v[k]) {
          if k < d { assert v[k] == v[..d][k]; }
          else { assert v[k] == v[d + 1..][k - d - 1]; }
        }
      }
      if DigitsAndDots(v) && AtMostOneDot(v) {
        forall i | 0 <= i < d ensures IsDigit(v[..d][i]) {
          assert v[..d][i] == v[i] && v[i] in v[..d];
        }
        forall k | d < k < |v| ensures IsDigit(v[k]) {
          assert v[d] == '.';
        }
        assert AllDigits(v[d + 1..]);
      }
    }
  }

  /** handleAmountChange's filter: the empty text or the pattern. */
  function AmountEditAccepted(value: string): (ok: bool)
    ensures ok <==> DigitsAndDots(value) && AtMostOneDot(value)
  {
    AmountPatternIff(value);
    value == "" || IsDecimalText(value)
  }

  /**
   * The effect's condition for scheduling a conversion: a non-empty amount,
   * both codes set, and `parseFloat(amount) > 0` (NaN compares false).
   */
  predicate ShouldConvert(amount: string, from: string, to: string) {
    amount != "" && from != "" && to != "" && ParseDecimal(amount).Some? && ParseDecimal(amount).value > 0.0
  }

  /** convertCurrency's own guard `!amount || parseFloat(amount) <= 0` (NaN compares false, so it does not stop). */
  predicate GuardStops(amount: string) {
    amount == "" || (ParseDecimal(amount).Some? && ParseDecimal(amount).value <= 0.0)
  }

  /**
   * Among the texts the filter lets in, a conversion is scheduled exactly
   * when the amount holds a digit other than '0'.
   */
  lemma ScheduledIffNonzeroDigit(amount: string, from: string, to: string)
    requires AmountEditAccepted(amount) && from != "" && to != ""
    ensures ShouldConvert(amount, from, to) <==> exists i :: 0 <= i < |amount| && IsDigit(amount[i]) && amount[i] != '0'
  {
    AmountPatternIff(amount);
    if exists i :: 0 <= i < |amount| && IsDigit(amount[i]) && amount[i] != '0' {
      var i :| 0 <= i < |amount| && IsDigit(amount[i]) && amount[i] != '0';
      assert amount[i] != '.';
      DecimalPositive(amount);
    } else if ParseDecimal(amount).Some? {
      DecimalPositive(amount);
    }
  }

  /**
   * A lone "." passes the filter and is NaN: the effect never schedules it,
   * though convertCurrency's own guard would not stop it.
   */
  lemma LoneDotNotScheduled(from: string, to: string)
    ensures AmountEditAccepted(".")
    ensures !ShouldConvert(".", from, to) && !GuardStops(".")
  {
    assert ".."[..0] == "";
    assert IndexOf(".", '.') == 0;
    assert "."[..0] == [] && "."[1..] == [];
  }

  /**
   * What the effect schedules is let through by convertCurrency's guard, and
   * the request it sends (the number, and both codes upper-cased by the API
   * client) passes the server's field and amount checks.
   */
  lemma ScheduledRequestAccepted(amount: string, from: string, to: string)
    requires ShouldConvert(amount, from, to)
    ensures !GuardStops(amount)
    ensures CurrencyController.CheckRequest(
              CurrencyController.Number(ParseDecimal(amount).value), Some(ToUpper(from)), Some(ToUpper(to)))
            == Success(ParseDecimal(amount).value)
  {
  }

  /** What `currencyAPI.convertCurrency` gave the handler: an answer, or an exception. */
  datatype ConvertOutcome = ConvertAnswered(response: ConversionResponse) | ConvertThrew

  /** What `currencyAPI.getSupportedCurrencies` gave the handler. */
  datatype SupportedOutcome = SupportedAnswered(response: SupportedCurrenciesResponse) | SupportedThrew

  /** `response.message || 'Conversion failed'`. */
  function ConvertFailureMessage(message: Option<string>): (m: string)
    ensures m != ""
    ensures message.Some? && message.value != "" ==> m == message.value
  {
    if message.Some? && message.value != "" then message.value else "Conversion failed"
  }

  /** How formatCurrency renders a number: `value.toString()`, or the Intl currency style for the code. */
  datatype Formatted = Plain(value: real) | Styled(value: real, code: string)

  /** formatCurrency over the dictionary the screen holds: the plain text exactly when the code is not in it. */
  function FormatCurrency(currencies: map<string, Currency>, value: real, code: string): (f: Formatted)
    ensures f.Plain? <==> code !in currencies
    ensures f.value == value
    ensures f.Styled? ==> f.code == code
  {
    if code !in currencies then Plain(value) else Styled(value, code)
  }

  /**
   * With the server's catalogue loaded, every catalogue code gets the
   * currency style and anything not shaped like a code gets the plain text;
   * before it is loaded everything is plain.
   */
  lemma CatalogueFormatting(value: real)
    ensures forall i :: 0 <= i < |Entries| ==> FormatCurrency(GetSupportedCurrencies().data, value, Entries[i].0).Styled?
    ensures forall code :: !IsCurrencyCode(code) ==> FormatCurrency(GetSupportedCurrencies().data, value, code).Plain?
    ensures forall code :: FormatCurrency(map[], value, code).Plain?
  {
    var r := GetSupportedCurrencies();
    assert forall code :: code in r.data ==> IsCurrencyCode(code);
  }

  class Converter {
    var amount: string
    var fromCurrency: string
    var toCurrency: string
    var currencies: map<string, Currency>
    var conversion: Option<ConversionData>
    var loading: bool
    var error: string

    /** Between handlers: the amount is a text the filter accepts, and nothing is loading. */
    predicate Valid()
      reads this
    {
      AmountEditAccepted(amount) && !loading
    }

    /** The initial state: amount "1", USD to EUR, no catalogue, no conversion, no error. */
    constructor ()
      ensures amount == "1" && fromCurrency == "USD" && toCurrency == "EUR"
      ensures currencies == map[] && conversion == None && error == ""
      ensures Valid()
    {
      amount := "1";
      fromCurrency := "USD";
      toCurrency := "EUR";
      currencies := map[];
      conversion := None;
      loading := false;
      error := "";
      assert IndexOf("1", '.') == -1;
    }

    /** handleAmountChange: an accepted text replaces the amount; a rejected one changes nothing. */
    method HandleAmountChange(value: string)
      requires Valid()
      modifies this
      ensures amount == if AmountEditAccepted(value) then value else old(amount)
      ensures fromCurrency == old(fromCurrency) && toCurrency == old(toCurrency) && currencies == old(currencies)
      ensures conversion == old(conversion) && loading == old(loading) && error == old(error)
      ensures Valid()
    {
      if value == "" || IsDecimalText(value) {
        amount := value;
      }
    }

    /** swapCurrencies: the two codes trade places, so a second swap restores them; nothing else changes. */
    method SwapCurrencies()
      requires Valid()
      modifies this
      ensures fromCurrency == old(toCurrency) && toCurrency == old(fromCurrency)
      ensures amount == old(amount) && currencies == old(currencies)
      ensures conversion == old(conversion) && loading == old(loading) && error == old(error)
      ensures Valid()
    {
      fromCurrency, toCurrency := toCurrency, fromCurrency;
    }

    /** The selectors' `onCurrencyChange`: the chosen code becomes the `from` (or the `to`) code. */
    method SetCurrency(isFrom: bool, code: string)
      requires Valid()
      modifies this
      ensures fromCurrency == if isFrom then code else old(fromCurrency)
      ensures toCurrency == if isFrom then old(toCurrency) else code
      ensures amount == old(amount) && currencies == old(currencies)
      ensures conversion == old(conversion) && loading == old(loading) && error == old(error)
      ensures Valid()
    {
      if isFrom {
        fromCurrency := code;
      } else {
        toCurrency := code;
      }
    }

    /**
     * convertCurrency: stopped by its guard, it changes nothing. Otherwise the
     * error is cleared and loading raised; a successful answer with data
     * replaces the conversion, any other answer keeps it and shows the
     * server's message (or "Conversion failed"), an exception shows the
     * generic text; loading ends false on every path.
     */
    method ConvertCurrency(outcome: ConvertOutcome)
      requires Valid()
      modifies this
      ensures amount == old(amount) && fromCurrency == old(fromCurrency) && toCurrency == old(toCurrency)
      ensures currencies == old(currencies)
      ensures GuardStops(old(amount)) ==> conversion == old(conversion) && error == old(error)
      ensures !GuardStops(old(amount)) ==> match outcome
        case ConvertThrew =>
          conversion == old(conversion) && error == "Failed to convert currency. Please try again."
        case ConvertAnswered(r) =>
          if r.success && r.data.Some? then conversion == r.data && error == ""
          else conversion == old(conversion) && error == ConvertFailureMessage(r.message)
      ensures Valid()
    {
      if amount == "" || (ParseDecimal(amount).Some? && ParseDecimal(amount).value <= 0.0) {
        return;
      }
      loading := true;
      error := "";
      match outcome {
        case ConvertThrew =>
          error := "Failed to convert currency. Please try again.";
        case ConvertAnswered(r) =>
          if r.success && r.data.Some? {
            conversion := r.data;
          } else {
            error := ConvertFailureMessage(r.message);
          }
      }
      loading := false;
    }

    /** fetchSupportedCurrencies: a successful answer with data replaces the dictionary; anything else changes nothing. */
    method FetchSupportedCurrencies(outcome: SupportedOutcome)
      requires Valid()
      modifies this
      ensures currencies ==
        if outcome.SupportedAnswered? && outcome.response.success && outcome.response.data.Some?
        then outcome.response.data.value else old(currencies)
      ensures amount == old(amount) && fromCurrency == old(fromCurrency) && toCurrency == old(toCurrency)
      ensures conversion == old(conversion) && loading == old(loading) && error == old(error)
      ensures Valid()
    {
      match outcome {
        case SupportedThrew =>
        case SupportedAnswered(r) =>
          if r.success && r.data.Some? {
            currencies := r.data.value;
          }
      }
    }
  }
}
