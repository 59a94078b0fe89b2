/**
 * The fixed table of supported currencies (getSupportedCurrencies in
 * backend/controllers/currencyController.js) and the response built from it.
 */
module Catalogue {
  import opened Text
  import opened Types

  /** The regional-indicator symbol that stands for an upper-case letter in a flag. */
  function RegionalIndicator(c: char): char
    requires IsUpper(c)
  {
    (0x1F1E6 + (c as int - 'A' as int)) as char
  }

  /** A flag emoji: the two regional indicators of a region code. */
  function Flag(region: string): (f: string)
    requires |region| == 2 && IsUpper(region[0]) && IsUpper(region[1])
    ensures |f| == 2
  {
    [RegionalIndicator(region[0]), RegionalIndicator(region[1])]
  }

  /** The object literal's entries, in the order it writes them (which is also `Object.entries` order). */
  const Entries: seq<(string, Currency)> :=
    [
      ("USD", Currency("US Dollar", "$", Flag("US"))),
      ("EUR", Currency("Euro", "\U{20AC}", Flag("EU"))),
      ("GBP", Currency("British Pound", "\U{00A3}", Flag("GB"))),
      ("JPY", Currency("Japanese Yen", "\U{00A5}", Flag("JP"))),
      ("AUD", Currency("Australian Dollar", "A$", Flag("AU"))),
      ("CAD", Currency("Canadian Dollar", "C$", Flag("CA"))),
      ("CHF", Currency("Swiss Franc", "Fr", Flag("CH"))),
      ("CNY", Currency("Chinese Yuan", "\U{00A5}", Flag("CN"))),
      ("SEK", Currency("Swedish Krona", "kr", Flag("SE"))),
      ("NZD", Currency("New Zealand Dollar", "NZ$", Flag("NZ"))),
      ("MXN", Currency("Mexican Peso", "$", Flag("MX"))),
      ("SGD", Currency("Singapore Dollar", "S$", Flag("SG"))),
      ("HKD", Currency("Hong Kong Dollar", "HK$", Flag("HK"))),
      ("NOK", Currency("Norwegian Krone", "kr", Flag("NO"))),
      ("INR", Currency("Indian Rupee", "\U{20B9}", Flag("IN"))),
      ("BRL", Currency("Brazilian Real", "R$", Flag("BR"))),
      ("RUB", Currency("Russian Ruble", "\U{20BD}", Flag("RU"))),
      ("KRW", Currency("South Korean Won", "\U{20A9}", Flag("KR"))),
      ("TRY", Currency("Turkish Lira", "\U{20BA}", Flag("TR"))),
      ("ZAR", Currency("South African Rand", "R", Flag("ZA"))),
      ("PLN", Currency("Polish Zloty", "z\U{0142}", Flag("PL"))),
      ("DKK", Currency("Danish Krone", "kr", Flag("DK"))),
      ("CZK", Currency("Czech Koruna", "K\U{010D}", Flag("CZ"))),
      ("HUF", Currency("Hungarian Forint", "Ft", Flag("HU"))),
      ("ILS", Currency("Israeli Shekel", "\U{20AA}", Flag("IL"))),
      ("CLP", Currency("Chilean Peso", "$", Flag("CL"))),
      ("PHP", Currency("Philippine Peso", "\U{20B1}", Flag("PH"))),
      ("AED", Currency("UAE Dirham", "\U{062F}.\U{0625}", Flag("AE"))),
      ("COP", Currency("Colombian Peso", "$", Flag("CO"))),
      ("SAR", Currency("Saudi Riyal", "\U{FDFC}", Flag("SA"))),
      ("MYR", Currency("Malaysian Ringgit", "RM", Flag("MY"))),
      ("RON", Currency("Romanian Leu", "lei", Flag("RO"))),
      ("THB", Currency("Thai Baht", "\U{0E3F}", Flag("TH"))),
      ("BGN", Currency("Bulgarian Lev", "\U{043B}\U{0432}", Flag("BG"))),
      ("HRK", Currency("Croatian Kuna", "kn", Flag("HR"))),
      ("ISK", Currency("Icelandic Krona", "kr", Flag("IS"))),
      ("UYU", Currency("Uruguayan Peso", "$U", Flag("UY")))
    ]

  /** An object literal read as a map: a later entry with the same key would overwrite an earlier one. */
  function ToMap(es: seq<(string, Currency)>): map<string, Currency> {
    if es == [] then map[] else ToMap(es[..|es| - 1])[es[|es| - 1].0 := es[|es| - 1].1]
  }

  function Codes(es: seq<(string, Currency)>): seq<string> {
    seq(|es|, i requires 0 <= i < |es| => es[i].0)
  }

  predicate Distinct(keys: seq<string>) {
    forall i, j :: 0 <= i < j < |keys| ==> keys[i] != keys[j]
  }

  /** A 3-letter upper-case code, the form the catalogue keys take. */
  predicate IsCurrencyCode(code: string) {
    |code| == 3 && forall i :: 0 <= i < 3 ==> IsUpper(code[i])
  }

  /** With distinct keys, the map holds exactly one key per entry, each bound to that entry's value. */
  lemma {:induction false} ToMapOfDistinct(es: seq<(string, Currency)>)
    requires Distinct(Codes(es))
    ensures |ToMap(es)| == |es|
    ensures forall i :: 0 <= i < |es| ==> es[i].0 in ToMap(es) && ToMap(es)[es[i].0] == es[i].1
    ensures forall code :: code in ToMap(es) ==> exists i :: 0 <= i < |es| && es[i].0 == code
  {
    if es != [] {
      var init, last := es[..|es| - 1], es[|es| - 1];
      assert Codes(init) == Codes(es)[..|es| - 1];
      ToMapOfDistinct(init);
      forall i | 0 <= i < |init|
        ensures init[i].0 != last.0
      {
        assert Codes(es)[i] != Codes(es)[|es| - 1];
      }
      forall code | code in ToMap(es)
        ensures exists i :: 0 <= i < |es| && es[i].0 == code
      {
        if code != last.0 {
          var i :| 0 <= i < |init| && init[i].0 == code;
          assert es[i].0 == code;
        } else {
          assert es[|es| - 1].0 == code;
        }
      }
    }
  }

  lemma EntriesCodes()
    ensures |Entries| == 37
    ensures forall i :: 0 <= i < |Entries| ==> IsCurrencyCode(Entries[i].0)
  {
  }

  /** A number that identifies a 3-character code. */
  function CodeNumber(code: string): int
    requires |code| == 3
  {
    code[0] as int * 0x10000 + code[1] as int * 0x100 + code[2] as int
  }

  /**
   * The index at which each code number stands in the literal (-1 for any
   * other number): a function that inverts the listing, so no code repeats.
   */
  function IndexOfCodeNumber(n: int): int {
    if n == 5591876 then 0
    else if n == 4543826 then 1
    else if n == 4670032 then 2
    else if n == 4870233 then 3
    else if n == 4281668 then 4
    else if n == 4407620 then 5
    else if n == 4409414 then 6
    else if n == 4410969 then 7
    else if n == 5457227 then 8
    else if n == 5134916 then 9
    else if n == 5068878 then 10
    else if n == 5457732 then 11
    else if n == 4737860 then 12
    else if n == 5132107 then 13
    else if n == 4804178 then 14
    else if n == 4346444 then 15
    else if n == 5395778 then 16
    else if n == 4936279 then 17
    else if n == 5526105 then 18
    else if n == 5914962 then 19
    else if n == 5262414 then 20
    else if n == 4475723 then 21
    else if n == 4414027 then 22
    else if n == 4740422 then 23
    else if n == 4803667 then 24
    else if n == 4410448 then 25
    else if n == 5261392 then 26
    else if n == 4277572 then 27
    else if n == 4411216 then 28
    else if n == 5456210 then 29
    else if n == 5069138 then 30
    else if n == 5394254 then 31
    else if n == 5523522 then 32
    else if n == 4343630 then 33
    else if n == 4739659 then 34
    else if n == 4805451 then 35
    else if n == 5593429 then 36
    else -1
  }

  /** The code number of each entry, in listing order. */
  function CodeNumbers(): (ns: seq<int>)
    ensures |ns| == |Entries|
  {
    EntriesCodes();
    seq(|Entries|, i requires 0 <= i < |Entries| => CodeNumber(Entries[i].0))
  }

  lemma CodeNumbersValue()
    ensures CodeNumbers() == [5591876, 4543826, 4670032, 4870233, 4281668, 4407620, 4409414, 4410969, 5457227, 5134916, 5068878, 5457732, 4737860, 5132107, 4804178, 4346444, 5395778, 4936279, 5526105, 5914962, 5262414, 4475723, 4414027, 4740422, 4803667, 4410448, 5261392, 4277572, 4411216, 5456210, 5069138, 5394254, 5523522, 4343630, 4739659, 4805451, 5593429]
  {
  }

  lemma CodeNumbersIndexed()
    ensures forall i :: 0 <= i < |Entries| ==> IndexOfCodeNumber(CodeNumbers()[i]) == i
  {
    CodeNumbersValue();
  }

  /** No code appears twice in the literal. */
  lemma EntriesDistinct()
    ensures Distinct(Codes(Entries))
  {
    CodeNumbersIndexed();
    forall i, j | 0 <= i < j < |Entries|
      ensures Codes(Entries)[i] != Codes(Entries)[j]
    {
      assert CodeNumbers()[i] != CodeNumbers()[j];
    }
  }

  /** The `currencies` object the controller answers with. */
  function Supported(): map<string, Currency> {
    ToMap(Entries)
  }

  datatype SupportedReply = SupportedReply(data: map<string, Currency>, count: nat)

  /**
   * getSupportedCurrencies: always succeeds, with the table and `count` set
   * to its number of keys: 37 distinct 3-letter upper-case codes, each bound
   * to the details the literal gives it.
   */
  function GetSupportedCurrencies(): (r: SupportedReply)
    ensures r.count == |r.data| == 37
    ensures forall code :: code in r.data ==> IsCurrencyCode(code)
    ensures forall i :: 0 <= i < |Entries| ==> Entries[i].0 in r.data && r.data[Entries[i].0] == Entries[i].1
  {
    EntriesCodes();
    EntriesDistinct();
    ToMapOfDistinct(Entries);
    var data := Supported();
    SupportedReply(data, |data|)
  }
}
