/**
 * The shapes the backend and the frontend exchange (frontend/src/types/index.ts),
 * with JavaScript numbers as exact reals or integers and dates as day numbers.
 */
module Types {
  import opened Wrappers

  /** The four values of the gender union, in the order the source lists them. */
  const GenderValues: seq<string> := ["male", "female", "other", "prefer-not-to-say"]

  predicate IsGender(g: string) {
    g in GenderValues
  }

  datatype User = User(
    id: string,
    name: string,
    email: string,
    age: int,
    gender: string,
    country: string,
    createdAt: string,
    lastLogin: Option<string>)

  datatype FieldMessage = FieldMessage(field: string, message: string)

  /** A login or register answer; `message` is None when the server sent none. */
  datatype AuthResponse = AuthResponse(
    success: bool,
    message: Option<string>,
    token: Option<string>,
    user: Option<User>,
    errors: Option<seq<FieldMessage>>)

  datatype RegisterData = RegisterData(
    name: string,
    email: string,
    password: string,
    age: int,
    gender: string,
    country: string)

  datatype Currency = Currency(name: string, symbol: string, flag: string)

  /**
   * The `data` of a successful conversion. `rate` and `inverseRate` travel as
   * the six-decimal strings toFixed prints; here they are the numbers those
   * strings denote. `lastUpdated` (a wall-clock stamp) is not modelled.
   */
  datatype ConversionData = ConversionData(
    amount: real,
    from: string,
    to: string,
    rate: real,
    inverseRate: real,
    convertedAmount: real)

  datatype ConversionResponse = ConversionResponse(
    success: bool,
    data: Option<ConversionData>,
    message: Option<string>)

  /** One day of the historical series; `date` counts days, so consecutive days differ by one. */
  datatype HistoricalPoint = HistoricalPoint(date: int, rate: real)

  datatype SupportedCurrenciesResponse = SupportedCurrenciesResponse(
    success: bool,
    data: Option<map<string, Currency>>,
    message: Option<string>)
}
