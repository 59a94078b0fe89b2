# Swift Flow currency converter: a Dafny model

This project models the core of the Swift Flow currency converter (the
`swift-flow-app` backend and frontend, and the `currency-converter-app` copy
of its currency controller). The model covers these parts:

- **The currency controller.** This covers the checks and the three
  independently rounded numbers of a conversion, and the count-down loop
  that generates the mock historical series. It also covers the 37-entry
  table of supported currencies and its count.
- **The validation chains.** These are the express-validator chains of
  the currency and authentication routes. Each is a verdict plus the value
  its sanitiser leaves behind. The model also gives the middleware order
  of each route, and which routes `protect` guards.
- **The user schema.** This covers the Mongoose constraints on a new user:
  casting (`trim`, `lowercase`), the first failing validator of each path
  with its message, and the defaults a stored document gets.
- **The registration form.** This covers its state, `handleChange`,
  `validateForm` and the way `handleSubmit` maps the server's answer onto
  the form's errors.
- **The converter screen.** This covers the amount filter, the swap, the
  conversion guard, the state after each answer, and the `formatCurrency`
  fallback.
- **The currency selector.** This covers the search filter and the
  `isOpen`/`searchTerm` state.
- **The authentication context.** This is the session state machine over
  an abstract key-value store.

Numbers are exact reals. `toFixed(k)` is rounding to k decimals, half away
from zero. Days are integers, and "today" is a parameter. These things are
all parameters too:

- Math.random draws
- what the upstream rate service, the HTTP API and `JSON.parse`/`JSON.stringify` give
- whether a mouse press lands inside the dropdown

Strings are sequences of code points. The two length measures the code
relies on are defined explicitly: JavaScript's UTF-16 `.length`, and
validator.js's `isLength`, which counts code points and skips the
variation selectors.

Things the proofs bring out:

- **The route chains are not enforced.** No controller shown reads the
  chains' verdicts, so each chain is modelled as a predicate and a
  normaliser, not as a gate.
- **The amount chain and the controller disagree.** The chain wants at
  least 0.01, but the controller accepts any positive amount, such as
  "0.005" (`CurrencyRoutes.AmountBelowMinimumReachesController`).
- **Two password lengths disagree.** The registration form counts UTF-16
  units and the route's password chain counts code points, so three
  astral characters pass the form and fail the chain
  (`RegisterForm.PasswordLengthsDisagree`).
- **The inverse rate is rounded on its own.** For 100 USD at 0.9123456 the
  code computes round6(1 / 0.9123456) = 1.096076
  (`CurrencyController.WorkedExample`).
- **Hexadecimal `days` texts reach the controller.** `parseInt(days)` has
  no radix, so "0x10" gives 17 points, though the `days` chain rejects it
  (`CurrencyRoutes.HexDaysReachController`).
- **The two controller copies share one model.** Their logic is
  identical, line for line. The `currency-converter-app` copy differs only
  in mis-encoded text in a comment and in the flags and symbols of the
  currency table. The model uses the correctly encoded table.

The modules, one per source file plus helpers:

- Wrappers: Option and Result
- Text: white space, trim, ASCII case, the two length measures
- Numeric: rounding, digit texts, parseInt, decimal parsing
- Types: the shapes of `types/index.ts`
- Catalogue
- CurrencyController
- Routing
- CurrencyRoutes
- AuthRoutes
- UserSchema
- RegisterForm
- ConverterUi
- CurrencySelector
- AuthContext

## Model

| member | source | states |
|---|---|---|
| CurrencyController.CheckRequest | swift-flow-app/backend/controllers/currencyController.js:46-58 | the "missing fields" error exactly when the amount, `from` or `to` is falsy (amount 0 and "" included); otherwise the "positive number" error exactly when the amount is NaN or not above 0; otherwise success with the positive parsed amount |
| CurrencyController.ConvertWithRates | swift-flow-app/backend/controllers/currencyController.js:60-93 | after the fetch: success exactly when there is a body with a rate table holding a nonzero rate for `to`, and then the result is that rate's quote; the 500 "Failed to convert currency" exactly when the fetch threw or the table is undefined; otherwise "conversion not available" |
| CurrencyController.ConvertCurrency | swift-flow-app/backend/controllers/currencyController.js:42-94 | a failed check is the answer; otherwise the answer is the rate step on the table fetched for `from`; on success `from` and `to` are echoed and the amount is the positive number the request's amount denotes; the `currency-converter-app` copy has the same logic at the same lines |
| CurrencyController.ChecksPrecedeFetch | swift-flow-app/backend/controllers/currencyController.js:46-61 | a request failing a check gets one of the two check errors, whatever the rate service would answer: nothing is fetched |
| CurrencyController.OnlyFromTableConsulted | swift-flow-app/backend/controllers/currencyController.js:61-70 | the answer depends only on the table whose base is `from` |
| CurrencyController.ConversionRounding | swift-flow-app/backend/controllers/currencyController.js:70-82 | the converted amount is within 0.005 of amount × unrounded rate; rate and inverse rate are within 0.0000005 of rate and 1/rate; none is negative for a positive rate and amount |
| CurrencyController.RoundingPathsIndependent | swift-flow-app/backend/controllers/currencyController.js:71-82 | the three numbers are rounded separately: 100000 units at rate 1.0000004 convert to 100000.04, while rounding 100000 × round6(rate) would give 100000.00 |
| CurrencyController.WorkedExample | swift-flow-app/backend/controllers/currencyController.js:70-85 | 100 USD at 0.9123456 gives rate 0.912346, inverse 1.096076 and 91.23 |
| CurrencyController.Series | swift-flow-app/backend/controllers/currencyController.js:110-122 | the series has start + 1 points when the count-down starts at 0 or above, and none otherwise |
| CurrencyController.GenerateSeries | swift-flow-app/backend/controllers/currencyController.js:110-122 | the count-down loop pushes exactly the specified series: point k dated today − (start − k) at round6(base × (1 + fluctuation k)); the `currency-converter-app` copy has the same logic at the same lines |
| CurrencyController.GetHistoricalRates | swift-flow-app/backend/controllers/currencyController.js:99-132 | `from` and `to` echoed, `period` is the raw `days` text plus " days", and the series is built from the single base-rate draw, counting down from `parseInt(days)` without a radix (so a "0x" text is read as hexadecimal) |
| CurrencyController.DefaultPeriod | swift-flow-app/backend/controllers/currencyController.js:102-129 | with no `days` query: 31 points, the last dated today, period "30 days" |
| CurrencyController.SeriesDates | swift-flow-app/backend/controllers/currencyController.js:110-121 | dates are consecutive days, oldest first, and the last point is today |
| CurrencyController.SeriesRatesBounded | swift-flow-app/backend/controllers/currencyController.js:108-120 | the base rate lies in [0.5, 2.5) and every rate is positive and within 5% of it, up to 6-decimal rounding |
| CurrencyController.RateNearBase | swift-flow-app/backend/controllers/currencyController.js:115-120 | one day's rounded rate is positive and within 5% of a base rate of at least 0.5 |
| Catalogue.GetSupportedCurrencies | swift-flow-app/backend/controllers/currencyController.js:146-193 | the table has 37 keys, `count` equals the number of keys, every key is a three-letter upper-case code, and each listed entry is in the table with its name, symbol and flag; the `currency-converter-app` copy has the same logic at the same lines |
| Catalogue.EntriesDistinct | swift-flow-app/backend/controllers/currencyController.js:149-187 | no code is listed twice |
| Catalogue.EntriesCodes | swift-flow-app/backend/controllers/currencyController.js:149-187 | 37 entries, each keyed by a three-letter upper-case code |
| Catalogue.ToMapOfDistinct | swift-flow-app/backend/controllers/currencyController.js:189-193 | a listing with distinct keys gives a dictionary with exactly one key per entry, so the count is the number of entries |
| CurrencyRoutes.CodeChain | swift-flow-app/backend/routes/currency.js:26-35 | the value left is the upper-cased text; the verdict holds exactly when the raw text is three letters, which is exactly when the value left is a three-letter upper-case code |
| CurrencyRoutes.CodeChainIdempotent | swift-flow-app/backend/routes/currency.js:14-20 | running the chain again on its output changes neither value nor verdict |
| CurrencyRoutes.CatalogueCodesPass | swift-flow-app/backend/routes/currency.js:26-35 | every supported code passes the chain unchanged |
| CurrencyRoutes.AmountChain | swift-flow-app/backend/routes/currency.js:23-25 | the amount passes exactly when it reads as a number (optional sign, decimal text) of at least 0.01; an accepted amount has no minus sign |
| CurrencyRoutes.AmountChainStricterThanController | swift-flow-app/backend/routes/currency.js:22-25 | an amount the chain accepts passes the controller's checks with the same value |
| CurrencyRoutes.AmountBelowMinimumReachesController | swift-flow-app/backend/routes/currency.js:23-25 | "0.005" fails the chain but passes the controller's checks |
| CurrencyRoutes.DaysChain | swift-flow-app/backend/routes/currency.js:49-52 | `days` passes exactly when it is absent or an integer text worth 1..365 |
| CurrencyRoutes.DaysChainBoundsSeries | swift-flow-app/backend/routes/currency.js:49-52 | an accepted `days` makes the controller count down from 1..365 (its own value) and produce 2..366 points |
| CurrencyRoutes.HexDaysReachController | swift-flow-app/backend/controllers/currencyController.js:110 | the chain rejects `days` "0x10" and "0x", yet the controller counts down from 16 (17 points) for the first and finds NaN (no points) for the second |
| CurrencyRoutes.ConversionChainsFeedController | swift-flow-app/backend/routes/currency.js:22-36 | a request whose three chains pass reaches the controller with code-shaped currencies and passes its checks |
| CurrencyRoutes.CurrencyRoutesProtected | swift-flow-app/backend/routes/currency.js:56-59 | every currency route runs `protect` first and answers 401 without a credential; `/supported` has no chain |
| Routing.Run | swift-flow-app/backend/routes/currency.js:56-59 | a request reaches only a handler among the stages, and is refused only when unauthenticated at a `protect` |
| Routing.ChainsReachHandler | swift-flow-app/backend/routes/auth.js:44-45 | validation chains never stop a request: it reaches the last handler |
| Routing.ProtectedRouteGate | swift-flow-app/backend/routes/currency.js:56-59 | a protected route refuses unauthenticated requests and hands authenticated ones to its handler |
| Routing.OpenRouteReached | swift-flow-app/backend/routes/auth.js:44-45 | an open route hands every request to its handler |
| AuthRoutes.NameChain | swift-flow-app/backend/routes/auth.js:10-13 | the value left is the trimmed name; the verdict holds exactly when the trimmed name has 2..50 characters as validator.js counts them |
| AuthRoutes.CountryChain | swift-flow-app/backend/routes/auth.js:27-30 | the value left is the trimmed country; the verdict holds exactly when it has 2..100 characters as validator.js counts them |
| AuthRoutes.TrimChainsIdempotent | swift-flow-app/backend/routes/auth.js:10-30 | a second pass of either trimming chain keeps value and verdict |
| AuthRoutes.PasswordChain | swift-flow-app/backend/routes/auth.js:18-20 | the password passes exactly when it has at least 6 characters as validator.js counts them |
| AuthRoutes.LoginPasswordChain | swift-flow-app/backend/routes/auth.js:38-40 | the login password passes exactly when it is not empty |
| AuthRoutes.RegisterPasswordSuffices | swift-flow-app/backend/routes/auth.js:18-40 | every registration password passes the login check, and "a" shows the converse fails |
| AuthRoutes.AgeChain | swift-flow-app/backend/routes/auth.js:21-23 | the age passes exactly when it is an integer text worth 13..120 |
| AuthRoutes.AgeChainOnNumber | swift-flow-app/backend/routes/auth.js:21-23 | a JSON number age passes exactly when it lies in 13..120 |
| AuthRoutes.GenderChain | swift-flow-app/backend/routes/auth.js:24-26 | the gender passes exactly when it is one of the four values |
| AuthRoutes.ErrorList | swift-flow-app/backend/routes/auth.js:9-31 | the list is empty exactly when all verdicts pass, and holds a field's message exactly when that field fails |
| AuthRoutes.RegisterErrors | swift-flow-app/backend/routes/auth.js:9-31 | the registration errors are empty exactly when every modelled chain passes; the age and password messages appear exactly when their chains fail |
| AuthRoutes.AuthRoutesGate | swift-flow-app/backend/routes/auth.js:44-47 | register and login are open and reached without a credential; me and logout refuse requests without one |
| UserSchema.Cast | swift-flow-app/backend/models/User.js:5-46 | name and country are present exactly when given and then trimmed; the email likewise, lower-cased; password, age and gender are kept |
| UserSchema.CastIdempotent | swift-flow-app/backend/models/User.js:8-44 | casting twice equals casting once |
| UserSchema.NameError | swift-flow-app/backend/models/User.js:5-10 | no error exactly when a non-empty name of at most 50 UTF-16 units is present |
| UserSchema.EmailError | swift-flow-app/backend/models/User.js:11-20 | no error exactly when a non-empty email is present |
| UserSchema.PasswordError | swift-flow-app/backend/models/User.js:21-26 | no error exactly when a password of at least 6 UTF-16 units is present |
| UserSchema.AgeError | swift-flow-app/backend/models/User.js:27-32 | no error exactly when an age in [13, 120] is present |
| UserSchema.GenderError | swift-flow-app/backend/models/User.js:33-40 | no error exactly when one of the four genders is present |
| UserSchema.CountryError | swift-flow-app/backend/models/User.js:41-46 | no error exactly when a non-empty country of at most 100 UTF-16 units is present |
| UserSchema.Collect | swift-flow-app/backend/models/User.js:4-46 | the list is empty exactly when no path fails; every failing path is listed with its message, and only failing paths are |
| UserSchema.PathErrors | swift-flow-app/backend/models/User.js:4-46 | no validation error exactly when all six paths pass |
| UserSchema.FailingPathsReported | swift-flow-app/backend/models/User.js:4-46 | each failing path is reported with its first failure's message, and only schema paths are reported |
| UserSchema.Create | swift-flow-app/backend/models/User.js:4-59 | creation succeeds exactly when the cast input validates; the stored document is the cast input, conforms to every constraint, with createdAt and lastLogin now and isActive true; a failure carries exactly the validation errors of the cast input, at least one |
| UserSchema.StoredDocRevalidates | swift-flow-app/backend/models/User.js:4-59 | saving a stored document again succeeds and keeps every field |
| UserSchema.PaddedNameAccepted | swift-flow-app/backend/models/User.js:5-10 | white space around a valid name is removed before the length check |
| RegisterForm.AgeFromInputNumber | swift-flow-app/frontend/src/components/Auth/Register.tsx:34 | typing a number into the age input stores that number |
| RegisterForm.AgeFromInputNonNumeric | swift-flow-app/frontend/src/components/Auth/Register.tsx:34 | a text with no leading digit, sign or space stores 0 |
| RegisterForm.NameError | swift-flow-app/frontend/src/components/Auth/Register.tsx:48-52 | no error exactly when the trimmed name has at least 2 UTF-16 units; a blank name gets "Name is required" |
| RegisterForm.EmailError | swift-flow-app/frontend/src/components/Auth/Register.tsx:54-58 | no error exactly when the email contains non-space@non-space.non-space; an empty one gets "Email is required" |
| RegisterForm.PasswordError | swift-flow-app/frontend/src/components/Auth/Register.tsx:60-64 | no error exactly when the password has at least 6 UTF-16 units; an empty one gets "Password is required" |
| RegisterForm.AgeError | swift-flow-app/frontend/src/components/Auth/Register.tsx:66-70 | no error exactly when the age lies in 13..120; under 13 gets the minimum-age message |
| RegisterForm.CountryError | swift-flow-app/frontend/src/components/Auth/Register.tsx:72-74 | no error exactly when the trimmed country is not empty |
| RegisterForm.ErrorsOf | swift-flow-app/frontend/src/components/Auth/Register.tsx:46-74 | the dictionary has only the five field keys, a key exactly when that field has a message, holding that message |
| RegisterForm.FormErrors | swift-flow-app/frontend/src/components/Auth/Register.tsx:45-76 | each field's key is present exactly when its check fails, with its message; the gender never has one |
| RegisterForm.FormAcceptedIff | swift-flow-app/frontend/src/components/Auth/Register.tsx:76-77 | the form has no errors exactly when every field passes the client rule |
| RegisterForm.GenderUnchecked | swift-flow-app/frontend/src/components/Auth/Register.tsx:45-78 | changing the gender changes no error |
| RegisterForm.ClientAgreesWithSchema | swift-flow-app/frontend/src/components/Auth/Register.tsx:60-70 | what the form accepts, the schema accepts for password and age, and the route's age chain accepts the number |
| RegisterForm.PasswordLengthsDisagree | swift-flow-app/frontend/src/components/Auth/Register.tsx:62 | three astral characters measure 6 for the form but fail the route's password chain |
| RegisterForm.ServerErrorMapKeys | swift-flow-app/frontend/src/components/Auth/Register.tsx:91-96 | the dictionary has one key per field named by the server |
| RegisterForm.ServerErrorMapLastWins | swift-flow-app/frontend/src/components/Auth/Register.tsx:93-95 | each field holds the last message the server gives for it |
| RegisterForm.ErrorsFromServer | swift-flow-app/frontend/src/components/Auth/Register.tsx:92-96 | the forEach loop builds exactly that dictionary |
| RegisterForm.FailureMessage | swift-flow-app/frontend/src/components/Auth/Register.tsx:98 | the general message is never empty: the server's non-empty message, else "Registration failed" |
| RegisterForm.Form.constructor | swift-flow-app/frontend/src/components/Auth/Register.tsx:12-20 | empty texts, age 18, gender "prefer-not-to-say", no errors |
| RegisterForm.Form.HandleChange | swift-flow-app/frontend/src/components/Auth/Register.tsx:30-43 | only the named field changes (age parsed, NaN as 0); only that field's error is blanked, and only when showing; no key is added or removed |
| RegisterForm.Form.ValidateForm | swift-flow-app/frontend/src/components/Auth/Register.tsx:45-78 | the errors become the data's errors and the answer is true exactly when the client rule holds |
| RegisterForm.Form.HandleSubmit | swift-flow-app/frontend/src/components/Auth/Register.tsx:80-104 | sent exactly when the form validates; then a failure with a list shows those fields, one without shows the general message, an exception the generic one |
| ConverterUi.AmountPatternIff | swift-flow-app/frontend/src/components/CurrencyConverter/CurrencyConverter.tsx:70 | the pattern matches exactly the texts of digits and dots with at most one dot |
| ConverterUi.AmountEditAccepted | swift-flow-app/frontend/src/components/CurrencyConverter/CurrencyConverter.tsx:67-73 | an edit is accepted exactly when it is digits and at most one dot |
| ConverterUi.ScheduledIffNonzeroDigit | swift-flow-app/frontend/src/components/CurrencyConverter/CurrencyConverter.tsx:21-29 | with both codes set, an accepted amount schedules a conversion exactly when it holds a digit other than 0 |
| ConverterUi.LoneDotNotScheduled | swift-flow-app/frontend/src/components/CurrencyConverter/CurrencyConverter.tsx:22-43 | "." passes the filter, is never scheduled, and would not be stopped by convertCurrency's own guard |
| ConverterUi.ScheduledRequestAccepted | swift-flow-app/frontend/src/components/CurrencyConverter/CurrencyConverter.tsx:21-53 | a scheduled conversion passes convertCurrency's guard, and the request sent passes the server's checks with the same amount |
| ConverterUi.ConvertFailureMessage | swift-flow-app/frontend/src/components/CurrencyConverter/CurrencyConverter.tsx:58 | the error text is never empty: the server's message if non-empty, else "Conversion failed" |
| ConverterUi.FormatCurrency | swift-flow-app/frontend/src/components/CurrencyConverter/CurrencyConverter.tsx:80-90 | the plain number text exactly when the code is not in the fetched dictionary |
| ConverterUi.CatalogueFormatting | swift-flow-app/frontend/src/components/CurrencyConverter/CurrencyConverter.tsx:80-82 | with the server's table every catalogue code is styled and every non-code is plain; before the fetch everything is plain |
| ConverterUi.Converter.constructor | swift-flow-app/frontend/src/components/CurrencyConverter/CurrencyConverter.tsx:9-15 | amount "1", USD to EUR, nothing fetched, no conversion, no error |
| ConverterUi.Converter.HandleAmountChange | swift-flow-app/frontend/src/components/CurrencyConverter/CurrencyConverter.tsx:67-73 | an accepted text replaces the amount, a rejected one leaves it; nothing else changes |
| ConverterUi.Converter.SwapCurrencies | swift-flow-app/frontend/src/components/CurrencyConverter/CurrencyConverter.tsx:75-78 | the codes trade places (so two swaps restore them); nothing else changes |
| ConverterUi.Converter.SetCurrency | swift-flow-app/frontend/src/components/CurrencyConverter/CurrencyConverter.tsx:120-144 | a selector's choice replaces only its own code |
| ConverterUi.Converter.ConvertCurrency | swift-flow-app/frontend/src/components/CurrencyConverter/CurrencyConverter.tsx:42-65 | stopped by the guard, nothing changes; otherwise success replaces the conversion with the error cleared, a failure keeps it and shows the message or "Conversion failed", an exception the generic text; loading ends false |
| ConverterUi.Converter.FetchSupportedCurrencies | swift-flow-app/frontend/src/components/CurrencyConverter/CurrencyConverter.tsx:31-40 | a successful answer with data replaces the dictionary; anything else changes nothing |
| CurrencySelector.FilterCurrencies | swift-flow-app/frontend/src/components/CurrencyConverter/CurrencySelector.tsx:22-25 | an entry is listed exactly when it is one of the entries and its code or name contains the term, ignoring case; the list never grows |
| CurrencySelector.FilterKeepsOrder | swift-flow-app/frontend/src/components/CurrencyConverter/CurrencySelector.tsx:22 | filtering a concatenation concatenates the filtered parts: the original order is kept |
| CurrencySelector.FilterIdempotent | swift-flow-app/frontend/src/components/CurrencyConverter/CurrencySelector.tsx:22-25 | filtering the list again with the same term changes nothing |
| CurrencySelector.EmptyTermListsAll | swift-flow-app/frontend/src/components/CurrencyConverter/CurrencySelector.tsx:22-25 | the empty term lists every entry in order |
| CurrencySelector.OwnCodeListed | swift-flow-app/frontend/src/components/CurrencyConverter/CurrencySelector.tsx:22-25 | typing an entry's code, as is or upper-cased, lists it |
| CurrencySelector.SearchIgnoresCase | swift-flow-app/frontend/src/components/CurrencyConverter/CurrencySelector.tsx:23-24 | upper- or lower-casing the term lists the same entries |
| CurrencySelector.SameLoweredTermSameList | swift-flow-app/frontend/src/components/CurrencyConverter/CurrencySelector.tsx:23-24 | two terms with the same lower-case form list the same entries |
| CurrencySelector.Selector.constructor | swift-flow-app/frontend/src/components/CurrencyConverter/CurrencySelector.tsx:17-18 | closed, with an empty search |
| CurrencySelector.Selector.Listed | swift-flow-app/frontend/src/components/CurrencyConverter/CurrencySelector.tsx:22-25 | with an empty search the dropdown lists every entry |
| CurrencySelector.Selector.Toggle | swift-flow-app/frontend/src/components/CurrencyConverter/CurrencySelector.tsx:58 | the dropdown flips unless disabled; the search is kept |
| CurrencySelector.Selector.MouseDown | swift-flow-app/frontend/src/components/CurrencyConverter/CurrencySelector.tsx:28-33 | a press outside closes and clears the search; one inside changes nothing |
| CurrencySelector.Selector.Search | swift-flow-app/frontend/src/components/CurrencyConverter/CurrencySelector.tsx:83 | the typed text becomes the term; open state kept |
| CurrencySelector.Selector.Select | swift-flow-app/frontend/src/components/CurrencyConverter/CurrencySelector.tsx:45-49 | exactly the chosen code is handed on, the dropdown closes and the search is cleared |
| AuthContext.RestoredAsWritten | swift-flow-app/frontend/src/context/AuthContext.tsx:24-41 | the mount effect as written: nothing restored unless both keys are truthy; then the token is always set, the user is the parsed value, and a stored user that fails to parse leaves no user and removes both keys |
| AuthContext.RestoreAsWrittenSplitsSession | swift-flow-app/frontend/src/context/AuthContext.tsx:29-37 | an unparseable stored user leaves a token, no user, and neither key stored |
| AuthContext.Restored | swift-flow-app/frontend/src/context/AuthContext.tsx:24-41 | the mount as corrected (see Findings): with both keys truthy and the stored user parsing to a user, token and user are restored from the store, which is kept; token and user are otherwise both unset, and both keys go if both were truthy |
| AuthContext.RestoreIsStable | swift-flow-app/frontend/src/context/AuthContext.tsx:26-40 | restoring again from the store the restore leaves gives the same session |
| AuthContext.UseAuth | swift-flow-app/frontend/src/context/AuthContext.tsx:7-13 | outside a provider, the error "useAuth must be used within an AuthProvider"; inside, the context |
| AuthContext.Session.constructor | swift-flow-app/frontend/src/context/AuthContext.tsx:20-22 | no user, no token, loading |
| AuthContext.Session.Restore | swift-flow-app/frontend/src/context/AuthContext.tsx:24-41 | the mount as corrected (see Findings), not as written: the state becomes the corrected restored session, loading ends, and token and user are paired and mirrored in the store |
| AuthContext.Session.Authenticate | swift-flow-app/frontend/src/context/AuthContext.tsx:43-62 | an accepted answer is written to both keys and to the state; anything else leaves session and store unchanged; the answer or the failure is returned; loading ends false; pairing and mirroring are kept |
| AuthContext.Session.Login | swift-flow-app/frontend/src/context/AuthContext.tsx:43-62 | login as above, with "Login failed. Please try again." for an exception |
| AuthContext.Session.Register | swift-flow-app/frontend/src/context/AuthContext.tsx:64-83 | register as above, with "Registration failed. Please try again." for an exception |
| AuthContext.Session.Logout | swift-flow-app/frontend/src/context/AuthContext.tsx:85-98 | both keys are removed and token and user emptied whatever the API does; loading ends false; the session stays mirrored |
| Numeric.ToFixedError | swift-flow-app/backend/controllers/currencyController.js:71-72 | rounding to k decimals moves a number by at most half a unit of the last digit and keeps non-negative numbers non-negative |
| Numeric.ParseIntRoundTrip | swift-flow-app/backend/controllers/currencyController.js:110 | parseInt reads back every integer's decimal text |
| Numeric.DecimalPositive | swift-flow-app/backend/controllers/currencyController.js:53 | a decimal text is worth more than 0 exactly when it has a digit other than 0 |

## Left out

- `getExchangeRates` and every HTTP call are left out. The upstream rate service is a parameter of the conversion.
- The API client in `frontend/src/services/api.ts` is not part of this model. That includes its interceptors, its token header and its redirect on 401. Its upper-casing of the codes appears only in `ConverterUi.ScheduledRequestAccepted`.
- Floating point is not modelled. Numbers are exact reals, and `toFixed` is exact rounding to k decimals. Number-to-text formatting (`value.toString()`, `toISOString`, `toLocaleString`) is not modelled.
- Dates are day numbers. Time zones, daylight saving and the UTC date cut of `toISOString` are not modelled.
- The 500 branch of `getHistoricalRates` and `getSupportedCurrencies` is not modelled, because nothing in their bodies throws for the inputs modelled.
- CurrencyController.AmountValue: only JSON numbers and strings are modelled. Booleans, arrays and objects in `amount` are not.
- Numeric.SignedDecimal: only an optional sign followed by a plain decimal text is modelled. Exponents, hexadecimal, "Infinity", surrounding white space and trailing garbage all read as NaN in the model.
- Text.ToLower: only ASCII letters are mapped. The same holds for Text.ToUpper. JavaScript's full Unicode case mapping is not modelled.
- UserSchema.EmailError: only `required` is checked. The schema's email pattern and the `unique` index are not modelled.
- AuthRoutes.RegisterErrors: the email chain (`isEmail`, `normalizeEmail`) is not modelled. The same goes for the login email chain.
- CurrencyRoutes.CodeChain: each chain is a verdict only. The messages that `withMessage` attaches are not modelled.
- Enforcement of the validation chains is not modelled, because no controller shown reads their verdicts.
- The `protect` middleware is reduced to whether the credential is valid. Token verification is not part of this model.
- The pre-save bcrypt hook, `comparePassword` and `updateLastLogin` in `User.js` are not modelled. Neither is the `select: false` projection of the password.
- ConverterUi.FormatCurrency: only which branch is taken is modelled. `Intl.NumberFormat` output is not.
- CurrencyController.ConvertWithRates: the rate table is a map, so inherited keys are not modelled. In the source a `to` such as "constructor" or "toString" finds an inherited, truthy property, and `rate.toFixed` then throws into the 500 "Failed to convert currency"; the model answers "conversion not available" (400) for it.
- ConverterUi.FormatCurrency: dictionary lookups ignore inherited prototype properties. A code such as "constructor" is treated as absent. The same holds for `currencies[selectedCurrency]` in the selector.
- ConverterUi.Converter.ConvertCurrency: the 500 ms debounce and answers arriving out of order are not modelled. Each scheduled request is one atomic call, so `loading` is never seen true.
- AuthContext.Session.Authenticate: the await is atomic, so the loading state in between is not observable.
- The `currency-converter-app` copy's mis-encoded flag and symbol texts are not modelled. The catalogue holds the correctly encoded values of the `swift-flow-app` copy.
- Rendering is not modelled. That covers `ExchangeRateChart.tsx`, `App.tsx`, `Header.tsx`, the password visibility toggle and the focus effect of the selector.

## Findings

| source | as written | input that shows it | evidently intended | confidence | as-written member | corrected member |
|---|---|---|---|---|---|---|
| swift-flow-app/frontend/src/context/AuthContext.tsx:29-37 | `setToken` runs before `JSON.parse(storedUser)`. When the parse throws, the catch removes both keys, but the token stays set with no user. A stored `"null"` likewise sets the token with a null user. | a store holding `swift_flow_token` = "t" and `swift_flow_user` = "{" | the token and the user are restored together, only when the stored text parses to a user; otherwise both keys are removed and no session is restored | not executed | AuthContext.RestoreAsWrittenSplitsSession | AuthContext.Restored |
