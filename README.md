# convertapp in Dafny

A model of the unit and currency converter web application "convertapp":

- **Server API.** An Express server answers:
  - sign-in (create or refresh a user);
  - exchange rates (a primary rate provider, then a backup);
  - per-user conversion history and favourites.
- **Server store.** The API keeps its data in an in-memory store (`server/storage.ts`), whose row shapes come from `shared/schema.ts`.
- **Rates function.** A serverless function answers exchange-rate requests from three fixed rate tables.
- **Converters.** The browser client has converters for length, weight, currency and clothing/shoe sizes.
- **Calculator.** A four-function calculator.
- **Sidebar and header.** A sidebar shows favourites and recent conversions; a header shows tabs, the user's initials and a history badge.
- **Sign-in dialog.** A dialog validates the form and explains the identity provider's error codes.
- **Browser history.** The client keeps its conversion history in browser storage, through a small hook.

Each source file becomes one Dafny module:

| module | models |
|---|---|
| `Common` | `Option` and the JavaScript string and array operations the code uses: `indexOf`, `split`, `pop`, `toUpperCase`, `trim`, `String(n)`, `filter`, `sort` |
| `JsNumber` | `parseFloat`, `parseInt` and `x \|\| 0`, over exact reals, with NaN as `None` |
| `Schema` | the rows, the insert shapes and the insert-schema checks of `shared/schema.ts` |
| `Storage` | the class `MemStorage`: three maps keyed by id, plus the id counters |
| `Routes` | the REST handlers; a request is its header, body and path parameter, and a reply is a status and a JSON body |
| `ExchangeRatesFunction` | the serverless rate endpoint |
| `LocalStorage` | the browser store, as a class whose `items` map stands for the browser's key-value storage |
| `ConversionsHook` | the history hook's state (`conversions`, `loading`) over a `BrowserStorage` |
| `UnitFields`, `LengthConverter`, `WeightConverter` | the fixed-factor converters; each field holds either the typed text or a converted number, rendered unrounded or to two decimals |
| `CurrencyConverter` | the currency converter's state and its conversion effect |
| `ClothingConverter` | the two size tables, the dropdown, and the records posted to the server |
| `Calculator` | the calculator's state and keys |
| `Sidebar`, `Header` | what the sidebar and the header display |
| `AuthModal` | the form, its validation, and the error messages |

Component state that the source updates in place is a class whose methods update its fields; pure helpers are functions. Clocks, rate providers, the identity provider and storage failures are parameters. `now` is milliseconds since the epoch. A provider's outcome is `None` for success or `Some(code)` for an error. `writeFails` marks a storage write that throws.

## Model

| member | source | states |
|---|---|---|
| Common.NatToString | client/src/lib/localStorage.ts:39 | the decimal numeral of a natural number is non-empty and all digits, and it is "0" exactly for zero (used for `String(n)` and `Date.now().toString()`) |
| Common.IndexOf | client/src/components/Calculator.tsx:57 | `indexOf` gives -1 exactly when the character is absent; otherwise it gives its first position |
| Common.Split | netlify/functions/exchange-rates.js:14 | `split` gives at least one part, and no part contains the separator |
| Common.JoinSplit | netlify/functions/exchange-rates.js:14 | joining the parts of a split with the separator gives back the text |
| Common.SplitEndsWith | netlify/functions/exchange-rates.js:14 | the last part of the split of a text ending in a separator and a separator-free `last` is `last` |
| Common.SplitAtFirst | client/src/components/Header.tsx:41 | text whose first separator follows `a` splits into `a` followed by the parts of the rest |
| Common.SplitAtOnly | client/src/components/Header.tsx:39-42 | text with one separator splits into its two sides |
| Common.SplitOfSeparators | client/src/components/Header.tsx:39-42 | text made only of separators splits into empty parts |
| Common.Upper | server/routes.ts:72 | `toUpperCase` on ASCII letters: the length is kept and each lower-case ASCII letter becomes its capital |
| Common.Lower | server/routes.ts:66 | `toLowerCase` on ASCII letters: the length is kept and each capital ASCII letter becomes lower case |
| Common.Where | client/src/lib/localStorage.ts:89 | `filter` keeps exactly the elements that satisfy the predicate, each as often as the input holds it, and drops every other |
| Common.WhereAppend | client/src/lib/localStorage.ts:89 | filtering a concatenation filters each part and keeps the parts in order |
| Common.WhereKeepsAll | client/src/lib/localStorage.ts:89 | a filter every element passes returns the list unchanged |
| Common.SortDesc | server/storage.ts:75-79 | the sort by descending key returns a permutation of its input, ordered by descending key |
| Common.SortKeepsElements | server/storage.ts:78 | sorting keeps exactly the same elements |
| JsNumber.DigitRun | client/src/components/Calculator.tsx:21 | the numeric prefix `parseFloat` reads is a maximal run of digits |
| JsNumber.ParseFloat | client/src/components/Calculator.tsx:21 | `parseFloat` is NaN exactly when neither a digit nor a point followed by a digit comes after the optional sign |
| JsNumber.ParseInt | server/routes.ts:93 | `parseInt` skips leading white space and an optional sign; after "0x" or "0X" it is NaN exactly when no hexadecimal digit follows, otherwise exactly when no decimal digit follows; an unsigned result is non-negative |
| JsNumber.TrimStart | server/routes.ts:93 | the white space `parseInt` skips: what remains is a suffix of the input, only white space precedes it, and it does not start with white space |
| JsNumber.ParseIntTrimmed | server/routes.ts:93 | on text without leading white space: the hexadecimal prefix selects base 16, and the result is NaN exactly when no digit of the chosen base follows |
| JsNumber.ParseIntSkipsWhiteSpace | server/routes.ts:93 | leading white space never changes what `parseInt` returns |
| JsNumber.ParseIntOfHexDigits | server/routes.ts:93 | after "0x" or "0X", a run of hexadecimal digits is read as its base-16 value |
| JsNumber.ParseIntOfHex | server/routes.ts:93 | `parseInt("0x10")` is 16 and `parseInt("0X1f")` is 31 |
| JsNumber.OrZero | client/src/components/LengthConverter.tsx:60 | `x \|\| 0` turns NaN into 0 and keeps every other value |
| JsNumber.DigitsValueOfNumeral | client/src/lib/localStorage.ts:38 | reading back the numeral of n gives n |
| JsNumber.DigitRunOfDigits | client/src/lib/localStorage.ts:38 | a numeral is read to its end |
| JsNumber.ParseIntRoundTrip | server/routes.ts:93 | `parseInt(String(n)) == n` for every natural n |
| JsNumber.ParseFloatRoundTrip | client/src/components/Calculator.tsx:21 | `parseFloat(String(n)) == n` for every natural n |
| JsNumber.ParseFloatOfNonNumeral | client/src/components/ClothingConverter.tsx:78 | text starting with a letter is NaN, so `parseFloat(s) \|\| 0` is 0 |
| Schema.NewUser | server/storage.ts:54-63 | the stored user has the given id and creation time and carries exactly the inserted fields |
| Schema.NewConversion | server/storage.ts:86-95 | the stored conversion has the given id and time and carries exactly the inserted fields |
| Schema.NewFavorite | server/storage.ts:112-121 | the stored favourite has the given id and time and carries exactly the inserted fields |
| Schema.ApplyPatch | server/storage.ts:65-72 | `{ ...user, ...updates }`: a field present in the patch wins; id and creation time are kept |
| Schema.ApplyEmptyPatch | server/storage.ts:69 | an empty patch changes nothing |
| Schema.ParseInsertConversion | shared/schema.ts:39-42 | the insert schema accepts a body exactly when the user id is a number and type, units and both values are present; the accepted row carries those fields |
| Schema.ParseInsertFavorite | shared/schema.ts:44-47 | accepts exactly when a user id is given and the type and both units are present; the record carries exactly those values |
| Storage.FindFirst | server/storage.ts:46-52 | `find` over the map in insertion (ascending id) order: the first matching key, or none exactly when no key matches |
| Storage.Collect | server/storage.ts:75-79 | `filter` over the map: one value per matching row, in ascending id order, and no other value |
| Storage.MatchingKeys | server/storage.ts:75-79 | the ids of exactly the matching rows, in strictly ascending order |
| Storage.CollectHasEachOnce | server/storage.ts:75-79 | a row whose value carries its own id is in the filtered list exactly once when it matches and not at all otherwise |
| Storage.CountIsCollectLength | server/storage.ts:81-84 | the count is the length of the filtered list |
| Storage.SortedListingLength | server/storage.ts:81-84 | the count equals the length of the sorted listing |
| Storage.MemStorage.constructor | server/storage.ts:32-39 | empty maps and all three counters at 1 |
| Storage.MemStorage.GetUser | server/storage.ts:42-44 | the user stored under the id, or none exactly when the id is absent |
| Storage.MemStorage.GetUserByEmail | server/storage.ts:46-48 | the first user (lowest id) with that email; none exactly when no user has it |
| Storage.MemStorage.GetUserByFirebaseUid | server/storage.ts:50-52 | the first user with that provider uid; none exactly when no user has it |
| Storage.MemStorage.CreateUser | server/storage.ts:54-63 | the row gets the next id, which is fresh and above every stored id; only `users` and its counter change |
| Storage.MemStorage.UpdateUser | server/storage.ts:65-72 | a missing id returns undefined and changes nothing; otherwise the patched row replaces the old one under the same id |
| Storage.MemStorage.GetConversions | server/storage.ts:75-79 | a reordering of the filtered rows: each of the user's stored conversions exactly once and no other, newest first |
| Storage.MemStorage.GetConversionsCount | server/storage.ts:81-84 | the count equals the length of the listing |
| Storage.MemStorage.CreateConversion | server/storage.ts:86-95 | the row gets the next, fresh id; only `conversions` and its counter change |
| Storage.MemStorage.DeleteUserConversions | server/storage.ts:97-103 | the loop removes exactly the user's conversions and keeps every other row |
| Storage.MemStorage.GetFavorites | server/storage.ts:106-110 | a reordering of the filtered rows: each of the user's favourites exactly once and no other, newest first |
| Storage.MemStorage.CreateFavorite | server/storage.ts:112-121 | the row gets the next, fresh id; only `favorites` and its counter change |
| Storage.MemStorage.DeleteFavorite | server/storage.ts:123-125 | the id is removed; a missing id changes nothing |
| Storage.MemStorage.GetFavoriteByUserAndUnits | server/storage.ts:127-136 | a stored favourite matching user, type and both units; none exactly when no row matches |
| Routes.ReadCaller | server/routes.ts:88-93 | an absent or empty header is anonymous (401); otherwise the caller is `parseInt(header)` |
| Routes.ReadCallerOfNumeral | server/routes.ts:88-93 | the header holding a user id's numeral identifies exactly that user |
| Routes.ReadCallerOfHex | server/routes.ts:88-93 | the header "0x10" identifies user 16 |
| Routes.ReadCallerOfSpacedNumeral | server/routes.ts:88-93 | a user id's numeral after a space identifies that same user |
| Routes.NameOrEmail | server/routes.ts:24 | `name \|\| email` |
| Routes.Login | server/routes.ts:9-40 | 400 when uid or email is missing; a first sign-in creates the user; a changed email or name refreshes the user; keeps provider uids unique; conversions, favourites and their id counters are untouched |
| Routes.UppercaseRates | server/routes.ts:71-73 | every backup entry's upper-cased code is a key, no other key appears, and the last entry with a code gives its rate |
| Routes.ExchangeRates | server/routes.ts:43-83 | the primary provider's rates when it succeeds; otherwise the backup's table re-keyed in upper case, each key holding the rate of the last entry that upper-cases to it; an empty table when the lower-cased base is "constructor" or "__proto__" and the backup has no such own key, since the property read finds an inherited member; otherwise 500 |
| Routes.GetConversions | server/routes.ts:86-100 | 401 without a header; otherwise the caller's conversions, and none for a non-numeric id |
| Routes.GetConversionsCount | server/routes.ts:102-116 | 401 without a header; otherwise the length of the caller's listing |
| Routes.PostConversion | server/routes.ts:118-137 | 401 without a header; a body the schema rejects gives 500 and stores nothing; otherwise the row is stored under the header's user id, whatever the body says, and the conversion counter moves on by one; the other counters are kept |
| Routes.DeleteConversions | server/routes.ts:139-153 | 401 without a header; otherwise exactly the caller's conversions are removed; every id counter is kept, so a deleted id is never handed out again |
| Routes.GetFavorites | server/routes.ts:156-170 | 401 without a header; otherwise the caller's favourites |
| Routes.ExistingFavorite | server/routes.ts:182-187 | the duplicate check finds a stored favourite with the same user, type and units, or none exactly when no row matches |
| Routes.PostFavorite | server/routes.ts:172-204 | 401 without a header; 409 for a duplicate; 500 when the schema rejects; otherwise a new favourite under the header's user id, and the favourite counter moves on by one; the other counters are kept |
| Routes.DeleteFavorite | server/routes.ts:206-215 | always "Favorite removed"; removes the parsed id, whoever owns it, and nothing for a non-numeric id; every id counter is kept |
| Routes.DuplicateFavoriteIsRefused | server/routes.ts:189-191 | a caller the header identifies posts the same favourite twice: the second request gets 409, and at most one row is added |
| ExchangeRatesFunction.LastSegment | netlify/functions/exchange-rates.js:14 | `split('/').pop()` holds no slash |
| ExchangeRatesFunction.BaseCurrency | netlify/functions/exchange-rates.js:14 | the last path segment, or USD when that segment is empty; never empty and free of slashes |
| ExchangeRatesFunction.BaseCurrencyOfRatesPath | netlify/functions/exchange-rates.js:14 | a path ending in `/CODE` has base CODE |
| ExchangeRatesFunction.LookupAsWritten | netlify/functions/exchange-rates.js:24 | `mockRates[base] \|\| mockRates.USD` as a property read: an own table; no body for an inherited method name; an empty object for "__proto__"; USD for every other base |
| ExchangeRatesFunction.Lookup | netlify/functions/exchange-rates.js:18-24 | the base's own table, or USD for any other base |
| ExchangeRatesFunction.HandleAsWritten | netlify/functions/exchange-rates.js:4-42 | 405 for any method but GET; 500 when the path is missing; otherwise 200 with the as-written lookup |
| ExchangeRatesFunction.Handle | netlify/functions/exchange-rates.js:4-42 | the same replies with the own-property lookup |
| ExchangeRatesFunction.HandleAnswersATable | netlify/functions/exchange-rates.js:18-35 | every GET with a path is answered 200 with one of the three tables |
| ExchangeRatesFunction.UsdIsATable | netlify/functions/exchange-rates.js:18-22 | the USD table is one of the tables |
| ExchangeRatesFunction.HandlersAgreeOnPlainCodes | netlify/functions/exchange-rates.js:24 | both lookups agree on every base that is not an inherited member name |
| ExchangeRatesFunction.ToStringIsInherited | netlify/functions/exchange-rates.js:18-24 | "toString" is an inherited member name and has no table of its own |
| ExchangeRatesFunction.ToStringBaseHasNoBody | netlify/functions/exchange-rates.js:24-35 | a GET whose path ends in `/toString` is answered 200 with no body as written, and with the USD table when corrected |
| LocalStorage.PushCapped | client/src/lib/localStorage.ts:44-46 | the new record comes first, then the newest older records, at most 100 in all |
| LocalStorage.PushCappedDropsOnlyOldest | client/src/lib/localStorage.ts:46 | below the cap nothing is dropped; at the cap only the oldest record is dropped |
| LocalStorage.WithoutId | client/src/lib/localStorage.ts:89 | exactly the favourites whose id differs remain, each as often as before |
| LocalStorage.WithoutAbsentId | client/src/lib/localStorage.ts:87-91 | removing an id nobody has changes nothing |
| LocalStorage.WithoutIdIdempotent | client/src/lib/localStorage.ts:87-91 | removing twice is removing once |
| LocalStorage.WithoutIdKeepsOrder | client/src/lib/localStorage.ts:89 | removing from a concatenation removes from each part and keeps the parts in order; a single entry goes exactly when it has the id |
| LocalStorage.BrowserStorage.constructor | client/src/lib/localStorage.ts:1-20 | storage starts empty |
| LocalStorage.BrowserStorage.GetUser | client/src/lib/localStorage.ts:25-28 | the saved user, or null when none is stored |
| LocalStorage.BrowserStorage.GetHistory | client/src/lib/localStorage.ts:52-55 | the stored history, or [] when the key is absent |
| LocalStorage.BrowserStorage.GetFavorites | client/src/lib/localStorage.ts:82-85 | the stored favourites, or [] |
| LocalStorage.BrowserStorage.SaveUser | client/src/lib/localStorage.ts:21-23 | the user is read back; history and favourites are unchanged |
| LocalStorage.BrowserStorage.RemoveUser | client/src/lib/localStorage.ts:30-32 | no user is read back; history and favourites are unchanged |
| LocalStorage.BrowserStorage.SaveConversion | client/src/lib/localStorage.ts:35-50 | the history becomes the stamped record followed by the old history, capped at 100; the id is the clock's numeral; other keys are kept |
| LocalStorage.BrowserStorage.ClearHistory | client/src/lib/localStorage.ts:57-59 | the history reads as []; user and favourites are kept |
| LocalStorage.BrowserStorage.SaveFavorite | client/src/lib/localStorage.ts:70-80 | the favourite is appended with the clock's numeral as id, with no duplicate check; other keys are kept |
| LocalStorage.BrowserStorage.RemoveFavorite | client/src/lib/localStorage.ts:87-91 | the favourites become the old list without that id; other keys are kept |
| ConversionsHook.ConversionsState.constructor | client/src/hooks/useFirebaseConversions.ts:11-14 | signed out, empty list, not loading |
| ConversionsHook.ConversionsState.UserChanged | client/src/hooks/useFirebaseConversions.ts:16-24 | a user loads the stored history; no user empties the list |
| ConversionsHook.ConversionsState.SaveConversion | client/src/hooks/useFirebaseConversions.ts:26-44 | signed out: nothing happens; a failed write changes nothing and re-throws; otherwise the store gets the capped push and the list mirrors it |
| ConversionsHook.ConversionsState.ClearConversionHistory | client/src/hooks/useFirebaseConversions.ts:46-59 | signed out: nothing happens; otherwise storage and list are both emptied |
| UnitFields.ThroughBase | client/src/components/LengthConverter.tsx:63-85 | converting through the base unit equals scaling by the ratio of the factors |
| UnitFields.ScaleBack | client/src/components/LengthConverter.tsx:49-85 | scaling a base value by a factor and dividing by it again gives back the base value |
| LengthConverter.Factor | client/src/components/LengthConverter.tsx:19-25 | every factor is positive, and only cm has factor 1 |
| LengthConverter.With | client/src/components/LengthConverter.tsx:86 | `newValues[unit] = value` replaces one field and keeps the others |
| LengthConverter.ToCm | client/src/components/LengthConverter.tsx:63-83 | the switch gives the centimetres whose value in the unit is the input |
| LengthConverter.ConvertFromCm | client/src/components/LengthConverter.tsx:49-57 | cm unrounded; every other unit to two decimals of cm × factor |
| LengthConverter.ConvertFrom | client/src/components/LengthConverter.tsx:59-85 | every field holds x × its factor ÷ the edited unit's factor; only cm is unrounded |
| LengthConverter.FieldThroughBase | client/src/components/LengthConverter.tsx:63-85 | a field converted through cm holds x × its factor ÷ the edited unit's factor |
| LengthConverter.Edited | client/src/components/LengthConverter.tsx:59-88 | the edited field keeps its text, and the others come from its parsed value |
| LengthConverter.NonNumericEditZeroes | client/src/components/LengthConverter.tsx:60 | non-numeric text sets every other field to 0 |
| LengthConverter.ConvertFromAnyField | client/src/components/LengthConverter.tsx:49-88 | the fields agree: recomputing from the value of any field gives back all five fields |
| LengthConverter.SavedRecord | client/src/components/LengthConverter.tsx:90-98 | a record is saved exactly for a signed-in user and a positive value, from the edited unit to cm |
| LengthConverter.Converter.constructor | client/src/components/LengthConverter.tsx:28-35 | the initial field texts, with cm last changed |
| LengthConverter.Converter.HandleValueChange | client/src/components/LengthConverter.tsx:59-99 | the fields become `Edited`, and the saved record is `SavedRecord` |
| LengthConverter.Converter.AddToFavorites | client/src/components/LengthConverter.tsx:101-112 | nothing when signed out; otherwise a length favourite from the last changed unit to "all" |
| WeightConverter.Factor | client/src/components/WeightConverter.tsx:18-23 | every factor is positive, and only kg has factor 1 |
| WeightConverter.With | client/src/components/WeightConverter.tsx:79 | one field replaced, the others kept |
| WeightConverter.ToKg | client/src/components/WeightConverter.tsx:59-76 | the kilograms whose value in the unit is the input |
| WeightConverter.ConvertFromKg | client/src/components/WeightConverter.tsx:46-53 | kg and g unrounded; lb and oz to two decimals |
| WeightConverter.ConvertFrom | client/src/components/WeightConverter.tsx:55-78 | every field holds x × its factor ÷ the edited unit's factor |
| WeightConverter.FieldThroughBase | client/src/components/WeightConverter.tsx:46-76 | a field converted through kg holds x × its factor ÷ the edited unit's factor |
| WeightConverter.Edited | client/src/components/WeightConverter.tsx:55-81 | the edited field keeps its text, and the others come from its value |
| WeightConverter.NonNumericEditZeroes | client/src/components/WeightConverter.tsx:56 | non-numeric text sets every other field to 0 |
| WeightConverter.ConvertFromAnyField | client/src/components/WeightConverter.tsx:46-81 | recomputing from the value of any field gives back all four fields |
| WeightConverter.SavedRecord | client/src/components/WeightConverter.tsx:83-91 | saved exactly for a signed-in user and a positive value, from the edited unit to kg |
| WeightConverter.Converter.constructor | client/src/components/WeightConverter.tsx:26-32 | the initial field texts, with kg last changed |
| WeightConverter.Converter.HandleValueChange | client/src/components/WeightConverter.tsx:55-92 | the fields become `Edited`, and the saved record is `SavedRecord` |
| WeightConverter.Converter.AddToFavorites | client/src/components/WeightConverter.tsx:94-105 | nothing when signed out; otherwise a weight favourite from the last changed unit |
| CurrencyConverter.RateOf | client/src/components/CurrencyConverter.tsx:224 | `rates[code] \|\| 0`: a missing code gives 0 |
| CurrencyConverter.SavedRecord | client/src/components/CurrencyConverter.tsx:229-239 | saved exactly for a signed-in user and a positive amount, carrying the amount, amount × rate and the rate |
| CurrencyConverter.CachedRates | client/src/components/CurrencyConverter.tsx:209-212 | a base's cached table when it has loaded, and nothing before |
| CurrencyConverter.Converter.constructor | client/src/components/CurrencyConverter.tsx:200-203 | USD to EUR, amount "100", converted "0", nothing cached, so no rates yet |
| CurrencyConverter.Converter.ExchangeRates | client/src/components/CurrencyConverter.tsx:209-212 | the query keyed on the from currency sees exactly that currency's cached table |
| CurrencyConverter.Converter.CurrentExchangeRate | client/src/components/CurrencyConverter.tsx:261-264 | 0 before the from currency's table loads or for a missing target; the target's rate in that table otherwise |
| CurrencyConverter.Converter.RatesLoaded | client/src/components/CurrencyConverter.tsx:209-212 | the answer is cached under its base and shown when that base is the from currency; nothing else changes |
| CurrencyConverter.Converter.SetFromAmount | client/src/components/CurrencyConverter.tsx:202 | the amount text is stored; nothing else changes |
| CurrencyConverter.Converter.SetFromCurrency | client/src/components/CurrencyConverter.tsx:294 | only the from currency changes, and the rates shown become those cached for it |
| CurrencyConverter.Converter.SetToCurrency | client/src/components/CurrencyConverter.tsx:330 | only the to currency changes |
| CurrencyConverter.Converter.ConvertEffect | client/src/components/CurrencyConverter.tsx:222-241 | no change without the from currency's table or without an amount; otherwise amount × rate to two decimals, which is 0 for a missing target or a non-numeric amount |
| CurrencyConverter.Converter.SwapCurrencies | client/src/components/CurrencyConverter.tsx:243-246 | the two codes are exchanged and the rates shown become those cached for the new from currency; the cache and the amounts are kept |
| CurrencyConverter.Converter.AddToFavorites | client/src/components/CurrencyConverter.tsx:248-259 | nothing when signed out; otherwise a currency favourite for the pair |
| CurrencyConverter.SwapTwiceRestores | client/src/components/CurrencyConverter.tsx:243-246 | swapping twice restores both codes and the rates shown |
| CurrencyConverter.SwapWaitsForNewBase | client/src/components/CurrencyConverter.tsx:209-246 | with only the USD table loaded, a swap to EUR shows no new amount and saves nothing until EUR's table arrives |
| ClothingConverter.Keys | client/src/components/ClothingConverter.tsx:14-37 | a table's keys in written order |
| ClothingConverter.Lookup | client/src/components/ClothingConverter.tsx:63-64 | `table[size]` finds a row exactly for a key of the table |
| ClothingConverter.UsLabelIsKey | client/src/components/ClothingConverter.tsx:14-37 | every row's US label is its key |
| ClothingConverter.ShoeSizesAscend | client/src/components/ClothingConverter.tsx:23-37 | in written order the shoe sizes strictly ascend |
| ClothingConverter.SizeValueOfShoeKey | client/src/components/ClothingConverter.tsx:23-37 | the i-th shoe key is size 6 plus i half sizes |
| ClothingConverter.KeyValue | client/src/components/ClothingConverter.tsx:78 | a whole or half-size numeral parses to its value |
| ClothingConverter.WholeAndHalf | client/src/components/ClothingConverter.tsx:78 | `parseFloat("<n>.5")` is n + 0.5 |
| ClothingConverter.ObjectKeys | client/src/components/ClothingConverter.tsx:99 | `Object.keys`: a reordering of the keys, each as often as before; the index keys first by ascending value, then the other keys in creation order |
| ClothingConverter.AvailableSizesAsWritten | client/src/components/ClothingConverter.tsx:99 | the dropdown as written lists exactly the table's keys |
| ClothingConverter.AvailableSizes | client/src/components/ClothingConverter.tsx:99 | the corrected dropdown lists exactly the sizes that have a row, and for shoes in ascending size |
| ClothingConverter.IndexKeyListedFirst | client/src/components/ClothingConverter.tsx:99 | `Object.keys` lists every index key before every other key |
| ClothingConverter.ShoeKeysMixed | client/src/components/ClothingConverter.tsx:23-37 | the shoe table has index keys ("12") and other keys ("6.5") |
| ClothingConverter.DropdownListsIndexKeyFirst | client/src/components/ClothingConverter.tsx:99 | the dropdown as written lists a table's index keys before its other keys |
| ClothingConverter.TwelveAboveSixAndAHalf | client/src/components/ClothingConverter.tsx:24-36 | size 12 is larger in value than size 6.5 |
| ClothingConverter.ShoeDropdownOutOfOrder | client/src/components/ClothingConverter.tsx:99 | as written the shoe dropdown lists size 12 before the smaller size 6.5 |
| ClothingConverter.SizeRecord | client/src/components/ClothingConverter.tsx:74-81 | the posted record goes from US to UK-EU, from the parsed size to the parsed EU label |
| ClothingConverter.LetterSizesRecordZero | client/src/components/ClothingConverter.tsx:78 | letter sizes post a from-value of 0 |
| ClothingConverter.Converter.constructor | client/src/components/ClothingConverter.tsx:40-41 | clothing, size M |
| ClothingConverter.Converter.CurrentSizes | client/src/components/ClothingConverter.tsx:62-65 | the selected size's row, whose US label is the size; three empty labels for an unknown size |
| ClothingConverter.Converter.SelectClothing | client/src/components/ClothingConverter.tsx:130-131 | clothing with size M, a size of that table |
| ClothingConverter.Converter.SelectShoes | client/src/components/ClothingConverter.tsx:140-141 | shoes with size 9, a size of that table |
| ClothingConverter.Converter.HandleSizeChange | client/src/components/ClothingConverter.tsx:67-83 | the size is selected; a record is posted exactly for a signed-in user and a size of the current table |
| ClothingConverter.Converter.AddToFavorites | client/src/components/ClothingConverter.tsx:85-96 | nothing when signed out; otherwise a clothing favourite from US to UK-EU for the current kind |
| Calculator.Calculate | client/src/components/Calculator.tsx:37-46 | NaN stays NaN; '+', '−' and '×' give the sum, difference and product; '÷' gives the quotient, or 0 for a zero divisor; '=' gives the second operand |
| Calculator.ToggledSign | client/src/components/Calculator.tsx:64-68 | a leading minus is removed, otherwise one is added |
| Calculator.ToggleSignNegates | client/src/components/Calculator.tsx:64-68 | ± negates the parsed number, and twice restores the display |
| Calculator.DotCount | client/src/components/Calculator.tsx:55-62 | no point is counted exactly when `indexOf('.')` is -1 |
| Calculator.DotCountAppend | client/src/components/Calculator.tsx:59 | points of a concatenation add up |
| Calculator.Calculator.constructor | client/src/components/Calculator.tsx:6-9 | display "0", no operator, no previous value |
| Calculator.Calculator.InputNumber | client/src/components/Calculator.tsx:11-18 | a new operand or a lone "0" is replaced; otherwise the digit is appended |
| Calculator.Calculator.InputOperator | client/src/components/Calculator.tsx:20-35 | the first operand is remembered; a pending operation is folded in and shown; a pending operator always has a value |
| Calculator.Calculator.Clear | client/src/components/Calculator.tsx:48-53 | back to the initial state |
| Calculator.Calculator.InputDecimal | client/src/components/Calculator.tsx:55-62 | "0." for a new operand; otherwise a point only if there is none, so the display never holds two points |
| Calculator.Calculator.ToggleSign | client/src/components/Calculator.tsx:64-68 | "0" is kept; any other display toggles its sign |
| Calculator.Calculator.InputPercent | client/src/components/Calculator.tsx:70-73 | shows the parsed display divided by 100 |
| Calculator.Evaluate | client/src/components/Calculator.tsx:11-46 | the keys digit, operator, digit, '=' on a fresh calculator show the operation's result |
| Sidebar.Ago | client/src/components/Sidebar.tsx:27-39 | "<n> <unit>[s] ago" starts with a digit |
| Sidebar.NestedFloors | client/src/components/Sidebar.tsx:29-37 | floored minutes ÷ 60 are floored hours, and ÷ 24 again are floored days |
| Sidebar.FormatTimeAgo | client/src/components/Sidebar.tsx:27-39 | "Just now" exactly below a minute, then whole minutes, whole hours, whole days |
| Sidebar.FormatConversion | client/src/components/Sidebar.tsx:21-25 | the four layouts: € or $ for currencies, the unit after a space except for EUR |
| Sidebar.ArrowSeparatesSides | client/src/components/Sidebar.tsx:21-25 | the arrow splits the line into the from side and the to side |
| Sidebar.Slice | client/src/components/Sidebar.tsx:91 | `slice(0, n)` is the first min(n, length) elements |
| Sidebar.QuickActions | client/src/components/Sidebar.tsx:48 | the first three favourites |
| Sidebar.QuickActionText | client/src/components/Sidebar.tsx:56-59 | "<from> → <to>" and "Favorite <type>" |
| Sidebar.RecentConversions | client/src/components/Sidebar.tsx:91 | the first five conversions |
| Sidebar.ViewAllExactlyWhenTruncated | client/src/components/Sidebar.tsx:119-126 | "View All History" appears exactly when the recent list leaves something out |
| Sidebar.FavoritesPlaceholder | client/src/components/Sidebar.tsx:65-69 | a placeholder exactly for no favourites, worded by sign-in state |
| Sidebar.HistoryPlaceholder | client/src/components/Sidebar.tsx:112-116 | a placeholder exactly when the Clear button is hidden, worded by sign-in state |
| Header.TabsWellFormed | client/src/components/Header.tsx:22-28 | five tabs with distinct ids, each linked to `#id` and captioned with its id capitalised |
| Header.TabIdsDistinct | client/src/components/Header.tsx:22-28 | no two tabs share an id, so each anchor is unique |
| Header.FirstChars | client/src/components/Header.tsx:41 | at most one character per word, each the first character of some non-empty word; only empty words give nothing |
| Header.FirstCharsOfWords | client/src/components/Header.tsx:41 | the result is the first character of each non-empty word, in order, and nothing else |
| Header.FirstCharsAppend | client/src/components/Header.tsx:41 | the initials of concatenated word lists are concatenated; one word gives its first character, an empty word nothing |
| Header.UserInitials | client/src/components/Header.tsx:39-42 | "U" without a name; at most two characters, all upper case |
| Header.UserInitialsOfWords | client/src/components/Header.tsx:39-42 | a non-empty name gives the upper-cased first characters of its first two non-empty space-separated words |
| Header.OneWordInitials | client/src/components/Header.tsx:39-42 | a single word gives its one upper-cased initial |
| Header.LeadingSpaceInitials | client/src/components/Header.tsx:39-42 | a space before a word adds no initial |
| Header.DoubledSpaceInitials | client/src/components/Header.tsx:39-42 | two spaces between the words add no initial |
| Header.TwoWordInitials | client/src/components/Header.tsx:39-42 | a first and a last name give their two upper-case initials |
| Header.ThreeWordInitials | client/src/components/Header.tsx:39-42 | only the first two initials are kept |
| Header.ThreeFirstChars | client/src/components/Header.tsx:41 | three non-empty words give their three first characters, in order |
| Header.ThreeWordsSplit | client/src/components/Header.tsx:41 | three words split into themselves |
| Header.SpacesOnlyNameHasNoInitials | client/src/components/Header.tsx:39-42 | a name of only spaces gives no initials at all, not "U" |
| Header.BadgeLabel | client/src/components/Header.tsx:102-105 | shown exactly for a positive count; "99+" above 99, else the count in at most two digits |
| Header.ShortNumeral | client/src/components/Header.tsx:104 | a number below 100 has at most two digits |
| Header.HistoryCountAsWritten | client/src/components/Header.tsx:20 | the hook has no `count`, so the header reads undefined |
| Header.HistoryCount | client/src/hooks/useFirebaseConversions.ts:61-66 | the history length: zero exactly for an empty history |
| Header.BadgeNeverShownAsWritten | client/src/components/Header.tsx:20 | as written the badge never appears; with the history length it appears once there is history |
| Header.BadgeShowsHistorySize | client/src/components/Header.tsx:102-105 | with the corrected count the badge shows a short history's size, or "99+" |
| AuthModal.With | client/src/components/AuthModal.tsx:30-34 | the named input takes the value and the others are kept |
| AuthModal.ValidationError | client/src/components/AuthModal.tsx:36-62 | a bad email is reported first; then a short password outside reset, a missing name and mismatched passwords when signing up, each exactly in its case |
| AuthModal.ValidationAcceptsExactly | client/src/components/AuthModal.tsx:36-62 | a form passes exactly when it meets its mode's requirements |
| AuthModal.ResetChecksOnlyEmail | client/src/components/AuthModal.tsx:41-46 | reset mode looks only at the email |
| AuthModal.ModesAreNested | client/src/components/AuthModal.tsx:36-62 | what passes for sign-up passes for sign-in, and what passes for sign-in passes for reset |
| AuthModal.EmptyFormRefused | client/src/components/AuthModal.tsx:37-40 | the empty form is refused in every mode, on its email |
| AuthModal.EmailAuthMessage | client/src/components/AuthModal.tsx:97-123 | each of the seven codes gets its message; every other code gets the generic one |
| AuthModal.EmailAuthMessageIdentifiesCode | client/src/components/AuthModal.tsx:97-123 | the message tells which of the seven codes occurred, or that it was none of them |
| AuthModal.GoogleMessage | client/src/components/AuthModal.tsx:135-145 | the two codes get their messages; every other code gets the generic one |
| AuthModal.GoogleMessageIdentifiesCode | client/src/components/AuthModal.tsx:135-145 | the message tells the two codes apart from each other and from the rest |
| AuthModal.Dialog.constructor | client/src/components/AuthModal.tsx:17-28 | sign-in mode, hidden password, no error, empty form |
| AuthModal.Dialog.HandleInputChange | client/src/components/AuthModal.tsx:30-34 | the input is stored and the error cleared |
| AuthModal.Dialog.ResetForm | client/src/components/AuthModal.tsx:149-158 | empty form, no error, password hidden |
| AuthModal.Dialog.SwitchMode | client/src/components/AuthModal.tsx:160-163 | the new mode with a reset form |
| AuthModal.Dialog.HandleEmailAuth | client/src/components/AuthModal.tsx:64-126 | an invalid form shows its message; a provider error shows the code's message; success returns a reset to sign-in and asks to close otherwise |
| AuthModal.Dialog.HandleGoogleSignIn | client/src/components/AuthModal.tsx:128-147 | the error is cleared, then set from the failure's code, if any; loading ends |

## Left out

- The identity provider, the rate providers and the network: their outcomes are parameters. Query cache eviction, invalidation, refetch intervals, toasts, CORS headers and HTTP plumbing are not modelled.
- Number rendering (`String(x)`, `toFixed(2)`) is a parameter or the kind of a `Field`. Floating-point rounding is not modelled: numbers are exact reals.
- JsNumber.ParseFloat: reads only an optional sign, digits and an optional fraction. Exponents, "Infinity", leading white space and hexadecimal are not read.
- Common.Upper: case mapping covers ASCII letters only. JavaScript's `toUpperCase` maps all of Unicode and can change the length ("ß" becomes "SS").
- Common.Lower: case mapping covers ASCII letters only. JavaScript's `toLowerCase` maps all of Unicode and can change the length ("İ" becomes two characters).
- String lengths count Unicode scalar values, not UTF-16 code units.
- Schema.ParseInsertConversion: fields of the wrong JSON type are not modelled, only missing ones.
- Schema.ParseInsertFavorite: fields of the wrong JSON type are not modelled, only missing ones.
- The 500 catch branches for storage errors are left out: the in-memory store never throws. A conversion or favourite body the schema rejects is modelled as 500.
- Routes.Login: the body's fields are strings or absent. A field of another JSON type (a numeric `uid`, or a numeric `name` on a first sign-in) makes `insertUserSchema.parse` throw and the route answer 500 "Authentication failed"; that case is not modelled.
- Storage.MemStorage.CreateUser: the table's unique email is not enforced. The in-memory store does not enforce it either; only the login route keeps provider uids unique.
- LocalStorage.BrowserStorage.SaveConversion: the source reads `Date.now()` twice, once for the id and once for the timestamp. The model reads the clock once.
- Corrupted JSON in browser storage is not modelled, because `JSON.parse` of foreign data is outside the model. A key holding the wrong kind of item reads as empty.
- The Sidebar's Clear button calls `clearHistory`, which the hook does not return (it returns `clearConversionHistory`). The click itself is not modelled; the button's visibility is.
- ClothingConverter.Lookup: a size outside the dropdown that names an inherited member (e.g. "constructor") would find that member in the source. The dropdown offers only table keys, so this is left out.
- CurrencyConverter.RateOf: `exchangeRates[toCurrency]` is a property read too. The currency codes come from a fixed list, so prototype members are left out.
- AuthModal.Dialog.HandleEmailAuth: `loading` is modelled only at the end of each path. The spinner's timing across the awaits is not modelled.
- Concurrency between handlers and between React renders is not modelled; each operation runs to completion.
- ClothingConverter.IsIndexKey: the 2^32 − 1 bound on array-index keys is not modelled. The tables have no such large keys.
- Calculator.Operator: the operator is a datatype of the five keys. The source passes strings, and an unknown string returns the second operand.

## Findings

| source | as written | input that shows it | evidently intended | confidence | as-written member | corrected member |
|---|---|---|---|---|---|---|
| client/src/components/ClothingConverter.tsx:99 | the size dropdown lists `Object.keys(shoeSizes)`, which puts the integer keys ("6" … "12") before the half sizes | Shoes selected: the dropdown reads 6, 7, 8, 9, 10, 11, 12, 6.5, 7.5, … | the sizes in the ascending order the table is written in | not executed | ClothingConverter.ShoeDropdownOutOfOrder | ClothingConverter.AvailableSizes |
| netlify/functions/exchange-rates.js:24 | `mockRates[base] \|\| mockRates.USD` reads inherited properties | `GET /.netlify/functions/exchange-rates/toString` is answered 200 with no body | the USD rates for any base without a table of its own | not executed | ExchangeRatesFunction.ToStringBaseHasNoBody | ExchangeRatesFunction.HandleAnswersATable |
| client/src/components/Header.tsx:20 | the header reads `count` from the history hook, which returns no `count` (client/src/hooks/useFirebaseConversions.ts:61-66), so the badge at lines 102-105 never shows | any signed-in user with saved conversions: no badge | the badge shows the number of saved conversions | not executed | Header.BadgeNeverShownAsWritten | Header.BadgeShowsHistorySize |
