# Trip quotes: pricing, itinerary editing, quote records and payments

This project models the logic of a transport company's quoting frontend and proves
properties of it in Dafny:

- **The quote calculator dialog** (`QuoteCalculator.jsx`). The dialog keeps an editable
  itinerary of days and stops, with editors that never leave fewer than one day or
  fewer than two stop slots in a day. It estimates a distance of 100 km per leg between
  the filled-in stops. It prices a trip for four vehicle classes (2, 8, 14 and 20
  passengers): fuel, tolls, lodging, meals, bus and airport fee are the same for every
  class, while rental and driver depend on the class. It tracks which quotations are
  selected and renders two WhatsApp texts, one for the client and one internal cost
  breakdown.
- **The quotes page** (`Quotes.jsx`). It reads a stored quote's `notes` back into the
  calculator, either as JSON or in the legacy text format. It also covers:
  - the route column, which removes repeated stops and cuts the text at 50 characters;
  - the case-insensitive search;
  - the fields sent to the API when a quote is saved;
  - the `YYMMDDHHmm` contract number;
  - the approval flow that turns a quote into a contract.
- **The payment dialog** (`Payments.jsx`). It covers the form a new or edited payment
  starts from, the record sent when it is submitted, the source-type switch and the
  list of quotes or contracts to choose from.

Modules, one per file:
- `Wrappers`: `Option`.
- `Text`: JavaScript string methods — `trim`, `split`, `join`, `startsWith`, `includes`,
  `replace` and `toLowerCase`.
- `Numerals`: `String(n)`, `padStart`, `slice(-2)`, `toFixed(2)` and comma grouping by
  regular expression.
- `QuoteModel`: the calculator's records.
- `Pricing`: `calculateQuote`.
- `Messages`: the two WhatsApp renderers.
- `Calculator`: the dialog's state, as the class `QuoteCalculator`.
- `Quotes`: record handling on the quotes page.
- `Approval`: the status and contract flow, as the class `QuoteApproval`.
- `Payments`: the payment form mapping.

How the model represents the source's values:
- `parseFloat`/`parseInt` are a parameter `string -> Option<real>`, where `None` is `NaN`.
- `x || 0` maps `None` to 0.
- Money and distances are exact `real`s.
- Parsed JSON is modelled as records.

## Model

| member | source | states |
|---|---|---|
| Text.Trim | frontend/src/components/QuoteCalculator.jsx:166-167 | `trim()` returns a slice of the text with only whitespace cut off each end; a non-empty result has no whitespace at either end, and the result is empty exactly when the text is all whitespace |
| Text.TrimIdempotent | frontend/src/components/QuoteCalculator.jsx:166-167 | trimming an already trimmed stop changes nothing |
| Text.Split | frontend/src/pages/Quotes.jsx:198 | `split(sep)` yields at least one part, the parts joined with `sep` give the text back, and no part contains `sep` |
| Text.SplitJoin | frontend/src/pages/Quotes.jsx:198 | splitting a join gives back the parts, provided no part contains the separator's first character |
| Text.SplitLeftmost | frontend/src/pages/Quotes.jsx:198 | `split` cuts at the leftmost occurrence each time: no part but the last, followed by all but the last character of `sep`, contains `sep`; with the contract of Text.Split this fixes the parts even for overlapping occurrences |
| Text.ReplacePrefix | frontend/src/pages/Quotes.jsx:205 | replacing the prefix a section starts with leaves the rest of the section |
| Text.TrimAfterSpace | frontend/src/pages/Quotes.jsx:205 | trimming a space followed by trimmed text gives that text back |
| Text.ToLower | frontend/src/pages/Quotes.jsx:340 | `toLowerCase` keeps the length and lowers each character (ASCII and Latin-1 capitals) |
| Text.ToLowerIdempotent | frontend/src/pages/Quotes.jsx:340 | lower-casing twice is the same as lower-casing once |
| Numerals.RoundCents | frontend/src/components/QuoteCalculator.jsx:336 | the hundredths that `toFixed(2)` shows are within half a hundredth of the amount |
| Numerals.ToFixed2 | frontend/src/components/QuoteCalculator.jsx:336 | `toFixed(2)` has a minus sign exactly for negative amounts, then integer digits without leading zeros (a single `0` below one), a point and two decimals, whose value is the amount in cents rounded half up |
| Numerals.GroupThousandsMatchesRegex | frontend/src/components/QuoteCalculator.jsx:336 | the recursive comma grouping inserts exactly the commas the left-to-right regular-expression replacement inserts |
| Numerals.GroupThousandsRoundTrip | frontend/src/components/QuoteCalculator.jsx:336 | removing the commas from grouped digits gives the digits back |
| Numerals.MoneyTextIsGroupedToFixed | frontend/src/components/QuoteCalculator.jsx:405 | a rendered total without its commas is exactly `toFixed(2)` of the total |
| Numerals.TwoDigits | frontend/src/pages/Quotes.jsx:64-67 | a number below 100 becomes two digits that read back as the number |
| Numerals.PadStart2OfSmall | frontend/src/pages/Quotes.jsx:64-67 | `String(n).padStart(2, '0')` for n below 100 is its two-digit form |
| Numerals.LastTwoOfYear | frontend/src/pages/Quotes.jsx:63 | `String(year).slice(-2)` is the two-digit form of the year modulo 100 |
| Pricing.CalculateQuote | frontend/src/components/QuoteCalculator.jsx:266-293 | exactly four quotations, named `UNIDAD DE 2/8/14/20` with capacities 2, 8, 14 and 20, in that order |
| Pricing.QuoteDays | frontend/src/components/QuoteCalculator.jsx:222 | trip days are the typed value, else the itinerary length, else 1 |
| Pricing.QuoteDistance | frontend/src/components/QuoteCalculator.jsx:234-243 | billable km = 2·base + extra, or 4·base + extra when the vehicle returns empty; base is the positive override, else the estimate; a missing extra counts as 0 |
| Pricing.ReturnEmptyAddsTwoLegs | frontend/src/components/QuoteCalculator.jsx:239-243 | returning empty adds exactly two one-way legs |
| Pricing.TripComponentsShared | frontend/src/components/QuoteCalculator.jsx:246-263 | fuel, tolls, lodging, meals, bus and airport fee are equal in any two of the four quotations |
| Pricing.TripComponentValues | frontend/src/components/QuoteCalculator.jsx:223-263 | fuel = km / efficiency × price; tolls = 2 × one-way tolls whatever `returnVehicle` is; lodging = per night × nights, where nights are the typed value, else days − 1 (0 when days is not positive); meals = per day × days; bus = 2 × price only when included; airport fee only when included; each is 0 when an input does not parse |
| Pricing.RentalAndDriverValues | frontend/src/components/QuoteCalculator.jsx:273-276 | rental = the class's daily rate × days; driver = rental × percentage / 100 |
| Pricing.TotalIsSumOfComponents | frontend/src/components/QuoteCalculator.jsx:278-293 | when every input parses, a total is the sum of its eight components; otherwise it is 0 (`NaN \|\| 0`) |
| Pricing.DriverScalesWithPercentage | frontend/src/components/QuoteCalculator.jsx:275-276 | doubling the driver percentage doubles the driver cost and leaves the rental unchanged |
| Pricing.DefaultFormExample | frontend/src/components/QuoteCalculator.jsx:13-30 | with the default cost form, 300 km, 3 days and 2 nights, the 8-seat van's breakdown is fuel 16200/7, tolls 2220, lodging 900, rental 5400, driver 1080, and their total |
| Messages.SelectedIndices | frontend/src/components/QuoteCalculator.jsx:328 | the selected positions below n, ascending, and every selected position below n |
| Messages.SelectedAtIndices | frontend/src/components/QuoteCalculator.jsx:328 | the filter keeps exactly the items at the selected positions, in their original order |
| Messages.SelectedEmptyIff | frontend/src/components/QuoteCalculator.jsx:330-333 | nothing is kept exactly when no position of an item is selected |
| Messages.SelectedAll | frontend/src/components/QuoteCalculator.jsx:306-307 | with every position selected, all quotations are kept |
| Messages.SelectedMember | frontend/src/components/QuoteCalculator.jsx:328 | the quotation at a selected position is among the kept ones |
| Messages.NonBlank | frontend/src/components/QuoteCalculator.jsx:324 | a stop is kept exactly when it is not blank, and it is kept untrimmed |
| Messages.ItineraryOneLinePerDay | frontend/src/components/QuoteCalculator.jsx:323-326 | when no date or stop holds a line break, the itinerary block splits back into one `Día i+1 (` line per day |
| Messages.ClientMessageShape | frontend/src/components/QuoteCalculator.jsx:320-360 | the client text is missing exactly when there is no result and empty exactly when nothing is selected |
| Messages.ClientMessageFramed | frontend/src/components/QuoteCalculator.jsx:320-360 | with at least one selected quotation, the client text opens with the title, ends with the closing line and contains the line of every selected quotation |
| Messages.ClientMessageInOrder | frontend/src/components/QuoteCalculator.jsx:320-360 | the whole client text: empty when no index is selected, else title, intro, the line of each selected quotation in ascending index order joined by newlines (unselected ones absent), duration, inclusions and closing line |
| Messages.DurationPlural | frontend/src/components/QuoteCalculator.jsx:349 | `días` for more than one day, `día` for one |
| Messages.RateForClass | frontend/src/components/QuoteCalculator.jsx:377-382 | looking up a class by its name finds that class's daily-rate field |
| Messages.DetailKindsShape | frontend/src/components/QuoteCalculator.jsx:384-405 | a breakdown has seven fixed lines plus one for each positive meals, bus or airport component, opens with the heading and closes with the total |
| Messages.InternalMessageShape | frontend/src/components/QuoteCalculator.jsx:362-428 | the internal text is missing exactly when there is no result and empty exactly when nothing is selected |
| Messages.InternalMessageFramed | frontend/src/components/QuoteCalculator.jsx:362-428 | with at least one selected quotation, the internal text opens with the title, ends with the reminder line and contains the breakdown of every selected quotation |
| Messages.InternalMessageInOrder | frontend/src/components/QuoteCalculator.jsx:362-428 | the whole internal text: empty when no index is selected, else title, intro, the breakdown of each selected quotation in ascending index order joined by `---` lines (unselected ones absent) and the reminder line |
| Calculator.TrimmedStopsClean | frontend/src/components/QuoteCalculator.jsx:164-170 | every collected stop is trimmed and not blank |
| Calculator.TrimmedStopsSound | frontend/src/components/QuoteCalculator.jsx:164-170 | every collected stop is the trimmed text of a non-blank slot of its day |
| Calculator.TrimmedStopsComplete | frontend/src/components/QuoteCalculator.jsx:164-170 | every non-blank slot of a day is collected, trimmed |
| Calculator.TrimmedStopsMembers | frontend/src/components/QuoteCalculator.jsx:164-170 | a stop is collected exactly when some non-blank slot holds it, up to surrounding whitespace |
| Calculator.AllDestinationsMembers | frontend/src/components/QuoteCalculator.jsx:163-170 | across all days, a stop is collected exactly when some non-blank slot of some day holds it |
| Calculator.CollectDestinations | frontend/src/components/QuoteCalculator.jsx:163-170 | the nested loop builds exactly the list of trimmed non-blank stops, day after day |
| Calculator.WithoutIndex | frontend/src/components/QuoteCalculator.jsx:129 | filtering out one position shortens the list by one and shifts later elements down; an out-of-range position changes nothing |
| Calculator.RemoveAll | frontend/src/components/QuoteCalculator.jsx:313 | the selection without the clicked index: exactly the other members |
| Calculator.ToggleFlipsOne | frontend/src/components/QuoteCalculator.jsx:310-317 | a click flips whether the clicked index is selected and leaves every other index as it was |
| Calculator.RemoveAllDistinct | frontend/src/components/QuoteCalculator.jsx:313 | removing an index keeps a selection free of repeats |
| Calculator.ToggleKeepsDistinct | frontend/src/components/QuoteCalculator.jsx:310-317 | toggling keeps a selection free of repeats |
| Calculator.AllIndices | frontend/src/components/QuoteCalculator.jsx:307 | `quotations.map((_, i) => i)` is 0, 1, …, n − 1 |
| Calculator.QuoteCalculator.constructor | frontend/src/components/QuoteCalculator.jsx:9-51 | the dialog opens with one blank day, the default cost form, zero trip length and adjustments, no result and no selection |
| Calculator.QuoteCalculator.AddDay | frontend/src/components/QuoteCalculator.jsx:123-125 | appends a day with no date and two blank stops; keeps the itinerary well formed |
| Calculator.QuoteCalculator.RemoveDay | frontend/src/components/QuoteCalculator.jsx:127-131 | removes the day at the index unless it is the only day; keeps the itinerary well formed |
| Calculator.QuoteCalculator.AddDestination | frontend/src/components/QuoteCalculator.jsx:133-137 | appends a blank stop to the addressed day only |
| Calculator.QuoteCalculator.RemoveDestination | frontend/src/components/QuoteCalculator.jsx:139-145 | removes the stop unless the day has only two; never leaves a day with fewer than two slots |
| Calculator.QuoteCalculator.UpdateDestination | frontend/src/components/QuoteCalculator.jsx:147-151 | changes only the addressed slot of the addressed day |
| Calculator.QuoteCalculator.UpdateDayDate | frontend/src/components/QuoteCalculator.jsx:153-157 | changes only the addressed day's date |
| Calculator.QuoteCalculator.CalculateDistance | frontend/src/components/QuoteCalculator.jsx:159-212 | with fewer than two filled stops nothing changes; otherwise the estimate and the override become (n − 1) × 100, days the number of days and nights one less |
| Calculator.QuoteCalculator.CalculateQuote | frontend/src/components/QuoteCalculator.jsx:215-308 | with a zero estimate nothing changes; otherwise the result is the priced quote, all four quotations are selected, and an unset trip length is filled in |
| Calculator.QuoteCalculator.ToggleVehicleSelection | frontend/src/components/QuoteCalculator.jsx:310-318 | the selection becomes its toggle at the clicked index |
| Calculator.QuoteCalculator.HandleSave | frontend/src/components/QuoteCalculator.jsx:436-457 | nothing without a result; otherwise the saved record carries the dialog's data and both messages rendered from the current selection |
| Calculator.SavedMessagesEmptyIffNoSelection | frontend/src/components/QuoteCalculator.jsx:320-375 | once priced, both saved messages are present and are empty exactly when no vehicle is selected |
| Quotes.PrefixesExclusive | frontend/src/pages/Quotes.jsx:204-209 | no section starts with two of the three legacy prefixes, so each section sets at most one field |
| Quotes.ParseLegacyNotes | frontend/src/pages/Quotes.jsx:196-211 | the loop over the blank-line-separated sections leaves each field as the trimmed remainder of the last section with its prefix |
| Quotes.LastFieldUnmatched | frontend/src/pages/Quotes.jsx:199-202 | a field no section starts with stays `''` |
| Quotes.LastFieldIsLastMatch | frontend/src/pages/Quotes.jsx:203-211 | the field is taken from the last section with its prefix; earlier ones are overwritten |
| Quotes.ParseQuoteData | frontend/src/pages/Quotes.jsx:179-223 | JSON notes give every field with its default; text notes give the three legacy fields and nothing else |
| Quotes.LegacyNotesRoundTrip | frontend/src/pages/Quotes.jsx:196-211 | notes written as `Cliente: `, `WhatsApp Cliente: ` and `WhatsApp Interno: ` sections read back as the three values, provided they hold no line break or surrounding whitespace |
| Quotes.NonBlankStops | frontend/src/pages/Quotes.jsx:298-300 | a stop is in the route exactly when it is in a day and not blank |
| Quotes.DedupSpec | frontend/src/pages/Quotes.jsx:301-302 | removing repeats keeps the same stops, each once, in order of first occurrence |
| Quotes.Truncate | frontend/src/pages/Quotes.jsx:305-314 | a route of at most 50 characters is shown as is; a longer one shows its first 50 characters plus `...`, with the whole route as title |
| Quotes.RouteCellShape | frontend/src/pages/Quotes.jsx:295-318 | the cell joins each stop once with arrows; it shows the destination or `-` when there are no stops, and uncut when the itinerary cannot be read |
| Quotes.FilterQuotesSpec | frontend/src/pages/Quotes.jsx:338-359 | a quote is kept exactly when it matches; the kept quotes keep their order; an empty term keeps all |
| Quotes.SearchIgnoresCase | frontend/src/pages/Quotes.jsx:340 | a term and its lower-case form keep the same quotes |
| Quotes.NotesRoundTrip | frontend/src/pages/Quotes.jsx:228-240 | reading back the saved notes gives the calculator the client, itinerary, distance, costs, result, adjustments, trip length and messages it saved |
| Quotes.ApiDataEndpoints | frontend/src/pages/Quotes.jsx:245-248 | origin and destination are the first and the last stop; start and end dates are the first and last day's dates, or null when empty |
| Quotes.ApiDataOfPricedQuote | frontend/src/pages/Quotes.jsx:250-254 | a priced quote is saved as pending, for one unit, with the first class's capacity and, without an agreed amount, its total |
| Quotes.PricedQuoteStartsWithSmallest | frontend/src/components/QuoteCalculator.jsx:266-271 | the first quotation of every result is the 2-passenger class |
| Quotes.ContractNumberReadsBack | frontend/src/pages/Quotes.jsx:61-69 | the number is ten digits: the two-digit fields of year mod 100, the 1-based month, day, hour and minute, in that order |
| Quotes.ContractNumberInjective | frontend/src/pages/Quotes.jsx:61-69 | two moments of the same century that differ in any field get different numbers |
| Approval.ContractForShape | frontend/src/pages/Quotes.jsx:108-126 | the contract is `Activo`, has at least one unit, an event type and a trimmed non-empty vehicle name, and carries the quote's id, client, dates, route, amount and notes |
| Approval.QuoteApproval.constructor | frontend/src/pages/Quotes.jsx:17-23 | no quote open, no status chosen, both dialogs closed, no vehicle name |
| Approval.QuoteApproval.HandleView | frontend/src/pages/Quotes.jsx:41-45 | opens the quote with its status, or `Pendiente`, preselected |
| Approval.QuoteApproval.HandleStatusChange | frontend/src/pages/Quotes.jsx:71-100 | choosing `Aprobada` for a quote not yet approved opens the vehicle dialog and sends nothing; any other choice sends the quote with that status and closes the dialog once saved |
| Approval.QuoteApproval.HandleGenerateContract | frontend/src/pages/Quotes.jsx:102-159 | a blank vehicle name changes nothing; otherwise the contract is sent, and once it is created the quote is sent as `Aprobada` with the calendar event id; when that succeeds the dialogs close |
| Approval.QuoteApproval.CloseAfterApproval | frontend/src/pages/Quotes.jsx:150-154 | after a stored approval the vehicle dialog and the detail dialog close and the vehicle name is cleared; after a failed update nothing changes |
| Payments.DatePartOfDate | frontend/src/pages/Payments.jsx:116 | `split('T')[0]` keeps a date and drops a following time |
| Payments.NewFormIsEmptyEdit | frontend/src/pages/Payments.jsx:93-119 | a new payment's form is the edit form of an empty payment except for the source type: quote where the edit form picks contract |
| Payments.SubmitShape | frontend/src/pages/Payments.jsx:127-137 | a submitted payment is `Completado`, belongs to exactly the form's source under the form's id, carries the parsed amount, and sends an empty account as null |
| Payments.SubmitThenEdit | frontend/src/pages/Payments.jsx:108-137 | with a back end that stores the columns the page sends, editing a submitted payment gives back its source type, id, date, account, invoice, type and method |
| Payments.ControllerLosesQuoteAndAccount | backend/controllers/paymentsController.js:46-60 | with the payments controller as written (no `quote_id`, the account read from `payment_account_id`), an edited payment reopens with no account, and a quote payment reopens as a contract payment with an empty id |
| Payments.EditThenSubmit | frontend/src/pages/Payments.jsx:108-137 | submitting an edited payment with one source id sends back that source and id, type, method, account, invoice and date part |
| Payments.SwitchSource | frontend/src/pages/Payments.jsx:356-366 | choosing a source type clears the chosen id and changes nothing else |
| Payments.SwitchedSubmit | frontend/src/pages/Payments.jsx:128-129 | after a switch the payment is sent with an empty id for the new source only |
| Payments.SourceOptions | frontend/src/pages/Payments.jsx:304-316 | one option per quote, or per contract, in list order, valued by its id and labelled by its label |
| Payments.SourceLabels | frontend/src/pages/Payments.jsx:306-314 | a quote label starts with `#id - ` and shows the client and the amount; a contract label starts with its number |

## Left out

- Network calls, toasts, `alert`, `window.confirm` and the clipboard are left out. The API's answers are parameters: whether the update succeeded, and whether the contract was created with a calendar event id. Reloading the lists is left out.
- Receipt generation (`generateReceipt`, PDF drawing) is left out.
- The client list is left out. Sorting and selecting clients uses locale comparison and shapes the display name.
- `Intl.NumberFormat` and `toLocaleDateString` are locale library calls. The currency formatter is a parameter.
- The Google Maps call is not implemented in the source; the model keeps only its placeholder estimate.
- `parseFloat`/`parseInt` are a parameter. The model does not fix how arbitrary text parses.
- `JSON.parse`/`JSON.stringify` are left out; the parsed records are modelled directly.
- Notes that parse as JSON but not as an object are not modelled. Null notes are not modelled either.
- An itinerary is modelled as valid, missing or unreadable.
- The clock is a parameter: the ISO timestamp for the payment date, and the date and time fields for the contract number.
- React effects that load an edited quote, reset the dialogs and fetch lists are left out.
- The `calculating` flag of `distances` is left out.
- Nested arrays are copied shallowly, so editing a day mutates the previous state's day in place. This aliasing is not modelled; the editors are modelled on the state's value.
- `handleGenerateContract` parses the notes without using the result, so the model omits that call.
- Pricing.CalculateQuote: requires a fuel efficiency other than 0. IEEE infinities are not modelled; `NaN` is.
- Calculator.QuoteCalculator.CalculateQuote: requires a fuel efficiency that does not parse to 0, as Pricing.CalculateQuote does; with 0 the page would divide by zero and show `Infinity` or `NaN` amounts, which are not modelled.
- Pricing.QuoteDays: trip days and nights are whole numbers. `parseInt` of a fractional text is not modelled.
- Numerals.ToFixed2: rounds half up on exact reals. Binary floating-point representation errors in `toFixed` are not modelled.
- Quotes.Truncate: counts code points; JavaScript counts UTF-16 units. Stops outside the Basic Multilingual Plane cut differently.
- Text.ToLower: lowers only ASCII and Latin-1 capitals; other scripts are unchanged in the model.
- Quotes.LegacyNotesRoundTrip: holds only for values without line breaks. The legacy parser cuts a value at its first blank line, and a later section starting with `Cliente:` (as in the internal message) overwrites the client name.
- Messages.RateForClass: any other vehicle type name renders as `undefined`. Only the four class names occur.
- Calculator.SaveId: an editing id of 0 is treated as absent (`|| null`).
- Payments.SubmitThenEdit: the amount is left out of the round trip. The record stores a number, and its text in the edit form depends on number formatting.
- Payments.SubmitThenEdit: assumes a back end that stores the columns the page sends. The payments controller (backend/controllers/paymentsController.js:46-60 and 74-90) never writes `quote_id` and reads `payment_account_id` where the page sends `account_id`; with it the round trip fails (Payments.ControllerLosesQuoteAndAccount and the finding below). The controller itself is not part of this model.

## Findings

| source | as written | input that shows it | evidently intended | confidence | as-written member | corrected member |
|---|---|---|---|---|---|---|
| backend/controllers/paymentsController.js:46-60 | the insert (and the update at lines 74-90) writes neither `quote_id` nor the `account_id` that frontend/src/pages/Payments.jsx:127-137 sends; it reads `payment_account_id` instead | a payment for quote `"7"` with account `"3"`: the stored row has `quote_id` and `payment_account_id` null, so editing it shows a contract payment with no id and no account | store `quote_id` and the account the page sends, so that editing reopens the submitted form | not executed | Payments.ControllerLosesQuoteAndAccount | Payments.SubmitThenEdit |
