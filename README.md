# esther-house ticketing core, in Dafny

The esther-house site is a Next.js front end for an event venue. Its tickets
are sold through the Infomaniak e-ticketing shop API. This project models
the logic of that site that decides things, and proves what it promises:

- the shopping cart (`contexts/CartContext.tsx`). It is a class holding the
  cart lines and the localStorage slot. Its add, remove, update and clear
  operations are specified by pure updater functions, and the save effect
  runs after every change.
- the order route `POST /api/orders/create`. The cart is grouped by event
  and the group that `Object.keys` lists first is chosen. The order is
  created and the tickets are attached. Then comes either the free path
  (a "gratuit" payment operation, best effort) or the paid path (three
  payment endpoints tried in order, then the payment URL fallback chain and
  the e-mail cookie). Every provider call is answered by a function
  parameter `provider: ProviderCall -> Outcome`. The route returns its reply
  and the list of calls it made.
- the ticket selector and the booking panel of the event page
  (`TicketSelector.tsx`, `BookTicketButton.tsx`).
- the mapping of provider events (`lib/infomaniak.ts`): the category
  classifier, the lowest price, `mapEventToApp` and the `getEvents` query
  string.
- the send-tickets route, the locale detection, the maintenance-mode
  middleware, the home carousel and the maintenance countdown.

Modules follow the source files:

- `CartStore`, `OrderCreate` (with `OrderCreateProperties`),
  `TicketSelector`, `BookTicketButton`, `Infomaniak`, `SendTickets`,
  `LocaleDetection`, `Middleware`, `HeroCarousel` and `Maintenance` model the
  source files.
- `ProviderTypes` and `PriceList` hold the shapes of `types/infomaniak.ts`
  and the price list that `flatMap` builds.
- `JsValues` models JSON values, JavaScript truthiness, property access,
  ``String(v)`` and `parseInt`.
- `Http` models the outcome of a `fetch` call.
- `Text` models case mapping, `split`/`join`, decimal digits and `padStart`.
- `Uri` models `encodeURIComponent` and the URLSearchParams serializer.
- `Wrappers` and `Maps` are small helpers.

Conventions:

- Prices are integer centimes and all JSON numbers are integers.
- Strings are sequences of characters; UTF-16 code units and surrogate pairs are not modelled.
- Clocks, the browser's navigator, environment variables and the provider's
  answers are all parameters.

Where the code and the obvious reading of it differ, the model follows the code:

- An ok payment answer whose body is not JSON, or is JSON `null`, makes
  `paymentResponse.json()` or the property read throw. The outer catch then
  returns 500 "Internal server error", not a warning (`OrderCreate.PaymentStep`).
- An ok attach answer whose body is not JSON throws inside the attach `try`.
  The result is a 500 "Error adding tickets to order", although the attach
  itself succeeded (`OrderCreate.AttachStep`).
- The order route sends the lines of the event `Object.keys` lists first.
  Integer-like event ids come first, in numeric order, so this is not
  always the event of the first cart line. The free-or-paid decision still
  uses the total of the whole cart (`OrderCreateProperties.TotalCoversTheWholeCart`).
- send-tickets appends the mode to the endpoint only for a truthy mode other
  than `'pdf'`. `null`, `""`, `0` and `false` select the base endpoint like
  `'pdf'` (`SendTickets.ModeSelectsEndpoint`).
- The middleware takes any two lower-case ASCII letters as the locale, so
  `/de/x` redirects to `/de/maintenance` (`Middleware.LocaleExamples`).
- `removeItem` and `updateQuantity` key on the category only, while
  `addItem` keys on the event and the category. Removing one event's
  category therefore removes the other event's line too
  (`CartStore.RemoveIgnoresEvent`).

## Model

| member | source | states |
|---|---|---|
| CartStore.FindIndex | contexts/CartContext.tsx:52-54 | the first line with the same event and category, or -1 exactly when no line matches |
| CartStore.AddMergesExistingLine | contexts/CartContext.tsx:52-60 | with a matching line, addItem adds the quantity to that line; the length and every other line stay as they were |
| CartStore.AddAppendsNewLine | contexts/CartContext.tsx:60-63 | without a matching line, addItem appends exactly `{...item, quantity}` after the unchanged lines |
| CartStore.AddKeepsLinesUnique | contexts/CartContext.tsx:52-63 | addItem keeps at most one line per (eventId, categoryId) |
| CartStore.TotalItemsAfterAdd | contexts/CartContext.tsx:90-92 | after addItem(_, q) getTotalItems has grown by exactly q |
| CartStore.TotalPriceAfterAdd | contexts/CartContext.tsx:94-96 | after addItem(_, q) getTotalPrice has grown by q times the line's price |
| CartStore.AddTwiceSumsQuantities | contexts/CartContext.tsx:52-63 | adding q1 and then q2 of a line is adding q1 + q2 |
| CartStore.SharedEntryAddTwiceDoubles | contexts/CartContext.tsx:58-59 | the updater as written, called twice on one previous state, grows the line and the item total by 2q |
| CartStore.SharedEntryAddCounterexample | contexts/CartContext.tsx:58-59 | 2 tickets plus 1 gives 4 under the double call, and 3 with the intended updater |
| CartStore.RemoveDropsCategory | contexts/CartContext.tsx:68-70 | no line of the removed category is left, whatever its event |
| CartStore.RemoveKeepsOthers | contexts/CartContext.tsx:69 | every line of another category is kept, at its position among the kept lines |
| CartStore.RemovedLength | contexts/CartContext.tsx:69 | the result has exactly as many lines as the cart has lines of other categories |
| CartStore.RemoveAbsentIsNoop | contexts/CartContext.tsx:69 | removing an absent category leaves the cart unchanged |
| CartStore.RemoveIgnoresEvent | contexts/CartContext.tsx:68-70 | two events' lines of one category are two lines for addItem, and removeItem drops both |
| CartStore.UpdateSetsQuantity | contexts/CartContext.tsx:78-82 | a positive update sets the quantity of every line of the category and changes nothing else |
| CartStore.ReloadRestoresItems | contexts/CartContext.tsx:34-48 | loading the stored snapshot gives back the saved lines |
| CartStore.ClearedSlotLoadsEmpty | contexts/CartContext.tsx:85-88 | the "[]" left after clearCart loads as an empty cart, like a removed slot |
| CartStore.Cart.Mount | contexts/CartContext.tsx:31-48 | mounting restores the stored lines (none for a missing or unreadable slot) and the slot then holds the state |
| CartStore.Cart.Save | contexts/CartContext.tsx:46-48 | the slot holds the snapshot of the unchanged lines |
| CartStore.Cart.AddItem | contexts/CartContext.tsx:50-66 | the lines become the addItem updater's result and the slot their snapshot |
| CartStore.Cart.RemoveItem | contexts/CartContext.tsx:68-70 | the lines become the filtered list and the slot their snapshot |
| CartStore.Cart.UpdateQuantity | contexts/CartContext.tsx:72-83 | a non-positive quantity acts as removeItem, a positive one as the map update; the slot is kept in step |
| CartStore.Cart.ClearCart | contexts/CartContext.tsx:85-88 | the lines are empty and, once the save effect has run, the slot holds "[]" |
| OrderCreate.EventKeys | app/api/orders/create/route.ts:50-56 | a non-empty cart has at least one group |
| OrderCreate.EventKeysDistinct | app/api/orders/create/route.ts:50-56 | the group keys are distinct |
| OrderCreate.EventKeysMembers | app/api/orders/create/route.ts:50-56 | a key is a group exactly when some cart line has that event id |
| OrderCreate.ItemsOfEvent | app/api/orders/create/route.ts:51-54 | a group is no longer than the cart |
| OrderCreate.ItemsOfEventMembers | app/api/orders/create/route.ts:51-54 | a group holds lines of its event only, taken from the cart, and is empty for an event with no line |
| OrderCreate.ItemInItsGroup | app/api/orders/create/route.ts:50-56 | a line lies in the group of an event exactly when it carries that event id |
| OrderCreate.GroupsPartitionCart | app/api/orders/create/route.ts:50-56 | the group sizes add up to the cart length: every line is in exactly one group |
| OrderCreate.GroupedSnoc | app/api/orders/create/route.ts:51-54 | one step of the reduce extends the grouping of a prefix to the grouping of the longer prefix |
| OrderCreate.GroupByEvent | app/api/orders/create/route.ts:50-56 | the reduce's loop builds exactly the keys in insertion order and each key's lines in cart order |
| OrderCreate.LeastIndexKey | app/api/orders/create/route.ts:60 | the integer-like key of least value, or none exactly when no key is integer-like |
| OrderCreate.FirstOwnKey | app/api/orders/create/route.ts:60 | `Object.keys(...)[0]`: the least integer-like key if there is one, else the first inserted key |
| OrderCreate.FirstOwnKeyPrefersLeastNumber | app/api/orders/create/route.ts:60 | of keys inserted "12" then "7", "7" is listed first |
| OrderCreate.EventKeysStartWithFirstItem | app/api/orders/create/route.ts:50-56 | the first inserted key is the event of the first cart line |
| OrderCreate.EventKeyWithoutNumericIds | app/api/orders/create/route.ts:60-61 | without integer-like event ids, the chosen event is that of the first cart line |
| OrderCreate.LinesOrderTheGroup | app/api/orders/create/route.ts:74-77 | the ticket lines order exactly as many tickets as the group's item total, and line k carries the category and the quantity of cart line k |
| OrderCreate.OrderIdOf | app/api/orders/create/route.ts:122 | a number answer is the id; otherwise `data.id` when truthy, then `id` |
| OrderCreate.CreateStep | app/api/orders/create/route.ts:108-130 | a not-ok answer is rejected with its status and text; a thrown fetch or an unreadable or null body throws; a falsy id is refused |
| OrderCreate.AttachStep | app/api/orders/create/route.ts:157-175 | a not-ok answer is rejected with its status and text; tickets are added only on an ok JSON answer |
| OrderCreate.PaymentUrlOf | app/api/orders/create/route.ts:304 | `payment_url`, then `data.payment_url`, then `url`, each taken when truthy |
| OrderCreate.PaymentStep | app/api/orders/create/route.ts:301-306 | an unreadable or null body throws; otherwise a truthy URL from the chain, or no URL |
| OrderCreate.TestName | app/api/orders/create/route.ts:200 | a mode matches exactly when its name is a string whose lower case contains "gratuit"; a non-null name that is not a string throws |
| OrderCreate.FirstFreeFrom | app/api/orders/create/route.ts:200 | Array.find: the first matching mode, none when no mode matches, or a throw |
| OrderCreate.FreeModeOf | app/api/orders/create/route.ts:195-200 | not listed on a not-ok answer; a thrown call or a body that is not an array throws; a found mode comes from an ok array answer |
| OrderCreate.FinishFree | app/api/orders/create/route.ts:181-237 | the free path's calls and reply, as the FreeOutcome relation states them |
| OrderCreate.TryPaymentEndpoints | app/api/orders/create/route.ts:250-284 | the endpoints are tried in order with one payload, stopping at the first ok answer, which is returned |
| OrderCreate.FinishPaid | app/api/orders/create/route.ts:244-332 | the paid path's calls and reply, as the PaidOutcome relation states them |
| OrderCreate.Submit | app/api/orders/create/route.ts:96-332 | create, attach, then the free or the paid path chosen by the total, as SubmitOutcome states |
| OrderCreate.Post | app/api/orders/create/route.ts:37-341 | the whole route: a 400 without a provider call for a missing or empty cart, a 500 for a thrown `request.json()` or a `null` body, otherwise Submit (any other non-object body has no `items` and gets the 400) |
| OrderCreateProperties.PaidPathReplies | app/api/orders/create/route.ts:286-332 | a paid reply names the order and the e-mail and is not free; a warning comes without a URL or cookie and with a confirmation URL without the e-mail, and it is the init-failure warning exactly when all three endpoints failed; a cookie is the order's e-mail cookie and comes exactly with a truthy URL; the endpoints are called in the listed order |
| OrderCreateProperties.FreePathReply | app/api/orders/create/route.ts:231-237 | the free reply is `isFree`, has no payment URL, cookie or warning, and its confirmation URL carries the encoded e-mail |
| OrderCreateProperties.CookieOnlyWithPaymentUrl | app/api/orders/create/route.ts:319-330 | the e-mail cookie is set exactly when a payment URL is returned |
| OrderCreateProperties.CallsAreBounded | app/api/orders/create/route.ts:96-284 | at most five calls, and anything after the attach call follows a successful attach |
| OrderCreateProperties.PayloadsCarryChosenLines | app/api/orders/create/route.ts:74-140 | the create and attach payloads carry the same lines, those of the chosen event |
| OrderCreateProperties.RejectedCreateStops | app/api/orders/create/route.ts:108-116 | a not-ok create answer ends the route after one call, with the provider's status and text |
| OrderCreateProperties.FreeReplyIgnoresFreeCalls | app/api/orders/create/route.ts:185-237 | on a free cart, providers that answer create and attach alike give the same reply, whatever they answer the free-mode calls |
| OrderCreateProperties.FreeOrderConfirmsWithEmail | app/api/orders/create/route.ts:178-237 | a free reply comes from a cart of total 0 and confirms with the customer's e-mail |
| OrderCreateProperties.UnpaidReplyOmitsEmail | app/api/orders/create/route.ts:286-316 | a reply with a warning is paid, has no URL or cookie, and its confirmation URL has no e-mail; it comes after create, attach and one to three payment calls in the listed order, and it is the init-failure warning exactly when all three failed |
| OrderCreateProperties.MixedCartKeys | app/api/orders/create/route.ts:50-56 | lines of events "2" then "1" give the keys ["2", "1"] in insertion order |
| OrderCreateProperties.MixedCartChoosesEventOne | app/api/orders/create/route.ts:60 | for them, Object.keys lists "1" first |
| OrderCreateProperties.MixedCartGroup | app/api/orders/create/route.ts:61 | the group of "1" is the free line |
| OrderCreateProperties.MixedCartTotal | app/api/orders/create/route.ts:178 | the whole cart costs 5000 centimes |
| OrderCreateProperties.TotalCoversTheWholeCart | app/api/orders/create/route.ts:178-181 | the free line is ordered alone, yet the total that picks the path is that of the whole cart |
| OrderCreateProperties.CreateCallSendsEventNumber | app/api/orders/create/route.ts:80 | `parseInt` of the event id sends the number the id spells |
| JsValues.Or | app/api/orders/create/route.ts:122 | `a \|\| b` is truthy exactly when one side is, and is `a` when `a` is truthy |
| JsValues.OptProp | app/api/orders/create/route.ts:122 | `v?.key` is undefined on null or undefined |
| JsValues.ParseIntOfDigits | app/api/orders/create/route.ts:80 | parseInt of a digit string is its value |
| JsValues.ParseIntOfDecimal | app/api/orders/create/route.ts:80 | parseInt reads back the decimal text of any integer |
| Uri.EncodeUriComponentIsSafe | app/api/orders/create/route.ts:236 | the encoded e-mail holds only unreserved characters and percent escapes |
| Uri.EncodeUriComponentOfUnreserved | app/api/orders/create/route.ts:236 | an e-mail of unreserved characters is sent as it is |
| TicketSelector.QuantityChangeClamps | components/events/TicketSelector.tsx:20-26 | the changed quantity is old + delta when that is not negative and 0 when it is, a missing entry counting 0; the category gains an entry and other categories are untouched |
| TicketSelector.QuantityChangeKeepsNonNegative | components/events/TicketSelector.tsx:20-26 | no quantity becomes negative |
| TicketSelector.ButtonsKeepWithinSeats | components/events/TicketSelector.tsx:149-167 | through the "+" and "-" buttons a quantity stays within [0, free_seats] |
| TicketSelector.SoldOutChangesNothing | components/events/TicketSelector.tsx:18 | on a sold-out event the buttons change nothing |
| TicketSelector.SumValuesAfterChange | components/events/TicketSelector.tsx:62-64 | getTotalSelected moves by exactly the change of the one quantity |
| TicketSelector.SumValuesPositive | components/events/TicketSelector.tsx:62-64 | with no negative quantity the total is at least 0, and positive exactly when some quantity is |
| TicketSelector.ZoneLinesArePositive | components/events/TicketSelector.tsx:33-35 | every line added for a zone carries the positive stored quantity of its category |
| TicketSelector.PositiveCategoryHasLine | components/events/TicketSelector.tsx:33-35 | every category with a positive quantity is added |
| TicketSelector.AddedAllTotalItems | components/events/TicketSelector.tsx:36-47 | the cart's item total grows by exactly the sum of the added quantities, which is totalAdded |
| TicketSelector.SelectorPriceIsLinesPrice | components/events/TicketSelector.tsx:66-75 | the displayed total price is the price of the lines "add to cart" adds |
| TicketSelector.ZonePriceIsLinesPrice | components/events/TicketSelector.tsx:68-73 | the same, for one zone |
| TicketSelector.Selector.constructor | components/events/TicketSelector.tsx:15-16 | no quantity is selected and no success message is shown |
| TicketSelector.Selector.ChangeQuantity | components/events/TicketSelector.tsx:20-26 | the quantities become the clamped update |
| TicketSelector.Selector.AddZone | components/events/TicketSelector.tsx:33-49 | the cart receives one addItem per positive category of the zone, in order, and the count added is returned |
| TicketSelector.Selector.AddToCart | components/events/TicketSelector.tsx:28-60 | one addItem per positive category, zone by zone; totalAdded is their sum; the quantities are reset and the message shown exactly when it is positive |
| TicketSelector.Selector.TotalPrice | components/events/TicketSelector.tsx:66-75 | the loop's total is the sum of quantity times amount over all categories |
| BookTicketButton.Fixed2 | components/events/BookTicketButton.tsx:28 | toFixed(2) has a point before two decimals and a minus sign exactly for a negative amount |
| BookTicketButton.Fixed2RoundTrip | components/events/BookTicketButton.tsx:28 | the toFixed(2) text reads back as the same amount in centimes |
| BookTicketButton.PriceRangeLabel | components/events/BookTicketButton.tsx:17-31 | there is no range exactly when the zones are absent or empty |
| BookTicketButton.PriceRangeIsTight | components/events/BookTicketButton.tsx:20-30 | with some category: min <= max, both are category amounts, every amount lies between them, and a single price is shown exactly when they are equal |
| BookTicketButton.NoCategoryShowsInfinities | components/events/BookTicketButton.tsx:20-30 | zones without categories show "CHF Infinity - -Infinity" |
| BookTicketButton.IntendedPriceRangeLabel | components/events/BookTicketButton.tsx:17-31 | the range as intended: none without a price; the ends shown are finite |
| BookTicketButton.IntendedPriceRangeAgrees | components/events/BookTicketButton.tsx:17-31 | where there is a price the intended and the written range agree |
| BookTicketButton.ZoneSeatsPositive | components/events/BookTicketButton.tsx:38-40 | a zone's seat sum is at least 0, and positive exactly when some category has a free seat |
| BookTicketButton.AvailableSeatsShownIffFreeSeat | components/events/BookTicketButton.tsx:34-42 | getTotalAvailableSeats is at least 0, and positive exactly when some category has a free seat |
| BookTicketButton.BookingHref | components/events/BookTicketButton.tsx:106 | the link is `/events/{id}/book` |
| BookTicketButton.PriceRowReadsBack | components/events/BookTicketButton.tsx:138-149 | each category row shows its name and `CHF ` followed by a price text that reads back as the category's amount |
| BookTicketButton.Render | components/events/BookTicketButton.tsx:14-158 | a sold-out notice exactly for a full event; otherwise the booking link, the range text exactly when there is a range label, the seat total exactly when it is positive, and for each zone a block with its name, `#` and its colour, and its price rows |
| PriceList.AmountInAllAmounts | components/events/BookTicketButton.tsx:20-22 | every category amount is in the flattened price list |
| PriceList.AllAmountsFromCategories | components/events/BookTicketButton.tsx:20-22 | every price in the list is some category's amount |
| PriceList.AllAmountsEmpty | components/events/BookTicketButton.tsx:20-22 | the list is empty exactly when no zone has a category |
| PriceList.MathMin | components/events/BookTicketButton.tsx:24 | Math.min: +Infinity exactly for no argument, else the least argument |
| PriceList.MathMax | components/events/BookTicketButton.tsx:25 | Math.max: -Infinity exactly for no argument, else the greatest argument |
| Infomaniak.MapCategory | lib/infomaniak.ts:99-113 | concert exactly when a concert word occurs in the lower-cased text; theatre exactly when a theatre word does and no concert word; 'autre' exactly when no concert, theatre or exposition word does |
| Infomaniak.MapCategoryIgnoresCase | lib/infomaniak.ts:100 | lower-casing the category first changes nothing |
| Infomaniak.MapCategoryPriority | lib/infomaniak.ts:102-112 | more text can only raise the category's rank |
| Infomaniak.JazzSpectacleIsConcert | lib/infomaniak.ts:102-107 | "Jazz spectacle" is a concert |
| Infomaniak.LowestPrice | lib/infomaniak.ts:118-126 | 0 for missing or empty zones, +Infinity for zones without categories |
| Infomaniak.LowestPriceIsLeast | lib/infomaniak.ts:121-125 | with some category, the lowest price is one category's amount and at most every amount |
| Infomaniak.VisibleProperties | lib/infomaniak.ts:133-140 | a name is kept exactly when some visible property has it and it is not `__proto__`, whose assignment to `{}` runs the inherited setter and stores nothing; the value is that of the last visible property of the name |
| Infomaniak.KeptPartsMembers | lib/infomaniak.ts:143-148 | `.filter(Boolean)` keeps the value of every non-blank part and nothing else |
| Infomaniak.KeptPartsAppend | lib/infomaniak.ts:143-148 | the filter keeps the order: filtering a concatenation is concatenating the filtered halves |
| Infomaniak.KeptPartsSnoc | lib/infomaniak.ts:143-148 | one more part adds its value at the end exactly when it is not blank |
| Infomaniak.AddressLineRule | lib/infomaniak.ts:143-163 | for every address, the address line is the non-blank parts among street, number, zipcode and city, in that order, joined by ", " |
| Infomaniak.AddressLineShapes | lib/infomaniak.ts:143-163 | example: a full address, one without street and number, and an empty one |
| Infomaniak.Coordinates | lib/infomaniak.ts:166-171 | coordinates are present exactly when latitude and longitude are both non-zero, and then they are those two |
| Infomaniak.MapEventToApp | lib/infomaniak.ts:131-177 | every field of the mapped event: the date and image fallback chains, the lowest price only with zones, the venue, the ticket URL, and the visible properties, without `__proto__`, or none when no other visible name exists |
| Infomaniak.AppendedEntry | lib/infomaniak.ts:59-69 | each parameter is stored exactly when its test passes, with its value |
| Infomaniak.AppendedIncreasing | lib/infomaniak.ts:59-69 | the appended names keep the fixed order |
| Infomaniak.CandidatesAppended | lib/infomaniak.ts:61-69 | the parameters are checked in the order ids, search, limit, offset, withQuota, withProperties, sort |
| Infomaniak.QueryPairsContents | lib/infomaniak.ts:59-69 | no pair without parameters; falsy ids, search, limit, offset and sort are skipped; booleans are '1' or '0' |
| Infomaniak.EventsPath | lib/infomaniak.ts:59-72 | the path is `/events`, followed by `?` and the query only when there is a pair |
| Uri.FormEncodeHasNoDelimiters | lib/infomaniak.ts:71 | an encoded name or value holds no '&' and no '=' |
| Uri.SerializeQuery | lib/infomaniak.ts:71 | the query text is empty exactly when there is no pair |
| Uri.SerializeQuerySplits | lib/infomaniak.ts:71 | the query text splits at '&' back into its encoded pairs |
| Uri.SerializeIsJoin | lib/infomaniak.ts:71 | the query text is the encoded pairs joined with '&' |
| Text.LowerIdempotent | lib/infomaniak.ts:100 | lower-casing twice is lower-casing once |
| Text.LowerAppend | lib/infomaniak.ts:100-112 | lower-casing a concatenation is concatenating the lower-cased parts, so a keyword found in one part is found in the whole |
| SendTickets.CallOnlyWhenComplete | app/api/orders/send-tickets/route.ts:14-23 | the provider is called exactly for an object body with a truthy orderId and email; a 400 otherwise, a 500 for a body that is not JSON or is null |
| SendTickets.DefaultModeIsPdf | app/api/orders/send-tickets/route.ts:15 | no mode, like 'pdf', targets `/order/{id}/send-tickets` |
| SendTickets.ModeSelectsEndpoint | app/api/orders/send-tickets/route.ts:28-30 | a truthy mode other than 'pdf' is appended as a last segment; any other mode targets the base endpoint |
| SendTickets.EndpointUnderOrder | app/api/orders/send-tickets/route.ts:28-30 | every endpoint lies under the order's send-tickets path |
| SendTickets.ReplyFollowsAnswer | app/api/orders/send-tickets/route.ts:35-67 | the body sent is `{email}`; a not-ok answer gives its status and text, an ok one a success naming the e-mail, a thrown call a 500 |
| SendTickets.SentMessageNamesEmail | app/api/orders/send-tickets/route.ts:64-67 | the success message contains the e-mail |
| SendTickets.SuccessStatusOnlyWhenSent | app/api/orders/send-tickets/route.ts:50-67 | a 2xx status is returned exactly when the tickets were sent |
| SendTickets.ReplyDependsOnlyOnTheCall | app/api/orders/send-tickets/route.ts:35-67 | the reply depends on the provider only through its answer to the one call |
| LocaleDetection.ListedCodesAreCapitalPairs | lib/locale-detection.ts:6-51 | every listed code is two capital letters |
| LocaleDetection.FrancophoneCodesHaveTwoCharacters | lib/locale-detection.ts:85-87 | only two-character codes are francophone |
| LocaleDetection.FrancophoneIgnoresCase | lib/locale-detection.ts:85-87 | a code, its lower case and its upper case are alike francophone or not |
| LocaleDetection.DuplicateMaliIsHarmless | lib/locale-detection.ts:22-47 | 'ML' is listed twice, and the list without the second one has the same members |
| LocaleDetection.SomeFrancophoneCountries | lib/locale-detection.ts:85-87 | example: "fr" and "Ch" are francophone |
| LocaleDetection.UnitedStatesIsNotFrancophone | lib/locale-detection.ts:85-87 | example: "us" is not francophone |
| LocaleDetection.ThreeLetterCodeIsNotFrancophone | lib/locale-detection.ts:85-87 | example: "FRA" is not francophone |
| LocaleDetection.BrowserLocaleRule | lib/locale-detection.ts:113-120 | English without a window; otherwise French exactly when the browser language starts with "fr" |
| LocaleDetection.BrowserLanguageFallback | lib/locale-detection.ts:118 | the language is `language` when non-empty, then `languages[0]`, then 'en'; it is never empty |
| LocaleDetection.BrowserPrefixIsCaseSensitive | lib/locale-detection.ts:118-119 | "FR-fr" gives English, "fr-CH" French, and an empty `language` defers to `languages` |
| LocaleDetection.BrowserLocaleIsStable | lib/locale-detection.ts:113-120 | a browser whose language is the detected locale's tag ("fr" or "en") is detected as that locale again |
| LocaleDetection.RegionSubtagKeepsLocale | lib/locale-detection.ts:118-119 | for a language of two or more characters, appending a region subtag keeps the locale, whatever `languages` holds |
| LocaleDetection.GeolocationRule | lib/locale-detection.ts:93-107 | a non-empty string code decides (French exactly when francophone); a missing or non-string code defers to the browser |
| Text.UpperAppend | components/home/hero-carousel.tsx:66-68 | upper-casing a concatenation is concatenating the upper-cased parts, so the upper-cased lines join back to the upper-cased title |
| Text.UpperOfLower | lib/locale-detection.ts:86 | upper-casing the lower case is upper-casing |
| Middleware.LocaleOf | middleware.ts:23-24 | the locale is always two lower-case letters |
| Middleware.ApiPassesThrough | middleware.ts:16-18 | an `/api/` path goes to the locale routing whatever the flag |
| Middleware.NoRedirectOutsideMaintenance | middleware.ts:21-33 | with maintenance off, nothing is redirected |
| Middleware.RedirectRule | middleware.ts:16-29 | a redirect happens exactly in maintenance mode, off `/api/` and off any `/maintenance` path, to the maintenance page of the path's locale |
| Middleware.LocaleExamples | middleware.ts:23-24 | example: "/fr/x", "/fr" and "/de/events" keep their locale; "/fra", "/" and "/FR/x" give "en" |
| Middleware.MaintenancePathKeepsLocale | middleware.ts:28 | the maintenance page of a locale lies under that locale and contains "/maintenance" |
| Middleware.RedirectIsFinal | middleware.ts:27-28 | the redirect target is not redirected again and keeps the locale |
| HeroCarousel.Capitalize | components/home/hero-carousel.tsx:28 | the first character is upper-cased and the rest is kept |
| HeroCarousel.CarouselEvents | components/home/hero-carousel.tsx:26-37 | at most four slides, the i-th built from the i-th event |
| HeroCarousel.SlidesFollowEvents | components/home/hero-carousel.tsx:26-36 | each slide carries its event's id and title and its slide number |
| HeroCarousel.NoEventsNoSlides | components/home/hero-carousel.tsx:48-50 | there are no slides exactly when there are no events |
| HeroCarousel.ImageFallback | components/home/hero-carousel.tsx:34 | a missing or empty image shows the default picture |
| HeroCarousel.SlideNumberValue | components/home/hero-carousel.tsx:36 | the slide number has two characters, reads `i + 1`, and starts with '0' below ten |
| HeroCarousel.SlideNumbers | components/home/hero-carousel.tsx:36 | the four slides are numbered "01" to "04" |
| HeroCarousel.ArtistIsCapitalizedCategory | components/home/hero-carousel.tsx:28 | `artist` is the category with its first character upper-cased |
| HeroCarousel.ConcertIsCapitalized | components/home/hero-carousel.tsx:28 | "concert" shows as "Concert" |
| HeroCarousel.TitleLineCount | components/home/hero-carousel.tsx:64-69 | one line for up to two words, two lines for three words, three lines for four or more |
| HeroCarousel.TitleLinesJoin | components/home/hero-carousel.tsx:64-69 | the lines joined with spaces are the upper-cased title |
| HeroCarousel.TwoWordsOneLine | components/home/hero-carousel.tsx:66 | two words stay on one line |
| Text.JoinSplit | components/home/hero-carousel.tsx:65 | joining the pieces of a split with the separator gives back the text |
| HeroCarousel.StepInRange | components/home/hero-carousel.tsx:43 | the timer's next index lies in [0, n) |
| HeroCarousel.AdvanceByIsShift | components/home/hero-carousel.tsx:42-44 | k ticks move the index k slides on, modulo the slide count |
| HeroCarousel.CycleVisitsEverySlide | components/home/hero-carousel.tsx:42-44 | every slide is reached from the first, and n ticks come back to the start |
| HeroCarousel.Carousel.constructor | components/home/hero-carousel.tsx:23-37 | the slides are built from the events and the index starts at 0 |
| HeroCarousel.Carousel.Advance | components/home/hero-carousel.tsx:42-44 | the index becomes (prev + 1) % n, so it stays on a slide |
| HeroCarousel.Carousel.GoToSlide | components/home/hero-carousel.tsx:52-54 | the index becomes index % n, which is the index itself for a dot |
| HeroCarousel.Carousel.CurrentEvent | components/home/hero-carousel.tsx:61 | the current event is one of the slides |
| HeroCarousel.Carousel.CurrentHref | components/home/hero-carousel.tsx:56-59 | clicking goes to `/events/{id}` of the current slide |
| Text.PadStart | components/home/hero-carousel.tsx:36 | padStart reaches the width and ends with the padded text |
| Text.Digits | components/home/hero-carousel.tsx:36 | a number's text has at least one character, all digits |
| Maintenance.Hours | app/maintenance/page.tsx:27 | hours lie in [0, 24) |
| Maintenance.Minutes | app/maintenance/page.tsx:28 | minutes lie in [0, 60) |
| Maintenance.Seconds | app/maintenance/page.tsx:29 | seconds lie in [0, 60) |
| Maintenance.FieldsRebuildTime | app/maintenance/page.tsx:27-29 | hours, minutes, seconds and the milliseconds rebuild the remaining time within its day |
| Maintenance.DisplayWithinADay | app/maintenance/page.tsx:27 | within a day, the hours field is the whole number of hours left |
| Maintenance.TwoDigits | app/maintenance/page.tsx:67 | a field below 100 is written with exactly two digits that read back as it |
| Maintenance.Display | app/maintenance/page.tsx:67 | the text is HH:MM:SS, and each pair reads back as its field |
| Maintenance.Remaining | app/maintenance/page.tsx:14-21 | the new value is never negative; it is positive exactly before the end time, and then it is the distance |
| Maintenance.ShownWhileRunning | app/maintenance/page.tsx:63 | the countdown is shown exactly while the end time is ahead |
| Maintenance.Countdown.constructor | app/maintenance/page.tsx:6-12 | the time starts at 0, the end time is 24 hours after mounting and the timer runs |
| Maintenance.Countdown.Tick | app/maintenance/page.tsx:12-22 | the time becomes the new value and the timer keeps running exactly before the end time |

## Left out

- Network I/O: every `fetch`, `infomaniakFetch`, `getEvent`, `getEventZones`, `getEventsWithZones` and `getCountryCode` is an input (the provider function, the country code), not a call.
- The HTTP framework: `NextResponse`, the request object, headers, the API keys, the base URL and console logging. A reply is a datatype with its status and fields.
- JSON text. Cart snapshots and request bodies are values; `JSON.parse` of the stored snapshot is the identity or a rejected slot, and the engine's error messages (the `details` of a 500) are not spelled out (`None`).
- `lastError` in the payment loop is only logged, so it is not modelled.
- The `payment_id` of the free mode is forwarded as the JSON value found. If it is undefined, `JSON.stringify` drops it, which the model does not show.
- A thrown `request.json()` of the order route, and a `null` body, whose destructuring throws, are the 500 "Internal server error"; which engine error caused it is not kept. A number, string, boolean or array body has no `items` and is the 400 "Cart is empty".
- OrderCreate.Post: the order body is taken at its declared type (`OrderRequest`): each field is either missing (`None`) or of its declared type. Fields of another JSON type are not modelled. For example, `paymentMethod: null` escapes the `= 'card'` default, which applies only to `undefined`, and would be sent as `payment_method: null`; the model sends "card" for every missing method. `items` or `customer` of the wrong JSON type cannot be expressed either.
- Floating point: prices are integer centimes, times are integer milliseconds, and `NaN` is not modelled, so `toFixed` is exact and `Math.floor(x % n)` is integer division and remainder.
- Maintenance.Hours: `timeRemaining` is never negative, so the negative case of `%` is not modelled.
- Locale formatting: `toLocaleDateString` of the carousel date is not modelled, and the slide has no `date` field.
- Text.Upper, Text.Lower: case mapping covers ASCII, Latin-1, dotless i and long s one character at a time; `ß` → `SS`, U+0130 → `i̇`, the Kelvin sign → `k` and the rest of Unicode are not modelled.
- React machinery: effects, re-renders, `setTimeout` and `setInterval` are reduced to the state they carry (the cart slot, the slide index, `timeRemaining`, `showSuccess`). The success message's three-second timeout is not modelled.
- HeroCarousel.Carousel: the slides are fixed at mounting; a change of the `events` prop that shrinks the list under the current index is not modelled.
- HeroCarousel.AdvanceByIsShift: stated for at most four slides, which is all the carousel builds, because the arithmetic is proved by cases on the slide count.
- Concurrency of React updaters beyond StrictMode's double call: each updater runs on the state left by the previous one.
- Rendering: markup, class names, translations (next-intl) and the locale routing after the middleware.

## Findings

| source | as written | input that shows it | evidently intended | confidence | as-written member | corrected member |
|---|---|---|---|---|---|---|
| contexts/CartContext.tsx:58-59 | `[...prevItems]` copies the array but not its entries, and `newItems[i].quantity += quantity` changes the entry that the previous state shares; under StrictMode, which the App Router turns on by default (the `reactStrictMode: true` of next.config.js is never read, since the file reads `nextConfig` inside its own initialiser and throws at load), React calls the updater twice on that state, which it does only in development builds (`next dev`); a production build calls it once | in a development build, a cart with 2 tickets of one category, then addItem of 1 of the same line: the line shows 4 (a production build shows 3) | the line grows by exactly the added quantity (3) | not executed | CartStore.SharedEntryAddCounterexample | CartStore.TotalItemsAfterAdd |
| components/events/BookTicketButton.tsx:20-30 | with zones but no category, `Math.min()` and `Math.max()` of nothing are Infinity and -Infinity | an event with one zone and no category: the panel shows "CHF Infinity - -Infinity" | no price range without a price | not executed | BookTicketButton.NoCategoryShowsInfinities | BookTicketButton.IntendedPriceRangeAgrees |
