# TurboKarts storefront: cart, checkout and payment model

This project is a Dafny model of the logic at the core of the TurboKarts
storefront, a Next.js shop that sells go-karts and takes crypto payments
through Coinbase Commerce. It covers:

- the cart store (`cartReducer` and the rehydration replay in `CartProvider`);
- the checkout page (form check, order number, charge request, payment handler);
- the payment-confirmation page (status rule, one-shot removal of the pending order, "Order Not Found");
- the two API routes (create-charge and the Coinbase webhook) as decision ladders from request facts and oracle answers to an HTTP reply;
- the Coinbase Commerce wrapper (the memoised initialisation state machine, SDK class extraction with its recursive search, the three service calls);
- the small rules inside five UI components: product price composition, the 3D customiser's style coach and config merge, the FAQ toggle, category list and filter, the reviews carousel window and dots, and the cursor's trail, particles and cursor type.

There is one module per source file, plus three shared ones:

- `Common`: Option, distinctness, the remove-or-append toggle, `slice(-n)`, division facts.
- `JsonValue`: JSON values with JavaScript truthiness.
- `Browser`: the `localStorage` slots.

Pure code (reducers, predicates, the route ladders, the search) is written
as functions and lemmas. Code that changes state step by step is written as
classes whose methods update fields under `modifies` clauses. These are the
cart provider, the checkout and success pages, the gateway's module-level
variables and the component state.

Oracles become parameters:

- SDK calls, `fetch` replies, `JSON.parse` results, `Date.now()`,
  `window.location.origin` and environment variables;
- whether the code runs in a browser (`typeof window`).

Prices are whole dollars (`int`).

Where the code and its evident intent disagree, the model follows the code
and proves the intended behaviour beside it; the three such points are listed
under "## Findings".

## Model

| member | source | states |
|---|---|---|
| Cart.Reduce | src/contexts/CartContext.tsx:40-150 | The commerce actions leave `total` and `itemCount` equal to the sums over the new items. Only the three visibility actions change `isOpen`, and they change nothing else. CLEAR_CART empties the cart and zeroes both sums. TOGGLE flips `isOpen`, OPEN sets it and CLOSE clears it. |
| Cart.Increment | src/contexts/CartContext.tsx:49-53 | Same length; lines with the id gain one unit; other lines are unchanged. |
| Cart.RemoveLines | src/contexts/CartContext.tsx:77 | The result only holds lines of the input and is no longer; with RemoveKeepsOthers and RemoveLinesAppend this fixes it as the lines without the id, in their order. |
| Cart.RemoveLinesAppend | src/contexts/CartContext.tsx:77 | Removal distributes over concatenation, so the kept lines stay in their original order and each line is judged on its own. |
| Cart.SetQuantity | src/contexts/CartContext.tsx:96-101 | Same length; lines with the id get `max(0, q)`; others are unchanged. |
| Cart.DropEmpty | src/contexts/CartContext.tsx:102 | Keeps only lines of the input and is no longer; with DropEmptyKeepsLines and DropEmptyAppend this fixes it as the lines with units, in their order. |
| Cart.DropEmptyKeepsLines | src/contexts/CartContext.tsx:102 | Every line with a positive quantity survives the filter. |
| Cart.DropEmptyAppend | src/contexts/CartContext.tsx:102 | The filter distributes over concatenation, so untouched lines keep their order. |
| Cart.AddExistingLine | src/contexts/CartContext.tsx:43-53 | ADD_ITEM with an id already present raises that line's quantity by exactly 1. The line count, the order and every other line are unchanged. |
| Cart.AddNewLine | src/contexts/CartContext.tsx:54-56 | ADD_ITEM with a new id appends one line at the end with quantity 1 and the payload's details. |
| Cart.AddItemTotals | src/contexts/CartContext.tsx:43-66 | After ADD_ITEM the item count grows by 1 and the total by the unit price (price plus add-ons) of the added line. |
| Cart.TotalAppend | src/contexts/CartContext.tsx:58-66 | Total and item count add over concatenation. |
| Cart.IncrementTotals | src/contexts/CartContext.tsx:49-66 | Incrementing an existing line adds its unit price to the total and 1 to the count. |
| Cart.IncrementAbsent | src/contexts/CartContext.tsx:49-53 | The increment map is the identity on an absent id. |
| Cart.RemoveKeepsOthers | src/contexts/CartContext.tsx:77 | REMOVE_ITEM removes every line with the id and keeps every other line; their order is kept by RemoveLinesAppend. |
| Cart.RemoveAbsent | src/contexts/CartContext.tsx:77 | REMOVE_ITEM of an absent id leaves the items exactly as they were. |
| Cart.RemoveTotals | src/contexts/CartContext.tsx:77-85 | Removing a line lowers the total by its line total and the count by its quantity. |
| Cart.UpdateNonPositiveSame | src/contexts/CartContext.tsx:96-102 | UPDATE_QUANTITY with any q <= 0 gives the same state as with 0. |
| Cart.DropClearedIsRemove | src/contexts/CartContext.tsx:96-102 | On positive quantities, zeroing a line and dropping empty lines is removing that id. |
| Cart.UpdateNonPositiveRemoves | src/contexts/CartContext.tsx:95-119 | On a well-formed cart, UPDATE_QUANTITY with q <= 0 is REMOVE_ITEM. |
| Cart.DropEmptyKeepsPositive | src/contexts/CartContext.tsx:102 | The filter is the identity when every quantity is positive. |
| Cart.UpdatePositive | src/contexts/CartContext.tsx:96-102 | UPDATE_QUANTITY with q >= 1 sets that line to q in place; every other line and the order are unchanged. |
| Cart.AddKeepsWellFormed | src/contexts/CartContext.tsx:42-56 | Adding an item, new or already present, keeps ids unique and quantities positive. |
| Cart.RemoveKeepsWellFormed | src/contexts/CartContext.tsx:77 | Removing lines keeps ids unique and quantities positive. |
| Cart.DropKeepsUnique | src/contexts/CartContext.tsx:102 | The filter keeps ids unique and leaves only positive quantities. |
| Cart.HeadFreshIn | src/contexts/CartContext.tsx:77 | With unique ids, no line drawn from the tail has the head's id. |
| Cart.ReducePreservesWellFormed | src/contexts/CartContext.tsx:40-150 | Every action preserves "ids unique and every quantity at least 1". |
| Cart.IndexOf | src/contexts/CartContext.tsx:43-45 | `find` by id: the index of a line with that id. |
| Cart.Restored | src/contexts/CartContext.tsx:173-178 | A restored line is the stored line with quantity 1, in stored order. |
| Cart.ReplayDistinct | src/contexts/CartContext.tsx:169-178 | Replaying distinct, new stored lines appends them with quantity 1 in stored order. It keeps `isOpen` and leaves the sums consistent. |
| Cart.RehydrateFromEmpty | src/contexts/CartContext.tsx:165-178 | From the initial state, rehydration yields exactly the stored lines with quantity 1, closed, with consistent sums; the stored total and `isOpen` are ignored. |
| Cart.ReloadResetsQuantity | src/contexts/CartContext.tsx:173-178 | A stored line with quantity 3 comes back with quantity 1. |
| CartProvider.Provider.Dispatch | src/contexts/CartContext.tsx:165-188 | The state becomes `Reduce` of the old state. The new state is persisted, and the pending-order slot is untouched. |
| Cart.Restore | src/contexts/CartContext.tsx:168-183 | The intended restoration: the stored lines exactly, with consistent sums and the drawer closed. |
| Cart.RestoreRoundTrip | src/contexts/CartContext.tsx:168-188 | Persisting a consistent cart and restoring it gives back the same lines, quantities and sums, closed. |
| Cart.ReplayIsRestoreOnSingleUnits | src/contexts/CartContext.tsx:173-178 | With distinct ids and every stored quantity 1, the as-written replay equals the intended restoration. |
| CartProvider.Provider.Mount | src/contexts/CartContext.tsx:168-183 | The loop dispatches ADD_ITEM per stored line. It ends in the fold `Replay` of the stored lines. Unreadable or missing storage is skipped. |
| CartProvider.Provider.MountRestoring | src/contexts/CartContext.tsx:168-188 | The intended mount: a saved cart comes back as `Restore` of its lines, equal to the saved state (closed) when that was consistent, and is persisted again; missing or unreadable storage leaves the state alone. |
| Checkout.TrimStartBlank | src/app/checkout/page.tsx:52 | Trimming the start leaves nothing exactly when the string is all white space. |
| Checkout.TrimEndKeepsFirst | src/app/checkout/page.tsx:52 | Trimming the end of a string that starts with a visible character leaves it non-empty. |
| Checkout.TrimmedNonEmpty | src/app/checkout/page.tsx:52 | `trim() !== ""` holds exactly when some character is not white space. |
| Checkout.ValidateFormIff | src/app/checkout/page.tsx:41-54 | The form is valid exactly when all seven fields have a non-white-space character. |
| Checkout.DigitsValue | src/app/checkout/page.tsx:66 | The decimal string of n is all digits and reads back as n. |
| Checkout.LastDigitsValue | src/app/checkout/page.tsx:66 | The last k characters of the decimal string are digits and read back as the number's last k digits. |
| Checkout.LowDigitsIsMod | src/app/checkout/page.tsx:66 | The number's last k digits are the number modulo 10^k. |
| Checkout.DigitsLength | src/app/checkout/page.tsx:66 | A number of at least 10^k has more than k decimal digits. |
| Checkout.OrderNumberFormat | src/app/checkout/page.tsx:66 | The order number is "TK" and at most six digits; a timestamp of at least 100000 gives exactly six, leading zeros kept. The digits read back as the timestamp mod 1,000,000. It has no `&`, `#` or `=`. |
| Checkout.ChargeLines | src/app/checkout/page.tsx:80-87 | One metadata entry per cart line, in order. |
| Checkout.BuildCharge | src/app/checkout/page.tsx:68-91 | Pricing type "fixed_price" and currency "USD". The order id is the order number. There is one item per cart line, same order, with name, quantity, price, colour, tyres and add-ons. |
| Checkout.AmountIsTotal | src/app/checkout/page.tsx:73 | The amount string is all digits and reads back as the cart total. |
| Checkout.BuiltChargeIsAccepted | src/app/checkout/page.tsx:68-100 | The request the page builds always passes the create-charge route's guard and is forwarded unchanged. |
| Checkout.AddOnSumIsTotal | src/app/checkout/page.tsx:200-203 | The page's add-on fold equals the reducer's. |
| Checkout.ItemTotalIsLineTotal | src/app/checkout/page.tsx:200-204 | The displayed line total is the reducer's line total. |
| Checkout.SubtotalMatchesLines | src/app/checkout/page.tsx:199-257 | The displayed line totals add up to the cart total. |
| Checkout.PageView | src/app/checkout/page.tsx:129-173 | Before an order is placed, the empty-cart view shows exactly when the cart has no lines. Otherwise the form is shown. |
| Checkout.CheckoutPage.HandleInputChange | src/app/checkout/page.tsx:37-39 | Only the named field changes. |
| Checkout.StoredChargeId | src/app/checkout/page.tsx:109-118 | The stored charge id is the reply's id, or missing when the reply's charge has none. |
| Checkout.Destination | src/app/checkout/page.tsx:121 | The redirect goes to the hosted URL, or to "undefined" when the charge has none. |
| Checkout.CheckoutPage.HandleCoinbasePayment | src/app/checkout/page.tsx:56-127 | Invalid form: the fill-in message is set and nothing else changes (no processing, no request, no storage write). Valid form: exactly one charge request is sent. A 2xx reply with a `charge` object stores the pending order with the order number, the charge id (missing if the object has none), the items and the total, and redirects to the hosted URL; a charge without `hosted_url` redirects to "undefined" with no error message. A network error, a non-2xx status or a reply without a `charge` sets the one generic message, clears processing and stores nothing. The cart is never touched. |
| CreateChargeRoute.Post | src/app/api/checkout/create-charge/route.ts:4-27 | 400 exactly when the parsed body lacks a truthy name, local_price or metadata, with "Missing required fields". The service gets the body exactly when the guard passes. 200 with `{charge}` exactly when the service succeeds. Every other outcome is 500 "Failed to create charge". |
| CreateChargeRoute.RejectionIgnoresService | src/app/api/checkout/create-charge/route.ts:9-17 | A rejected request gets the same reply whatever the service would do. |
| CreateChargeRoute.OptionalFieldsIgnored | src/app/api/checkout/create-charge/route.ts:9 | Adding or removing any field other than the three required ones never changes whether the reply is 400. |
| WebhookRoute.Dispatch | src/app/api/webhooks/coinbase/route.ts:35-75 | An event is answered `{received: true}` or a 500. |
| WebhookRoute.Post | src/app/api/webhooks/coinbase/route.ts:7-83 | Once the body is read: 400 exactly when the signature is missing. 401 exactly when signature and secret are present but verification fails. A 200 is only given to a verified body. |
| WebhookRoute.PostRequest | src/app/api/webhooks/coinbase/route.ts:4-83 | A body that cannot be read gets the generic 500 whatever the headers say. 400 exactly when the body is read and the signature is missing; 401 exactly when it is read, signature and secret are present and verification fails; a 200 only for a read, verified body. |
| WebhookRoute.SignatureCheckedFirst | src/app/api/webhooks/coinbase/route.ts:9-11 | Without a signature the reply depends on neither the secret, the verifier nor the parser. |
| WebhookRoute.SecretCheckedBeforeVerify | src/app/api/webhooks/coinbase/route.ts:13-20 | Without a secret the reply depends on neither the verifier nor the parser. |
| WebhookRoute.UnverifiedNeverParsed | src/app/api/webhooks/coinbase/route.ts:23-33 | A body that fails verification gets the same reply whatever the parser does. |
| WebhookRoute.UnknownTypeAcknowledged | src/app/api/webhooks/coinbase/route.ts:71-75 | A verified event of an unrecognised type is acknowledged with 200. |
| WebhookRoute.KnownTypeWithoutDataFails | src/app/api/webhooks/coinbase/route.ts:33-82 | After verification, a body that does not parse, or a named event type without `data`, gives 500 "Webhook processing failed". |
| WebhookRoute.VerifiedOutcome | src/app/api/webhooks/coinbase/route.ts:33-82 | A verified body gets 200 exactly when it parses to a non-null event that is of an unrecognised type or carries non-null `data`. |
| CoinbaseCommerce.PropValue | src/lib/coinbase-commerce.ts:78 | A property read that is not undefined comes from a property with that key. |
| CoinbaseCommerce.FindIn | src/lib/coinbase-commerce.ts:74-88 | `findInObject` returns null or a truthy value. |
| CoinbaseCommerce.FindInKeys | src/lib/coinbase-commerce.ts:81-87 | The key loop returns null or a truthy value. |
| CoinbaseCommerce.Hits | src/lib/coinbase-commerce.ts:74-88 | Every hit in depth-first pre-order is truthy. |
| CoinbaseCommerce.KeyHits | src/lib/coinbase-commerce.ts:81-87 | Every hit below keys i.. is truthy. |
| CoinbaseCommerce.FindInIsFirstHit | src/lib/coinbase-commerce.ts:74-88 | The search returns the first hit of a depth-first pre-order walk: the own property first, then the children in key order. It returns null when there is none. |
| CoinbaseCommerce.FindInKeysIsFirstHit | src/lib/coinbase-commerce.ts:81-87 | The loop over keys i.. returns their first hit in key order. |
| CoinbaseCommerce.DirectWins | src/lib/coinbase-commerce.ts:43-52 | When all three top-level classes are present they are used. |
| CoinbaseCommerce.DefaultShadowsNested | src/lib/coinbase-commerce.ts:53-66 | With a truthy default export and incomplete top-level classes, the result depends only on the default export. It succeeds exactly when the default has all three. |
| CoinbaseCommerce.ExtractPrecedence | src/lib/coinbase-commerce.ts:43-97 | A complete extraction came from the direct step, or else from the default export, or else (no default) from the nested search. |
| CoinbaseCommerce.FunctionModuleNotSearched | src/lib/coinbase-commerce.ts:68-92 | A module that is a function, with no direct classes and no default, is never searched, because `findInObject` gives up on non-objects. |
| CoinbaseCommerce.Attempt | src/lib/coinbase-commerce.ts:22-125 | The try block succeeds exactly when the module loads and yields all three classes. What it returns is complete. |
| CoinbaseCommerce.InitStep | src/lib/coinbase-commerce.ts:7-134 | The step keeps the state valid. Success returns complete classes and records them as initialised. A failure inside the try resets all four variables. The browser and missing-key errors leave the state as it was. |
| CoinbaseCommerce.CachedIgnoresEnvironment | src/lib/coinbase-commerce.ts:12-14 | Once initialised, on the server, the cached classes come back whatever the key or module. |
| CoinbaseCommerce.MissingKeyBeforeImport | src/lib/coinbase-commerce.ts:16-20 | A missing key throws with the state unchanged, before and regardless of any import. |
| CoinbaseCommerce.InitOutcome | src/lib/coinbase-commerce.ts:12-133 | With a key on the server, initialisation succeeds exactly when cached or the attempt succeeds. Otherwise it throws and resets. |
| CoinbaseCommerce.Gateway.constructor | src/lib/coinbase-commerce.ts:2-5 | The module starts with all four variables cleared. |
| CoinbaseCommerce.Gateway.Initialize | src/lib/coinbase-commerce.ts:7-134 | The result and the new module state are those of `InitStep`. |
| CoinbaseCommerce.Gateway.CreateCharge | src/lib/coinbase-commerce.ts:171-199 | In a browser it fails with the state unchanged. On the server the state moves as initialisation says. It returns the SDK's charge exactly when initialisation succeeds, `Charge.create` is a function and the call returns a non-null charge; a null result fails, because logging `charge.id` throws and the catch rethrows. |
| CoinbaseCommerce.Gateway.GetCharge | src/lib/coinbase-commerce.ts:201-223 | In a browser it fails with the state unchanged. On the server the state moves as initialisation says. It returns the SDK's charge exactly when initialisation succeeds, `Charge.retrieve` is a function and the call returns. |
| CoinbaseCommerce.Gateway.VerifyWebhookSignature | src/lib/coinbase-commerce.ts:225-252 | On the server it never throws. It is true exactly when initialisation succeeds, `verifyEventBody` is a function and it returns truthy; every failure gives false. |
| Confirmation.SomeStatusMeaning | src/app/checkout/success/page.tsx:63-65 | `some` over a list without nulls answers whether an element has the wanted status. |
| Confirmation.AnyWithStatusMeaning | src/app/checkout/success/page.tsx:61-75 | For a missing or list-valued field, the guarded `some` answers whether the field lists an entry with that status. |
| Confirmation.StatusRule | src/app/checkout/success/page.tsx:56-88 | A fetched charge is confirmed exactly when some payment is CONFIRMED or some timeline event is COMPLETED. It is pending exactly when neither holds. |
| Confirmation.ConfirmedPaymentDecides | src/app/checkout/success/page.tsx:61-70 | A confirmed payment decides "confirmed" whatever the timeline says. |
| Confirmation.FailedOnlyOnErrors | src/app/checkout/success/page.tsx:84-87 | A failed lookup gives "failed". Otherwise "failed" only comes from a null charge or from `payments` or `timeline` being truthy but not a list, where `some` throws. |
| Confirmation.IndexOf | src/app/checkout/success/page.tsx:29 | The first position of a character, or the length. |
| Confirmation.After | src/app/checkout/success/page.tsx:29 | The rest after a separator is shorter than the string. |
| Confirmation.IndexOfAbsent | src/app/checkout/success/page.tsx:29 | An absent character is found at the end. |
| Confirmation.IndexOfAt | src/app/checkout/success/page.tsx:29 | A character absent from a prefix is found just after it. |
| Confirmation.SuccessUrlQuery | src/app/checkout/page.tsx:89 | The query of the success URL is `order=` plus the order number. |
| Confirmation.OrderPairValue | src/app/checkout/success/page.tsx:29 | The `order` parameter of `order=<n>` is n when n has no `&` or `=`. |
| Confirmation.SuccessUrlParam | src/app/checkout/success/page.tsx:29 | `searchParams.get("order")` on the success URL gives back the order number. |
| Confirmation.RedirectCarriesOrderNumber | src/app/checkout/page.tsx:66-89 | The redirect URL the checkout builds carries its order number in `order`. |
| Confirmation.PageView | src/app/checkout/success/page.tsx:93-118 | Loading shows the spinner. After that, "Order Not Found" shows exactly when there is no stored order or no `order` parameter, whatever the status. Otherwise the status is shown. |
| Confirmation.SuccessPage.constructor | src/app/checkout/success/page.tsx:28-34 | Starts loading, pending, with no order, and the `order` parameter read from the URL. |
| Confirmation.SuccessPage.CheckPaymentStatus | src/app/checkout/success/page.tsx:56-88 | The status becomes `StatusOf` of the lookup. The pending order is removed exactly when the status is confirmed. |
| Confirmation.SuccessPage.LoadOrderInfo | src/app/checkout/success/page.tsx:37-54 | Loading ends on every path, and the stored order is shown. The lookup runs only for a stored order with a charge id. Otherwise the status stays pending and storage is untouched. |
| Confirmation.SuccessPage.LoadOrderInfoInBrowser | src/app/checkout/success/page.tsx:37-58 | As written, the lookup goes through the server-only service from the browser. When it runs, the status is "failed" and the pending order is never removed. |
| Confirmation.ConfirmedChargeStatus | src/app/checkout/success/page.tsx:58-70 | A charge whose payment is CONFIRMED is confirmed by the status rule. |
| Confirmation.ConfirmedChargeReportedFailed | src/app/checkout/success/page.tsx:37-88 | A stored order with a charge id, whose charge the SDK returns with a CONFIRMED payment: the page as written shows the order as "failed" and keeps `pendingOrder`; the same page with the lookup done on the server shows "confirmed" and removes `pendingOrder`. |
| Confirmation.VisitTwice | src/app/checkout/success/page.tsx:36-118 | First visit shows the order with its status. A second visit after confirmation shows "Order Not Found", because the pending order was removed. |
| ProductCustomizer.Find | src/components/ProductCustomizer.tsx:152 | `find` by id: a hit is a catalog entry with that id; a miss means no entry has it. |
| ProductCustomizer.CatalogPricesNonNegative | src/components/ProductCustomizer.tsx:40-123 | Every option, colour and tyre surcharge is at least 0. |
| ProductCustomizer.OptionsPriceNonNegative | src/components/ProductCustomizer.tsx:150-155 | The options sum is at least 0. |
| ProductCustomizer.TotalAtLeastBase | src/components/ProductCustomizer.tsx:148-156 | With catalog colour and tyres, the total is at least the base price whatever is selected. |
| ProductCustomizer.OptionsPriceAppend | src/components/ProductCustomizer.tsx:150-155 | Appending an id adds its price. |
| ProductCustomizer.OptionsPriceWithout | src/components/ProductCustomizer.tsx:150-187 | Removing a selected id subtracts its price. |
| ProductCustomizer.ToggleMovesTotal | src/components/ProductCustomizer.tsx:149-190 | Toggling an id moves the total by exactly its price, down if selected and up if not. Unknown ids never move it. |
| ProductCustomizer.SavingsIgnoreSelection | src/components/ProductCustomizer.tsx:491-492 | "You save" equals originalPrice - basePrice for every total. |
| ProductCustomizer.ReportedOptions | src/components/ProductCustomizer.tsx:170-172 | Every reported option is a catalog entry, and there are no more than the selected ids. |
| ProductCustomizer.ReportedAreKnown | src/components/ProductCustomizer.tsx:170-172 | The reported options are the known selected ids in selection order. |
| ProductCustomizer.Customizer.constructor | src/components/ProductCustomizer.tsx:142-145 | First colour, first tyres, nothing selected, total = base price. |
| ProductCustomizer.Customizer.ToggleOption | src/components/ProductCustomizer.tsx:184-190 | The selection becomes the toggle of the old one and stays free of duplicates. |
| ProductCustomizer.Customizer.SelectColor | src/components/ProductCustomizer.tsx:209 | Selects the i-th catalog colour. |
| ProductCustomizer.Customizer.SelectTires | src/components/ProductCustomizer.tsx:254 | Selects the i-th catalog tyre. |
| ProductCustomizer.Customizer.Effect | src/components/ProductCustomizer.tsx:148-182 | The total becomes the computed price and is at least the base. `onPriceChange` fires only when the total changed. The customisation is reported every time. |
| Advanced3DCustomizer.Merge | src/components/Advanced3DCustomizer.tsx:330-331 | Each given field overrides; each absent field keeps the old value. |
| Advanced3DCustomizer.MergeLaws | src/components/Advanced3DCustomizer.tsx:330-331 | An empty update is the identity; an update is idempotent. |
| Advanced3DCustomizer.Suggestions | src/components/Advanced3DCustomizer.tsx:247 | At most two suggestions. |
| Advanced3DCustomizer.GenerateSuggestions | src/components/Advanced3DCustomizer.tsx:232-248 | The pushes then `slice(0, 2)` give `Suggestions`, at most two. |
| Advanced3DCustomizer.SuggestionRules | src/components/Advanced3DCustomizer.tsx:232-248 | Each tip appears exactly when its rule fires. The exception is the tyre tip, which is dropped when both earlier rules fire. |
| Advanced3DCustomizer.DefaultSuggestion | src/components/Advanced3DCustomizer.tsx:232-298 | The default configuration yields exactly the underglow tip. |
| Advanced3DCustomizer.PanelFor | src/components/Advanced3DCustomizer.tsx:481-601 | A content panel exists exactly for the five tab ids. |
| Advanced3DCustomizer.HotspotPanels | src/components/Advanced3DCustomizer.tsx:65-96 | Every hotspot opens a panel except "spoiler", which matches no tab and no panel. |
| Advanced3DCustomizer.Customizer.constructor | src/components/Advanced3DCustomizer.tsx:291-300 | Default configuration, "color" category, nothing reported. |
| Advanced3DCustomizer.Customizer.UpdateConfig | src/components/Advanced3DCustomizer.tsx:330-334 | The configuration becomes the merge, and the merged configuration is reported. |
| Advanced3DCustomizer.Customizer.ResetView | src/components/Advanced3DCustomizer.tsx:340-349 | Restores the default without reporting it. |
| Advanced3DCustomizer.Customizer.SelectCategory | src/components/Advanced3DCustomizer.tsx:336-338 | The active category becomes the one clicked. |
| InteractiveFAQ.ToggleTwiceSameOpenSet | src/components/InteractiveFAQ.tsx:86-90 | Toggling an id twice leaves the same set of open answers. |
| InteractiveFAQ.CategoryList | src/components/InteractiveFAQ.tsx:92 | `map` to categories, position by position. |
| InteractiveFAQ.Dedup | src/components/InteractiveFAQ.tsx:92 | The result has no duplicates and the same members as the input. |
| InteractiveFAQ.FirstIndex | src/components/InteractiveFAQ.tsx:92 | The position of the first occurrence. |
| InteractiveFAQ.FirstIndexExtend | src/components/InteractiveFAQ.tsx:92 | Appending does not move a first occurrence. |
| InteractiveFAQ.DedupFirstOccurrenceOrder | src/components/InteractiveFAQ.tsx:92 | The distinct values come in order of first occurrence. |
| InteractiveFAQ.DedupDistinct | src/components/InteractiveFAQ.tsx:92 | Already-distinct values come back unchanged. |
| InteractiveFAQ.ShippedCategories | src/components/InteractiveFAQ.tsx:21-92 | The six shipped categories, in data order. |
| InteractiveFAQ.WithCategory | src/components/InteractiveFAQ.tsx:95 | Exactly the entries of that category are kept. |
| InteractiveFAQ.WithCategoryAppend | src/components/InteractiveFAQ.tsx:95 | The filter keeps the original order. |
| InteractiveFAQ.Filtered | src/components/InteractiveFAQ.tsx:94-96 | No (or an empty) category shows every entry. Otherwise only entries of the chosen category are shown. |
| InteractiveFAQ.FAQ.ToggleItem | src/components/InteractiveFAQ.tsx:86-90 | The id flips between open and closed, every other id keeps its state, and the list stays free of duplicates. |
| InteractiveFAQ.FAQ.SelectCategory | src/components/InteractiveFAQ.tsx:137-146 | Changing the filter leaves the open answers alone. |
| ReviewsCarousel.Advance | src/components/ReviewsCarousel.tsx:166 | The next index is in range and wraps from the last to 0. |
| ReviewsCarousel.VisibleReviews | src/components/ReviewsCarousel.tsx:173-180 | Exactly three reviews; the i-th is `reviews[(active + i) mod n]`. |
| ReviewsCarousel.WindowDistinct | src/components/ReviewsCarousel.tsx:173-180 | With at least three distinct reviews, the three shown are pairwise distinct. |
| ReviewsCarousel.ShippedWindowDistinct | src/components/ReviewsCarousel.tsx:37-180 | With the six shipped reviews the window never repeats a review. |
| ReviewsCarousel.DotInWindowIffShown | src/components/ReviewsCarousel.tsx:173-248 | The wrapping dot rule lights a dot exactly when its review is shown. |
| ReviewsCarousel.DotRulesAgreeAwayFromEnd | src/components/ReviewsCarousel.tsx:248 | Away from the end of the list the written dot rule lights exactly the shown reviews. |
| ReviewsCarousel.DotsMissWrappedReview | src/components/ReviewsCarousel.tsx:176-248 | With active index 4 the window shows reviews 4, 5 and 0, but only dots 4 and 5 are lit. |
| ReviewsCarousel.Carousel.Tick | src/components/ReviewsCarousel.tsx:161-171 | While paused the index stays; otherwise it advances modulo the count. |
| ReviewsCarousel.Carousel.MouseEnter | src/components/ReviewsCarousel.tsx:201 | Pauses exactly when pause-on-hover is set. |
| ReviewsCarousel.Carousel.MouseLeave | src/components/ReviewsCarousel.tsx:202 | Resumes exactly when pause-on-hover is set. |
| ReviewsCarousel.Carousel.ClickDot | src/components/ReviewsCarousel.tsx:249 | The active index becomes the dot's index. |
| RevolutionaryCursor.AddTrail | src/components/RevolutionaryCursor.tsx:84-95 | At most eight points: the last of them is the new point and the others are the newest old points, in order. |
| RevolutionaryCursor.AddTrailIncreasing | src/components/RevolutionaryCursor.tsx:50-95 | A fresh id from the counter keeps trail ids strictly increasing. |
| RevolutionaryCursor.PruneTrail | src/components/RevolutionaryCursor.tsx:173-174 | Exactly the points younger than 500 ms are kept. |
| RevolutionaryCursor.PruneKeepsIncreasing | src/components/RevolutionaryCursor.tsx:173-174 | Pruning keeps ids increasing. |
| RevolutionaryCursor.Burst6 | src/components/RevolutionaryCursor.tsx:55-69 | Six particles with consecutive ids from the counter, each with life 60. |
| RevolutionaryCursor.Age | src/components/RevolutionaryCursor.tsx:161-168 | Every life goes down by one; nothing else changes. |
| RevolutionaryCursor.Alive | src/components/RevolutionaryCursor.tsx:169 | Exactly the particles with life above 0 are kept. |
| RevolutionaryCursor.AliveAppend | src/components/RevolutionaryCursor.tsx:169 | The filter distributes over concatenation. |
| RevolutionaryCursor.StepAppend | src/components/RevolutionaryCursor.tsx:159-170 | A frame treats each particle independently. |
| RevolutionaryCursor.StepsEmpty | src/components/RevolutionaryCursor.tsx:159-170 | Frames of nothing stay empty. |
| RevolutionaryCursor.StepsAppend | src/components/RevolutionaryCursor.tsx:159-170 | Any number of frames treats each particle independently. |
| RevolutionaryCursor.ParticleLifetime | src/components/RevolutionaryCursor.tsx:159-170 | A particle with life L is present with life L-k after k < L frames, and gone from frame L on. |
| RevolutionaryCursor.NewParticleLastsSixtyFrames | src/components/RevolutionaryCursor.tsx:66-170 | A new particle is removed on exactly its 60th frame. |
| RevolutionaryCursor.AliveKeepsIncreasing | src/components/RevolutionaryCursor.tsx:169 | The filter keeps ids increasing. |
| RevolutionaryCursor.StepKeepsIds | src/components/RevolutionaryCursor.tsx:159-170 | A frame keeps particle ids increasing and below the counter, with every life in 1..60. |
| RevolutionaryCursor.Classify | src/components/RevolutionaryCursor.tsx:98-120 | Button beats link, link beats text input, text input beats draggable, and draggable beats the default. Each type is chosen exactly when its test holds and no earlier one does. |
| RevolutionaryCursor.Cursor.MouseMove | src/components/RevolutionaryCursor.tsx:74-126 | Position set. The trail gains the point with the next id and keeps the last eight. The counter goes up by one, the type is classified and the cursor shows. |
| RevolutionaryCursor.Cursor.MouseEnter | src/components/RevolutionaryCursor.tsx:129-131 | Hovering. |
| RevolutionaryCursor.Cursor.MouseLeave | src/components/RevolutionaryCursor.tsx:133-136 | Not hovering and hidden. |
| RevolutionaryCursor.Cursor.MouseDown | src/components/RevolutionaryCursor.tsx:139-150 | Clicking, and six new particles appended with the next six ids. |
| RevolutionaryCursor.Cursor.MouseUp | src/components/RevolutionaryCursor.tsx:152-154 | Not clicking. |
| RevolutionaryCursor.Cursor.CreateParticles | src/components/RevolutionaryCursor.tsx:55-71 | The loop appends the six-particle burst and advances the counter by six, keeping ids increasing. |
| RevolutionaryCursor.Cursor.Animate | src/components/RevolutionaryCursor.tsx:157-177 | Particles become one frame older with the dead ones dropped. The trail keeps the points younger than 500 ms. All id invariants hold. |

## Left out

- Rendering: JSX, CSS, framer-motion and the three.js scene are not modelled. The ancillary components (hero, video, navigation, cart drawer, comparison grid, image fallback, scroll animation, sound system) are not part of this model.
- Timers and concurrency: `setTimeout`, `setInterval`, `requestAnimationFrame` and React batching are not modelled. Each handler, effect or frame is one atomic step. The product customiser's delayed total update is taken as part of the effect. The success page's asynchronous status check is taken as finishing before the page is read. Cross-tab races on `localStorage` are not modelled.
- Floating point: prices are whole dollars. Particle positions, velocities, angles, random speeds and the 0.98 damping are not modelled. Particles are modelled by id and life only.
- The Coinbase SDK: `Charge.create`, `Charge.retrieve` and `Webhook.verifyEventBody` are parameters (oracles). The signature scheme inside the SDK is not modelled.
- CoinbaseCommerce.Gateway.Initialize: the call to `Client.init(apiKey)` has no effect in the model. It is taken not to throw except where the environment's `initThrows` says so.
- `require` of the SDK module is an input: a finite tree of properties, or a load failure. Property order follows `Object.keys`.
- `parseWebhookEvent` is the `parse` parameter of `WebhookRoute.Post`; its rethrow on malformed JSON is the `Malformed` answer, which the route turns into 500.
- Logging (`console.*`) and the webhook's per-type log lines are not modelled. No event type changes any state.
- Confirmation.SearchParam: splits the query on `&` and `=` and takes the first match. It does not percent-decode or turn `+` into a space.
- Browser.LocalStorage: stored JSON that parses but has another shape (a cart without an `items` list, an order without the expected fields) is modelled as unreadable. A stored pending order's chargeId is a string; empty means missing.
- CartProvider.Provider.Mount: the `quantity: undefined` payload is modelled as the line's details without a quantity. A stored line whose `addOns` is not a list (where the real reduce would throw) is not representable.
- Checkout.AmountIsTotal: covers non-negative whole-dollar totals only. `Number.prototype.toString` of fractions or exponents is not modelled.
- Checkout.OrderNumberFormat: the timestamp is a non-negative whole number of milliseconds.
- ReviewsCarousel.WindowDistinct: requires the active index to be below the number of reviews, which the component maintains (`Carousel.Valid`).
- ReviewsCarousel.DotInWindowIffShown: is stated for lists of at least three reviews, the window's size.
- InteractiveFAQ.ToggleTwiceSameOpenSet: toggling twice gives back the same set of open answers, not the same list. A present id moves to the end of the list.
- RevolutionaryCursor.Classify: the element under the pointer is summarised by its tag name, class list, `contentEditable` and whether `closest(...)` finds a button, link or draggable. The DOM is not modelled.
- Haptic feedback (`navigator.vibrate`) and the spring-smoothed cursor position are not modelled.

## Findings

| source | as written | input that shows it | evidently intended | confidence | as-written member | corrected member |
|---|---|---|---|---|---|---|
| src/contexts/CartContext.tsx:173-178 | Rehydration dispatches one ADD_ITEM per stored line with `quantity: undefined`, so each line comes back with quantity 1. | A saved cart holding one line with quantity 3: after a reload it holds that line with quantity 1, and the total and item count shrink with it. | The persisted cart comes back as it was: the same ids, quantities and prices. | high, not executed | Cart.ReloadResetsQuantity, CartProvider.Provider.Mount | Cart.RestoreRoundTrip, CartProvider.Provider.MountRestoring |
| src/app/checkout/success/page.tsx:58 | The client-side success page calls `CoinbaseCommerceService.getCharge`, which throws whenever `window` is defined. | Any stored pending order with a charge id, including one whose charge has a CONFIRMED payment: the page shows "failed" and keeps `pendingOrder`. | The status is looked up on the server and then goes through the confirmed/pending/failed rule; a confirmed charge removes `pendingOrder`. | high, not executed | Confirmation.SuccessPage.LoadOrderInfoInBrowser, Confirmation.ConfirmedChargeReportedFailed | Confirmation.SuccessPage.LoadOrderInfo, Confirmation.StatusRule |
| src/components/ReviewsCarousel.tsx:248 | A dot is lit when `activeIndex <= index < activeIndex + 3`, with no wrap-around. | Six reviews, active index 4: reviews 4, 5 and 0 are shown but only dots 4 and 5 are lit. | A dot is lit exactly when its review is in the window, wrapping modulo the number of reviews. | high, not executed | ReviewsCarousel.DotsMissWrappedReview | ReviewsCarousel.DotInWindowIffShown |
