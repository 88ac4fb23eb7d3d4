# Cardaris portal proxy: the mapping and guard rules, in Dafny

The Cardaris portal API is an Express proxy in front of the Shopify Admin
REST API. Around its HTTP plumbing sit a few deterministic rules, and this
project models them as pure Dafny functions over records that stand for the
upstream JSON:

- how the customer id is resolved: the query value, else the configured
  test id, else none;
- the fulfillment-status table: a code becomes a French label and a badge
  variant;
- the profile mapping: display name, email, nickname taken from `note`,
  constant notifications and mode;
- the profile update: the full name is split on its first space, and the
  `customer` payload sends empty names and email as `null` and an empty
  nickname as `""`;
- the guards every id-requiring route runs first, and the order-ownership
  check;
- the order summary and order detail mappings, with address flattening.

JavaScript semantics are spelled out where the rules rely on them:

- `JsValues`: truthiness and `||`. `None` stands for both `undefined` and
  `null`; `Some("")` is the falsy empty string.
- `JsStrings`: `String.prototype.trim` over ECMAScript's whitespace set, and
  `split(" ")`/`join(" ")`.
- `Decimal`: `String(n)` for the numeric ids upstream sends.

A route is a function of the configuration, the request values and the
upstream reply. Its result `Handled(call, outcome)` names the upstream
request the route makes (`None` when a guard answers first) and the response
(`Ok(body)` for 200, or `Err` of `NotConfigured` (500), `MissingCustomerId`
(400) or `Forbidden` (403)). The error texts are those of the source.

Four points where the code is easy to misread; the model follows it as written:

- The full name is split on the literal `" "`, not on any whitespace.
- The label for `pending` is written with U+2019, as in "En attente d’expédition".
- An order that has no `customer` passes the ownership check and is shown to
  any requesting customer.
- List and detail views both call the one status table (`MapFulfillmentStatus`).
  `SummaryAgreesWithDetail` states that the two views agree.

## Model

| member | source | states |
|---|---|---|
| `Routes.ResolveCustomerId` | server.cjs:47-49 | A truthy query id wins. Otherwise a truthy test id is used. Otherwise there is no id. An empty query value falls through, and an empty id is never returned. |
| `Routes.Failure.StatusCode` | server.cjs:112-124 | Every failure answers an error code: 500, 400 or 403. |
| `Routes.Failure.Message` | server.cjs:112-124 | The table of `error` texts, one per failure. It has no contract of its own; the three response lemmas below state each text. |
| `Routes.NotConfiguredResponse` | server.cjs:112-115 | No client answers 500 with "Shopify non configuré (domaine ou token manquant).". |
| `Routes.MissingCustomerIdResponse` | server.cjs:118-123 | No customer id answers 400 with the text that points to `?customerId=ID` and `SHOPIFY_TEST_CUSTOMER_ID`. |
| `Routes.ForbiddenResponse` | server.cjs:321-327 | A foreign order answers 403 with "Cette commande n'appartient pas à ce client.". |
| `Routes.Outcome.StatusCode` | server.cjs:112-141 | The code is 200 exactly for a body, and otherwise the failure's code. |
| `Routes.Guard` | server.cjs:112-124 | An unconfigured client gives 500 whatever the request. Then a missing id gives 400. A passing guard carries the resolved id. A guard never answers 403. |
| `Routes.GuardsAnswerFirst` | server.cjs:112-124 | When a guard rejects, all five id-requiring routes give the same error (500 if unconfigured, else 400). None of them calls upstream, whatever upstream would reply. |
| `Routes.ProfileRoute` | server.cjs:110-141 | After the guards, the route fetches the resolved customer and answers the mapped profile. |
| `Routes.UpdateProfileRoute` | server.cjs:158-213 | The payload goes to the resolved id, and its `id` is that id. The answer is `{ok: true, profile}` built from the upstream reply. |
| `Routes.UpdateRouteRoundTrip` | server.cjs:182-213 | If upstream applies the payload as sent, the acknowledged profile is the edit with the name trimmed, email and nickname defaulted to "". |
| `Routes.OrdersRoute` | server.cjs:230-275 | The route lists the customer's orders with status "any", newest first. It answers one summary per order, in upstream order, and a missing list gives []. |
| `Routes.OrderDetailRoute` | server.cjs:292-396 | The answer is 200 iff the guards pass and the order is owned (or has no customer), and then the body is the mapped detail. A foreign order gives 403. |
| `Routes.ForbiddenRevealsNothing` | server.cjs:321-328 | Two refused orders give the identical response, so a 403 carries nothing of the order. |
| `Routes.OwnershipExample` | server.cjs:321-328 | An order of customer 555 gives 403 to customer "777" and 200 to "555". |
| `Routes.AddressesRoute` | server.cjs:414-442 | After the guards, the route lists the resolved customer's addresses and passes them through, with a missing list as []. |
| `Routes.ShopifyConfigured` | server.cjs:35-44 | The upstream client exists exactly when both the store domain and the access token are non-empty. |
| `Routes.Describe` | server.cjs:87-94 | GET / answers the name "Cardaris Portal API" and status "ok". `shopifyConfigured` is true iff domain and token are both non-empty, and `testCustomerConfigured` iff the test id is non-empty. |
| `Routes.DescriptorAgreesWithGuard` | server.cjs:87-94 | `shopifyConfigured` is false exactly when routes answer 500. With a test customer configured, no request is answered 400. |
| `Orders.OwnedBy` | server.cjs:321 | The ownership check passes when the order has no customer, or the requested id string equals `String(customer.id)`. Its meaning in numbers is `OwnedByMeansSameNumber`. |
| `Orders.OwnedByMeansSameNumber` | server.cjs:321 | The string comparison passes exactly when the requested id parses as the canonical decimal of the owner's id, so "0555" is refused. |
| `Orders.OneOwner` | server.cjs:321 | At most one requested id passes for an order with a customer. |
| `Orders.DisplayId` | server.cjs:264 | The display id is "#CMD-" followed by the canonical decimal whose value is the order number. |
| `Orders.DisplayIdRoundTrip` | server.cjs:264 | `#CMD-<order_number>` reads back to the order number. |
| `Orders.DisplayIdInjective` | server.cjs:264 | Distinct order numbers give distinct display ids. |
| `Orders.Description` | server.cjs:268 | The description is the first line item's title when it is truthy, otherwise "Commande Cardaris", so it is never empty. |
| `Orders.TotalFormatted` | server.cjs:267 | The formatted total is the upstream total, one space, then the currency, or "EUR" when the currency is missing or empty, so the currency part is never empty. |
| `Orders.SummarizeOrder` | server.cjs:260-273 | The display id reads back to the order number, and the status comes from the shared table. The total is `TotalFormatted` and the description is `Description` of the line items. The tracking URL is upstream's when truthy, otherwise `null`. |
| `Orders.TotalFormattedReadsBack` | server.cjs:267 | If neither the total nor the currency contains a space, splitting the formatted total gives both back. A missing or empty currency reads back as "EUR". |
| `Orders.SummarizeOrders` | server.cjs:260-273 | The list has the same length as the upstream orders, with one summary per order in order. |
| `Orders.SummaryExample` | server.cjs:260-273 | Order 1042, "49.90" EUR, "T-shirt", fulfilled gives `#CMD-1042`, "49.90 EUR", "T-shirt", "Expédiée", "success". |
| `Orders.CountryOf` | server.cjs:365-368 | The country is `country` if truthy, else `country_code` if truthy, else "", which happens only when both are falsy. |
| `Orders.NormalizeAddress` | server.cjs:356-387 | The block is null iff the upstream address is absent. The name is the display name of the address's first and last names. Line 1, line 2, zip, city and phone are the upstream values when truthy and "" exactly otherwise. The country is `CountryOf`. |
| `Orders.ShippingPrice` | server.cjs:343-344 | The nested amount is present iff the whole chain is present. `??` keeps an empty amount, unlike `||`. |
| `Orders.FirstDiscountCode` | server.cjs:345-346 | The result is the first code when it exists and is truthy, otherwise null, and never "". |
| `Orders.ViewLineItem` | server.cjs:347-353 | A detail line carries the upstream id, title, quantity, SKU, variant title and price as sent. |
| `Orders.MapOrderDetail` | server.cjs:330-394 | The detail has the readable display id, the upstream order id and creation date, and the status of the table. It keeps the currency, subtotal, total, shipping price and first discount code. Each line item keeps all six fields, in order. Both addresses are `NormalizeAddress` of upstream's. `financialStatus` and the tracking URL are upstream's when truthy, otherwise "" and `null`. |
| `Orders.SummaryAgreesWithDetail` | server.cjs:260-394 | The list entry and the detail of one order show the same id, status, variant and tracking URL. |
| `Fulfillment.MapFulfillmentStatus` | server.cjs:66-81 | The label reads back to the effective code, so no two rows share a label. The variant is one of success, warning, default and info. |
| `Fulfillment.StatusTable` | server.cjs:66-81 | Exact rows: fulfilled, partial, restocked and pending. Any other, missing or empty code gives ("En préparation", "info"). |
| `Fulfillment.EffectiveStatus` | server.cjs:67-81 | A known truthy code maps as itself, and anything else maps as "unfulfilled". |
| `Fulfillment.SameBadgeIffSameStatus` | server.cjs:66-81 | Two codes have equal badges iff they map as the same code. |
| `Profiles.DisplayName` | server.cjs:54 | The name neither starts nor ends with whitespace. |
| `Profiles.DisplayNameCases` | server.cjs:54 | No parts give "". One part gives that part trimmed. Two trimmed parts are joined by one space. |
| `Profiles.MapCustomerToProfile` | server.cjs:52-63 | The name is `DisplayName` of the first and last names, so it is trimmed. Email and nickname (from `note`) are the upstream values when truthy and "" exactly otherwise. Notifications are always {true, true} and mode is "shopify". |
| `Profiles.SplitFullName` | server.cjs:182-183 | The first name has no space. With a space, first + " " + last is the full name. Without one, first is the full name and last is "". |
| `Profiles.SplitFirstWord` | server.cjs:182-183 | A space-free first word, a space, then any rest splits back into that word and that rest, whatever spaces the rest holds. |
| `Profiles.SplitExamples` | server.cjs:182-183 | "Jean Paul Dupont" gives ("Jean", "Paul Dupont"), and "Jean Dupont" gives ("Jean", "Dupont"). The lemma writes both names word by word. |
| `Profiles.BuildUpdatePayload` | server.cjs:182-193 | `id` is the customer id. Names and email are never "", so empty ones are sent as null. The first name has no space, so the split is at the first space. The note is the nickname when truthy, else "". The sent names rejoin to the full name. |
| `Profiles.UpdateThenRead` | server.cjs:182-193 | Mapping a customer that holds the payload gives the edit back, with the name trimmed. |
| `JsValues.Truthy` | server.cjs:48 | A possibly missing string is truthy exactly when it is present and non-empty. |
| `JsValues.Or` | server.cjs:48 | `v \|\| fallback` is v when truthy, otherwise the fallback, so it is "" only when the fallback is. |
| `JsValues.OrNull` | server.cjs:48 | `v \|\| null` is v when truthy, otherwise null. |
| `JsValues.OrAfterOrNull` | server.cjs:188-190 | `(v \|\| null) \|\| d` equals `v \|\| d`, and `v \|\| null` is never "". |
| `JsStrings.IsJsWhitespace` | server.cjs:54 | The characters `trim` removes: the WhiteSpace and LineTerminator characters of ECMA-262 sections 12.2 and 12.3, with the Unicode category Zs. It is a character table without a contract of its own. |
| `JsStrings.LeadingWhitespace` | server.cjs:54 | The count covers exactly the run of whitespace at the front: every character before it is whitespace, and the next one is not. |
| `JsStrings.TrailingWhitespace` | server.cjs:54 | The count covers exactly the run of whitespace at the back. |
| `JsStrings.Trim` | server.cjs:54 | The result neither starts nor ends with whitespace, and it is no longer than the input. |
| `JsStrings.TrimDecomposes` | server.cjs:54 | The input is front whitespace + the trimmed result + back whitespace. |
| `JsStrings.TrimUnique` | server.cjs:54 | Trimming whitespace + m + whitespace, for a trimmed m, gives m. |
| `JsStrings.TrimIgnoresPadding` | server.cjs:54 | Extra whitespace at either end does not change the trim. |
| `JsStrings.TrimIdempotent` | server.cjs:54 | Trimming twice is trimming once. |
| `JsStrings.Split` | server.cjs:182 | There is at least one piece, and no piece holds the separator. There is exactly one piece iff the input has no separator. |
| `JsStrings.Join` | server.cjs:183 | `join(sep)` starts with the first piece, and with two or more pieces the separator follows it. |
| `JsStrings.JoinSplit` | server.cjs:182-183 | Joining the pieces of a split restores the string. |
| `JsStrings.SplitJoin` | server.cjs:182-183 | Splitting the join of separator-free pieces gives the pieces back. |
| `Decimal.ToDecimal` | server.cjs:264 | `String(n)` is canonical decimal with value n. |
| `Decimal.ToDecimalOfValue` | server.cjs:321 | Every canonical decimal string is `String` of its value. |
| `Decimal.ParseIsInverse` | server.cjs:321 | `Parse(s) == n` iff `String(n) == s`. |
| `Decimal.ToDecimalInjective` | server.cjs:264 | Distinct numbers render differently. |

## Left out

- HTTP and framework code (server.cjs:1-44, 471-473): Express routing, CORS, body parsing, `dotenv` and `app.listen` are not modelled. So are the axios client's base URL, access-token header and request paths. The configuration is the `Config` record, and each upstream call is an `UpstreamCall` value.
- Asynchronous request handling is not modelled. It serves only non-blocking I/O, and requests share no state.
- Logging (`console.log`, `console.error`, `console.warn`) is not modelled, including the logging of customer data at server.cjs:131-136. It is a side effect only.
- Locale and clock formatting is not modelled: the list date (server.cjs:266), the detail date and time (server.cjs:336), and so the `/health` route with its timestamp (server.cjs:99-105). These depend on the locale tables and the clock.
- The line-item total (server.cjs:354) is not modelled. It is floating-point arithmetic with `toFixed(2)`.
- The shipping lines of the detail (server.cjs:388-392) are a pass-through with no logic. The address list of `/addresses` is passed through with an arbitrary element type.
- The catch-all error paths (`catch` giving 500 with `details`) are not modelled. These include upstream failures and the TypeErrors raised by malformed replies, such as a missing `customer`, or `line_items` missing in the list route.
- The ticket stubs (server.cjs:459-466) are constant answers (`[]` and `{ok: true}`) with no state.
- `notifications` in the update body is read but unused by the source, so `ProfileEdit` omits it.
- JSON `null` and `undefined` are both `None`. Values of an unexpected JSON type (a numeric note, an array-valued `customerId` query) are not modelled.
- `order_number`, `id`, `customer.id`, `total_price` and `created_at` are always present. Their `undefined` renderings in templates are not modelled: Shopify sends these fields on every order.
- `Decimal.ToDecimal`: ids are modelled as exact non-negative integers in plain decimal. JSON parsing turns upstream ids into doubles, so an id above 2^53 is rounded before `String` sees it (server.cjs:264, 321). For such an id the source compares the rounded decimal with the request, so it may refuse the real owner or accept a neighbouring id, while the model compares the exact number. `String` also switches to exponent notation from 1e21. Neither is modelled; Shopify ids stay below 2^53.
