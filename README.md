# nano-banana, modelled in Dafny

nano-banana is a Next.js application that sells subscriptions to an AI
image editor. This project models its server-side core and the page logic
that decides what the user sees:

- **The payment provider's webhook.** It checks the `creem-signature`
  header and its HMAC, parses the event, and dispatches on the event type
  to six handlers. Each handler writes the `user_subscriptions` table or
  the append-only `payment_logs`. `WebhookRoute.WebhookHandler` holds the
  database (`SubscriptionStore.Database`) and has one method per handler.
  Each method is tied to a function on the tables (`ApplyEvent`).
- **The payment client** (`Creem`). It covers signature verification,
  with the byte-length throw of a constant-time comparison, and checkout
  sessions in mock and real mode. Every remote call passes its failure on
  to the caller.
- **Five API routes.** Each is a decision over its collaborators' results:
  - subscription status;
  - subscription cancel (a method on the database, with the provider call
    before the local update);
  - usage check;
  - checkout-session creation;
  - image processing.
- **Four client pieces.** Each is a class whose methods are the React
  state updates:
  - the mock checkout form, with its card/expiry/CVC filters (the card
    formatter is a loop, proved against a specification function);
  - the generator, with its data-URL / first-URL / text classification of
    the model output;
  - the pricing page, with the plan table in cents and the savings badge;
  - the subscription card, with icons, the "unlimited" sentinel, the
    near-limit warning and button visibility.

The database, the provider, the image model, the HMAC digest,
`JSON.parse`, the clock and the browser appear as inputs.
`user_subscriptions` is a map keyed by `user_id`. The upsert's conflict
key is not visible in the code, so this keying is an assumption. The
cancel route updates the row by its `id`, and the model takes that `id`
to be the same key. A write sends a patch in which `None` means "column
not sent". An upsert overlays the patch on the existing row, or on an
all-null row when there is none.
A `checkout.session.completed` event whose metadata has no `userId` sends
an upsert without its key; the store is assumed to reject it, so the table
is left unchanged.

Prices are integer cents. The savings percentage uses exact
round-half-up (`Math.round`) over integers. The near-limit warning
compares exact ratios.

## Model

| member | source | states |
|---|---|---|
| Common.SiteUrl | app/api/create-checkout-session/route.ts:27 | the site URL is the configured one when truthy, else `http://localhost:3000` |
| Common.IncludesIffOccurs | lib/creem.ts:44 | the `includes` scan is true exactly when the needle occurs at some position |
| SubscriptionStore.OverlayAbsorbs | app/api/webhooks/creem/route.ts:80-91 | a later write sending at least the same columns hides an earlier one completely |
| SubscriptionStore.Upsert | app/api/webhooks/creem/route.ts:80-91 | upsert adds the key if absent, overlays the patch on the existing (or all-null) row, and leaves every other row unchanged |
| SubscriptionStore.UpsertTwice | app/api/webhooks/creem/route.ts:80-91 | two upserts of the same key equal the second alone when it sends at least as much |
| SubscriptionStore.UpdateBySubscription | app/api/webhooks/creem/route.ts:130-138 | update by `creem_subscription_id` never adds or removes a key, overlays matching rows only, and leaves the others unchanged |
| SubscriptionStore.UpdateRow | app/api/subscription/cancel/route.ts:39-46 | update of one identified row: same keys, that row overlaid, every other row unchanged; no row, no change |
| SubscriptionStore.SelectActive | app/api/subscription/status/route.ts:17-22 | the active-row query finds a row exactly when the user's row has status `active`, else fails with PGRST116 |
| SubscriptionStore.Database.UpsertSubscription | app/api/webhooks/creem/route.ts:80-91 | an accepted upsert replaces the table by `Upsert`; a rejected one changes nothing; the log is untouched |
| SubscriptionStore.Database.UpdateSubscriptions | app/api/webhooks/creem/route.ts:130-138 | an accepted update replaces the table by `UpdateBySubscription`; a rejected one changes nothing |
| SubscriptionStore.Database.UpdateSubscriptionRow | app/api/subscription/cancel/route.ts:39-46 | an accepted update replaces the table by `UpdateRow`; a rejected one changes nothing |
| SubscriptionStore.Database.InsertPaymentLog | app/api/webhooks/creem/route.ts:174-182 | an accepted insert appends exactly the entry; the table is untouched |
| Creem.Rethrow | lib/creem.ts:86-95 | a remote failure reaches the caller as the same error, and a reply as the same data; nothing is swallowed |
| Creem.CancelUrlInjective | lib/creem.ts:130-139 | distinct subscription ids are cancelled through distinct URLs |
| Creem.CreemClient.GetCustomer | lib/creem.ts:98-112 | one GET to `/customers/<id>` with the client's API key; the result is the rethrown reply |
| Creem.CreemClient.GetSubscription | lib/creem.ts:114-128 | one GET to `/subscriptions/<id>` with the client's API key; the result is the rethrown reply |
| Creem.CreemClient.CancelSubscription | lib/creem.ts:130-145 | one POST to the cancel URL with the client's API key; the result is the rethrown reply, failing exactly when the remote call threw |
| Creem.CreemClient.CreateCheckoutSession | lib/creem.ts:19-96 | in mock mode nothing is sent and the mock session is returned; otherwise exactly the session request is sent and its reply rethrown |
| Creem.MockPlanId | lib/creem.ts:44 | the mock plan is `enterprise` exactly when the price id contains "enterprise", else `pro` |
| Creem.IsMockMode | lib/creem.ts:27 | development always mocks; otherwise mock mode is on exactly when the flag is the string `true` |
| Creem.MockSession | lib/creem.ts:47-53 | the mock session is `open`, echoes e-mail and metadata, and its URL starts with the site URL, ends with `/checkout?plan=<plan>&session_id=<id>`, and is exactly as long as the two together |
| Creem.SessionRequestFor | lib/creem.ts:57-69 | the real request has exactly one line item (price id, quantity 1), both URLs, the e-mail and the metadata verbatim |
| Creem.AsciiUtf8Length | lib/creem.ts:159-162 | an ASCII string (a hex digest) is as many bytes as characters |
| Creem.VerifyWebhookSignature | lib/creem.ts:148-163 | the verdict is "equal" exactly when the signature is the hex HMAC of the payload; the comparison throws exactly when the UTF-8 byte lengths differ |
| Creem.SameLengthAsciiIsCompared | lib/creem.ts:159-162 | an ASCII signature as long as the digest is compared, never thrown on |
| WebhookRoute.CheckoutCompleted | app/api/webhooks/creem/route.ts:73-99 | checkout completion leaves the metadata user's row active, with the plan, customer and subscription ids, and the period bounds in milliseconds; other rows are unchanged; without a user id nothing changes |
| WebhookRoute.SubscriptionCreated | app/api/webhooks/creem/route.ts:101-124 | creation upserts the user's row with the event status, the subscription id and the periods, and keeps the plan and customer |
| WebhookRoute.SubscriptionUpdated | app/api/webhooks/creem/route.ts:126-146 | an update sets status and periods on matching rows only, keeps plan and cancel time, and never adds a row |
| WebhookRoute.SubscriptionCancelled | app/api/webhooks/creem/route.ts:148-167 | cancellation sets `cancelled` and the cancel time on matching rows only, and keeps the period bounds, plan and id |
| WebhookRoute.SucceededEntry | app/api/webhooks/creem/route.ts:174-182 | the success entry has status `succeeded`, no failure reason, and the payment's id, amount and currency |
| WebhookRoute.FailedEntry | app/api/webhooks/creem/route.ts:197-206 | the failure entry has status `failed` and carries the failure reason |
| WebhookRoute.ApplyEvent | app/api/webhooks/creem/route.ts:34-61 | an unknown type or a write that is not accepted changes nothing; subscription events never touch the log; payment events never touch the table and append their one entry |
| WebhookRoute.UpsertEventsIdempotent | app/api/webhooks/creem/route.ts:80-91 | a redelivered checkout or creation event equals one delivery at the later time, and one at the first time up to `updated_at` |
| WebhookRoute.UpdateEventsNeverInsert | app/api/webhooks/creem/route.ts:130-159 | update and cancel events keep the set of rows |
| WebhookRoute.PaymentEventsAppendOne | app/api/webhooks/creem/route.ts:174-206 | a payment event grows the log by exactly one entry, keeps the earlier entries, and keeps the table |
| WebhookRoute.CheckRequest | app/api/webhooks/creem/route.ts:8-31 | a missing header gives 400 "Missing signature"; a wrong signature 400 "Invalid signature"; the event is dispatched exactly when the header is present, the secret set, the signature matches and the body parses; an unset secret, a byte-length mismatch, or a matching signature on a body that does not parse gives 500 "Webhook processing failed"; every rejection is 400 or 500 |
| WebhookRoute.WrongLengthSignatureIs500 | app/api/webhooks/creem/route.ts:18-29 | a signature of the wrong byte length is answered 500, not 400 |
| WebhookRoute.Acknowledge | app/api/webhooks/creem/route.ts:63-70 | the answer is `{received: true}` unless a handled event's client creation threw, which gives 500 "Webhook processing failed" |
| WebhookRoute.WebhookHandler.HandleCheckoutCompleted | app/api/webhooks/creem/route.ts:73-99 | the table becomes `CheckoutCompleted` of the old one when the write is accepted; the error escapes only when the client could not be made |
| WebhookRoute.WebhookHandler.HandleSubscriptionCreated | app/api/webhooks/creem/route.ts:101-124 | the table becomes `SubscriptionCreated` of the old one when accepted; the log is untouched |
| WebhookRoute.WebhookHandler.HandleSubscriptionUpdated | app/api/webhooks/creem/route.ts:126-146 | the table becomes `SubscriptionUpdated` of the old one when accepted; the log is untouched |
| WebhookRoute.WebhookHandler.HandleSubscriptionCancelled | app/api/webhooks/creem/route.ts:148-167 | the table becomes `SubscriptionCancelled` of the old one when accepted; the log is untouched |
| WebhookRoute.WebhookHandler.HandlePaymentSucceeded | app/api/webhooks/creem/route.ts:169-190 | the log gains the success entry when accepted; the table is untouched |
| WebhookRoute.WebhookHandler.HandlePaymentFailed | app/api/webhooks/creem/route.ts:192-214 | the log gains the failure entry when accepted; the table is untouched |
| WebhookRoute.WebhookHandler.Handle | app/api/webhooks/creem/route.ts:5-71 | a rejected request changes neither store and gets the gate's response; a dispatched event changes the stores exactly as `ApplyEvent` and is acknowledged by `Acknowledge` |
| WebhookRoute.CheckoutMetadataRoundTrip | app/api/webhooks/creem/route.ts:77-91 | metadata built by the checkout route leaves an active row for that user on that plan |
| StatusRoute.Counters | app/api/subscription/status/route.ts:52-53 | without a usage row: 0 of 5; with one: an absent used count is reported as 0, an absent or 0 limit as 5, any other value as stored, so the limit is never 0 |
| StatusRoute.ViewOf | app/api/subscription/status/route.ts:44-56 | without a row: plan `free`, status `inactive`, not active, no period end; with one: its plan id or `free` when that is empty, its status or `inactive` when that is empty, active exactly when the status is `active`, and its period end |
| StatusRoute.GetStatus | app/api/subscription/status/route.ts:4-64 | 401 without a user; 500 on a lookup error other than PGRST116; 500 on a usage error; 200 with the view exactly otherwise |
| StatusRoute.StatusFromTable | app/api/subscription/status/route.ts:17-51 | against the table, the view is active exactly when the user's row is active, and otherwise shows the free tier |
| StatusRoute.NewUserSeesFreeTier | app/api/subscription/status/route.ts:44-55 | a user with no row and no usage sees `free`, inactive, 0 of 5 |
| UsageCheckRoute.CheckUsage | app/api/usage/check/route.ts:4-46 | 401 with no RPC call without a user; otherwise one RPC call, and 500 on error, 429 "Usage limit exceeded" on a falsy answer, success only on a truthy one |
| UsageCheckRoute.FailsClosed | app/api/usage/check/route.ts:20-38 | an authenticated caller gets success only when the RPC answered a truthy value |
| CancelRoute.CancelSubscription | app/api/subscription/cancel/route.ts:5-64 | 401 and 404 make no provider call and no write; the provider call comes first and a throw there leaves the row; a rejected update gives 500; success exactly when all steps pass, with the row marked cancelled |
| CancelRoute.CancelledRowIsNotActive | app/api/subscription/cancel/route.ts:39-46 | after the local update the row is no longer active, carries the cancel time, and keeps its subscription id |
| CheckoutSessionRoute.SessionMetadata | app/api/create-checkout-session/route.ts:35-39 | metadata is exactly `userId`, `planId` and (when present) `userEmail` |
| CheckoutSessionRoute.SessionParams | app/api/create-checkout-session/route.ts:27-40 | success and cancel URLs are built on the site URL; price id, e-mail and metadata are passed on |
| CheckoutSessionRoute.CreateCheckoutSession | app/api/create-checkout-session/route.ts:5-50 | 400 for a missing field before authentication; 401 without a user; the client is called exactly when both pass; 200 with the session URL or 500 on a provider error |
| CheckoutSessionRoute.MockModeUrl | app/api/create-checkout-session/route.ts:30-42 | in mock mode the URL returned is the local mock checkout page for the plan read off the price id |
| ProcessImageRoute.SelectResult | app/api/process-image/route.ts:73-91 | the first image wins; else a truthy content as is; else "Refusal: " + refusal; else the fixed fallback text |
| ProcessImageRoute.ResultNonEmptyWithoutImages | app/api/process-image/route.ts:80-91 | without images the result is never empty |
| ProcessImageRoute.ProcessImage | app/api/process-image/route.ts:27-102 | 400 on a falsy prompt or image before the key check; 500 without a key; the model is called exactly when both pass, with the fixed model and prefixed prompt; 200 with the selected result, 500 "Internal Server Error" on a throw |
| ProcessImageRoute.PromptIsPrefixed | app/api/process-image/route.ts:52 | the text sent is the fixed prefix followed by the user's prompt verbatim |
| CheckoutPage.Digits | app/checkout/page.tsx:55 | the filter keeps only ASCII digits, is never longer, and keeps a digit-only string as it is |
| CheckoutPage.FormatCardNumber | app/checkout/page.tsx:54-67 | the loop builds exactly the blocks of the specification `FormattedCard` and joins them |
| CheckoutPage.BlocksShape | app/checkout/page.tsx:58-61 | the blocks are 4 characters except the last (1 to 4), and there are ceil(n/4) of them |
| CheckoutPage.JoinedBlocksLayout | app/checkout/page.tsx:58-63 | joined blocks have a space exactly at every fifth position, digits elsewhere (the last one too), and length n + (n-1)/4 |
| CheckoutPage.JoinedBlocksDigits | app/checkout/page.tsx:55-63 | dropping the spaces of the joined blocks gives the digits back |
| CheckoutPage.CardNumberShape | app/checkout/page.tsx:54-67 | the formatted number has only digits and single spaces between digits, and at most 19 characters |
| CheckoutPage.CardNumberDigits | app/checkout/page.tsx:55-66 | with at least 4 digits it keeps the first min(16, n) of them; with fewer it is the digit-only string |
| CheckoutPage.CardNumberIdempotent | app/checkout/page.tsx:54-67 | formatting a formatted card number changes nothing |
| CheckoutPage.FormatExpiry | app/checkout/page.tsx:69-75 | fewer than 2 digits are returned as is; otherwise exactly the first 2 digits, `/`, and the next up to 2 digits (length min(4, n) + 1); at most 5 characters |
| CheckoutPage.ExpiryIdempotent | app/checkout/page.tsx:69-75 | formatting a formatted expiry changes nothing |
| CheckoutPage.CvcFilter | app/checkout/page.tsx:209 | the CVC keeps digits only and filtering twice changes nothing |
| CheckoutPage.PlanLookupAsWritten | app/checkout/page.tsx:47-48 | the lookup as written answers an inherited `Object.prototype` member for those names |
| CheckoutPage.PlanParam | app/checkout/page.tsx:47 | a non-empty `plan` parameter is used as given; an absent or empty one becomes `pro`; the key is never empty |
| CheckoutPage.InheritedNameDefeatsFallback | app/checkout/page.tsx:48 | `?plan=toString` is unknown yet does not fall back to the pro plan |
| CheckoutPage.PlanFor | app/checkout/page.tsx:47-48 | the enterprise plan exactly for `enterprise`, pro for anything else; agrees with the lookup on its own entries |
| CheckoutPage.CheckoutForm.constructor | app/checkout/page.tsx:38-48 | the form starts empty, not processing, with the plan of the parameter |
| CheckoutPage.CheckoutForm.ChangeCardNumber | app/checkout/page.tsx:183-184 | the card field holds the formatted input, other fields unchanged, and stays a fixed point of the formatter within 19 characters |
| CheckoutPage.CheckoutForm.ChangeExpiry | app/checkout/page.tsx:197-198 | the expiry field holds the formatted input and stays a fixed point within 5 characters |
| CheckoutPage.CheckoutForm.ChangeCvc | app/checkout/page.tsx:209 | the CVC field holds the digits of the input |
| CheckoutPage.CheckoutForm.ChangeName | app/checkout/page.tsx:171 | the name field holds the input, other fields unchanged |
| CheckoutPage.CheckoutForm.ChangeEmail | app/checkout/page.tsx:159 | the e-mail field holds the input, other fields unchanged |
| CheckoutPage.CheckoutForm.Submit | app/checkout/page.tsx:77-87 | submitting marks processing and goes to the success page with the session id and the raw plan parameter |
| Generator.RunEnd | components/generator.tsx:146 | the greedy run ends at the first whitespace or `)` (or the end) |
| Generator.FirstUrl | components/generator.tsx:146-147 | the position found is the leftmost where a URL match starts; none means no position does |
| Generator.FirstUrlMatch | components/generator.tsx:146-148 | there is a match exactly when some position starts one, and the match is the text at the leftmost such position |
| Generator.UrlMatchIsMaximal | components/generator.tsx:146-148 | the match starts with `http://` or `https://`, has at least one character after the scheme, none of them whitespace or `)`, and cannot be extended |
| Generator.ImageSource | components/generator.tsx:148 | an output starting with `data:image` is the image itself; otherwise the first URL match |
| Generator.Display | components/generator.tsx:141-166 | the placeholder exactly for a falsy output; for a truthy one an image exactly when a source is found, with that source; otherwise the text verbatim |
| Generator.DisplayKinds | components/generator.tsx:146-158 | a bare URL is shown as that image; text without any URL is shown as text |
| Generator.GeneratorState.constructor | components/generator.tsx:13-16 | no image, empty prompt, not generating, no output |
| Generator.GeneratorState.UploadImage | components/generator.tsx:18-27 | a chosen file's data URL becomes the preview; no file, no change |
| Generator.GeneratorState.SetPrompt | components/generator.tsx:120 | the prompt holds the input |
| Generator.GeneratorState.GenerateDisabled | components/generator.tsx:129 | an enabled button means a non-empty image and a non-empty prompt; the button is disabled while generating |
| Generator.GeneratorState.BeginGenerate | components/generator.tsx:29-45 | without image or prompt nothing is sent and nothing changes; otherwise the output is cleared, generating starts, and the prompt and image are sent; a click on an enabled button always sends |
| Generator.GeneratorState.CompleteGenerate | components/generator.tsx:47-58 | the output is set only on an OK answer; generating always ends |
| PricingPage.RoundHalfUp | app/pricing/page.tsx:203 | the result is the nearest integer to n/d, halves going up |
| PricingPage.CurrentPrice | app/pricing/page.tsx:185-187 | the yearly price in yearly mode, the monthly price otherwise |
| PricingPage.OriginalPrice | app/pricing/page.tsx:189-191 | the original yearly price in yearly mode, the original monthly price otherwise |
| PricingPage.Credits | app/pricing/page.tsx:193-195 | the yearly credits in yearly mode, the monthly credits otherwise |
| PricingPage.Images | app/pricing/page.tsx:197-199 | the yearly image count in yearly mode, the monthly one otherwise |
| PricingPage.PriceId | app/pricing/page.tsx:157 | the yearly provider price id in yearly mode, the monthly one otherwise |
| PricingPage.SavingsPercentage | app/pricing/page.tsx:201-204 | 0 in monthly mode or without an original yearly price; otherwise the rounded percentage off the original |
| PricingPage.SavingsInRange | app/pricing/page.tsx:203 | a yearly price between 0 and the original gives a percentage in [0, 100] |
| PricingPage.SavingsTable | app/pricing/page.tsx:44-140 | the badges are 20, 50 and 50 per cent in yearly mode, 0 in monthly mode |
| PricingPage.PlanTableConsistent | app/pricing/page.tsx:44-199 | every plan has 2 credits per image in both periods, and yearly price, credits and images 12 times the monthly ones |
| PricingPage.MockModeAlwaysPro | app/pricing/page.tsx:157 | no price id names "enterprise", so mock checkout gives every plan `pro` |
| PricingPage.PricingPageState.constructor | app/pricing/page.tsx:144-145 | yearly billing and no busy button at start |
| PricingPage.PricingPageState.SetYearly | app/pricing/page.tsx:145 | the toggle holds the chosen value |
| PricingPage.PricingPageState.SubscribeDisabled | app/pricing/page.tsx:342 | a disabled button means a request is pending, and for the page's plans only the card of the pending plan is disabled |
| PricingPage.PricingPageState.BeginSubscribe | app/pricing/page.tsx:148-169 | without a user: go to `/login`, no request, no state change; otherwise that plan is busy and the request carries the period's price id, the plan id and the period |
| PricingPage.PricingPageState.FinishSubscribe | app/pricing/page.tsx:171-182 | the page navigates exactly to a truthy URL; the busy state always clears |
| SubscriptionStatusWidget.IconFor | components/subscription-status.tsx:91-100 | Crown exactly for `pro`, Rocket exactly for `enterprise`, Zap otherwise |
| SubscriptionStatusWidget.ColorFor | components/subscription-status.tsx:102-111 | yellow exactly for `pro`, purple exactly for `enterprise`, blue otherwise |
| SubscriptionStatusWidget.AboveEightyPercent | components/subscription-status.tsx:149 | with a positive limit, a count at or over the limit warns and one at or under 80% does not; with a zero limit, exactly a positive count warns |
| SubscriptionStatusWidget.IconMatchesColor | components/subscription-status.tsx:91-111 | icon and colour always come in the same three pairs |
| SubscriptionStatusWidget.AboveEightyPercentIsRatio | components/subscription-status.tsx:113 | the integer test agrees with `used / limit * 100 > 80` computed exactly |
| SubscriptionStatusWidget.UsageLineOf | components/subscription-status.tsx:142-149 | limit 999999 shows ∞, an empty bar and no warning; the warning shows exactly above 80% with another limit |
| SubscriptionStatusWidget.ButtonsFor | components/subscription-status.tsx:165-181 | upgrade exactly on `free`, manage/cancel exactly when active and not `free`, never both |
| SubscriptionStatusWidget.SubscriptionCard.constructor | components/subscription-status.tsx:23-25 | no data, loading, not cancelling |
| SubscriptionStatusWidget.SubscriptionCard.Render | components/subscription-status.tsx:73-89 | a skeleton while loading, nothing without data, otherwise the card with the data |
| SubscriptionStatusWidget.SubscriptionCard.FinishFetch | components/subscription-status.tsx:31-43 | an OK body replaces the data, anything else keeps it; loading always ends |
| SubscriptionStatusWidget.SubscriptionCard.BeginCancel | components/subscription-status.tsx:45-50 | a click needs the enabled button (`disabled={cancelling}`, line 177); a declined confirm sends nothing and changes nothing; a confirmed one starts cancelling, which disables the button |
| SubscriptionStatusWidget.SubscriptionCard.FinishCancel | components/subscription-status.tsx:51-70 | a refetch exactly after an OK answer, with the success alert, else the failure alert; cancelling always ends and the button is enabled again |
| SubscriptionStatusWidget.CancelThenRefetchOffersUpgrade | components/subscription-status.tsx:59-61 | after a successful cancel the refetched status shows the upgrade button and not manage/cancel |

## Left out

- HMAC-SHA256 is the parameter `hmacHex`; its internals are not modelled. The constant-time property of `timingSafeEqual` is not modelled either.
- `JSON.parse` of the webhook body is the parameter `parse`; `None` stands for a throw. Event fields are typed. A numeric field that is absent (and so becomes `NaN` dates) is not modelled.
- A JSON `null` is treated like an absent value throughout.
- Network I/O (Supabase queries and RPCs, axios, the image-model client, `fetch`) is replaced by result parameters. Auth failure and "no user" are both `None`.
- WebhookRoute.CheckoutCompleted: an event whose metadata lacks `userId` sends an upsert without the `user_id` key; the store is assumed to reject it, so the table stays as it was. What the database actually does with such a row is not modelled.
- `createClient()` failures in the four API routes other than the webhook are not modelled. In the webhook handlers they are modelled, because there they escape the handler's `try`.
- `increment_user_usage` and `get_or_create_user_usage` are database functions that are not part of this model; their answers are inputs. Their atomicity and race behaviour are not modelled.
- Concurrency between requests, and between overlapping async handlers on a page, is not modelled. Each async handler is split at its `await` into a begin and a finish method.
- Time, randomness and delays are not modelled: `Date.now()`, `new Date()`, `Math.random()` session ids and `setTimeout` appear as parameters or are dropped.
- The cancel route's provider call (a client built without an API key) is the boolean `providerOk`. A lookup error is folded into "no active row"; both give 404.
- ProcessImageRoute.ProcessImage: for exceptions other than the model's own, `details` is `None` rather than the exception's message. The OpenRouter headers and the `full_response` logging are not modelled.
- CheckoutPage.CheckoutForm.constructor: the form holds the corrected plan lookup `PlanFor`, not the as-written `PlanLookupAsWritten`, so it does not capture the page reading `name` and `price` off an inherited member for `?plan=toString` and similar names (see "## Findings").
- SubscriptionStatusWidget.AboveEightyPercent compares exact ratios. It does not model the floating-point rounding of `used / limit * 100`, which can differ only when the limit exceeds about 10^15.
- Float formatting (`toFixed`, `toLocaleString`) and the currency selector are not modelled, because they only affect display.
- JSX rendering, styling, routing, `alert`/`confirm` dialogs (the answer to `confirm` is a parameter) and `console` logging are not modelled.
- Browser `maxLength` truncation of input values is not modelled. The formatters are proved to fit the limits anyway.
- The plan `features` lists are not modelled, because they are display text.
- Auth routes, static pages and presentation components are not part of this model.

## Findings

| source | as written | input that shows it | evidently intended | confidence | as-written member | corrected member |
|---|---|---|---|---|---|---|
| app/checkout/page.tsx:48 | `planDetails[planId]` with `planDetails.pro` as the falsy fallback, on a plain object literal | `/checkout?plan=toString` (also `constructor`, `__proto__`, …) yields an inherited function or object, so the fallback never fires and the page reads `name`/`price` off it | any plan other than `pro`/`enterprise` shows the pro plan | not executed; high | CheckoutPage.InheritedNameDefeatsFallback | CheckoutPage.PlanFor |
