# KinScreen checkout and messaging logic, in Dafny

This project models the logic behind the KinScreen marketing site and its
checkout, and proves properties of that logic. The site is a React front
end plus one Supabase edge function. The model covers six pieces:

- **Payment initialisation** (`Payments`). `initializePayment` asks the
  back end for a card payment intent, with up to three attempts and a
  1 s, then 2 s back-off. It stops at the first usable client secret.
- **Subscription cancellation** (`Subscription`). `cancelSubscription`
  runs a chain of guards: the account by lower-cased e-mail, a
  case-insensitive full-name check, the single active subscription, the
  payment provider's cancel when the subscription has a provider id, and
  the `cancel_subscription` database procedure.
- **Checkout page** (`Checkout`). The page's component state is a class.
  Its handlers are methods: promo code, payment-intent effect, payment
  success, and the Apply and Complete Order buttons. The route taken
  after payment is a function.
- **E-mail client** (`Email`). `sendEmail` turns every outcome into a
  boolean. Four template builders choose the recipient, subject and text.
- **Slideshow** (`ImageViewer`). The current index is advanced by a
  timer unless paused, and stepped back by a button.
- **E-mail queue processor** (`ProcessEmails`). The edge function takes
  up to ten pending rows, sends each and marks each sent or failed.

`Wrappers` (Option, Result) and `Text` are shared helpers. `Text` holds
ASCII `toLowerCase`, the decimal rendering of numbers with its inverse,
and substring facts.

Outside services are parameters of the operations that call them:

- the payment back end: attempt number → response;
- the mail relay: request body → response or exception;
- the customer and subscription tables, the payment provider and the
  database procedure: a `Backend` of lookup and call functions;
- the queue fetch, the SMTP server and the clock.

Waits and timer ticks are returned values and explicit calls.

Three points about the code that shape the model:

- `cancelSubscription` sends no confirmation e-mail
  (src/services/subscription.ts:65-78). The model sends none.
- After payment, the gift e-mail is sent only when a gift has a
  non-empty recipient e-mail (src/pages/Checkout.tsx:82).
- Failures of `cancelSubscription` are not exceptions. Each is a
  `{success, message}` pair with one of a fixed set of messages, and
  those messages are modelled exactly.

## Model

| member | source | states |
|---|---|---|
| Text.Lower | src/services/subscription.ts:14 | lower-casing keeps the length and lower-cases each ASCII letter in place |
| Text.LowerConcat | src/services/subscription.ts:25-26 | lower-casing a concatenation is the concatenation of the lower-cased parts |
| Text.NatToStringRoundTrip | supabase/functions/process-emails/index.ts:88 | the decimal text of a count reads back as that count, so the rendering is injective |
| Text.NatToStringInjective | supabase/functions/process-emails/index.ts:88 | two different numbers never have the same decimal text |
| Payments.Classify | src/services/payments.ts:25-37 | an attempt yields a secret iff the response is ok with a present, non-empty `clientSecret`, and the secret is returned unchanged; a non-ok status fails with "Server responded with <status>: <statusText>"; an ok body without the secret fails with the missing-secret message |
| Payments.Usable | src/services/payments.ts:25-33 | defines a usable answer: an ok HTTP response whose JSON body has a present, non-empty `clientSecret` |
| Payments.BackoffTotal | src/services/payments.ts:40-44 | back-offs 1000·2^k ms for k = 0..n-1 add up to (2^n − 1)·1000 ms |
| Payments.Backoff | src/services/payments.ts:42 | defines the wait after failed attempt k, 2^k · 1000 ms, which is at least one second |
| Payments.InitializePayment | src/services/payments.ts:8-49 | 1 to 3 requests, all with the same amount and the currency (default "usd"); every attempt before the last one failed; success returns the last attempt's secret; success iff some of the three attempts is usable; failure means three attempts and the message "Payment initialization failed after 3 attempts: " plus the third attempt's error; the wait after failed attempt k is 2^k·1000 ms, one fewer wait than requests, at most 3000 ms in all |
| Subscription.CancelSubscription | src/services/subscription.ts:8-85 | the customer is looked up first, by the lower-cased e-mail. Each outcome gives its exact result and call trace: no account, or a name mismatch, gives its message after that lookup alone; no active subscription gives its message after exactly the two lookups; a refusal by the provider gives the generic error after the provider call, and the procedure is not run; otherwise the provider is called iff the subscription has a non-empty provider id, the procedure runs last, and its outcome decides between the cancelled message and the generic error. Success holds iff the independent `Cancellable` condition holds, and iff the message is the cancelled message. Every message is one of the five fixed ones |
| Subscription.NameCheckByParts | src/services/subscription.ts:25-26 | the name check compares lower-cased first name, a space and lower-cased last name with the lower-cased input |
| Subscription.EmailCaseIrrelevant | src/services/subscription.ts:14 | two e-mails equal up to case give the same result and the same calls |
| Subscription.NameCaseIrrelevant | src/services/subscription.ts:25-26 | two names equal up to case give the same result and the same calls |
| Subscription.LowerCasedNameAccepted | src/services/subscription.ts:25-26 | a name that passes the check also passes it when entered lower-cased |
| Subscription.NameMatches | src/services/subscription.ts:25-26 | defines the name check: the lower-cased "first last" equals the lower-cased input |
| Subscription.Cancellable | src/services/subscription.ts:8-85 | defines, without the chain's order, when cancellation succeeds: an account with a matching name, an active subscription, the provider accepting when it knows the subscription, and the procedure succeeding |
| Email.RequestBody | src/services/email.ts:17-22 | the relay body has the fixed sender `support@kinscreen.com` and the caller's to, subject and text unchanged |
| Email.SendEmail | src/services/email.ts:4-60 | the result is true iff the relay answered ok; a non-ok answer and a thrown error both give false, never an exception |
| Email.WelcomeEmail | src/services/email.ts:62-70 | sent to the given address with subject "Welcome to KinScreen!" |
| Email.WelcomeTrialWording | src/services/email.ts:65-72 | the trial greeting follows the opening iff the plan name is exactly "Free Trial"; any other plan is thanked by name in that place |
| Email.WelcomeTrialBlocks | src/services/email.ts:74-100 | a "Free Trial" welcome contains both the trial details and the conversion reminder |
| Email.WelcomeSignIn | src/services/email.ts:86 | the welcome tells the reader to sign in with the address it was sent to |
| Email.GiftEmail | src/services/email.ts:107-111 | sent to the recipient with the gift subject |
| Email.GiftNamesSenderAndPlan | src/services/email.ts:112-114 | the gift text greets the recipient and contains the announcement naming both the sender and the plan |
| Email.CancellationEmail | src/services/email.ts:135-140 | sent to the given address with the cancellation subject |
| Email.CancellationAddressesName | src/services/email.ts:140 | the cancellation text opens with "Dear <name>," |
| Email.OrderConfirmationEmail | src/services/email.ts:159-172 | sent to the given address with subject "KinScreen - Order Confirmation #<order number>" |
| Email.OrderAmounts | src/services/email.ts:181-190 | right after the plan line comes the fixed $1.00 authorisation text for a trial and "Amount: <amount>" otherwise; subtotal and total are both the amount |
| Checkout.PromoAcceptedSpellings | src/pages/Checkout.tsx:68 | a code is accepted iff it is "free" in some mix of upper and lower case |
| Checkout.PromoAccepted | src/pages/Checkout.tsx:68 | defines acceptance: the lower-cased code is "free" |
| Checkout.ApplyEnabled | src/pages/Checkout.tsx:245 | defines when Apply is enabled: no promo applied and a non-empty code |
| Checkout.CompleteOrderEnabled | src/pages/Checkout.tsx:333 | defines when Complete Order is enabled: not processing, name and e-mail filled in, and a recipient e-mail for a gift |
| Checkout.SenderName | src/pages/Checkout.tsx:83 | the giver's name is `gifterName` when non-empty, else `customerName` |
| Checkout.Route | src/pages/Checkout.tsx:82-94 | the gift confirmation is chosen iff it is a gift with a non-empty recipient e-mail, carrying recipient, plan, giver's name and message; otherwise the plain confirmation carries only the plan name |
| Checkout.EnabledOrderRoutes | src/pages/Checkout.tsx:333 | when Complete Order is enabled, the gift route is taken exactly for a gift, with a non-empty giver's name |
| Checkout.CheckoutPage.constructor | src/pages/Checkout.tsx:33-46 | the page starts with empty fields, no promo, card payment, no secret, idle, no error; the plan is the one passed in or the default Basic plan |
| Checkout.CheckoutPage.SetCustomerName | src/pages/Checkout.tsx:130 | only `customerName` changes |
| Checkout.CheckoutPage.SetCustomerEmail | src/pages/Checkout.tsx:145 | only `customerEmail` changes |
| Checkout.CheckoutPage.ToggleGift | src/pages/Checkout.tsx:163 | only `isGift` changes, to its negation |
| Checkout.CheckoutPage.SetGiftEmail | src/pages/Checkout.tsx:182 | only `giftEmail` changes |
| Checkout.CheckoutPage.SetGifterName | src/pages/Checkout.tsx:194 | only `gifterName` changes |
| Checkout.CheckoutPage.SetGiftMessage | src/pages/Checkout.tsx:210 | only `giftMessage` changes |
| Checkout.CheckoutPage.SetPromoCode | src/pages/Checkout.tsx:238 | only `promoCode` changes |
| Checkout.CheckoutPage.SelectPaymentMethod | src/pages/Checkout.tsx:271 | only `paymentMethod` changes |
| Checkout.CheckoutPage.InitPayment | src/pages/Checkout.tsx:49-65 | no request and no change once a promo is applied or for PayPal; otherwise 1 to 3 requests for the plan's cents in "usd"; the secret of the last attempt is stored with the error cleared, or the fixed initialisation-failed error is set and nothing else changes |
| Checkout.CheckoutPage.HandlePromoCode | src/pages/Checkout.tsx:67-75 | an accepted code sets `promoApplied`, clears the error and drops the secret; any other code sets "Invalid promo code" and changes nothing else; `promoApplied` never goes back to false, and an applied promo never coexists with a secret |
| Checkout.CheckoutPage.ClickApply | src/pages/Checkout.tsx:243-245 | the handler runs iff Apply is enabled (no promo applied and a code typed); otherwise nothing changes |
| Checkout.CheckoutPage.HandlePaymentSuccess | src/pages/Checkout.tsx:77-100 | navigates as `Route` says; the gift e-mail is built for the recipient, the giver's name and the plan exactly when the gift route is taken; afterwards the page is idle with no error and nothing else changed |
| Checkout.CheckoutPage.ClickCompleteOrder | src/pages/Checkout.tsx:330-333 | acts iff the promo is applied and Complete Order is enabled. When it acts, it navigates as `Route` says, the page ends idle with no error and nothing else changed, and the gift e-mail (recipient, giver's name, plan) is sent exactly when the gift route is taken. Otherwise nothing changes and nothing is sent |
| ImageViewer.StepsStayInRange | src/components/ImageViewer.tsx:16-24 | for an index in [0, n), both the next and the previous index lie in [0, n) |
| ImageViewer.JsRem | src/components/ImageViewer.tsx:16 | JavaScript's `%` truncates toward zero: Euclidean remainder for a non-negative dividend, and its negation on the absolute value otherwise |
| ImageViewer.Next | src/components/ImageViewer.tsx:16 | defines the index after a tick, `(prev + 1) % length` |
| ImageViewer.Prev | src/components/ImageViewer.tsx:24 | defines the index after Previous, `(prev - 1 + length) % length` |
| ImageViewer.NextPrevInverse | src/components/ImageViewer.tsx:16-24 | previous undoes next and next undoes previous |
| ImageViewer.AdvanceIsOffset | src/components/ImageViewer.tsx:16 | k ticks from index i land on (i + k) mod n |
| ImageViewer.FullCycle | src/components/ImageViewer.tsx:16 | n ticks return to the starting index |
| ImageViewer.Slideshow.constructor | src/components/ImageViewer.tsx:9-11 | the slideshow starts at index 0, playing |
| ImageViewer.Slideshow.Tick | src/components/ImageViewer.tsx:13-21 | the index moves to the next one iff not paused and there are at least two images; the pause flag is unchanged |
| ImageViewer.Slideshow.Previous | src/components/ImageViewer.tsx:23-25 | the index moves to the previous one, wrapping at 0, paused or not |
| ImageViewer.Slideshow.TogglePause | src/components/ImageViewer.tsx:63 | the pause flag flips and the index is unchanged |
| ImageViewer.Slideshow.Counter | src/components/ImageViewer.tsx:99 | the counter is the index plus one and lies between 1 and the number of images |
| ImageViewer.Slideshow.CurrentImage | src/components/ImageViewer.tsx:54 | the image shown is one of the images |
| ProcessEmails.PendingBatch | supabase/functions/process-emails/index.ts:28-32 | at most 10 rows, each a pending row of the table; a batch short of the limit holds every pending row; distinct ids stay distinct |
| ProcessEmails.EmptyBatchMeansNonePending | supabase/functions/process-emails/index.ts:36-41 | an empty batch means the table has no pending row |
| ProcessEmails.UpdateWhereId | supabase/functions/process-emails/index.ts:63-69 | an update keyed by id changes exactly the rows with that id and keeps the table's length |
| ProcessEmails.ApplyUpdate | supabase/functions/process-emails/index.ts:63-81 | an update keeps the id, address, subject and content; marking sent sets the status and the send time; marking failed sets the status and the error message |
| ProcessEmails.UpdateFor | supabase/functions/process-emails/index.ts:54-81 | a row is marked sent, at the run's time, iff its send was delivered; otherwise it is marked failed with the send's own message |
| ProcessEmails.Settled | supabase/functions/process-emails/index.ts:52-83 | defines the table after the loop: the updates of the batch rows applied in batch order |
| ProcessEmails.SettledOutside | supabase/functions/process-emails/index.ts:69-81 | after the loop, rows whose id is not in the batch are unchanged and no row is added or dropped |
| ProcessEmails.SettledInside | supabase/functions/process-emails/index.ts:52-83 | after the loop, a row with a batch row's id is marked sent (with the time) or failed (with the message) according to that row's own send, whatever happened to the others |
| ProcessEmails.RunOutcome | supabase/functions/process-emails/index.ts:52-83 | in a table with distinct ids, each batch row ends as its send went (sent or failed) and every other row is as it was |
| ProcessEmails.ProcessedDeterminesCount | supabase/functions/process-emails/index.ts:87-89 | two different counts never give the same "Processed N emails" message |
| ProcessEmails.ProcessedIsNotNoPending | supabase/functions/process-emails/index.ts:36-41 | a "Processed N emails" answer is never the "No pending emails" answer |
| ProcessEmails.EmailQueue.Serve | supabase/functions/process-emails/index.ts:17-100 | a fetch error gives 500 with no connection and no change; no pending rows gives 200 "No pending emails" with no connection and no change; an SMTP connect error gives 500 with no change; otherwise the table is the settled batch and the answer is 200 "Processed N emails" with N the batch size, or 500 if closing fails |

## Left out

- Floating point: the page converts `"$5"` with `parseFloat` and the client multiplies by 100 and rounds. The model takes the plan price as integer cents.
- Real time: `wait`/`setTimeout` and `setInterval` are not modelled. Waits are returned as values, and a timer firing is a `Tick` call. The interval length and the clock behind the order number and date are parameters or left out. The source comment mentioning a 4 s wait describes a wait the loop never reaches.
- React scheduling: each firing of the payment effect is an explicit `InitPayment` call (on mount, and whenever the price, promo state or method changes). StrictMode double invocation is not modelled.
- Checkout.CheckoutPage.InitPayment: the request and its answer form one atomic step. The source awaits the answer, so a promo applied while a request is in flight is later followed by `setClientSecret` from that late answer. The model does not show this interleaving, and its invariant that an applied promo holds no secret holds only under the atomic reading.
- Checkout.CheckoutPage.HandlePaymentSuccess: `isProcessing` is true only inside the handler, so the model never shows it true. The `catch` branch is not modelled: `sendGiftEmail` cannot reject (see `Email.SendEmail`), and navigation is not modelled as failing.
- The redirect to the pricing page when the checkout is opened without a plan is left out. Only the fallback Basic plan is modelled.
- The payment widgets are left out: the Stripe card form and the PayPal buttons, including PayPal's order creation from the price string. Their success callback is a call to `HandlePaymentSuccess`.
- Transports are oracles: `fetch`, the Supabase query builder, `SmtpClient` and environment parsing. A `.single()` lookup that errs, finds nothing or finds several rows is one `None`.
- ProcessEmails.EmailQueue.Serve: the batch is the first ten pending rows in table order, because the query has no `ORDER BY` and so fixes no order. Every row sent in one run gets the same timestamp. The source ignores each update's own error result, and the model treats every update as applied. Statuses other than pending, sent and failed are not modelled.
- ProcessEmails.EmailQueue.Serve: each invocation is modelled alone. The function claims no rows before sending (supabase/functions/process-emails/index.ts:28-32) and shares one module-level `SmtpClient` (supabase/functions/process-emails/index.ts:15). So two overlapping invocations can both pick up and send the same pending row, and can interfere on the shared connection. The model does not capture this.
- Checkout.CheckoutPage.SetPromoCode and Checkout.CheckoutPage.SelectPaymentMethod can be called in any state. On the page, the promo input is disabled once a promo is applied (src/pages/Checkout.tsx:239), and the payment-method section is hidden (src/pages/Checkout.tsx:259). The model does not capture which inputs the rendered page offers. It does prove that an applied promo stays applied and that no payment request is made while it is.
- Text.Lower: `toLowerCase` is modelled on ASCII letters only, without Unicode case mapping.
- JavaScript truthiness is read as "present and non-empty" for strings. A customer record with a null name part (rendered "null" by the template string) is not modelled.
- Console logging, `handleSaveImage` (a download through the DOM) and `handleDeleteImage` (a log line) are left out as I/O.
- ImageViewer.Slideshow.constructor requires at least one image. The only caller, the home page, passes three (src/pages/Home.tsx:53-57). With none, `handlePreviousImage` would compute NaN.
- Email.WelcomeTrialBlocks: this lemma states only that a trial welcome contains the trial blocks. It does not state that other welcomes lack them, since a plan or user name could itself contain that text. The exact-match direction is stated at the greeting position by `Email.WelcomeTrialWording`.
- Out of scope: the thin Supabase wrappers (newsletter, contact, customer), the live chat widget, the cancellation page (which only sends the cancellation e-mail), and the purely presentational pages and routing.
