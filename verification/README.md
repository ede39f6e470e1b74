# Pure Note server core, modelled in Dafny

This project models the request handlers of the Pure Note edge function
(`supabase/functions/server/index.tsx`): the bearer-token gate, the review
registry, the plan tracker and the donation workflow built on Stripe
Checkout. Each handler that can touch the store is a pure function from its
request inputs and the key-value store to a `Handled(response, store')`
pair, so its contract speaks both about the HTTP status and body and about
exactly which keys changed. `GET /profile` never reads the store and
returns a bare `Response`; `GET /reviews` is the method `ListReviews`,
because it scans the store in a loop. Every non-200 reply carries an
`error` message, and each handler's contract names the message.

The external services are parameters:

- the Supabase identity provider is `IdentityProvider = string -> Option<User>`,
  the user a token belongs to;
- Stripe checkout-session creation is `PaymentProcessor = SessionRequest -> Option<Session>`,
  `None` standing for a call that throws;
- the clock is an integer `now` (milliseconds), used both for `Date.now()`
  and for the ISO timestamps, whose string order is assumed to match the
  numeric order;
- the KV store is `map<string, Record>`; the order in which `getByPrefix`
  returns values is chosen non-deterministically inside `ListReviews`.

A JSON body the handler cannot parse is `None` (the handler's `catch`
block answers); an absent field is `None` inside the body.

Modules, one per component:

| file | module | content |
|---|---|---|
| wrappers.dfy | `Wrappers` | `Option` |
| text.dfy | `Text` | `startsWith`, `indexOf`, `split`/`join`, `a \|\| b` on strings |
| whitespace.dfy | `Whitespace` | ECMAScript white space and `trim` |
| decimal.dfy | `Decimal` | decimal numerals of `Date.now()` |
| entities.dfy | `Entities` | users, stored records, the three key namespaces |
| http.dfy | `Http` | status codes, JSON bodies, `Handled` |
| identity.dfy | `Identity` | bearer-token extraction, the gate, `GET /profile` |
| reviews.dfy | `Reviews` | `GET/POST /reviews`, `DELETE /reviews/:id` |
| plans.dfy | `Plans` | `GET /user-plan`, `POST /update-plan` |
| donations.dfy | `Donations` | `POST /create-checkout`, `POST /stripe-webhook` |
| invariants.dfy | `Invariants` | store well-formedness kept by every handler; gate-first lemmas |

Five behaviours of the code that a reader might not expect; the model
follows the code:

- A review's rating is checked only against the range [1, 5]; the code
  never checks that it is an integer, so `3.5` is accepted and stored
  (`Reviews.CreateReview`).
- A donation amount must be at least 1, not merely positive: `0.5` is
  rejected with 400 (`Donations.CreateCheckout`).
- The payment webhook rewrites `completedAt` on every delivery of a
  completion event, whether or not the donation is still pending, so a
  replay is a no-op only when it is handled at the same instant
  (`Donations.WebhookReplay`).
- `DELETE /reviews/:id` uses the id as a raw store key and checks only the
  stored record's `userId`, so a caller can delete their own
  `user_plan:<id>` record through it (`Reviews.DeleteReachesPlanRecord`).
  Donation records carry no `userId` and always answer 403.
- `POST /create-checkout` writes the pending record without looking at
  what `donation:<sessionId>` held, so a processor that handed out a
  completed session's id again would turn that donation back to pending
  (`Invariants.ReusedSessionRegresses`).

## Model

| member | source | states |
|---|---|---|
| `Text.Split` | supabase/functions/server/index.tsx:119 | `split(' ')` yields at least one separator-free piece, and joining the pieces with the separator gives the header back |
| `Text.SplitJoin` | supabase/functions/server/index.tsx:119 | `split` undoes `join` for separator-free pieces (the other half of the round trip) |
| `Identity.BearerToken` | supabase/functions/server/index.tsx:164 | the token read from `Authorization` (the same expression on every protected route) is non-empty and space-free when present; its full meaning is `Identity.BearerTokenCharacterized` |
| `Identity.BearerTokenCharacterized` | supabase/functions/server/index.tsx:119-123 | the extracted token is `t` exactly when the header reads `<scheme> <t>` optionally followed by a space and anything; the token is non-empty and space-free |
| `Identity.AnySchemeAccepted` | supabase/functions/server/index.tsx:119 | the scheme word is never checked: any space-free word before the token is accepted |
| `Identity.Authenticate` | supabase/functions/server/index.tsx:164-174 | the gate lets a caller through exactly when a token is present and the identity provider knows it, and then yields that provider's user |
| `Identity.Unauthorized` | supabase/functions/server/index.tsx:164-174 | the gate's refusal is a 401 with an `error` body, "Authorization token required" exactly when there is no token and "Invalid or expired token" exactly when the provider rejects it |
| `Identity.Profile` | supabase/functions/server/index.tsx:117-137 | 200 with the caller's id, email and name exactly when the gate passes, else 401 with the gate's message: "Authorization token required" without a token, "Invalid or expired token" for a token the provider rejects |
| `Whitespace.Trim` | supabase/functions/server/index.tsx:182 | the trimmed comment is the input minus leading and trailing white space, has no white space at either end, and is empty exactly when the input is all white space |
| `Whitespace.TrimmedIsFixed` | supabase/functions/server/index.tsx:193 | a comment with no white space at either end is its own trim, so the stored-review invariant "no white space at either end" means "already trimmed" |
| `Whitespace.TrimIdempotent` | supabase/functions/server/index.tsx:193 | the stored comment is already trimmed |
| `Decimal.DecimalRoundTrip` | supabase/functions/server/index.tsx:186 | the millisecond numeral in a review id reads back as the instant |
| `Entities.ReviewKey` | supabase/functions/server/index.tsx:186 | a review key is `review:` followed by the decimal numeral of the instant, `_` and the author's id; `Entities.ReviewKeyInjective` shows it determines both |
| `Entities.PlanKey` | supabase/functions/server/index.tsx:258 | a plan key is `user_plan:` followed by exactly the user id (the same key is written at line 289) |
| `Entities.DonationKey` | supabase/functions/server/index.tsx:364 | a donation key is `donation:` followed by exactly the session id (the same key is read at line 417) |
| `Entities.ReviewKeyInjective` | supabase/functions/server/index.tsx:186 | `review:<now>_<userId>` determines both the instant and the author; ids collide only for one author within one millisecond |
| `Entities.NamespacesDisjoint` | supabase/functions/server/index.tsx:147 | the `review:`, `user_plan:` and `donation:` namespaces share no key |
| `Reviews.AuthorName` | supabase/functions/server/index.tsx:190 | the author name is the caller's non-empty metadata name, else their email |
| `Reviews.CreateReview` | supabase/functions/server/index.tsx:162-205 | 401 without a valid token; 500 "Failed to create review" for a body that is not JSON; 400 unless the rating is in [1, 5] (any real) and the comment is not all white space, the rating checked first ("Rating must be between 1 and 5", then "Comment is required"); on 200 exactly `review:<now>_<userId>` is written with the caller's id, name-or-email, email, the rating, the trimmed comment and `now`, and the same review is returned; nothing is written otherwise |
| `Reviews.DeleteReview` | supabase/functions/server/index.tsx:208-241 | 401 without a valid token, 404 "Review not found" for an absent id, 403 "You can only delete your own reviews" when the record's `userId` is not the caller's, each with only the error in the body; otherwise only that key is removed; no other key ever changes |
| `Reviews.DeleteTwiceNotFound` | supabase/functions/server/index.tsx:222-226 | a second delete of the same id answers 404 |
| `Reviews.OnlyOwnerDeletes` | supabase/functions/server/index.tsx:229-233 | a delete that changes the store was made by the authenticated owner of an existing record |
| `Reviews.CreateThenDeleteRestores` | supabase/functions/server/index.tsx:186-233 | an author deleting the review just posted restores the store exactly |
| `Reviews.DeleteReachesPlanRecord` | supabase/functions/server/index.tsx:222-233 | the ownership check is the only guard, so the caller's own plan record can be deleted through this route |
| `Reviews.InsertByDate` | supabase/functions/server/index.tsx:150-152 | inserting a record into a newest-first list keeps it newest-first and adds exactly that record |
| `Reviews.ListReviews` | supabase/functions/server/index.tsx:145-159 | 200 with a permutation of exactly the values stored under `review:` keys (each key scanned once), ordered by non-increasing `createdAt`; the store is untouched |
| `Reviews.NewestKeyListedFirst` | supabase/functions/server/index.tsx:147-152 | when one `review:` key holds a record strictly newer than every other, any newest-first permutation of the scanned values starts with that record |
| `Reviews.PostThenList` | supabase/functions/server/index.tsx:145-197 | posting a review at an instant later than every stored review succeeds, and the listing of the store it leaves (every `review:` key scanned, a permutation of their values, newest first) starts with exactly the review the post returned |
| `Reviews.StrictlyNewestListedFirst` | supabase/functions/server/index.tsx:149-152 | a review strictly newer than every other listed review is listed first |
| `Plans.ParsePlan` | supabase/functions/server/index.tsx:285 | a recognised plan string is the text of exactly that plan name |
| `Plans.GetPlan` | supabase/functions/server/index.tsx:244-266 | always 200, never writes; answers the caller's stored non-empty plan, and `free` in every other case (no token, unknown token, no record, empty plan) |
| `Plans.UpdatePlan` | supabase/functions/server/index.tsx:269-302 | 401 without a valid token; 500 "Failed to update plan" for a body that is not JSON; 400 "Invalid plan" unless the plan is `free`, `pro` or `team`; on 200 only `user_plan:<userId>` is overwritten, with the plan, the user id and `now`; nothing is written otherwise |
| `Plans.UpdateThenGet` | supabase/functions/server/index.tsx:258-294 | after a successful update the same caller reads back the plan just set |
| `Plans.UpdateIsolated` | supabase/functions/server/index.tsx:289-294 | one user's update never changes the plan another user reads |
| `Donations.Cents` | supabase/functions/server/index.tsx:326 | the cents amount is the integer nearest to `amount * 100`, halves rounded up |
| `Donations.CentsOfWholeCents` | supabase/functions/server/index.tsx:326 | an amount with whole cents converts exactly |
| `Donations.CentsOfTwelveFifty` | supabase/functions/server/index.tsx:326 | 12.5 becomes 1250 |
| `Donations.RedirectBase` | supabase/functions/server/index.tsx:351-352 | the redirect base is the request's non-empty `origin` header, else `https://purenote.app`, and is never empty |
| `Donations.SessionRequestFor` | supabase/functions/server/index.tsx:335-358 | the session is for the rounded cents amount; success and cancel URLs start with the origin, or `https://purenote.app` when none, and end in `?donation=success` / `?donation=cancelled`; the description is the message or the default text; the customer email is sent, unchanged, only when non-empty; one card payment in euros of quantity 1 in payment mode, for the product `Don à Pure Note`, with metadata type `donation` and the message or the empty string |
| `Donations.PendingDonation` | supabase/functions/server/index.tsx:364-372 | the recorded donation is pending, without completion time, for the session id, amount and instant, and keeps the donor's message and email as sent |
| `Donations.CreateCheckout` | supabase/functions/server/index.tsx:305-396 | 500 and no write without a Stripe key; 400 "Invalid donation amount" and no write when the amount is absent, zero or below 1; 500 "Failed to create checkout session" and no write when the body is not JSON or the processor fails; otherwise exactly `donation:<sessionId>` is written with a pending record and the session URL is returned |
| `Donations.Complete` | supabase/functions/server/index.tsx:421-425 | completion sets the status and completion time and keeps every other field |
| `Donations.HandleWebhook` | supabase/functions/server/index.tsx:399-436 | 400 and no write without a signature ("Missing stripe-signature header") or with an unparseable event ("Webhook handler failed"); other events are acknowledged; no key is added or removed, and the only key that can change is the completed session's donation, which becomes completed at `now` |
| `Donations.WebhookReplay` | supabase/functions/server/index.tsx:420-425 | a replayed completion event keeps the donation completed and changes at most its completion time; at the same instant it changes nothing |
| `Donations.CheckoutThenCompletion` | supabase/functions/server/index.tsx:364-425 | the pending donation a checkout records is completed by the completion event for its session |
| `Invariants.CreateReviewKeepsWellFormed` | supabase/functions/server/index.tsx:178-197 | posting a review keeps every namespace holding valid records of its own kind and regresses no donation |
| `Invariants.DeleteReviewKeepsWellFormed` | supabase/functions/server/index.tsx:222-233 | deleting keeps the store well formed and never removes a completed donation |
| `Invariants.UpdatePlanKeepsWellFormed` | supabase/functions/server/index.tsx:285-294 | plan records only ever hold one of the three plan names, under their owner's key |
| `Invariants.CreateCheckoutKeepsWellFormed` | supabase/functions/server/index.tsx:321-372 | whatever session id the processor returns, donation records are created pending, for amounts of at least 1, under their session's key |
| `Invariants.CreateCheckoutNoRegression` | supabase/functions/server/index.tsx:363-372 | when the processor never returns the id of a recorded session, no completed donation regresses |
| `Invariants.ReusedSessionRegresses` | supabase/functions/server/index.tsx:363-372 | without fresh session ids a completed donation can be overwritten by a pending one |
| `Invariants.HandleWebhookKeepsWellFormed` | supabase/functions/server/index.tsx:413-428 | a donation is completed exactly when it has a completion time, and completed donations stay completed |
| `Invariants.GetPlanNamesAPlan` | supabase/functions/server/index.tsx:258-261 | on a well-formed store the plan read is always `free`, `pro` or `team` |
| `Invariants.MissingTokenRejectedFirst` | supabase/functions/server/index.tsx:164-168 | without a token every protected route answers 401 (and the plan read answers `free`) whatever the store and body, leaving the store unchanged |
| `Invariants.InvalidTokenRejectedFirst` | supabase/functions/server/index.tsx:170-174 | a token the identity provider rejects gets the same treatment |

## Left out

- Transport and startup: CORS, the request logger, `Deno.serve`, the Supabase and Stripe client construction, and all console logging.
- `GET /health`: it reports only whether `STRIPE_SECRET_KEY` is set and the current time, and touches neither the store nor the identity provider.
- `POST /signin` and `POST /signup`: they check that the required fields are present (400) and otherwise relay to the identity provider, answering its errors with 400; no key of the store is involved.
- Failures of the key-value store and of the identity provider: both are treated as reliable, so the answers their exceptions would cause are not modelled (500 on most routes, 200 with `free` on `GET /user-plan`, 400 on the payment webhook).
- A KV write failing after Stripe created the session (a session without a donation record) is not modelled, for the same reason.
- JSON fields of an unexpected type (a rating sent as a string, a comment sent as a number, a plan that is not a string): fields are either absent or of the expected type.
- Floating point: amounts and ratings are exact reals, so binary rounding artefacts and NaN are out of scope; `Math.round` is `floor(x + 1/2)`.
- The `details` and `debugInfo` strings of the checkout error response.
- Webhook signature verification: the code does not verify it, and the model only distinguishes a present from an absent header.
- A session object with no `id` (the key would be `donation:undefined`): the event's session is either absent (a 400 from the catch block) or carries an id.
- A `null` session URL from the processor: sessions always carry a URL.
- Reviews.ListReviews: a plan record stored under a `review:` key has no `createdAt`; JavaScript compares it as NaN and the order is then engine-defined, while the model ranks it at time 0. No handler stores such a value.
- Donations.HandleWebhook: a non-donation value under a `donation:` key would be spread and re-stored by the code; the model leaves it unchanged. No handler stores such a value.
- Concurrency: each handler is one atomic step on the store, while the code makes separate store calls (a read then a delete in `DELETE /reviews/:id`, a read then a write in the webhook), so interleavings of concurrent requests are not modelled.
- One clock reading per request: the code reads the clock separately for the review id and for `createdAt`, which may differ by a millisecond.
