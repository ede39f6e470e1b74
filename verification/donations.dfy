/**
 * The donation workflow: `POST /create-checkout` opens a payment session
 * and records a pending donation under `donation:<sessionId>`; the payment
 * webhook marks that donation completed.
 */
module Donations {
  import opened Wrappers
  import opened Text
  import opened Entities
  import opened Http

  /** The JSON body of `POST /create-checkout`; an absent or non-numeric field is `None`. */
  datatype CheckoutInput = CheckoutInput(amount: Option<real>, donorMessage: Option<string>, userEmail: Option<string>)

  /** The parameters of the payment processor's checkout-session creation. */
  datatype SessionRequest = SessionRequest(
    paymentMethods: seq<string>,
    currency: string,
    productName: string,
    description: string,
    unitAmount: int,
    quantity: nat,
    mode: string,
    successUrl: string,
    cancelUrl: string,
    customerEmail: Option<string>,
    metadataType: string,
    metadataMessage: string)

  datatype Session = Session(id: string, url: string)

  /** The payment processor: the session it opens for a request, or `None` when the call fails. */
  type PaymentProcessor = SessionRequest -> Option<Session>

  /** A payment event as parsed from the webhook body; `sessionId` is `None` when `data.object` is missing. */
  datatype PaymentEvent = PaymentEvent(eventType: string, sessionId: Option<string>)

  const NotConfigured: string := "Stripe is not configured. Please add your STRIPE_SECRET_KEY."
  const AmountInvalid: string := "Invalid donation amount"
  const CheckoutFailed: string := "Failed to create checkout session"
  const SignatureMissing: string := "Missing stripe-signature header"
  const WebhookFailed: string := "Webhook handler failed"
  const DefaultOrigin: string := "https://purenote.app"
  const DefaultDescription: string := "Soutien au projet Pure Note"
  const ProductName: string := "Don à Pure Note"
  const CompletedEvent: string := "checkout.session.completed"

  /** `Math.round(amount * 100)`: the nearest whole number of cents, halves rounded up. */
  function Cents(amount: real): (c: int)
    ensures c as real - 0.5 <= amount * 100.0 < c as real + 0.5
  {
    (amount * 100.0 + 0.5).Floor
  }

  /** An amount with whole cents converts exactly. */
  lemma CentsOfWholeCents(n: int)
    ensures Cents(n as real / 100.0) == n
  {
  }

  lemma CentsOfTwelveFifty()
    ensures Cents(12.5) == 1250
  {
  }

  /** `!amount || amount < 1`: zero, anything below one, and absence are refused. */
  predicate AmountRejected(amount: Option<real>) {
    amount.None? || amount.value == 0.0 || amount.value < 1.0
  }

  /** The origin the processor sends the donor back to. */
  function RedirectBase(origin: Option<string>): (base: string)
    ensures base != ""
    ensures origin.Some? && origin.value != "" ==> base == origin.value
    ensures origin.None? || origin.value == "" ==> base == DefaultOrigin
  {
    OrElse(origin, DefaultOrigin)
  }

  /** The checkout session the server asks for: one card payment of the amount, in euros. */
  function SessionRequestFor(input: CheckoutInput, origin: Option<string>): (req: SessionRequest)
    requires input.amount.Some?
    ensures req.unitAmount as real - 0.5 <= input.amount.value * 100.0 < req.unitAmount as real + 0.5
    ensures req.successUrl == RedirectBase(origin) + "?donation=success"
    ensures req.cancelUrl == RedirectBase(origin) + "?donation=cancelled"
    ensures origin.Some? && origin.value != "" ==> HasPrefix(req.successUrl, origin.value) && HasPrefix(req.cancelUrl, origin.value)
    ensures origin.None? || origin.value == "" ==> HasPrefix(req.successUrl, DefaultOrigin) && HasPrefix(req.cancelUrl, DefaultOrigin)
    ensures req.paymentMethods == ["card"] && req.currency == "eur" && req.mode == "payment"
    ensures req.productName == ProductName && req.quantity == 1
    ensures req.description == OrElse(input.donorMessage, DefaultDescription)
    ensures req.customerEmail.Some? <==> input.userEmail.Some? && input.userEmail.value != ""
    ensures req.customerEmail.Some? ==> req.customerEmail.value == input.userEmail.value
    ensures req.metadataType == "donation" && req.metadataMessage == OrElse(input.donorMessage, "")
  {
    var base := RedirectBase(origin);
    PrefixOfConcat(base, "?donation=success");
    PrefixOfConcat(base, "?donation=cancelled");
    SessionRequest(
      ["card"], "eur", ProductName, OrElse(input.donorMessage, DefaultDescription),
      Cents(input.amount.value), 1, "payment",
      base + "?donation=success", base + "?donation=cancelled",
      if input.userEmail.Some? && input.userEmail.value != "" then input.userEmail else None,
      "donation", OrElse(input.donorMessage, ""))
  }

  /** The pending record written when a session opens. */
  function PendingDonation(session: Session, input: CheckoutInput, now: nat): (d: Donation)
    requires input.amount.Some?
    ensures d.status == Pending && d.completedAt.None?
    ensures d.sessionId == session.id && d.amount == input.amount.value && d.createdAt == now
    ensures d.message == input.donorMessage && d.email == input.userEmail
  {
    Donation(session.id, input.amount.value, input.donorMessage, input.userEmail, now, Pending, None)
  }

  /**
   * `POST /create-checkout`. Without a configured processor key the answer
   * is 500 and nothing is written; an amount below one (or absent, or zero)
   * is 400 and nothing is written; a processor failure or a body that is not
   * JSON is 500 and nothing is written. Otherwise exactly `donation:<id>`
   * is written, holding a pending donation, and the session URL is returned.
   */
  function CreateCheckout(stripeKey: Option<string>, origin: Option<string>, body: Option<CheckoutInput>,
                          processor: PaymentProcessor, now: nat, store: Store): (h: Handled)
    ensures h.response.status in {StatusOk, StatusBadRequest, StatusServerError}
    ensures stripeKey.None? || stripeKey.value == "" ==>
      h.response == Fail(StatusServerError, NotConfigured) && h.store == store
    ensures h.response.status == StatusBadRequest <==>
      && stripeKey.Some? && stripeKey.value != "" && body.Some?
      && !(body.value.amount.Some? && body.value.amount.value >= 1.0)
    ensures h.response.status != StatusOk ==> h.store == store && h.response.body.ErrorBody?
    ensures h.response.status == StatusBadRequest ==> h.response == Fail(StatusBadRequest, AmountInvalid)
    ensures h.response.status == StatusServerError && stripeKey.Some? && stripeKey.value != "" ==>
      h.response == Fail(StatusServerError, CheckoutFailed)
    ensures h.response.status == StatusOk <==>
      && stripeKey.Some? && stripeKey.value != "" && body.Some?
      && body.value.amount.Some? && body.value.amount.value >= 1.0
      && processor(SessionRequestFor(body.value, origin)).Some?
    ensures h.response.status == StatusOk ==>
      var session := processor(SessionRequestFor(body.value, origin)).value;
      && h.response.body == CheckoutBody(session.url)
      && h.store == store[DonationKey(session.id) := DonationRecord(PendingDonation(session, body.value, now))]
  {
    if stripeKey.None? || stripeKey.value == "" then
      Handled(Fail(StatusServerError, NotConfigured), store)
    else if body.None? then
      Handled(Fail(StatusServerError, CheckoutFailed), store)
    else if AmountRejected(body.value.amount) then
      Handled(Fail(StatusBadRequest, AmountInvalid), store)
    else
      match processor(SessionRequestFor(body.value, origin))
      case None => Handled(Fail(StatusServerError, CheckoutFailed), store)
      case Some(session) =>
        Handled(Reply(CheckoutBody(session.url)),
                store[DonationKey(session.id) := DonationRecord(PendingDonation(session, body.value, now))])
  }

  /** `{...donation, status: 'completed', completedAt: now}`. */
  function Complete(d: Donation, now: nat): (c: Donation)
    ensures c.status == Completed && c.completedAt == Some(now)
    ensures c.sessionId == d.sessionId && c.amount == d.amount && c.message == d.message
    ensures c.email == d.email && c.createdAt == d.createdAt
  {
    d.(status := Completed, completedAt := Some(now))
  }

  /**
   * The payment webhook. The signature header must be present and non-empty
   * (it is not verified); a body that does not parse, or a completion event
   * without a session object, is 400. Every other event is acknowledged; a
   * completion event for a recorded donation marks it completed at `now`,
   * and no other key changes. Unknown sessions and other event types write
   * nothing.
   */
  function HandleWebhook(signature: Option<string>, event: Option<PaymentEvent>, now: nat, store: Store): (h: Handled)
    ensures h.response.status in {StatusOk, StatusBadRequest}
    ensures signature.None? || signature.value == "" ==>
      h.response == Fail(StatusBadRequest, SignatureMissing) && h.store == store
    ensures h.response.status == StatusOk <==>
      && signature.Some? && signature.value != "" && event.Some?
      && (event.value.eventType == CompletedEvent ==> event.value.sessionId.Some?)
    ensures h.response.status == StatusOk ==> h.response.body == ReceivedBody
    ensures h.response.status == StatusBadRequest && signature.Some? && signature.value != "" ==>
      h.response == Fail(StatusBadRequest, WebhookFailed)
    ensures h.store.Keys == store.Keys
    ensures forall k :: k in store && h.store[k] != store[k] ==>
      && h.response.status == StatusOk
      && event.value.eventType == CompletedEvent
      && k == DonationKey(event.value.sessionId.value)
      && store[k].DonationRecord?
      && h.store[k] == DonationRecord(Complete(store[k].donation, now))
    ensures h.response.status == StatusOk && event.value.eventType == CompletedEvent ==>
      var key := DonationKey(event.value.sessionId.value);
      key in store && store[key].DonationRecord? ==> h.store[key] == DonationRecord(Complete(store[key].donation, now))
  {
    if signature.None? || signature.value == "" then
      Handled(Fail(StatusBadRequest, SignatureMissing), store)
    else if event.None? then
      Handled(Fail(StatusBadRequest, WebhookFailed), store)
    else if event.value.eventType != CompletedEvent then
      Handled(Reply(ReceivedBody), store)
    else if event.value.sessionId.None? then
      Handled(Fail(StatusBadRequest, WebhookFailed), store)
    else
      var key := DonationKey(event.value.sessionId.value);
      if key in store && store[key].DonationRecord? then
        Handled(Reply(ReceivedBody), store[key := DonationRecord(Complete(store[key].donation, now))])
      else
        Handled(Reply(ReceivedBody), store)
  }

  /**
   * Replaying a completion event leaves the donation completed with every
   * field but the completion time as after the first delivery; the time is
   * rewritten on each delivery, so only a replay at the same instant is a
   * no-op.
   */
  lemma WebhookReplay(signature: Option<string>, event: Option<PaymentEvent>, t1: nat, t2: nat, store: Store)
    ensures
      var once := HandleWebhook(signature, event, t1, store).store;
      var twice := HandleWebhook(signature, event, t2, once);
      && twice.store.Keys == once.Keys
      && (forall k :: k in once && twice.store[k] != once[k] ==>
            && once[k].DonationRecord? && once[k].donation.status == Completed
            && twice.store[k] == DonationRecord(once[k].donation.(completedAt := Some(t2))))
      && (t1 == t2 ==> twice.store == once)
  {
  }

  /**
   * The lifecycle end to end: the donation a successful checkout records as
   * pending is completed by the processor's completion event for its session.
   */
  lemma CheckoutThenCompletion(stripeKey: Option<string>, origin: Option<string>, input: CheckoutInput,
                               processor: PaymentProcessor, t1: nat, signature: string, t2: nat, store: Store)
    requires CreateCheckout(stripeKey, origin, Some(input), processor, t1, store).response.status == StatusOk
    requires signature != ""
    ensures
      var session := processor(SessionRequestFor(input, origin)).value;
      var started := CreateCheckout(stripeKey, origin, Some(input), processor, t1, store).store;
      var done := HandleWebhook(Some(signature), Some(PaymentEvent(CompletedEvent, Some(session.id))), t2, started);
      && started[DonationKey(session.id)].donation.status == Pending
      && done.response == Reply(ReceivedBody)
      && done.store[DonationKey(session.id)] == DonationRecord(Complete(PendingDonation(session, input, t1), t2))
  {
  }
}
