/**
 * What every handler keeps true of the store: each namespace holds only
 * its own kind of record, keyed as the server keys it, with valid contents;
 * and a completed donation never goes back. Also: the identity gate answers
 * before the store is consulted.
 */
module Invariants {
  import opened Wrappers
  import opened Text
  import opened Whitespace
  import opened Entities
  import opened Http
  import opened Identity
  import opened Reviews
  import opened Plans
  import opened Donations

  /** A review as `POST /reviews` writes it under `key`. */
  predicate ValidReview(key: string, r: Review) {
    && r.createdAt >= 0
    && key == ReviewKey(r.createdAt, r.userId)
    && r.id == key
    && 1.0 <= r.rating <= 5.0
    && r.comment != "" && Trimmed(r.comment)
  }

  /** A donation as the checkout writes it and the webhook completes it. */
  predicate ValidDonation(key: string, d: Donation) {
    && key == DonationKey(d.sessionId)
    && d.amount >= 1.0
    && (d.status == Completed <==> d.completedAt.Some?)
  }

  /** The record at `key` belongs to the namespace `key` is in, and is valid there. */
  predicate WellKeyed(key: string, r: Record) {
    && (HasPrefix(key, ReviewPrefix) ==> r.ReviewRecord? && ValidReview(key, r.review))
    && (HasPrefix(key, PlanPrefix) ==> r.PlanRecord? && ParsePlan(r.plan).Some? && key == PlanKey(r.userId))
    && (HasPrefix(key, DonationPrefix) ==> r.DonationRecord? && ValidDonation(key, r.donation))
  }

  predicate WellFormed(store: Store) {
    forall k :: k in store ==> WellKeyed(k, store[k])
  }

  /** Every completed donation of `before` is still there, still completed, in `after`. */
  predicate NoRegression(before: Store, after: Store) {
    forall k :: k in before && before[k].DonationRecord? && before[k].donation.status == Completed ==>
      k in after && after[k].DonationRecord? && after[k].donation.status == Completed
  }

  /** Writing a well-keyed record keeps the store well formed and regresses no donation there. */
  lemma WriteKeepsWellFormed(store: Store, key: string, r: Record)
    requires WellFormed(store) && WellKeyed(key, r)
    requires key in store && store[key].DonationRecord? && store[key].donation.status == Completed ==>
      r.DonationRecord? && r.donation.status == Completed
    ensures WellFormed(store[key := r]) && NoRegression(store, store[key := r])
  {
  }

  lemma CreateReviewKeepsWellFormed(header: Option<string>, idp: IdentityProvider, body: Option<ReviewInput>, now: nat, store: Store)
    requires WellFormed(store)
    ensures
      var after := CreateReview(header, idp, body, now, store).store;
      WellFormed(after) && NoRegression(store, after)
  {
    var h := CreateReview(header, idp, body, now, store);
    if h.response.status == StatusOk {
      var r := h.response.body.review;
      NewReviewWellKeyed(r, body.value.comment.value, now);
      WriteReviewKeepsWellFormed(store, r.id, ReviewRecord(r));
    }
  }

  /** A review slot never holds a donation, so writing a well-keyed record there keeps the store well formed. */
  lemma WriteReviewKeepsWellFormed(store: Store, key: string, rec: Record)
    requires WellFormed(store)
    requires HasPrefix(key, ReviewPrefix) && WellKeyed(key, rec)
    ensures WellFormed(store[key := rec]) && NoRegression(store, store[key := rec])
  {
    if key in store {
      ReviewSlotHoldsReview(store, key);
    }
    WriteKeepsWellFormed(store, key, rec);
  }

  lemma ReviewSlotHoldsReview(store: Store, key: string)
    requires WellFormed(store) && key in store && HasPrefix(key, ReviewPrefix)
    ensures store[key].ReviewRecord?
  {
    assert WellKeyed(key, store[key]);
  }

  /** A review built from an accepted rating and comment is valid under its own key. */
  lemma NewReviewWellKeyed(r: Review, comment: string, now: nat)
    requires r.id == ReviewKey(now, r.userId) && r.createdAt == now
    requires 1.0 <= r.rating <= 5.0
    requires !AllWhitespace(comment) && r.comment == Trim(comment)
    ensures HasPrefix(r.id, ReviewPrefix) && WellKeyed(r.id, ReviewRecord(r))
  {
    TrimLeavesTrimmed(comment);
    assert r.comment != "" && Trimmed(r.comment);
    assert ValidReview(r.id, r);
    NamespacesDisjoint(r.id);
  }

  lemma DeleteReviewKeepsWellFormed(header: Option<string>, idp: IdentityProvider, id: string, store: Store)
    requires WellFormed(store)
    ensures
      var after := DeleteReview(header, idp, id, store).store;
      WellFormed(after) && NoRegression(store, after)
  {
  }

  lemma UpdatePlanKeepsWellFormed(header: Option<string>, idp: IdentityProvider, body: Option<Option<string>>, now: nat, store: Store)
    requires WellFormed(store)
    ensures
      var after := UpdatePlan(header, idp, body, now, store).store;
      WellFormed(after) && NoRegression(store, after)
  {
    var h := UpdatePlan(header, idp, body, now, store);
    if h.response.status == StatusOk {
      var user := Authenticate(header, idp).user;
      NamespacesDisjoint(PlanKey(user.id));
      WriteKeepsWellFormed(store, PlanKey(user.id), PlanRecord(body.value.value, user.id, now));
    }
  }

  /** A checkout keeps the store well formed, whatever session id the processor hands out. */
  lemma CreateCheckoutKeepsWellFormed(stripeKey: Option<string>, origin: Option<string>, body: Option<CheckoutInput>,
                                      processor: PaymentProcessor, now: nat, store: Store)
    requires WellFormed(store)
    ensures WellFormed(CreateCheckout(stripeKey, origin, body, processor, now, store).store)
  {
    var h := CreateCheckout(stripeKey, origin, body, processor, now, store);
    if h.response.status == StatusOk {
      var session := processor(SessionRequestFor(body.value, origin)).value;
      var key := DonationKey(session.id);
      NamespacesDisjoint(key);
      assert WellKeyed(key, DonationRecord(PendingDonation(session, body.value, now)));
    }
  }

  /**
   * A checkout regresses no donation as long as the processor does not hand
   * out the id of a recorded session again: the pending record is written
   * without looking at what the key held.
   */
  lemma CreateCheckoutNoRegression(stripeKey: Option<string>, origin: Option<string>, body: Option<CheckoutInput>,
                                   processor: PaymentProcessor, now: nat, store: Store)
    requires forall req :: processor(req).Some? ==> DonationKey(processor(req).value.id) !in store
    ensures NoRegression(store, CreateCheckout(stripeKey, origin, body, processor, now, store).store)
  {
  }

  /** A processor that reuses a completed session's id makes the checkout overwrite that donation with a pending one. */
  lemma ReusedSessionRegresses()
    ensures
      var done := Donation("cs_1", 5.0, None, None, 0, Completed, Some(1));
      var store := map[DonationKey("cs_1") := DonationRecord(done)];
      var processor: PaymentProcessor := req => Some(Session("cs_1", "https://pay"));
      var after := CreateCheckout(Some("sk"), None, Some(CheckoutInput(Some(5.0), None, None)), processor, 2, store).store;
      WellFormed(store) && !NoRegression(store, after)
  {
    var key := DonationKey("cs_1");
    var done := Donation("cs_1", 5.0, None, None, 0, Completed, Some(1));
    var store := map[key := DonationRecord(done)];
    NamespacesDisjoint(key);
    assert WellKeyed(key, store[key]);
    var processor: PaymentProcessor := req => Some(Session("cs_1", "https://pay"));
    var input := CheckoutInput(Some(5.0), None, None);
    var after := CreateCheckout(Some("sk"), None, Some(input), processor, 2, store).store;
    assert after[key] == DonationRecord(PendingDonation(Session("cs_1", "https://pay"), input, 2));
  }

  lemma HandleWebhookKeepsWellFormed(signature: Option<string>, event: Option<PaymentEvent>, now: nat, store: Store)
    requires WellFormed(store)
    ensures
      var after := HandleWebhook(signature, event, now, store).store;
      WellFormed(after) && NoRegression(store, after)
  {
  }

  /** On a well-formed store the plan read back is always one of the three plan names. */
  lemma GetPlanNamesAPlan(header: Option<string>, idp: IdentityProvider, store: Store)
    requires WellFormed(store)
    ensures ParsePlan(GetPlan(header, idp, store).response.body.plan).Some?
  {
  }

  /**
   * Without a token every protected route answers 401 at once, whatever the
   * store and body: nothing is read or written.
   */
  lemma MissingTokenRejectedFirst(header: Option<string>, idp: IdentityProvider, store: Store,
                                  review: Option<ReviewInput>, id: string, plan: Option<Option<string>>, now: nat)
    requires BearerToken(header).None?
    ensures Profile(header, idp) == Fail(StatusUnauthorized, TokenRequired)
    ensures CreateReview(header, idp, review, now, store) == Handled(Fail(StatusUnauthorized, TokenRequired), store)
    ensures DeleteReview(header, idp, id, store) == Handled(Fail(StatusUnauthorized, TokenRequired), store)
    ensures UpdatePlan(header, idp, plan, now, store) == Handled(Fail(StatusUnauthorized, TokenRequired), store)
    ensures GetPlan(header, idp, store) == Handled(Reply(PlanBody(DefaultPlan)), store)
  {
  }

  /** A token the identity provider does not recognise is treated the same way. */
  lemma InvalidTokenRejectedFirst(header: Option<string>, idp: IdentityProvider, store: Store,
                                  review: Option<ReviewInput>, id: string, plan: Option<Option<string>>, now: nat)
    requires BearerToken(header).Some? && idp(BearerToken(header).value).None?
    ensures Profile(header, idp) == Fail(StatusUnauthorized, TokenInvalid)
    ensures CreateReview(header, idp, review, now, store) == Handled(Fail(StatusUnauthorized, TokenInvalid), store)
    ensures DeleteReview(header, idp, id, store) == Handled(Fail(StatusUnauthorized, TokenInvalid), store)
    ensures UpdatePlan(header, idp, plan, now, store) == Handled(Fail(StatusUnauthorized, TokenInvalid), store)
    ensures GetPlan(header, idp, store) == Handled(Reply(PlanBody(DefaultPlan)), store)
  {
  }
}
