/**
 * The review registry: listing newest first, posting with validation, and
 * deletion restricted to the record's owner.
 */
module Reviews {
  import opened Wrappers
  import opened Text
  import opened Whitespace
  import opened Entities
  import opened Http
  import opened Identity

  /** The JSON body of `POST /reviews`; an absent or non-numeric field is `None`. */
  datatype ReviewInput = ReviewInput(rating: Option<real>, comment: Option<string>)

  const RatingInvalid: string := "Rating must be between 1 and 5"
  const CommentRequired: string := "Comment is required"
  const CreateFailed: string := "Failed to create review"
  const ReviewNotFound: string := "Review not found"
  const NotOwner: string := "You can only delete your own reviews"

  /** `!rating || rating < 1 || rating > 5`. */
  predicate RatingRejected(rating: Option<real>) {
    rating.None? || rating.value == 0.0 || rating.value < 1.0 || rating.value > 5.0
  }

  /** `!comment || comment.trim().length === 0`. */
  predicate CommentRejected(comment: Option<string>) {
    comment.None? || comment.value == "" || |Trim(comment.value)| == 0
  }

  /** A rating in [1, 5] and a comment with some non-white-space character pass both checks. */
  lemma InputAccepted(body: ReviewInput)
    requires body.rating.Some? && 1.0 <= body.rating.value <= 5.0
    requires body.comment.Some? && !AllWhitespace(body.comment.value)
    ensures !RatingRejected(body.rating) && !CommentRejected(body.comment)
  {
  }

  /** The author name shown with a review: the metadata name, else the email. */
  function AuthorName(u: User): (name: string)
    ensures u.name.Some? && u.name.value != "" ==> name == u.name.value
    ensures u.name.None? || u.name.value == "" ==> name == u.email
  {
    OrElse(u.name, u.email)
  }

  /**
   * `POST /reviews`. The caller must pass the identity gate; then the rating
   * must lie in [1, 5] (any real, no integer check) and the comment must hold
   * something besides white space. Only then is exactly one key written,
   * `review:<now>_<userId>`, holding the review that is also sent back.
   * A body that is not JSON ends in the catch-all 500.
   */
  function CreateReview(header: Option<string>, idp: IdentityProvider, body: Option<ReviewInput>, now: nat, store: Store): (h: Handled)
    ensures h.response.status in {StatusOk, StatusBadRequest, StatusUnauthorized, StatusServerError}
    ensures h.response.status == StatusUnauthorized <==> !Authenticate(header, idp).Authenticated?
    ensures h.response.status == StatusServerError <==> Authenticate(header, idp).Authenticated? && body.None?
    ensures h.response.status == StatusOk <==>
      && Authenticate(header, idp).Authenticated?
      && body.Some?
      && body.value.rating.Some? && 1.0 <= body.value.rating.value <= 5.0
      && body.value.comment.Some? && !AllWhitespace(body.value.comment.value)
    ensures h.response.status != StatusOk ==> h.store == store && h.response.body.ErrorBody?
    ensures h.response.status == StatusUnauthorized ==> h.response == Unauthorized(Authenticate(header, idp))
    ensures h.response.status == StatusServerError ==> h.response == Fail(StatusServerError, CreateFailed)
    ensures h.response.status == StatusBadRequest ==>
      var ratingOk := body.value.rating.Some? && 1.0 <= body.value.rating.value <= 5.0;
      h.response == Fail(StatusBadRequest, if ratingOk then CommentRequired else RatingInvalid)
    ensures h.response.status == StatusOk ==>
      var user := Authenticate(header, idp).user;
      var key := ReviewKey(now, user.id);
      && h.response.body.ReviewCreatedBody?
      && var r := h.response.body.review;
      && r.id == key
      && r.userId == user.id
      && r.userName == (if user.name.Some? && user.name.value != "" then user.name.value else user.email)
      && r.userEmail == user.email
      && r.rating == body.value.rating.value
      && r.comment == Trim(body.value.comment.value)
      && r.createdAt == now
      && h.store == store[key := ReviewRecord(r)]
  {
    match Authenticate(header, idp)
    case Authenticated(user) =>
      if body.None? then Handled(Fail(StatusServerError, CreateFailed), store)
      else if RatingRejected(body.value.rating) then Handled(Fail(StatusBadRequest, RatingInvalid), store)
      else if CommentRejected(body.value.comment) then Handled(Fail(StatusBadRequest, CommentRequired), store)
      else
        var key := ReviewKey(now, user.id);
        var review := Review(key, user.id, AuthorName(user), user.email,
                             body.value.rating.value, Trim(body.value.comment.value), now);
        Handled(Reply(ReviewCreatedBody(review)), store[key := ReviewRecord(review)])
    case other => Handled(Unauthorized(other), store)
  }

  /**
   * `DELETE /reviews/:id`. The id is used as the store key as given. An
   * absent key is 404; a record whose `userId` is not the caller's is 403;
   * otherwise exactly that key is removed.
   */
  function DeleteReview(header: Option<string>, idp: IdentityProvider, id: string, store: Store): (h: Handled)
    ensures h.response.status in {StatusOk, StatusUnauthorized, StatusForbidden, StatusNotFound}
    ensures h.response.status == StatusUnauthorized <==> !Authenticate(header, idp).Authenticated?
    ensures h.response.status == StatusNotFound <==> Authenticate(header, idp).Authenticated? && id !in store
    ensures h.response.status == StatusForbidden <==>
      && Authenticate(header, idp).Authenticated?
      && id in store
      && Owner(store[id]) != Some(Authenticate(header, idp).user.id)
    ensures h.response.status == StatusOk ==> h.response.body == SuccessBody && h.store == store - {id}
    ensures forall k :: k in h.store ==> k in store && h.store[k] == store[k]
    ensures h.response.status != StatusOk ==> h.store == store && h.response.body.ErrorBody?
    ensures h.response.status == StatusUnauthorized ==> h.response == Unauthorized(Authenticate(header, idp))
    ensures h.response.status == StatusNotFound ==> h.response == Fail(StatusNotFound, ReviewNotFound)
    ensures h.response.status == StatusForbidden ==> h.response == Fail(StatusForbidden, NotOwner)
  {
    match Authenticate(header, idp)
    case Authenticated(user) =>
      if id !in store then Handled(Fail(StatusNotFound, ReviewNotFound), store)
      else if Owner(store[id]) != Some(user.id) then Handled(Fail(StatusForbidden, NotOwner), store)
      else Handled(Reply(SuccessBody), store - {id})
    case other => Handled(Unauthorized(other), store)
  }

  /** Deleting the same id twice: the second attempt finds nothing. */
  lemma DeleteTwiceNotFound(header: Option<string>, idp: IdentityProvider, id: string, store: Store)
    requires DeleteReview(header, idp, id, store).response.status == StatusOk
    ensures DeleteReview(header, idp, id, DeleteReview(header, idp, id, store).store).response.status == StatusNotFound
  {
  }

  /** A caller other than the record's owner never changes the store. */
  lemma OnlyOwnerDeletes(header: Option<string>, idp: IdentityProvider, id: string, store: Store)
    requires DeleteReview(header, idp, id, store).store != store
    ensures Authenticate(header, idp).Authenticated?
    ensures id in store && Owner(store[id]) == Some(Authenticate(header, idp).user.id)
  {
  }

  /**
   * Posting a review and then deleting it with the same credentials gives
   * back the original store, provided the author had not already posted in
   * the same millisecond.
   */
  lemma CreateThenDeleteRestores(header: Option<string>, idp: IdentityProvider, body: ReviewInput, now: nat, store: Store)
    requires Authenticate(header, idp).Authenticated?
    requires body.rating.Some? && 1.0 <= body.rating.value <= 5.0
    requires body.comment.Some? && !AllWhitespace(body.comment.value)
    requires ReviewKey(now, Authenticate(header, idp).user.id) !in store
    ensures
      var created := CreateReview(header, idp, Some(body), now, store);
      var deleted := DeleteReview(header, idp, created.response.body.review.id, created.store);
      deleted.response.status == StatusOk && deleted.store == store
  {
    InputAccepted(body);
    var created := CreateReview(header, idp, Some(body), now, store);
    var user := Authenticate(header, idp).user;
    var review := created.response.body.review;
    assert created.store == store[review.id := ReviewRecord(review)];
    assert Owner(created.store[review.id]) == Some(user.id);
    assert created.store - {review.id} == store;
  }

  /**
   * The ownership check is the only guard on deletion: the id is not
   * required to name a review, so a caller may remove their own plan record
   * through this route.
   */
  lemma DeleteReachesPlanRecord(header: Option<string>, idp: IdentityProvider, store: Store)
    requires Authenticate(header, idp).Authenticated?
    requires PlanKey(Authenticate(header, idp).user.id) in store
    requires store[PlanKey(Authenticate(header, idp).user.id)].PlanRecord?
    requires store[PlanKey(Authenticate(header, idp).user.id)].userId == Authenticate(header, idp).user.id
    ensures
      var key := PlanKey(Authenticate(header, idp).user.id);
      var h := DeleteReview(header, idp, key, store);
      h.response.status == StatusOk && key !in h.store
  {
  }

  /** Newest first: no later entry was created after an earlier one. */
  predicate NewestFirst(rs: seq<Record>) {
    forall i, j :: 0 <= i < j < |rs| ==> CreatedAt(rs[j]) <= CreatedAt(rs[i])
  }

  /** Prepending an entry at least as recent as everything after it keeps the order. */
  lemma PrependNewest(x: Record, rest: seq<Record>)
    requires NewestFirst(rest)
    requires forall i :: 0 <= i < |rest| ==> CreatedAt(rest[i]) <= CreatedAt(x)
    ensures NewestFirst([x] + rest)
  {
    var out := [x] + rest;
    forall i, j | 0 <= i < j < |out|
      ensures CreatedAt(out[j]) <= CreatedAt(out[i])
    {
      assert out[j] == rest[j - 1];
      if i > 0 {
        assert out[i] == rest[i - 1];
      }
    }
  }

  /**
   * One step of the stable sort by descending `createdAt`: `r` goes after
   * every entry at least as recent as itself.
   */
  function InsertByDate(r: Record, rs: seq<Record>): (out: seq<Record>)
    requires NewestFirst(rs)
    ensures NewestFirst(out)
    ensures multiset(out) == multiset(rs) + multiset{r}
  {
    if |rs| == 0 || CreatedAt(rs[0]) < CreatedAt(r) then
      PrependNewest(r, rs);
      [r] + rs
    else
      var rest := InsertByDate(r, rs[1..]);
      assert rs == [rs[0]] + rs[1..];
      BoundedByHead(r, rs, rest);
      PrependNewest(rs[0], rest);
      [rs[0]] + rest
  }

  lemma BoundedByHead(r: Record, rs: seq<Record>, rest: seq<Record>)
    requires NewestFirst(rs) && |rs| > 0
    requires CreatedAt(r) <= CreatedAt(rs[0])
    requires multiset(rest) == multiset(rs[1..]) + multiset{r}
    ensures forall i :: 0 <= i < |rest| ==> CreatedAt(rest[i]) <= CreatedAt(rs[0])
  {
    forall i | 0 <= i < |rest|
      ensures CreatedAt(rest[i]) <= CreatedAt(rs[0])
    {
      assert rest[i] in multiset(rest);
      if rest[i] != r {
        assert rest[i] in rs[1..];
        var j :| 0 <= j < |rs[1..]| && rs[1..][j] == rest[i];
        assert rs[j + 1] == rest[i];
      }
    }
  }

  /** The keys of the review namespace: what `getByPrefix("review:")` scans. */
  function ReviewKeys(store: Store): (keys: set<string>)
    ensures forall k :: k in keys <==> k in store && HasPrefix(k, ReviewPrefix)
  {
    set k | k in store && HasPrefix(k, ReviewPrefix)
  }

  /** The values at the keys `ks`, in that order. */
  function ValuesAt(store: Store, ks: seq<string>): (vs: seq<Record>)
    requires forall i :: 0 <= i < |ks| ==> ks[i] in store
    ensures |vs| == |ks| && forall i :: 0 <= i < |ks| ==> vs[i] == store[ks[i]]
  {
    if |ks| == 0 then [] else ValuesAt(store, ks[..|ks| - 1]) + [store[ks[|ks| - 1]]]
  }

  predicate Distinct(ks: seq<string>) {
    forall i, j :: 0 <= i < j < |ks| ==> ks[i] != ks[j]
  }

  /** Scanning one more key appends its value and keeps the scan free of repeats. */
  lemma ScanStep(store: Store, scanned: seq<string>, k: string)
    requires forall i :: 0 <= i < |scanned| ==> scanned[i] in store
    requires k in store && k !in scanned && Distinct(scanned)
    ensures ValuesAt(store, scanned + [k]) == ValuesAt(store, scanned) + [store[k]]
    ensures Distinct(scanned + [k])
  {
    assert (scanned + [k])[..|scanned|] == scanned;
  }

  /**
   * `GET /reviews`. The store hands back the review namespace in an order of
   * its choosing (`scanned`, each key once); the reply is a permutation of
   * exactly those values, newest first. The store is not touched.
   */
  method ListReviews(store: Store) returns (h: Handled, ghost scanned: seq<string>)
    ensures h.store == store
    ensures h.response.status == StatusOk && h.response.body.ReviewsBody?
    ensures Distinct(scanned)
    ensures forall k :: k in scanned <==> k in store && HasPrefix(k, ReviewPrefix)
    ensures multiset(h.response.body.reviews) == multiset(ValuesAt(store, scanned))
    ensures NewestFirst(h.response.body.reviews)
  {
    var remaining := ReviewKeys(store);
    var sorted: seq<Record> := [];
    scanned := [];
    while remaining != {}
      invariant forall k :: k in remaining ==> k in store && HasPrefix(k, ReviewPrefix)
      invariant forall k :: k in scanned <==> k in store && HasPrefix(k, ReviewPrefix) && k !in remaining
      invariant Distinct(scanned)
      invariant NewestFirst(sorted)
      invariant multiset(sorted) == multiset(ValuesAt(store, scanned))
      decreases remaining
    {
      var k :| k in remaining;
      ScanStep(store, scanned, k);
      sorted := InsertByDate(store[k], sorted);
      scanned := scanned + [k];
      remaining := remaining - {k};
    }
    h := Handled(Reply(ReviewsBody(sorted)), store);
  }

  /**
   * In a newest-first listing, a record strictly more recent than every
   * other entry comes first: a review just posted at a later instant than
   * all others heads the next `GET /reviews`.
   */
  lemma StrictlyNewestListedFirst(rs: seq<Record>, r: Record)
    requires NewestFirst(rs)
    requires r in rs
    requires forall i :: 0 <= i < |rs| && rs[i] != r ==> CreatedAt(rs[i]) < CreatedAt(r)
    ensures rs[0] == r
  {
  }

  /**
   * In a newest-first listing of a namespace, the value of the key strictly
   * newer than every other key of the namespace comes first.
   */
  lemma NewestKeyListedFirst(st: Store, scanned: seq<string>, listed: seq<Record>, key: string)
    requires forall k :: k in scanned <==> k in st && HasPrefix(k, ReviewPrefix)
    requires multiset(listed) == multiset(ValuesAt(st, scanned))
    requires NewestFirst(listed)
    requires key in st && HasPrefix(key, ReviewPrefix)
    requires forall k :: k in st && HasPrefix(k, ReviewPrefix) && k != key ==> CreatedAt(st[k]) < CreatedAt(st[key])
    ensures |listed| > 0 && listed[0] == st[key]
  {
    var values := ValuesAt(st, scanned);
    var j :| 0 <= j < |scanned| && scanned[j] == key;
    assert values[j] == st[key];
    assert st[key] in multiset(listed);
    forall i | 0 <= i < |listed| && listed[i] != st[key]
      ensures CreatedAt(listed[i]) < CreatedAt(st[key])
    {
      assert listed[i] in multiset(values);
      var m :| 0 <= m < |values| && values[m] == listed[i];
      assert scanned[m] != key;
    }
    StrictlyNewestListedFirst(listed, st[key]);
  }

  /**
   * A review posted at an instant later than every stored review is the
   * first entry of the `GET /reviews` that follows: the method posts, lists
   * the store the post leaves, and returns both results.
   */
  method PostThenList(header: Option<string>, idp: IdentityProvider, body: ReviewInput, now: nat, store: Store)
    returns (posted: Review, listed: seq<Record>, ghost scanned: seq<string>)
    requires Authenticate(header, idp).Authenticated?
    requires body.rating.Some? && 1.0 <= body.rating.value <= 5.0
    requires body.comment.Some? && !AllWhitespace(body.comment.value)
    requires forall k :: k in store && HasPrefix(k, ReviewPrefix) ==> CreatedAt(store[k]) < now
    ensures
      var created := CreateReview(header, idp, Some(body), now, store);
      && created.response.status == StatusOk
      && posted == created.response.body.review
      && (forall k :: k in scanned <==> k in created.store && HasPrefix(k, ReviewPrefix))
      && multiset(listed) == multiset(ValuesAt(created.store, scanned))
      && NewestFirst(listed)
    ensures |listed| > 0 && listed[0] == ReviewRecord(posted)
  {
    InputAccepted(body);
    var created := CreateReview(header, idp, Some(body), now, store);
    posted := created.response.body.review;
    assert created.store == store[posted.id := ReviewRecord(posted)];
    assert HasPrefix(posted.id, ReviewPrefix) && posted.createdAt == now;
    WrittenReviewIsNewest(store, posted, now);
    var h;
    h, scanned := ListReviews(created.store);
    listed := h.response.body.reviews;
    NewestKeyListedFirst(created.store, scanned, listed, posted.id);
  }

  /** A review stamped later than every stored one is the newest once written. */
  lemma WrittenReviewIsNewest(store: Store, r: Review, now: nat)
    requires forall k :: k in store && HasPrefix(k, ReviewPrefix) ==> CreatedAt(store[k]) < now
    requires r.createdAt == now
    ensures
      var after := store[r.id := ReviewRecord(r)];
      forall k :: k in after && HasPrefix(k, ReviewPrefix) && k != r.id ==> CreatedAt(after[k]) < CreatedAt(after[r.id])
  {
  }
}
