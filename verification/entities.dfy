/**
 * The records the server keeps in its key-value store, the users the
 * identity provider vouches for, and the store keys. Timestamps are
 * milliseconds since the epoch; their ISO-8601 renderings are assumed to
 * sort like the numbers.
 */
module Entities {
  import opened Wrappers
  import opened Text
  import opened Decimal

  /** A user as the identity provider reports it; `name` is the optional metadata name. */
  datatype User = User(id: string, email: string, name: Option<string>)

  /** A review, with the author's name and email copied at posting time. */
  datatype Review = Review(
    id: string,
    userId: string,
    userName: string,
    userEmail: string,
    rating: real,
    comment: string,
    createdAt: int)

  datatype DonationStatus = Pending | Completed

  /** A donation, keyed by the payment processor's checkout session. */
  datatype Donation = Donation(
    sessionId: string,
    amount: real,
    message: Option<string>,
    email: Option<string>,
    createdAt: int,
    status: DonationStatus,
    completedAt: Option<int>)

  /** A value of the key-value store. */
  datatype Record =
    | ReviewRecord(review: Review)
    | PlanRecord(plan: string, userId: string, updatedAt: int)
    | DonationRecord(donation: Donation)

  type Store = map<string, Record>

  /** The record's `userId` field; donations have none. */
  function Owner(r: Record): Option<string> {
    match r
    case ReviewRecord(rv) => Some(rv.userId)
    case PlanRecord(_, userId, _) => Some(userId)
    case DonationRecord(_) => None
  }

  /** The record's `createdAt` field; a plan record has none and ranks at 0. */
  function CreatedAt(r: Record): int {
    match r
    case ReviewRecord(rv) => rv.createdAt
    case PlanRecord(_, _, _) => 0
    case DonationRecord(d) => d.createdAt
  }

  const ReviewPrefix: string := "review:"
  const PlanPrefix: string := "user_plan:"
  const DonationPrefix: string := "donation:"

  /** `review:<now>_<userId>`. */
  function ReviewKey(now: nat, userId: string): (key: string)
    ensures HasPrefix(key, ReviewPrefix)
    ensures key[|ReviewPrefix|..] == DecimalString(now) + "_" + userId
  {
    PrefixOfConcat(ReviewPrefix, DecimalString(now) + "_" + userId);
    ReviewPrefix + (DecimalString(now) + "_" + userId)
  }

  /** `user_plan:<userId>`. */
  function PlanKey(userId: string): (key: string)
    ensures HasPrefix(key, PlanPrefix)
    ensures key[|PlanPrefix|..] == userId
  {
    PrefixOfConcat(PlanPrefix, userId);
    PlanPrefix + userId
  }

  /** `donation:<sessionId>`. */
  function DonationKey(sessionId: string): (key: string)
    ensures HasPrefix(key, DonationPrefix)
    ensures key[|DonationPrefix|..] == sessionId
  {
    PrefixOfConcat(DonationPrefix, sessionId);
    DonationPrefix + sessionId
  }

  /**
   * A review key names its instant and author unambiguously: the numeral
   * holds no `_`, so the first `_` after the prefix ends it. Two reviews
   * collide only when the same user posts twice within one millisecond.
   */
  lemma ReviewKeyInjective(t1: nat, u1: string, t2: nat, u2: string)
    requires ReviewKey(t1, u1) == ReviewKey(t2, u2)
    ensures t1 == t2 && u1 == u2
  {
    var k := ReviewKey(t1, u1);
    assert k[|ReviewPrefix|..] == DecimalString(t1) + ['_'] + u1;
    assert k[|ReviewPrefix|..] == DecimalString(t2) + ['_'] + u2;
    SeparatedPairInjective(DecimalString(t1), u1, DecimalString(t2), u2, '_');
    DecimalStringInjective(t1, t2);
  }

  /** The three key namespaces are disjoint. */
  lemma NamespacesDisjoint(key: string)
    ensures !(HasPrefix(key, ReviewPrefix) && HasPrefix(key, PlanPrefix))
    ensures !(HasPrefix(key, ReviewPrefix) && HasPrefix(key, DonationPrefix))
    ensures !(HasPrefix(key, PlanPrefix) && HasPrefix(key, DonationPrefix))
  {
    PrefixesClash(key, ReviewPrefix, PlanPrefix);
    PrefixesClash(key, ReviewPrefix, DonationPrefix);
    PrefixesClash(key, PlanPrefix, DonationPrefix);
  }
}
