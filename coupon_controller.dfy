/**
 * The coupon collection and the two coupon handlers
 * (backend/controllers/coupon.controller.js). The collection is a class whose
 * `coupons` sequence stands for the stored documents in their natural order, so
 * `findOne` is "the first match". The payment handlers change the same store.
 */
module CouponController {
  import opened Wrappers
  import Seqs

  type UserId = string

  /** A coupon document; `expirationDate` is a time in milliseconds. */
  datatype Coupon = Coupon(code: string, discountPercentage: int, expirationDate: int,
                           userId: UserId, isActive: bool)

  /** A `Coupon.findOne` filter: an optional code, the owner, and whether only active coupons match. */
  datatype Query = Query(code: Option<string>, userId: UserId, activeOnly: bool)

  predicate Matches(q: Query, c: Coupon) {
    && (q.code.Some? ==> c.code == q.code.value)
    && c.userId == q.userId
    && (q.activeOnly ==> c.isActive)
  }

  /** The coupons a query matches, in store order. */
  function Matching(coupons: seq<Coupon>, q: Query): seq<Coupon> {
    Seqs.Filter(coupons, (c: Coupon) => Matches(q, c))
  }

  /** The document `findOne` returns: the first match in store order. */
  function FindFirst(coupons: seq<Coupon>, q: Query): (r: Option<nat>)
    ensures r.Some? ==> r.value < |coupons| && Matches(q, coupons[r.value])
    ensures r.Some? ==> forall j :: 0 <= j < r.value ==> !Matches(q, coupons[j])
    ensures r.None? ==> forall j :: 0 <= j < |coupons| ==> !Matches(q, coupons[j])
  {
    if coupons == [] then None
    else if Matches(q, coupons[0]) then Some(0)
    else match FindFirst(coupons[1..], q)
      case None => None
      case Some(k) => Some(k + 1)
  }

  /** `findOne` returns the head of the matching coupons, and nothing when there are none. */
  lemma {:induction false} FindFirstIsFirstMatching(coupons: seq<Coupon>, q: Query)
    ensures FindFirst(coupons, q).None? <==> Matching(coupons, q) == []
    ensures FindFirst(coupons, q).Some? ==> coupons[FindFirst(coupons, q).value] == Matching(coupons, q)[0]
  {
    if coupons != [] {
      FindFirstIsFirstMatching(coupons[1..], q);
      assert Matching(coupons, q)
          == (if Matches(q, coupons[0]) then [coupons[0]] else []) + Matching(coupons[1..], q);
    }
  }

  /** The query `getCoupon` runs: the user's active coupons, any code. */
  function ActiveOf(user: UserId): Query {
    Query(None, user, true)
  }

  /** The query `validateCoupon` means to run: this code, this user, active. */
  function ActiveWithCode(code: string, user: UserId): Query {
    Query(Some(code), user, true)
  }

  /** `getCoupon`: an active coupon of the user, or null when the user has none. */
  function ActiveCoupon(coupons: seq<Coupon>, user: UserId): (r: Option<Coupon>)
    ensures r.Some? ==> r.value in coupons && r.value.userId == user && r.value.isActive
    ensures r.None? <==> forall c :: c in coupons ==> !(c.userId == user && c.isActive)
  {
    match FindFirst(coupons, ActiveOf(user))
    case Some(i) => Some(coupons[i])
    case None => None
  }

  /** At most one active coupon per user, the state the loyalty coupon logic aims for. */
  predicate AtMostOneActive(coupons: seq<Coupon>, user: UserId) {
    forall i, j :: 0 <= i < j < |coupons| && coupons[i].userId == user && coupons[j].userId == user
      ==> !(coupons[i].isActive && coupons[j].isActive)
  }

  /** The JSON body of `validateCoupon`'s answer; a `None` field is `undefined` (left out of the JSON). */
  datatype ValidateResponse =
    | Valid(code: Option<string>, discountPercentage: Option<int>)
    | NotFound(message: string)

  /** What the handler's variable `coupon` holds: null, one stored document, or a query not yet run. */
  datatype Lookup = Null | Document(index: nat) | PendingQuery

  /**
   * The body of `validateCoupon` after the lookup. A pending query is a truthy object
   * without an `expirationDate` (`undefined < now` is false) and without `code` or
   * `discountPercentage`.
   */
  function ValidateWith(coupons: seq<Coupon>, found: Lookup, now: int): (ValidateResponse, seq<Coupon>)
    requires found.Document? ==> found.index < |coupons|
  {
    match found
    case Null => (NotFound("Coupon not found"), coupons)
    case PendingQuery => (Valid(None, None), coupons)
    case Document(i) =>
      if coupons[i].expirationDate < now then
        (NotFound("Coupon expired"), coupons[i := coupons[i].(isActive := false)])
      else
        (Valid(Some(coupons[i].code), Some(coupons[i].discountPercentage)), coupons)
  }

  /** The result of awaiting the lookup: the first coupon with this code, owner and `isActive`. */
  function Awaited(coupons: seq<Coupon>, code: string, user: UserId): (l: Lookup)
    ensures !l.PendingQuery?
    ensures l.Document? ==> l.index < |coupons| && Matches(ActiveWithCode(code, user), coupons[l.index])
    ensures l.Document? ==> forall j :: 0 <= j < l.index ==> !Matches(ActiveWithCode(code, user), coupons[j])
    ensures l.Null? <==> forall j :: 0 <= j < |coupons| ==> !Matches(ActiveWithCode(code, user), coupons[j])
  {
    match FindFirst(coupons, ActiveWithCode(code, user))
    case Some(i) => Document(i)
    case None => Null
  }

  /** `validateCoupon` as the source writes it: the query is never awaited. */
  function ValidateAsWritten(coupons: seq<Coupon>, code: string, user: UserId, now: int)
    : (ValidateResponse, seq<Coupon>)
  {
    ValidateWith(coupons, PendingQuery, now)
  }

  /** As written, every request is answered "valid" with no code, and nothing is deactivated. */
  lemma AsWrittenAcceptsEveryCode(coupons: seq<Coupon>, code: string, user: UserId, now: int)
    ensures ValidateAsWritten(coupons, code, user, now) == (Valid(None, None), coupons)
  {
  }

  /** A user with no coupon at all: the source answers "valid", the awaited lookup answers 404. */
  lemma AsWrittenCounterexample()
    ensures ValidateAsWritten([], "GIFTABC123", "u1", 0).0 == Valid(None, None)
    ensures Validate([], "GIFTABC123", "u1", 0).0 == NotFound("Coupon not found")
  {
  }

  /**
   * `validateCoupon` with the lookup awaited: 404 "not found" when no active coupon of
   * the user has the code; 404 "expired" and that coupon deactivated when it expired
   * strictly before `now`; otherwise its code and percentage, the store untouched.
   */
  function Validate(coupons: seq<Coupon>, code: string, user: UserId, now: int)
    : (r: (ValidateResponse, seq<Coupon>))
    ensures r.0 == NotFound("Coupon not found") <==>
              forall c :: c in coupons ==> !(c.code == code && c.userId == user && c.isActive)
    ensures r.0 == NotFound("Coupon not found") ==> r.1 == coupons
    ensures r.0.Valid? ==>
              && r.1 == coupons
              && r.0.code == Some(code)
              && exists c :: c in coupons && c.code == code && c.userId == user && c.isActive
                   && c.expirationDate >= now && r.0.discountPercentage == Some(c.discountPercentage)
    ensures r.0 == NotFound("Coupon expired") ==>
              exists i :: 0 <= i < |coupons| && coupons[i].code == code && coupons[i].userId == user
                && coupons[i].isActive && coupons[i].expirationDate < now
                && r.1 == coupons[i := coupons[i].(isActive := false)]
    ensures r.0.Valid? || r.0 == NotFound("Coupon not found") || r.0 == NotFound("Coupon expired")
  {
    var found := Awaited(coupons, code, user);
    if found.Document? then
      assert coupons[found.index] in coupons;
      ValidateWith(coupons, found, now)
    else
      ValidateWith(coupons, found, now)
  }

  /** Only the coupons that match code, owner and `isActive` decide the answer. */
  lemma ValidateOnlyConsidersMatches(coupons: seq<Coupon>, code: string, user: UserId, now: int)
    ensures Validate(coupons, code, user, now).0
         == Validate(Matching(coupons, ActiveWithCode(code, user)), code, user, now).0
  {
    var q := ActiveWithCode(code, user);
    var m := Matching(coupons, q);
    FindFirstIsFirstMatching(coupons, q);
    FindFirstIsFirstMatching(m, q);
    if m != [] {
      assert Matches(q, m[0]);
      assert FindFirst(m, q) == Some(0);
    }
  }

  /** The expiry test is strict: a coupon expiring exactly now is still accepted. */
  lemma ExpiringNowIsValid(c: Coupon, now: int)
    requires c.isActive && c.expirationDate == now
    ensures Validate([c], c.code, c.userId, now) == (Valid(Some(c.code), Some(c.discountPercentage)), [c])
  {
    assert FindFirst([c], ActiveWithCode(c.code, c.userId)) == Some(0);
  }

  /**
   * Once an expired coupon is deactivated, `getCoupon` returns none for a user who
   * held only that active coupon.
   */
  lemma ExpiredLeavesNoActiveCoupon(coupons: seq<Coupon>, code: string, user: UserId, now: int)
    requires AtMostOneActive(coupons, user)
    requires Validate(coupons, code, user, now).0 == NotFound("Coupon expired")
    ensures ActiveCoupon(Validate(coupons, code, user, now).1, user) == None
  {
    var after := Validate(coupons, code, user, now).1;
    var i :| 0 <= i < |coupons| && coupons[i].code == code && coupons[i].userId == user
      && coupons[i].isActive && coupons[i].expirationDate < now
      && after == coupons[i := coupons[i].(isActive := false)];
    forall c | c in after ensures !(c.userId == user && c.isActive) {
      var j :| 0 <= j < |after| && after[j] == c;
      if j != i {
        assert after[j] == coupons[j];
        assert !(coupons[j].userId == user && coupons[j].isActive);
      }
    }
  }

  /** The coupon collection. */
  class CouponStore {
    var coupons: seq<Coupon>

    constructor (initial: seq<Coupon>)
      ensures coupons == initial
    {
      coupons := initial;
    }

    /** `getCoupon`: reads the store, changes nothing. */
    method GetCoupon(user: UserId) returns (r: Option<Coupon>)
      ensures r.Some? ==> r.value in coupons && r.value.userId == user && r.value.isActive
      ensures r.None? <==> forall c :: c in coupons ==> !(c.userId == user && c.isActive)
    {
      r := ActiveCoupon(coupons, user);
    }

    /** `validateCoupon` with its lookup awaited; the expired branch saves the deactivated coupon. */
    method ValidateCoupon(code: string, user: UserId, now: int) returns (r: ValidateResponse)
      modifies this
      ensures (r, coupons) == Validate(old(coupons), code, user, now)
    {
      var found := Awaited(coupons, code, user);
      match found
      case Null =>
        r := NotFound("Coupon not found");
      case Document(i) =>
        if coupons[i].expirationDate < now {
          coupons := coupons[i := coupons[i].(isActive := false)];
          r := NotFound("Coupon expired");
        } else {
          r := Valid(Some(coupons[i].code), Some(coupons[i].discountPercentage));
        }
    }
  }
}
