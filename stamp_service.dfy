/**
 * The loyalty ledger: one stamp per HiBike ride, and a free-ride coupon minted
 * from the five oldest unused stamps whenever a user has collected five.
 * Stamps and coupons are ordered by creation, which is their position.
 */
module Stamps {
  import opened Common
  import opened Domain

  const STAMPS_NEEDED_FOR_COUPON: nat := 5
  const COUPON_DISCOUNT_MINUTES: int := 30
  const COUPON_VALIDITY_DAYS: int := 30

  predicate UnusedOfUser(s: Stamp, email: string)
  {
    s.userEmail == email && !s.isUsed
  }

  ghost predicate Ascending(r: seq<nat>)
  {
    forall a, b :: 0 <= a < b < |r| ==> r[a] < r[b]
  }

  /** The positions of the user's unused stamps, oldest first. */
  function UnusedOf(stamps: seq<Stamp>, email: string): (r: seq<nat>)
    ensures forall k :: 0 <= k < |r| ==> r[k] < |stamps| && UnusedOfUser(stamps[r[k]], email)
    ensures forall i :: 0 <= i < |stamps| && UnusedOfUser(stamps[i], email) ==> i in r
    ensures Ascending(r)
  {
    if |stamps| == 0 then []
    else
      var last := |stamps| - 1;
      var earlier := UnusedOf(stamps[..last], email);
      if UnusedOfUser(stamps[last], email) then earlier + [last] else earlier
  }

  /** countByUserAndIsUsedFalse. */
  function CountUnused(stamps: seq<Stamp>, email: string): nat
  {
    |UnusedOf(stamps, email)|
  }

  /** The head of an ascending sequence is its least element. */
  lemma AscendingHead(a: seq<nat>, x: nat)
    requires Ascending(a) && x in a
    ensures a[0] <= x
  {
    var i :| 0 <= i < |a| && a[i] == x;
    if i > 0 { assert a[0] < a[i]; }
  }

  /** Sequences with the same elements are empty together. */
  lemma EmptyTogether(a: seq<nat>, b: seq<nat>)
    requires forall x :: x in a <==> x in b
    ensures |a| == 0 <==> |b| == 0
  {
    if |a| > 0 { assert a[0] in b; }
    if |b| > 0 { assert b[0] in a; }
  }

  /** Past a shared head, an element of one ascending list is in the other's tail. */
  lemma TailMember(a: seq<nat>, b: seq<nat>, x: nat)
    requires Ascending(a) && Ascending(b) && |a| > 0 && |b| > 0 && a[0] == b[0]
    requires forall y :: y in a <==> y in b
    requires x in a[1..]
    ensures x in b[1..]
  {
    var i :| 0 <= i < |a| - 1 && a[i + 1] == x;
    assert a[0] < x;
    assert x in b;
    var j :| 0 <= j < |b| && b[j] == x;
    assert b[1..][j - 1] == x;
  }

  /** Two ascending sequences with the same elements are equal. */
  lemma {:induction false} AscendingUnique(a: seq<nat>, b: seq<nat>)
    requires Ascending(a) && Ascending(b)
    requires forall x :: x in a <==> x in b
    ensures a == b
    decreases |a|
  {
    EmptyTogether(a, b);
    if |a| > 0 {
      assert a[0] in b && b[0] in a;
      AscendingHead(a, b[0]);
      AscendingHead(b, a[0]);
      var a', b' := a[1..], b[1..];
      forall x ensures x in a' <==> x in b' {
        if x in a' { TailMember(a, b, x); }
        if x in b' { TailMember(b, a, x); }
      }
      AscendingUnique(a', b');
      assert a == [a[0]] + a' && b == [b[0]] + b';
    }
  }

  /** An ascending list of exactly the user's unused stamp positions is UnusedOf. */
  lemma UnusedOfCharacterized(stamps: seq<Stamp>, email: string, r: seq<nat>)
    requires Ascending(r)
    requires forall i :: i in r <==> 0 <= i < |stamps| && UnusedOfUser(stamps[i], email)
    ensures UnusedOf(stamps, email) == r
  {
    AscendingUnique(UnusedOf(stamps, email), r);
  }

  /** The stamps at `ids` marked used and linked to coupon `couponId`. */
  function MarkExchanged(stamps: seq<Stamp>, ids: seq<nat>, couponId: nat): (r: seq<Stamp>)
    ensures |r| == |stamps|
    ensures forall i :: 0 <= i < |stamps| && i in ids ==>
      r[i] == stamps[i].(isUsed := true, exchangedCouponId := Some(couponId))
    ensures forall i :: 0 <= i < |stamps| && i !in ids ==> r[i] == stamps[i]
  {
    seq(|stamps|, i requires 0 <= i < |stamps| =>
      if i in ids then stamps[i].(isUsed := true, exchangedCouponId := Some(couponId)) else stamps[i])
  }

  /** Marking one more position, one stamp at a time. */
  lemma MarkOneMore(stamps: seq<Stamp>, ids: seq<nat>, id: nat, couponId: nat)
    requires id < |stamps|
    ensures var m := MarkExchanged(stamps, ids, couponId);
      m[id := m[id].(isUsed := true, exchangedCouponId := Some(couponId))] == MarkExchanged(stamps, ids + [id], couponId)
  {
  }

  /** Marking the oldest unused stamps leaves the rest of the user's unused stamps. */
  lemma MarkOldest(stamps: seq<Stamp>, email: string, n: nat, couponId: nat)
    requires n <= CountUnused(stamps, email)
    ensures var u := UnusedOf(stamps, email);
      UnusedOf(MarkExchanged(stamps, u[..n], couponId), email) == u[n..]
  {
    var u := UnusedOf(stamps, email);
    var m := MarkExchanged(stamps, u[..n], couponId);
    forall i: int ensures i in u[n..] <==> 0 <= i < |m| && UnusedOfUser(m[i], email) {
      if i in u[n..] {
        var k :| n <= k < |u| && u[k] == i;
        forall k' | 0 <= k' < n ensures u[k'] != i {
          assert u[k'] < u[k];
        }
      }
      if 0 <= i < |m| && UnusedOfUser(m[i], email) {
        assert i !in u[..n];
        assert i in u;
        var k :| 0 <= k < |u| && u[k] == i;
        assert u[n..][k - n] == i;
      }
    }
    UnusedOfCharacterized(m, email, u[n..]);
  }

  /** checkAndIssueCoupon: with five or more unused stamps, the five oldest are exchanged
    * for one new ACTIVE coupon worth 30 minutes that expires 30 days from `now`. */
  function CheckAndIssueCoupon(t: Tables, email: string, now: Instant): (r: Tables)
    ensures r.(stamps := t.stamps, coupons := t.coupons) == t
    ensures |r.stamps| == |t.stamps|
  {
    var unused := UnusedOf(t.stamps, email);
    if |unused| >= STAMPS_NEEDED_FOR_COUPON then
      var picked := unused[..STAMPS_NEEDED_FOR_COUPON];
      var couponId := |t.coupons|;
      var coupon := Coupon(email, picked, COUPON_DISCOUNT_MINUTES,
                           Some(now + COUPON_VALIDITY_DAYS * SECONDS_PER_DAY), None, None, CouponActive);
      t.(coupons := t.coupons + [coupon], stamps := MarkExchanged(t.stamps, picked, couponId))
    else t
  }

  /** createStamp: append one unused stamp for the user's rental, then check for a coupon.
    * The result is the new stamp's id. */
  function CreateStamp(t: Tables, email: string, rentalId: nat, now: Instant): (r: (nat, Tables))
    ensures r.1.(stamps := t.stamps, coupons := t.coupons) == t
  {
    (|t.stamps|, CheckAndIssueCoupon(t.(stamps := t.stamps + [Stamp(email, rentalId, false, None)]), email, now))
  }

  /** Appending an unused stamp of the user adds its position to the user's unused list. */
  lemma AppendUnused(stamps: seq<Stamp>, email: string, rentalId: nat)
    ensures UnusedOf(stamps + [Stamp(email, rentalId, false, None)], email) == UnusedOf(stamps, email) + [|stamps|]
  {
    assert (stamps + [Stamp(email, rentalId, false, None)])[..|stamps|] == stamps;
  }

  /** How one createStamp call changes the user's unused count and the coupon table:
    * at most one coupon is minted, exactly when the new stamp makes five or more. */
  lemma CreateStampCount(t: Tables, email: string, rentalId: nat, now: Instant)
    ensures var t' := CreateStamp(t, email, rentalId, now).1;
      var before := CountUnused(t.stamps, email);
      && (|t'.coupons| == |t.coupons| || |t'.coupons| == |t.coupons| + 1)
      && t'.coupons[..|t.coupons|] == t.coupons
      && (|t'.coupons| == |t.coupons| + 1 <==> before + 1 >= STAMPS_NEEDED_FOR_COUPON)
      && CountUnused(t'.stamps, email)
         == (if before + 1 >= STAMPS_NEEDED_FOR_COUPON then before + 1 - STAMPS_NEEDED_FOR_COUPON else before + 1)
  {
    var s1 := t.stamps + [Stamp(email, rentalId, false, None)];
    AppendUnused(t.stamps, email, rentalId);
    if |UnusedOf(s1, email)| >= STAMPS_NEEDED_FOR_COUPON {
      MarkOldest(s1, email, STAMPS_NEEDED_FOR_COUPON, |t.coupons|);
    }
  }

  /** What else one createStamp call changes: it appends the user's new stamp, touches
    * no stamp that was already used or belongs to someone else, and no other table. */
  lemma CreateStampFrame(t: Tables, email: string, rentalId: nat, now: Instant)
    ensures var (id, t') := CreateStamp(t, email, rentalId, now);
      && id == |t.stamps| && |t'.stamps| == |t.stamps| + 1
      && t'.stamps[id].userEmail == email && t'.stamps[id].rentalId == rentalId
      && (forall i :: 0 <= i < |t.stamps| && (t.stamps[i].isUsed || t.stamps[i].userEmail != email) ==>
            t'.stamps[i] == t.stamps[i])
      && t'.(stamps := t.stamps, coupons := t.coupons) == t
  {
    var s1 := t.stamps + [Stamp(email, rentalId, false, None)];
    var u := UnusedOf(s1, email);
    if |u| >= STAMPS_NEEDED_FOR_COUPON {
      forall i | 0 <= i < |t.stamps| && (t.stamps[i].isUsed || t.stamps[i].userEmail != email)
        ensures i !in u[..STAMPS_NEEDED_FOR_COUPON]
      {
        assert s1[i] == t.stamps[i];
        forall k | 0 <= k < STAMPS_NEEDED_FOR_COUPON ensures u[k] != i {
          assert UnusedOfUser(s1[u[k]], email);
        }
      }
    }
  }

  /** A minted coupon holds exactly the five oldest unused stamps, and each of them
    * now points back at it. */
  lemma MintedCoupon(t: Tables, email: string, rentalId: nat, now: Instant)
    requires CountUnused(t.stamps, email) + 1 >= STAMPS_NEEDED_FOR_COUPON
    ensures var (_, t') := CreateStamp(t, email, rentalId, now);
      var picked := (UnusedOf(t.stamps, email) + [|t.stamps|])[..STAMPS_NEEDED_FOR_COUPON];
      var cid := |t.coupons|;
      && |t'.coupons| == cid + 1
      && t'.coupons[cid] == Coupon(email, picked, COUPON_DISCOUNT_MINUTES,
                                   Some(now + COUPON_VALIDITY_DAYS * SECONDS_PER_DAY), None, None, CouponActive)
      && (forall k :: 0 <= k < |picked| ==>
            picked[k] < |t'.stamps| && t'.stamps[picked[k]].isUsed
            && t'.stamps[picked[k]].exchangedCouponId == Some(cid))
  {
    AppendUnused(t.stamps, email, rentalId);
  }

  /** Below five unused stamps before a call means below five after it: one more, or
    * zero when the new stamp completed a set of five. */
  lemma StaysBelowFive(t: Tables, email: string, rentalId: nat, now: Instant)
    requires CountUnused(t.stamps, email) < STAMPS_NEEDED_FOR_COUPON
    ensures var after := CountUnused(CreateStamp(t, email, rentalId, now).1.stamps, email);
      var before := CountUnused(t.stamps, email);
      after < STAMPS_NEEDED_FOR_COUPON
      && after == (if before + 1 == STAMPS_NEEDED_FOR_COUPON then 0 else before + 1)
  {
    CreateStampCount(t, email, rentalId, now);
  }

  /** findFirstByUserOrderByCreatedAtDesc: the user's newest coupon. */
  function LastIssuedCouponId(coupons: seq<Coupon>, email: string): (r: Option<nat>)
    ensures r.Some? ==> r.value < |coupons| && coupons[r.value].userEmail == email
    ensures r.Some? ==> (forall j :: r.value < j < |coupons| ==> coupons[j].userEmail != email)
    ensures r.None? ==> forall j :: 0 <= j < |coupons| ==> coupons[j].userEmail != email
  {
    if |coupons| == 0 then None
    else if coupons[|coupons| - 1].userEmail == email then Some(|coupons| - 1)
    else LastIssuedCouponId(coupons[..|coupons| - 1], email)
  }

  datatype StampIssuance = StampIssuance(
    stampId: nat,
    totalUnusedStamps: nat,
    couponIssued: bool,
    issuedCouponId: Option<nat>)

  /** issueStampForHiBikeUse: create the stamp, then report the unused count and, when it
    * is a multiple of five, the user's newest coupon. */
  function IssueStampForHiBikeUse(t: Tables, email: string, rentalId: nat, now: Instant): (r: (StampIssuance, Tables))
    ensures r.1.(stamps := t.stamps, coupons := t.coupons) == t
  {
    var (stampId, t') := CreateStamp(t, email, rentalId, now);
    var unused := CountUnused(t'.stamps, email);
    var issued := unused % STAMPS_NEEDED_FOR_COUPON == 0;
    (StampIssuance(stampId, unused, issued, if issued then LastIssuedCouponId(t'.coupons, email) else None), t')
  }

  /** The report is read off the ledger the call leaves behind. */
  lemma IssuanceReport(t: Tables, email: string, rentalId: nat, now: Instant)
    ensures var (info, t') := IssueStampForHiBikeUse(t, email, rentalId, now);
      && t' == CreateStamp(t, email, rentalId, now).1
      && info.stampId == |t.stamps|
      && info.totalUnusedStamps == CountUnused(t'.stamps, email)
      && (info.couponIssued <==> CountUnused(t'.stamps, email) % STAMPS_NEEDED_FOR_COUPON == 0)
      && info.issuedCouponId == (if info.couponIssued then LastIssuedCouponId(t'.coupons, email) else None)
  {
  }

  /** The stamp that completes a set of five mints a coupon, and the report names it. */
  lemma IssuanceWhenMinted(t: Tables, email: string, rentalId: nat, now: Instant)
    requires CountUnused(t.stamps, email) + 1 == STAMPS_NEEDED_FOR_COUPON
    ensures var (info, t') := IssueStampForHiBikeUse(t, email, rentalId, now);
      info.couponIssued && |t'.coupons| == |t.coupons| + 1 && info.issuedCouponId == Some(|t.coupons|)
  {
    IssuanceReport(t, email, rentalId, now);
    CreateStampCount(t, email, rentalId, now);
    MintedCoupon(t, email, rentalId, now);
    var t' := CreateStamp(t, email, rentalId, now).1;
    LastCouponIsNewest(t.coupons, t'.coupons, email);
  }

  /** Any other stamp below five mints nothing, and the report says so. */
  lemma IssuanceWhenNotMinted(t: Tables, email: string, rentalId: nat, now: Instant)
    requires CountUnused(t.stamps, email) + 1 < STAMPS_NEEDED_FOR_COUPON
    ensures var (info, t') := IssueStampForHiBikeUse(t, email, rentalId, now);
      !info.couponIssued && |t'.coupons| == |t.coupons| && info.issuedCouponId == None
  {
    IssuanceReport(t, email, rentalId, now);
    CreateStampCount(t, email, rentalId, now);
  }

  /** While the ledger keeps every user below five unused stamps, the report's
    * couponIssued is true exactly when this call minted a coupon, and then names it. */
  lemma IssuanceReportIsAccurate(t: Tables, email: string, rentalId: nat, now: Instant)
    requires CountUnused(t.stamps, email) < STAMPS_NEEDED_FOR_COUPON
    ensures var (info, t') := IssueStampForHiBikeUse(t, email, rentalId, now);
      && (info.couponIssued <==> |t'.coupons| == |t.coupons| + 1)
      && (info.couponIssued ==> info.issuedCouponId == Some(|t.coupons|))
  {
    if CountUnused(t.stamps, email) + 1 == STAMPS_NEEDED_FOR_COUPON {
      IssuanceWhenMinted(t, email, rentalId, now);
    } else {
      IssuanceWhenNotMinted(t, email, rentalId, now);
    }
  }

  lemma LastCouponIsNewest(before: seq<Coupon>, after: seq<Coupon>, email: string)
    requires |after| == |before| + 1 && after[|before|].userEmail == email
    ensures LastIssuedCouponId(after, email) == Some(|before|)
  {
  }

  /** The report is not accurate without that invariant: nine unused stamps plus one make
    * ten, a coupon is minted, and five remain, so the report still says a coupon was
    * issued; but from five unused stamps the new sixth mints a coupon and one remains,
    * so couponIssued is false although a coupon was minted. */
  lemma IssuanceReportNeedsInvariant(t: Tables, email: string, rentalId: nat, now: Instant)
    requires CountUnused(t.stamps, email) == STAMPS_NEEDED_FOR_COUPON
    ensures var (info, t') := IssueStampForHiBikeUse(t, email, rentalId, now);
      !info.couponIssued && |t'.coupons| == |t.coupons| + 1
  {
    CreateStampCount(t, email, rentalId, now);
  }

  /** The loop that hands each picked stamp over to the new coupon (useForCoupon). */
  method HandOver(stamps: seq<Stamp>, picked: seq<nat>, couponId: nat) returns (r: seq<Stamp>)
    requires forall k :: 0 <= k < |picked| ==> picked[k] < |stamps|
    ensures r == MarkExchanged(stamps, picked, couponId)
  {
    r := stamps;
    var i := 0;
    while i < |picked|
      invariant 0 <= i <= |picked|
      invariant r == MarkExchanged(stamps, picked[..i], couponId)
    {
      var id := picked[i];
      MarkOneMore(stamps, picked[..i], id, couponId);
      r := r[id := r[id].(isUsed := true, exchangedCouponId := Some(couponId))];
      assert picked[..i + 1] == picked[..i] + [id];
      i := i + 1;
    }
    assert picked[..i] == picked;
  }

  /** The imperative checkAndIssueCoupon: count, save the coupon, and hand the five
    * oldest stamps over to it. */
  method CheckAndIssueCouponIn(db: Store, email: string, now: Instant)
    modifies db
    ensures db.State() == CheckAndIssueCoupon(old(db.State()), email, now)
  {
    var unused := UnusedOf(db.stamps, email);
    if |unused| >= STAMPS_NEEDED_FOR_COUPON {
      var picked := unused[..STAMPS_NEEDED_FOR_COUPON];
      var couponId := |db.coupons|;
      var stamps := HandOver(db.stamps, picked, couponId);
      db.coupons := db.coupons + [Coupon(email, picked, COUPON_DISCOUNT_MINUTES,
                                         Some(now + COUPON_VALIDITY_DAYS * SECONDS_PER_DAY), None, None, CouponActive)];
      db.stamps := stamps;
    }
  }

  /** The imperative createStamp. */
  method CreateStampIn(db: Store, email: string, rentalId: nat, now: Instant) returns (stampId: nat)
    modifies db
    ensures (stampId, db.State()) == CreateStamp(old(db.State()), email, rentalId, now)
  {
    stampId := |db.stamps|;
    db.stamps := db.stamps + [Stamp(email, rentalId, false, None)];
    CheckAndIssueCouponIn(db, email, now);
  }

  method IssueStampForHiBikeUseIn(db: Store, email: string, rentalId: nat, now: Instant) returns (info: StampIssuance)
    modifies db
    ensures (info, db.State()) == IssueStampForHiBikeUse(old(db.State()), email, rentalId, now)
  {
    var stampId := CreateStampIn(db, email, rentalId, now);
    var unused := CountUnused(db.stamps, email);
    var issued := unused % STAMPS_NEEDED_FOR_COUPON == 0;
    var couponId := None;
    if issued {
      couponId := LastIssuedCouponId(db.coupons, email);
    }
    info := StampIssuance(stampId, unused, issued, couponId);
  }
}
