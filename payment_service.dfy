/**
 * The rental fee: an unlock fee plus a per-minute charge that depends on the
 * time of day of each started minute, an optional coupon discount, and the
 * payment record and coupon update that settle a finished rental.
 */
module Payments {
  import opened Common
  import opened ErrorCodes
  import opened Domain

  const UNLOCK_FEE: int := 100
  const DAY_RATE: int := 30
  const NIGHT_RATE: int := 4
  /** 09:00 and 18:00 as seconds since midnight. */
  const DAY_START: int := 9 * 3600
  const DAY_END: int := 18 * 3600

  /** isDayTime: from 09:00 inclusive to 18:00 exclusive. */
  predicate IsDayTime(timeOfDay: int)
  {
    DAY_START <= timeOfDay < DAY_END
  }

  function RateAt(t: Instant): (r: int)
    ensures r == DAY_RATE <==> IsDayTime(TimeOfDay(t))
    ensures r == NIGHT_RATE <==> !IsDayTime(TimeOfDay(t))
  {
    if IsDayTime(TimeOfDay(t)) then DAY_RATE else NIGHT_RATE
  }

  /** The charge of the first `k` minute marks start, start + 1 min, …, start + (k - 1) min. */
  function MarksCharge(start: Instant, k: nat): int
  {
    if k == 0 then 0 else MarksCharge(start, k - 1) + RateAt(start + 60 * (k - 1))
  }

  /** How many minute marks lie strictly before `end`: the elapsed minutes rounded up. */
  function ChargedMarks(start: Instant, end: Instant): (k: nat)
    ensures end <= start ==> k == 0
    ensures start < end ==> start + 60 * (k - 1) < end <= start + 60 * k
  {
    if end <= start then 0 else (end - start + 59) / 60
  }

  /** calculateBaseAmount: the unlock fee plus the rate of every minute mark before the end. */
  function BaseAmount(start: Instant, end: Instant): int
  {
    UNLOCK_FEE + MarksCharge(start, ChargedMarks(start, end))
  }

  /** The minute-by-minute walk of calculateBaseAmount; the end is the rental's end
    * time, or `now` while it has none. */
  method CalculateBaseAmount(rental: Rental, now: Instant) returns (total: int)
    ensures total == BaseAmount(rental.startTime, rental.endTime.GetOr(now))
  {
    var start := rental.startTime;
    var end := rental.endTime.GetOr(now);
    total := UNLOCK_FEE;
    var current := start;
    ghost var k: nat := 0;
    while current < end
      invariant current == start + 60 * k
      invariant total == UNLOCK_FEE + MarksCharge(start, k)
      invariant start < end ==> k <= ChargedMarks(start, end)
      invariant end <= start ==> k == 0
      decreases end - current
    {
      if IsDayTime(TimeOfDay(current)) {
        total := total + DAY_RATE;
      } else {
        total := total + NIGHT_RATE;
      }
      current := current + 60;
      k := k + 1;
    }
  }

  /** Every minute mark costs between the night and the day rate. */
  lemma {:induction false} MarksChargeBounds(start: Instant, k: nat)
    ensures NIGHT_RATE * k <= MarksCharge(start, k) <= DAY_RATE * k
  {
    if k > 0 {
      MarksChargeBounds(start, k - 1);
    }
  }

  /** For k charged marks the base amount lies between 100 + 4k and 100 + 30k. */
  lemma BaseAmountBounds(start: Instant, end: Instant)
    ensures var k := ChargedMarks(start, end);
      UNLOCK_FEE + NIGHT_RATE * k <= BaseAmount(start, end) <= UNLOCK_FEE + DAY_RATE * k
  {
    MarksChargeBounds(start, ChargedMarks(start, end));
  }

  /** A ride that ends no later than it starts costs the unlock fee alone. */
  lemma NoRideCostsUnlockFee(start: Instant, end: Instant)
    requires end <= start
    ensures BaseAmount(start, end) == UNLOCK_FEE
  {
  }

  /** The marks of a walk split at any point. */
  lemma {:induction false} MarksChargeSplit(start: Instant, a: nat, b: nat)
    ensures MarksCharge(start, a + b) == MarksCharge(start, a) + MarksCharge(start + 60 * a, b)
  {
    if b > 0 {
      MarksChargeSplit(start, a, b - 1);
      assert start + 60 * (a + b - 1) == (start + 60 * a) + 60 * (b - 1);
    }
  }

  /** Marks that all fall in the same rate band cost that rate each. */
  lemma {:induction false} MarksChargeUniform(start: Instant, k: nat, rate: int)
    requires forall j :: 0 <= j < k ==> RateAt(start + 60 * j) == rate
    ensures MarksCharge(start, k) == rate * k
  {
    if k > 0 {
      MarksChargeUniform(start, k - 1, rate);
      assert RateAt(start + 60 * (k - 1)) == rate;
    }
  }

  /** Moving forward within the same day moves the time of day by the same amount. */
  lemma TimeOfDayAdvance(t: Instant, s: int)
    requires 0 <= s && TimeOfDay(t) + s < SECONDS_PER_DAY
    ensures TimeOfDay(t + s) == TimeOfDay(t) + s
  {
    var q := t / SECONDS_PER_DAY;
    assert t == q * SECONDS_PER_DAY + TimeOfDay(t);
    assert t + s == q * SECONDS_PER_DAY + (TimeOfDay(t) + s);
  }

  /** `k` marks from a start in the daytime band that all stay before 18:00 cost the day rate. */
  lemma DaytimeMarks(start: Instant, k: nat)
    requires DAY_START <= TimeOfDay(start) && TimeOfDay(start) + 60 * (k - 1) < DAY_END
    ensures MarksCharge(start, k) == DAY_RATE * k
  {
    forall j | 0 <= j < k ensures RateAt(start + 60 * j) == DAY_RATE {
      TimeOfDayAdvance(start, 60 * j);
    }
    MarksChargeUniform(start, k, DAY_RATE);
  }

  /** `k` marks from 18:00 or later that stay before midnight cost the night rate. */
  lemma EveningMarks(start: Instant, k: nat)
    requires DAY_END <= TimeOfDay(start) && TimeOfDay(start) + 60 * (k - 1) < SECONDS_PER_DAY
    ensures MarksCharge(start, k) == NIGHT_RATE * k
  {
    forall j | 0 <= j < k ensures RateAt(start + 60 * j) == NIGHT_RATE {
      TimeOfDayAdvance(start, 60 * j);
    }
    MarksChargeUniform(start, k, NIGHT_RATE);
  }

  /** A ride of `k` whole minutes is charged for exactly `k` marks. */
  lemma WholeMinuteRide(start: Instant, end: Instant, k: nat)
    requires end - start == 60 * k
    ensures BaseAmount(start, end) == UNLOCK_FEE + MarksCharge(start, k)
  {
    var q := ChargedMarks(start, end);
    if k > 0 {
      assert 60 * (q - 1) < 60 * k <= 60 * q;
      assert q - 1 < k <= q;
    }
  }

  /** 10:00 to 10:10 on any day costs 100 + 10 × 30 = 400. */
  lemma DaytimeRideScenario(start: Instant)
    requires TimeOfDay(start) == 10 * 3600
    ensures BaseAmount(start, start + 600) == 400
  {
    WholeMinuteRide(start, start + 600, 10);
    DaytimeMarks(start, 10);
  }

  /** 17:55 to 18:05 on any day costs 100 + 5 × 30 + 5 × 4 = 270. */
  lemma EveningRideScenario(start: Instant)
    requires TimeOfDay(start) == 17 * 3600 + 55 * 60
    ensures BaseAmount(start, start + 600) == 270
  {
    var end := start + 600;
    WholeMinuteRide(start, end, 10);
    EveningMarksTotal(start);
  }

  /** The marks 17:55 to 18:04. */
  lemma EveningMarksTotal(start: Instant)
    requires TimeOfDay(start) == 17 * 3600 + 55 * 60
    ensures MarksCharge(start, 10) == 170
  {
    DaytimeMarks(start, 5);
    TimeOfDayAdvance(start, 300);
    EveningMarks(start + 300, 5);
    MarksChargeSplit(start, 5, 5);
  }

  // ------------------------------------------------------------------
  // Discount and final amount

  /** calculateDiscountAmount: the coupon's minutes, capped by the ride's minutes, at the rate of `now`. */
  function DiscountAmount(couponMinutes: int, usageMinutes: int, now: Instant): (r: int)
    ensures 0 <= couponMinutes && 0 <= usageMinutes ==> 0 <= r
    ensures 0 <= couponMinutes ==> r <= DAY_RATE * couponMinutes
    ensures 0 <= usageMinutes ==> r <= DAY_RATE * usageMinutes
  {
    (if couponMinutes <= usageMinutes then couponMinutes else usageMinutes) * RateAt(now)
  }

  /** The final amount: the original less the discount, never below zero. */
  function FinalAmount(original: int, discount: int): (r: int)
    ensures 0 <= r
    ensures 0 <= discount && 0 <= original ==> r <= original
    ensures discount == 0 && 0 <= original ==> r == original
    ensures r == original - discount || (r == 0 && original <= discount)
  {
    if original - discount > 0 then original - discount else 0
  }

  // ------------------------------------------------------------------
  // Settling a rental

  /** The newest ACTIVE payment method of the user: findFirstByUserAndStatusOrderByIdDesc. */
  function NewestActiveMethod(methods: seq<PaymentMethod>, email: string): (r: Option<nat>)
    ensures r.Some? ==> (r.value < |methods| && methods[r.value].userEmail == email
      && methods[r.value].status == MethodActive
      && forall j :: r.value < j < |methods| ==> !(methods[j].userEmail == email && methods[j].status == MethodActive))
    ensures r.None? ==> forall j :: 0 <= j < |methods| ==> !(methods[j].userEmail == email && methods[j].status == MethodActive)
  {
    if |methods| == 0 then None
    else
      var last := |methods| - 1;
      if methods[last].userEmail == email && methods[last].status == MethodActive then Some(last)
      else NewestActiveMethod(methods[..last], email)
  }

  /** findByIdAndUserAndStatusAndExpireDateAfter: the coupon exists, belongs to the user,
    * is ACTIVE and expires strictly after `now` (a coupon without expiry never qualifies). */
  predicate CouponUsable(coupons: seq<Coupon>, id: nat, email: string, now: Instant)
  {
    id < |coupons| && coupons[id].userEmail == email && coupons[id].status == CouponActive
    && coupons[id].expireDate.Some? && coupons[id].expireDate.value > now
  }

  /** The outcome of the external payment gateway call, made only for an amount of at least
    * the unlock fee. The gateway is not part of this model: its answer is an input. */
  datatype Gateway = Gateway(approves: bool, transactionId: string)

  /** processRentalPayment. Success appends a COMPLETED payment and, when a coupon was
    * given, marks it USED by that payment; every failure leaves the tables unchanged
    * (the transaction rolls back, and the payment row is only saved on success). */
  function SettleRental(t: Tables, rentalId: nat, couponId: Option<nat>, now: Instant, gateway: Gateway)
    : (r: (Result<nat>, Tables))
    requires rentalId < |t.rentals|
    requires couponId.Some? ==> t.rentals[rentalId].usageMinutes.Some?
    ensures r.1.(payments := t.payments, coupons := t.coupons) == t
    ensures r.0.Ok? ==> r.0.value == |t.payments| && |r.1.payments| == |t.payments| + 1
  {
    var rental := t.rentals[rentalId];
    var pm := NewestActiveMethod(t.paymentMethods, rental.userEmail);
    if pm.None? then (Err(NoPaymentMethod), t)
    else if couponId.Some? && !CouponUsable(t.coupons, couponId.value, rental.userEmail, now) then
      (Err(InvalidCoupon), t)
    else
      var original := BaseAmount(rental.startTime, rental.endTime.GetOr(now));
      var discount := if couponId.Some?
        then DiscountAmount(t.coupons[couponId.value].discountMinutes, rental.usageMinutes.value, now) else 0;
      var amount := FinalAmount(original, discount);
      if amount >= UNLOCK_FEE && !gateway.approves then (Err(PaymentProcessingFailed), t)
      else
        var id := |t.payments|;
        var payment := Payment(rental.userEmail, rentalId, pm.value, amount, original, discount,
                               PaymentCompleted, Some(gateway.transactionId), None, couponId);
        var coupons := if couponId.Some?
          then t.coupons[couponId.value := t.coupons[couponId.value].(usedAt := Some(now), usedPaymentId := Some(id), status := CouponUsed)]
          else t.coupons;
        (Ok(id), t.(payments := t.payments + [payment], coupons := coupons))
  }

  /** What settling promises: the error cases in order, success exactly when a method
    * exists, any coupon is usable and the gateway approves or is not needed, the new
    * payment's fields, the coupon hand-over, and that nothing else changes. */
  lemma SettleRentalEffect(t: Tables, rentalId: nat, couponId: Option<nat>, now: Instant, gateway: Gateway)
    requires rentalId < |t.rentals|
    requires couponId.Some? ==> t.rentals[rentalId].usageMinutes.Some?
    ensures var (r, t') := SettleRental(t, rentalId, couponId, now, gateway);
      var rental := t.rentals[rentalId];
      && (NewestActiveMethod(t.paymentMethods, rental.userEmail).None? ==> r == Err(NoPaymentMethod))
      && (r.Ok? <==>
            && NewestActiveMethod(t.paymentMethods, rental.userEmail).Some?
            && (couponId.None? || CouponUsable(t.coupons, couponId.value, rental.userEmail, now))
            && (gateway.approves
                || FinalAmount(BaseAmount(rental.startTime, rental.endTime.GetOr(now)),
                               if couponId.Some?
                               then DiscountAmount(t.coupons[couponId.value].discountMinutes, rental.usageMinutes.value, now)
                               else 0) < UNLOCK_FEE))
      && (r.Err? ==> t' == t)
      && (r.Ok? ==>
            && r.value == |t.payments| && t'.payments[..r.value] == t.payments
            && |t'.payments| == |t.payments| + 1
            && t'.(payments := t.payments, coupons := t.coupons) == t
            && var p := t'.payments[r.value];
            && p.status == PaymentCompleted && p.transactionId == Some(gateway.transactionId)
            && p.userEmail == rental.userEmail && p.rentalId == rentalId && p.usedCouponId == couponId
            && p.paymentMethodId == NewestActiveMethod(t.paymentMethods, rental.userEmail).value
            && p.failureReason.None?
            && p.originalAmount == BaseAmount(rental.startTime, rental.endTime.GetOr(now))
            && p.amount == FinalAmount(p.originalAmount, p.discountAmount)
            && 0 <= p.amount && (0 <= p.discountAmount ==> p.amount <= p.originalAmount)
            && (p.amount >= UNLOCK_FEE ==> gateway.approves)
            && (couponId.None? ==> p.discountAmount == 0 && p.amount == p.originalAmount && t'.coupons == t.coupons)
            && (couponId.Some? ==>
                  && CouponUsable(t.coupons, couponId.value, rental.userEmail, now)
                  && var c := t.coupons[couponId.value].discountMinutes;
                  && var u := rental.usageMinutes.value;
                  && p.discountAmount == (if c <= u then c else u) * RateAt(now)
                  && |t'.coupons| == |t.coupons|
                  && t'.coupons[couponId.value].status == CouponUsed
                  && t'.coupons[couponId.value].usedAt == Some(now)
                  && t'.coupons[couponId.value].usedPaymentId == Some(r.value)
                  && forall j :: 0 <= j < |t.coupons| && j != couponId.value ==> t'.coupons[j] == t.coupons[j]))
  {
    var rental := t.rentals[rentalId];
    BaseAmountBounds(rental.startTime, rental.endTime.GetOr(now));
  }

  /** Without a coupon, settling fails only for want of a payment method or by the
    * gateway's refusal. */
  lemma SettleRentalCauses(t: Tables, rentalId: nat, now: Instant, gateway: Gateway)
    requires rentalId < |t.rentals|
    ensures var r := SettleRental(t, rentalId, None, now, gateway).0;
      r.Err? ==> r.error == NoPaymentMethod || r.error == PaymentProcessingFailed
  {
  }

  /** The gateway as the source writes it does nothing and so always succeeds: with an
    * approving gateway, settling without a coupon fails only for want of a payment method,
    * and with a coupon also for an unusable coupon, never with PAYMENT_PROCESSING_FAILED. */
  lemma StubGatewayNeverFails(t: Tables, rentalId: nat, couponId: Option<nat>, now: Instant, tx: string)
    requires rentalId < |t.rentals|
    requires couponId.Some? ==> t.rentals[rentalId].usageMinutes.Some?
    ensures var r := SettleRental(t, rentalId, couponId, now, Gateway(true, tx)).0;
      && (r.Err? ==> r.error == NoPaymentMethod || (couponId.Some? && r.error == InvalidCoupon))
      && (couponId.None? ==> (r.Ok? <==> NewestActiveMethod(t.paymentMethods, t.rentals[rentalId].userEmail).Some?))
  {
  }

  /** A supplied coupon that is not usable rejects the payment with INVALID_COUPON,
    * provided an ACTIVE payment method exists. */
  lemma UnusableCouponRejected(t: Tables, rentalId: nat, couponId: nat, now: Instant, gateway: Gateway)
    requires rentalId < |t.rentals| && t.rentals[rentalId].usageMinutes.Some?
    requires NewestActiveMethod(t.paymentMethods, t.rentals[rentalId].userEmail).Some?
    requires !CouponUsable(t.coupons, couponId, t.rentals[rentalId].userEmail, now)
    ensures SettleRental(t, rentalId, Some(couponId), now, gateway) == (Err(InvalidCoupon), t)
  {
  }

  /** A payment below the unlock fee (after a discount) never calls the gateway, so the
    * gateway's refusal cannot fail it. */
  lemma SmallAmountIgnoresGateway(t: Tables, rentalId: nat, couponId: Option<nat>, now: Instant, tx: string)
    requires rentalId < |t.rentals|
    requires couponId.Some? ==> t.rentals[rentalId].usageMinutes.Some?
    ensures var (r, t') := SettleRental(t, rentalId, couponId, now, Gateway(true, tx));
      r.Ok? && t'.payments[r.value].amount < UNLOCK_FEE ==>
        SettleRental(t, rentalId, couponId, now, Gateway(false, tx)) == (r, t')
  {
  }

  /** The imperative processRentalPayment over the repositories. */
  method ProcessRentalPayment(db: Store, rentalId: nat, couponId: Option<nat>, now: Instant, gateway: Gateway)
    returns (r: Result<nat>)
    requires rentalId < |db.rentals|
    requires couponId.Some? ==> db.rentals[rentalId].usageMinutes.Some?
    modifies db
    ensures (r, db.State()) == SettleRental(old(db.State()), rentalId, couponId, now, gateway)
  {
    var rental := db.rentals[rentalId];
    var pm := NewestActiveMethod(db.paymentMethods, rental.userEmail);
    if pm.None? {
      return Err(NoPaymentMethod);
    }
    if couponId.Some? && !CouponUsable(db.coupons, couponId.value, rental.userEmail, now) {
      return Err(InvalidCoupon);
    }
    var original := CalculateBaseAmount(rental, now);
    var discount := 0;
    if couponId.Some? {
      discount := DiscountAmount(db.coupons[couponId.value].discountMinutes, rental.usageMinutes.value, now);
    }
    var amount := FinalAmount(original, discount);
    var payment := Payment(rental.userEmail, rentalId, pm.value, amount, original, discount,
                           Pending, None, None, couponId);
    if amount >= UNLOCK_FEE && !gateway.approves {
      // the FAILED payment is never saved, and the transaction rolls back
      return Err(PaymentProcessingFailed);
    }
    payment := payment.(status := PaymentCompleted, transactionId := Some(gateway.transactionId));
    var id := |db.payments|;
    if couponId.Some? {
      var c := db.coupons[couponId.value];
      db.coupons := db.coupons[couponId.value := c.(usedAt := Some(now), usedPaymentId := Some(id), status := CouponUsed)];
    }
    db.payments := db.payments + [payment];
    r := Ok(id);
  }
}
