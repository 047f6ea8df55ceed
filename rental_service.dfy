/**
 * The rental lifecycle: renting a bike (including the HiBike hand-over, where a
 * second rider takes over a bike the first rider left unlocked for them), pausing,
 * resuming and returning it at a dock. Every command either succeeds or fails with
 * the first violated rule's code and leaves the tables as they were (the service is
 * one transaction).
 */
module Rentals {
  import opened Common
  import opened ErrorCodes
  import opened Domain
  import opened Payments
  import opened Stamps

  const MIN_BATTERY_LEVEL: int := 20

  // ------------------------------------------------------------------
  // Queries

  /** findByQrCode: the first bike carrying the code. */
  function FindBike(bikes: seq<Bike>, qrCode: string): (r: Option<nat>)
    ensures r.Some? ==> r.value < |bikes| && bikes[r.value].qrCode == qrCode
    ensures r.Some? ==> forall j :: 0 <= j < r.value ==> bikes[j].qrCode != qrCode
    ensures r.None? ==> forall j :: 0 <= j < |bikes| ==> bikes[j].qrCode != qrCode
  {
    if |bikes| == 0 then None
    else if bikes[0].qrCode == qrCode then Some(0)
    else match FindBike(bikes[1..], qrCode)
      case None => None
      case Some(i) => Some(i + 1)
  }

  /** findByBikeAndStatus(bike, IN_PROGRESS): the first rental of the bike still in progress. */
  function FindRentalInProgress(rentals: seq<Rental>, bikeId: nat): (r: Option<nat>)
    ensures r.Some? ==> r.value < |rentals| && rentals[r.value].bikeId == bikeId
                        && rentals[r.value].status == InProgress
    ensures r.None? ==> forall j :: 0 <= j < |rentals| ==> !(rentals[j].bikeId == bikeId && rentals[j].status == InProgress)
  {
    if |rentals| == 0 then None
    else if rentals[0].bikeId == bikeId && rentals[0].status == InProgress then Some(0)
    else match FindRentalInProgress(rentals[1..], bikeId)
      case None => None
      case Some(i) => Some(i + 1)
  }

  /** existsByUserAndStatus(user, ACTIVE). */
  predicate HasActiveMethod(methods: seq<PaymentMethod>, email: string)
  {
    exists i :: 0 <= i < |methods| && methods[i].userEmail == email && methods[i].status == MethodActive
  }

  /** existsByUserAndStatusNot(user, COMPLETED). */
  predicate HasUncompletedRental(rentals: seq<Rental>, email: string)
  {
    exists i :: 0 <= i < |rentals| && rentals[i].userEmail == email && rentals[i].status != Completed
  }

  /** A bike can be rented when it is parked at a dock, or when it is a HiBike: left
    * temporarily locked by its rider and offered for rent. */
  predicate Rentable(b: Bike)
  {
    b.status == Parked || (b.hiBikeStatus == AvailableForRent && b.status == TemporaryLocked)
  }

  // ------------------------------------------------------------------
  // Rental field updates

  /** calculatePauseDuration: the whole minutes of the open pause, 0 when none is open. */
  function PauseDuration(rental: Rental, now: Instant): int
  {
    if rental.lastPauseStartTime.None? then 0 else WholeMinutes(rental.lastPauseStartTime.value, now)
  }

  /** updatePauseTime: close the open pause, adding its whole minutes to the total
    * (a missing total counts as zero). Without an open pause nothing changes. */
  function UpdatePauseTime(rental: Rental, now: Instant): (r: Rental)
    ensures rental.lastPauseStartTime.None? ==> r == rental
    ensures rental.lastPauseStartTime.Some? ==>
      && r.pauseMinutes == Some(rental.pauseMinutes.GetOr(0) + PauseDuration(rental, now))
      && r == rental.(pauseMinutes := r.pauseMinutes, lastPauseStartTime := None)
  {
    if rental.lastPauseStartTime.None? then rental
    else rental.(pauseMinutes := Some(rental.pauseMinutes.GetOr(0) + WholeMinutes(rental.lastPauseStartTime.value, now)),
                 lastPauseStartTime := None)
  }

  /** calculateTotalMinutes: whole minutes from the start to the end time (or `now`).
    * Paused time is not subtracted. */
  function TotalMinutes(rental: Rental, now: Instant): (r: int)
    ensures rental.startTime <= rental.endTime.GetOr(now) ==>
      0 <= r && 60 * r <= rental.endTime.GetOr(now) - rental.startTime < 60 * r + 60
  {
    WholeMinutes(rental.startTime, rental.endTime.GetOr(now))
  }

  /** Steps 1 and 2 of a return: fold the open pause, stamp the end time and usage,
    * and mark the rental COMPLETED. */
  function CompleteRental(rental: Rental, now: Instant): (r: Rental)
    ensures r.status == Completed && r.endTime == Some(now) && r.lastPauseStartTime.None?
    ensures r.usageMinutes == Some(WholeMinutes(rental.startTime, now))
    ensures r.pauseMinutes == (if rental.lastPauseStartTime.Some?
                               then Some(rental.pauseMinutes.GetOr(0) + PauseDuration(rental, now))
                               else rental.pauseMinutes)
    ensures r.userEmail == rental.userEmail && r.bikeId == rental.bikeId
    ensures r.startTime == rental.startTime && r.couponApplied == rental.couponApplied
  {
    var folded := UpdatePauseTime(rental, now);
    var ended := folded.(endTime := Some(now));
    ended.(usageMinutes := Some(TotalMinutes(ended, now)), status := Completed)
  }

  /** updateBikeLocation. */
  function AtLocation(b: Bike, latitude: Coordinate, longitude: Coordinate): Bike
  {
    b.(latitude := latitude, longitude := longitude)
  }

  // ------------------------------------------------------------------
  // Returning

  /** The dock a rider returns a bike to. */
  datatype ReturnRequest = ReturnRequest(stationId: nat, dockId: Option<int>, latitude: Coordinate, longitude: Coordinate)

  datatype ReturnReceipt = ReturnReceipt(
    rentalId: nat,
    bikeId: nat,
    endTime: Instant,
    usageMinutes: int,
    pauseMinutes: Option<int>,
    paymentAmount: int,
    bikeStatus: BikeStatus,
    hiBikeStatus: HiBikeStatus,
    stationId: Option<nat>,
    stampInfo: Option<StampIssuance>)

  /** validateReturnLocation: the station exists and belongs to the bike's home hub. */
  function ReturnLocationError(t: Tables, bike: Bike, stationId: nat): (r: Option<ErrorCode>)
    ensures r.None? <==> stationId in t.stations && t.stations[stationId].hub.id == bike.homeHub.id
    ensures stationId !in t.stations ==> r == Some(StationNotFound)
    ensures stationId in t.stations && t.stations[stationId].hub.id != bike.homeHub.id ==> r == Some(InvalidReturnHub)
  {
    if stationId !in t.stations then Some(StationNotFound)
    else if t.stations[stationId].hub.id != bike.homeHub.id then Some(InvalidReturnHub)
    else None
  }

  /** updateBikeForNormalReturn: the bike is PARKED at the requested dock and coordinates. */
  function DockBike(b: Bike, req: ReturnRequest): (r: Bike)
    ensures r.status == Parked && r.currentStation == Some(req.stationId) && r.currentDockId == req.dockId
    ensures r.latitude == req.latitude && r.longitude == req.longitude
    ensures r.(status := b.status, currentStation := b.currentStation, currentDockId := b.currentDockId,
               latitude := b.latitude, longitude := b.longitude) == b
  {
    AtLocation(b, req.latitude, req.longitude).(status := Parked, currentStation := Some(req.stationId), currentDockId := req.dockId)
  }

  /** returnBike(rental, isHiBikeTransfer, request), the shared return procedure. `dock` is
    * the rider's dock for an ordinary return and None for a HiBike hand-over, which
    * neither checks a station nor moves the bike. Payment runs without a coupon. A stamp
    * is issued on an ordinary return of a bike that was handed over. Every failure
    * becomes RETURN_PROCESSING_FAILED carrying its cause, with nothing changed. */
  function ReturnCore(t: Tables, rentalId: nat, dock: Option<ReturnRequest>, now: Instant, gateway: Gateway)
    : (r: (Result<ReturnReceipt>, Tables))
    requires t.Valid() && rentalId < |t.rentals|
    ensures r.1.Valid() && |r.1.bikes| == |t.bikes| && |r.1.rentals| == |t.rentals|
    ensures r.1.users == t.users && r.1.stations == t.stations && r.1.paymentMethods == t.paymentMethods
  {
    var rental := CompleteRental(t.rentals[rentalId], now);
    var bikeId := rental.bikeId;
    var bike := t.bikes[bikeId];
    var located: Result<Bike> :=
      if dock.None? then Ok(bike)
      else match ReturnLocationError(t, bike, dock.value.stationId)
        case Some(e) => Err(e)
        case None => Ok(DockBike(bike, dock.value));
    if located.Err? then (Err(ReturnProcessingFailed(located.error)), t)
    else
      var t1 := t.(rentals := t.rentals[rentalId := rental], bikes := t.bikes[bikeId := located.value]);
      assert t1.Valid();
      var (paid, t2) := SettleRental(t1, rentalId, None, now, gateway);
      if paid.Err? then (Err(ReturnProcessingFailed(paid.error)), t)
      else
        var b := located.value;
        var stamp: Option<(StampIssuance, Tables)> :=
          if dock.Some? && b.hiBikeStatus == Transferred
          then Some(IssueStampForHiBikeUse(t2, rental.userEmail, rentalId, now)) else None;
        var t3 := if stamp.Some? then stamp.value.1 else t2;
        var receipt := ReturnReceipt(rentalId, bikeId, now, rental.usageMinutes.value, rental.pauseMinutes,
                                     t2.payments[paid.value].amount, b.status, b.hiBikeStatus, b.currentStation,
                                     if stamp.Some? then Some(stamp.value.0) else None);
        (Ok(receipt), t3)
  }

  /** The rental `rentalId` of the caller: RENTAL_NOT_FOUND, then RENTAL_NOT_OWNED. */
  function OwnedRental(t: Tables, email: string, rentalId: nat): (r: Option<ErrorCode>)
    ensures r.None? <==> rentalId < |t.rentals| && t.rentals[rentalId].userEmail == email
    ensures rentalId >= |t.rentals| ==> r == Some(RentalNotFound)
    ensures rentalId < |t.rentals| && t.rentals[rentalId].userEmail != email ==> r == Some(RentalNotOwned)
  {
    if rentalId >= |t.rentals| then Some(RentalNotFound)
    else if t.rentals[rentalId].userEmail != email then Some(RentalNotOwned)
    else None
  }

  /** The public returnBike: the caller's rental, still IN_PROGRESS, returned at a dock. */
  function ReturnBike(t: Tables, email: string, rentalId: nat, req: ReturnRequest, now: Instant, gateway: Gateway)
    : (r: (Result<ReturnReceipt>, Tables))
    requires t.Valid()
    ensures r.1.Valid()
    ensures r.0.Err? ==> r.1 == t
  {
    match OwnedRental(t, email, rentalId)
    case Some(e) => (Err(e), t)
    case None =>
      if t.rentals[rentalId].status != InProgress then (Err(RentalNotInProgress), t)
      else ReturnCore(t, rentalId, Some(req), now, gateway)
  }

  // ------------------------------------------------------------------
  // Renting

  datatype RentalReceipt = RentalReceipt(
    rentalId: nat, bikeId: nat, startTime: Instant, bikeStatus: BikeStatus, hiBikeStatus: HiBikeStatus)

  /** The checks of rentBike before anything changes, in their order; the result is the bike. */
  function RentCheck(t: Tables, email: string, qrCode: string): (r: Result<nat>)
    ensures r.Ok? ==> r.value < |t.bikes|
  {
    if email !in t.users then Err(UserNotFound)
    else if StatusError(t.users[email].status).Some? then Err(StatusError(t.users[email].status).value)
    else match FindBike(t.bikes, qrCode)
      case None => Err(BikeNotFound)
      case Some(bikeId) =>
        if !Rentable(t.bikes[bikeId]) then Err(BikeNotAvailable)
        else if t.bikes[bikeId].batteryLevel < MIN_BATTERY_LEVEL then Err(ErrorCodes.LowBattery)
        else if !HasActiveMethod(t.paymentMethods, email) then Err(NoPaymentMethod)
        else if HasUncompletedRental(t.rentals, email) then Err(ActiveRentalExists)
        else Ok(bikeId)
  }

  /** handleHiBikeTransfer: the bike's rental still in progress is completed as a hand-over
    * return, and the bike is marked TRANSFERRED. A bike that is not offered as a HiBike is
    * left alone. */
  function HandleHiBikeTransfer(t: Tables, bikeId: nat, now: Instant, gateway: Gateway): (r: (Result<()>, Tables))
    requires t.Valid() && bikeId < |t.bikes|
    ensures r.1.Valid() && |r.1.bikes| == |t.bikes| && |r.1.rentals| == |t.rentals|
    ensures r.1.users == t.users && r.1.paymentMethods == t.paymentMethods
    ensures r.0.Err? ==> r.1 == t
  {
    if t.bikes[bikeId].hiBikeStatus != AvailableForRent then (Ok(()), t)
    else match FindRentalInProgress(t.rentals, bikeId)
      case None => (Err(RentalNotFound), t)
      case Some(previous) =>
        var (returned, t1) := ReturnCore(t, previous, None, now, gateway);
        if returned.Err? then (Err(returned.error), t)
        else (Ok(()), t1.(bikes := t1.bikes[bikeId := t1.bikes[bikeId].(hiBikeStatus := Transferred)]))
  }

  /** rentBike: the checks, the hand-over of a HiBike, then a new IN_PROGRESS rental
    * starting now, and the bike IN_USE and out of its dock. */
  function RentBike(t: Tables, email: string, qrCode: string, useCoupon: bool, now: Instant, gateway: Gateway)
    : (r: (Result<RentalReceipt>, Tables))
    requires t.Valid()
    ensures r.1.Valid()
    ensures r.0.Err? ==> r.1 == t
  {
    match RentCheck(t, email, qrCode)
    case Err(e) => (Err(e), t)
    case Ok(bikeId) =>
      var (handed, t1) := HandleHiBikeTransfer(t, bikeId, now, gateway);
      if handed.Err? then (Err(handed.error), t)
      else
        var rentalId := |t1.rentals|;
        var rental := Rental(email, bikeId, now, None, None, None, None, InProgress, useCoupon);
        var bike := t1.bikes[bikeId].(status := InUse, currentDockId := None);
        var t2 := t1.(rentals := t1.rentals + [rental], bikes := t1.bikes[bikeId := bike]);
        assert t2.Valid() by {
          assert forall i :: 0 <= i < |t1.rentals| ==> t2.rentals[i] == t1.rentals[i];
        }
        (Ok(RentalReceipt(rentalId, bikeId, now, bike.status, bike.hiBikeStatus)), t2)
  }

  // ------------------------------------------------------------------
  // Pausing and resuming

  datatype PauseReceipt = PauseReceipt(rentalId: nat, bikeStatus: BikeStatus, pauseTime: Instant, totalPauseMinutes: Option<int>)

  datatype ResumeReceipt = ResumeReceipt(rentalId: nat, bikeStatus: BikeStatus, resumeTime: Instant, pauseMinutes: int)

  /** pauseBike: lock the caller's rental's bike temporarily where it stands, and open a pause. */
  function PauseBike(t: Tables, email: string, rentalId: nat, latitude: Coordinate, longitude: Coordinate, now: Instant)
    : (r: (Result<PauseReceipt>, Tables))
    requires t.Valid()
    ensures r.1.Valid() && |r.1.rentals| == |t.rentals|
    ensures r.0.Err? ==> r.1 == t
  {
    match OwnedRental(t, email, rentalId)
    case Some(e) => (Err(e), t)
    case None =>
      var rental := t.rentals[rentalId];
      if rental.status != InProgress then (Err(RentalNotInProgress), t)
      else if t.bikes[rental.bikeId].status == TemporaryLocked then (Err(BikeAlreadyLocked), t)
      else
        var bike := AtLocation(t.bikes[rental.bikeId], latitude, longitude).(status := TemporaryLocked);
        var paused := rental.(lastPauseStartTime := Some(now));
        (Ok(PauseReceipt(rentalId, TemporaryLocked, now, paused.pauseMinutes)),
         t.(bikes := t.bikes[rental.bikeId := bike], rentals := t.rentals[rentalId := paused]))
  }

  /** resumeBike: close the open pause of the caller's rental and put the bike back in use
    * where it stands. The receipt reports this pause's minutes. */
  function ResumeBike(t: Tables, email: string, rentalId: nat, latitude: Coordinate, longitude: Coordinate, now: Instant)
    : (r: (Result<ResumeReceipt>, Tables))
    requires t.Valid()
    ensures r.1.Valid() && |r.1.rentals| == |t.rentals|
    ensures r.0.Err? ==> r.1 == t
  {
    match OwnedRental(t, email, rentalId)
    case Some(e) => (Err(e), t)
    case None =>
      var rental := t.rentals[rentalId];
      if rental.status != InProgress then (Err(RentalNotInProgress), t)
      else if t.bikes[rental.bikeId].status != TemporaryLocked then (Err(BikeNotLocked), t)
      else if rental.lastPauseStartTime.None? then (Err(BikeNotInPause), t)
      else
        var duration := PauseDuration(rental, now);
        var bike := AtLocation(t.bikes[rental.bikeId], latitude, longitude).(status := InUse);
        (Ok(ResumeReceipt(rentalId, InUse, now, duration)),
         t.(rentals := t.rentals[rentalId := UpdatePauseTime(rental, now)], bikes := t.bikes[rental.bikeId := bike]))
  }

  // ------------------------------------------------------------------
  // Properties of the return procedure

  /** When a return succeeds and what it changes. It succeeds exactly when the station
    * check passes (a hand-over has none), the rider has an ACTIVE payment method and the
    * gateway approves: without a coupon the fee is never below the unlock fee, so the
    * gateway is always asked. On success the rental is completed, the bike is docked (a
    * hand-over leaves it where it is), one COMPLETED payment is added for the rental, and
    * a stamp is issued exactly on an ordinary return of a TRANSFERRED bike. */
  lemma ReturnCoreEffect(t: Tables, rentalId: nat, dock: Option<ReturnRequest>, now: Instant, gateway: Gateway)
    requires t.Valid() && rentalId < |t.rentals|
    ensures var (r, t') := ReturnCore(t, rentalId, dock, now, gateway);
      var b := t.rentals[rentalId].bikeId;
      && (r.Ok? <==>
            && (dock.None? || ReturnLocationError(t, t.bikes[b], dock.value.stationId).None?)
            && NewestActiveMethod(t.paymentMethods, t.rentals[rentalId].userEmail).Some?
            && gateway.approves)
      && (r.Ok? ==>
        && t'.rentals == t.rentals[rentalId := CompleteRental(t.rentals[rentalId], now)]
        && t'.bikes == t.bikes[b := if dock.Some? then DockBike(t.bikes[b], dock.value) else t.bikes[b]]
        && r.value.rentalId == rentalId && r.value.bikeId == b
        && |t'.payments| == |t.payments| + 1 && t'.payments[..|t.payments|] == t.payments
        && t'.payments[|t.payments|].rentalId == rentalId
        && t'.payments[|t.payments|].status == PaymentCompleted
        && t'.payments[|t.payments|].amount == r.value.paymentAmount
        && (r.value.stampInfo.Some? <==> dock.Some? && t.bikes[b].hiBikeStatus == Transferred)
        && (r.value.stampInfo.None? ==> t'.stamps == t.stamps && t'.coupons == t.coupons))
  {
    var rental := CompleteRental(t.rentals[rentalId], now);
    var b := rental.bikeId;
    var bike := t.bikes[b];
    if dock.None? || ReturnLocationError(t, bike, dock.value.stationId).None? {
      var located := if dock.None? then bike else DockBike(bike, dock.value);
      var t1 := t.(rentals := t.rentals[rentalId := rental], bikes := t.bikes[b := located]);
      SettleRentalEffect(t1, rentalId, None, now, gateway);
      BaseAmountBounds(rental.startTime, now);
    }
  }

  /** A return fails only through its station check or its payment, and always as
    * RETURN_PROCESSING_FAILED with the cause; the station rules come first. */
  lemma ReturnCoreFailures(t: Tables, rentalId: nat, dock: Option<ReturnRequest>, now: Instant, gateway: Gateway)
    requires t.Valid() && rentalId < |t.rentals|
    ensures var (r, t') := ReturnCore(t, rentalId, dock, now, gateway);
      var bike := t.bikes[t.rentals[rentalId].bikeId];
      && (r.Err? ==> t' == t && r.error.ReturnProcessingFailed?)
      && (dock.Some? && ReturnLocationError(t, bike, dock.value.stationId).Some? ==>
            r == Err(ReturnProcessingFailed(ReturnLocationError(t, bike, dock.value.stationId).value)))
      && (r.Err? && (dock.None? || ReturnLocationError(t, bike, dock.value.stationId).None?) ==>
            r.error.cause == NoPaymentMethod || r.error.cause == PaymentProcessingFailed)
  {
    var rental := CompleteRental(t.rentals[rentalId], now);
    var b := rental.bikeId;
    var bike := t.bikes[b];
    if dock.None? || ReturnLocationError(t, bike, dock.value.stationId).None? {
      var located := if dock.None? then bike else DockBike(bike, dock.value);
      var t1 := t.(rentals := t.rentals[rentalId := rental], bikes := t.bikes[b := located]);
      SettleRentalCauses(t1, rentalId, now, gateway);
    }
  }

  /** The public return checks, in order, before the return procedure runs. */
  lemma ReturnBikeChecks(t: Tables, email: string, rentalId: nat, req: ReturnRequest, now: Instant, gateway: Gateway)
    requires t.Valid()
    ensures var r := ReturnBike(t, email, rentalId, req, now, gateway).0;
      && (rentalId >= |t.rentals| ==> r == Err(RentalNotFound))
      && (rentalId < |t.rentals| && t.rentals[rentalId].userEmail != email ==> r == Err(RentalNotOwned))
      && ((rentalId < |t.rentals| && t.rentals[rentalId].userEmail == email
           && t.rentals[rentalId].status != InProgress) ==> r == Err(RentalNotInProgress))
      && (r.Ok? ==> rentalId < |t.rentals| && t.rentals[rentalId].userEmail == email
                    && t.rentals[rentalId].status == InProgress)
  {
  }

  /** A dock return succeeds exactly when the rental is the caller's and IN_PROGRESS, the
    * station check passes, the caller has an ACTIVE payment method and the gateway
    * approves. Then the rental is COMPLETED at `now` with its usage in whole minutes from
    * the start (pauses included), the bike is PARKED at the requested station, dock and
    * coordinates with its HiBike status unchanged, one COMPLETED payment is appended, and a
    * stamp is issued exactly when the bike had been handed over. */
  lemma ReturnBikeEffect(t: Tables, email: string, rentalId: nat, req: ReturnRequest, now: Instant, gateway: Gateway)
    requires t.Valid()
    ensures var (r, t') := ReturnBike(t, email, rentalId, req, now, gateway);
      && (r.Ok? <==>
            && rentalId < |t.rentals| && t.rentals[rentalId].userEmail == email
            && t.rentals[rentalId].status == InProgress
            && ReturnLocationError(t, t.bikes[t.rentals[rentalId].bikeId], req.stationId).None?
            && NewestActiveMethod(t.paymentMethods, email).Some?
            && gateway.approves)
      && (r.Ok? ==>
        && rentalId < |t.rentals|
        && var before := t.rentals[rentalId];
        && var b := before.bikeId;
        && t'.rentals[rentalId].status == Completed
        && t'.rentals[rentalId].endTime == Some(now)
        && t'.rentals[rentalId].usageMinutes == Some(WholeMinutes(before.startTime, now))
        && t'.rentals[rentalId].lastPauseStartTime.None?
        && (forall i :: 0 <= i < |t.rentals| && i != rentalId ==> t'.rentals[i] == t.rentals[i])
        && t'.bikes[b].status == Parked
        && t'.bikes[b].currentStation == Some(req.stationId)
        && t'.bikes[b].currentDockId == req.dockId
        && t'.bikes[b].latitude == req.latitude && t'.bikes[b].longitude == req.longitude
        && t'.bikes[b].hiBikeStatus == t.bikes[b].hiBikeStatus
        && req.stationId in t.stations && t.stations[req.stationId].hub.id == t.bikes[b].homeHub.id
        && (forall i :: 0 <= i < |t.bikes| && i != b ==> t'.bikes[i] == t.bikes[i])
        && (r.value.stampInfo.Some? <==> t.bikes[b].hiBikeStatus == Transferred)
        && |t'.payments| == |t.payments| + 1 && t'.payments[..|t.payments|] == t.payments
        && t'.payments[|t.payments|].rentalId == rentalId
        && t'.payments[|t.payments|].status == PaymentCompleted
        && t'.payments[|t.payments|].amount == r.value.paymentAmount)
  {
    if rentalId < |t.rentals| && t.rentals[rentalId].userEmail == email && t.rentals[rentalId].status == InProgress {
      ReturnCoreEffect(t, rentalId, Some(req), now, gateway);
      ReturnCoreFailures(t, rentalId, Some(req), now, gateway);
    }
  }

  // ------------------------------------------------------------------
  // Properties of renting

  /** Every condition rentBike checks before anything changes. */
  ghost predicate RentAllowed(t: Tables, email: string, qrCode: string)
  {
    && email in t.users && t.users[email].status == Active
    && FindBike(t.bikes, qrCode).Some?
    && var bike := t.bikes[FindBike(t.bikes, qrCode).value];
    && Rentable(bike) && bike.batteryLevel >= MIN_BATTERY_LEVEL
    && HasActiveMethod(t.paymentMethods, email) && !HasUncompletedRental(t.rentals, email)
  }

  /** rentBike fails with the first violated condition, in the order the checks run; it
    * succeeds only when all hold, and always does for a bike that is not offered as a
    * HiBike. */
  lemma RentChecksInOrder(t: Tables, email: string, qrCode: string, useCoupon: bool, now: Instant, gateway: Gateway)
    requires t.Valid()
    ensures var r := RentBike(t, email, qrCode, useCoupon, now, gateway).0;
      var found := FindBike(t.bikes, qrCode);
      && (email !in t.users ==> r == Err(UserNotFound))
      && (email in t.users && t.users[email].status != Active ==> r == Err(StatusError(t.users[email].status).value))
      && (email in t.users && t.users[email].status == Active && found.None? ==> r == Err(BikeNotFound))
      && (email in t.users && t.users[email].status == Active && found.Some? ==>
            var bike := t.bikes[found.value];
            && (!Rentable(bike) ==> r == Err(BikeNotAvailable))
            && (Rentable(bike) && bike.batteryLevel < MIN_BATTERY_LEVEL ==> r == Err(ErrorCodes.LowBattery))
            && ((Rentable(bike) && bike.batteryLevel >= MIN_BATTERY_LEVEL
                 && !HasActiveMethod(t.paymentMethods, email)) ==> r == Err(NoPaymentMethod))
            && ((Rentable(bike) && bike.batteryLevel >= MIN_BATTERY_LEVEL && HasActiveMethod(t.paymentMethods, email)
                 && HasUncompletedRental(t.rentals, email)) ==> r == Err(ActiveRentalExists))
            && (RentAllowed(t, email, qrCode) && bike.hiBikeStatus != AvailableForRent ==> r.Ok?))
      && (r.Ok? ==> RentAllowed(t, email, qrCode))
  {
  }

  /** What the HiBike hand-over does: nothing for an ordinary bike; otherwise the bike's
    * rental in progress is completed and paid as a hand-over return (no station check,
    * no bike move, no stamp) and the bike becomes TRANSFERRED. It then succeeds exactly
    * when that rental exists, its rider has an ACTIVE method and the gateway approves. */
  lemma HandOverEffect(t: Tables, bikeId: nat, now: Instant, gateway: Gateway)
    requires t.Valid() && bikeId < |t.bikes|
    ensures var (r, t') := HandleHiBikeTransfer(t, bikeId, now, gateway);
      var previous := FindRentalInProgress(t.rentals, bikeId);
      && (t.bikes[bikeId].hiBikeStatus != AvailableForRent ==> r.Ok? && t' == t)
      && (t.bikes[bikeId].hiBikeStatus == AvailableForRent && previous.None? ==> r == Err(RentalNotFound))
      && (t.bikes[bikeId].hiBikeStatus == AvailableForRent && previous.Some? && r.Err? ==>
            r.error.ReturnProcessingFailed?)
      && (t.bikes[bikeId].hiBikeStatus == AvailableForRent ==>
            (r.Ok? <==> previous.Some?
                        && NewestActiveMethod(t.paymentMethods, t.rentals[previous.value].userEmail).Some?
                        && gateway.approves))
      && (t.bikes[bikeId].hiBikeStatus == AvailableForRent && r.Ok? ==>
            && previous.Some?
            && t'.rentals == t.rentals[previous.value := CompleteRental(t.rentals[previous.value], now)]
            && t'.bikes == t.bikes[bikeId := t.bikes[bikeId].(hiBikeStatus := Transferred)]
            && |t'.payments| == |t.payments| + 1 && t'.payments[|t.payments|].rentalId == previous.value
            && t'.stamps == t.stamps && t'.coupons == t.coupons)
  {
    if t.bikes[bikeId].hiBikeStatus == AvailableForRent && FindRentalInProgress(t.rentals, bikeId).Some? {
      var previous := FindRentalInProgress(t.rentals, bikeId).value;
      ReturnCoreEffect(t, previous, None, now, gateway);
      ReturnCoreFailures(t, previous, None, now, gateway);
    }
  }

  /** A successful rent adds one IN_PROGRESS rental of the caller starting now, takes the
    * bike with the scanned code out of its dock and puts it IN_USE. For an ordinary bike
    * nothing else changes. */
  lemma RentBikeEffect(t: Tables, email: string, qrCode: string, useCoupon: bool, now: Instant, gateway: Gateway)
    requires t.Valid()
    ensures var (r, t') := RentBike(t, email, qrCode, useCoupon, now, gateway);
      r.Ok? ==>
        var b := r.value.bikeId;
        && b < |t.bikes| && t.bikes[b].qrCode == qrCode
        && r.value.rentalId == |t.rentals| && |t'.rentals| == |t.rentals| + 1
        && t'.rentals[r.value.rentalId] == Rental(email, b, now, None, None, None, None, InProgress, useCoupon)
        && r.value.startTime == now
        && t'.bikes[b].status == InUse && t'.bikes[b].currentDockId.None? && r.value.bikeStatus == InUse
        && r.value.hiBikeStatus == t'.bikes[b].hiBikeStatus
        && (t.bikes[b].hiBikeStatus != AvailableForRent ==>
              && t'.rentals == t.rentals + [t'.rentals[r.value.rentalId]]
              && t'.bikes == t.bikes[b := t.bikes[b].(status := InUse, currentDockId := None)]
              && t'.(rentals := t.rentals, bikes := t.bikes) == t)
  {
    var c := RentCheck(t, email, qrCode);
    if c.Ok? {
      HandOverEffect(t, c.value, now, gateway);
    }
  }

  /** Renting a bike offered as a HiBike first completes the previous rider's rental of it
    * (RENTAL_NOT_FOUND when there is none), charges the previous rider, issues no stamp,
    * and leaves the bike TRANSFERRED where it stood. It succeeds exactly when that previous
    * rental exists, its rider has an ACTIVE payment method and the gateway approves. */
  lemma RentHiBikeHandOver(t: Tables, email: string, qrCode: string, useCoupon: bool, now: Instant, gateway: Gateway)
    requires t.Valid()
    requires RentCheck(t, email, qrCode).Ok?
    requires t.bikes[RentCheck(t, email, qrCode).value].hiBikeStatus == AvailableForRent
    ensures var (r, t') := RentBike(t, email, qrCode, useCoupon, now, gateway);
      var b := RentCheck(t, email, qrCode).value;
      var previous := FindRentalInProgress(t.rentals, b);
      && (previous.None? ==> r == Err(RentalNotFound))
      && (previous.Some? && r.Err? ==> r.error.ReturnProcessingFailed?)
      && (r.Ok? <==> previous.Some?
                     && NewestActiveMethod(t.paymentMethods, t.rentals[previous.value].userEmail).Some?
                     && gateway.approves)
      && (r.Ok? ==>
            && previous.Some? && previous.value != r.value.rentalId
            && t'.rentals[previous.value] == CompleteRental(t.rentals[previous.value], now)
            && t'.bikes[b] == t.bikes[b].(status := InUse, currentDockId := None, hiBikeStatus := Transferred)
            && r.value.hiBikeStatus == Transferred
            && |t'.payments| == |t.payments| + 1 && t'.payments[|t.payments|].rentalId == previous.value
            && t'.stamps == t.stamps)
  {
    HandOverEffect(t, RentCheck(t, email, qrCode).value, now, gateway);
  }

  // ------------------------------------------------------------------
  // Properties of pausing and resuming

  /** pauseBike's checks, in order, and its effect: the bike TEMPORARY_LOCKED at the given
    * coordinates, a pause opened at `now`, the rental still IN_PROGRESS, nothing else changed. */
  lemma PauseBikeEffect(t: Tables, email: string, rentalId: nat, latitude: Coordinate, longitude: Coordinate, now: Instant)
    requires t.Valid()
    ensures var (r, t') := PauseBike(t, email, rentalId, latitude, longitude, now);
      && (OwnedRental(t, email, rentalId).Some? ==> r == Err(OwnedRental(t, email, rentalId).value))
      && (OwnedRental(t, email, rentalId).None? ==>
            var rental := t.rentals[rentalId];
            var b := rental.bikeId;
            && (rental.status != InProgress ==> r == Err(RentalNotInProgress))
            && (rental.status == InProgress && t.bikes[b].status == TemporaryLocked ==> r == Err(BikeAlreadyLocked))
            && (r.Ok? <==> rental.status == InProgress && t.bikes[b].status != TemporaryLocked)
            && (r.Ok? ==>
                  && t'.bikes[b].status == TemporaryLocked
                  && t'.bikes[b].latitude == latitude && t'.bikes[b].longitude == longitude
                  && t'.bikes[b].(status := t.bikes[b].status, latitude := t.bikes[b].latitude,
                                  longitude := t.bikes[b].longitude) == t.bikes[b]
                  && t'.rentals[rentalId] == rental.(lastPauseStartTime := Some(now))
                  && t'.rentals[rentalId].status == InProgress
                  && r.value.totalPauseMinutes == rental.pauseMinutes
                  && t'.(bikes := t.bikes, rentals := t.rentals) == t
                  && (forall i :: 0 <= i < |t.bikes| && i != b ==> t'.bikes[i] == t.bikes[i])
                  && (forall i :: 0 <= i < |t.rentals| && i != rentalId ==> t'.rentals[i] == t.rentals[i])))
  {
  }

  /** resumeBike's checks, in order, and its effect: the open pause is folded into the
    * total, the bike is IN_USE at the given coordinates, the receipt reports this
    * pause's whole minutes, and nothing else changes. */
  lemma ResumeBikeEffect(t: Tables, email: string, rentalId: nat, latitude: Coordinate, longitude: Coordinate, now: Instant)
    requires t.Valid()
    ensures var (r, t') := ResumeBike(t, email, rentalId, latitude, longitude, now);
      && (OwnedRental(t, email, rentalId).Some? ==> r == Err(OwnedRental(t, email, rentalId).value))
      && (OwnedRental(t, email, rentalId).None? ==>
            var rental := t.rentals[rentalId];
            var b := rental.bikeId;
            && (rental.status != InProgress ==> r == Err(RentalNotInProgress))
            && (rental.status == InProgress && t.bikes[b].status != TemporaryLocked ==> r == Err(BikeNotLocked))
            && ((rental.status == InProgress && t.bikes[b].status == TemporaryLocked
                 && rental.lastPauseStartTime.None?) ==> r == Err(BikeNotInPause))
            && (r.Ok? <==> rental.status == InProgress && t.bikes[b].status == TemporaryLocked
                           && rental.lastPauseStartTime.Some?)
            && (r.Ok? ==>
                  && r.value.pauseMinutes == WholeMinutes(rental.lastPauseStartTime.value, now)
                  && t'.rentals == t.rentals[rentalId := rental.(pauseMinutes := Some(rental.pauseMinutes.GetOr(0) + r.value.pauseMinutes),
                                                                 lastPauseStartTime := None)]
                  && t'.bikes == t.bikes[b := t.bikes[b].(status := InUse, latitude := latitude, longitude := longitude)]
                  && t'.rentals[rentalId].status == InProgress
                  && t'.(bikes := t.bikes, rentals := t.rentals) == t))
  {
  }

  /** A pause of one's own rental can always be resumed, and the cycle adds exactly the
    * pause's whole minutes to the total. */
  lemma PauseThenResume(t: Tables, email: string, rentalId: nat, c: PauseCycle)
    requires t.Valid()
    requires PauseBike(t, email, rentalId, c.pauseLatitude, c.pauseLongitude, c.pauseAt).0.Ok?
    ensures var t1 := PauseBike(t, email, rentalId, c.pauseLatitude, c.pauseLongitude, c.pauseAt).1;
      var (r, t2) := ResumeBike(t1, email, rentalId, c.resumeLatitude, c.resumeLongitude, c.resumeAt);
      && rentalId < |t.rentals|
      && r.Ok? && r.value.pauseMinutes == WholeMinutes(c.pauseAt, c.resumeAt)
      && t2.rentals[rentalId] == t.rentals[rentalId].(
           pauseMinutes := Some(t.rentals[rentalId].pauseMinutes.GetOr(0) + WholeMinutes(c.pauseAt, c.resumeAt)),
           lastPauseStartTime := None)
  {
  }

  /** One pause-and-resume of a ride. */
  datatype PauseCycle = PauseCycle(
    pauseAt: Instant, pauseLatitude: Coordinate, pauseLongitude: Coordinate,
    resumeAt: Instant, resumeLatitude: Coordinate, resumeLongitude: Coordinate)

  /** A ride paused and resumed once per cycle, stopping at the first failed command. */
  function RideWithPauses(t: Tables, email: string, rentalId: nat, cycles: seq<PauseCycle>): (r: (Result<()>, Tables))
    requires t.Valid()
    ensures r.1.Valid() && |r.1.rentals| == |t.rentals|
    decreases |cycles|
  {
    if |cycles| == 0 then (Ok(()), t)
    else
      var c := cycles[0];
      var (p, t1) := PauseBike(t, email, rentalId, c.pauseLatitude, c.pauseLongitude, c.pauseAt);
      if p.Err? then (Err(p.error), t1)
      else
        var (q, t2) := ResumeBike(t1, email, rentalId, c.resumeLatitude, c.resumeLongitude, c.resumeAt);
        if q.Err? then (Err(q.error), t2)
        else RideWithPauses(t2, email, rentalId, cycles[1..])
  }

  /** The whole minutes of each pause, truncated separately and summed. */
  function PausedMinutes(cycles: seq<PauseCycle>): int
  {
    if |cycles| == 0 then 0 else WholeMinutes(cycles[0].pauseAt, cycles[0].resumeAt) + PausedMinutes(cycles[1..])
  }

  /** After any run of pause-resume cycles the rental's total pause is the sum of each
    * cycle's own truncated minutes (a missing total counting as zero), so two pauses of
    * 90 seconds add two minutes, not three. */
  lemma {:induction false} PausesAddUp(t: Tables, email: string, rentalId: nat, cycles: seq<PauseCycle>)
    requires t.Valid() && rentalId < |t.rentals|
    ensures var (r, t') := RideWithPauses(t, email, rentalId, cycles);
      r.Ok? && |cycles| > 0 ==>
        && t'.rentals[rentalId].pauseMinutes == Some(t.rentals[rentalId].pauseMinutes.GetOr(0) + PausedMinutes(cycles))
        && t'.rentals[rentalId].lastPauseStartTime.None?
    decreases |cycles|
  {
    if |cycles| > 0 {
      var c := cycles[0];
      var (p, t1) := PauseBike(t, email, rentalId, c.pauseLatitude, c.pauseLongitude, c.pauseAt);
      if p.Ok? {
        PauseThenResume(t, email, rentalId, c);
        var t2 := ResumeBike(t1, email, rentalId, c.resumeLatitude, c.resumeLongitude, c.resumeAt).1;
        PausesAddUp(t2, email, rentalId, cycles[1..]);
      }
    }
  }

  // ------------------------------------------------------------------
  // The one-open-rental invariant

  /** No user has two rentals that are not COMPLETED. */
  ghost predicate OneOpenRentalPerUser(rentals: seq<Rental>)
  {
    forall i, j ::
      (0 <= i < |rentals| && 0 <= j < |rentals| && i != j && rentals[i].userEmail == rentals[j].userEmail
       && rentals[i].status != Completed) ==> rentals[j].status == Completed
  }

  lemma CompletingKeepsOneOpen(rentals: seq<Rental>, k: nat, rental: Rental)
    requires OneOpenRentalPerUser(rentals) && k < |rentals|
    requires rental.status == Completed || (rental.status == rentals[k].status && rental.userEmail == rentals[k].userEmail)
    ensures OneOpenRentalPerUser(rentals[k := rental])
  {
  }

  lemma AppendingKeepsOneOpen(rentals: seq<Rental>, rental: Rental)
    requires OneOpenRentalPerUser(rentals) && !HasUncompletedRental(rentals, rental.userEmail)
    ensures OneOpenRentalPerUser(rentals + [rental])
  {
  }

  /** Renting keeps the invariant: the new rental is the caller's only open one, and the
    * hand-over only completes a rental. */
  lemma RentKeepsOneOpen(t: Tables, email: string, qrCode: string, useCoupon: bool, now: Instant, gateway: Gateway)
    requires t.Valid() && OneOpenRentalPerUser(t.rentals)
    ensures OneOpenRentalPerUser(RentBike(t, email, qrCode, useCoupon, now, gateway).1.rentals)
  {
    var c := RentCheck(t, email, qrCode);
    if c.Ok? {
      HandOverEffect(t, c.value, now, gateway);
      var (h, t1) := HandleHiBikeTransfer(t, c.value, now, gateway);
      if h.Ok? {
        if t1 != t {
          var previous := FindRentalInProgress(t.rentals, c.value).value;
          CompletingKeepsOneOpen(t.rentals, previous, CompleteRental(t.rentals[previous], now));
        }
        assert OneOpenRentalPerUser(t1.rentals);
        assert !HasUncompletedRental(t1.rentals, email);
        AppendingKeepsOneOpen(t1.rentals, Rental(email, c.value, now, None, None, None, None, InProgress, useCoupon));
      }
    }
  }

  /** Returning, pausing and resuming keep the invariant. */
  lemma OtherCommandsKeepOneOpen(t: Tables, email: string, rentalId: nat, req: ReturnRequest,
                                 latitude: Coordinate, longitude: Coordinate, now: Instant, gateway: Gateway)
    requires t.Valid() && OneOpenRentalPerUser(t.rentals)
    ensures OneOpenRentalPerUser(ReturnBike(t, email, rentalId, req, now, gateway).1.rentals)
    ensures OneOpenRentalPerUser(PauseBike(t, email, rentalId, latitude, longitude, now).1.rentals)
    ensures OneOpenRentalPerUser(ResumeBike(t, email, rentalId, latitude, longitude, now).1.rentals)
  {
    ReturnBikeEffect(t, email, rentalId, req, now, gateway);
    if OwnedRental(t, email, rentalId).None? {
      var rental := t.rentals[rentalId];
      CompletingKeepsOneOpen(t.rentals, rentalId, CompleteRental(rental, now));
      CompletingKeepsOneOpen(t.rentals, rentalId, rental.(lastPauseStartTime := Some(now)));
      CompletingKeepsOneOpen(t.rentals, rentalId, UpdatePauseTime(rental, now));
      if rental.status == InProgress {
        ReturnCoreEffect(t, rentalId, Some(req), now, gateway);
      }
    }
  }

  // ------------------------------------------------------------------
  // The service over the repositories

  /** The return procedure, step by step on the stored entities; a failure rolls back. */
  method ReturnCoreIn(db: Store, rentalId: nat, dock: Option<ReturnRequest>, now: Instant, gateway: Gateway)
    returns (r: Result<ReturnReceipt>)
    requires db.State().Valid() && rentalId < |db.rentals|
    modifies db
    ensures (r, db.State()) == ReturnCore(old(db.State()), rentalId, dock, now, gateway)
  {
    var snapshot := db.State();
    var rental := db.rentals[rentalId];
    if rental.lastPauseStartTime.Some? {
      rental := UpdatePauseTime(rental, now);
    }
    rental := rental.(endTime := Some(now));
    rental := rental.(usageMinutes := Some(TotalMinutes(rental, now)), status := Completed);
    db.rentals := db.rentals[rentalId := rental];
    var bikeId := rental.bikeId;
    var bike := db.bikes[bikeId];
    if dock.Some? {
      var error := ReturnLocationError(snapshot, bike, dock.value.stationId);
      if error.Some? {
        db.Restore(snapshot);
        return Err(ReturnProcessingFailed(error.value));
      }
      bike := DockBike(bike, dock.value);
    }
    db.bikes := db.bikes[bikeId := bike];
    var paid := ProcessRentalPayment(db, rentalId, None, now, gateway);
    if paid.Err? {
      db.Restore(snapshot);
      return Err(ReturnProcessingFailed(paid.error));
    }
    var amount := db.payments[paid.value].amount;
    var stampInfo := None;
    if dock.Some? && bike.hiBikeStatus == Transferred {
      var info := IssueStampForHiBikeUseIn(db, rental.userEmail, rentalId, now);
      stampInfo := Some(info);
    }
    r := Ok(ReturnReceipt(rentalId, bikeId, now, rental.usageMinutes.value, rental.pauseMinutes, amount,
                          bike.status, bike.hiBikeStatus, bike.currentStation, stampInfo));
  }

  method ReturnBikeIn(db: Store, email: string, rentalId: nat, req: ReturnRequest, now: Instant, gateway: Gateway)
    returns (r: Result<ReturnReceipt>)
    requires db.State().Valid()
    modifies db
    ensures (r, db.State()) == ReturnBike(old(db.State()), email, rentalId, req, now, gateway)
  {
    var owned := OwnedRental(db.State(), email, rentalId);
    if owned.Some? {
      return Err(owned.value);
    }
    if db.rentals[rentalId].status != InProgress {
      return Err(RentalNotInProgress);
    }
    r := ReturnCoreIn(db, rentalId, Some(req), now, gateway);
  }

  method HandleHiBikeTransferIn(db: Store, bikeId: nat, now: Instant, gateway: Gateway) returns (r: Result<()>)
    requires db.State().Valid() && bikeId < |db.bikes|
    modifies db
    ensures (r, db.State()) == HandleHiBikeTransfer(old(db.State()), bikeId, now, gateway)
  {
    if db.bikes[bikeId].hiBikeStatus != AvailableForRent {
      return Ok(());
    }
    var previous := FindRentalInProgress(db.rentals, bikeId);
    if previous.None? {
      return Err(RentalNotFound);
    }
    var returned := ReturnCoreIn(db, previous.value, None, now, gateway);
    if returned.Err? {
      return Err(returned.error);
    }
    db.bikes := db.bikes[bikeId := db.bikes[bikeId].(hiBikeStatus := Transferred)];
    r := Ok(());
  }

  method RentBikeIn(db: Store, email: string, qrCode: string, useCoupon: bool, now: Instant, gateway: Gateway)
    returns (r: Result<RentalReceipt>)
    requires db.State().Valid()
    modifies db
    ensures (r, db.State()) == RentBike(old(db.State()), email, qrCode, useCoupon, now, gateway)
  {
    if email !in db.users {
      return Err(UserNotFound);
    }
    var statusError := StatusError(db.users[email].status);
    if statusError.Some? {
      return Err(statusError.value);
    }
    var found := FindBike(db.bikes, qrCode);
    if found.None? {
      return Err(BikeNotFound);
    }
    var bikeId := found.value;
    if !Rentable(db.bikes[bikeId]) {
      return Err(BikeNotAvailable);
    }
    if db.bikes[bikeId].batteryLevel < MIN_BATTERY_LEVEL {
      return Err(ErrorCodes.LowBattery);
    }
    if !HasActiveMethod(db.paymentMethods, email) {
      return Err(NoPaymentMethod);
    }
    if HasUncompletedRental(db.rentals, email) {
      return Err(ActiveRentalExists);
    }
    var handed := HandleHiBikeTransferIn(db, bikeId, now, gateway);
    if handed.Err? {
      return Err(handed.error);
    }
    var rentalId := |db.rentals|;
    db.rentals := db.rentals + [Rental(email, bikeId, now, None, None, None, None, InProgress, useCoupon)];
    var bike := db.bikes[bikeId].(status := InUse, currentDockId := None);
    db.bikes := db.bikes[bikeId := bike];
    r := Ok(RentalReceipt(rentalId, bikeId, now, bike.status, bike.hiBikeStatus));
  }

  method PauseBikeIn(db: Store, email: string, rentalId: nat, latitude: Coordinate, longitude: Coordinate, now: Instant)
    returns (r: Result<PauseReceipt>)
    requires db.State().Valid()
    modifies db
    ensures (r, db.State()) == PauseBike(old(db.State()), email, rentalId, latitude, longitude, now)
  {
    var owned := OwnedRental(db.State(), email, rentalId);
    if owned.Some? {
      return Err(owned.value);
    }
    var rental := db.rentals[rentalId];
    if rental.status != InProgress {
      return Err(RentalNotInProgress);
    }
    var bike := db.bikes[rental.bikeId];
    if bike.status == TemporaryLocked {
      return Err(BikeAlreadyLocked);
    }
    bike := AtLocation(bike, latitude, longitude);
    bike := bike.(status := TemporaryLocked);
    db.bikes := db.bikes[rental.bikeId := bike];
    rental := rental.(lastPauseStartTime := Some(now));
    db.rentals := db.rentals[rentalId := rental];
    r := Ok(PauseReceipt(rentalId, bike.status, now, rental.pauseMinutes));
  }

  method ResumeBikeIn(db: Store, email: string, rentalId: nat, latitude: Coordinate, longitude: Coordinate, now: Instant)
    returns (r: Result<ResumeReceipt>)
    requires db.State().Valid()
    modifies db
    ensures (r, db.State()) == ResumeBike(old(db.State()), email, rentalId, latitude, longitude, now)
  {
    var owned := OwnedRental(db.State(), email, rentalId);
    if owned.Some? {
      return Err(owned.value);
    }
    var rental := db.rentals[rentalId];
    if rental.status != InProgress {
      return Err(RentalNotInProgress);
    }
    if db.bikes[rental.bikeId].status != TemporaryLocked {
      return Err(BikeNotLocked);
    }
    if rental.lastPauseStartTime.None? {
      return Err(BikeNotInPause);
    }
    var duration := PauseDuration(rental, now);
    rental := UpdatePauseTime(rental, now);
    db.rentals := db.rentals[rentalId := rental];
    var bike := AtLocation(db.bikes[rental.bikeId], latitude, longitude);
    bike := bike.(status := InUse);
    db.bikes := db.bikes[rental.bikeId := bike];
    r := Ok(ResumeReceipt(rentalId, bike.status, now, duration));
  }
}
