/**
 * HiBike: a rider who has paused a ride can offer the bike, still temporarily locked
 * where it stands, for the next rider to take over, and can withdraw the offer.
 */
module HiBikes {
  import opened Common
  import opened ErrorCodes
  import opened Domain
  import opened Rentals

  datatype HiBikeReceipt = HiBikeReceipt(rentalId: nat, bikeId: nat, bikeStatus: BikeStatus, hiBikeStatus: HiBikeStatus)

  /** validateHiBikeAvailable, in order: rental IN_PROGRESS, bike TEMPORARY_LOCKED, not yet a HiBike. */
  function HiBikeAvailableError(rental: Rental, bike: Bike): Option<ErrorCode>
  {
    if rental.status != InProgress then Some(RentalNotInProgress)
    else if bike.status != TemporaryLocked then Some(BikeNotLocked)
    else if bike.hiBikeStatus != HiBikeNone then Some(AlreadyHiBike)
    else None
  }

  /** validateHiBikeCancellable, in order: rental IN_PROGRESS, bike offered as a HiBike. */
  function HiBikeCancellableError(rental: Rental, bike: Bike): Option<ErrorCode>
  {
    if rental.status != InProgress then Some(RentalNotInProgress)
    else if bike.hiBikeStatus != AvailableForRent then Some(NotHiBike)
    else None
  }

  /** makeHiBike: the caller's paused bike is offered for rent at the given coordinates. */
  function MakeHiBike(t: Tables, email: string, rentalId: nat, latitude: Coordinate, longitude: Coordinate)
    : (r: (Result<HiBikeReceipt>, Tables))
    requires t.Valid()
    ensures r.1.Valid()
    ensures r.0.Err? ==> r.1 == t
  {
    match OwnedRental(t, email, rentalId)
    case Some(e) => (Err(e), t)
    case None =>
      var rental := t.rentals[rentalId];
      var b := rental.bikeId;
      match HiBikeAvailableError(rental, t.bikes[b])
      case Some(e) => (Err(e), t)
      case None =>
        var bike := AtLocation(t.bikes[b], latitude, longitude).(hiBikeStatus := AvailableForRent);
        (Ok(HiBikeReceipt(rentalId, b, bike.status, bike.hiBikeStatus)), t.(bikes := t.bikes[b := bike]))
  }

  /** cancelHiBike: the offer is withdrawn. */
  function CancelHiBike(t: Tables, email: string, rentalId: nat): (r: (Result<HiBikeReceipt>, Tables))
    requires t.Valid()
    ensures r.1.Valid()
    ensures r.0.Err? ==> r.1 == t
  {
    match OwnedRental(t, email, rentalId)
    case Some(e) => (Err(e), t)
    case None =>
      var rental := t.rentals[rentalId];
      var b := rental.bikeId;
      match HiBikeCancellableError(rental, t.bikes[b])
      case Some(e) => (Err(e), t)
      case None =>
        var bike := t.bikes[b].(hiBikeStatus := HiBikeNone);
        (Ok(HiBikeReceipt(rentalId, b, bike.status, bike.hiBikeStatus)), t.(bikes := t.bikes[b := bike]))
  }

  /** makeHiBike's checks in order and its effect: the bike AVAILABLE_FOR_RENT at the given
    * coordinates, its status and the rental unchanged, nothing else touched. */
  lemma MakeHiBikeEffect(t: Tables, email: string, rentalId: nat, latitude: Coordinate, longitude: Coordinate)
    requires t.Valid()
    ensures var (r, t') := MakeHiBike(t, email, rentalId, latitude, longitude);
      && (rentalId >= |t.rentals| ==> r == Err(RentalNotFound))
      && (rentalId < |t.rentals| && t.rentals[rentalId].userEmail != email ==> r == Err(RentalNotOwned))
      && (OwnedRental(t, email, rentalId).None? ==>
            var rental := t.rentals[rentalId];
            var bike := t.bikes[rental.bikeId];
            && (rental.status != InProgress ==> r == Err(RentalNotInProgress))
            && (rental.status == InProgress && bike.status != TemporaryLocked ==> r == Err(BikeNotLocked))
            && ((rental.status == InProgress && bike.status == TemporaryLocked
                 && bike.hiBikeStatus != HiBikeNone) ==> r == Err(AlreadyHiBike))
            && (r.Ok? <==> rental.status == InProgress && bike.status == TemporaryLocked && bike.hiBikeStatus == HiBikeNone)
            && (r.Ok? ==>
                  && t'.bikes[rental.bikeId].hiBikeStatus == AvailableForRent
                  && t'.bikes[rental.bikeId].latitude == latitude && t'.bikes[rental.bikeId].longitude == longitude
                  && t'.bikes[rental.bikeId].status == bike.status
                  && t'.bikes[rental.bikeId].(hiBikeStatus := HiBikeNone, latitude := bike.latitude,
                                              longitude := bike.longitude) == bike
                  && t'.rentals == t.rentals
                  && (forall i :: 0 <= i < |t.bikes| && i != rental.bikeId ==> t'.bikes[i] == t.bikes[i])
                  && t'.(bikes := t.bikes) == t))
  {
  }

  /** cancelHiBike's checks in order and its effect: only the HiBike status changes, to NONE. */
  lemma CancelHiBikeEffect(t: Tables, email: string, rentalId: nat)
    requires t.Valid()
    ensures var (r, t') := CancelHiBike(t, email, rentalId);
      && (rentalId >= |t.rentals| ==> r == Err(RentalNotFound))
      && (rentalId < |t.rentals| && t.rentals[rentalId].userEmail != email ==> r == Err(RentalNotOwned))
      && (OwnedRental(t, email, rentalId).None? ==>
            var rental := t.rentals[rentalId];
            var bike := t.bikes[rental.bikeId];
            && (rental.status != InProgress ==> r == Err(RentalNotInProgress))
            && (rental.status == InProgress && bike.hiBikeStatus != AvailableForRent ==> r == Err(NotHiBike))
            && (r.Ok? <==> rental.status == InProgress && bike.hiBikeStatus == AvailableForRent)
            && (r.Ok? ==> t' == t.(bikes := t.bikes[rental.bikeId := bike.(hiBikeStatus := HiBikeNone)])))
  {
  }

  /** Offering and then withdrawing restores the bike (still TEMPORARY_LOCKED, HiBike
    * status NONE) except for the coordinates the offer recorded. */
  lemma MakeThenCancel(t: Tables, email: string, rentalId: nat, latitude: Coordinate, longitude: Coordinate)
    requires t.Valid()
    requires MakeHiBike(t, email, rentalId, latitude, longitude).0.Ok?
    ensures var t1 := MakeHiBike(t, email, rentalId, latitude, longitude).1;
      var (r, t2) := CancelHiBike(t1, email, rentalId);
      var b := t.rentals[rentalId].bikeId;
      && r.Ok? && r.value.bikeStatus == TemporaryLocked && r.value.hiBikeStatus == HiBikeNone
      && t2 == t.(bikes := t.bikes[b := AtLocation(t.bikes[b], latitude, longitude)])
  {
  }

  method MakeHiBikeIn(db: Store, email: string, rentalId: nat, latitude: Coordinate, longitude: Coordinate)
    returns (r: Result<HiBikeReceipt>)
    requires db.State().Valid()
    modifies db
    ensures (r, db.State()) == MakeHiBike(old(db.State()), email, rentalId, latitude, longitude)
  {
    var owned := OwnedRental(db.State(), email, rentalId);
    if owned.Some? {
      return Err(owned.value);
    }
    var rental := db.rentals[rentalId];
    var bike := db.bikes[rental.bikeId];
    var error := HiBikeAvailableError(rental, bike);
    if error.Some? {
      return Err(error.value);
    }
    bike := AtLocation(bike, latitude, longitude);
    bike := bike.(hiBikeStatus := AvailableForRent);
    db.bikes := db.bikes[rental.bikeId := bike];
    r := Ok(HiBikeReceipt(rentalId, rental.bikeId, bike.status, bike.hiBikeStatus));
  }

  method CancelHiBikeIn(db: Store, email: string, rentalId: nat) returns (r: Result<HiBikeReceipt>)
    requires db.State().Valid()
    modifies db
    ensures (r, db.State()) == CancelHiBike(old(db.State()), email, rentalId)
  {
    var owned := OwnedRental(db.State(), email, rentalId);
    if owned.Some? {
      return Err(owned.value);
    }
    var rental := db.rentals[rentalId];
    var bike := db.bikes[rental.bikeId];
    var error := HiBikeCancellableError(rental, bike);
    if error.Some? {
      return Err(error.value);
    }
    bike := bike.(hiBikeStatus := HiBikeNone);
    db.bikes := db.bikes[rental.bikeId := bike];
    r := Ok(HiBikeReceipt(rentalId, rental.bikeId, bike.status, bike.hiBikeStatus));
  }
}
