/**
 * The persistent entities the services read and update, as rows of in-memory
 * tables. Generated ids are positions in the table sequences (ids are never
 * reused and rows are never deleted by the modelled operations); users are
 * keyed by their unique e-mail address and stations by id.
 */
module Domain {
  import opened Common
  import opened ErrorCodes

  datatype UserStatus = Active | Locked | Suspended | Blocked | Withdrawn

  datatype User = User(email: string, password: string, name: string, phone: string, status: UserStatus)

  /** The account gate shared by renting and authentication: only ACTIVE passes,
    * every other status has its own error code. */
  function StatusError(s: UserStatus): (r: Option<ErrorCode>)
    ensures r.None? <==> s == Active
    ensures s == Locked ==> r == Some(AccountLocked)
    ensures s == Suspended ==> r == Some(AccountSuspended)
    ensures s == Blocked ==> r == Some(AccountBlocked)
    ensures s == Withdrawn ==> r == Some(AccountWithdrawn)
  {
    match s
    case Active => None
    case Locked => Some(AccountLocked)
    case Suspended => Some(AccountSuspended)
    case Blocked => Some(AccountBlocked)
    case Withdrawn => Some(AccountWithdrawn)
  }

  /** Different blocked statuses are told apart by their codes. */
  lemma StatusErrorInjective(a: UserStatus, b: UserStatus)
    requires StatusError(a) == StatusError(b)
    ensures a == b
  {
  }

  /** Latitude and longitude are only ever copied, never computed with. */
  type Coordinate = real

  datatype Hub = Hub(id: nat, name: string)

  datatype BikeStatus = Parked | InUse | TemporaryLocked | Maintenance | LowBattery | OutOfService

  datatype HiBikeStatus = HiBikeNone | AvailableForRent | Transferred

  datatype Bike = Bike(
    qrCode: string,
    batteryLevel: int,
    status: BikeStatus,
    hiBikeStatus: HiBikeStatus,
    homeHub: Hub,
    currentStation: Option<nat>,
    currentDockId: Option<int>,
    latitude: Coordinate,
    longitude: Coordinate)

  datatype Station = Station(name: string, latitude: Coordinate, longitude: Coordinate, capacity: int, hub: Hub)

  datatype RentalStatus = InProgress | Paused | Completed | Overdue | ForciblyEnded

  datatype Rental = Rental(
    userEmail: string,
    bikeId: nat,
    startTime: Instant,
    endTime: Option<Instant>,
    usageMinutes: Option<int>,
    pauseMinutes: Option<int>,
    lastPauseStartTime: Option<Instant>,
    status: RentalStatus,
    couponApplied: bool)

  datatype PaymentStatus = Pending | Processing | PaymentCompleted | Failed | Cancelled | Refunded

  datatype Payment = Payment(
    userEmail: string,
    rentalId: nat,
    paymentMethodId: nat,
    amount: int,
    originalAmount: int,
    discountAmount: int,
    status: PaymentStatus,
    transactionId: Option<string>,
    failureReason: Option<string>,
    usedCouponId: Option<nat>)

  datatype PaymentMethodStatus = MethodActive | MethodInactive | MethodExpired

  datatype PaymentMethod = PaymentMethod(
    userEmail: string,
    cardNumber: string,
    cardCompany: string,
    isDefault: bool,
    status: PaymentMethodStatus,
    cardHolderName: string,
    expiryMonth: string,
    expiryYear: string)

  datatype CouponStatus = CouponActive | CouponUsed | CouponExpired

  datatype Coupon = Coupon(
    userEmail: string,
    stampIds: seq<nat>,
    discountMinutes: int,
    expireDate: Option<Instant>,
    usedAt: Option<Instant>,
    usedPaymentId: Option<nat>,
    status: CouponStatus)

  datatype Stamp = Stamp(userEmail: string, rentalId: nat, isUsed: bool, exchangedCouponId: Option<nat>)

  /** The database contents the rental, payment and loyalty services work on. */
  datatype Tables = Tables(
    users: map<string, User>,
    bikes: seq<Bike>,
    stations: map<nat, Station>,
    rentals: seq<Rental>,
    paymentMethods: seq<PaymentMethod>,
    payments: seq<Payment>,
    coupons: seq<Coupon>,
    stamps: seq<Stamp>)
  {
    /** Referential integrity: every rental names an existing bike (a non-null foreign key). */
    ghost predicate Valid()
    {
      forall i :: 0 <= i < |rentals| ==> rentals[i].bikeId < |bikes|
    }
  }

  /** The repositories: one mutable table per entity. */
  class Store {
    var users: map<string, User>
    var bikes: seq<Bike>
    var stations: map<nat, Station>
    var rentals: seq<Rental>
    var paymentMethods: seq<PaymentMethod>
    var payments: seq<Payment>
    var coupons: seq<Coupon>
    var stamps: seq<Stamp>

    function State(): Tables
      reads this
    {
      Tables(users, bikes, stations, rentals, paymentMethods, payments, coupons, stamps)
    }

    constructor(t: Tables)
      ensures State() == t
    {
      users, bikes, stations, rentals := t.users, t.bikes, t.stations, t.rentals;
      paymentMethods, payments, coupons, stamps := t.paymentMethods, t.payments, t.coupons, t.stamps;
    }

    /** Transaction rollback: every table goes back to the snapshot. */
    method Restore(t: Tables)
      modifies this
      ensures State() == t
    {
      users, bikes, stations, rentals := t.users, t.bikes, t.stations, t.rentals;
      paymentMethods, payments, coupons, stamps := t.paymentMethods, t.payments, t.coupons, t.stamps;
    }
  }
}
