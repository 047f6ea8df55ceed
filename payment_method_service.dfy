/**
 * A user's saved cards: registration after validation, status changes with
 * EXPIRED as a final state, and the pre-payment card check.
 */
module PaymentMethods {
  import opened Common
  import opened ErrorCodes
  import opened Domain
  import opened BinInfos
  import opened LocalDates
  import opened BinLoading
  import opened PaymentValidation

  /** The registration form. Its cardCompany and isDefault fields are carried but not used. */
  datatype PaymentMethodRequest = PaymentMethodRequest(
    cardNumber: string,
    cardCompany: string,
    cardHolderName: Option<string>,
    expiryMonth: Option<string>,
    expiryYear: Option<string>,
    cvv: Option<string>,
    isDefault: bool)

  /** findByUser_Id: the user's saved cards, in registration order. */
  function MethodsOf(methods: seq<PaymentMethod>, email: string): (r: seq<PaymentMethod>)
    ensures |r| <= |methods|
    ensures forall m :: m in r ==> m in methods && m.userEmail == email
    ensures forall i :: 0 <= i < |methods| && methods[i].userEmail == email ==> methods[i] in r
  {
    if |methods| == 0 then []
    else
      var last := methods[|methods| - 1];
      var init := MethodsOf(methods[..|methods| - 1], email);
      if last.userEmail == email then init + [last] else init
  }

  /** registerPaymentMethod: a known user, a card that passes validation, and a new ACTIVE
    * method that is the default exactly when it is the user's first. `lookup` is the BIN
    * table's answer for the card's BIN. */
  function RegisterPaymentMethod(t: Tables, email: string, request: PaymentMethodRequest,
                                 lookup: Option<BinInfo>, today: Date): (r: (Result<nat>, Tables))
    ensures r.0.Err? ==> r.1 == t
    ensures r.0.Ok? ==> (r.0.value == |t.paymentMethods| && |r.1.paymentMethods| == |t.paymentMethods| + 1
      && r.1 == t.(paymentMethods := t.paymentMethods + [r.1.paymentMethods[r.0.value]]))
  {
    if email !in t.users then (Err(UserNotFound), t)
    else
      var existing := MethodsOf(t.paymentMethods, email);
      var validation := CardRegistration(request.cardNumber, request.cvv, request.expiryMonth, request.expiryYear,
                                         request.cardHolderName, existing, lookup, today);
      CardRegistrationOutcome(request.cardNumber, request.cvv, request.expiryMonth, request.expiryYear,
                              request.cardHolderName, existing, lookup, today);
      match validation
      case Err(e) => (Err(e), t)
      case Ok(v) =>
        if !v.isValid then (Err(InvalidCardNumber(v.errors[0])), t)
        else
          var m := PaymentMethod(email, request.cardNumber, v.cardCompany.value, |existing| == 0, MethodActive,
                                 request.cardHolderName.value, request.expiryMonth.value, request.expiryYear.value);
          (Ok(|t.paymentMethods|), t.(paymentMethods := t.paymentMethods + [m]))
  }

  /** The registration outcome: USER_NOT_FOUND first, then the validator's thrown errors,
    * then INVALID_CARD_NUMBER carrying the first validation error; a stored method copies
    * the card number, holder and expiry from the form, takes its company from the BIN row,
    * is ACTIVE, and is the default exactly when the user had no card before. */
  lemma RegisterEffect(t: Tables, email: string, request: PaymentMethodRequest, lookup: Option<BinInfo>, today: Date)
    ensures var (r, t') := RegisterPaymentMethod(t, email, request, lookup, today);
      var existing := MethodsOf(t.paymentMethods, email);
      var check := CardCheckError(request.cardNumber, request.cvv, request.expiryMonth, request.expiryYear,
                                  request.cardHolderName, lookup, today);
      && (email !in t.users ==> r == Err(UserNotFound))
      && (email in t.users && |existing| >= MAX_PAYMENT_METHODS ==> r == Err(PaymentMethodLimitExceeded))
      && ((email in t.users && |existing| < MAX_PAYMENT_METHODS && HasCardNumber(existing, request.cardNumber))
            ==> r == Err(DuplicatePayment))
      && ((email in t.users && |existing| < MAX_PAYMENT_METHODS && !HasCardNumber(existing, request.cardNumber)
             && check.Some?) ==> r == Err(InvalidCardNumber(check.value)))
      && (r.Ok? <==> email in t.users && |existing| < MAX_PAYMENT_METHODS
                     && !HasCardNumber(existing, request.cardNumber) && check.None?)
      && (r.Ok? ==>
            var m := t'.paymentMethods[r.value];
            && m.userEmail == email && m.cardNumber == request.cardNumber
            && Some(m.cardHolderName) == request.cardHolderName
            && Some(m.expiryMonth) == request.expiryMonth && Some(m.expiryYear) == request.expiryYear
            && lookup.Some? && m.cardCompany == lookup.value.issuer
            && m.status == MethodActive
            && (m.isDefault <==> |existing| == 0))
  {
    CardRegistrationOutcome(request.cardNumber, request.cvv, request.expiryMonth, request.expiryYear,
                            request.cardHolderName, MethodsOf(t.paymentMethods, email), lookup, today);
  }

  /** The form's own isDefault and cardCompany have no influence on what is stored. */
  lemma RegisterIgnoresFormDefaults(t: Tables, email: string, request: PaymentMethodRequest,
                                    lookup: Option<BinInfo>, today: Date, company: string, isDefault: bool)
    ensures RegisterPaymentMethod(t, email, request, lookup, today)
         == RegisterPaymentMethod(t, email, request.(cardCompany := company, isDefault := isDefault), lookup, today)
  {
  }

  /** updatePaymentMethodStatus: the caller's own method, not EXPIRED, takes the requested status. */
  function UpdatePaymentMethodStatus(t: Tables, email: string, id: nat, status: PaymentMethodStatus)
    : (r: (Result<PaymentMethod>, Tables))
    ensures r.0.Err? ==> r.1 == t
  {
    if id >= |t.paymentMethods| || t.paymentMethods[id].userEmail != email then (Err(PaymentMethodNotFound), t)
    else if t.paymentMethods[id].status == MethodExpired then (Err(InactivePaymentMethod), t)
    else
      var m := t.paymentMethods[id].(status := status);
      (Ok(m), t.(paymentMethods := t.paymentMethods[id := m]))
  }

  lemma UpdateStatusEffect(t: Tables, email: string, id: nat, status: PaymentMethodStatus)
    ensures var (r, t') := UpdatePaymentMethodStatus(t, email, id, status);
      && ((id >= |t.paymentMethods| || t.paymentMethods[id].userEmail != email) ==> r == Err(PaymentMethodNotFound))
      && ((id < |t.paymentMethods| && t.paymentMethods[id].userEmail == email && t.paymentMethods[id].status == MethodExpired)
            ==> r == Err(InactivePaymentMethod))
      && (r.Ok? <==> id < |t.paymentMethods| && t.paymentMethods[id].userEmail == email
                     && t.paymentMethods[id].status != MethodExpired)
      && (r.Ok? ==> r.value == t.paymentMethods[id].(status := status)
                    && t' == t.(paymentMethods := t.paymentMethods[id := r.value]))
  {
  }

  /** isCardExpired: an unparseable field, a date LocalDate refuses, or a last day of the
    * expiry month before today all count as expired. */
  function IsCardExpired(month: string, year: string, today: Date): bool
  {
    var pm, py := ParseInt(month), ParseInt(year);
    if pm.None? || py.None? then true
    else
      match Of(Wrap32(2000 + py.value), pm.value, 1)
      case None => true
      case Some(first) =>
        match PlusOneMonth(first)
        case None => true
        case Some(next) =>
          match MinusOneDay(next)
          case None => true
          case Some(last) => IsBefore(last, today)
  }

  /** The service's expiry test is the exact negation of the validator's, month range included. */
  lemma ExpiredIffNotValid(month: string, year: string, today: Date)
    ensures IsCardExpired(month, year, today) == !ValidateExpiry(Some(month), Some(year), today)
  {
  }

  /** validateCardInfo: a method that is not ACTIVE is refused unchanged; an ACTIVE card
    * past its expiry is saved as EXPIRED before EXPIRED_CARD is raised, and that save is
    * kept (the method runs outside any transaction). */
  function ValidateCardInfo(t: Tables, id: nat, today: Date): (r: (Option<ErrorCode>, Tables))
    requires id < |t.paymentMethods|
    ensures r.1.(paymentMethods := t.paymentMethods) == t && |r.1.paymentMethods| == |t.paymentMethods|
  {
    var m := t.paymentMethods[id];
    if m.status != MethodActive then (Some(InactivePaymentMethod), t)
    else if IsCardExpired(m.expiryMonth, m.expiryYear, today) then
      (Some(ExpiredCard), t.(paymentMethods := t.paymentMethods[id := m.(status := MethodExpired)]))
    else (None, t)
  }

  lemma ValidateCardInfoEffect(t: Tables, id: nat, today: Date)
    requires id < |t.paymentMethods|
    ensures var (r, t') := ValidateCardInfo(t, id, today);
      var m := t.paymentMethods[id];
      && (m.status != MethodActive ==> r == Some(InactivePaymentMethod) && t' == t)
      && (m.status == MethodActive && !ValidateExpiry(Some(m.expiryMonth), Some(m.expiryYear), today) ==>
            r == Some(ExpiredCard) && t' == t.(paymentMethods := t.paymentMethods[id := m.(status := MethodExpired)]))
      && (r.None? <==> m.status == MethodActive && ValidateExpiry(Some(m.expiryMonth), Some(m.expiryYear), today))
      && (r.None? ==> t' == t)
  {
    var m := t.paymentMethods[id];
    ExpiredIffNotValid(m.expiryMonth, m.expiryYear, today);
  }

  // ------------------------------------------------------------------
  // What the commands keep

  datatype MethodCommand =
    | Register(email: string, request: PaymentMethodRequest, lookup: Option<BinInfo>, today: Date)
    | UpdateStatus(email: string, id: nat, status: PaymentMethodStatus)
    | ValidateInfo(id: nat, today: Date)

  function Apply(t: Tables, c: MethodCommand): (r: Tables)
    ensures |r.paymentMethods| >= |t.paymentMethods|
  {
    match c
    case Register(email, request, lookup, today) => RegisterPaymentMethod(t, email, request, lookup, today).1
    case UpdateStatus(email, id, status) => UpdatePaymentMethodStatus(t, email, id, status).1
    case ValidateInfo(id, today) => if id < |t.paymentMethods| then ValidateCardInfo(t, id, today).1 else t
  }

  function RunCommands(t: Tables, cs: seq<MethodCommand>): (r: Tables)
    ensures |r.paymentMethods| >= |t.paymentMethods|
  {
    if |cs| == 0 then t else Apply(RunCommands(t, cs[..|cs| - 1]), cs[|cs| - 1])
  }

  /** EXPIRED is final: no sequence of registrations, status changes and card checks
    * moves a method out of it. */
  lemma {:induction false} ExpiredStaysExpired(t: Tables, cs: seq<MethodCommand>, id: nat)
    requires id < |t.paymentMethods| && t.paymentMethods[id].status == MethodExpired
    ensures RunCommands(t, cs).paymentMethods[id].status == MethodExpired
  {
    if |cs| > 0 {
      ExpiredStaysExpired(t, cs[..|cs| - 1], id);
    }
  }

  /** No user holds more than five methods. */
  ghost predicate WalletsWithinLimit(methods: seq<PaymentMethod>)
  {
    forall email :: |MethodsOf(methods, email)| <= MAX_PAYMENT_METHODS
  }

  /** No user holds the same card number twice. */
  ghost predicate CardsDistinctPerUser(methods: seq<PaymentMethod>)
  {
    forall i, j :: 0 <= i < j < |methods| && methods[i].userEmail == methods[j].userEmail
      ==> methods[i].cardNumber != methods[j].cardNumber
  }

  lemma MethodsOfAppend(methods: seq<PaymentMethod>, m: PaymentMethod, email: string)
    ensures MethodsOf(methods + [m], email) == MethodsOf(methods, email) + (if m.userEmail == email then [m] else [])
  {
    assert (methods + [m])[..|methods|] == methods;
  }

  /** Changing a method's status leaves every user's number of methods as it was. */
  lemma {:induction false} MethodsOfUpdate(methods: seq<PaymentMethod>, k: nat, m: PaymentMethod, email: string)
    requires k < |methods| && m.userEmail == methods[k].userEmail
    ensures |MethodsOf(methods[k := m], email)| == |MethodsOf(methods, email)|
  {
    var n := |methods|;
    if k < n - 1 {
      assert methods[k := m][..n - 1] == methods[..n - 1][k := m];
      MethodsOfUpdate(methods[..n - 1], k, m, email);
    } else {
      assert methods[k := m][..n - 1] == methods[..n - 1];
    }
  }

  lemma RegisterKeepsWallets(t: Tables, email: string, request: PaymentMethodRequest, lookup: Option<BinInfo>, today: Date)
    requires WalletsWithinLimit(t.paymentMethods) && CardsDistinctPerUser(t.paymentMethods)
    ensures var t' := RegisterPaymentMethod(t, email, request, lookup, today).1;
      WalletsWithinLimit(t'.paymentMethods) && CardsDistinctPerUser(t'.paymentMethods)
  {
    var (r, t') := RegisterPaymentMethod(t, email, request, lookup, today);
    if r.Ok? {
      RegisterEffect(t, email, request, lookup, today);
      var ms := t.paymentMethods;
      var m := t'.paymentMethods[r.value];
      assert t'.paymentMethods == ms + [m];
      var existing := MethodsOf(ms, email);
      forall e
        ensures |MethodsOf(ms + [m], e)| <= MAX_PAYMENT_METHODS
      {
        MethodsOfAppend(ms, m, e);
      }
      forall i, j | 0 <= i < j < |ms + [m]| && (ms + [m])[i].userEmail == (ms + [m])[j].userEmail
        ensures (ms + [m])[i].cardNumber != (ms + [m])[j].cardNumber
      {
        if j == |ms| {
          assert ms[i] in existing;
          var k :| 0 <= k < |existing| && existing[k] == ms[i];
        }
      }
    }
  }

  lemma UpdateKeepsWallets(methods: seq<PaymentMethod>, k: nat, m: PaymentMethod)
    requires k < |methods| && m.userEmail == methods[k].userEmail && m.cardNumber == methods[k].cardNumber
    requires WalletsWithinLimit(methods) && CardsDistinctPerUser(methods)
    ensures WalletsWithinLimit(methods[k := m]) && CardsDistinctPerUser(methods[k := m])
  {
    var updated := methods[k := m];
    forall e
      ensures |MethodsOf(updated, e)| <= MAX_PAYMENT_METHODS
    {
      MethodsOfUpdate(methods, k, m, e);
    }
  }

  /** Every sequence of commands keeps each wallet within five cards and free of duplicates. */
  lemma {:induction false} CommandsKeepWallets(t: Tables, cs: seq<MethodCommand>)
    requires WalletsWithinLimit(t.paymentMethods) && CardsDistinctPerUser(t.paymentMethods)
    ensures WalletsWithinLimit(RunCommands(t, cs).paymentMethods) && CardsDistinctPerUser(RunCommands(t, cs).paymentMethods)
  {
    if |cs| > 0 {
      CommandsKeepWallets(t, cs[..|cs| - 1]);
      var s := RunCommands(t, cs[..|cs| - 1]);
      match cs[|cs| - 1]
      case Register(email, request, lookup, today) =>
        RegisterKeepsWallets(s, email, request, lookup, today);
      case UpdateStatus(email, id, status) =>
        if UpdatePaymentMethodStatus(s, email, id, status).0.Ok? {
          UpdateKeepsWallets(s.paymentMethods, id, s.paymentMethods[id].(status := status));
        }
      case ValidateInfo(id, today) =>
        if id < |s.paymentMethods| && ValidateCardInfo(s, id, today).1 != s {
          UpdateKeepsWallets(s.paymentMethods, id, s.paymentMethods[id].(status := MethodExpired));
        }
    }
  }

  // ------------------------------------------------------------------
  // The service methods over the repositories

  method RegisterPaymentMethodIn(db: Store, loader: BinLoader, email: string, request: PaymentMethodRequest, today: Date)
    returns (r: Result<nat>, ghost lookup: Option<BinInfo>)
    modifies db
    ensures (r, db.State()) == RegisterPaymentMethod(old(db.State()), email, request, lookup, today)
    ensures r.Ok? ==> IsBinInfoFor(loader.binInfoMap, BinOf(request.cardNumber), lookup)
  {
    lookup := None;
    if email !in db.users {
      return Err(UserNotFound), lookup;
    }
    var existing := MethodsOf(db.paymentMethods, email);
    var validation;
    validation, lookup := ValidateCardRegistration(loader, request.cardNumber, request.cvv, request.expiryMonth,
                                                   request.expiryYear, request.cardHolderName, existing, today);
    CardRegistrationOutcome(request.cardNumber, request.cvv, request.expiryMonth, request.expiryYear,
                            request.cardHolderName, existing, lookup, today);
    if validation.Err? {
      return Err(validation.error), lookup;
    }
    var v := validation.value;
    if !v.isValid {
      return Err(InvalidCardNumber(v.errors[0])), lookup;
    }
    var m := PaymentMethod(email, request.cardNumber, v.cardCompany.value, false, MethodActive,
                           request.cardHolderName.value, request.expiryMonth.value, request.expiryYear.value);
    if |existing| == 0 {
      m := m.(isDefault := true);
    }
    r := Ok(|db.paymentMethods|);
    db.paymentMethods := db.paymentMethods + [m];
  }

  method UpdatePaymentMethodStatusIn(db: Store, email: string, id: nat, status: PaymentMethodStatus)
    returns (r: Result<PaymentMethod>)
    modifies db
    ensures (r, db.State()) == UpdatePaymentMethodStatus(old(db.State()), email, id, status)
  {
    if id >= |db.paymentMethods| || db.paymentMethods[id].userEmail != email {
      return Err(PaymentMethodNotFound);
    }
    var m := db.paymentMethods[id];
    if m.status == MethodExpired {
      return Err(InactivePaymentMethod);
    }
    m := m.(status := status);
    db.paymentMethods := db.paymentMethods[id := m];
    r := Ok(m);
  }

  method ValidateCardInfoIn(db: Store, id: nat, today: Date) returns (r: Option<ErrorCode>)
    requires id < |db.paymentMethods|
    modifies db
    ensures (r, db.State()) == ValidateCardInfo(old(db.State()), id, today)
  {
    var m := db.paymentMethods[id];
    if m.status != MethodActive {
      return Some(InactivePaymentMethod);
    }
    if IsCardExpired(m.expiryMonth, m.expiryYear, today) {
      m := m.(status := MethodExpired);
      db.paymentMethods := db.paymentMethods[id := m];
      return Some(ExpiredCard);
    }
    r := None;
  }
}
