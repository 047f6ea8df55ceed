/**
 * The checks a card passes before it is registered as a payment method and
 * before a payment is taken from it: the Luhn checksum, the expiry month, the
 * amount, and the per-card-type payment limits.
 */
module PaymentValidation {
  import opened Common
  import opened ErrorCodes
  import opened Domain
  import opened CardTypes
  import opened BinInfos
  import opened LocalDates
  import opened CardUtils
  import opened BinLoading

  const MAX_PAYMENT_METHODS: nat := 5

  // ------------------------------------------------------------------
  // Luhn checksum (ISO/IEC 7812-1, Annex B)

  /** Character.getNumericValue, for ASCII: a digit's value, 10 to 35 for a letter, else -1. */
  function NumericValue(c: char): (r: int)
    ensures IsAsciiDigit(c) ==> r == DigitValue(c)
    ensures -1 <= r <= 35
  {
    if IsAsciiDigit(c) then DigitValue(c)
    else if 'a' <= c <= 'z' then c as int - 'a' as int + 10
    else if 'A' <= c <= 'Z' then c as int - 'A' as int + 10
    else -1
  }

  /** One term of the sum: a doubled value above 9 is replaced by (n % 10) + 1. */
  function LuhnTerm(n: int, doubled: bool): int
  {
    if !doubled then n else if 2 * n > 9 then (2 * n) % 10 + 1 else 2 * n
  }

  /** For a digit, the doubled term is the sum of the digits of 2n, i.e. 2n - 9 above 9. */
  lemma DoubledDigit(n: int)
    requires 0 <= n <= 9
    ensures LuhnTerm(n, true) == (2 * n) / 10 + (2 * n) % 10
    ensures LuhnTerm(n, true) == if n <= 4 then 2 * n else 2 * n - 9
  {
  }

  /** The Luhn sum of `s`, read from the right; the rightmost character is doubled
    * exactly when `doubleLast`, and the doubling alternates leftwards. */
  function LuhnSum(s: string, doubleLast: bool): int
  {
    if |s| == 0 then 0
    else LuhnTerm(NumericValue(s[|s| - 1]), doubleLast) + LuhnSum(s[..|s| - 1], !doubleLast)
  }

  /** The number passes when its Luhn sum is a multiple of ten. (Java's `%` truncates,
    * but a remainder of zero means the same under either convention.) */
  predicate LuhnValid(s: string)
  {
    LuhnSum(s, false) % 10 == 0
  }

  /** Adding a character on the left adds its term, doubled when it sits an odd
    * number of places from the rightmost character. */
  lemma {:induction false} LuhnSumPrepend(c: char, t: string, doubleLast: bool)
    ensures LuhnSum([c] + t, doubleLast)
      == LuhnSum(t, doubleLast) + LuhnTerm(NumericValue(c), doubleLast != (|t| % 2 == 1))
  {
    var s := [c] + t;
    if |t| == 0 {
      assert s[..|s| - 1] == [];
    } else {
      assert s[..|s| - 1] == [c] + t[..|t| - 1];
      assert s[|s| - 1] == t[|t| - 1];
      LuhnSumPrepend(c, t[..|t| - 1], !doubleLast);
    }
  }

  /** validateLuhnAlgorithm: walk from the last character to the first, doubling every second one. */
  method ValidateLuhnAlgorithm(cardNumber: string) returns (r: bool)
    ensures r == LuhnValid(cardNumber)
  {
    var sum := 0;
    var alternate := false;
    var i: int := |cardNumber| - 1;
    while i >= 0
      invariant -1 <= i < |cardNumber|
      invariant sum == LuhnSum(cardNumber[i + 1..], false)
      invariant alternate == ((|cardNumber| - 1 - i) % 2 == 1)
      decreases i
    {
      var n := NumericValue(cardNumber[i]);
      if alternate {
        n := n * 2;
        if n > 9 {
          n := (n % 10) + 1;
        }
      }
      LuhnSumPrepend(cardNumber[i], cardNumber[i + 1..], false);
      assert cardNumber[i..] == [cardNumber[i]] + cardNumber[i + 1..];
      sum := sum + n;
      alternate := !alternate;
      i := i - 1;
    }
    assert cardNumber[0..] == cardNumber;
    r := sum % 10 == 0;
  }

  /** The check digit the standard appends to a payload: the amount that brings the
    * payload's Luhn sum (its last digit doubled) up to a multiple of ten. */
  function CheckDigit(payload: string): (r: int)
    ensures 0 <= r <= 9
  {
    (10 - LuhnSum(payload, true) % 10) % 10
  }

  /** The mod-10 test accepts a number exactly when its last digit is the check digit of the rest. */
  lemma LuhnCheckDigit(s: string)
    requires |s| >= 1 && IsAsciiDigit(s[|s| - 1])
    ensures LuhnValid(s) <==> DigitValue(s[|s| - 1]) == CheckDigit(s[..|s| - 1])
  {
    var v := DigitValue(s[|s| - 1]);
    var rest := LuhnSum(s[..|s| - 1], true);
    var m := rest % 10;
    assert LuhnSum(s, false) == v + rest;
    assert v + rest == (v + m) + 10 * (rest / 10);
    assert (v + rest) % 10 == (v + m) % 10;
  }

  /** The usual Visa test number passes; changing its last digit breaks the checksum. */
  lemma LuhnTestNumber()
    ensures LuhnValid("4111111111111111")
    ensures !LuhnValid("4111111111111112")
  {
    var s := "4111111111111111";
    assert LuhnSum(s[..1], true) == 8;
    assert s[..2][..1] == s[..1];
    assert LuhnSum(s[..2], false) == 9;
    assert s[..3][..2] == s[..2];
    assert LuhnSum(s[..3], true) == 11;
    assert s[..4][..3] == s[..3];
    assert LuhnSum(s[..4], false) == 12;
    assert s[..5][..4] == s[..4];
    assert LuhnSum(s[..5], true) == 14;
    assert s[..6][..5] == s[..5];
    assert LuhnSum(s[..6], false) == 15;
    assert s[..7][..6] == s[..6];
    assert LuhnSum(s[..7], true) == 17;
    assert s[..8][..7] == s[..7];
    assert LuhnSum(s[..8], false) == 18;
    assert s[..9][..8] == s[..8];
    assert LuhnSum(s[..9], true) == 20;
    assert s[..10][..9] == s[..9];
    assert LuhnSum(s[..10], false) == 21;
    assert s[..11][..10] == s[..10];
    assert LuhnSum(s[..11], true) == 23;
    assert s[..12][..11] == s[..11];
    assert LuhnSum(s[..12], false) == 24;
    assert s[..13][..12] == s[..12];
    assert LuhnSum(s[..13], true) == 26;
    assert s[..14][..13] == s[..13];
    assert LuhnSum(s[..14], false) == 27;
    assert s[..15][..14] == s[..14];
    assert LuhnSum(s[..15], true) == 29;
    assert s[..16][..15] == s[..15];
    assert LuhnSum(s[..16], false) == 30;
    assert s[..16] == s;
    var s' := s[..15] + "2";
    assert s'[..15] == s[..15];
    assert LuhnSum(s', false) == 31;
    assert s' == "4111111111111112";
  }

  // ------------------------------------------------------------------
  // Expiry

  /** validateExpiry: both fields parse as ints, the month is 1..12, and the last day of
    * that month of year 2000 + `year` (a Java int sum) is not before `today`; any
    * DateTimeException from LocalDate's year range answers false. */
  function ValidateExpiry(month: Option<string>, year: Option<string>, today: Date): bool
  {
    if month.None? || year.None? then false
    else
      var pm, py := ParseInt(month.value), ParseInt(year.value);
      if pm.None? || py.None? then false
      else
        var m, y := pm.value, py.value;
        if m < 1 || m > 12 then false
        else
          match Of(Wrap32(2000 + y), m, 1)
          case None => false
          case Some(first) =>
            match PlusOneMonth(first)
            case None => false
            case Some(next) =>
              match MinusOneDay(next)
              case None => false
              case Some(last) => !IsBefore(last, today)
  }

  /** A card is valid through its expiry month: the answer only compares (year, month)
    * with today's, after the parse and range checks. */
  lemma ExpiryByMonth(month: string, year: string, today: Date)
    requires IsValidDate(today)
    ensures ValidateExpiry(Some(month), Some(year), today) <==>
      && ParseInt(month).Some? && ParseInt(year).Some?
      && var m := ParseInt(month).value;
      var y := Wrap32(2000 + ParseInt(year).value);
      && 1 <= m <= 12 && MIN_YEAR <= y <= MAX_YEAR && !(y == MAX_YEAR && m == 12)
      && (y > today.year || (y == today.year && m >= today.month))
  {
    if ParseInt(month).Some? && ParseInt(year).Some? {
      var m := ParseInt(month).value;
      var y := Wrap32(2000 + ParseInt(year).value);
      if 1 <= m <= 12 && MIN_YEAR <= y <= MAX_YEAR && !(y == MAX_YEAR && m == 12) {
        LastDayOfMonth(y, m);
        LastDayNotBefore(y, m, today);
      }
    }
  }

  /** "12"/"26" is good through 31 December 2026 and not a day longer. */
  lemma ExpiresAfterLastDay()
    ensures ValidateExpiry(Some("12"), Some("26"), Date(2026, 12, 31))
    ensures !ValidateExpiry(Some("12"), Some("26"), Date(2027, 1, 1))
  {
    ParseTwoDigits("12");
    ParseTwoDigits("26");
    ExpiryByMonth("12", "26", Date(2026, 12, 31));
    ExpiryByMonth("12", "26", Date(2027, 1, 1));
  }

  // ------------------------------------------------------------------
  // Amount and limits

  /** A BigDecimal: the value unscaled × 10^-scale. */
  datatype Decimal = Decimal(unscaled: int, scale: int)

  function Pow10(n: nat): (r: int)
    ensures r >= 1
  {
    if n == 0 then 1 else 10 * Pow10(n - 1)
  }

  /** total + d > limit, compared exactly as BigDecimal.compareTo does. */
  predicate SumExceeds(total: int, d: Decimal, limit: int)
  {
    if d.scale >= 0 then total * Pow10(d.scale) + d.unscaled > limit * Pow10(d.scale)
    else total + d.unscaled * Pow10(-d.scale) > limit
  }

  /** validateAmount: null, non-positive and fractional-scale amounts are refused. */
  function AmountError(amount: Option<Decimal>): (r: Option<ErrorCode>)
    ensures r.Some? ==> r.value == InvalidPaymentAmount
  {
    if amount.None? then Some(InvalidPaymentAmount)
    else if amount.value.unscaled <= 0 then Some(InvalidPaymentAmount)
    else if amount.value.scale > 0 then Some(InvalidPaymentAmount)
    else None
  }

  /** The whole-won value of an amount with no fractional scale. */
  function WholeValue(d: Decimal): int
    requires d.scale <= 0
  {
    d.unscaled * Pow10(-d.scale)
  }

  /** An accepted amount is a positive whole number of won; any amount written with a
    * fractional scale is refused, even one such as 100.0 whose value is whole. */
  lemma AcceptedAmounts(amount: Option<Decimal>)
    ensures AmountError(amount).None? <==> amount.Some? && amount.value.scale <= 0 && WholeValue(amount.value) >= 1
    ensures AmountError(Some(Decimal(1000, 1))).Some?
  {
    if amount.Some? && amount.value.scale <= 0 {
      var d := amount.value;
      assert WholeValue(d) >= 1 <==> d.unscaled >= 1 by {
        if d.unscaled >= 1 { assert d.unscaled * Pow10(-d.scale) >= Pow10(-d.scale); }
        if d.unscaled <= 0 { assert d.unscaled * Pow10(-d.scale) <= 0; }
      }
    }
  }

  /** getDailyLimit: the per-day ceiling in won for the card's type and holder. */
  function DailyLimit(info: BinInfo): (r: int)
    ensures 1_000_000 <= r <= 50_000_000
  {
    match info.cardType
    case Credit => if info.isPersonal then 10_000_000 else 50_000_000
    case Debit => if info.isPersonal then 5_000_000 else 20_000_000
    case Gift => 1_000_000
  }

  function MonthlyLimit(info: BinInfo): int
  {
    DailyLimit(info) * 30
  }

  /** Personal cards never get a higher limit than corporate cards of the same type,
    * and debit never more than credit. */
  lemma LimitOrdering(issuer: string, brand: CardBrands.CardBrand, note: Option<string>)
    ensures forall t: CardType :: DailyLimit(BinInfo(issuer, brand, t, true, note)) <= DailyLimit(BinInfo(issuer, brand, t, false, note))
    ensures forall p: bool :: DailyLimit(BinInfo(issuer, brand, Debit, p, note)) < DailyLimit(BinInfo(issuer, brand, Credit, p, note))
    ensures forall t: CardType, p: bool :: DailyLimit(BinInfo(issuer, brand, Gift, true, note)) <= DailyLimit(BinInfo(issuer, brand, t, p, note))
  {
  }

  /** The running totals: the payment history is not consulted yet, so both are zero. */
  function DailyPaymentTotal(info: BinInfo): int { 0 }
  function MonthlyPaymentTotal(info: BinInfo): int { 0 }

  /** validatePaymentLimit: the daily ceiling first, then the monthly one. */
  function PaymentLimitError(info: BinInfo, amount: Decimal): Option<ErrorCode>
  {
    if SumExceeds(DailyPaymentTotal(info), amount, DailyLimit(info)) then Some(DailyPaymentLimitExceeded)
    else if SumExceeds(MonthlyPaymentTotal(info), amount, MonthlyLimit(info)) then Some(MonthlyPaymentLimitExceeded)
    else None
  }

  /** With both totals at zero the check fails exactly when the amount itself is over the
    * daily limit, and the monthly limit can never be the reason. */
  lemma LimitFailsIffOverDaily(info: BinInfo, amount: Decimal)
    ensures PaymentLimitError(info, amount) != Some(MonthlyPaymentLimitExceeded)
    ensures amount.scale <= 0 ==>
      PaymentLimitError(info, amount) == if WholeValue(amount) > DailyLimit(info) then Some(DailyPaymentLimitExceeded) else None
  {
    var d := DailyLimit(info);
    if amount.scale >= 0 {
      var p := Pow10(amount.scale);
      assert MonthlyLimit(info) * p >= d * p;
    }
  }

  // ------------------------------------------------------------------
  // Holder name, card registration and payment

  /** validateCardHolderName: some non-whitespace text, 2 to 50 characters long. */
  predicate ValidCardHolderName(name: Option<string>)
  {
    HasText(name) && 2 <= |name.value| <= 50
  }

  /** CardValidationResult: validity, the reported errors, and the card details of a valid card. */
  datatype CardValidationResult = CardValidationResult(
    isValid: bool,
    errors: seq<ErrorCode>,
    binInfo: Option<BinInfo>,
    maskedCardNumber: Option<string>,
    cardCompany: Option<string>,
    cardType: Option<string>,
    cardBrand: Option<string>)

  /** A freshly constructed result: not valid, no errors, no details. */
  const EmptyResult := CardValidationResult(false, [], None, None, None, None, None)

  predicate HasCardNumber(methods: seq<PaymentMethod>, cardNumber: string)
  {
    exists i :: 0 <= i < |methods| && methods[i].cardNumber == cardNumber
  }

  /** The first failing card check, in the order the validator runs them: format, Luhn,
    * known BIN, BIN still in use, CVV, expiry, holder name. `lookup` is the BIN table's
    * answer for the card's BIN. */
  function CardCheckError(cardNumber: string, cvv: Option<string>, month: Option<string>, year: Option<string>,
                          holder: Option<string>, lookup: Option<BinInfo>, today: Date): Option<ErrorCode>
  {
    if !IsValidCardNumberFormat(cardNumber) then Some(InvalidCardFormat)
    else if !LuhnValid(cardNumber) then Some(InvalidCardChecksum)
    else if lookup.None? then Some(InvalidCardBin)
    else if !lookup.value.IsValid() then Some(DiscontinuedCardBin)
    else if !IsValidCvvFormat(cvv) then Some(InvalidCvvFormat)
    else if !ValidateExpiry(month, year, today) then Some(ExpiredCard)
    else if !ValidCardHolderName(holder) then Some(InvalidInputValue)
    else None
  }

  /** validateCardRegistration: the method-count and duplicate checks throw; every other
    * failure is reported inside the result. */
  function CardRegistration(cardNumber: string, cvv: Option<string>, month: Option<string>, year: Option<string>,
                            holder: Option<string>, existing: seq<PaymentMethod>, lookup: Option<BinInfo>,
                            today: Date): (r: Result<CardValidationResult>)
  {
    if |existing| >= MAX_PAYMENT_METHODS then Err(PaymentMethodLimitExceeded)
    else if HasCardNumber(existing, cardNumber) then Err(DuplicatePayment)
    else
      match CardCheckError(cardNumber, cvv, month, year, holder, lookup, today)
      case Some(e) => Ok(EmptyResult.(errors := [e]))
      case None =>
        var info := lookup.value;
        Ok(CardValidationResult(true, [], Some(info), Some(MaskCardNumber(Some(cardNumber))),
                                Some(info.issuer), Some(info.cardType.KoreanName()), Some(info.brand.KoreanName())))
  }

  /** Registration throws for a full wallet, then for a card already in it; otherwise the
    * result is valid exactly when all seven checks pass, a valid result carries the mask
    * and the BIN row's issuer, type and brand, and an invalid one reports exactly one
    * error: that of the first failing check. */
  lemma CardRegistrationOutcome(cardNumber: string, cvv: Option<string>, month: Option<string>, year: Option<string>,
                                holder: Option<string>, existing: seq<PaymentMethod>, lookup: Option<BinInfo>, today: Date)
    ensures var r := CardRegistration(cardNumber, cvv, month, year, holder, existing, lookup, today);
      && (|existing| >= MAX_PAYMENT_METHODS ==> r == Err(PaymentMethodLimitExceeded))
      && ((|existing| < MAX_PAYMENT_METHODS && exists i :: 0 <= i < |existing| && existing[i].cardNumber == cardNumber)
            ==> r == Err(DuplicatePayment))
      && (r.Err? <==> |existing| >= MAX_PAYMENT_METHODS || HasCardNumber(existing, cardNumber))
      && (r.Ok? ==>
            && (r.value.isValid <==>
                  && |cardNumber| == 16 && AllAsciiDigits(cardNumber) && LuhnValid(cardNumber)
                  && lookup.Some? && lookup.value.IsValid()
                  && cvv.Some? && 3 <= |cvv.value| <= 4 && AllAsciiDigits(cvv.value)
                  && ValidateExpiry(month, year, today) && ValidCardHolderName(holder))
            && (r.value.isValid ==>
                  && r.value.errors == []
                  && r.value.binInfo == lookup
                  && r.value.maskedCardNumber == Some(cardNumber[..6] + "******" + cardNumber[12..])
                  && r.value.cardCompany == Some(lookup.value.issuer))
            && (!r.value.isValid ==>
                  && |r.value.errors| == 1
                  && Some(r.value.errors[0]) == CardCheckError(cardNumber, cvv, month, year, holder, lookup, today)
                  && r.value.binInfo.None? && r.value.maskedCardNumber.None?))
  {
    var r := CardRegistration(cardNumber, cvv, month, year, holder, existing, lookup, today);
    if r.Ok? && r.value.isValid {
      DigitsHaveText(cardNumber);
    }
  }

  /** The BIN of a well-formed card number, as extractBin cuts it. */
  function BinOf(cardNumber: string): string
    requires |cardNumber| >= 6
  {
    cardNumber[..6]
  }

  /** validateCardRegistration, filling the result as the validator does; `lookup` records
    * what the BIN table answered, when the checks got that far. */
  method ValidateCardRegistration(loader: BinLoader, cardNumber: string, cvv: Option<string>,
                                  month: Option<string>, year: Option<string>, holder: Option<string>,
                                  existing: seq<PaymentMethod>, today: Date)
    returns (r: Result<CardValidationResult>, ghost lookup: Option<BinInfo>)
    ensures r == CardRegistration(cardNumber, cvv, month, year, holder, existing, lookup, today)
    ensures r.Ok? && IsValidCardNumberFormat(cardNumber) && LuhnValid(cardNumber) ==>
      IsBinInfoFor(loader.binInfoMap, BinOf(cardNumber), lookup)
  {
    lookup := None;
    if |existing| >= MAX_PAYMENT_METHODS {
      return Err(PaymentMethodLimitExceeded), lookup;
    }
    if HasCardNumber(existing, cardNumber) {
      return Err(DuplicatePayment), lookup;
    }
    // a failed check adds its error to the empty list of a fresh result
    var result := EmptyResult;
    if !IsValidCardNumberFormat(cardNumber) {
      return Ok(result.(errors := [InvalidCardFormat])), lookup;
    }
    var luhn := ValidateLuhnAlgorithm(cardNumber);
    if !luhn {
      return Ok(result.(errors := [InvalidCardChecksum])), lookup;
    }
    var info := loader.GetBinInfo(BinOf(cardNumber));
    lookup := info;
    if info.None? {
      return Ok(result.(errors := [InvalidCardBin])), lookup;
    }
    if !info.value.IsValid() {
      return Ok(result.(errors := [DiscontinuedCardBin])), lookup;
    }
    if !IsValidCvvFormat(cvv) {
      return Ok(result.(errors := [InvalidCvvFormat])), lookup;
    }
    if !ValidateExpiry(month, year, today) {
      return Ok(result.(errors := [ExpiredCard])), lookup;
    }
    if !ValidCardHolderName(holder) {
      return Ok(result.(errors := [InvalidInputValue])), lookup;
    }
    result := result.(isValid := true);
    result := result.(binInfo := info);
    result := result.(maskedCardNumber := Some(MaskCardNumber(Some(cardNumber))));
    result := result.(cardCompany := Some(info.value.issuer));
    result := result.(cardType := Some(info.value.cardType.KoreanName()));
    result := result.(cardBrand := Some(info.value.brand.KoreanName()));
    r := Ok(result);
  }

  /** validatePayment: a known BIN, then the amount, then the limits. */
  function PaymentCheckError(lookup: Option<BinInfo>, amount: Option<Decimal>): Option<ErrorCode>
  {
    if lookup.None? then Some(InvalidCardBin)
    else if AmountError(amount).Some? then AmountError(amount)
    else PaymentLimitError(lookup.value, amount.value)
  }

  /** A payment on a known card passes exactly when the amount is a whole number of won
    * from 1 up to the card's daily limit. */
  lemma PaymentAcceptedIff(info: BinInfo, amount: Option<Decimal>)
    ensures PaymentCheckError(None, amount) == Some(InvalidCardBin)
    ensures PaymentCheckError(Some(info), amount).None? <==>
      amount.Some? && amount.value.scale <= 0 && 1 <= WholeValue(amount.value) <= DailyLimit(info)
  {
    AcceptedAmounts(amount);
    if amount.Some? {
      LimitFailsIffOverDaily(info, amount.value);
    }
  }

  /** validatePayment on a card number that has a BIN. */
  method ValidatePayment(loader: BinLoader, cardNumber: string, amount: Option<Decimal>)
    returns (r: Option<ErrorCode>, ghost lookup: Option<BinInfo>)
    requires ExtractBin(Some(cardNumber)).Some?
    ensures IsBinInfoFor(loader.binInfoMap, BinOf(cardNumber), lookup)
    ensures r == PaymentCheckError(lookup, amount)
  {
    var info := loader.GetBinInfo(ExtractBin(Some(cardNumber)).value);
    lookup := info;
    if info.None? {
      return Some(InvalidCardBin), lookup;
    }
    var amountError := AmountError(amount);
    if amountError.Some? {
      return amountError, lookup;
    }
    r := PaymentLimitError(info.value, amount.value);
  }
}
