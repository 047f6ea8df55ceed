# DOMADO bike-share server: a verified model of its core

This project models the service layer of the DOMADO bike-share server, a Spring application, in Dafny 4.11 and proves properties of the model. It covers:

- **Rentals and HiBike** (`rental_service.dfy`, `hibike_service.dfy`). A rider rents a bike by QR code, pauses it (the bike is temporarily locked where it stands), resumes it, and returns it to a dock of the bike's home hub. A paused bike can be offered to other riders as a *HiBike*. Renting a HiBike first completes and charges the previous rider's rental. The new rider earns a stamp on returning that bike to a dock.
- **Fees** (`payment_service.dfy`). A ride costs a 100-won unlock fee plus one rate for every started minute: 30 won from 09:00 up to 18:00, and 4 won otherwise. A coupon takes off up to its minutes at the current rate. Settling appends a COMPLETED payment and marks the coupon USED.
- **Stamps and coupons** (`stamp_service.dfy`). Every dock return of a taken-over HiBike earns its rider a stamp. Five unused stamps are exchanged for a 30-minute coupon valid for 30 days.
- **Card registration and payment rules** (`payment_validator.dfy`, `payment_method_service.dfy`, `card_utils.dfy`, `bin_loader.dfy`, `bin_info.dfy`, `card_brand.dfy`, `card_type.dfy`, `local_date.dfy`). These cover the card-number format, the Luhn check, the BIN (bank identification number) table loaded from CSV rows, the CVV, expiry and holder checks, the amount and daily/monthly limits, and a wallet of at most five cards per user.
- **Authentication** (`authentication_service.dfy`, `refresh_token.dfy`). This covers the e-mail, password and phone validators, registration, login, and refresh-token rotation with reuse detection, plus logout.
- **Station availability** (`station_location.dfy`). A station lists its parked bikes that are available, ordered by dock with undocked bikes last.

Shared pieces:

- `common.dfy` holds the Java library behaviour the services rely on: `String.trim`, `split(",")`, `Integer.parseInt`, int wrap-around and `Duration.toMinutes`.
- `domain.dfy` holds the entities and the persistent tables.
- `error_code.dfy` holds the error codes.

How the model is built:

- **Database state.** The database is a `Domain.Store` object with one field per table. Its value snapshot is `Tables`, where users are keyed by e-mail and the other tables are sequences indexed by id.
- **Service operations.** Each operation is a function from `Tables` to a result and new `Tables`, with its properties proved as lemmas. An imperative method beside it (named `…In`) updates the `Store` step by step and is proved to produce exactly that function's result.
- **Rollback.** A transactional operation that fails leaves every table as it was, which is how Spring's rollback behaves. The one exception is the corrected refresh (`Authentication.Refresh`, `Authentication.RefreshIn`), which keeps the reuse revocation that the code as written rolls back; `Authentication.RefreshRolledBack` models the code as written (see "## Findings").
- **Refresh tokens.** Tokens are objects (`RefreshTokens.RefreshToken`) that `revoke()` mutates in place, held by a `TokenRepository`.
- **Inputs from outside.** The clock, the payment gateway, the JWT signature check, the authentication manager's verdict, the password encoder's output and the BIN table's iteration order are all parameters.
- **Time.** A `LocalDateTime` is whole seconds from a fixed local midnight. Calendar dates (`LocalDate`) are modelled separately, with Java's range checks.

Where the code and its design notes disagree, the model follows the code:

- A failed payment inside a return rolls the whole return back. The rental stays IN_PROGRESS.
- The evening fee example, 17:55 to 18:05, comes to 270 won (100 + 5 × 30 + 5 × 4). The lemma `Payments.EveningRideScenario` proves that figure.

## Model

| member | source | states |
|---|---|---|
| Common.TimeOfDay | DOMADOSever/src/main/java/com/onemorethink/domadosever/domain/payment/service/PaymentService.java:153-155 | The second of the day an instant falls in, in [0, 86400), differing from the instant by whole days; isDayTime reads this |
| Common.WholeMinutes | DOMADOSever/src/main/java/com/onemorethink/domadosever/domain/rental/service/RentalService.java:363-368 | Duration.toMinutes: whole minutes between the instants, truncated toward zero in either direction |
| Common.Wrap32 | DOMADOSever/src/main/java/com/onemorethink/domadosever/domain/payment/service/PaymentValidator.java:162-179 | A Java int sum wraps into [-2^31, 2^31) and equals the exact sum when that fits (used by `2000 + year`) |
| Common.Trim | DOMADOSever/src/main/java/com/onemorethink/domadosever/global/util/BinLoader.java:50-52 | String.trim: a contiguous slice obtained by dropping only leading and trailing characters up to U+0020; the result begins and ends with a character above U+0020 |
| Common.SplitComma | DOMADOSever/src/main/java/com/onemorethink/domadosever/global/util/BinLoader.java:50 | String.split(","): `[s]` without a comma, otherwise a prefix of all comma-separated fields, with only empty fields dropped at the end, so the last field kept is never empty |
| Common.ParseInt | DOMADOSever/src/main/java/com/onemorethink/domadosever/domain/payment/service/PaymentValidator.java:162-179 | Integer.parseInt: defined exactly for an optional sign followed by ASCII digits within the int range, and equal to the digits' value for an unsigned string |
| Domain.StatusError | DOMADOSever/src/main/java/com/onemorethink/domadosever/domain/rental/service/RentalService.java:233-246 | Only an ACTIVE account passes; LOCKED, SUSPENDED, BLOCKED and WITHDRAWN each get their own error code |
| Domain.StatusErrorInjective | DOMADOSever/src/main/java/com/onemorethink/domadosever/domain/user/service/AuthenticationService.java:214-223 | Different account statuses are never reported with the same error |
| CardBrands.FromCode | DOMADOSever/src/main/java/com/onemorethink/domadosever/domain/payment/entity/paymentMethod/CardBrand.java:24-35 | A known brand is returned only for one of its own codes; UNKNOWN is returned exactly for codes that no brand claims |
| CardBrands.FromCodeOfCodes | DOMADOSever/src/main/java/com/onemorethink/domadosever/domain/payment/entity/paymentMethod/CardBrand.java:24-35 | Every code a brand lists decodes back to that brand |
| CardTypes.FromCode | DOMADOSever/src/main/java/com/onemorethink/domadosever/domain/payment/entity/paymentMethod/CardType.java:18-25 | "Y" decodes to debit and "G" to gift; every other code decodes to credit, in both directions |
| BinInfos.BinInfo.IsValid | DOMADOSever/src/main/java/com/onemorethink/domadosever/domain/payment/entity/paymentMethod/BinInfo.java:23-26 | A BIN is usable exactly when its note mentions neither deletion nor reassignment; an absent or empty note is usable |
| CardUtils.MaskCardNumber | DOMADOSever/src/main/java/com/onemorethink/domadosever/global/util/CardUtils.java:11-23 | Twelve stars for a blank number and one star per character below 16 characters; otherwise the first six characters, six stars and the last four |
| CardUtils.MaskRevealsOnlyEnds | DOMADOSever/src/main/java/com/onemorethink/domadosever/global/util/CardUtils.java:11-23 | Two long numbers with the same BIN and the same last four characters have the same mask |
| CardUtils.ExtractBin | DOMADOSever/src/main/java/com/onemorethink/domadosever/global/util/CardUtils.java:28-33 | A BIN is returned exactly for non-blank input of at least six characters, and it is that input's six-character prefix |
| CardUtils.BinIsMaskPrefix | DOMADOSever/src/main/java/com/onemorethink/domadosever/global/util/CardUtils.java:11-33 | The BIN of a full-length number is a visible prefix of its mask |
| CardUtils.MaskCvv | DOMADOSever/src/main/java/com/onemorethink/domadosever/global/util/CardUtils.java:38-43 | Three stars for a blank CVV, otherwise one star per character |
| CardUtils.IsValidCardNumberFormat | DOMADOSever/src/main/java/com/onemorethink/domadosever/global/util/CardUtils.java:48-55 | True exactly for 16 ASCII digits |
| CardUtils.IsValidCvvFormat | DOMADOSever/src/main/java/com/onemorethink/domadosever/global/util/CardUtils.java:60-63 | True exactly for a present CVV of 3 or 4 ASCII digits |
| BinLoading.KeepDigits | DOMADOSever/src/main/java/com/onemorethink/domadosever/global/util/BinLoader.java:113 | The ASCII digits of the input as a subsequence, with every digit string left unchanged |
| BinLoading.Normalized | DOMADOSever/src/main/java/com/onemorethink/domadosever/global/util/BinLoader.java:111-121 | A normalized BIN consists of digits only, and its length is the digit count, or 6 when that count is shorter |
| BinLoading.NormalizedIdempotent | DOMADOSever/src/main/java/com/onemorethink/domadosever/global/util/BinLoader.java:111-121 | Normalizing an already normalized BIN changes nothing |
| BinLoading.NormalizedKeepsLongDigits | DOMADOSever/src/main/java/com/onemorethink/domadosever/global/util/BinLoader.java:111-121 | A digit string of six or more characters is already normalized |
| BinLoading.BinLoader.constructor | DOMADOSever/src/main/java/com/onemorethink/domadosever/global/util/BinLoader.java:21-22 | Both lookup tables start empty |
| BinLoading.BinLoader.NormalizeBin | DOMADOSever/src/main/java/com/onemorethink/domadosever/global/util/BinLoader.java:111-121 | The padding loop returns exactly the normalized BIN |
| BinLoading.BinLoader.LoadIssuerLine | DOMADOSever/src/main/java/com/onemorethink/domadosever/global/util/BinLoader.java:49-54 | A line whose first two trimmed fields are non-empty maps the trimmed code to the trimmed name; any other line leaves the issuer table as it was |
| BinLoading.BinLoader.ProcessBinLine | DOMADOSever/src/main/java/com/onemorethink/domadosever/global/util/BinLoader.java:81-109 | The BIN table afterwards is the table with this line's row stored; lines with fewer than eight fields change nothing |
| BinLoading.RowInfo | DOMADOSever/src/main/java/com/onemorethink/domadosever/global/util/BinLoader.java:86-99 | The BinInfo a row describes: issuer name looked up with the code as default, brand, type, the personal flag and the note, empty when absent. `BinLoading.BinLoader.ProcessBinLine` stores exactly this row |
| BinLoading.PutRow | DOMADOSever/src/main/java/com/onemorethink/domadosever/global/util/BinLoader.java:100-108 | put, then putIfAbsent of the six-digit prefix of an eight-digit BIN. `BinLoading.PutRowEffect` states the keys and values afterwards |
| BinLoading.WithBinLine | DOMADOSever/src/main/java/com/onemorethink/domadosever/global/util/BinLoader.java:81-109 | The BIN table after one line: unchanged for fewer than eight fields, else the row stored under its normalized BIN. `BinLoading.BinLoader.ProcessBinLine` computes exactly it and `BinLoading.BinLinePreservesKeys` states that it only adds keys |
| BinLoading.BinLoader.StoreRow | DOMADOSever/src/main/java/com/onemorethink/domadosever/global/util/BinLoader.java:99-108 | The row goes under its BIN, and an eight-digit BIN's six-digit prefix receives the row only when that prefix is free |
| BinLoading.BinLoader.GetBinInfo | DOMADOSever/src/main/java/com/onemorethink/domadosever/global/util/BinLoader.java:123-137 | The answer is the normalized BIN's row; failing that, for a six-digit BIN, the row of some eight-digit key that extends it; and None only when neither exists |
| BinLoading.PutRowEffect | DOMADOSever/src/main/java/com/onemorethink/domadosever/global/util/BinLoader.java:99-108 | The keys gained, the entry stored under the BIN, the six-digit prefix keeping an earlier row, and every other key untouched |
| BinLoading.PutRowPreservesKeys | DOMADOSever/src/main/java/com/onemorethink/domadosever/global/util/BinLoader.java:99-108 | Storing under a normalized BIN keeps every key of the table digits-only and at least six long |
| BinLoading.BinLinePreservesKeys | DOMADOSever/src/main/java/com/onemorethink/domadosever/global/util/BinLoader.java:81-109 | Loading any line keeps every key of the table a normalized BIN |
| LocalDates.LengthOfMonth | DOMADOSever/src/main/java/com/onemorethink/domadosever/domain/payment/service/PaymentValidator.java:172-176 | Every month has 28 to 31 days |
| LocalDates.Of | DOMADOSever/src/main/java/com/onemorethink/domadosever/domain/payment/service/PaymentValidator.java:172-176 | LocalDate.of succeeds exactly for a representable date, and then holds that date |
| LocalDates.PlusOneMonth | DOMADOSever/src/main/java/com/onemorethink/domadosever/domain/payment/service/PaymentValidator.java:172-176 | plusMonths(1) stays valid and fails only past December of the largest year |
| LocalDates.MinusOneDay | DOMADOSever/src/main/java/com/onemorethink/domadosever/domain/payment/service/PaymentValidator.java:172-176 | minusDays(1) gives an earlier valid date and fails only on the first representable day |
| LocalDates.LastDayOfMonth | DOMADOSever/src/main/java/com/onemorethink/domadosever/domain/payment/service/PaymentValidator.java:172-176 | The first day of a month, moved one month on and then one day back, is that month's last day |
| LocalDates.LastDayNotBefore | DOMADOSever/src/main/java/com/onemorethink/domadosever/domain/payment/service/PaymentValidator.java:172-178 | The month's last day is not before today exactly when (year, month) is not earlier than today's |
| PaymentValidation.NumericValue | DOMADOSever/src/main/java/com/onemorethink/domadosever/domain/payment/service/PaymentValidator.java:148 | Character.getNumericValue gives an ASCII digit its value, and lies in [-1, 35] for any character |
| PaymentValidation.DoubledDigit | DOMADOSever/src/main/java/com/onemorethink/domadosever/domain/payment/service/PaymentValidator.java:149-154 | A doubled digit contributes the sum of the digits of 2n, i.e. 2n - 9 above 9 |
| PaymentValidation.LuhnSumPrepend | DOMADOSever/src/main/java/com/onemorethink/domadosever/domain/payment/service/PaymentValidator.java:143-160 | Prepending a character adds its term, and the term is doubled when the character sits an odd number of places from the right |
| PaymentValidation.ValidateLuhnAlgorithm | DOMADOSever/src/main/java/com/onemorethink/domadosever/domain/payment/service/PaymentValidator.java:143-160 | The right-to-left loop returns exactly the mod-10 verdict |
| PaymentValidation.CheckDigit | DOMADOSever/src/main/java/com/onemorethink/domadosever/domain/payment/service/PaymentValidator.java:143-160 | A check digit is always between 0 and 9 |
| PaymentValidation.LuhnCheckDigit | DOMADOSever/src/main/java/com/onemorethink/domadosever/domain/payment/service/PaymentValidator.java:143-160 | A number passes exactly when its last digit is the check digit of the rest |
| PaymentValidation.LuhnTestNumber | DOMADOSever/src/main/java/com/onemorethink/domadosever/domain/payment/service/PaymentValidator.java:143-160 | 4111111111111111 passes, and changing its last digit makes it fail |
| PaymentValidation.LuhnValid | DOMADOSever/src/main/java/com/onemorethink/domadosever/domain/payment/service/PaymentValidator.java:143-160 | The Luhn test. `PaymentValidation.ValidateLuhnAlgorithm` computes exactly it, and `PaymentValidation.LuhnCheckDigit` states that it holds exactly when the last digit is the check digit of the others |
| PaymentValidation.ExpiryByMonth | DOMADOSever/src/main/java/com/onemorethink/domadosever/domain/payment/service/PaymentValidator.java:162-179 | A card is valid through its expiry month: after the parse and range checks, only (2000 + year, month) compared with today's counts |
| PaymentValidation.ValidateExpiry | DOMADOSever/src/main/java/com/onemorethink/domadosever/domain/payment/service/PaymentValidator.java:162-179 | validateExpiry. `PaymentValidation.ExpiryByMonth` states that it accepts exactly when both fields parse, the month is 1 to 12, the year is in the date range, and (2000 + year, month) is not before today's; `ExpiresAfterLastDay` shows the last valid day |
| PaymentValidation.ExpiresAfterLastDay | DOMADOSever/src/main/java/com/onemorethink/domadosever/domain/payment/service/PaymentValidator.java:162-179 | "12"/"26" is valid on 31 December 2026 and expired on 1 January 2027 |
| PaymentValidation.Pow10 | DOMADOSever/src/main/java/com/onemorethink/domadosever/domain/payment/service/PaymentValidator.java:181-199 | Powers of ten are positive |
| PaymentValidation.AmountError | DOMADOSever/src/main/java/com/onemorethink/domadosever/domain/payment/service/PaymentValidator.java:181-199 | Only INVALID_PAYMENT_AMOUNT is ever reported |
| PaymentValidation.AcceptedAmounts | DOMADOSever/src/main/java/com/onemorethink/domadosever/domain/payment/service/PaymentValidator.java:181-199 | An amount is accepted exactly when it is present, has no fractional scale and is at least 1 won; 100.0 is refused |
| PaymentValidation.DailyLimit | DOMADOSever/src/main/java/com/onemorethink/domadosever/domain/payment/service/PaymentValidator.java:221-229 | Every daily limit lies between 1,000,000 and 50,000,000 won |
| PaymentValidation.MonthlyLimit | DOMADOSever/src/main/java/com/onemorethink/domadosever/domain/payment/service/PaymentValidator.java:231-233 | The monthly limit is thirty daily limits. `PaymentValidation.LimitFailsIffOverDaily` states that it therefore never decides a payment |
| PaymentValidation.LimitOrdering | DOMADOSever/src/main/java/com/onemorethink/domadosever/domain/payment/service/PaymentValidator.java:221-229 | Personal cards get no more than corporate cards, debit gets strictly less than credit, and a personal gift card gets the least |
| PaymentValidation.LimitFailsIffOverDaily | DOMADOSever/src/main/java/com/onemorethink/domadosever/domain/payment/service/PaymentValidator.java:201-219 | With the totals at zero the limit check fails exactly when the amount exceeds the daily limit; the monthly limit is never the reason |
| PaymentValidation.PaymentLimitError | DOMADOSever/src/main/java/com/onemorethink/domadosever/domain/payment/service/PaymentValidator.java:201-219 | validatePaymentLimit: the daily ceiling, then the monthly one. `PaymentValidation.LimitFailsIffOverDaily` states that it fails exactly for an amount over the daily limit and never for the monthly one |
| PaymentValidation.ValidCardHolderName | DOMADOSever/src/main/java/com/onemorethink/domadosever/domain/payment/service/PaymentValidator.java:244-246 | Some non-blank text of 2 to 50 characters. `PaymentValidation.CardRegistrationOutcome` states that a card registers only with such a name |
| PaymentValidation.CardCheckError | DOMADOSever/src/main/java/com/onemorethink/domadosever/domain/payment/service/PaymentValidator.java:60-104 | The first failing card check in the validator's order: format, Luhn, BIN known, BIN not discontinued, CVV, expiry, holder name. `PaymentValidation.CardRegistrationOutcome` states that the reported error is exactly this one |
| PaymentValidation.CardRegistration | DOMADOSever/src/main/java/com/onemorethink/domadosever/domain/payment/service/PaymentValidator.java:39-122 | validateCardRegistration. `PaymentValidation.CardRegistrationOutcome` states the two thrown errors, the single reported error, and that validity holds exactly when every check passes |
| PaymentValidation.CardRegistrationOutcome | DOMADOSever/src/main/java/com/onemorethink/domadosever/domain/payment/service/PaymentValidator.java:39-122 | Throws for a full wallet and then for a duplicate card. Otherwise the result is valid exactly when all seven checks pass; a valid result carries the BIN info, the mask and the issuer; an invalid one carries only the first failing check |
| PaymentValidation.ValidateCardRegistration | DOMADOSever/src/main/java/com/onemorethink/domadosever/domain/payment/service/PaymentValidator.java:39-122 | The method's result is the registration outcome for the BIN-table answer it obtained, and that answer is a correct lookup of the card's BIN |
| PaymentValidation.PaymentAcceptedIff | DOMADOSever/src/main/java/com/onemorethink/domadosever/domain/payment/service/PaymentValidator.java:127-141 | An unknown BIN fails with INVALID_CARD_BIN; on a known card a payment passes exactly for a whole amount from 1 won up to the daily limit |
| PaymentValidation.PaymentCheckError | DOMADOSever/src/main/java/com/onemorethink/domadosever/domain/payment/service/PaymentValidator.java:127-141 | validatePayment: a known BIN, then the amount, then the limits. `PaymentValidation.PaymentAcceptedIff` states that it passes exactly for a whole amount from 1 up to the daily limit on a known card |
| PaymentValidation.ValidatePayment | DOMADOSever/src/main/java/com/onemorethink/domadosever/domain/payment/service/PaymentValidator.java:127-141 | The verdict is PaymentCheckError applied to a correct lookup of the card's BIN |
| PaymentMethods.MethodsOf | DOMADOSever/src/main/java/com/onemorethink/domadosever/domain/payment/service/PaymentMethodService.java:42-43 | Exactly the user's saved methods, drawn from the table |
| PaymentMethods.RegisterPaymentMethod | DOMADOSever/src/main/java/com/onemorethink/domadosever/domain/payment/service/PaymentMethodService.java:36-78 | A failure leaves the tables unchanged; a success appends exactly one method, whose id is returned |
| PaymentMethods.RegisterEffect | DOMADOSever/src/main/java/com/onemorethink/domadosever/domain/payment/service/PaymentMethodService.java:36-78 | The checks in order: USER_NOT_FOUND, the limit, the duplicate, then INVALID_CARD_NUMBER with the first validation error. Success holds exactly when all pass. The stored method is ACTIVE, copies the form's card fields and the BIN's issuer, and is the default exactly when it is the user's first |
| PaymentMethods.RegisterIgnoresFormDefaults | DOMADOSever/src/main/java/com/onemorethink/domadosever/domain/payment/service/PaymentMethodService.java:64-75 | The form's own isDefault and cardCompany have no influence on what is stored |
| PaymentMethods.UpdatePaymentMethodStatus | DOMADOSever/src/main/java/com/onemorethink/domadosever/domain/payment/service/PaymentMethodService.java:101-117 | A failure leaves the tables unchanged |
| PaymentMethods.UpdateStatusEffect | DOMADOSever/src/main/java/com/onemorethink/domadosever/domain/payment/service/PaymentMethodService.java:101-117 | PAYMENT_METHOD_NOT_FOUND when the method is missing or another user's, and INACTIVE_PAYMENT_METHOD when it is EXPIRED. Otherwise the method takes the requested status and nothing else changes, in both directions |
| PaymentMethods.ExpiredIffNotValid | DOMADOSever/src/main/java/com/onemorethink/domadosever/domain/payment/service/PaymentMethodService.java:139-155 | The service's expiry test is the exact negation of the validator's, including the month range |
| PaymentMethods.IsCardExpired | DOMADOSever/src/main/java/com/onemorethink/domadosever/domain/payment/service/PaymentMethodService.java:139-155 | isCardExpired. `PaymentMethods.ExpiredIffNotValid` states that it holds exactly when validateExpiry rejects the same month and year |
| PaymentMethods.ValidateCardInfo | DOMADOSever/src/main/java/com/onemorethink/domadosever/domain/payment/service/PaymentMethodService.java:122-134 | Only the payment-method table is ever changed, and its length stays the same |
| PaymentMethods.ValidateCardInfoEffect | DOMADOSever/src/main/java/com/onemorethink/domadosever/domain/payment/service/PaymentMethodService.java:122-134 | A method that is not ACTIVE is refused unchanged. An ACTIVE, expired card is saved as EXPIRED and refused with EXPIRED_CARD. The check passes exactly for an ACTIVE unexpired card, and then changes nothing |
| PaymentMethods.Apply | DOMADOSever/src/main/java/com/onemorethink/domadosever/domain/payment/service/PaymentMethodService.java:36-134 | No command removes a payment method |
| PaymentMethods.RunCommands | DOMADOSever/src/main/java/com/onemorethink/domadosever/domain/payment/service/PaymentMethodService.java:36-134 | No sequence of commands removes a payment method |
| PaymentMethods.ExpiredStaysExpired | DOMADOSever/src/main/java/com/onemorethink/domadosever/domain/payment/service/PaymentMethodService.java:101-117 | EXPIRED is final: no sequence of registrations, status changes and card checks moves a method out of it |
| PaymentMethods.MethodsOfAppend | DOMADOSever/src/main/java/com/onemorethink/domadosever/domain/payment/service/PaymentMethodService.java:42-43 | Appending a method adds it to its owner's list alone |
| PaymentMethods.MethodsOfUpdate | DOMADOSever/src/main/java/com/onemorethink/domadosever/domain/payment/service/PaymentMethodService.java:101-117 | Rewriting a method of the same owner keeps every user's method count |
| PaymentMethods.RegisterKeepsWallets | DOMADOSever/src/main/java/com/onemorethink/domadosever/domain/payment/service/PaymentMethodService.java:36-78 | Registration keeps each wallet at five cards or fewer, with no card number twice |
| PaymentMethods.UpdateKeepsWallets | DOMADOSever/src/main/java/com/onemorethink/domadosever/domain/payment/service/PaymentMethodService.java:101-134 | A status change keeps each wallet at five cards or fewer, with no card number twice |
| PaymentMethods.CommandsKeepWallets | DOMADOSever/src/main/java/com/onemorethink/domadosever/domain/payment/service/PaymentMethodService.java:36-134 | Every command sequence keeps each wallet at five cards or fewer, with no card number twice |
| PaymentMethods.RegisterPaymentMethodIn | DOMADOSever/src/main/java/com/onemorethink/domadosever/domain/payment/service/PaymentMethodService.java:36-78 | The stored tables and the result are those of RegisterPaymentMethod for a correct lookup of the card's BIN |
| PaymentMethods.UpdatePaymentMethodStatusIn | DOMADOSever/src/main/java/com/onemorethink/domadosever/domain/payment/service/PaymentMethodService.java:101-117 | The stored tables and the result are those of UpdatePaymentMethodStatus |
| PaymentMethods.ValidateCardInfoIn | DOMADOSever/src/main/java/com/onemorethink/domadosever/domain/payment/service/PaymentMethodService.java:122-134 | The stored tables and the result are those of ValidateCardInfo, including the EXPIRED status saved before the error |
| Payments.RateAt | DOMADOSever/src/main/java/com/onemorethink/domadosever/domain/payment/service/PaymentService.java:127-131 | The rate is 30 won in the daytime band and 4 won outside it, in both directions |
| Payments.IsDayTime | DOMADOSever/src/main/java/com/onemorethink/domadosever/domain/payment/service/PaymentService.java:153-155 | From 09:00 inclusive to 18:00 exclusive. `Payments.RateAt` states that the daytime rate applies exactly inside this band |
| Payments.ChargedMarks | DOMADOSever/src/main/java/com/onemorethink/domadosever/domain/payment/service/PaymentService.java:122-134 | The number of minute marks before the end is the elapsed time rounded up to whole minutes, and 0 for an empty ride |
| Payments.CalculateBaseAmount | DOMADOSever/src/main/java/com/onemorethink/domadosever/domain/payment/service/PaymentService.java:112-137 | The minute-by-minute loop returns the unlock fee plus the rate of every charged minute mark |
| Payments.BaseAmount | DOMADOSever/src/main/java/com/onemorethink/domadosever/domain/payment/service/PaymentService.java:112-137 | calculateBaseAmount: the unlock fee plus the rate of every started minute. `Payments.BaseAmountBounds`, `NoRideCostsUnlockFee`, `WholeMinuteRide` and the ride scenarios state its bounds and values |
| Payments.MarksChargeBounds | DOMADOSever/src/main/java/com/onemorethink/domadosever/domain/payment/service/PaymentService.java:122-134 | Each minute mark costs between the night and the day rate |
| Payments.BaseAmountBounds | DOMADOSever/src/main/java/com/onemorethink/domadosever/domain/payment/service/PaymentService.java:112-137 | For k charged marks the base amount lies between 100 + 4k and 100 + 30k |
| Payments.NoRideCostsUnlockFee | DOMADOSever/src/main/java/com/onemorethink/domadosever/domain/payment/service/PaymentService.java:112-137 | A ride that ends no later than it starts costs the unlock fee alone |
| Payments.MarksChargeSplit | DOMADOSever/src/main/java/com/onemorethink/domadosever/domain/payment/service/PaymentService.java:122-134 | The charge of a walk splits at any mark |
| Payments.MarksChargeUniform | DOMADOSever/src/main/java/com/onemorethink/domadosever/domain/payment/service/PaymentService.java:122-134 | Marks that all fall in the same band cost that band's rate each |
| Payments.TimeOfDayAdvance | DOMADOSever/src/main/java/com/onemorethink/domadosever/domain/payment/service/PaymentService.java:124 | Moving forward within a day moves the time of day by the same amount |
| Payments.DaytimeMarks | DOMADOSever/src/main/java/com/onemorethink/domadosever/domain/payment/service/PaymentService.java:122-134 | Marks that start at 09:00 or later and stay before 18:00 cost 30 won each |
| Payments.EveningMarks | DOMADOSever/src/main/java/com/onemorethink/domadosever/domain/payment/service/PaymentService.java:122-134 | Marks that start at 18:00 or later and stay before midnight cost 4 won each |
| Payments.WholeMinuteRide | DOMADOSever/src/main/java/com/onemorethink/domadosever/domain/payment/service/PaymentService.java:112-137 | A ride of k whole minutes is charged exactly k marks |
| Payments.DaytimeRideScenario | DOMADOSever/src/main/java/com/onemorethink/domadosever/domain/payment/service/PaymentService.java:112-137 | 10:00 to 10:10 costs 400 won |
| Payments.EveningRideScenario | DOMADOSever/src/main/java/com/onemorethink/domadosever/domain/payment/service/PaymentService.java:112-137 | 17:55 to 18:05 costs 270 won |
| Payments.EveningMarksTotal | DOMADOSever/src/main/java/com/onemorethink/domadosever/domain/payment/service/PaymentService.java:122-134 | The ten marks from 17:55 cost 170 won |
| Payments.DiscountAmount | DOMADOSever/src/main/java/com/onemorethink/domadosever/domain/payment/service/PaymentService.java:139-145 | The discount is non-negative and never exceeds 30 won per coupon minute or per ride minute |
| Payments.FinalAmount | DOMADOSever/src/main/java/com/onemorethink/domadosever/domain/payment/service/PaymentService.java:102 | The final amount is never negative and never above the original; it is the original minus the discount unless that would be negative, in which case it is 0 |
| Payments.NewestActiveMethod | DOMADOSever/src/main/java/com/onemorethink/domadosever/domain/payment/service/PaymentService.java:45-47 | The user's ACTIVE method with the highest id, or None when the user has none |
| Payments.CouponUsable | DOMADOSever/src/main/java/com/onemorethink/domadosever/domain/payment/service/PaymentService.java:50-57 | findByIdAndUserAndStatusAndExpireDateAfter: the coupon exists, is the user's, is ACTIVE and expires after now. `Payments.SettleRentalEffect` and `Payments.UnusableCouponRejected` state that a payment uses a coupon only then and fails with INVALID_COUPON otherwise |
| Payments.SettleRental | DOMADOSever/src/main/java/com/onemorethink/domadosever/domain/payment/service/PaymentService.java:43-90 | Only payments and coupons change; a success appends exactly one payment, whose id is returned |
| Payments.SettleRentalEffect | DOMADOSever/src/main/java/com/onemorethink/domadosever/domain/payment/service/PaymentService.java:43-110 | NO_PAYMENT_METHOD without an ACTIVE method, and failures change nothing. Settling succeeds exactly when an ACTIVE method exists, any given coupon is usable, and the gateway approves or the final amount is below the unlock fee. A success appends one COMPLETED payment with no failure reason, carrying the newest ACTIVE method, the gateway's id and the base amount; its amount is the base amount less the discount, floored at zero. Without a coupon the discount is zero; with one it is the lesser of the coupon's minutes and the ride's minutes at the rate of now. A usable coupon becomes USED by that payment, at now, and no other coupon changes |
| Payments.SettleRentalCauses | DOMADOSever/src/main/java/com/onemorethink/domadosever/domain/payment/service/PaymentService.java:43-90 | Without a coupon, only NO_PAYMENT_METHOD and PAYMENT_PROCESSING_FAILED can fail a payment |
| Payments.UnusableCouponRejected | DOMADOSever/src/main/java/com/onemorethink/domadosever/domain/payment/service/PaymentService.java:49-58 | A missing, foreign, used or expired coupon gives INVALID_COUPON, and nothing changes |
| Payments.SmallAmountIgnoresGateway | DOMADOSever/src/main/java/com/onemorethink/domadosever/domain/payment/service/PaymentService.java:66-70 | A final amount below 100 won never goes to the gateway, so a refusal there cannot change the outcome |
| Payments.StubGatewayNeverFails | DOMADOSever/src/main/java/com/onemorethink/domadosever/domain/payment/service/PaymentService.java:186-188 | With an always-approving gateway, as the empty `processExternalPayment` is, settling fails only with NO_PAYMENT_METHOD or, when a coupon is given, INVALID_COUPON. Without a coupon it succeeds exactly when an ACTIVE method exists |
| Payments.ProcessRentalPayment | DOMADOSever/src/main/java/com/onemorethink/domadosever/domain/payment/service/PaymentService.java:43-90 | The stored tables and the result are those of SettleRental |
| Rentals.FindBike | DOMADOSever/src/main/java/com/onemorethink/domadosever/domain/rental/service/RentalService.java:54-55 | The first bike carrying the QR code, or None when no bike carries it |
| Rentals.FindRentalInProgress | DOMADOSever/src/main/java/com/onemorethink/domadosever/domain/rental/service/RentalService.java:95-102 | A rental of the bike that is IN_PROGRESS, or None when no such rental exists |
| Rentals.UpdatePauseTime | DOMADOSever/src/main/java/com/onemorethink/domadosever/domain/rental/service/RentalService.java:370-378 | An open pause is closed and its whole minutes are added to the total, with a missing total counting as zero; without an open pause nothing changes |
| Rentals.PauseDuration | DOMADOSever/src/main/java/com/onemorethink/domadosever/domain/rental/service/RentalService.java:380-386 | calculatePauseDuration: the whole minutes of the open pause, 0 without one. `Rentals.UpdatePauseTime` and `Rentals.ResumeBikeEffect` state that it is the amount folded into the total and reported |
| Rentals.TotalMinutes | DOMADOSever/src/main/java/com/onemorethink/domadosever/domain/rental/service/RentalService.java:363-368 | The whole minutes from the start to the end time, or to now while there is no end time |
| Rentals.CompleteRental | DOMADOSever/src/main/java/com/onemorethink/domadosever/domain/rental/service/RentalService.java:109-145 | Completed at now with no open pause, the usage in whole minutes from the start, and the open pause folded in; the rider, bike, start and coupon flag are unchanged |
| Rentals.ReturnLocationError | DOMADOSever/src/main/java/com/onemorethink/domadosever/domain/rental/service/RentalService.java:324-335 | STATION_NOT_FOUND, then INVALID_RETURN_HUB; passes exactly for an existing station of the bike's home hub |
| Rentals.DockBike | DOMADOSever/src/main/java/com/onemorethink/domadosever/domain/rental/service/RentalService.java:205-214 | The bike is PARKED at the requested station, dock and coordinates, and nothing else about it changes |
| Rentals.AtLocation | DOMADOSever/src/main/java/com/onemorethink/domadosever/domain/rental/service/RentalService.java:357-360 | updateBikeLocation: only the coordinates change. `Rentals.ResumeBikeEffect` and `HiBikes.MakeHiBikeEffect` state the resulting bikes |
| Rentals.ReturnCore | DOMADOSever/src/main/java/com/onemorethink/domadosever/domain/rental/service/RentalService.java:109-145 | The tables stay consistent; no bike, rental, user, station or payment method appears or disappears |
| Rentals.OwnedRental | DOMADOSever/src/main/java/com/onemorethink/domadosever/domain/rental/service/RentalService.java:287-291 | RENTAL_NOT_FOUND, then RENTAL_NOT_OWNED; passes exactly for the caller's own rental |
| Rentals.ReturnBike | DOMADOSever/src/main/java/com/onemorethink/domadosever/domain/rental/service/RentalService.java:84-92 | The tables stay consistent, and a failure changes nothing |
| Rentals.RentCheck | DOMADOSever/src/main/java/com/onemorethink/domadosever/domain/rental/service/RentalService.java:47-60 | A found bike is an index into the bike table |
| Rentals.Rentable | DOMADOSever/src/main/java/com/onemorethink/domadosever/domain/rental/service/RentalService.java:248-256 | A bike is rentable when PARKED, or when TEMPORARY_LOCKED and offered as a HiBike. `Rentals.RentChecksInOrder` states that, once the user and bike are found, a bike that is not rentable fails with BIKE_NOT_AVAILABLE, and that a rent succeeds only for a rentable bike |
| Rentals.HasActiveMethod | DOMADOSever/src/main/java/com/onemorethink/domadosever/domain/rental/service/RentalService.java:269-275 | existsByUserAndStatus(user, ACTIVE). `Rentals.RentChecksInOrder` states that, once the bike checks pass, its failure gives NO_PAYMENT_METHOD, and that a rent succeeds only when it holds |
| Rentals.HasUncompletedRental | DOMADOSever/src/main/java/com/onemorethink/domadosever/domain/rental/service/RentalService.java:278-284 | existsByUserAndStatusNot(user, COMPLETED). `Rentals.RentChecksInOrder` states that, once the earlier checks pass, it gives ACTIVE_RENTAL_EXISTS, and that a rent succeeds only when it does not hold |
| Rentals.HandleHiBikeTransfer | DOMADOSever/src/main/java/com/onemorethink/domadosever/domain/rental/service/RentalService.java:95-102 | The tables stay consistent and keep their sizes, and a failure changes nothing |
| Rentals.RentBike | DOMADOSever/src/main/java/com/onemorethink/domadosever/domain/rental/service/RentalService.java:47-81 | The tables stay consistent, and a failure changes nothing |
| Rentals.PauseBike | DOMADOSever/src/main/java/com/onemorethink/domadosever/domain/rental/service/RentalService.java:148-173 | The tables stay consistent, and a failure changes nothing |
| Rentals.ResumeBike | DOMADOSever/src/main/java/com/onemorethink/domadosever/domain/rental/service/RentalService.java:176-202 | The tables stay consistent, and a failure changes nothing |
| Rentals.ReturnCoreEffect | DOMADOSever/src/main/java/com/onemorethink/domadosever/domain/rental/service/RentalService.java:109-145 | A return succeeds exactly when the station check passes (a hand-over has none), the rider has an ACTIVE payment method and the gateway approves. Then the rental is completed, the bike is docked (a hand-over leaves it where it is), and one COMPLETED payment for the rental is appended. A stamp is issued exactly for a dock return of a transferred HiBike |
| Rentals.ReturnCoreFailures | DOMADOSever/src/main/java/com/onemorethink/domadosever/domain/rental/service/RentalService.java:109-145 | A return fails only as RETURN_PROCESSING_FAILED and changes nothing; the station rules come first, and otherwise the cause is a payment error |
| Rentals.ReturnBikeChecks | DOMADOSever/src/main/java/com/onemorethink/domadosever/domain/rental/service/RentalService.java:84-92 | RENTAL_NOT_FOUND, RENTAL_NOT_OWNED and RENTAL_NOT_IN_PROGRESS, in that order, before anything changes |
| Rentals.ReturnBikeEffect | DOMADOSever/src/main/java/com/onemorethink/domadosever/domain/rental/service/RentalService.java:84-92 | Succeeds exactly when the rental is the caller's and IN_PROGRESS, the station is in the bike's home hub, the caller has an ACTIVE payment method and the gateway approves. Then the rental is COMPLETED at now with its usage, and the bike is PARKED at the requested place. The other rentals and bikes are unchanged, one COMPLETED payment for the rental is appended as in `Rentals.ReturnCoreEffect`, and a stamp is issued exactly for a transferred HiBike |
| Rentals.RentChecksInOrder | DOMADOSever/src/main/java/com/onemorethink/domadosever/domain/rental/service/RentalService.java:47-60 | The first violated condition is reported, in the order user, status, bike, availability, battery, payment method, open rental; success only when all hold, and always for an ordinary bike that passes them |
| Rentals.HandOverEffect | DOMADOSever/src/main/java/com/onemorethink/domadosever/domain/rental/service/RentalService.java:95-102 | Nothing happens for an ordinary bike; a HiBike's previous rental is completed and paid, and the bike is marked TRANSFERRED, with RENTAL_NOT_FOUND when there is no such rental. For a HiBike it succeeds exactly when that rental exists, its rider has an ACTIVE payment method and the gateway approves |
| Rentals.RentBikeEffect | DOMADOSever/src/main/java/com/onemorethink/domadosever/domain/rental/service/RentalService.java:61-81 | A success adds one IN_PROGRESS rental of the caller starting now, with the scanned bike IN_USE and undocked; for an ordinary bike nothing else changes |
| Rentals.RentHiBikeHandOver | DOMADOSever/src/main/java/com/onemorethink/domadosever/domain/rental/service/RentalService.java:61-81 | Renting a HiBike that passed the checks succeeds exactly when the previous rental exists, its rider has an ACTIVE payment method and the gateway approves. It first completes and charges the previous rider's rental, then marks the bike TRANSFERRED for the new rider |
| Rentals.PauseBikeEffect | DOMADOSever/src/main/java/com/onemorethink/domadosever/domain/rental/service/RentalService.java:148-173 | The checks in order, and success holds exactly when they pass. The bike is TEMPORARY_LOCKED at the given coordinates, and a pause opens at now. Nothing else changes |
| Rentals.ResumeBikeEffect | DOMADOSever/src/main/java/com/onemorethink/domadosever/domain/rental/service/RentalService.java:176-202 | The checks in order, and success holds exactly when they pass. The open pause's whole minutes are added to the total and reported, and the bike is IN_USE at the given coordinates. The rental's other fields and the bike's other fields stay as they were, and nothing else changes |
| Rentals.PauseThenResume | DOMADOSever/src/main/java/com/onemorethink/domadosever/domain/rental/service/RentalService.java:148-202 | A successful pause of one's own rental can always be resumed, and the cycle adds exactly that pause's whole minutes |
| Rentals.RideWithPauses | DOMADOSever/src/main/java/com/onemorethink/domadosever/domain/rental/service/RentalService.java:148-202 | The tables stay consistent over any run of pause-resume cycles |
| Rentals.PausesAddUp | DOMADOSever/src/main/java/com/onemorethink/domadosever/domain/rental/service/RentalService.java:370-386 | After any successful run of cycles the total pause is the sum of each pause's own truncated minutes |
| Rentals.CompletingKeepsOneOpen | DOMADOSever/src/main/java/com/onemorethink/domadosever/domain/rental/service/RentalService.java:278-285 | Completing a rental keeps every user at one open rental or fewer |
| Rentals.AppendingKeepsOneOpen | DOMADOSever/src/main/java/com/onemorethink/domadosever/domain/rental/service/RentalService.java:278-285 | Adding a rental for a user with no open rental keeps every user at one open rental or fewer |
| Rentals.RentKeepsOneOpen | DOMADOSever/src/main/java/com/onemorethink/domadosever/domain/rental/service/RentalService.java:47-81 | Renting keeps every user at one open rental or fewer |
| Rentals.OtherCommandsKeepOneOpen | DOMADOSever/src/main/java/com/onemorethink/domadosever/domain/rental/service/RentalService.java:84-202 | Returning, pausing and resuming keep every user at one open rental or fewer |
| Rentals.ReturnCoreIn | DOMADOSever/src/main/java/com/onemorethink/domadosever/domain/rental/service/RentalService.java:105-145 | The step-by-step return produces the tables and result of ReturnCore, with rollback on failure |
| Rentals.ReturnBikeIn | DOMADOSever/src/main/java/com/onemorethink/domadosever/domain/rental/service/RentalService.java:84-92 | The stored tables and the result are those of ReturnBike |
| Rentals.HandleHiBikeTransferIn | DOMADOSever/src/main/java/com/onemorethink/domadosever/domain/rental/service/RentalService.java:95-102 | The stored tables and the result are those of HandleHiBikeTransfer |
| Rentals.RentBikeIn | DOMADOSever/src/main/java/com/onemorethink/domadosever/domain/rental/service/RentalService.java:47-81 | The stored tables and the result are those of RentBike |
| Rentals.PauseBikeIn | DOMADOSever/src/main/java/com/onemorethink/domadosever/domain/rental/service/RentalService.java:148-173 | The stored tables and the result are those of PauseBike |
| Rentals.ResumeBikeIn | DOMADOSever/src/main/java/com/onemorethink/domadosever/domain/rental/service/RentalService.java:176-202 | The stored tables and the result are those of ResumeBike |
| HiBikes.MakeHiBike | DOMADOSever/src/main/java/com/onemorethink/domadosever/domain/rental/service/HiBikeService.java:27-50 | The tables stay consistent, and a failure changes nothing |
| HiBikes.CancelHiBike | DOMADOSever/src/main/java/com/onemorethink/domadosever/domain/rental/service/HiBikeService.java:52-75 | The tables stay consistent, and a failure changes nothing |
| HiBikes.HiBikeAvailableError | DOMADOSever/src/main/java/com/onemorethink/domadosever/domain/rental/service/HiBikeService.java:83-98 | validateHiBikeAvailable: in progress, then TEMPORARY_LOCKED, then not yet a HiBike. `HiBikes.MakeHiBikeEffect` states this order of the errors |
| HiBikes.HiBikeCancellableError | DOMADOSever/src/main/java/com/onemorethink/domadosever/domain/rental/service/HiBikeService.java:100-110 | validateHiBikeCancellable: in progress, then offered as a HiBike. `HiBikes.CancelHiBikeEffect` states this order of the errors |
| HiBikes.MakeHiBikeEffect | DOMADOSever/src/main/java/com/onemorethink/domadosever/domain/rental/service/HiBikeService.java:27-50 | The checks in order (not found, not owned, not in progress, not locked, already a HiBike), and success holds exactly when they pass. The bike becomes AVAILABLE_FOR_RENT at the given coordinates, and nothing else changes |
| HiBikes.CancelHiBikeEffect | DOMADOSever/src/main/java/com/onemorethink/domadosever/domain/rental/service/HiBikeService.java:52-75 | The checks in order (not found, not owned, not in progress, not a HiBike), and success holds exactly when they pass. Only the bike's HiBike status changes, to NONE |
| HiBikes.MakeThenCancel | DOMADOSever/src/main/java/com/onemorethink/domadosever/domain/rental/service/HiBikeService.java:27-75 | Offering and then withdrawing the bike restores it, apart from the coordinates the offer recorded |
| HiBikes.MakeHiBikeIn | DOMADOSever/src/main/java/com/onemorethink/domadosever/domain/rental/service/HiBikeService.java:27-50 | The stored tables and the result are those of MakeHiBike |
| HiBikes.CancelHiBikeIn | DOMADOSever/src/main/java/com/onemorethink/domadosever/domain/rental/service/HiBikeService.java:52-75 | The stored tables and the result are those of CancelHiBike |
| Stamps.UnusedOf | DOMADOSever/src/main/java/com/onemorethink/domadosever/domain/coupon/service/StampService.java:136-138 | The positions of the user's unused stamps: all of them and only them, oldest first |
| Stamps.CountUnused | DOMADOSever/src/main/java/com/onemorethink/domadosever/domain/coupon/service/StampService.java:136-138 | The number of the user's unused stamps. `Stamps.CreateStampCount` and `Stamps.StaysBelowFive` state how creating a stamp changes it |
| Stamps.AscendingUnique | DOMADOSever/src/main/java/com/onemorethink/domadosever/domain/coupon/service/StampService.java:55-77 | Two ascending lists with the same elements are equal |
| Stamps.UnusedOfCharacterized | DOMADOSever/src/main/java/com/onemorethink/domadosever/domain/coupon/service/StampService.java:55-77 | Any ascending list of exactly the user's unused positions is UnusedOf |
| Stamps.MarkExchanged | DOMADOSever/src/main/java/com/onemorethink/domadosever/domain/coupon/service/StampService.java:79-89 | Exactly the picked stamps are marked used and linked to the coupon; no other stamp changes |
| Stamps.MarkOneMore | DOMADOSever/src/main/java/com/onemorethink/domadosever/domain/coupon/service/StampService.java:79-89 | Marking one more stamp extends the marked set by one |
| Stamps.MarkOldest | DOMADOSever/src/main/java/com/onemorethink/domadosever/domain/coupon/service/StampService.java:55-89 | Marking the n oldest unused stamps leaves the rest of the user's unused stamps, in order |
| Stamps.CheckAndIssueCoupon | DOMADOSever/src/main/java/com/onemorethink/domadosever/domain/coupon/service/StampService.java:55-77 | Only the stamp and coupon tables change, and no stamp is added or removed |
| Stamps.CreateStamp | DOMADOSever/src/main/java/com/onemorethink/domadosever/domain/coupon/service/StampService.java:38-53 | Only the stamp and coupon tables change |
| Stamps.AppendUnused | DOMADOSever/src/main/java/com/onemorethink/domadosever/domain/coupon/service/StampService.java:38-53 | A new unused stamp joins the end of the user's unused list |
| Stamps.CreateStampCount | DOMADOSever/src/main/java/com/onemorethink/domadosever/domain/coupon/service/StampService.java:38-77 | At most one coupon is minted, and only by appending. It is minted exactly when the new stamp makes five or more unused stamps. The unused count rises by one, or falls by four when a coupon is minted |
| Stamps.CreateStampFrame | DOMADOSever/src/main/java/com/onemorethink/domadosever/domain/coupon/service/StampService.java:38-53 | The user's stamp is appended under the returned id; stamps that are already used, or belong to others, do not change, and no other table changes |
| Stamps.MintedCoupon | DOMADOSever/src/main/java/com/onemorethink/domadosever/domain/coupon/service/StampService.java:55-89 | A minted coupon is ACTIVE, worth 30 minutes and valid for 30 days, holds exactly the five oldest unused stamps, and each of them points back to it |
| Stamps.StaysBelowFive | DOMADOSever/src/main/java/com/onemorethink/domadosever/domain/coupon/service/StampService.java:38-77 | Below five unused stamps before a call means below five after it: one more, or zero when a set of five is completed |
| Stamps.LastIssuedCouponId | DOMADOSever/src/main/java/com/onemorethink/domadosever/domain/coupon/service/StampService.java:143-147 | The user's newest coupon, or None when the user has none |
| Stamps.IssueStampForHiBikeUse | DOMADOSever/src/main/java/com/onemorethink/domadosever/domain/coupon/service/StampService.java:153-177 | Only the stamp and coupon tables change |
| Stamps.IssuanceReport | DOMADOSever/src/main/java/com/onemorethink/domadosever/domain/coupon/service/StampService.java:153-177 | The report gives the new stamp's id and the unused count after the call; it says a coupon was issued when that count is a multiple of five, and then names the newest coupon |
| Stamps.IssuanceWhenMinted | DOMADOSever/src/main/java/com/onemorethink/domadosever/domain/coupon/service/StampService.java:153-177 | The stamp that completes a set of five mints a coupon, and the report names it |
| Stamps.IssuanceWhenNotMinted | DOMADOSever/src/main/java/com/onemorethink/domadosever/domain/coupon/service/StampService.java:153-177 | Any other stamp while below five mints nothing, and the report says so |
| Stamps.IssuanceReportIsAccurate | DOMADOSever/src/main/java/com/onemorethink/domadosever/domain/coupon/service/StampService.java:153-177 | While below five unused stamps, the report says a coupon was issued exactly when this call minted one, and names it |
| Stamps.LastCouponIsNewest | DOMADOSever/src/main/java/com/onemorethink/domadosever/domain/coupon/service/StampService.java:143-147 | A coupon just appended for the user is the newest |
| Stamps.IssuanceReportNeedsInvariant | DOMADOSever/src/main/java/com/onemorethink/domadosever/domain/coupon/service/StampService.java:153-177 | Starting from five unused stamps, a coupon is minted but the report says none was |
| Stamps.HandOver | DOMADOSever/src/main/java/com/onemorethink/domadosever/domain/coupon/service/StampService.java:79-89 | The loop marks exactly the picked stamps as exchanged for the coupon |
| Stamps.CheckAndIssueCouponIn | DOMADOSever/src/main/java/com/onemorethink/domadosever/domain/coupon/service/StampService.java:55-89 | The stored tables are those of CheckAndIssueCoupon |
| Stamps.CreateStampIn | DOMADOSever/src/main/java/com/onemorethink/domadosever/domain/coupon/service/StampService.java:38-53 | The stored tables and the id are those of CreateStamp |
| Stamps.IssueStampForHiBikeUseIn | DOMADOSever/src/main/java/com/onemorethink/domadosever/domain/coupon/service/StampService.java:153-177 | The stored tables and the report are those of IssueStampForHiBikeUse |
| StationLocations.Ids | DOMADOSever/src/main/java/com/onemorethink/domadosever/domain/location/dto/StationLocationDto.java:49 | The ids of the entries, in order |
| StationLocations.BikesAt | DOMADOSever/src/main/java/com/onemorethink/domadosever/domain/location/dto/StationLocationDto.java:38 | The station's parked bikes: exactly those whose current station it is, in increasing id order |
| StationLocations.Available | DOMADOSever/src/main/java/com/onemorethink/domadosever/domain/location/dto/StationLocationDto.java:38-41 | Exactly the PARKED, non-HiBike entries with at least 20% battery, in their original order |
| StationLocations.IsAvailable | DOMADOSever/src/main/java/com/onemorethink/domadosever/domain/location/dto/StationLocationDto.java:38-41 | The availability filter: PARKED, not offered as a HiBike, battery at least 20%. `StationLocations.Available` and `StationLocations.FromDescribesAvailableBikes` state that exactly the bikes passing it are listed |
| StationLocations.DockLeTotalPreorder | DOMADOSever/src/main/java/com/onemorethink/domadosever/domain/location/dto/StationLocationDto.java:42-46 | nullsLast ordering on dock ids is reflexive, total, transitive and antisymmetric |
| StationLocations.InsertPermutes | DOMADOSever/src/main/java/com/onemorethink/domadosever/domain/location/dto/StationLocationDto.java:42-46 | Insertion adds exactly the inserted entry |
| StationLocations.InsertPermutesIds | DOMADOSever/src/main/java/com/onemorethink/domadosever/domain/location/dto/StationLocationDto.java:42-46 | Insertion adds exactly the inserted entry's id |
| StationLocations.InsertSorted | DOMADOSever/src/main/java/com/onemorethink/domadosever/domain/location/dto/StationLocationDto.java:42-46 | Insertion into a dock-ordered list keeps it dock-ordered |
| StationLocations.InsertKeepsDockOrder | DOMADOSever/src/main/java/com/onemorethink/domadosever/domain/location/dto/StationLocationDto.java:42-46 | Insertion keeps the order of the entries at each dock id, with the new entry last among its own dock |
| StationLocations.SortByDock | DOMADOSever/src/main/java/com/onemorethink/domadosever/domain/location/dto/StationLocationDto.java:42-46 | The sort by dock number. `StationLocations.SortByDockSorted`, `SortByDockPermutes` and `SortByDockStable` state that the result is ordered by dock, is a permutation of the input, and keeps the input order among equal docks |
| StationLocations.SortByDockSorted | DOMADOSever/src/main/java/com/onemorethink/domadosever/domain/location/dto/StationLocationDto.java:42-46 | The sort orders the entries by dock id, with undocked entries last |
| StationLocations.SortByDockPermutes | DOMADOSever/src/main/java/com/onemorethink/domadosever/domain/location/dto/StationLocationDto.java:42-46 | The sort keeps every entry exactly as often as before |
| StationLocations.SortByDockPermutesIds | DOMADOSever/src/main/java/com/onemorethink/domadosever/domain/location/dto/StationLocationDto.java:42-46 | The sort keeps every id exactly as often as before |
| StationLocations.SortByDockStable | DOMADOSever/src/main/java/com/onemorethink/domadosever/domain/location/dto/StationLocationDto.java:42-46 | The sort is stable: entries at the same dock id keep their input order |
| StationLocations.IncreasingIdsOnce | DOMADOSever/src/main/java/com/onemorethink/domadosever/domain/location/dto/StationLocationDto.java:38 | In a list with increasing ids each id occurs at most once |
| StationLocations.FromCopiesStation | DOMADOSever/src/main/java/com/onemorethink/domadosever/domain/location/dto/StationLocationDto.java:60-66 | The station's id, name, coordinates and capacity are copied unchanged |
| StationLocations.From | DOMADOSever/src/main/java/com/onemorethink/domadosever/domain/location/dto/StationLocationDto.java:37-68 | StationLocationDto.from. `StationLocations.FromCopiesStation`, `FromDescribesAvailableBikes`, `FromOrderedByDock`, `FromListsEachOnce` and `FromIsStable` state the copied station fields and that the list holds exactly the station's available bikes, once each, ordered by dock |
| StationLocations.FromDescribesAvailableBikes | DOMADOSever/src/main/java/com/onemorethink/domadosever/domain/location/dto/StationLocationDto.java:38-57 | Every listed bike is parked at the station, is available, and is described from its own row |
| StationLocations.FromOrderedByDock | DOMADOSever/src/main/java/com/onemorethink/domadosever/domain/location/dto/StationLocationDto.java:42-46 | The list is ordered by dock id, with undocked bikes last |
| StationLocations.FromListsEachOnce | DOMADOSever/src/main/java/com/onemorethink/domadosever/domain/location/dto/StationLocationDto.java:37-58 | Each available bike parked at the station is listed exactly once, and no other bike is |
| StationLocations.FromIsStable | DOMADOSever/src/main/java/com/onemorethink/domadosever/domain/location/dto/StationLocationDto.java:37-58 | Bikes with the same dock id keep increasing id order, and every entry is the description of a chosen bike |
| StationLocations.WithDockKeepsIncreasing | DOMADOSever/src/main/java/com/onemorethink/domadosever/domain/location/dto/StationLocationDto.java:42-46 | Selecting one dock id from an id-ordered list keeps it id-ordered |
| RefreshTokens.RefreshToken.constructor | DOMADOSever/src/main/java/com/onemorethink/domadosever/global/security/entity/RefreshToken.java:47-53 | A new token holds the given fields and starts unrevoked |
| RefreshTokens.RefreshToken.Revoke | DOMADOSever/src/main/java/com/onemorethink/domadosever/global/security/entity/RefreshToken.java:63-65 | Only the revocation date changes, to now; the token is revoked afterwards |
| RefreshTokens.RefreshToken.IsExpired | DOMADOSever/src/main/java/com/onemorethink/domadosever/global/security/entity/RefreshToken.java:55-57 | Expired strictly after the expiry date. `Authentication.RefreshEffect` states that such a token refreshes to EXPIRED_TOKEN |
| RefreshTokens.RefreshToken.IsRevoked | DOMADOSever/src/main/java/com/onemorethink/domadosever/global/security/entity/RefreshToken.java:59-61 | Revoked once a revocation date is set. `RefreshTokens.RefreshToken.constructor` and `RefreshTokens.RefreshToken.Revoke` state that a token starts unrevoked and is revoked afterwards |
| RefreshTokens.RowsOf | DOMADOSever/src/main/java/com/onemorethink/domadosever/global/security/entity/RefreshToken.java:22-44 | The stored values of the tokens, in order |
| RefreshTokens.RevokeAll | DOMADOSever/src/main/java/com/onemorethink/domadosever/domain/user/service/AuthenticationService.java:225-238 | The number of tokens is unchanged |
| RefreshTokens.RevokeAllEffect | DOMADOSever/src/main/java/com/onemorethink/domadosever/domain/user/service/AuthenticationService.java:225-238 | Exactly the user's valid tokens (unexpired, unrevoked) are revoked at now; every other row is untouched |
| RefreshTokens.RevokeAllLeavesNoneValid | DOMADOSever/src/main/java/com/onemorethink/domadosever/domain/user/service/AuthenticationService.java:225-238 | Afterwards the user has no valid token, and revoking again changes nothing |
| RefreshTokens.TokenRepository.Rows | DOMADOSever/src/main/java/com/onemorethink/domadosever/global/security/repository/RefreshTokenRepository.java:16 | The stored values of the repository's tokens |
| RefreshTokens.TokenRepository.constructor | DOMADOSever/src/main/java/com/onemorethink/domadosever/global/security/repository/RefreshTokenRepository.java:16 | The repository starts empty |
| RefreshTokens.TokenRepository.ValidTokens | DOMADOSever/src/main/java/com/onemorethink/domadosever/global/security/repository/RefreshTokenRepository.java:19-29 | Exactly the stored tokens that are valid for the user at now: not expired at now and not revoked |
| RefreshTokens.TokenRepository.RevokeAt | DOMADOSever/src/main/java/com/onemorethink/domadosever/global/security/entity/RefreshToken.java:63-65 | Only the chosen token is revoked at now, and the list of tokens is unchanged |
| RefreshTokens.TokenRepository.RevokeAllUserTokens | DOMADOSever/src/main/java/com/onemorethink/domadosever/domain/user/service/AuthenticationService.java:225-238 | The revoke-and-save loop leaves exactly the rows of RevokeAll |
| RefreshTokens.TokenRepository.FindToken | DOMADOSever/src/main/java/com/onemorethink/domadosever/global/security/repository/RefreshTokenRepository.java:17 | findByToken returns the first stored token with that string |
| RefreshTokens.TokenRepository.Add | DOMADOSever/src/main/java/com/onemorethink/domadosever/domain/user/service/AuthenticationService.java:71 | Saving appends the token's row, and the stored tokens stay distinct objects |
| RefreshTokens.ValidAmong | DOMADOSever/src/main/java/com/onemorethink/domadosever/global/security/repository/RefreshTokenRepository.java:19-29 | Exactly the tokens in the list that are valid for the user at now |
| RefreshTokens.Find | DOMADOSever/src/main/java/com/onemorethink/domadosever/global/security/repository/RefreshTokenRepository.java:17 | The first row with the token string, or None when no row has it |
| RefreshTokens.FindFirst | DOMADOSever/src/main/java/com/onemorethink/domadosever/global/security/repository/RefreshTokenRepository.java:17 | Find returns the first row holding the token |
| RefreshTokens.FindRow | DOMADOSever/src/main/java/com/onemorethink/domadosever/global/security/repository/RefreshTokenRepository.java:17 | Searching the token objects agrees with searching their rows |
| Authentication.EmailSplitsAtFirstAt | DOMADOSever/src/main/java/com/onemorethink/domadosever/domain/user/service/AuthenticationService.java:252-254 | The '@' the pattern matches is the first '@' of the address |
| Authentication.EmailExamples | DOMADOSever/src/main/java/com/onemorethink/domadosever/domain/user/service/AuthenticationService.java:252-254 | Ordinary and multi-'@' addresses match; an empty local part, an empty domain and null do not |
| Authentication.IsValidEmail | DOMADOSever/src/main/java/com/onemorethink/domadosever/domain/user/service/AuthenticationService.java:252-254 | The e-mail pattern. `Authentication.EmailSplitsAtFirstAt` and `Authentication.EmailExamples` state where it splits an address and which addresses it accepts |
| Authentication.PasswordExamples | DOMADOSever/src/main/java/com/onemorethink/domadosever/domain/user/service/AuthenticationService.java:256-259 | A password needs a letter, a digit and a special character, and at least eight characters |
| Authentication.IsValidPassword | DOMADOSever/src/main/java/com/onemorethink/domadosever/domain/user/service/AuthenticationService.java:256-259 | The password pattern. `Authentication.PasswordExamples` shows a password it accepts and ones it rejects for a missing special character and for being too short |
| Authentication.PhoneShape | DOMADOSever/src/main/java/com/onemorethink/domadosever/domain/user/service/AuthenticationService.java:261-263 | A valid phone number is 11 to 13 characters long, and its dashes stand only at its two separator positions |
| Authentication.PhoneExamples | DOMADOSever/src/main/java/com/onemorethink/domadosever/domain/user/service/AuthenticationService.java:261-263 | Mobile and area-code numbers match; a number missing a dash does not |
| Authentication.IsValidPhoneNumber | DOMADOSever/src/main/java/com/onemorethink/domadosever/domain/user/service/AuthenticationService.java:261-263 | The phone pattern. `Authentication.PhoneShape` and `Authentication.PhoneExamples` state the lengths and separators of an accepted number |
| Authentication.Register | DOMADOSever/src/main/java/com/onemorethink/domadosever/domain/user/service/AuthenticationService.java:122-149 | A failure leaves the users unchanged |
| Authentication.RegisterEffect | DOMADOSever/src/main/java/com/onemorethink/domadosever/domain/user/service/AuthenticationService.java:122-149 | The checks in order: e-mail, password and phone format, duplicate e-mail, then the role. Success holds exactly when all pass. The new account is ACTIVE, stores the encoded password, and no other account changes |
| Authentication.RegistrationInputError | DOMADOSever/src/main/java/com/onemorethink/domadosever/domain/user/service/AuthenticationService.java:181-191 | validateRegistrationInput: e-mail, then password, then phone. `Authentication.RegisterEffect` states this order of the errors |
| Authentication.Rotate | DOMADOSever/src/main/java/com/onemorethink/domadosever/domain/user/service/AuthenticationService.java:66-71 | The rows after rotation are the user's rows with their valid tokens revoked, plus the newly issued token, unrevoked |
| Authentication.RotateLeavesOnlyNewToken | DOMADOSever/src/main/java/com/onemorethink/domadosever/domain/user/service/AuthenticationService.java:101-105 | After rotation none of the user's earlier tokens is valid, the new one is valid exactly while unexpired, and other users' rows are untouched |
| Authentication.Login | DOMADOSever/src/main/java/com/onemorethink/domadosever/domain/user/service/AuthenticationService.java:48-83 | A failure leaves the tokens unchanged |
| Authentication.LoginEffect | DOMADOSever/src/main/java/com/onemorethink/domadosever/domain/user/service/AuthenticationService.java:48-83 | INVALID_EMAIL_FORMAT, then the authenticator's verdict, then the account status. Success holds exactly for an authenticated ACTIVE user, and then returns the issued token and rotates |
| Authentication.StoredTokenError | DOMADOSever/src/main/java/com/onemorethink/domadosever/domain/user/service/AuthenticationService.java:193-202 | validateRefreshToken: expiry before revocation. `Authentication.RefreshEffect` states this order of the errors |
| Authentication.Refresh | DOMADOSever/src/main/java/com/onemorethink/domadosever/domain/user/service/AuthenticationService.java:86-119 | Corrected definition named in "## Findings": the reuse revocation is kept after the error, where the code as written rolls it back (Authentication.RefreshRolledBack). No token row is ever removed |
| Authentication.RefreshEffect | DOMADOSever/src/main/java/com/onemorethink/domadosever/domain/user/service/AuthenticationService.java:86-119 | For the corrected definition named in "## Findings" (the error verdicts agree with the code as written, Authentication.RefreshRolledBack). The checks in order and their effects: an invalid signature or an unknown token, then expiry, then revocation. A client mismatch revokes the token and gives SUSPICIOUS_TOKEN_REUSE. Success holds exactly for a live token from its own client whose owner is ACTIVE, and rotates |
| Authentication.RefreshRevokesPresented | DOMADOSever/src/main/java/com/onemorethink/domadosever/domain/user/service/AuthenticationService.java:86-119 | A successful refresh before the expiry instant revokes the presented token and leaves the user no valid token but the new one |
| Authentication.ReusedTokenStaysDead | DOMADOSever/src/main/java/com/onemorethink/domadosever/domain/user/service/AuthenticationService.java:204-212 | Once flagged as reused, a token can never be refreshed again, by any client at any time |
| Authentication.RefreshRolledBack | DOMADOSever/src/main/java/com/onemorethink/domadosever/domain/user/service/AuthenticationService.java:85-119 | As written: the same verdicts as Refresh, but every error leaves the tokens as they were |
| Authentication.ReuseRevocationIsLost | DOMADOSever/src/main/java/com/onemorethink/domadosever/domain/user/service/AuthenticationService.java:85-119 | As written: a token flagged as reused stays unrevoked and still refreshes from its original client |
| Authentication.Logout | DOMADOSever/src/main/java/com/onemorethink/domadosever/domain/user/service/AuthenticationService.java:152-164 | A failure leaves the tokens unchanged |
| Authentication.LogoutEffect | DOMADOSever/src/main/java/com/onemorethink/domadosever/domain/user/service/AuthenticationService.java:152-164 | Succeeds exactly when the token exists; the owner then has no valid token, and other users' rows are untouched |
| Authentication.RegisterIn | DOMADOSever/src/main/java/com/onemorethink/domadosever/domain/user/service/AuthenticationService.java:122-149 | The stored users and the result are those of Register, and no other table changes |
| Authentication.RotateIn | DOMADOSever/src/main/java/com/onemorethink/domadosever/domain/user/service/AuthenticationService.java:66-71 | The repository's rows afterwards are those of Rotate, and its tokens stay distinct objects |
| Authentication.LoginIn | DOMADOSever/src/main/java/com/onemorethink/domadosever/domain/user/service/AuthenticationService.java:48-83 | The repository's rows and the result are those of Login |
| Authentication.RefreshIn | DOMADOSever/src/main/java/com/onemorethink/domadosever/domain/user/service/AuthenticationService.java:86-119 | The corrected definition named in "## Findings" over the repository: the result and rows are those of Refresh, so the reuse revocation stays saved, which the code as written rolls back |
| Authentication.LogoutIn | DOMADOSever/src/main/java/com/onemorethink/domadosever/domain/user/service/AuthenticationService.java:152-164 | The repository's rows and the result are those of Logout |

## Left out

- Controllers, DTO builders, websocket and APNs notifications, logging and the demo data loader are not part of this model. Only the services named above are.
- Everything that runs concurrently is left out. Commands run one at a time, and nothing models two overlapping transactions.
- Reading `outline.csv` and `detail.csv` is file I/O and is left out. The model covers what one line does (`BinLoading.BinLoader.LoadIssuerLine`, `BinLoading.BinLoader.ProcessBinLine`); the header skip and the loop over lines are not modelled.
- Creating and parsing JWTs is left out. The signature check is the `signatureValid` parameter, and the issued token and its expiry are the `issued` parameter.
- The authentication manager, the password encoder and the role lookup are outside code. They appear as the parameters `auth`, `encodedPassword` and `roleExists`.
- Calls to `LocalDateTime.now()` become one `now` parameter per command. The model therefore assumes that every `now()` inside one command returns the same instant.
- The external payment gateway is the `Gateway` parameter, which says whether it approves and which transaction id it assigns. The UUID transaction id is part of that parameter. In the source, `processExternalPayment` (`DOMADOSever/src/main/java/com/onemorethink/domadosever/domain/payment/service/PaymentService.java` lines 186-188) is an empty stub that always succeeds, so the code as written never reports PAYMENT_PROCESSING_FAILED. The parameter generalises it to a real gateway that may refuse; `Payments.StubGatewayNeverFails` states the as-written case.
- Amounts and minute counts are unbounded integers. Java int overflow of fees is not modelled; a ride would have to last years to overflow.
- Latitude and longitude (Java `Double`) are modelled as `real`. They are only copied, never computed with, so floating-point rounding does not arise.
- Strings are sequences of Unicode scalar values. Java's UTF-16 lengths differ only for characters outside the Basic Multilingual Plane.
- Common.ParseInt accepts ASCII digits only. Java's `Integer.parseInt` also accepts other Unicode decimal digits, such as Arabic-Indic or full-width digits. The expiry strings it parses arrive through fields whose `@Pattern`s admit ASCII digits only (`DOMADOSever/src/main/java/com/onemorethink/domadosever/domain/payment/dto/PaymentMethodRequest.java` lines 46 and 56).
- Rentals.FindRentalInProgress returns the first IN_PROGRESS rental of the bike. The Spring finder returning `Optional` would throw if two such rentals existed. The model does not prove that a bike has at most one IN_PROGRESS rental.
- PaymentValidation.NumericValue: `Character.getNumericValue` is modelled for ASCII only: digits give their value and letters give 10 to 35. Every other character counts as -1, where Java gives values to other Unicode digits and numerals too.
- PaymentValidation.CardRegistration: validation errors are kept as their error codes, not as the exception message strings.
- PaymentValidation.ValidatePayment requires a card number long enough to have a BIN. For shorter numbers `extractBin` returns null and the Java lookup would fail with a NullPointerException, which is not modelled.
- StationLocations.BikesAt: the station's `parkedBikes` collection is taken in bike-id order. The JPA mapping fixes no order, but it uses neither a sort nor an `@OrderBy`.
- StationLocations.From requires an existing station. The Java method is only ever given a loaded station.
- Rentals.ReturnCore: a return settles its payment without a coupon (`couponId` None). The call site calls a one-argument `processRentalPayment`, and `PaymentService.java` declares only the two-argument form.
- PaymentMethods.ValidateCardInfo takes the method by id rather than as an entity object. That method is not transactional, so the EXPIRED status it saves stays saved even though an error follows.
- The refresh-token repository assumes distinct token strings. With duplicate token strings, `findByToken` would fail, and the model returns the first of them instead.
- `getCurrentUser`, `getUserPaymentMethods` and `getUserStamps` are read-only lookups that convert entities to DTOs. They are left out.
- Authentication.RefreshRevokesPresented: this lemma requires `now` to be strictly before the token's expiry. At the expiry instant itself, `isExpired` still accepts the token (it tests `now > expiryDate`), but `findAllValidTokensByUser` no longer returns it (it tests `expiryDate > now`). So the rotation does not revoke the presented token at that instant, and the lemma states no more than that.
- Stamps.IssuanceReportIsAccurate: the report's `couponIssued` flag tests whether the unused count is a multiple of five, not whether a coupon was minted. The two agree only while every user stays below five unused stamps, which `Stamps.CreateStamp` preserves (`Stamps.StaysBelowFive`). The bike return writes stamps only through that operation, and no other command touches the stamp table. `Stamps.IssuanceReportNeedsInvariant` shows that they disagree otherwise.

## Findings

| source | as written | input that shows it | evidently intended | confidence | as-written member | corrected member |
|---|---|---|---|---|---|---|
| DOMADOSever/src/main/java/com/onemorethink/domadosever/domain/user/service/AuthenticationService.java:204-212 | On a user-agent or IP mismatch, `validateClientInfo` revokes the stored token and saves it, then throws SUSPICIOUS_TOKEN_REUSE. It runs inside the `@Transactional` `refreshToken` (lines 85-119), so the exception rolls the revocation back. | A live, unrevoked token presented from a different user agent. The call fails with SUSPICIOUS_TOKEN_REUSE, the token is still unrevoked afterwards, and presenting it again from the original client refreshes successfully. | Once reuse is detected the token stays revoked, so it can never be refreshed again. | medium, not executed: `BusinessException` is not part of this model and is taken to be unchecked, so Spring rolls back on it | Authentication.RefreshRolledBack (with Authentication.ReuseRevocationIsLost) | Authentication.Refresh (with Authentication.ReusedTokenStaysDead) |
