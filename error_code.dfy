/**
 * The business error codes the services raise, named after the constants at
 * their throw sites, and the result of an operation that may raise one.
 */
module ErrorCodes {

  datatype ErrorCode =
    // users and accounts
    | UserNotFound | AccountLocked | AccountSuspended | AccountBlocked | AccountWithdrawn
    | InvalidUserStatus
    // renting and riding
    | BikeNotFound | BikeNotAvailable | LowBattery | NoPaymentMethod | ActiveRentalExists
    | RentalNotFound | RentalNotOwned | RentalNotInProgress
    | BikeAlreadyLocked | BikeNotLocked | BikeNotInPause
    | StationNotFound | InvalidReturnHub
      /** RETURN_PROCESSING_FAILED, carrying the error that aborted the return. */
    | ReturnProcessingFailed(cause: ErrorCode)
    | AlreadyHiBike | NotHiBike
    // payments and coupons
    | InvalidCoupon | PaymentProcessingFailed
    | PaymentMethodLimitExceeded | DuplicatePayment
    | InvalidCardFormat | InvalidCardChecksum | InvalidCardBin | DiscontinuedCardBin
    | InvalidCvvFormat | ExpiredCard | InvalidInputValue
    | InvalidPaymentAmount | DailyPaymentLimitExceeded | MonthlyPaymentLimitExceeded
      /** INVALID_CARD_NUMBER, carrying the first error of the card validation. */
    | InvalidCardNumber(firstError: ErrorCode)
    | PaymentMethodNotFound | InactivePaymentMethod
    // authentication
    | InvalidEmailFormat | InvalidPasswordFormat | InvalidPhoneFormat | DuplicateEmail
    | RoleNotFound | InvalidPassword | AuthenticationFailed
    | InvalidRefreshToken | ExpiredToken | SuspiciousTokenReuse
    | TokenRefreshFailed | RegistrationFailed | LogoutFailed

  datatype Result<T> = Ok(value: T) | Err(error: ErrorCode)
}
