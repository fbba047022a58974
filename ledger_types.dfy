/** Records held by the ledger's store (the users, kyc, cashouts and
    subscription_requests tables and the payment_methods setting of
    server/db.js), the clock values the operations are given, and the
    failures they report. */
module LedgerTypes {

  /** A nullable column or an absent argument. */
  datatype Option<+T> = None | Some(value: T) {
    function GetOr(default: T): T {
      if Some? then value else default
    }
  }

  /** The outcome of an operation: its value, or the error it throws. */
  datatype Result<+R, +E> = Success(value: R) | Failure(error: E)

  /** A calendar date (year, month, day). */
  datatype Date = Date(year: int, month: int, day: int)

  /** A point in time as the server clock reports it: the instant, its UTC
      calendar date (the date part of its ISO string) and its calendar date
      in the server's local time zone. */
  datatype Moment = Moment(millis: int, utcDate: Date, localDate: Date)

  /** A row of the users table. */
  datatype User = User(
    id: string,
    email: string,
    password: string,
    bananas: int,
    eggs: int,
    balance: real,
    kycStatus: string,
    kycSubmitted: bool,
    kycSubmittedAt: Option<Moment>,
    kycApprovedAt: Option<Moment>,
    kycRejectionReason: Option<string>,
    subscription: Option<string>,
    subscriptionPurchasedAt: Option<Moment>,
    referralCode: Option<string>,
    referredBy: Option<string>,
    isAdmin: bool,
    role: string,
    createdAt: Moment,
    lastDailyBanana: Option<Moment>,
    referrals: int,
    adminGrantedAt: Option<Moment>,
    adminRevokedAt: Option<Moment>,
    kycDocumentUrl: Option<string>,
    kycIdType: Option<string>,
    eggsToday: nat,
    lastEggDate: Option<Date>,
    paymentMethod: Option<string>,
    paymentName: Option<string>,
    paymentNumber: Option<string>)

  /** Personal details sent with a KYC upload; each may be missing. */
  datatype KycDetails = KycDetails(
    firstName: Option<string>,
    lastName: Option<string>,
    address: Option<string>,
    birthdate: Option<string>)

  /** A row of the kyc table. */
  datatype Kyc = Kyc(
    id: string,
    userId: string,
    filename: string,
    filepath: string,
    status: string,
    submittedAt: Moment,
    approvedAt: Option<Moment>,
    rejectedAt: Option<Moment>,
    rejectionReason: Option<string>,
    idType: Option<string>,
    details: KycDetails)

  /** A row of the cashouts table. */
  datatype Cashout = Cashout(
    id: string,
    userId: string,
    paymentMethod: Option<string>,
    accountDetails: Option<string>,
    amount: real,
    status: string,
    requestedAt: Moment,
    approvedAt: Option<Moment>)

  /** A row of the subscription_requests table. */
  datatype SubscriptionRequest = SubscriptionRequest(
    id: string,
    userId: string,
    plan: string,
    price: real,
    payMethod: Option<string>,
    refNumber: Option<string>,
    receiptUrl: Option<string>,
    status: string,
    requestedAt: Moment,
    processedAt: Option<Moment>,
    rejectionReason: Option<string>)

  /** One entry of the payment_methods setting. */
  datatype PaymentMethod = PaymentMethod(name: string, number: string, accountName: string)

  /** What claimDailyBonus returns: the updated user and the bananas added. */
  datatype Claim = Claim(user: User, added: nat)

  /** The errors the operations throw. */
  datatype Error =
    | UserNotFound
    | NotEnoughBananas
    | DailyEggLimitReached
    | NotEnoughEggs
    | InvalidAmount
    | NoActiveSubscription
    | AlreadyClaimedToday
    | NoDailyBonus
    | InsufficientBalance
    | BelowMinimum(minimum: real)
    | ConstraintViolation  // an insert that breaks a PRIMARY KEY or UNIQUE constraint

  const Pending := "pending"
  const Approved := "approved"
  const Rejected := "rejected"

  /** Empty text stands for a missing value (`x || null` in the source). */
  function NonEmpty(s: Option<string>): Option<string> {
    if s.Some? && s.value == "" then None else s
  }

  function UpperChar(c: char): char {
    if 'a' <= c <= 'z' then (c as int - 'a' as int + 'A' as int) as char else c
  }

  function LowerChar(c: char): char {
    if 'A' <= c <= 'Z' then (c as int - 'A' as int + 'a' as int) as char else c
  }

  /** ASCII upper-casing, as SQLite's UPPER does it. */
  function Upper(s: string): (r: string)
    ensures |r| == |s|
    ensures forall i :: 0 <= i < |s| ==> r[i] == UpperChar(s[i])
  {
    if s == [] then [] else [UpperChar(s[0])] + Upper(s[1..])
  }

  /** ASCII lower-casing, as SQLite's LOWER does it. */
  function Lower(s: string): (r: string)
    ensures |r| == |s|
    ensures forall i :: 0 <= i < |s| ==> r[i] == LowerChar(s[i])
  {
    if s == [] then [] else [LowerChar(s[0])] + Lower(s[1..])
  }

  /** Upper-casing twice is upper-casing once, so comparing upper-cased
      codes is an equivalence that ignores letter case. */
  lemma UpperIdempotent(s: string)
    ensures Upper(Upper(s)) == Upper(s)
  {
    assert forall i :: 0 <= i < |s| ==> Upper(Upper(s))[i] == Upper(s)[i];
  }
}
