/** The business rules of server/db.js on one record at a time: what a
    feed, a sale, a daily claim, a cashout debit, a subscription approval
    and a settings merge do to the record they read, and when they refuse.
    The Store methods in module Ledger read a record, apply one of these
    and write the result back. */
module LedgerRules {
  import opened LedgerTypes

  /** A user on the free tier: no subscription, an empty one (falsy in the
      source) or the literal "None". */
  predicate IsFreeTier(subscription: Option<string>) {
    subscription.None? || subscription.value == "" || subscription.value == "None"
  }

  predicate IsPaidPlan(plan: string) {
    plan == "basic" || plan == "premium" || plan == "vip"
  }

  /** Bananas a plan grants per day, and once on approval of the plan. */
  function PlanRate(plan: string): (rate: nat)
    ensures rate > 0 <==> IsPaidPlan(plan)
    ensures plan == "basic" ==> rate == 4
    ensures plan == "premium" ==> rate == 20
    ensures plan == "vip" ==> rate == 50
  {
    if plan == "basic" then 4
    else if plan == "premium" then 20
    else if plan == "vip" then 50
    else 0
  }

  /** The user a fresh signup creates: KYC 'none', not submitted, no admin
      rights, no subscription, no referrals. */
  function NewUser(id: string, email: string, password: string, bananas: int, eggs: int, balance: real,
                   referralCode: Option<string>, referredBy: Option<string>, now: Moment): User
  {
    User(id, email, password, bananas, eggs, balance, "none", false, None, None, None, None, None,
         referralCode, referredBy, false, "user", now, None, 0, None, None, None, None, 0, None,
         None, None, None)
  }

  // ---------------------------------------------------------------- feeding

  /** Eggs the user already produced on `today`: the stored counter, reset to
      0 when the stored date is another day. */
  function EggsSoFar(u: User, today: Date): nat {
    if u.lastEggDate == Some(today) then u.eggsToday else 0
  }

  /** feedChicken on the user's row: two bananas become one egg; a free-tier
      user gets at most one egg per (UTC) day. */
  function Feed(u: User, today: Date): (r: Result<User, Error>)
    ensures r.Failure? <==> u.bananas < 2 || (IsFreeTier(u.subscription) && EggsSoFar(u, today) >= 1)
    ensures r.Failure? ==> r.error == if u.bananas < 2 then NotEnoughBananas else DailyEggLimitReached
    ensures r.Success? ==>
      && r.value.bananas == u.bananas - 2
      && r.value.eggs == u.eggs + 1
      && r.value.balance == u.balance
      && r.value.lastEggDate == Some(today)
      && r.value.eggsToday == EggsSoFar(u, today) + 1
      && r.value.(bananas := u.bananas, eggs := u.eggs, eggsToday := u.eggsToday, lastEggDate := u.lastEggDate) == u
    ensures r.Success? && IsFreeTier(u.subscription) ==> r.value.eggsToday == 1
  {
    if u.bananas < 2 then Failure(NotEnoughBananas)
    else
      var eggsToday := EggsSoFar(u, today);
      if IsFreeTier(u.subscription) && eggsToday >= 1 then Failure(DailyEggLimitReached)
      else Success(u.(bananas := u.bananas - 2, eggs := u.eggs + 1,
                      eggsToday := if u.lastEggDate != Some(today) then 1 else eggsToday + 1,
                      lastEggDate := Some(today)))
  }

  /** A free-tier user who was just fed cannot be fed again the same day. */
  lemma FreeTierOneEggPerDay(u: User, today: Date)
    requires IsFreeTier(u.subscription)
    requires Feed(u, today).Success?
    ensures Feed(Feed(u, today).value, today).Failure?
  {
  }

  /** On a new day the counter starts again: a user with two bananas is fed,
      whatever the tier, and the day's count becomes 1. */
  lemma FeedOnNewDay(u: User, today: Date)
    requires u.lastEggDate != Some(today) && u.bananas >= 2
    ensures Feed(u, today).Success? && Feed(u, today).value.eggsToday == 1
  {
  }

  // ---------------------------------------------------------------- selling

  /** sellEggs exactly as db.js writes it: only `eggs < amount` is refused,
      so a negative amount turns balance into eggs. */
  function SellAsWritten(u: User, amount: int): (r: Result<User, Error>)
    ensures r.Failure? <==> u.eggs < amount
    ensures r.Failure? ==> r.error == NotEnoughEggs
    ensures r.Success? ==>
      && r.value.eggs == u.eggs - amount
      && r.value.balance == u.balance + amount as real
      && r.value.(eggs := u.eggs, balance := u.balance) == u
  {
    if u.eggs < amount then Failure(NotEnoughEggs)
    else Success(u.(eggs := u.eggs - amount, balance := u.balance + amount as real))
  }

  /** The amount -5 gets past the only guard and overdraws an empty balance. */
  lemma SellAsWrittenOverdraws(now: Moment)
    ensures var r := SellAsWritten(NewUser("u", "u@example.com", "", 0, 0, 0.0, None, None, now), -5);
            r.Success? && r.value.eggs == 5 && r.value.balance == -5.0
  {
  }

  /** sellEggs with the amount required to be positive: `amount` eggs become
      `amount` of balance, one for one, and nothing else changes. */
  function Sell(u: User, amount: int): (r: Result<User, Error>)
    ensures r.Failure? <==> u.eggs < amount || amount <= 0
    ensures r.Failure? ==> r.error == if u.eggs < amount then NotEnoughEggs else InvalidAmount
    ensures r.Success? ==>
      && r.value.eggs == u.eggs - amount
      && r.value.balance == u.balance + amount as real
      && r.value.eggs as real + r.value.balance == u.eggs as real + u.balance
      && r.value.(eggs := u.eggs, balance := u.balance) == u
    ensures r.Success? && u.balance >= 0.0 ==> r.value.eggs >= 0 && r.value.balance > u.balance
  {
    if u.eggs < amount then Failure(NotEnoughEggs)
    else if amount <= 0 then Failure(InvalidAmount)
    else SellAsWritten(u, amount)
  }

  /** Selling twice in a row with the same amount fails the second time when
      the first sale left fewer than `amount` eggs. */
  lemma SellTwice(u: User, amount: int)
    requires Sell(u, amount).Success? && u.eggs - amount < amount
    ensures Sell(Sell(u, amount).value, amount) == Failure(NotEnoughEggs)
  {
  }

  // ------------------------------------------------------------ daily bonus

  /** The last claim fell on the same local calendar day as `now`. */
  predicate ClaimedToday(u: User, now: Moment) {
    u.lastDailyBanana.Some? && u.lastDailyBanana.value.localDate == now.localDate
  }

  /** claimDailyBonus on the user's row: a subscriber collects the plan's
      daily bananas once per local calendar day. */
  function DailyBonus(u: User, now: Moment): (r: Result<Claim, Error>)
    ensures r.Failure? <==>
      IsFreeTier(u.subscription) || ClaimedToday(u, now) || !IsPaidPlan(u.subscription.value)
    ensures IsFreeTier(u.subscription) ==> r == Failure(NoActiveSubscription)
    ensures !IsFreeTier(u.subscription) && ClaimedToday(u, now) ==> r == Failure(AlreadyClaimedToday)
    ensures r.Failure? && !ClaimedToday(u, now) && !IsFreeTier(u.subscription) ==> r.error == NoDailyBonus
    ensures r.Success? ==>
      && r.value.added == PlanRate(u.subscription.value)
      && r.value.added in {4, 20, 50}
      && r.value.user.bananas == u.bananas + r.value.added
      && r.value.user.lastDailyBanana == Some(now)
      && r.value.user.(bananas := u.bananas, lastDailyBanana := u.lastDailyBanana) == u
  {
    if IsFreeTier(u.subscription) then Failure(NoActiveSubscription)
    else if ClaimedToday(u, now) then Failure(AlreadyClaimedToday)
    else
      var amount := PlanRate(u.subscription.value);
      if amount == 0 then Failure(NoDailyBonus)
      else Success(Claim(u.(bananas := u.bananas + amount, lastDailyBanana := Some(now)), amount))
  }

  /** A second claim on the same day is refused. */
  lemma DailyBonusOncePerDay(u: User, now: Moment)
    requires DailyBonus(u, now).Success?
    ensures DailyBonus(DailyBonus(u, now).value.user, now) == Failure(AlreadyClaimedToday)
  {
  }

  // ---------------------------------------------------------------- cashout

  /** Minimum cashouts of a free-tier user, by number of earlier cashouts. */
  const FreeMinimums: seq<real> := [5.0, 15.0, 50.0, 100.0, 200.0]

  /** The smallest amount a cashout may have, given the user's subscription
      and how many cashouts of theirs the table already holds. */
  function CashoutMinimum(subscription: Option<string>, priorCount: nat): (m: real)
    ensures !IsFreeTier(subscription) ==> m == 0.0
    ensures IsFreeTier(subscription) && priorCount < |FreeMinimums| ==> m == FreeMinimums[priorCount]
    ensures IsFreeTier(subscription) && priorCount >= |FreeMinimums| ==> m == 200.0
    ensures 0.0 <= m <= 200.0
  {
    if IsFreeTier(subscription) then
      if priorCount < |FreeMinimums| then FreeMinimums[priorCount] else 200.0
    else 0.0
  }

  /** The free-tier minimum never decreases as cashouts accumulate. */
  lemma CashoutMinimumMonotone(subscription: Option<string>, i: nat, j: nat)
    requires i <= j
    ensures CashoutMinimum(subscription, i) <= CashoutMinimum(subscription, j)
  {
  }

  /** The checks and the debit of createCashout on the user's row: the amount
      must be covered by the balance and reach the minimum; the balance then
      drops by exactly the amount and cannot become negative. */
  function CashoutDebit(u: User, priorCount: nat, amount: real): (r: Result<User, Error>)
    ensures r.Failure? <==> u.balance < amount || amount < CashoutMinimum(u.subscription, priorCount)
    ensures u.balance < amount ==> r == Failure(InsufficientBalance)
    ensures r.Failure? && u.balance >= amount ==> r.error == BelowMinimum(CashoutMinimum(u.subscription, priorCount))
    ensures r.Success? ==>
      && amount >= 0.0
      && r.value.balance == u.balance - amount
      && r.value.balance >= 0.0
      && r.value.(balance := u.balance) == u
  {
    if u.balance < amount then Failure(InsufficientBalance)
    else
      var minimum := CashoutMinimum(u.subscription, priorCount);
      if amount < minimum then Failure(BelowMinimum(minimum))
      else Success(u.(balance := u.balance - amount))
  }

  /** Credit back a rejected cashout's amount. */
  function Refund(u: User, amount: real): User {
    u.(balance := u.balance + amount)
  }

  /** Rejecting restores exactly what the request debited. */
  lemma RefundUndoesDebit(u: User, priorCount: nat, amount: real)
    requires CashoutDebit(u, priorCount, amount).Success?
    ensures Refund(CashoutDebit(u, priorCount, amount).value, amount) == u
  {
  }

  // ----------------------------------------------------------- subscription

  /** The user row after a subscription request for `plan` is approved: the
      plan is set, its rate is granted once as a bonus and the daily claim
      cooldown starts now. */
  function ApplySubscription(u: User, plan: string, now: Moment): (v: User)
    ensures v.subscription == Some(plan) && v.subscriptionPurchasedAt == Some(now)
    ensures v.bananas == u.bananas + PlanRate(plan) && v.lastDailyBanana == Some(now)
    ensures v.(subscription := u.subscription, subscriptionPurchasedAt := u.subscriptionPurchasedAt,
               bananas := u.bananas, lastDailyBanana := u.lastDailyBanana) == u
  {
    u.(subscription := Some(plan), subscriptionPurchasedAt := Some(now),
       bananas := u.bananas + PlanRate(plan), lastDailyBanana := Some(now))
  }

  /** The approval bonus counts as the day's claim: a claim later that day
      is refused. */
  lemma ApprovalStartsCooldown(u: User, plan: string, now: Moment)
    ensures DailyBonus(ApplySubscription(u, plan, now), now).Failure?
  {
  }

  /** Approval has no guard on the request's status, so approving again
      grants the plan's bonus a second time. */
  lemma ReapprovalPaysAgain(u: User, plan: string, first: Moment, again: Moment)
    ensures ApplySubscription(ApplySubscription(u, plan, first), plan, again).bananas
            == u.bananas + 2 * PlanRate(plan)
  {
  }

  /** On any other day an approved paid plan pays its daily rate. */
  lemma ApprovedPlanPaysNextDay(u: User, plan: string, approvedAt: Moment, later: Moment)
    requires IsPaidPlan(plan) && later.localDate != approvedAt.localDate
    ensures var r := DailyBonus(ApplySubscription(u, plan, approvedAt), later);
            r.Success? && r.value.added == PlanRate(plan)
  {
  }

  // ---------------------------------------------------------------- settings

  /** updateSettings' shallow merge: every method in the patch replaces or
      adds its entry; no entry of the current settings is removed. */
  function MergeSettings(current: map<string, PaymentMethod>, patch: map<string, PaymentMethod>)
    : (merged: map<string, PaymentMethod>)
    ensures merged.Keys == current.Keys + patch.Keys
    ensures forall k :: k in patch ==> merged[k] == patch[k]
    ensures forall k :: k in current && k !in patch ==> merged[k] == current[k]
  {
    current + patch
  }

  /** Applying the same patch twice changes nothing more. */
  lemma MergeSettingsIdempotent(current: map<string, PaymentMethod>, patch: map<string, PaymentMethod>)
    ensures MergeSettings(MergeSettings(current, patch), patch) == MergeSettings(current, patch)
  {
  }

  // -------------------------------------------------------------- user patch

  /** A partial update of a user row: the columns the clients send. A
      nullable column takes `Some(None)` to be set to NULL. */
  datatype UserPatch = UserPatch(
    bananas: Option<int>,
    eggs: Option<int>,
    balance: Option<real>,
    referrals: Option<int>,
    kycStatus: Option<string>,
    kycSubmitted: Option<bool>,
    kycSubmittedAt: Option<Option<Moment>>,
    kycDocumentUrl: Option<Option<string>>,
    kycIdType: Option<Option<string>>,
    subscription: Option<Option<string>>,
    paymentMethod: Option<Option<string>>,
    paymentName: Option<Option<string>>,
    paymentNumber: Option<Option<string>>)

  const EmptyPatch := UserPatch(None, None, None, None, None, None, None, None, None, None, None, None, None)

  function Pick<T>(update: Option<T>, current: T): T {
    if update.Some? then update.value else current
  }

  /** updateUser on one row: every column named in the patch takes the
      patch's value, the others keep theirs. */
  function ApplyPatch(u: User, p: UserPatch): (v: User)
    ensures p.bananas.Some? ==> v.bananas == p.bananas.value
    ensures p.bananas.None? ==> v.bananas == u.bananas
    ensures p.eggs.Some? ==> v.eggs == p.eggs.value
    ensures p.eggs.None? ==> v.eggs == u.eggs
    ensures p.balance.Some? ==> v.balance == p.balance.value
    ensures p.balance.None? ==> v.balance == u.balance
    ensures p.referrals.Some? ==> v.referrals == p.referrals.value
    ensures p.referrals.None? ==> v.referrals == u.referrals
    ensures p.kycStatus.Some? ==> v.kycStatus == p.kycStatus.value
    ensures p.kycStatus.None? ==> v.kycStatus == u.kycStatus
    ensures p.kycSubmitted.Some? ==> v.kycSubmitted == p.kycSubmitted.value
    ensures p.kycSubmitted.None? ==> v.kycSubmitted == u.kycSubmitted
    ensures p.kycSubmittedAt.Some? ==> v.kycSubmittedAt == p.kycSubmittedAt.value
    ensures p.kycSubmittedAt.None? ==> v.kycSubmittedAt == u.kycSubmittedAt
    ensures p.kycDocumentUrl.Some? ==> v.kycDocumentUrl == p.kycDocumentUrl.value
    ensures p.kycDocumentUrl.None? ==> v.kycDocumentUrl == u.kycDocumentUrl
    ensures p.kycIdType.Some? ==> v.kycIdType == p.kycIdType.value
    ensures p.kycIdType.None? ==> v.kycIdType == u.kycIdType
    ensures p.subscription.Some? ==> v.subscription == p.subscription.value
    ensures p.subscription.None? ==> v.subscription == u.subscription
    ensures p.paymentMethod.Some? ==> v.paymentMethod == p.paymentMethod.value
    ensures p.paymentMethod.None? ==> v.paymentMethod == u.paymentMethod
    ensures p.paymentName.Some? ==> v.paymentName == p.paymentName.value
    ensures p.paymentName.None? ==> v.paymentName == u.paymentName
    ensures p.paymentNumber.Some? ==> v.paymentNumber == p.paymentNumber.value
    ensures p.paymentNumber.None? ==> v.paymentNumber == u.paymentNumber
    ensures v.(bananas := u.bananas, eggs := u.eggs, balance := u.balance, referrals := u.referrals,
               kycStatus := u.kycStatus, kycSubmitted := u.kycSubmitted, kycSubmittedAt := u.kycSubmittedAt,
               kycDocumentUrl := u.kycDocumentUrl, kycIdType := u.kycIdType, subscription := u.subscription,
               paymentMethod := u.paymentMethod, paymentName := u.paymentName, paymentNumber := u.paymentNumber) == u
    ensures p == EmptyPatch ==> v == u
  {
    u.(bananas := Pick(p.bananas, u.bananas),
       eggs := Pick(p.eggs, u.eggs),
       balance := Pick(p.balance, u.balance),
       referrals := Pick(p.referrals, u.referrals),
       kycStatus := Pick(p.kycStatus, u.kycStatus),
       kycSubmitted := Pick(p.kycSubmitted, u.kycSubmitted),
       kycSubmittedAt := Pick(p.kycSubmittedAt, u.kycSubmittedAt),
       kycDocumentUrl := Pick(p.kycDocumentUrl, u.kycDocumentUrl),
       kycIdType := Pick(p.kycIdType, u.kycIdType),
       subscription := Pick(p.subscription, u.subscription),
       paymentMethod := Pick(p.paymentMethod, u.paymentMethod),
       paymentName := Pick(p.paymentName, u.paymentName),
       paymentNumber := Pick(p.paymentNumber, u.paymentNumber))
  }

  /** A patch that keeps the resources non-negative. */
  predicate PatchKeepsResources(p: UserPatch) {
    (p.bananas.Some? ==> p.bananas.value >= 0)
    && (p.eggs.Some? ==> p.eggs.value >= 0)
    && (p.balance.Some? ==> p.balance.value >= 0.0)
  }

  /** Bananas, eggs and balance are non-negative. */
  predicate ResourcesOk(u: User) {
    u.bananas >= 0 && u.eggs >= 0 && u.balance >= 0.0
  }

  /** Every rule that succeeds keeps a user's resources non-negative. */
  lemma RulesKeepResources(u: User, today: Date, amount: int, now: Moment, n: nat, cash: real, plan: string, p: UserPatch)
    requires ResourcesOk(u)
    ensures Feed(u, today).Success? ==> ResourcesOk(Feed(u, today).value)
    ensures Sell(u, amount).Success? ==> ResourcesOk(Sell(u, amount).value)
    ensures DailyBonus(u, now).Success? ==> ResourcesOk(DailyBonus(u, now).value.user)
    ensures CashoutDebit(u, n, cash).Success? ==> ResourcesOk(CashoutDebit(u, n, cash).value)
    ensures ResourcesOk(ApplySubscription(u, plan, now))
    ensures PatchKeepsResources(p) ==> ResourcesOk(ApplyPatch(u, p))
  {
  }
}
