/** End-to-end runs of the ledger that a caller can predict from the Store's
    contracts alone: the verifier checks each assertion without looking at
    any method body. */
module Scenarios {
  import opened LedgerTypes
  import opened LedgerRules
  import opened Ledger

  /** A store holding the given users and nothing else. */
  method StoreWith(users: map<string, User>) returns (s: Store)
    requires forall id :: id in users ==> users[id].id == id && ResourcesOk(users[id])
    ensures fresh(s) && s.Valid()
    ensures s.users == users && s.kyc == map[] && s.cashouts == map[] && s.subscriptionRequests == map[]
  {
    s := new Store(map[]);
    s.users := users;
  }

  /** A user with 4 bananas feeds the chicken and sells the egg; a free-tier
      user cannot feed twice the same day, nor sell an egg twice. */
  method FeedThenSell(now: Moment) {
    var s := StoreWith(map["u1" := NewUser("u1", "a@example.com", "pw", 4, 0, 0.0, None, None, now)]);
    var f := s.FeedChicken("u1", now);
    assert f.Success? && s.users["u1"].bananas == 2 && s.users["u1"].eggs == 1;
    var f2 := s.FeedChicken("u1", now);
    assert f2 == Failure(DailyEggLimitReached) && s.users["u1"].bananas == 2;
    var sold := s.SellEggs("u1", 1);
    assert sold.Success? && s.users["u1"].eggs == 0 && s.users["u1"].balance == 1.0;
    var again := s.SellEggs("u1", 1);
    assert again == Failure(NotEnoughEggs);
  }

  /** Signing up twice with the same e-mail is refused. */
  method DuplicateEmail(now: Moment) {
    var s := new Store(map[]);
    var c := s.CreateUser("u1", "a@example.com", "pw", 0, 0, 0.0, None, None, now);
    assert c.Success?;
    var d := s.CreateUser("u2", "a@example.com", "pw", 0, 0, 0.0, None, None, now);
    assert d == Failure(ConstraintViolation) && "u2" !in s.users;
  }

  /** A free-tier user with balance 30 requests 5, the first minimum; a
      second request of 10 is below the second minimum of 15 and changes
      nothing. */
  method CashoutMinimumRises(now: Moment) {
    var s := StoreWith(map["u1" := NewUser("u1", "a@example.com", "pw", 0, 0, 30.0, None, None, now)]);
    assert CashoutsOf(s.cashouts, "u1") == {};
    var co := s.CreateCashout("u1", 5.0, Some("gcash"), Some("0917"), "c1", now);
    assert co.Success? && s.users["u1"].balance == 25.0;
    assert |CashoutsOf(s.cashouts, "u1")| == 1;
    assert CashoutDebit(s.users["u1"], 1, 10.0) == Failure(BelowMinimum(15.0));
    var co2 := s.CreateCashout("u1", 10.0, Some("gcash"), Some("0917"), "c2", now);
    assert co2 == Failure(BelowMinimum(15.0)) && s.users["u1"].balance == 25.0;
  }

  /** Rejecting a pending cashout restores the balance exactly and deletes
      the request. */
  method CashoutThenReject(now: Moment) {
    var s := StoreWith(map["u1" := NewUser("u1", "a@example.com", "pw", 0, 0, 30.0, None, None, now)]);
    assert CashoutsOf(s.cashouts, "u1") == {};
    var co := s.CreateCashout("u1", 5.0, Some("gcash"), Some("0917"), "c1", now);
    assert co.Success? && s.users["u1"].balance == 25.0 && s.cashouts["c1"].status == Pending;
    var r := s.UpdateCashoutStatus("c1", Rejected, None, now);
    assert r == None && s.users["u1"].balance == 30.0 && "c1" !in s.cashouts;
  }

  /** Approving a premium request for a user with no bananas grants the
      plan and 20 bananas, and the day's claim is already used. */
  method ApprovePremium(now: Moment) {
    var s := StoreWith(map["u1" := NewUser("u1", "a@example.com", "pw", 0, 0, 0.0, None, None, now)]);
    var q := s.CreateSubscriptionRequest("u1", "premium", 100.0, Some("gcash"), Some("REF1"), None, "r1", now);
    assert q.Success?;
    var d := s.UpdateSubscriptionRequestStatus("r1", Approved, None, now);
    assert d.Some? && d.value.status == Approved;
    assert s.users["u1"].subscription == Some("premium") && s.users["u1"].bananas == 20;
    var claim := s.ClaimDailyBonus("u1", now);
    assert claim == Failure(AlreadyClaimedToday);
  }

  /** Uploading a KYC document and approving it marks its owner approved. */
  method ApproveKyc(now: Moment) {
    var s := StoreWith(map["u1" := NewUser("u1", "ref@example.com", "pw", 0, 0, 0.0, None, None, now)]);
    var k := s.CreateKyc("u1", "id.png", "uploads/kyc/id.png", KycDetails(None, None, None, None), "k1", now);
    assert k.Success? && s.users["u1"].kycStatus == Pending;
    var a := s.UpdateKycStatus("k1", Approved, None, now);
    assert s.users["u1"].kycStatus == Approved;
  }

  /** A referrer whose KYC is approved owns code ABC123; a new user who
      cites abc123 credits them one banana and one referral. */
  method ReferralIgnoresCase(now: Moment) {
    var referrer := NewUser("u1", "ref@example.com", "pw", 0, 0, 0.0, Some("ABC123"), None, now).(kycStatus := Approved);
    var newcomer := NewUser("u2", "new@example.com", "pw", 0, 0, 0.0, None, None, now);
    var s := StoreWith(map["u1" := referrer, "u2" := newcomer]);
    assert Upper("abc123") == Upper("ABC123");
    assert CodeMatches(s.users["u1"], "abc123") && !CodeMatches(s.users["u2"], "abc123");
    assert forall id :: id in s.users && CodeMatches(s.users[id], "abc123") ==> id == "u1";
    var credited := s.ApplyReferral("abc123", "u2");
    assert credited == Some("u1");
    assert s.users["u1"].bananas == 1 && s.users["u1"].referrals == 1;
    assert s.users["u2"].referredBy == Some("u1");
  }
}
