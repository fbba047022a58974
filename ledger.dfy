/** The store of server/db.js as an object whose tables are maps from id to
    row, with one method per mutating operation. Each method reads the rows
    it needs, checks them and writes back, as the source's SQL statements
    do; its postcondition gives the new tables in terms of the old ones and
    of the rules in LedgerRules, and every method keeps Valid(). */
module Ledger {
  import opened LedgerTypes
  import opened LedgerRules

  /** The users a KYC record's userId designates: the user with that id and
      any user whose e-mail equals it ignoring case. */
  predicate KycOwner(u: User, userId: string) {
    u.id == userId || Lower(u.email) == Lower(userId)
  }

  /** The user's referral code equals `code` ignoring case. */
  predicate CodeMatches(u: User, code: string) {
    u.referralCode.Some? && Upper(u.referralCode.value) == Upper(code)
  }

  predicate EmailTaken(users: map<string, User>, email: string) {
    exists id :: id in users && users[id].email == email
  }

  /** A non-null referral code already stored (NULLs never collide). */
  predicate CodeTaken(users: map<string, User>, code: Option<string>) {
    code.Some? && exists id :: id in users && users[id].referralCode == code
  }

  /** The cashout rows that belong to `userId`. */
  function CashoutsOf(cashouts: map<string, Cashout>, userId: string): set<string> {
    set id | id in cashouts && cashouts[id].userId == userId
  }

  /** Inserting a cashout adds exactly that row to its owner's cashouts,
      so the count that sets the next minimum rises by one. */
  lemma CashoutsOfInsert(cashouts: map<string, Cashout>, c: Cashout)
    requires c.id !in cashouts
    ensures CashoutsOf(cashouts[c.id := c], c.userId) == CashoutsOf(cashouts, c.userId) + {c.id}
    ensures |CashoutsOf(cashouts[c.id := c], c.userId)| == |CashoutsOf(cashouts, c.userId)| + 1
  {
    assert CashoutsOf(cashouts[c.id := c], c.userId) == CashoutsOf(cashouts, c.userId) + {c.id};
  }

  /** What a KYC submission or decision writes into each user row the
      record designates. */
  datatype KycMark = MarkPending(at: Moment) | MarkApproved(at: Moment) | MarkRejected(reason: Option<string>)
  {
    /** The kyc_status the marked rows take. */
    function Status(): string {
      match this
      case MarkPending(_) => Pending
      case MarkApproved(_) => Approved
      case MarkRejected(_) => Rejected
    }
  }

  /** One designated user row after the mark: the status becomes the mark's
      and only the KYC columns change. */
  function Marked(u: User, m: KycMark): (v: User)
    ensures v.kycStatus == m.Status()
    ensures v.(kycStatus := u.kycStatus, kycSubmitted := u.kycSubmitted, kycSubmittedAt := u.kycSubmittedAt,
               kycApprovedAt := u.kycApprovedAt, kycRejectionReason := u.kycRejectionReason) == u
    ensures m.MarkPending? ==>
      && v.kycSubmitted && v.kycSubmittedAt == Some(m.at)
      && v.kycApprovedAt == u.kycApprovedAt && v.kycRejectionReason == u.kycRejectionReason
    ensures m.MarkApproved? ==>
      && v.kycApprovedAt == Some(m.at) && v.kycRejectionReason == None
      && v.kycSubmitted == u.kycSubmitted && v.kycSubmittedAt == u.kycSubmittedAt
    ensures m.MarkRejected? ==>
      && v.kycRejectionReason == m.reason
      && v.kycSubmitted == u.kycSubmitted && v.kycSubmittedAt == u.kycSubmittedAt && v.kycApprovedAt == u.kycApprovedAt
  {
    match m
    case MarkPending(at) => u.(kycStatus := Pending, kycSubmitted := true, kycSubmittedAt := Some(at))
    case MarkApproved(at) => u.(kycStatus := Approved, kycApprovedAt := Some(at), kycRejectionReason := None)
    case MarkRejected(reason) => u.(kycStatus := Rejected, kycRejectionReason := reason)
  }

  /** The users table after an update of every row whose id is `userId` or
      whose e-mail equals it ignoring case: those rows are marked, the others
      are untouched, and afterwards every designated row carries the mark's
      status. */
  function MarkOwners(users: map<string, User>, userId: string, m: KycMark): (r: map<string, User>)
    ensures r.Keys == users.Keys
    ensures forall id :: id in users && !KycOwner(users[id], userId) ==> r[id] == users[id]
    ensures forall id :: id in users && KycOwner(users[id], userId) ==> r[id] == Marked(users[id], m)
    ensures forall id :: id in r && KycOwner(r[id], userId) ==> r[id].kycStatus == m.Status()
    ensures forall id :: id in users ==> r[id].id == users[id].id
    ensures forall id :: id in users && ResourcesOk(users[id]) ==> ResourcesOk(r[id])
  {
    map id | id in users :: if KycOwner(users[id], userId) then Marked(users[id], m) else users[id]
  }

  /** The users table after a referral by `ref` is recorded: the referrer
      gains a banana and a referral, the new user points at the referrer,
      and no other row changes. */
  function AfterReferral(users: map<string, User>, ref: string, newUserId: string): (r: map<string, User>)
    requires ref in users
    ensures r.Keys == users.Keys
    ensures r[ref].bananas == users[ref].bananas + 1 && r[ref].referrals == users[ref].referrals + 1
    ensures r[ref].(bananas := users[ref].bananas, referrals := users[ref].referrals,
                    referredBy := users[ref].referredBy) == users[ref]
    ensures newUserId != ref ==> r[ref].referredBy == users[ref].referredBy
    ensures newUserId in users ==> r[newUserId].referredBy == Some(ref)
    ensures newUserId in users && newUserId != ref ==> r[newUserId] == users[newUserId].(referredBy := Some(ref))
    ensures forall id :: id in users && id != ref && id != newUserId ==> r[id] == users[id]
    ensures forall id :: id in users ==> r[id].id == users[id].id
    ensures forall id :: id in users && ResourcesOk(users[id]) ==> ResourcesOk(r[id])
  {
    var referrer := users[ref];
    var credited := users[ref := referrer.(bananas := referrer.bananas + 1, referrals := referrer.referrals + 1)];
    if newUserId in credited then credited[newUserId := credited[newUserId].(referredBy := Some(ref))]
    else credited
  }

  /** Every row is stored under its own id, every user's resources are
      non-negative, and every cashout belongs to an existing user and holds
      a non-negative amount. */
  ghost predicate TablesValid(users: map<string, User>, kyc: map<string, Kyc>, cashouts: map<string, Cashout>,
                              subscriptionRequests: map<string, SubscriptionRequest>)
  {
    && (forall id :: id in users ==> users[id].id == id && ResourcesOk(users[id]))
    && (forall id :: id in kyc ==> kyc[id].id == id)
    && (forall id :: id in cashouts ==>
          cashouts[id].id == id && cashouts[id].userId in users && cashouts[id].amount >= 0.0)
    && (forall id :: id in subscriptionRequests ==> subscriptionRequests[id].id == id)
  }

  /** Debiting an existing user and inserting a cashout of theirs keeps the
      tables valid. */
  lemma CashoutInsertKeepsValid(users: map<string, User>, kyc: map<string, Kyc>, cashouts: map<string, Cashout>,
                                subscriptionRequests: map<string, SubscriptionRequest>, v: User, c: Cashout)
    requires TablesValid(users, kyc, cashouts, subscriptionRequests)
    requires v.id in users && ResourcesOk(v) && c.userId in users && c.amount >= 0.0
    ensures TablesValid(users[v.id := v], kyc, cashouts[c.id := c], subscriptionRequests)
  {
  }

  class Store {
    var users: map<string, User>
    var kyc: map<string, Kyc>
    var cashouts: map<string, Cashout>
    var subscriptionRequests: map<string, SubscriptionRequest>
    /** The payment_methods settings row, if it exists. */
    var paymentMethods: Option<map<string, PaymentMethod>>

    /** The tables satisfy TablesValid. */
    ghost predicate Valid()
      reads this
    {
      TablesValid(users, kyc, cashouts, subscriptionRequests)
    }

    /** Empty tables and the seeded payment_methods settings row. */
    constructor (methods: map<string, PaymentMethod>)
      ensures Valid()
      ensures users == map[] && kyc == map[] && cashouts == map[] && subscriptionRequests == map[]
      ensures paymentMethods == Some(methods)
    {
      users, kyc, cashouts, subscriptionRequests := map[], map[], map[], map[];
      paymentMethods := Some(methods);
    }

    /** createUser: insert a fresh user; the insert fails on a taken id,
        e-mail or referral code. */
    method CreateUser(id: string, email: string, password: string, bananas: int, eggs: int, balance: real,
                      referralCode: Option<string>, referredBy: Option<string>, now: Moment)
      returns (r: Result<User, Error>)
      requires Valid()
      modifies this`users
      ensures r.Failure? <==> id in old(users) || EmailTaken(old(users), email) || CodeTaken(old(users), referralCode)
      ensures r.Failure? ==> r.error == ConstraintViolation && users == old(users)
      ensures r.Success? ==>
        && r.value == NewUser(id, email, password, bananas, eggs, balance, referralCode, referredBy, now)
        && r.value.kycStatus == "none" && !r.value.kycSubmitted && !r.value.isAdmin
        && users == old(users)[id := r.value]
      ensures bananas >= 0 && eggs >= 0 && balance >= 0.0 ==> Valid()
    {
      if id in users || EmailTaken(users, email) || CodeTaken(users, referralCode) {
        return Failure(ConstraintViolation);
      }
      var u := NewUser(id, email, password, bananas, eggs, balance, referralCode, referredBy, now);
      users := users[id := u];
      r := Success(u);
    }

    /** applyReferral: credit the user whose referral code matches `code`,
        if that user's KYC is approved, and record them as the new user's
        referrer. `credited` is the referrer credited, if any. */
    method ApplyReferral(code: string, newUserId: string) returns (credited: Option<string>)
      requires Valid()
      modifies this`users
      ensures Valid()
      ensures code == "" ==> credited == None
      ensures (forall id :: id in old(users) && CodeMatches(old(users)[id], code) ==> old(users)[id].kycStatus != Approved)
              ==> credited == None
      ensures code != "" && (exists id :: id in old(users) && CodeMatches(old(users)[id], code))
              && (forall id :: id in old(users) && CodeMatches(old(users)[id], code) ==> old(users)[id].kycStatus == Approved)
              ==> credited.Some?
      ensures credited.None? ==> users == old(users)
      ensures credited.Some? ==>
        && credited.value in old(users)
        && CodeMatches(old(users)[credited.value], code)
        && old(users)[credited.value].kycStatus == Approved
        && users == AfterReferral(old(users), credited.value, newUserId)
    {
      credited := None;
      if code == "" {
        return;
      }
      if !exists id :: id in users && CodeMatches(users[id], code) {
        return;
      }
      var ref :| ref in users && CodeMatches(users[ref], code);
      if users[ref].kycStatus != Approved {
        return;
      }
      users := AfterReferral(users, ref, newUserId);
      credited := Some(ref);
    }

    /** createCashout: check the balance and the minimum, then debit the
        amount and insert a pending request, both or neither. */
    method CreateCashout(userId: string, amount: real, payMethod: Option<string>, details: Option<string>,
                         cid: string, now: Moment) returns (r: Result<Cashout, Error>)
      requires Valid()
      modifies this`users, this`cashouts
      ensures Valid()
      ensures userId !in old(users) ==> r == Failure(UserNotFound)
      ensures userId in old(users) ==>
        var debit := CashoutDebit(old(users)[userId], |CashoutsOf(old(cashouts), userId)|, amount);
        && (debit.Failure? ==> r == Failure(debit.error))
        && (debit.Success? && cid in old(cashouts) ==> r == Failure(ConstraintViolation))
        && (debit.Success? && cid !in old(cashouts) ==>
              && r == Success(Cashout(cid, userId, payMethod, details, amount, Pending, now, None))
              && users == old(users)[userId := debit.value])
      ensures r.Success? ==>
        && cashouts == old(cashouts)[cid := r.value]
        && users[userId].balance == old(users)[userId].balance - amount
        && |CashoutsOf(cashouts, userId)| == |CashoutsOf(old(cashouts), userId)| + 1
      ensures r.Failure? ==> users == old(users) && cashouts == old(cashouts)
    {
      if userId !in users {
        return Failure(UserNotFound);
      }
      var debit := CashoutDebit(users[userId], |CashoutsOf(cashouts, userId)|, amount);
      if debit.Failure? {
        return Failure(debit.error);
      }
      if cid in cashouts {
        return Failure(ConstraintViolation);
      }
      var c := Cashout(cid, userId, payMethod, details, amount, Pending, now, None);
      CashoutsOfInsert(cashouts, c);
      CashoutInsertKeepsValid(users, kyc, cashouts, subscriptionRequests, debit.value, c);
      users := users[userId := debit.value];
      cashouts := cashouts[cid := c];
      r := Success(c);
    }

    /** updateCashoutStatus: approving stamps the request; rejecting credits
        its amount back to the owner and deletes it; any other status
        changes nothing. The result is the request as stored afterwards.
        `reason` is accepted and ignored, as in the source. */
    method UpdateCashoutStatus(id: string, status: string, reason: Option<string>, now: Moment)
      returns (r: Option<Cashout>)
      requires Valid()
      modifies this`users, this`cashouts
      ensures Valid()
      ensures id !in old(cashouts) ==> r == None && users == old(users) && cashouts == old(cashouts)
      ensures id in old(cashouts) && status == Approved ==>
        var c := old(cashouts)[id].(status := Approved, approvedAt := Some(now));
        cashouts == old(cashouts)[id := c] && users == old(users) && r == Some(c)
      ensures id in old(cashouts) && status == Rejected ==>
        var c := old(cashouts)[id];
        && cashouts == old(cashouts) - {id} && r == None
        && users == old(users)[c.userId := Refund(old(users)[c.userId], c.amount)]
        && users[c.userId].balance == old(users)[c.userId].balance + c.amount
      ensures id in old(cashouts) && status != Approved && status != Rejected ==>
        r == Some(old(cashouts)[id]) && users == old(users) && cashouts == old(cashouts)
    {
      if id !in cashouts {
        return None;
      }
      var c := cashouts[id];
      if status == Approved {
        cashouts := cashouts[id := c.(status := Approved, approvedAt := Some(now))];
      } else if status == Rejected {
        if c.userId in users {
          users := users[c.userId := Refund(users[c.userId], c.amount)];
        }
        cashouts := cashouts - {id};
      }
      r := if id in cashouts then Some(cashouts[id]) else None;
    }

    /** createKyc: insert a pending KYC record and mark every user it
        designates as pending and submitted. */
    method CreateKyc(userId: string, filename: string, filepath: string, details: KycDetails,
                     kid: string, now: Moment) returns (r: Result<Kyc, Error>)
      requires Valid()
      modifies this`users, this`kyc
      ensures Valid()
      ensures kid in old(kyc) ==> r == Failure(ConstraintViolation) && users == old(users) && kyc == old(kyc)
      ensures kid !in old(kyc) ==>
        && r == Success(Kyc(kid, userId, filename, filepath, Pending, now, None, None, None, None,
                            KycDetails(NonEmpty(details.firstName), NonEmpty(details.lastName),
                                       NonEmpty(details.address), NonEmpty(details.birthdate))))
        && kyc == old(kyc)[kid := r.value]
        && users == MarkOwners(old(users), userId, MarkPending(now))
      ensures r.Success? ==>
        forall id :: id in users && KycOwner(users[id], r.value.userId) ==> users[id].kycStatus == r.value.status
    {
      if kid in kyc {
        return Failure(ConstraintViolation);
      }
      var k := Kyc(kid, userId, filename, filepath, Pending, now, None, None, None, None,
                   KycDetails(NonEmpty(details.firstName), NonEmpty(details.lastName),
                              NonEmpty(details.address), NonEmpty(details.birthdate)));
      kyc := kyc[kid := k];
      users := MarkOwners(users, userId, MarkPending(now));
      r := Success(k);
    }

    /** updateKycStatus: approve or reject a KYC record and carry the
        decision over to every user it designates; any other status changes
        nothing. */
    method UpdateKycStatus(id: string, status: string, reason: Option<string>, now: Moment)
      returns (r: Option<Kyc>)
      requires Valid()
      modifies this`users, this`kyc
      ensures Valid()
      ensures id !in old(kyc) ==> r == None && users == old(users) && kyc == old(kyc)
      ensures id in old(kyc) && status == Approved ==>
        var k := old(kyc)[id].(status := Approved, approvedAt := Some(now));
        kyc == old(kyc)[id := k] && r == Some(k) && users == MarkOwners(old(users), k.userId, MarkApproved(now))
      ensures id in old(kyc) && status == Rejected ==>
        var k := old(kyc)[id].(status := Rejected, rejectedAt := Some(now), rejectionReason := reason);
        kyc == old(kyc)[id := k] && r == Some(k) && users == MarkOwners(old(users), k.userId, MarkRejected(reason))
      ensures id in old(kyc) && status != Approved && status != Rejected ==>
        r == Some(old(kyc)[id]) && users == old(users) && kyc == old(kyc)
      ensures id in old(kyc) && (status == Approved || status == Rejected) ==>
        forall uid :: uid in users && KycOwner(users[uid], kyc[id].userId) ==> users[uid].kycStatus == kyc[id].status
    {
      if id !in kyc {
        return None;
      }
      var k := kyc[id];
      if status == Approved {
        kyc := kyc[id := k.(status := Approved, approvedAt := Some(now))];
        users := MarkOwners(users, k.userId, MarkApproved(now));
      } else if status == Rejected {
        kyc := kyc[id := k.(status := Rejected, rejectedAt := Some(now), rejectionReason := reason)];
        users := MarkOwners(users, k.userId, MarkRejected(reason));
      }
      r := Some(kyc[id]);
    }

    /** feedChicken: two bananas become an egg, within the free tier's daily
        cap. */
    method FeedChicken(userId: string, now: Moment) returns (r: Result<User, Error>)
      requires Valid()
      modifies this`users
      ensures Valid()
      ensures userId !in old(users) ==> r == Failure(UserNotFound)
      ensures userId in old(users) ==> r == Feed(old(users)[userId], now.utcDate)
      ensures users == if r.Success? then old(users)[userId := r.value] else old(users)
    {
      if userId !in users {
        return Failure(UserNotFound);
      }
      var fed := Feed(users[userId], now.utcDate);
      if fed.Success? {
        users := users[userId := fed.value];
      }
      r := fed;
    }

    /** sellEggs, with the amount required to be positive: eggs become
        balance one for one. */
    method SellEggs(userId: string, amount: int) returns (r: Result<User, Error>)
      requires Valid()
      modifies this`users
      ensures Valid()
      ensures userId !in old(users) ==> r == Failure(UserNotFound)
      ensures userId in old(users) ==> r == Sell(old(users)[userId], amount)
      ensures users == if r.Success? then old(users)[userId := r.value] else old(users)
    {
      if userId !in users {
        return Failure(UserNotFound);
      }
      var sold := Sell(users[userId], amount);
      if sold.Success? {
        users := users[userId := sold.value];
      }
      r := sold;
    }

    /** claimDailyBonus: a subscriber's daily bananas, once per local day. */
    method ClaimDailyBonus(userId: string, now: Moment) returns (r: Result<Claim, Error>)
      requires Valid()
      modifies this`users
      ensures Valid()
      ensures userId !in old(users) ==> r == Failure(UserNotFound)
      ensures userId in old(users) ==> r == DailyBonus(old(users)[userId], now)
      ensures users == if r.Success? then old(users)[userId := r.value.user] else old(users)
    {
      if userId !in users {
        return Failure(UserNotFound);
      }
      var claimed := DailyBonus(users[userId], now);
      if claimed.Success? {
        users := users[userId := claimed.value.user];
      }
      r := claimed;
    }

    /** createSubscriptionRequest: insert a pending request; nothing else
        changes until an admin decides it. */
    method CreateSubscriptionRequest(userId: string, plan: string, price: real, payMethod: Option<string>,
                                     refNumber: Option<string>, receiptUrl: Option<string>, rid: string, now: Moment)
      returns (r: Result<SubscriptionRequest, Error>)
      requires Valid()
      modifies this`subscriptionRequests
      ensures Valid()
      ensures rid in old(subscriptionRequests) ==>
        r == Failure(ConstraintViolation) && subscriptionRequests == old(subscriptionRequests)
      ensures rid !in old(subscriptionRequests) ==>
        && r == Success(SubscriptionRequest(rid, userId, plan, price, payMethod, refNumber, NonEmpty(receiptUrl),
                                            Pending, now, None, None))
        && subscriptionRequests == old(subscriptionRequests)[rid := r.value]
    {
      if rid in subscriptionRequests {
        return Failure(ConstraintViolation);
      }
      var q := SubscriptionRequest(rid, userId, plan, price, payMethod, refNumber, NonEmpty(receiptUrl),
                                   Pending, now, None, None);
      subscriptionRequests := subscriptionRequests[rid := q];
      r := Success(q);
    }

    /** updateSubscriptionRequestStatus: record the decision on the request;
        an approval also grants the plan and its one-time bonus to the
        requesting user, in the same step. */
    method UpdateSubscriptionRequestStatus(id: string, status: string, reason: Option<string>, now: Moment)
      returns (r: Option<SubscriptionRequest>)
      requires Valid()
      modifies this`users, this`subscriptionRequests
      ensures Valid()
      ensures id !in old(subscriptionRequests) ==>
        r == None && users == old(users) && subscriptionRequests == old(subscriptionRequests)
      ensures id in old(subscriptionRequests) ==>
        var q := old(subscriptionRequests)[id].(status := status, rejectionReason := NonEmpty(reason),
                                                 processedAt := Some(now));
        && subscriptionRequests == old(subscriptionRequests)[id := q] && r == Some(q)
        && users == if status == Approved && q.userId in old(users)
                    then old(users)[q.userId := ApplySubscription(old(users)[q.userId], q.plan, now)]
                    else old(users)
    {
      if id !in subscriptionRequests {
        return None;
      }
      var q := subscriptionRequests[id];
      q := q.(status := status, rejectionReason := NonEmpty(reason), processedAt := Some(now));
      subscriptionRequests := subscriptionRequests[id := q];
      if status == Approved && q.userId in users {
        users := users[q.userId := ApplySubscription(users[q.userId], q.plan, now)];
      }
      r := Some(q);
    }

    /** toggleAdmin: grant or revoke admin rights, stamping when. */
    method ToggleAdmin(userId: string, isAdmin: bool, now: Moment) returns (r: Option<User>)
      requires Valid()
      modifies this`users
      ensures Valid()
      ensures userId !in old(users) ==> r == None && users == old(users)
      ensures userId in old(users) ==>
        var u := old(users)[userId];
        var v := if isAdmin then u.(isAdmin := true, role := "admin", adminGrantedAt := Some(now))
                 else u.(isAdmin := false, role := "user", adminRevokedAt := Some(now));
        users == old(users)[userId := v] && r == Some(v)
      ensures r.Some? ==> r.value.isAdmin == isAdmin && r.value.role == (if isAdmin then "admin" else "user")
    {
      if userId !in users {
        return None;
      }
      var u := users[userId];
      if isAdmin {
        u := u.(isAdmin := true, role := "admin", adminGrantedAt := Some(now));
      } else {
        u := u.(isAdmin := false, role := "user", adminRevokedAt := Some(now));
      }
      users := users[userId := u];
      r := Some(u);
    }

    /** deleteUser: remove the user and, when there was one, every KYC,
        cashout and subscription request row that belongs to it. */
    method DeleteUser(id: string) returns (deleted: bool)
      requires Valid()
      modifies this`users, this`kyc, this`cashouts, this`subscriptionRequests
      ensures Valid()
      ensures deleted == (id in old(users))
      ensures !deleted ==> users == old(users) && kyc == old(kyc) && cashouts == old(cashouts)
                           && subscriptionRequests == old(subscriptionRequests)
      ensures deleted ==> users == old(users) - {id}
      ensures deleted ==> forall k :: k in kyc <==> k in old(kyc) && old(kyc)[k].userId != id
      ensures deleted ==> forall k :: k in cashouts <==> k in old(cashouts) && old(cashouts)[k].userId != id
      ensures deleted ==> forall k :: k in subscriptionRequests <==>
                            k in old(subscriptionRequests) && old(subscriptionRequests)[k].userId != id
      ensures forall k :: k in kyc ==> kyc[k] == old(kyc)[k]
      ensures forall k :: k in cashouts ==> cashouts[k] == old(cashouts)[k]
      ensures forall k :: k in subscriptionRequests ==> subscriptionRequests[k] == old(subscriptionRequests)[k]
    {
      deleted := id in users;
      if deleted {
        users := users - {id};
        kyc := map k | k in kyc && kyc[k].userId != id :: kyc[k];
        cashouts := map k | k in cashouts && cashouts[k].userId != id :: cashouts[k];
        subscriptionRequests := map k | k in subscriptionRequests && subscriptionRequests[k].userId != id
                                  :: subscriptionRequests[k];
      }
    }

    /** updateSettings: shallow-merge the patch into the payment methods.
        The merge is returned even when there is no settings row to store
        it in. */
    method UpdateSettings(patch: Option<map<string, PaymentMethod>>) returns (merged: map<string, PaymentMethod>)
      requires Valid()
      modifies this`paymentMethods
      ensures Valid()
      ensures merged == MergeSettings(old(paymentMethods).GetOr(map[]), patch.GetOr(map[]))
      ensures paymentMethods == if old(paymentMethods).Some? then Some(merged) else None
    {
      var current := paymentMethods.GetOr(map[]);
      merged := current + patch.GetOr(map[]);
      if paymentMethods.Some? {
        paymentMethods := Some(merged);
      }
    }

    /** updateUser: apply a partial update to the user's row; the user
        afterwards, or None when there is no such user. */
    method UpdateUser(id: string, patch: UserPatch) returns (r: Option<User>)
      requires Valid()
      modifies this`users
      ensures id !in old(users) ==> r == None && users == old(users)
      ensures id in old(users) ==> users == old(users)[id := ApplyPatch(old(users)[id], patch)] && r == Some(users[id])
      ensures PatchKeepsResources(patch) ==> Valid()
    {
      if patch == EmptyPatch {
        return if id in users then Some(users[id]) else None;
      }
      if id in users {
        users := users[id := ApplyPatch(users[id], patch)];
      }
      r := if id in users then Some(users[id]) else None;
    }
  }
}
