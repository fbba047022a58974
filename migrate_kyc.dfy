/** The data-repair pass of migrate_kyc.js over the JSON store: drop the
    KYC records that belong to no user, then bring each user's kyc_status
    and kyc_submitted in line with the records that remain. Reading and
    writing the JSON file around it are not modelled. */
module MigrateKyc {
  import opened LedgerTypes

  /** A user object of the JSON store, reduced to the fields the pass reads
      or writes. */
  datatype JsonUser = JsonUser(id: string, email: string, kycStatus: string, kycSubmitted: bool)

  /** A KYC object of the JSON store; its userId may be missing. */
  datatype JsonKyc = JsonKyc(id: string, userId: Option<string>, status: string)

  /** The ids of the users list. */
  function UserIds(users: seq<JsonUser>): set<string> {
    set i | 0 <= i < |users| :: users[i].id
  }

  /** A record the filter keeps: it names a user (neither missing, empty nor
      the text 'undefined') and that user exists. */
  predicate Owned(k: JsonKyc, ids: set<string>) {
    k.userId.Some? && k.userId.value != "" && k.userId.value != "undefined" && k.userId.value in ids
  }

  /** The KYC cleanup: the records that are Owned, in their original
      order. */
  function CleanKyc(kyc: seq<JsonKyc>, ids: set<string>): (kept: seq<JsonKyc>)
    ensures |kept| <= |kyc|
    ensures forall i :: 0 <= i < |kept| ==> kept[i] in kyc && Owned(kept[i], ids)
  {
    if kyc == [] then []
    else if Owned(kyc[0], ids) then [kyc[0]] + CleanKyc(kyc[1..], ids)
    else CleanKyc(kyc[1..], ids)
  }

  /** `xs` is `ys` with some elements left out and the rest in order. */
  predicate SubsequenceOf<T(==)>(xs: seq<T>, ys: seq<T>)
    decreases |ys|
  {
    xs == [] || (ys != [] && if xs[0] == ys[0] then SubsequenceOf(xs[1..], ys[1..]) else SubsequenceOf(xs, ys[1..]))
  }

  /** The cleanup only removes records: the survivors keep their order. */
  lemma {:induction false} CleanKycIsSubsequence(kyc: seq<JsonKyc>, ids: set<string>)
    ensures SubsequenceOf(CleanKyc(kyc, ids), kyc)
  {
    if kyc != [] {
      CleanKycIsSubsequence(kyc[1..], ids);
      var kept := CleanKyc(kyc, ids);
      if !Owned(kyc[0], ids) && kept != [] {
        assert kept[0] != kyc[0];
      }
    }
  }

  /** The cleanup keeps every copy of an owned record and no copy of any
      other record. */
  lemma {:induction false} CleanKycCounts(kyc: seq<JsonKyc>, ids: set<string>, k: JsonKyc)
    ensures multiset(CleanKyc(kyc, ids))[k] == if Owned(k, ids) then multiset(kyc)[k] else 0
  {
    if kyc != [] {
      CleanKycCounts(kyc[1..], ids, k);
      assert kyc == [kyc[0]] + kyc[1..];
    }
  }

  /** Cleaning twice removes nothing more. */
  lemma {:induction false} CleanKycIdempotent(kyc: seq<JsonKyc>, ids: set<string>)
    ensures CleanKyc(CleanKyc(kyc, ids), ids) == CleanKyc(kyc, ids)
  {
    if kyc != [] {
      CleanKycIdempotent(kyc[1..], ids);
      if Owned(kyc[0], ids) {
        assert ([kyc[0]] + CleanKyc(kyc[1..], ids))[1..] == CleanKyc(kyc[1..], ids);
      }
    }
  }

  /** The ids the remaining records name (`usersWithKyc`). */
  function UsersWithKyc(kyc: seq<JsonKyc>): (ids: set<string>)
    ensures forall i :: 0 <= i < |kyc| && kyc[i].userId.Some? ==> kyc[i].userId.value in ids
    ensures forall id :: id in ids ==> exists i :: 0 <= i < |kyc| && kyc[i].userId == Some(id)
  {
    set i | 0 <= i < |kyc| && kyc[i].userId.Some? :: kyc[i].userId.value
  }

  /** Some remaining record of user `id` is pending (the `find`). */
  predicate HasPendingRecord(kyc: seq<JsonKyc>, id: string) {
    exists i :: 0 <= i < |kyc| && kyc[i].userId == Some(id) && kyc[i].status == "pending"
  }

  /** A user without a remaining record whose status is pending or
      submitted: falls back to none. */
  predicate FallsBackToNone(u: JsonUser, withKyc: set<string>) {
    u.id !in withKyc && (u.kycStatus == "pending" || u.kycStatus == "submitted")
  }

  /** A user whose status is none but who has a pending remaining record:
      becomes pending. */
  predicate BecomesPending(u: JsonUser, withKyc: set<string>, kyc: seq<JsonKyc>) {
    u.id in withKyc && HasPendingRecord(kyc, u.id) && u.kycStatus == "none"
  }

  /** One user after reconciliation: the two repairs above, and everyone
      else untouched. */
  function Reconciled(u: JsonUser, withKyc: set<string>, kyc: seq<JsonKyc>): (v: JsonUser)
    ensures v.id == u.id && v.email == u.email
    ensures FallsBackToNone(u, withKyc) ==> v.kycStatus == "none" && !v.kycSubmitted
    ensures BecomesPending(u, withKyc, kyc) ==> v.kycStatus == "pending" && v.kycSubmitted
    ensures !FallsBackToNone(u, withKyc) && !BecomesPending(u, withKyc, kyc) ==> v == u
    ensures (v.kycStatus == "pending" || v.kycStatus == "submitted") ==> u.id in withKyc
  {
    var hasKyc := u.id in withKyc;
    if !hasKyc && (u.kycStatus == "pending" || u.kycStatus == "submitted") then
      u.(kycStatus := "none", kycSubmitted := false)
    else if hasKyc && HasPendingRecord(kyc, u.id) && u.kycStatus == "none" then
      u.(kycStatus := "pending", kycSubmitted := true)
    else u
  }

  /** The reconciliation loop: every user of the array is reconciled in
      place against the remaining records. */
  method ReconcileUsers(users: array<JsonUser>, kyc: seq<JsonKyc>)
    modifies users
    ensures forall i :: 0 <= i < users.Length ==> users[i] == Reconciled(old(users[i]), UsersWithKyc(kyc), kyc)
  {
    var withKyc := UsersWithKyc(kyc);
    var i := 0;
    while i < users.Length
      invariant 0 <= i <= users.Length
      invariant forall j :: 0 <= j < i ==> users[j] == Reconciled(old(users[j]), withKyc, kyc)
      invariant forall j :: i <= j < users.Length ==> users[j] == old(users[j])
    {
      var u := users[i];
      var hasKyc := u.id in withKyc;
      if !hasKyc && (u.kycStatus == "pending" || u.kycStatus == "submitted") {
        users[i] := u.(kycStatus := "none", kycSubmitted := false);
      } else if hasKyc {
        if HasPendingRecord(kyc, u.id) && u.kycStatus == "none" {
          users[i] := u.(kycStatus := "pending", kycSubmitted := true);
        }
      }
      i := i + 1;
    }
  }

  /** The whole pass: clean the KYC list against the user ids, then
      reconcile the users against what is left. */
  method Migrate(users: array<JsonUser>, kyc: seq<JsonKyc>) returns (kept: seq<JsonKyc>)
    modifies users
    ensures kept == CleanKyc(kyc, UserIds(old(users[..])))
    ensures forall i :: 0 <= i < users.Length ==> users[i] == Reconciled(old(users[i]), UsersWithKyc(kept), kept)
    ensures UserIds(users[..]) == UserIds(old(users[..]))
    ensures forall i :: 0 <= i < |kept| ==> Owned(kept[i], UserIds(users[..]))
    ensures forall i :: 0 <= i < users.Length && (users[i].kycStatus == "pending" || users[i].kycStatus == "submitted")
              ==> exists j :: 0 <= j < |kept| && kept[j].userId == Some(users[i].id)
  {
    kept := CleanKyc(kyc, UserIds(users[..]));
    ReconcileUsers(users, kept);
    assert forall i :: 0 <= i < users.Length ==> users[..][i].id == old(users[..])[i].id;
    assert UserIds(users[..]) == UserIds(old(users[..]));
  }
}
