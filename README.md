# Manok-batag ledger, in Dafny

Manok-batag is a small "feed the chicken" earning game. A user spends
bananas to feed a chicken, and each feed of two bananas lays one egg. Eggs
sell for balance, one peso each, and balance is withdrawn through cashout
requests that an admin approves or rejects. Paid subscriptions (basic,
premium, vip) grant a daily banana bonus and lift the free tier's
one-egg-a-day cap. A referral code earns its owner a banana once their
identity check (KYC) is approved.

All of this state lives in the SQLite store of `server/db.js`. A one-off
script, `migrate_kyc.js`, repairs the KYC data of the older JSON store.

This project models those two files:

- `ledger_types.dfy` (module `LedgerTypes`): the rows of the users, kyc,
  cashouts and subscription_requests tables, the payment-methods setting,
  clock values and the errors the operations throw.
- `ledger_rules.dfy` (module `LedgerRules`): the rules applied to one
  user row as pure functions, with the lemmas about them.
  - feeding, with the daily cap
  - selling eggs
  - the daily bonus
  - the cashout minimum schedule and debit
  - the refund
  - the subscription grant
  - the settings merge
  - partial user updates
- `ledger.dfy` (module `Ledger`): the store as a class `Store`. Its tables
  are maps from id to row, and it has one method per mutating operation of
  `server/db.js`. Each method's postcondition gives the new tables in terms
  of the old ones and of the rules. `Store.Valid()` says:
  - every row is stored under its own id;
  - bananas, eggs and balance are non-negative;
  - every cashout belongs to an existing user and has a non-negative amount.

  Every method that starts from a valid store leaves it valid, with two
  conditions. `CreateUser` keeps it only when the given bananas, eggs and
  balance are non-negative. `UpdateUser` keeps it only when the patch sets
  no negative bananas, eggs or balance.
- `migrate_kyc.dfy` (module `MigrateKyc`): the migration.
  - The orphan filter is a function on sequences, with lemmas that it only
    removes records, keeps their order and is idempotent.
  - The per-user status repair is an in-place loop over an array of users.
- `scenarios.dfy` (module `Scenarios`): short client runs whose assertions
  follow from the `Store` contracts alone:
  - feed then sell;
  - a cashout, a second one below the rising minimum, then a rejection that
    restores the balance;
  - a premium approval that grants 20 bananas and blocks the same-day claim;
  - a KYC approval;
  - a second signup with a taken e-mail, which is refused;
  - a referral code that matches regardless of case.

The environment the source reads from is passed in as parameters:

- The clock is a `Moment`. It carries the instant, its UTC calendar date
  (what `toISOString().split('T')[0]` yields) and its local calendar date
  (what `getDate`/`getMonth`/`getFullYear` compare).
- The random ids from `Math.random()` are given to each method as fresh-id
  arguments. An id that is already in use makes the insert fail with
  `ConstraintViolation`, as a PRIMARY KEY clash does, and leaves the tables
  unchanged.

## Model

| member | source | states |
|---|---|---|
| LedgerTypes.Upper | server/db.js:145 | ASCII upper-casing keeps the length and maps each character on its own |
| LedgerTypes.Lower | server/db.js:234-235 | ASCII lower-casing keeps the length and maps each character on its own |
| LedgerTypes.UpperIdempotent | server/db.js:145 | upper-casing twice equals upper-casing once, so matching codes by their upper-cased form ignores case consistently |
| LedgerRules.PlanRate | server/db.js:352-355 | a plan pays bananas iff it is basic, premium or vip; the rates are 4, 20 and 50 |
| LedgerRules.Feed | server/db.js:274-321 | refused iff fewer than 2 bananas, or a free-tier user already has an egg on this UTC day; not-enough-bananas is reported first; on success bananas -2, eggs +1, balance unchanged, the day's counter is the count so far +1 (1 on a new day) and no other column changes |
| LedgerRules.FreeTierOneEggPerDay | server/db.js:305-308 | after a successful feed, a free-tier user cannot be fed again that day |
| LedgerRules.FeedOnNewDay | server/db.js:298-303 | on a day without an egg yet, two bananas always suffice, at any tier, and the counter restarts at 1 |
| LedgerRules.SellAsWritten | server/db.js:323-339 | the sale exactly as written: refused with not enough eggs iff eggs < amount; otherwise eggs drop by amount, balance rises by amount and no other column changes |
| LedgerRules.SellAsWrittenOverdraws | server/db.js:326 | an amount of -5 passes the only guard and leaves a new user with 5 eggs and a balance of -5 |
| LedgerRules.Sell | server/db.js:323-339 | refused iff eggs < amount (not enough eggs) or amount <= 0 (invalid amount); otherwise eggs become balance one for one, eggs + balance is conserved and nothing else changes |
| LedgerRules.SellTwice | server/db.js:326 | repeating a sale that left fewer than `amount` eggs fails with not enough eggs |
| LedgerRules.DailyBonus | server/db.js:341-362 | refused iff free tier (no active subscription), already claimed this local day, or a plan with no bonus, in that order; on success adds exactly the plan's rate (4, 20 or 50), stamps the claim time and changes nothing else |
| LedgerRules.DailyBonusOncePerDay | server/db.js:347-350 | a second claim on the same local day fails with already claimed |
| LedgerRules.CashoutMinimum | server/db.js:164-173 | subscribers have minimum 0; free-tier users need 5, 15, 50, 100, 200 for their 1st to 5th cashout and 200 after that; always between 0 and 200 |
| LedgerRules.CashoutMinimumMonotone | server/db.js:165-169 | the minimum never decreases as a user's cashouts accumulate |
| LedgerRules.CashoutDebit | server/db.js:159-176 | refused iff the balance is below the amount (insufficient balance, checked first) or the amount is below the minimum (reported with the minimum); on success the amount is non-negative, the balance drops by exactly the amount, stays non-negative, and nothing else changes |
| LedgerRules.RefundUndoesDebit | server/db.js:209-211 | refunding the debited amount restores the user row exactly |
| LedgerRules.ApplySubscription | server/db.js:390-397 | approval sets the plan, the purchase time and the claim time, and adds the plan's rate once as a bonus; no other column changes |
| LedgerRules.ApprovalStartsCooldown | server/db.js:396 | after approval the daily bonus cannot be claimed the same day |
| LedgerRules.ReapprovalPaysAgain | server/db.js:390-397 | approving the same plan twice adds the plan's rate twice: nothing stops a repeated approval from paying the bonus again |
| LedgerRules.ApprovedPlanPaysNextDay | server/db.js:341-362 | on any other local day an approved paid plan pays exactly its rate |
| LedgerRules.MergeSettings | server/db.js:428-433 | the merged payment methods hold the current and the patch's keys; the patch's entries win and the other current entries are kept |
| LedgerRules.MergeSettingsIdempotent | server/db.js:430 | merging the same patch again changes nothing |
| LedgerRules.ApplyPatch | server/db.js:123-131 | each of the 13 patchable columns takes the patch's value when the patch names it and keeps its value otherwise; no other column changes, so id, e-mail and password are untouched; an empty patch leaves the row as it is |
| LedgerRules.RulesKeepResources | server/db.js:274-362 | every rule that succeeds, and any patch with non-negative resources, keeps bananas, eggs and balance non-negative |
| Ledger.CashoutsOfInsert | server/db.js:165 | inserting a cashout adds exactly that row to its owner's cashouts, so the count behind the next minimum rises by one |
| Ledger.Marked | server/db.js:230-268 | the three user updates at lines 230-235, 259-262 and 265-268: a row designated by a KYC record takes the mark's status; a submission sets submitted and the submission time; approval stamps the approval time and clears the rejection reason; rejection copies the reason; the other KYC columns and every non-KYC column keep their values |
| Ledger.MarkOwners | server/db.js:258-268 | every row whose id equals the record's userId, or whose e-mail equals it ignoring case, is marked; every other row is untouched; no row is added or removed; afterwards every designated row has the mark's status |
| Ledger.AfterReferral | server/db.js:151-155 | the referrer gains one banana and one referral and nothing else on that row changes (except referredBy on a self-referral); the new user's row changes only in recording the referrer; no other row changes, and no row is added or removed |
| Ledger.Store.constructor | server/db.js:95-104 | the tables start empty and the payment-methods setting exists |
| Ledger.Store.CreateUser | server/db.js:133-141 | fails with a constraint violation, changing nothing, iff the id, e-mail or (non-null) referral code is taken; otherwise inserts a user with KYC 'none', not submitted, not admin |
| Ledger.Store.ApplyReferral | server/db.js:143-156 | nothing happens for an empty code, an unknown code or a referrer without approved KYC; when a code matches, ignoring case, and the matching referrer is approved, that referrer is credited |
| Ledger.Store.CreateCashout | server/db.js:159-189 | user not found, insufficient balance and below minimum, in that order, with the minimum taken from the user's existing cashout count; on success, in one step, the balance is debited by the amount, a pending cashout is inserted and the count rises by one; on failure nothing changes |
| Ledger.Store.UpdateCashoutStatus | server/db.js:203-216 | approving stamps the cashout; rejecting credits its amount back to the owner and deletes it (result none); any other status changes nothing; an unknown id gives none |
| Ledger.Store.CreateKyc | server/db.js:219-238 | inserts a pending KYC record, with empty details stored as missing, and marks as pending and submitted every user whose id equals the record's userId or whose e-mail equals it ignoring case; afterwards those users' status equals the record's |
| Ledger.Store.UpdateKycStatus | server/db.js:252-271 | approving or rejecting updates the record and carries the decision to every user it designates; approval clears the rejection reason; any other status changes nothing |
| Ledger.Store.FeedChicken | server/db.js:274-321 | user not found, or the result and the new row are those of Feed on the UTC date |
| Ledger.Store.SellEggs | server/db.js:323-339 | user not found, or the result and the new row are those of Sell (the positive-amount version) |
| Ledger.Store.ClaimDailyBonus | server/db.js:341-362 | user not found, or the result and the new row are those of DailyBonus on the local date |
| Ledger.Store.CreateSubscriptionRequest | server/db.js:365-373 | inserts a pending request, with an empty receipt URL stored as missing; no other table changes |
| Ledger.Store.UpdateSubscriptionRequestStatus | server/db.js:383-400 | records the status, the reason (empty as missing) and the processing time on any existing request; an approval also applies ApplySubscription to the requester, if that user exists |
| Ledger.Store.ToggleAdmin | server/db.js:402-410 | granting sets admin, role 'admin' and the grant time; revoking clears admin, sets role 'user' and the revoke time; unknown user gives none |
| Ledger.Store.DeleteUser | server/db.js:412-421 | returns whether the user existed; if so the user and exactly their KYC, cashout and subscription rows are removed, and the remaining rows are unchanged |
| Ledger.Store.UpdateSettings | server/db.js:423-433 | the merged methods are MergeSettings of the stored (or empty) methods and the patch; they are stored only when the settings row exists |
| Ledger.Store.UpdateUser | server/db.js:123-131 | the user's row becomes ApplyPatch of the old row and the result is that row; unknown user gives none; a patch with non-negative resources keeps the store valid |
| MigrateKyc.CleanKyc | migrate_kyc.js:18-28 | keeps only records whose userId is present, non-empty, not 'undefined' and the id of an existing user; never longer than its input |
| MigrateKyc.CleanKycIsSubsequence | migrate_kyc.js:18-28 | the filter only removes records; the survivors keep their order |
| MigrateKyc.CleanKycCounts | migrate_kyc.js:18-28 | every copy of an owned record survives and no copy of any other record does |
| MigrateKyc.CleanKycIdempotent | migrate_kyc.js:18-28 | filtering the filtered list removes nothing more |
| MigrateKyc.UsersWithKyc | migrate_kyc.js:32 | holds exactly the userIds that the remaining records name |
| MigrateKyc.Reconciled | migrate_kyc.js:35-48 | a user with no remaining record who is pending or submitted falls back to 'none', not submitted; a 'none' user with a pending record becomes pending and submitted; everyone else is unchanged; afterwards only users with a record are pending or submitted |
| MigrateKyc.ReconcileUsers | migrate_kyc.js:34-49 | every user of the array is replaced by its reconciled version |
| MigrateKyc.Migrate | migrate_kyc.js:14-49 | the kept records are the filter's output; users keep their ids; every kept record is owned by a user; no user is left pending or submitted without a kept record |

## Left out

- SQLite itself is not modelled: SQL text, the connection and the schema
  creation of `init`. Tables are maps.
- The seeding of the default admin in `init` is not modelled. The settings
  row that `init` seeds is created by the `Store` constructor, but its
  contents (the gcash, maya and gotyme entries) are a parameter.
- The read-only queries are not modelled because they change no state:
  `getAllUsers`, `getUserByIdentifier`, `getUserById`, the pending and
  all-cashout, KYC and subscription listings with their sort orders, and
  `getSettings`.
- `generateReferralCode`, the random ids and `new Date()` are randomness
  and the clock. They become parameters (fresh ids and a `Moment`).
- The random fallback id of `createUser` is not modelled; `id` is always
  given.
- Balances, prices and amounts are exact reals. JavaScript floating point,
  NaN and string-to-number coercion are not modelled. Bananas and eggs are
  unbounded integers.
- Text columns holding JSON, and the timestamps as ISO strings, are not
  modelled. A timestamp is a `Moment`.
- `Upper` and `Lower` fold only ASCII letters, as SQLite's UPPER and LOWER
  do. JavaScript's Unicode `toUpperCase` and `toLowerCase` are not modelled
  for other letters.
- Concurrency is not modelled. Each method runs alone, so the transaction
  of `createCashout` is atomic by construction.
- The HTTP routes of `server/index.js`, which call the store, are not
  modelled.
- `server/index.js` calls `db.purchaseSubscription`, which `server/db.js`
  does not define. It is not part of this model.
- Ledger.Store.ApplyReferral: when several users' codes match ignoring case,
  SQLite returns the first in storage order. The model picks any one of
  them. Its contract says only which one can be credited and what crediting
  does.
- Ledger.Store.UpdateUser: the patch is a fixed set of 13 user columns:
  bananas, eggs, balance, referrals, kyc_status, kyc_submitted,
  kyc_submitted_at, kyc_document_url, kyc_id_type, subscription,
  payment_method, payment_name and payment_number. The callers in the
  repository send bananas and referrals (js/auth.js:325) and the five KYC
  columns (server/index.js:130-136). The PATCH route (server/index.js:205-210)
  forwards any body. Other keys, including id, e-mail, password and keys
  that are not columns (an SQL error in the source), are not modelled.
- Ledger.Store.SellEggs: it uses the corrected rule `Sell`, which refuses a
  non-positive amount (see Findings). The as-written rule is
  `SellAsWritten`.
- Ledger.Store.UpdateCashoutStatus: rejecting an already-approved cashout
  credits its amount back again. The model does this as the source does and
  does not forbid it.
- Ledger.Store.UpdateCashoutStatus: the `reason` argument is ignored, as it
  is in the source.
- Ledger.Store.UpdateSubscriptionRequestStatus: approving a request that
  is already decided grants the plan's bonus again, although the bonus is
  meant to be a one-time welcome credit. The source has no status check
  (server/db.js:384-398), and the model does the same (see
  `ReapprovalPaysAgain`).
- `feedChicken` computes an `isFree` flag that it never uses (it includes
  'basic'). The cap uses only the free-tier test, and so does the model.
- The store schema in `init` does not create these columns: `eggs_today`,
  `last_egg_date`, the users table's `payment_method`, `payment_name` and
  `payment_number`, the KYC detail columns, and `receipt_url`. The model
  assumes that these columns exist, as the operations that write them do.
- MigrateKyc.Migrate: the JSON file is not modelled, nor its reading,
  writing or logging. Users whose `id` or `kyc_status` is missing are not
  modelled: ids and statuses are strings, and only a KYC record's `userId`
  may be missing.

## Findings

| source | as written | input that shows it | evidently intended | confidence | as-written member | corrected member |
|---|---|---|---|---|---|---|
| server/db.js:323-339 | `sellEggs` refuses only `eggs < amount`, and the route's `!amount` guard lets every non-zero number through | a user with 0 eggs and balance 0 sells -5: afterwards eggs are 5 and balance is -5 | only a positive number of eggs can be sold, so balance never goes negative | not executed | LedgerRules.SellAsWrittenOverdraws | LedgerRules.Sell |
