# Liquid Gold wallet core, in Dafny

A model of the money and gamification core of the Liquid Gold Flask
wallet (`app.py`). It covers these parts:

- the xp-to-tier rule of `User.award_xp`;
- the login-streak branch of the OAuth callback;
- the JSON handlers that move money or rows:
  - deposit, withdraw and transfer;
  - savings goals (create, deposit, withdraw, delete);
  - contacts (add, delete);
  - scheduled payments (create, delete);
  - split bills (create, pay);
- account deletion, with the cascades of the `User` relationships.

Money is integer paise. Dates are integer day numbers. The database is a
value of type `Bank.Db`: a map of users plus one sequence per table, and
the next free id.

The modules are:

- `Gamification`: tiers, the tier-selection loop of `award_xp`, the login
  streak rule and the goal-achieved bonus.
- `Money`: the limits and the transfer fee.
- `Records`: the rows of the tables the handlers touch.
- `Tables`: `.first()` lookups, filtered deletes, the lookup by email or
  account number, and sums over tables.
- `Books`: what the denormalised user columns summarise. These are the
  savings held in goals, `total_sent`, `total_received`,
  `total_txn_count`, and a user's unpaid shares.
- `Bank`: the database, the per-table lookups the handlers make, and two
  invariants:
  - `Consistent`: balances are non-negative, tiers follow xp, ledger
    entries name live users, savings equal what goals hold, contacts are
    unique and shares are non-negative;
  - `Reconciled`: the running totals agree with the transactions table.
- `Api`: each handler as a function from the database before a request
  to the database after it plus the answer. An error answer leaves the
  database unchanged, because every error path returns before
  `db.session.commit()`.
- `Safety`: every handler keeps `Consistent` and does not lower xp. Every
  handler except account deletion keeps `Reconciled`.
- `Partners`: properties relating two requests (inverses, "only once",
  idempotence).
- `Wallet`: class `Ledger`. Its fields are the tables, and its methods
  update them in place in the order of `app.py`. Each method is proved to
  leave exactly the state and answer that the `Api` function describes,
  and to keep the invariants.
- `Findings`: four defects of the code as written, each modelled and
  exhibited, next to the corrected behaviour that the rest of the model
  uses.

## Model

| member | source | states |
|---|---|---|
| Gamification.SelectTier | app.py:98-105 | the tier scan returns the highest tier whose threshold the xp reaches (Bronze otherwise), and it equals `TierOf` |
| Gamification.TierMonotone | app.py:98-105 | more xp never gives a lower tier |
| Gamification.TierBoundaries | app.py:100-105 | the tier changes exactly at 200, 800, 2000 and 5000 xp |
| Gamification.LoginSameDayIdempotent | app.py:372-384 | signing in twice on one day has the effect of signing in once |
| Gamification.LoginRecordsDay | app.py:372-384 | every sign-in records today as the last login and never lowers xp |
| Gamification.LoginAfterGap | app.py:382-384 | after a missed day (or with no previous login) the streak restarts at 1 and no xp is earned |
| Gamification.ConsecutiveLogins | app.py:374-381 | k daily sign-ins that continue a streak add k to it, and add 10 xp per day plus 50 for each multiple of seven the streak passes |
| Money.FeeOf | app.py:574 | the fee is zero exactly up to ₹1,000; above that it is 0.1% of the amount to the nearest paisa, positive and below the amount |
| Money.FeeOfTwelveHundred | app.py:574 | a ₹1,200 transfer costs ₹1.20 |
| Tables.Resolve | app.py:564-568 | the recipient found by email or account number matches the identifier; when none is found, no user matches |
| Tables.FindByEmail | app.py:356 | the sign-in lookup finds a user with that email, or proves none has it |
| Tables.FirstIndex | app.py:715 | `.first()`: the first row satisfying the filter, or none satisfies it |
| Tables.FilterMembers | app.py:991-993 | a filtered delete keeps exactly the rows that do not match |
| Tables.ResolveWiden | app.py:564-568 | a recipient lookup that succeeded is unchanged when more users exist |
| Tables.SumRemove | app.py:768 | deleting a row takes its value out of a column sum |
| Books.LedgerAppend | app.py:504-505 | posting an entry moves total_sent, total_received and total_txn_count by exactly that entry's share |
| Books.SavingsCoverGoal | app.py:765-767 | a user's savings balance covers each of their goals |
| Books.SettleOneShare | app.py:940 | paying an unpaid share lowers that user's unpaid count for the bill by one |
| Books.UnpaidCountZero | app.py:921-924 | the unpaid count is zero exactly when the user has no unpaid share in the bill |
| Bank.GoalIndex | app.py:715 | finds the caller's goal with that id, or shows the caller has none |
| Bank.ContactIndex | app.py:823 | finds the caller's contact with that id, or shows the caller has none |
| Bank.ScheduleIndex | app.py:867 | finds the caller's scheduled payment with that id, or shows the caller has none |
| Bank.ShareIndex | app.py:921-922 | finds the caller's unpaid share in the bill, or shows the caller has none |
| Bank.BillIndex | app.py:926 | finds the bill with that id, or shows there is none |
| Bank.SharesFromRequests | app.py:900-911 | every share added names a user that an identifier in the request resolves to, with that request's amount |
| Bank.SharesAllResolve | app.py:900-911 | when every identifier resolves, one share is added per request |
| Bank.SharesNoneResolve | app.py:900-911 | when no identifier resolves, no share is added |
| Api.Login | app.py:372-384 | only the caller's row changes; on the day after the last login the streak grows by one and xp by 10, plus 50 when the streak reaches a multiple of seven, and the tier follows xp, with every other field of the row unchanged; on the same day nothing changes; otherwise the streak restarts at 1 |
| Api.SignIn | app.py:356-386 | a known email signs in; an unknown one gets a new account with ₹1,000, 100 xp and no streak; an account number already taken is an error that changes nothing |
| Api.Deposit | app.py:491-515 | refused (nothing changes) exactly when the amount is not in (0, ₹1,00,000]; otherwise the balance and total_received rise by the amount, 5 xp are earned and the tier follows, every other field of the row stays, and one deposit entry is posted |
| Api.Withdraw | app.py:518-541 | refused for a non-positive amount or one above the balance; otherwise the balance falls and total_sent rises by the amount, and one withdrawal entry is posted |
| Api.Transfer | app.py:544-607 | the checks run in the code's order with their errors; on success the sender pays amount plus fee, the recipient gets the amount, both counters move, the sender earns 15 xp and the tier follows, no other field of either row changes, and the recipient becomes a contact if not one already |
| Api.SavingsCreate | app.py:680-702 | needs a name and a positive target; adds an empty goal; the caller's row changes only by 20 xp and the tier that follows |
| Api.SavingsDeposit | app.py:705-735 | needs the caller's goal and 0 < amount <= balance; moves the amount from balance to savings and goal; earns 10 xp, plus 100 on the deposit that reaches the target, and the tier follows; no other field of the row changes |
| Api.SavingsWithdraw | app.py:737-756 | needs a positive amount and the caller's goal holding at least that much; moves it back from goal and savings to the balance |
| Api.SavingsDelete | app.py:759-770 | deletes the caller's goal; what it held returns from savings to the balance |
| Api.ContactAdd | app.py:794-817 | refuses a missing identifier, an unknown user, oneself, or an existing contact; otherwise adds exactly one contact |
| Api.ContactDelete | app.py:820-828 | removes exactly the caller's contact with that id, or answers not found |
| Api.ScheduleCreate | app.py:833-861 | needs an identifier, a positive amount, a date and a known recipient; adds one active schedule; the caller's row changes only by 10 xp and the tier that follows, so no money moves |
| Api.ScheduleDelete | app.py:864-872 | marks the caller's schedule inactive and keeps the row, or answers not found |
| Api.SplitCreate | app.py:877-915 | needs a title, a positive total, a non-empty member list and no negative share; adds the bill, the creator's settled zero share and one unpaid share per identifier that resolves; the creator's row changes only by 15 xp and the tier that follows |
| Api.SplitPay | app.py:918-945 | refused exactly when the caller has nothing unpaid in the bill; otherwise, if affordable, the owed amount moves to the creator, the share is marked paid and a split entry is posted |
| Api.DeleteAccount | app.py:984-996 | the intended deletion: the user row goes; other users, bills and the id counter stay |
| Api.DeleteAccountEntries | app.py:76-81 | exactly the entries the user sent or received are deleted; every other entry stays |
| Api.DeleteAccountShares | app.py:984-996 | exactly the user's bill shares and, by the goal cascade, the goals they own are deleted |
| Api.DeleteAccountCascades | app.py:88-94 | exactly the contacts the user owns and the payments they scheduled are deleted; contacts and schedules naming the user as peer or receiver stay |
| Safety.LoginKeeps | app.py:372-384 | a sign-in keeps the database consistent and reconciled and does not lower xp |
| Safety.SignInKeeps | app.py:356-386 | sign-in or sign-up keeps the database consistent and reconciled |
| Safety.DepositKeeps | app.py:491-515 | a deposit keeps the database consistent and reconciled |
| Safety.WithdrawKeeps | app.py:518-541 | a withdrawal keeps the database consistent and reconciled |
| Safety.TransferKeeps | app.py:544-607 | a transfer keeps the database consistent and reconciled (no negative balance, contacts unique) |
| Safety.SavingsCreateKeeps | app.py:680-702 | creating a goal keeps the database consistent and reconciled |
| Safety.SavingsDepositKeeps | app.py:705-735 | a savings deposit keeps savings equal to what the goals hold |
| Safety.SavingsWithdrawKeeps | app.py:737-756 | a savings withdrawal keeps savings equal to what the goals hold, and keeps every goal non-negative |
| Safety.SavingsDeleteKeeps | app.py:759-770 | deleting a goal keeps savings equal to what the remaining goals hold |
| Safety.ContactAddKeeps | app.py:794-817 | adding a contact keeps contacts unique and the database consistent |
| Safety.ContactDeleteKeeps | app.py:820-828 | deleting a contact keeps the database consistent and reconciled |
| Safety.ScheduleCreateKeeps | app.py:833-861 | creating a schedule keeps the database consistent and reconciled |
| Safety.ScheduleDeleteKeeps | app.py:864-872 | cancelling a schedule keeps the database consistent and reconciled |
| Safety.SplitCreateKeeps | app.py:877-915 | opening a bill keeps every share non-negative and the database consistent |
| Safety.SplitPayKeeps | app.py:918-945 | paying a share keeps every balance non-negative and the database consistent and reconciled |
| Safety.DeleteAccountKeeps | app.py:984-996 | deleting an account keeps the database consistent and does not lower xp |
| Partners.DepositThenWithdraw | app.py:491-541 | withdrawing what was just deposited restores the balance; both totals record the two moves |
| Partners.SavingsDepositThenWithdraw | app.py:705-756 | withdrawing from a goal what was just put in restores the goal, the balance and the savings |
| Partners.SavingsKeepHoldings | app.py:721-723 | savings deposit, withdrawal and goal deletion keep balance plus savings unchanged |
| Partners.ContactAddTwice | app.py:811-813 | adding the same person again is refused and changes nothing |
| Partners.SplitPayOnce | app.py:921-924 | a share is paid once: a second payment is refused and moves nothing |
| Partners.LoginTwice | app.py:372-384 | a second sign-in on the same day changes nothing |
| Partners.SignUpThenSignIn | app.py:356-386 | signing in again after signing up returns the same account and changes nothing |
| Partners.ScheduleDeleteTwice | app.py:864-872 | cancelling a schedule twice is the same as cancelling it once |
| Partners.GoalIndexUpdate | app.py:747 | a goal lookup still finds a goal after its amount changes |
| Wallet.Ledger.constructor | app.py:57-258 | an empty database is consistent and reconciled |
| Wallet.Ledger.AwardXp | app.py:98-105 | the user's xp rises by the points and the tier is chosen again; no other row changes |
| Wallet.Ledger.Login | app.py:372-386 | the in-place sign-in leaves the state `Api.Login` describes and keeps the invariants |
| Wallet.Ledger.SignIn | app.py:356-386 | the in-place sign-in or sign-up gives `Api.SignIn`'s state and answer and keeps the invariants |
| Wallet.Ledger.Deposit | app.py:491-515 | the in-place deposit gives `Api.Deposit`'s state and answer and keeps the invariants |
| Wallet.Ledger.Withdraw | app.py:518-541 | the in-place withdrawal gives `Api.Withdraw`'s state and answer and keeps the invariants |
| Wallet.Ledger.Transfer | app.py:544-607 | the in-place transfer gives `Api.Transfer`'s state and answer and keeps the invariants |
| Wallet.Ledger.Pay | app.py:580-603 | the commit of a transfer writes both rows, the entry and the auto-contact; it answers with the reference and the fee |
| Wallet.Ledger.SavingsCreate | app.py:680-702 | gives `Api.SavingsCreate`'s state and answer and keeps the invariants |
| Wallet.Ledger.SavingsDeposit | app.py:705-735 | gives `Api.SavingsDeposit`'s state and answer and keeps the invariants |
| Wallet.Ledger.Save | app.py:721-732 | the commit of a savings deposit moves the money, posts the entry and awards the xp |
| Wallet.Ledger.SavingsWithdraw | app.py:737-756 | gives `Api.SavingsWithdraw`'s state and answer and keeps the invariants |
| Wallet.Ledger.SavingsDelete | app.py:759-770 | gives `Api.SavingsDelete`'s state and answer and keeps the invariants |
| Wallet.Ledger.ContactAdd | app.py:794-817 | gives `Api.ContactAdd`'s state and answer and keeps the invariants |
| Wallet.Ledger.ContactDelete | app.py:820-828 | gives `Api.ContactDelete`'s state and answer and keeps the invariants |
| Wallet.Ledger.ScheduleCreate | app.py:833-861 | gives `Api.ScheduleCreate`'s state and answer and keeps the invariants |
| Wallet.Ledger.ScheduleDelete | app.py:864-872 | gives `Api.ScheduleDelete`'s state and answer and keeps the invariants |
| Wallet.Ledger.SplitCreate | app.py:877-915 | gives `Api.SplitCreate`'s state and answer and keeps the invariants |
| Wallet.Ledger.Open | app.py:892-914 | the commit of a new bill: the bill row, the creator's zero share, the members' shares and 15 xp |
| Wallet.Ledger.AddShares | app.py:900-911 | the member loop appends one unpaid share per identifier that resolves, in request order |
| Wallet.Ledger.SplitPay | app.py:918-945 | gives `Api.SplitPay`'s state and answer and keeps the invariants |
| Wallet.Ledger.Settle | app.py:932-944 | the commit of a share payment: the payer pays, the creator receives, the entry is posted and the share is marked paid |
| Wallet.Ledger.DeleteAccount | app.py:984-996 | the in-place deletion leaves the state `Api.DeleteAccount` describes and keeps the database consistent |
| Wallet.TransferCommitted | app.py:557-607 | a transfer that passed every check and was committed is what `Api.Transfer` answers, and keeps the invariants |
| Wallet.SavingsDepositCommitted | app.py:715-732 | a savings deposit that passed its checks and was committed is what `Api.SavingsDeposit` answers, and keeps the invariants |
| Wallet.SplitPaySettles | app.py:921-944 | an affordable unpaid share of an existing bill with an existing creator is settled as `Api.SplitPay` describes |
| Wallet.SplitPayCommitted | app.py:921-944 | a committed share payment is what `Api.SplitPay` answers, and keeps the invariants |
| Wallet.SplitCreateCommitted | app.py:889-914 | a committed bill is what `Api.SplitCreate` answers, and keeps the invariants |
| Wallet.DeletedValid | app.py:984-996 | the deleted state is consistent, whatever value the tables are held in |
| Findings.SavingsWithdrawAsWritten | app.py:747-756 | as written, the withdrawal succeeds exactly when the goal exists and holds at least the amount, negative amounts included |
| Findings.NegativeWithdrawOverdraws | app.py:747-753 | as written, a negative withdrawal larger than the balance is accepted and leaves a negative balance; the corrected handler refuses it |
| Findings.WithdrawNeverOverdraws | app.py:747-753 | the corrected withdrawal never lowers the balance and never leaves a negative goal or savings balance |
| Findings.GoalBonusAsWritten | app.py:728-731 | as written, the bonus is paid whenever the goal stands at or above its target after a deposit |
| Findings.BonusPaidAtMostOnce | app.py:728-731 | with the corrected check, a run of deposits earns the goal bonus once, if it crosses the target, and never otherwise |
| Findings.AsWrittenBonusRepeats | app.py:728-731 | as written, deposits of 100 and then 50 into a goal of 1000 at 900 earn the bonus twice |
| Findings.SplitCreateAsWritten | app.py:880-915 | as written, a bill is accepted with the members' amounts as given |
| Findings.SharesCover | app.py:900-908 | every request whose identifier resolves contributes a share with its amount |
| Findings.NegativeShareAccepted | app.py:900-908 | as written, a negative share is stored and breaks the non-negative-share invariant; the corrected handler refuses the request |
| Findings.NegativeSharePaymentOverdraws | app.py:929-934 | paying a stored negative share takes money from the bill's creator, and can leave the creator's balance negative |
| Findings.DeleteAccountAsWritten | app.py:986-996 | as written, the deletion request fails before any row is deleted and the database is unchanged |
| Findings.AsWrittenDeletionKeepsAccount | app.py:986-991 | as written, the account, its entries, goals and shares all survive the request; the intended deletion removes the user and every entry naming them |
| Findings.SharesNeverNegative | app.py:877-915 | with the corrected creation, no share ever owes a negative amount |

## Left out

- OAuth, HTTP, sessions, flash messages, notifications, activity logs,
  budget categories, analytics and the profile handlers are not modelled.
  They move no money and keep no invariant of the core.
- Money is exact integer paise, not Python floats. Float rounding of sums
  is not modelled.
- Money.FeeOf: rounds half to even on the exact value. Python's `round` on
  the float product can fall either side of a tie. The contract states only
  that the fee is within half a paisa of 0.1%, which both roundings meet.
- `gen_reference` is random. A transaction's reference is the next free id,
  so references are unique by construction.
- `gen_account_number` is random, so `Api.SignIn` takes the generated
  account number as a parameter.
- A sign-up whose generated account number is already held fails the
  uniqueness constraint. It is modelled as an `Internal` error that changes
  nothing.
- Dates are integer day numbers and `datetime.utcnow()` is the parameter
  `today`. `paid_at` and `created_at` are not kept.
- Descriptions, emoji, deadlines, usernames and a deposit's payment method
  are not kept. They do not affect any rule.
- Tables.Resolve: the email-or-account-number query picks one row whose
  order SQL leaves open. The model picks the lowest id that matches.
- A split payment whose bill or creator no longer exists raises an
  exception before the commit in the code. It is modelled as an
  `Internal` error that changes nothing.
- Api.DeleteAccount: models the deletion the handler intends. As written
  the handler fails before deleting anything (see "## Findings").
- Wallet.Ledger.DeleteAccount: ensures only that consistency is kept, not
  reconciliation. Deleting shared entries leaves the counterparties'
  running totals counting entries that are gone. The code does this too.
- Savings deposits and split payments do not move `total_sent`,
  `total_received` or `total_txn_count` in the code. `Reconciled` counts
  only the entry kinds the code counts.
- Api.Login: a last login later than today restarts the streak at 1, as
  app.py:382-383 does; such a date is not rejected.
- Deposit amounts outside the range get one error, as in the code
  (`InvalidAmount`). There is no separate over-limit error.

## Findings

| source | as written | input that shows it | evidently intended | confidence | as-written member | corrected member |
|---|---|---|---|---|---|---|
| app.py:747-753 | the withdrawal checks only `g.current < amount`, so a zero or negative amount passes | a goal holding ₹0 and a balance of ₹10; withdraw −₹50: the balance becomes −₹40 and savings rise by ₹50 | refuse any amount that is not positive | not executed | Findings.NegativeWithdrawOverdraws | Findings.WithdrawNeverOverdraws |
| app.py:728-731 | the bonus fires whenever `g.current >= g.target` after a deposit, so it repeats on every later deposit | a goal of ₹1,000 at ₹900; deposit ₹100, then ₹50: 200 bonus xp instead of 100 | pay the bonus on the deposit that first reaches the target | not executed | Findings.AsWrittenBonusRepeats | Findings.BonusPaidAtMostOnce |
| app.py:900-908 | share amounts are stored as given, negative ones included; paying one moves money from the creator to the payer | a bill with a share of −₹500 for a user; that user pays it while the creator holds ₹100: the creator ends at −₹400 | refuse a bill with a negative share | not executed | Findings.NegativeSharePaymentOverdraws | Findings.SharesNeverNegative |
| app.py:986-991 | `user = current_user` keeps the proxy, and `logout_user()` then makes it the anonymous user, which has no `id`; `user.id` raises before the first delete | any signed-in user asking to delete their account: the request fails, nothing is deleted, and the user is only logged out | delete the account with its entries, shares, goals, contacts and schedules | not executed; rests on the documented behaviour of Flask-Login's `current_user` and `logout_user` | Findings.AsWrittenDeletionKeepsAccount | Api.DeleteAccountEntries |
