/**
 * The JSON handlers of app.py as functions from the database before a
 * request to the database after it and the answer. A handler that answers
 * with an error returns before db.session.commit(), so an error leaves the
 * database as it was.
 */
module Api {
  import opened Wrappers
  import opened Gamification
  import opened Money
  import opened Records
  import opened Tables
  import opened Books
  import opened Bank

  /** What one request leaves behind: the database after it and the answer. */
  datatype Reply<T> = Reply(db: Db, result: Result<T>)

  /** Every user is still there, and only the rows of `changed` differ. */
  ghost predicate RowsKept(before: map<UserId, User>, after: map<UserId, User>, changed: set<UserId>)
  {
    && before.Keys == after.Keys
    && forall id :: id in after && id !in changed ==> after[id] == before[id]
  }

  // ------------------------------------------------------------ sign-in

  /** The returning-user branch of the OAuth callback (app.py:372-384). */
  function Login(db: Db, uid: UserId, today: int): (r: Db)
    requires uid in db.users
    ensures r == db.(users := r.users) && RowsKept(db.users, r.users, {uid})
    ensures var u, v := db.users[uid], r.users[uid];
      && v.lastLogin == Some(today) && v.balance == u.balance && v.savings == u.savings && v.xp >= u.xp
      && (u.lastLogin == Some(today) ==> v == u)
      && (u.lastLogin == Some(today - 1) ==>
            && v.streak == u.streak + 1 && v.tier == TierOf(v.xp)
            && v.xp == u.xp + StreakXp + (if (u.streak + 1) % 7 == 0 then WeeklyBonusXp else 0)
            && v == u.(streak := v.streak, lastLogin := Some(today), xp := v.xp, tier := v.tier))
      && (u.lastLogin != Some(today - 1) && u.lastLogin != Some(today) ==>
            v == u.(streak := 1, lastLogin := Some(today)))
  {
    db.(users := db.users[uid := Relogged(db.users[uid], today)])
  }

  /**
   * The OAuth callback once the provider has named the email
   * (app.py:356-386): a known email signs in; an unknown one opens an
   * account under the generated account number, which fails on the
   * uniqueness constraint if that number is already held.
   */
  function SignIn(db: Db, email: string, accountNumber: string, today: int): (r: Reply<UserId>)
    ensures r.result.Err? ==> r.db == db
    ensures var known := FindByEmail(db.users, db.nextId, email);
      && (known.Some? ==> r == Reply(Login(db, known.value, today), Ok(known.value)))
      && (known.None? && AccountNumberTaken(db.users, accountNumber) ==> r == Reply(db, Err(Internal)))
      && (known.None? && !AccountNumberTaken(db.users, accountNumber) ==>
            && r.result == Ok(db.nextId) && r.db.nextId == db.nextId + 1
            && r.db == db.(users := r.db.users, nextId := r.db.nextId)
            && r.db.users.Keys == db.users.Keys + {db.nextId}
            && (forall id :: id in db.users && id != db.nextId ==> r.db.users[id] == db.users[id])
            && var v := r.db.users[db.nextId];
               v.email == email && v.accountNumber == accountNumber && v.balance == WelcomeBalance
               && v.savings == 0 && v.xp == SignupXp && v.tier == Bronze && v.streak == 0 && v.lastLogin == Some(today)
               && v.totalSent == 0 && v.totalReceived == 0 && v.txnCount == 0)
  {
    match FindByEmail(db.users, db.nextId, email)
    case Some(id) => Reply(Login(db, id, today), Ok(id))
    case None =>
      if AccountNumberTaken(db.users, accountNumber) then Reply(db, Err(Internal))
      else
        Reply(db.(users := db.users[db.nextId := Newcomer(email, accountNumber, today)], nextId := db.nextId + 1),
              Ok(db.nextId))
  }

  // ------------------------------------------------------------ money in, money out

  /** api_deposit (app.py:491-515). */
  function Deposit(db: Db, uid: UserId, amount: int): (r: Reply<nat>)
    requires uid in db.users
    ensures r.result.Err? <==> amount <= 0 || amount > MaxDeposit
    ensures r.result.Err? ==> r == Reply(db, Err(InvalidAmount))
    ensures r.result.Ok? ==> RowsKept(db.users, r.db.users, {uid})
    ensures r.result.Ok? ==>
      var u, v := db.users[uid], r.db.users[uid];
      && r.result.value == db.nextId && r.db.nextId == db.nextId + 1
      && r.db == db.(users := r.db.users, txns := r.db.txns, nextId := r.db.nextId)
      && v == u.(balance := u.balance + amount, totalReceived := u.totalReceived + amount,
                 xp := u.xp + DepositXp, tier := TierOf(u.xp + DepositXp))
      && r.db.txns == db.txns + [Txn(db.nextId, None, Some(uid), amount, 0, TxnKind.Deposit, "other")]
  {
    if amount <= 0 || amount > MaxDeposit then Reply(db, Err(InvalidAmount))
    else
      var u := db.users[uid];
      var t := Txn(db.nextId, None, Some(uid), amount, 0, TxnKind.Deposit, "other");
      var v := Awarded(u.(balance := u.balance + amount, totalReceived := u.totalReceived + amount), DepositXp);
      Reply(db.(users := db.users[uid := v], txns := db.txns + [t], nextId := db.nextId + 1), Ok(t.reference))
  }

  /** api_withdraw (app.py:518-541). */
  function Withdraw(db: Db, uid: UserId, amount: int): (r: Reply<nat>)
    requires uid in db.users
    ensures r.result.Err? ==> r.db == db
    ensures amount <= 0 ==> r == Reply(db, Err(InvalidAmount))
    ensures amount > 0 && db.users[uid].balance < amount ==> r == Reply(db, Err(InsufficientFunds))
    ensures r.result.Ok? <==> 0 < amount <= db.users[uid].balance
    ensures r.result.Ok? ==> RowsKept(db.users, r.db.users, {uid})
    ensures r.result.Ok? ==>
      var u, v := db.users[uid], r.db.users[uid];
      && r.result.value == db.nextId && r.db.nextId == db.nextId + 1
      && r.db == db.(users := r.db.users, txns := r.db.txns, nextId := r.db.nextId)
      && v == u.(balance := u.balance - amount, totalSent := u.totalSent + amount)
      && v.balance >= 0
      && r.db.txns == db.txns + [Txn(db.nextId, Some(uid), None, amount, 0, Withdrawal, "other")]
  {
    if amount <= 0 then Reply(db, Err(InvalidAmount))
    else if db.users[uid].balance < amount then Reply(db, Err(InsufficientFunds))
    else
      var u := db.users[uid];
      var t := Txn(db.nextId, Some(uid), None, amount, 0, Withdrawal, "other");
      Reply(db.(users := db.users[uid := u.(balance := u.balance - amount, totalSent := u.totalSent + amount)],
                txns := db.txns + [t], nextId := db.nextId + 1),
            Ok(t.reference))
  }

  /**
   * api_transfer (app.py:544-607): checks in the order the handler makes
   * them; the sender pays the amount plus the fee, the recipient receives
   * the amount, the fee goes to no account; the recipient becomes a
   * contact of the sender if they were not one.
   */
  function Transfer(db: Db, uid: UserId, identifier: string, amount: int, category: string): (r: Reply<(nat, int)>)
    requires uid in db.users
    ensures r.result.Err? ==> r.db == db
    ensures amount <= 0 ==> r == Reply(db, Err(InvalidAmount))
    ensures amount > MaxTransfer ==> r == Reply(db, Err(LimitExceeded))
    ensures 0 < amount <= MaxTransfer && identifier == [] ==> r == Reply(db, Err(MissingField))
    ensures 0 < amount <= MaxTransfer && identifier != [] ==>
      var found := Resolve(db.users, db.nextId, identifier);
      && (found.None? ==> r == Reply(db, Err(RecipientNotFound)))
      && (found == Some(uid) ==> r == Reply(db, Err(SelfNotAllowed)))
      && (found.Some? && found.value != uid && db.users[uid].balance < amount + FeeOf(amount) ==>
            r == Reply(db, Err(InsufficientFunds)))
      && (found.Some? && found.value != uid && db.users[uid].balance >= amount + FeeOf(amount) ==> r.result.Ok?)
    ensures r.result.Ok? ==>
      && identifier != [] && Resolve(db.users, db.nextId, identifier).Some?
      && RowsKept(db.users, r.db.users, {uid, Resolve(db.users, db.nextId, identifier).value})
    ensures r.result.Ok? ==>
      var rid := Resolve(db.users, db.nextId, identifier).value;
      var fee := FeeOf(amount);
      var s, s', v, v' := db.users[uid], r.db.users[uid], db.users[rid], r.db.users[rid];
      && rid != uid && r.result.value == (db.nextId, fee)
      && r.db == db.(users := r.db.users, txns := r.db.txns, contacts := r.db.contacts, nextId := r.db.nextId)
      && s'.balance == s.balance - (amount + fee) && s'.balance >= 0 && v'.balance == v.balance + amount
      && s'.balance + v'.balance == s.balance + v.balance - fee
      && s' == s.(balance := s.balance - (amount + fee), totalSent := s.totalSent + amount,
                  txnCount := s.txnCount + 1, xp := s.xp + TransferXp, tier := TierOf(s.xp + TransferXp))
      && v' == v.(balance := v.balance + amount, totalReceived := v.totalReceived + amount,
                  txnCount := v.txnCount + 1)
      && r.db.txns == db.txns + [Txn(db.nextId, Some(uid), Some(rid), amount, fee, TxnKind.Transfer, category)]
      && HasContact(r.db.contacts, uid, rid)
      && (HasContact(db.contacts, uid, rid) ==> r.db.contacts == db.contacts && r.db.nextId == db.nextId + 1)
      && (!HasContact(db.contacts, uid, rid) ==>
            r.db.contacts == db.contacts + [Contact(db.nextId + 1, uid, rid, "")] && r.db.nextId == db.nextId + 2)
  {
    if amount <= 0 then Reply(db, Err(InvalidAmount))
    else if amount > MaxTransfer then Reply(db, Err(LimitExceeded))
    else if identifier == [] then Reply(db, Err(MissingField))
    else match Resolve(db.users, db.nextId, identifier)
      case None => Reply(db, Err(RecipientNotFound))
      case Some(rid) =>
        var fee := FeeOf(amount);
        if rid == uid then Reply(db, Err(SelfNotAllowed))
        else if db.users[uid].balance < amount + fee then Reply(db, Err(InsufficientFunds))
        else
          var s, v := db.users[uid], db.users[rid];
          var s' := Awarded(s.(balance := s.balance - (amount + fee), totalSent := s.totalSent + amount,
                               txnCount := s.txnCount + 1), TransferXp);
          var v' := v.(balance := v.balance + amount, totalReceived := v.totalReceived + amount,
                       txnCount := v.txnCount + 1);
          var t := Txn(db.nextId, Some(uid), Some(rid), amount, fee, TxnKind.Transfer, category);
          var known := HasContact(db.contacts, uid, rid);
          var c := Contact(db.nextId + 1, uid, rid, "");
          assert (db.contacts + [c])[|db.contacts|] == c;
          Reply(db.(users := db.users[uid := s'][rid := v'], txns := db.txns + [t],
                    contacts := if known then db.contacts else db.contacts + [c],
                    nextId := if known then db.nextId + 1 else db.nextId + 2),
                Ok((t.reference, fee)))
  }

  // ------------------------------------------------------------ savings goals

  /** api_savings_create (app.py:680-702). */
  function SavingsCreate(db: Db, uid: UserId, name: string, target: int): (r: Reply<nat>)
    requires uid in db.users
    ensures r.result.Err? ==> r.db == db
    ensures name == [] || target <= 0 ==> r == Reply(db, Err(MissingField))
    ensures name != [] && target > 0 ==> RowsKept(db.users, r.db.users, {uid})
    ensures name != [] && target > 0 ==>
      var u, v := db.users[uid], r.db.users[uid];
      && r.result == Ok(db.nextId) && r.db.nextId == db.nextId + 1
      && r.db == db.(users := r.db.users, goals := r.db.goals, nextId := r.db.nextId)
      && r.db.goals == db.goals + [Goal(db.nextId, uid, name, target, 0)]
      && v == u.(xp := u.xp + GoalCreateXp, tier := TierOf(u.xp + GoalCreateXp))
  {
    if name == [] || target <= 0 then Reply(db, Err(MissingField))
    else
      Reply(db.(users := db.users[uid := Awarded(db.users[uid], GoalCreateXp)],
                goals := db.goals + [Goal(db.nextId, uid, name, target, 0)], nextId := db.nextId + 1),
            Ok(db.nextId))
  }

  /**
   * api_savings_deposit (app.py:705-735) with the goal-achieved bonus paid
   * on the deposit that reaches the target only.
   */
  function SavingsDeposit(db: Db, uid: UserId, gid: nat, amount: int): (r: Reply<nat>)
    requires uid in db.users
    ensures r.result.Err? ==> r.db == db
    ensures GoalIndex(db.goals, gid, uid).None? ==> r == Reply(db, Err(NotFound))
    ensures GoalIndex(db.goals, gid, uid).Some? && (amount <= 0 || db.users[uid].balance < amount) ==>
              r == Reply(db, Err(InsufficientFunds))
    ensures r.result.Ok? <==> GoalIndex(db.goals, gid, uid).Some? && 0 < amount <= db.users[uid].balance
    ensures r.result.Ok? ==> RowsKept(db.users, r.db.users, {uid}) && |r.db.goals| == |db.goals|
    ensures r.result.Ok? ==>
      var i := GoalIndex(db.goals, gid, uid).value;
      var g, g' := db.goals[i], r.db.goals[i];
      var u, v := db.users[uid], r.db.users[uid];
      && r.result.value == db.nextId && r.db.nextId == db.nextId + 1
      && r.db == db.(users := r.db.users, goals := r.db.goals, txns := r.db.txns, nextId := r.db.nextId)
      && r.db.goals == db.goals[i := g'] && g' == g.(current := g.current + amount)
      && v.balance >= 0
      && v.xp == u.xp + GoalDepositXp + (if g.current < g.target <= g'.current then GoalReachedXp else 0)
      && v == u.(balance := u.balance - amount, savings := u.savings + amount, xp := v.xp, tier := TierOf(v.xp))
      && r.db.txns == db.txns + [Txn(db.nextId, Some(uid), None, amount, 0, Savings, "other")]
  {
    match GoalIndex(db.goals, gid, uid)
    case None => Reply(db, Err(NotFound))
    case Some(i) =>
      if amount <= 0 || db.users[uid].balance < amount then Reply(db, Err(InsufficientFunds))
      else
        var g, u := db.goals[i], db.users[uid];
        var t := Txn(db.nextId, Some(uid), None, amount, 0, Savings, "other");
        var v := Awarded(u.(balance := u.balance - amount, savings := u.savings + amount),
                         GoalDepositXp + GoalBonus(g.current, g.current + amount, g.target));
        Reply(db.(users := db.users[uid := v], goals := db.goals[i := g.(current := g.current + amount)],
                  txns := db.txns + [t], nextId := db.nextId + 1),
              Ok(t.reference))
  }

  /**
   * api_savings_withdraw (app.py:737-756) with a positive amount required:
   * money leaves the goal and the savings balance for the main balance.
   */
  function SavingsWithdraw(db: Db, uid: UserId, gid: nat, amount: int): (r: Reply<()>)
    requires uid in db.users
    ensures r.result.Err? ==> r.db == db
    ensures amount <= 0 ==> r == Reply(db, Err(InvalidAmount))
    ensures amount > 0 ==>
      var found := GoalIndex(db.goals, gid, uid);
      && (found.None? || db.goals[found.value].current < amount ==> r == Reply(db, Err(InsufficientSavings)))
      && (found.Some? && db.goals[found.value].current >= amount ==> r.result.Ok?)
    ensures r.result.Ok? ==> GoalIndex(db.goals, gid, uid).Some? && RowsKept(db.users, r.db.users, {uid})
    ensures r.result.Ok? ==>
      var i := GoalIndex(db.goals, gid, uid).value;
      var g := db.goals[i];
      var u, v := db.users[uid], r.db.users[uid];
      && r.db == db.(users := r.db.users, goals := r.db.goals)
      && r.db.goals == db.goals[i := g.(current := g.current - amount)] && g.current - amount >= 0
      && v == u.(balance := u.balance + amount, savings := u.savings - amount)
  {
    if amount <= 0 then Reply(db, Err(InvalidAmount))
    else match GoalIndex(db.goals, gid, uid)
      case None => Reply(db, Err(InsufficientSavings))
      case Some(i) =>
        var g, u := db.goals[i], db.users[uid];
        if g.current < amount then Reply(db, Err(InsufficientSavings))
        else
          Reply(db.(users := db.users[uid := u.(balance := u.balance + amount, savings := u.savings - amount)],
                    goals := db.goals[i := g.(current := g.current - amount)]),
                Ok(()))
  }

  /** api_savings_delete (app.py:759-770): what the goal holds goes back to the balance. */
  function SavingsDelete(db: Db, uid: UserId, gid: nat): (r: Reply<()>)
    requires uid in db.users
    ensures r.result.Err? ==> r.db == db
    ensures GoalIndex(db.goals, gid, uid).None? ==> r == Reply(db, Err(NotFound))
    ensures GoalIndex(db.goals, gid, uid).Some? ==> RowsKept(db.users, r.db.users, {uid})
    ensures GoalIndex(db.goals, gid, uid).Some? ==>
      var i := GoalIndex(db.goals, gid, uid).value;
      var g := db.goals[i];
      var u, v := db.users[uid], r.db.users[uid];
      && r.result == Ok(())
      && r.db == db.(users := r.db.users, goals := r.db.goals)
      && r.db.goals == db.goals[..i] + db.goals[i + 1..]
      && (g.current > 0 ==> v == u.(balance := u.balance + g.current, savings := u.savings - g.current))
      && (g.current <= 0 ==> v == u)
  {
    match GoalIndex(db.goals, gid, uid)
    case None => Reply(db, Err(NotFound))
    case Some(i) =>
      var g, u := db.goals[i], db.users[uid];
      var v := if g.current > 0 then u.(balance := u.balance + g.current, savings := u.savings - g.current) else u;
      Reply(db.(users := db.users[uid := v], goals := db.goals[..i] + db.goals[i + 1..]), Ok(()))
  }

  // ------------------------------------------------------------ contacts

  /** api_contact_add (app.py:794-817). */
  function ContactAdd(db: Db, uid: UserId, identifier: string, nickname: string): (r: Reply<nat>)
    requires uid in db.users
    ensures r.result.Err? ==> r.db == db
    ensures identifier == [] ==> r == Reply(db, Err(MissingField))
    ensures identifier != [] ==>
      var found := Resolve(db.users, db.nextId, identifier);
      && (found.None? ==> r == Reply(db, Err(RecipientNotFound)))
      && (found == Some(uid) ==> r == Reply(db, Err(SelfNotAllowed)))
      && (found.Some? && found.value != uid && HasContact(db.contacts, uid, found.value) ==>
            r == Reply(db, Err(AlreadyExists)))
      && (found.Some? && found.value != uid && !HasContact(db.contacts, uid, found.value) ==>
            r == Reply(db.(contacts := db.contacts + [Contact(db.nextId, uid, found.value, nickname)],
                           nextId := db.nextId + 1),
                       Ok(db.nextId)))
  {
    if identifier == [] then Reply(db, Err(MissingField))
    else match Resolve(db.users, db.nextId, identifier)
      case None => Reply(db, Err(RecipientNotFound))
      case Some(peer) =>
        if peer == uid then Reply(db, Err(SelfNotAllowed))
        else if HasContact(db.contacts, uid, peer) then Reply(db, Err(AlreadyExists))
        else
          Reply(db.(contacts := db.contacts + [Contact(db.nextId, uid, peer, nickname)], nextId := db.nextId + 1),
                Ok(db.nextId))
  }

  /** api_contact_delete (app.py:820-828). */
  function ContactDelete(db: Db, uid: UserId, cid: nat): (r: Reply<()>)
    ensures ContactIndex(db.contacts, cid, uid).None? ==> r == Reply(db, Err(NotFound))
    ensures r.result.Err? ==> r.db == db
    ensures ContactIndex(db.contacts, cid, uid).Some? ==>
      var i := ContactIndex(db.contacts, cid, uid).value;
      && r.result == Ok(()) && r.db == db.(contacts := r.db.contacts)
      && |r.db.contacts| == |db.contacts| - 1
      && (forall k :: 0 <= k < |r.db.contacts| ==> r.db.contacts[k] == db.contacts[if k < i then k else k + 1])
  {
    match ContactIndex(db.contacts, cid, uid)
    case None => Reply(db, Err(NotFound))
    case Some(i) => Reply(db.(contacts := db.contacts[..i] + db.contacts[i + 1..]), Ok(()))
  }

  // ------------------------------------------------------------ scheduled payments

  /** api_sched_create (app.py:833-861): records the intent to pay, moves no money. */
  function ScheduleCreate(db: Db, uid: UserId, identifier: string, amount: int, frequency: string, nextDate: string)
    : (r: Reply<nat>)
    requires uid in db.users
    ensures r.result.Err? ==> r.db == db
    ensures identifier == [] || amount <= 0 || nextDate == [] ==> r == Reply(db, Err(MissingField))
    ensures identifier != [] && amount > 0 && nextDate != [] ==>
      var found := Resolve(db.users, db.nextId, identifier);
      && (found.None? ==> r == Reply(db, Err(RecipientNotFound)))
      && (found.Some? ==>
            && r.result == Ok(db.nextId) && r.db.nextId == db.nextId + 1
            && r.db == db.(users := r.db.users, schedules := r.db.schedules, nextId := r.db.nextId)
            && r.db.schedules == db.schedules + [Schedule(db.nextId, uid, found.value, amount, frequency, nextDate, true)]
            && RowsKept(db.users, r.db.users, {uid})
            && var u, v := db.users[uid], r.db.users[uid];
               v == u.(xp := u.xp + ScheduleXp, tier := TierOf(u.xp + ScheduleXp)))
  {
    if identifier == [] || amount <= 0 || nextDate == [] then Reply(db, Err(MissingField))
    else match Resolve(db.users, db.nextId, identifier)
      case None => Reply(db, Err(RecipientNotFound))
      case Some(rid) =>
        Reply(db.(users := db.users[uid := Awarded(db.users[uid], ScheduleXp)],
                  schedules := db.schedules + [Schedule(db.nextId, uid, rid, amount, frequency, nextDate, true)],
                  nextId := db.nextId + 1),
              Ok(db.nextId))
  }

  /** api_sched_delete (app.py:864-872): a soft delete, the row stays with active = false. */
  function ScheduleDelete(db: Db, uid: UserId, sid: nat): (r: Reply<()>)
    ensures ScheduleIndex(db.schedules, sid, uid).None? ==> r == Reply(db, Err(NotFound))
    ensures r.result.Err? ==> r.db == db
    ensures ScheduleIndex(db.schedules, sid, uid).Some? ==>
      var i := ScheduleIndex(db.schedules, sid, uid).value;
      && r.result == Ok(()) && r.db == db.(schedules := r.db.schedules)
      && |r.db.schedules| == |db.schedules| && !r.db.schedules[i].active
      && r.db.schedules[i] == db.schedules[i].(active := false)
      && (forall k :: 0 <= k < |db.schedules| && k != i ==> r.db.schedules[k] == db.schedules[k])
  {
    match ScheduleIndex(db.schedules, sid, uid)
    case None => Reply(db, Err(NotFound))
    case Some(i) => Reply(db.(schedules := db.schedules[i := db.schedules[i].(active := false)]), Ok(()))
  }

  // ------------------------------------------------------------ split bills

  /**
   * api_split_create (app.py:877-915), rejecting negative shares: the bill,
   * the creator's own settled zero share, then one unpaid share per
   * identifier that names a user.
   */
  function SplitCreate(db: Db, uid: UserId, title: string, total: int, shares: seq<ShareRequest>): (r: Reply<nat>)
    requires uid in db.users
    ensures r.result.Err? ==> r.db == db
    ensures title == [] || total <= 0 || shares == [] ==> r == Reply(db, Err(MissingField))
    ensures title != [] && total > 0 && shares != [] && (exists k :: 0 <= k < |shares| && shares[k].amount < 0) ==>
              r == Reply(db, Err(InvalidAmount))
    ensures r.result.Ok? <==>
              title != [] && total > 0 && shares != [] && forall k :: 0 <= k < |shares| ==> shares[k].amount >= 0
    ensures r.result.Ok? ==> RowsKept(db.users, r.db.users, {uid})
    ensures r.result.Ok? ==>
      var bid := db.nextId;
      var u, v := db.users[uid], r.db.users[uid];
      && r.result.value == bid && r.db.nextId == bid + 1
      && r.db == db.(users := r.db.users, bills := r.db.bills, members := r.db.members, nextId := r.db.nextId)
      && r.db.bills == db.bills + [Bill(bid, uid, title, total)]
      && r.db.members == db.members + [Member(bid, uid, 0, true)] + Shares(db.users, db.nextId, bid, shares)
      && v == u.(xp := u.xp + SplitCreateXp, tier := TierOf(u.xp + SplitCreateXp))
  {
    if title == [] || total <= 0 || shares == [] then Reply(db, Err(MissingField))
    else if exists k :: 0 <= k < |shares| && shares[k].amount < 0 then Reply(db, Err(InvalidAmount))
    else
      var bid := db.nextId;
      Reply(db.(users := db.users[uid := Awarded(db.users[uid], SplitCreateXp)],
                bills := db.bills + [Bill(bid, uid, title, total)],
                members := db.members + [Member(bid, uid, 0, true)] + Shares(db.users, db.nextId, bid, shares),
                nextId := db.nextId + 1),
            Ok(bid))
  }

  /**
   * api_split_pay (app.py:918-945): the caller settles their first unpaid
   * share of the bill by paying what it owes to the bill's creator. A bill
   * or creator that no longer exists makes the handler fail before the
   * commit.
   */
  function SplitPay(db: Db, uid: UserId, billId: nat): (r: Reply<nat>)
    requires uid in db.users
    ensures r.result.Err? ==> r.db == db
    ensures r == Reply(db, Err(NothingToPay)) <==> UnpaidCount(db.members, billId, uid) == 0
    ensures ShareIndex(db.members, billId, uid).Some? ==>
      var m := db.members[ShareIndex(db.members, billId, uid).value];
      var b := BillIndex(db.bills, billId);
      && (db.users[uid].balance < m.owed ==> r == Reply(db, Err(InsufficientFunds)))
      && (db.users[uid].balance >= m.owed && (b.None? || db.bills[b.value].creator !in db.users) ==>
            r == Reply(db, Err(Internal)))
      && (db.users[uid].balance >= m.owed && b.Some? && db.bills[b.value].creator in db.users ==> r.result.Ok?)
    ensures r.result.Ok? ==>
      && ShareIndex(db.members, billId, uid).Some? && BillIndex(db.bills, billId).Some?
      && db.bills[BillIndex(db.bills, billId).value].creator in db.users
      && RowsKept(db.users, r.db.users, {uid, db.bills[BillIndex(db.bills, billId).value].creator})
    ensures r.result.Ok? ==>
      var i := ShareIndex(db.members, billId, uid).value;
      var m := db.members[i];
      var c := db.bills[BillIndex(db.bills, billId).value].creator;
      && r.result.value == db.nextId && r.db.nextId == db.nextId + 1
      && r.db == db.(users := r.db.users, txns := r.db.txns, members := r.db.members, nextId := r.db.nextId)
      && r.db.members == db.members[i := m.(paid := true)]
      && UnpaidCount(r.db.members, billId, uid) == UnpaidCount(db.members, billId, uid) - 1
      && (c != uid ==>
            && r.db.users[uid] == db.users[uid].(balance := db.users[uid].balance - m.owed)
            && r.db.users[c] == db.users[c].(balance := db.users[c].balance + m.owed))
      && (c == uid ==> r.db.users[uid] == db.users[uid])
      && r.db.txns == db.txns + [Txn(db.nextId, Some(uid), Some(c), m.owed, 0, Split, "other")]
  {
    UnpaidCountZero(db.members, billId, uid);
    match ShareIndex(db.members, billId, uid)
    case None => Reply(db, Err(NothingToPay))
    case Some(i) =>
      var m := db.members[i];
      if db.users[uid].balance < m.owed then Reply(db, Err(InsufficientFunds))
      else match BillIndex(db.bills, billId)
        case None => Reply(db, Err(Internal))
        case Some(b) =>
          var c := db.bills[b].creator;
          if c !in db.users then Reply(db, Err(Internal))
          else
            var p := db.users[uid];
            var paid := db.users[uid := p.(balance := p.balance - m.owed)];
            var t := Txn(db.nextId, Some(uid), Some(c), m.owed, 0, Split, "other");
            SettleOneShare(db.members, i);
            Reply(db.(users := paid[c := paid[c].(balance := paid[c].balance + m.owed)], txns := db.txns + [t],
                      members := db.members[i := m.(paid := true)], nextId := db.nextId + 1),
                  Ok(t.reference))
  }

  // ------------------------------------------------------------ account deletion

  /**
   * api_delete_account (app.py:984-996) with the cascades of the User
   * relationships (app.py:76-96): the entries the user received, their
   * shares in bills, then with the user row the entries they sent, their
   * goals, the contacts they own and their scheduled payments.
   */
  function DeleteAccount(db: Db, uid: UserId): (r: Db)
    ensures r.users == db.users - {uid} && r.bills == db.bills && r.nextId == db.nextId
  {
    db.(users := db.users - {uid},
        txns := Filter(Filter(db.txns, NotReceivedBy(uid)), NotSentBy(uid)),
        members := Filter(db.members, NotShareOf(uid)),
        goals := Filter(db.goals, NotGoalOf(uid)),
        contacts := Filter(db.contacts, NotContactOf(uid)),
        schedules := Filter(db.schedules, NotScheduleOf(uid)))
  }

  /** Deleting an account removes exactly the entries the user sent or received. */
  lemma DeleteAccountEntries(db: Db, uid: UserId)
    ensures var r := DeleteAccount(db, uid);
      && (forall i :: 0 <= i < |r.txns| ==> !Involves(r.txns[i], uid) && r.txns[i] in db.txns)
      && (forall i :: 0 <= i < |db.txns| && !Involves(db.txns[i], uid) ==> db.txns[i] in r.txns)
  {
    var p, q := NotReceivedBy(uid), NotSentBy(uid);
    var r := Filter(Filter(db.txns, p), q);
    FilterTwice(db.txns, p, q);
    forall i | 0 <= i < |r| ensures !Involves(r[i], uid) && r[i] in db.txns {
      assert p(r[i]) && q(r[i]);
    }
    forall i | 0 <= i < |db.txns| && !Involves(db.txns[i], uid) ensures db.txns[i] in r {
      assert p(db.txns[i]) && q(db.txns[i]);
    }
  }

  /** Deleting an account removes exactly the user's shares in bills and the goals they own. */
  lemma DeleteAccountShares(db: Db, uid: UserId)
    ensures var r := DeleteAccount(db, uid);
      && (forall i :: 0 <= i < |r.members| ==> r.members[i].user != uid && r.members[i] in db.members)
      && (forall i :: 0 <= i < |db.members| && db.members[i].user != uid ==> db.members[i] in r.members)
      && (forall i :: 0 <= i < |r.goals| ==> r.goals[i].owner != uid && r.goals[i] in db.goals)
      && (forall i :: 0 <= i < |db.goals| && db.goals[i].owner != uid ==> db.goals[i] in r.goals)
  {
    FilterMembers(db.members, NotShareOf(uid));
    FilterMembers(db.goals, NotGoalOf(uid));
  }

  /** Deleting an account removes exactly the contacts the user owns and the payments they scheduled. */
  lemma DeleteAccountCascades(db: Db, uid: UserId)
    ensures var r := DeleteAccount(db, uid);
      && (forall i :: 0 <= i < |r.contacts| ==> r.contacts[i].owner != uid && r.contacts[i] in db.contacts)
      && (forall i :: 0 <= i < |db.contacts| && db.contacts[i].owner != uid ==> db.contacts[i] in r.contacts)
      && (forall i :: 0 <= i < |r.schedules| ==> r.schedules[i].sender != uid && r.schedules[i] in db.schedules)
      && (forall i :: 0 <= i < |db.schedules| && db.schedules[i].sender != uid ==> db.schedules[i] in r.schedules)
  {
    FilterMembers(db.contacts, NotContactOf(uid));
    FilterMembers(db.schedules, NotScheduleOf(uid));
  }
}
