/**
 * Properties that relate two requests: an operation and the one that
 * undoes it, and the operations that settle something only once.
 */
module Partners {
  import opened Wrappers
  import opened Gamification
  import opened Money
  import opened Records
  import opened Tables
  import opened Books
  import opened Bank
  import opened Api

  /** What a user holds: the main balance plus the savings balance. */
  function Holdings(u: User): int
  {
    u.balance + u.savings
  }

  /** A goal lookup survives a change to the goal it found that keeps its id and owner. */
  lemma GoalIndexUpdate(goals: seq<Goal>, gid: nat, uid: UserId, i: nat, g: Goal)
    requires GoalIndex(goals, gid, uid) == Some(i) && g.id == gid && g.owner == uid
    ensures GoalIndex(goals[i := g], gid, uid) == Some(i)
  {
    var s' := goals[i := g];
    assert s'[i].id == gid && s'[i].owner == uid;
    var k := GoalIndex(s', gid, uid);
    assert k.Some? && k.value <= i;
  }

  /** A schedule lookup survives a change to the row it found that keeps its id and sender. */
  lemma ScheduleIndexUpdate(schedules: seq<Schedule>, sid: nat, uid: UserId, i: nat, s: Schedule)
    requires ScheduleIndex(schedules, sid, uid) == Some(i) && s.id == sid && s.sender == uid
    ensures ScheduleIndex(schedules[i := s], sid, uid) == Some(i)
  {
    var s' := schedules[i := s];
    assert s'[i].id == sid && s'[i].sender == uid;
    var k := ScheduleIndex(s', sid, uid);
    assert k.Some? && k.value <= i;
  }

  /** Withdrawing what was just deposited restores the balance; both totals keep the two moves. */
  lemma DepositThenWithdraw(db: Db, uid: UserId, amount: int)
    requires uid in db.users && db.users[uid].balance >= 0 && 0 < amount <= MaxDeposit
    ensures uid in Api.Deposit(db, uid, amount).db.users
    ensures var d := Api.Deposit(db, uid, amount).db;
      var w := Withdraw(d, uid, amount);
      && w.result.Ok?
      && w.db.users[uid].balance == db.users[uid].balance
      && w.db.users[uid].totalReceived == db.users[uid].totalReceived + amount
      && w.db.users[uid].totalSent == db.users[uid].totalSent + amount
      && w.db.txns == db.txns + [Txn(db.nextId, None, Some(uid), amount, 0, TxnKind.Deposit, "other"),
                                 Txn(db.nextId + 1, Some(uid), None, amount, 0, Withdrawal, "other")]
  {
  }

  /**
   * Taking out of a goal what was just put in restores the goal, the
   * balance and the savings balance.
   */
  lemma SavingsDepositThenWithdraw(db: Db, uid: UserId, gid: nat, amount: int)
    requires uid in db.users && SavingsDeposit(db, uid, gid, amount).result.Ok?
    requires forall i :: 0 <= i < |db.goals| ==> db.goals[i].current >= 0
    ensures uid in SavingsDeposit(db, uid, gid, amount).db.users
    ensures var d := SavingsDeposit(db, uid, gid, amount).db;
      var w := SavingsWithdraw(d, uid, gid, amount);
      && w.result.Ok?
      && w.db.goals == db.goals
      && w.db.users[uid].balance == db.users[uid].balance
      && w.db.users[uid].savings == db.users[uid].savings
  {
    var i := GoalIndex(db.goals, gid, uid).value;
    var g := db.goals[i];
    var d := SavingsDeposit(db, uid, gid, amount).db;
    GoalIndexUpdate(db.goals, gid, uid, i, g.(current := g.current + amount));
    assert d.goals[i := g] == db.goals;
  }

  /** Moving money into, out of or back from goals leaves balance plus savings as it was. */
  lemma SavingsKeepHoldings(db: Db, uid: UserId, gid: nat, amount: int)
    requires uid in db.users
    ensures uid in SavingsDeposit(db, uid, gid, amount).db.users
    ensures uid in SavingsWithdraw(db, uid, gid, amount).db.users
    ensures uid in SavingsDelete(db, uid, gid).db.users
    ensures Holdings(SavingsDeposit(db, uid, gid, amount).db.users[uid]) == Holdings(db.users[uid])
    ensures Holdings(SavingsWithdraw(db, uid, gid, amount).db.users[uid]) == Holdings(db.users[uid])
    ensures Holdings(SavingsDelete(db, uid, gid).db.users[uid]) == Holdings(db.users[uid])
  {
  }

  /** Adding the same person twice is refused the second time, and nothing changes. */
  lemma ContactAddTwice(db: Db, uid: UserId, identifier: string, nickname: string, nickname': string)
    requires uid in db.users && ContactAdd(db, uid, identifier, nickname).result.Ok?
    ensures var d := ContactAdd(db, uid, identifier, nickname).db;
      ContactAdd(d, uid, identifier, nickname') == Reply(d, Err(AlreadyExists))
  {
    var d := ContactAdd(db, uid, identifier, nickname).db;
    var peer := Resolve(db.users, db.nextId, identifier).value;
    ResolveWiden(db.users, db.nextId, d.nextId, identifier);
    assert d.contacts[|db.contacts|] == Contact(db.nextId, uid, peer, nickname);
  }

  /** A share is settled once: with one unpaid share, a second payment is refused and moves nothing. */
  lemma SplitPayOnce(db: Db, uid: UserId, billId: nat)
    requires uid in db.users && UnpaidCount(db.members, billId, uid) == 1
    requires SplitPay(db, uid, billId).result.Ok?
    ensures uid in SplitPay(db, uid, billId).db.users
    ensures var d := SplitPay(db, uid, billId).db;
      SplitPay(d, uid, billId) == Reply(d, Err(NothingToPay))
  {
  }

  /** A second sign-in on the same day changes nothing. */
  lemma LoginTwice(db: Db, uid: UserId, today: int)
    requires uid in db.users
    ensures Login(Login(db, uid, today), uid, today) == Login(db, uid, today)
  {
    var d := Login(db, uid, today);
    assert d.users[uid].lastLogin == Some(today);
    assert d.users[uid := d.users[uid]] == d.users;
  }

  /** Someone who has just signed up and signs in again that day gets the same account and changes nothing. */
  lemma SignUpThenSignIn(db: Db, email: string, accountNumber: string, accountNumber': string, today: int)
    requires FindByEmail(db.users, db.nextId, email).None? && !AccountNumberTaken(db.users, accountNumber)
    ensures var d := SignIn(db, email, accountNumber, today);
      SignIn(d.db, email, accountNumber', today) == Reply(d.db, Ok(db.nextId))
  {
    var d := SignIn(db, email, accountNumber, today).db;
    var n := db.nextId;
    var found := FindByEmail(d.users, d.nextId, email);
    assert d.users[n].email == email;
    assert found == Some(n) by {
      assert found.Some?;
      assert found.value <= n;
    }
    assert d.users[n].lastLogin == Some(today);
    assert d.users[n := d.users[n]] == d.users;
  }

  /** Cancelling a scheduled payment twice has the effect of cancelling it once. */
  lemma ScheduleDeleteTwice(db: Db, uid: UserId, sid: nat)
    ensures var d := ScheduleDelete(db, uid, sid).db;
      ScheduleDelete(d, uid, sid).db == d
  {
    match ScheduleIndex(db.schedules, sid, uid)
    case None =>
    case Some(i) =>
      var d := ScheduleDelete(db, uid, sid).db;
      ScheduleIndexUpdate(db.schedules, sid, uid, i, db.schedules[i].(active := false));
      assert d.schedules[i := d.schedules[i].(active := false)] == d.schedules;
  }
}
