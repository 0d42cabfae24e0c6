/**
 * Every handler keeps the database consistent: balances and savings never
 * go negative, tiers follow xp, the ledger names only live users, savings
 * equal what the goals hold, contacts stay unique, and no share is negative.
 * Every handler except account deletion also keeps the running totals of
 * each user in step with the transactions table. No handler takes xp away.
 */
module Safety {
  import opened Wrappers
  import opened Gamification
  import opened Money
  import opened Records
  import opened Tables
  import opened Books
  import opened Bank
  import opened Api

  /** What a handler must keep between the database before and after it. */
  ghost predicate Preserved(db: Db, db': Db)
  {
    && Consistent(db')
    && (Reconciled(db) ==> Reconciled(db'))
    && XpKept(db.users, db'.users)
  }

  /**
   * Changing one existing row while the other tables and the id bound stay
   * put keeps everything, provided the row keeps its savings and its totals
   * and does not lose xp.
   */
  lemma RowChanged(db: Db, uid: UserId, v: User, bound: nat)
    requires Consistent(db) && uid in db.users && db.nextId <= bound
    requires UserOk(v) && v.xp >= db.users[uid].xp && v.savings == db.users[uid].savings
    requires v.totalSent == db.users[uid].totalSent && v.totalReceived == db.users[uid].totalReceived
    requires v.txnCount == db.users[uid].txnCount
    ensures Preserved(db, db.(users := db.users[uid := v], nextId := bound))
  {
    var db' := db.(users := db.users[uid := v], nextId := bound);
    UsersSet(db.users, db.nextId, bound, uid, v);
    TxnsWiden(db.txns, db.users, db'.users, db.nextId, bound);
    GoalsSet(db.goals, db.users, uid, v);
    if Reconciled(db) {
      CountersSet(db.users, db.txns, uid, v);
    }
  }

  /**
   * One new entry posted for one user, whose row moves by its share of the
   * entry; the goals may change as long as savings still match them.
   */
  lemma Posting(db: Db, uid: UserId, v: User, t: Txn, goals': seq<Goal>)
    requires Consistent(db) && uid in db.users
    requires UserOk(v) && v.xp >= db.users[uid].xp && GoalsOk(goals', db.users[uid := v])
    requires t.reference == db.nextId && TxnOk(t, db.users, db.nextId + 1)
    requires t.sender in {None, Some(uid)} && t.receiver in {None, Some(uid)} && Posted(db.users[uid], v, uid, t)
    ensures Preserved(db, db.(users := db.users[uid := v], txns := db.txns + [t], goals := goals',
                              nextId := db.nextId + 1))
  {
    var users' := db.users[uid := v];
    UsersSet(db.users, db.nextId, db.nextId + 1, uid, v);
    TxnsAppend(db.txns, db.users, users', db.nextId, db.nextId + 1, t);
    if Reconciled(db) {
      CountersPost(db.users, db.txns, t, uid, v);
    }
  }

  /** One new entry between two users, both rows moved by their shares; their savings stay. */
  lemma Posting2(db: Db, a: UserId, va: User, b: UserId, vb: User, t: Txn, contacts': seq<Contact>, bound: nat)
    requires Consistent(db) && a in db.users && b in db.users && a != b
    requires UserOk(va) && va.xp >= db.users[a].xp && va.savings == db.users[a].savings
    requires UserOk(vb) && vb.xp >= db.users[b].xp && vb.savings == db.users[b].savings
    requires t.reference == db.nextId < bound && TxnOk(t, db.users, bound) && ContactsOk(contacts')
    requires t.sender in {None, Some(a), Some(b)} && t.receiver in {None, Some(a), Some(b)}
    requires Posted(db.users[a], va, a, t) && Posted(db.users[b], vb, b, t)
    ensures Preserved(db, db.(users := db.users[a := va][b := vb], txns := db.txns + [t], contacts := contacts',
                              nextId := bound))
  {
    var users' := db.users[a := va][b := vb];
    UsersSet(db.users, db.nextId, bound, a, va);
    UsersSet(db.users[a := va], bound, bound, b, vb);
    TxnsAppend(db.txns, db.users, users', db.nextId, bound, t);
    GoalsSet(db.goals, db.users, a, va);
    GoalsSet(db.goals, db.users[a := va], b, vb);
    if Reconciled(db) {
      CountersPost2(db.users, db.txns, t, a, va, b, vb);
    }
  }

  lemma LoginKeeps(db: Db, uid: UserId, today: int)
    requires Consistent(db) && uid in db.users
    ensures Preserved(db, Login(db, uid, today))
  {
    var v := Relogged(db.users[uid], today);
    RowChanged(db, uid, v, db.nextId);
  }

  lemma SignInKeeps(db: Db, email: string, accountNumber: string, today: int)
    requires Consistent(db)
    ensures Preserved(db, SignIn(db, email, accountNumber, today).db)
  {
    match FindByEmail(db.users, db.nextId, email)
    case Some(id) => LoginKeeps(db, id, today);
    case None =>
      if !AccountNumberTaken(db.users, accountNumber) {
        var n := db.nextId;
        var v := Newcomer(email, accountNumber, today);
        var users' := db.users[n := v];
        UsersSet(db.users, n, n + 1, n, v);
        TxnsWiden(db.txns, db.users, users', n, n + 1);
        assert forall i :: 0 <= i < |db.goals| ==> db.goals[i].owner != n;
        SavingsOfStranger(db.goals, n);
        GoalsSet(db.goals, db.users, n, v);
        if Reconciled(db) {
          assert forall i :: 0 <= i < |db.txns| ==> !Involves(db.txns[i], n) by {
            forall i | 0 <= i < |db.txns| ensures !Involves(db.txns[i], n) {
              assert TxnOk(db.txns[i], db.users, n);
            }
          }
          LedgerStranger(db.txns, n);
          CountersSet(db.users, db.txns, n, v);
        }
      }
  }

  lemma DepositKeeps(db: Db, uid: UserId, amount: int)
    requires Consistent(db) && uid in db.users
    ensures Preserved(db, Api.Deposit(db, uid, amount).db)
  {
    if 0 < amount <= MaxDeposit {
      var u := db.users[uid];
      var t := Txn(db.nextId, None, Some(uid), amount, 0, TxnKind.Deposit, "other");
      var v := Awarded(u.(balance := u.balance + amount, totalReceived := u.totalReceived + amount), DepositXp);
      DepositEffect(db, uid, amount, v, t);
      DepositPosts(db, uid, amount, v, t);
    }
  }

  lemma DepositEffect(db: Db, uid: UserId, amount: int, v: User, t: Txn)
    requires uid in db.users && 0 < amount <= MaxDeposit
    requires t == Txn(db.nextId, None, Some(uid), amount, 0, TxnKind.Deposit, "other")
    requires v == Awarded(db.users[uid].(balance := db.users[uid].balance + amount,
                                         totalReceived := db.users[uid].totalReceived + amount), DepositXp)
    ensures Api.Deposit(db, uid, amount).db == db.(users := db.users[uid := v], txns := db.txns + [t], nextId := db.nextId + 1)
  {
  }

  lemma DepositPosts(db: Db, uid: UserId, amount: int, v: User, t: Txn)
    requires Consistent(db) && uid in db.users && 0 < amount
    requires t == Txn(db.nextId, None, Some(uid), amount, 0, TxnKind.Deposit, "other")
    requires v == Awarded(db.users[uid].(balance := db.users[uid].balance + amount,
                                         totalReceived := db.users[uid].totalReceived + amount), DepositXp)
    ensures Preserved(db, db.(users := db.users[uid := v], txns := db.txns + [t], nextId := db.nextId + 1))
  {
    GoalsSet(db.goals, db.users, uid, v);
    Posting(db, uid, v, t, db.goals);
  }


  lemma WithdrawKeeps(db: Db, uid: UserId, amount: int)
    requires Consistent(db) && uid in db.users
    ensures Preserved(db, Withdraw(db, uid, amount).db)
  {
    var u := db.users[uid];
    if 0 < amount <= u.balance {
      var t := Txn(db.nextId, Some(uid), None, amount, 0, Withdrawal, "other");
      var v := u.(balance := u.balance - amount, totalSent := u.totalSent + amount);
      WithdrawEffect(db, uid, amount, v, t);
      WithdrawPosts(db, uid, amount, v, t);
    }
  }

  lemma WithdrawEffect(db: Db, uid: UserId, amount: int, v: User, t: Txn)
    requires uid in db.users && 0 < amount <= db.users[uid].balance
    requires t == Txn(db.nextId, Some(uid), None, amount, 0, Withdrawal, "other")
    requires v == db.users[uid].(balance := db.users[uid].balance - amount, totalSent := db.users[uid].totalSent + amount)
    ensures Withdraw(db, uid, amount).db == db.(users := db.users[uid := v], txns := db.txns + [t], nextId := db.nextId + 1)
  {
  }

  lemma WithdrawPosts(db: Db, uid: UserId, amount: int, v: User, t: Txn)
    requires Consistent(db) && uid in db.users && 0 < amount <= db.users[uid].balance
    requires t == Txn(db.nextId, Some(uid), None, amount, 0, Withdrawal, "other")
    requires v == db.users[uid].(balance := db.users[uid].balance - amount, totalSent := db.users[uid].totalSent + amount)
    ensures Preserved(db, db.(users := db.users[uid := v], txns := db.txns + [t], nextId := db.nextId + 1))
  {
    GoalsSet(db.goals, db.users, uid, v);
    Posting(db, uid, v, t, db.goals);
  }


  lemma TransferKeeps(db: Db, uid: UserId, identifier: string, amount: int, category: string)
    requires Consistent(db) && uid in db.users
    ensures Preserved(db, Api.Transfer(db, uid, identifier, amount, category).db)
  {
    if Api.Transfer(db, uid, identifier, amount, category).result.Ok? {
      var rid, s', v', t, contacts', bound := TransferEffect(db, uid, identifier, amount, category);
      TransferPosts(db, uid, rid, s', v', t, contacts', bound);
    }
  }

  /** The rows a successful transfer writes, in terms of the rows it read. */
  ghost predicate TransferShape(db: Db, uid: UserId, rid: UserId, s': User, v': User, t: Txn,
                                contacts': seq<Contact>, bound: nat)
  {
    && uid in db.users && rid in db.users && uid != rid
    && t.amount > 0 && t.fee >= 0 && db.users[uid].balance >= t.amount + t.fee
    && s' == Awarded(db.users[uid].(balance := db.users[uid].balance - (t.amount + t.fee),
                                    totalSent := db.users[uid].totalSent + t.amount,
                                    txnCount := db.users[uid].txnCount + 1), TransferXp)
    && v' == db.users[rid].(balance := db.users[rid].balance + t.amount,
                            totalReceived := db.users[rid].totalReceived + t.amount,
                            txnCount := db.users[rid].txnCount + 1)
    && t == Txn(db.nextId, Some(uid), Some(rid), t.amount, t.fee, TxnKind.Transfer, t.category)
    && contacts' == (if HasContact(db.contacts, uid, rid) then db.contacts
                     else db.contacts + [Contact(db.nextId + 1, uid, rid, "")])
    && bound == if HasContact(db.contacts, uid, rid) then db.nextId + 1 else db.nextId + 2
  }

  lemma TransferEffect(db: Db, uid: UserId, identifier: string, amount: int, category: string)
    returns (rid: UserId, s': User, v': User, t: Txn, contacts': seq<Contact>, bound: nat)
    requires uid in db.users && Api.Transfer(db, uid, identifier, amount, category).result.Ok?
    ensures Resolve(db.users, db.nextId, identifier) == Some(rid)
    ensures t == Txn(db.nextId, Some(uid), Some(rid), amount, FeeOf(amount), TxnKind.Transfer, category)
    ensures TransferShape(db, uid, rid, s', v', t, contacts', bound)
    ensures Api.Transfer(db, uid, identifier, amount, category).db
         == db.(users := db.users[uid := s'][rid := v'], txns := db.txns + [t], contacts := contacts', nextId := bound)
  {
    assert 0 < amount <= MaxTransfer && identifier != [];
    rid := Resolve(db.users, db.nextId, identifier).value;
    var fee := FeeOf(amount);
    assert rid != uid && db.users[uid].balance >= amount + fee;
    var s, v := db.users[uid], db.users[rid];
    s' := Awarded(s.(balance := s.balance - (amount + fee), totalSent := s.totalSent + amount,
                     txnCount := s.txnCount + 1), TransferXp);
    v' := v.(balance := v.balance + amount, totalReceived := v.totalReceived + amount,
             txnCount := v.txnCount + 1);
    t := Txn(db.nextId, Some(uid), Some(rid), amount, fee, TxnKind.Transfer, category);
    var known := HasContact(db.contacts, uid, rid);
    contacts' := if known then db.contacts else db.contacts + [Contact(db.nextId + 1, uid, rid, "")];
    bound := if known then db.nextId + 1 else db.nextId + 2;
  }

  lemma TransferPosts(db: Db, uid: UserId, rid: UserId, s': User, v': User, t: Txn, contacts': seq<Contact>, bound: nat)
    requires Consistent(db) && TransferShape(db, uid, rid, s', v', t, contacts', bound)
    ensures Preserved(db, db.(users := db.users[uid := s'][rid := v'], txns := db.txns + [t], contacts := contacts',
                              nextId := bound))
  {
    if !HasContact(db.contacts, uid, rid) {
      ContactsAppend(db.contacts, Contact(db.nextId + 1, uid, rid, ""));
    }
    Posting2(db, uid, s', rid, v', t, contacts', bound);
  }

  lemma SavingsCreateKeeps(db: Db, uid: UserId, name: string, target: int)
    requires Consistent(db) && uid in db.users
    ensures Preserved(db, SavingsCreate(db, uid, name, target).db)
  {
    if name != [] && target > 0 {
      var v := Awarded(db.users[uid], GoalCreateXp);
      var g := Goal(db.nextId, uid, name, target, 0);
      GoalsAppend(db.goals, db.users, g);
      RowChanged(db.(goals := db.goals + [g]), uid, v, db.nextId + 1);
    }
  }

  lemma SavingsDepositKeeps(db: Db, uid: UserId, gid: nat, amount: int)
    requires Consistent(db) && uid in db.users
    ensures Preserved(db, SavingsDeposit(db, uid, gid, amount).db)
  {
    if SavingsDeposit(db, uid, gid, amount).result.Ok? {
      var i := GoalIndex(db.goals, gid, uid).value;
      var g, u := db.goals[i], db.users[uid];
      var g' := g.(current := g.current + amount);
      var t := Txn(db.nextId, Some(uid), None, amount, 0, Savings, "other");
      var v := Awarded(u.(balance := u.balance - amount, savings := u.savings + amount),
                       GoalDepositXp + GoalBonus(g.current, g.current + amount, g.target));
      SavingsDepositEffect(db, uid, gid, amount, i, v, t);
      SavingsDepositPosts(db, uid, amount, i, v, t);
    }
  }

  lemma SavingsDepositEffect(db: Db, uid: UserId, gid: nat, amount: int, i: nat, v: User, t: Txn)
    requires uid in db.users && SavingsDeposit(db, uid, gid, amount).result.Ok?
    requires GoalIndex(db.goals, gid, uid) == Some(i)
    requires t == Txn(db.nextId, Some(uid), None, amount, 0, Savings, "other")
    requires v == Awarded(db.users[uid].(balance := db.users[uid].balance - amount,
                                         savings := db.users[uid].savings + amount),
                          GoalDepositXp + GoalBonus(db.goals[i].current, db.goals[i].current + amount, db.goals[i].target))
    ensures SavingsDeposit(db, uid, gid, amount).db
         == db.(users := db.users[uid := v], goals := db.goals[i := db.goals[i].(current := db.goals[i].current + amount)],
                txns := db.txns + [t], nextId := db.nextId + 1)
  {
  }

  lemma SavingsDepositPosts(db: Db, uid: UserId, amount: int, i: nat, v: User, t: Txn)
    requires Consistent(db) && uid in db.users && i < |db.goals| && db.goals[i].owner == uid
    requires 0 < amount <= db.users[uid].balance
    requires t == Txn(db.nextId, Some(uid), None, amount, 0, Savings, "other")
    requires v == Awarded(db.users[uid].(balance := db.users[uid].balance - amount,
                                         savings := db.users[uid].savings + amount),
                          GoalDepositXp + GoalBonus(db.goals[i].current, db.goals[i].current + amount, db.goals[i].target))
    ensures Preserved(db, db.(users := db.users[uid := v], goals := db.goals[i := db.goals[i].(current := db.goals[i].current + amount)],
                              txns := db.txns + [t], nextId := db.nextId + 1))
  {
    var g' := db.goals[i].(current := db.goals[i].current + amount);
    GoalsUpdate(db.goals, db.users, i, g', v);
    Posting(db, uid, v, t, db.goals[i := g']);
  }


  lemma SavingsWithdrawKeeps(db: Db, uid: UserId, gid: nat, amount: int)
    requires Consistent(db) && uid in db.users
    ensures Preserved(db, SavingsWithdraw(db, uid, gid, amount).db)
  {
    if SavingsWithdraw(db, uid, gid, amount).result.Ok? {
      var i := GoalIndex(db.goals, gid, uid).value;
      var g, u := db.goals[i], db.users[uid];
      var v := u.(balance := u.balance + amount, savings := u.savings - amount);
      SavingsWithdrawEffect(db, uid, gid, amount, i, v);
      SavingsWithdrawPosts(db, uid, amount, i, v);
    }
  }

  lemma SavingsWithdrawEffect(db: Db, uid: UserId, gid: nat, amount: int, i: nat, v: User)
    requires uid in db.users && SavingsWithdraw(db, uid, gid, amount).result.Ok?
    requires GoalIndex(db.goals, gid, uid) == Some(i)
    requires v == db.users[uid].(balance := db.users[uid].balance + amount, savings := db.users[uid].savings - amount)
    ensures SavingsWithdraw(db, uid, gid, amount).db
         == db.(users := db.users[uid := v], goals := db.goals[i := db.goals[i].(current := db.goals[i].current - amount)])
  {
  }

  lemma SavingsWithdrawPosts(db: Db, uid: UserId, amount: int, i: nat, v: User)
    requires Consistent(db) && uid in db.users && i < |db.goals| && db.goals[i].owner == uid
    requires 0 < amount <= db.goals[i].current
    requires v == db.users[uid].(balance := db.users[uid].balance + amount, savings := db.users[uid].savings - amount)
    ensures Preserved(db, db.(users := db.users[uid := v], goals := db.goals[i := db.goals[i].(current := db.goals[i].current - amount)]))
  {
    var g' := db.goals[i].(current := db.goals[i].current - amount);
    SavingsCoverGoal(db.goals, i);
    UsersSet(db.users, db.nextId, db.nextId, uid, v);
    TxnsWiden(db.txns, db.users, db.users[uid := v], db.nextId, db.nextId);
    GoalsUpdate(db.goals, db.users, i, g', v);
    if Reconciled(db) {
      CountersSet(db.users, db.txns, uid, v);
    }
  }


  lemma SavingsDeleteKeeps(db: Db, uid: UserId, gid: nat)
    requires Consistent(db) && uid in db.users
    ensures Preserved(db, SavingsDelete(db, uid, gid).db)
  {
    var r := SavingsDelete(db, uid, gid);
    if r.result.Ok? {
      var i := GoalIndex(db.goals, gid, uid).value;
      var g, u := db.goals[i], db.users[uid];
      var v := if g.current > 0 then u.(balance := u.balance + g.current, savings := u.savings - g.current) else u;
      assert r.db.users == db.users[uid := v];
      SavingsCoverGoal(db.goals, i);
      UsersSet(db.users, db.nextId, db.nextId, uid, v);
      TxnsWiden(db.txns, db.users, r.db.users, db.nextId, db.nextId);
      GoalsRemove(db.goals, db.users, i, v);
      if Reconciled(db) {
        CountersSet(db.users, db.txns, uid, v);
      }
    }
  }

  lemma ContactAddKeeps(db: Db, uid: UserId, identifier: string, nickname: string)
    requires Consistent(db) && uid in db.users
    ensures Preserved(db, ContactAdd(db, uid, identifier, nickname).db)
  {
    var r := ContactAdd(db, uid, identifier, nickname);
    if r.result.Ok? {
      var peer := Resolve(db.users, db.nextId, identifier).value;
      ContactsAppend(db.contacts, Contact(db.nextId, uid, peer, nickname));
      TxnsWiden(db.txns, db.users, db.users, db.nextId, db.nextId + 1);
    }
  }

  lemma ContactDeleteKeeps(db: Db, uid: UserId, cid: nat)
    requires Consistent(db)
    ensures Preserved(db, ContactDelete(db, uid, cid).db)
  {
    match ContactIndex(db.contacts, cid, uid)
    case None =>
    case Some(i) => ContactsRemove(db.contacts, i);
  }

  lemma ScheduleCreateKeeps(db: Db, uid: UserId, identifier: string, amount: int, frequency: string, nextDate: string)
    requires Consistent(db) && uid in db.users
    ensures Preserved(db, ScheduleCreate(db, uid, identifier, amount, frequency, nextDate).db)
  {
    var r := ScheduleCreate(db, uid, identifier, amount, frequency, nextDate);
    if r.result.Ok? {
      RowChanged(db.(schedules := r.db.schedules), uid, Awarded(db.users[uid], ScheduleXp), db.nextId + 1);
    }
  }

  lemma ScheduleDeleteKeeps(db: Db, uid: UserId, sid: nat)
    requires Consistent(db)
    ensures Preserved(db, ScheduleDelete(db, uid, sid).db)
  {
    var r := ScheduleDelete(db, uid, sid);
    assert r.db == db.(schedules := r.db.schedules);
  }

  lemma SplitCreateKeeps(db: Db, uid: UserId, title: string, total: int, shares: seq<ShareRequest>)
    requires Consistent(db) && uid in db.users
    ensures Preserved(db, SplitCreate(db, uid, title, total, shares).db)
  {
    if SplitCreate(db, uid, title, total, shares).result.Ok? {
      var added := Shares(db.users, db.nextId, db.nextId, shares);
      var v := Awarded(db.users[uid], SplitCreateXp);
      SharesNonNegative(db.users, db.nextId, db.nextId, shares);
      SplitCreateEffect(db, uid, title, total, shares, added, v);
      SplitCreatePosts(db, uid, title, total, added, v);
    }
  }

  lemma SplitCreateEffect(db: Db, uid: UserId, title: string, total: int, shares: seq<ShareRequest>,
                          added: seq<Member>, v: User)
    requires uid in db.users && SplitCreate(db, uid, title, total, shares).result.Ok?
    requires added == Shares(db.users, db.nextId, db.nextId, shares)
    requires v == Awarded(db.users[uid], SplitCreateXp)
    ensures SplitCreate(db, uid, title, total, shares).db
         == db.(users := db.users[uid := v], bills := db.bills + [Bill(db.nextId, uid, title, total)],
                members := db.members + [Member(db.nextId, uid, 0, true)] + added, nextId := db.nextId + 1)
  {
  }

  lemma SplitCreatePosts(db: Db, uid: UserId, title: string, total: int, added: seq<Member>, v: User)
    requires Consistent(db) && uid in db.users && SharesOk(added)
    requires v == Awarded(db.users[uid], SplitCreateXp)
    ensures Preserved(db, db.(users := db.users[uid := v], bills := db.bills + [Bill(db.nextId, uid, title, total)],
                              members := db.members + [Member(db.nextId, uid, 0, true)] + added,
                              nextId := db.nextId + 1))
  {
    var members' := db.members + [Member(db.nextId, uid, 0, true)];
    SharesJoin(db.members, [Member(db.nextId, uid, 0, true)]);
    SharesJoin(members', added);
    RowChanged(db.(bills := db.bills + [Bill(db.nextId, uid, title, total)], members := members' + added),
               uid, v, db.nextId + 1);
  }

  lemma SplitPayKeeps(db: Db, uid: UserId, billId: nat)
    requires Consistent(db) && uid in db.users
    ensures Preserved(db, SplitPay(db, uid, billId).db)
  {
    if SplitPay(db, uid, billId).result.Ok? {
      var i := ShareIndex(db.members, billId, uid).value;
      var c := db.bills[BillIndex(db.bills, billId).value].creator;
      var m := db.members[i];
      var t := Txn(db.nextId, Some(uid), Some(c), m.owed, 0, Split, "other");
      var db1 := db.(members := db.members[i := m.(paid := true)]);
      SplitPayEffect(db, uid, billId, i, c, t);
      if c == uid {
        SplitPaySelf(db, db1, uid, t);
      } else {
        SplitPayOther(db, db1, uid, c, t);
      }
    }
  }

  lemma SplitPayEffect(db: Db, uid: UserId, billId: nat, i: nat, c: UserId, t: Txn)
    requires uid in db.users && SplitPay(db, uid, billId).result.Ok?
    requires ShareIndex(db.members, billId, uid) == Some(i)
    requires c == db.bills[BillIndex(db.bills, billId).value].creator
    requires t == Txn(db.nextId, Some(uid), Some(c), db.members[i].owed, 0, Split, "other")
    ensures c == uid ==> (SplitPay(db, uid, billId).db
         == db.(txns := db.txns + [t], members := db.members[i := db.members[i].(paid := true)], nextId := db.nextId + 1))
    ensures c != uid ==> (SplitPay(db, uid, billId).db
         == db.(users := db.users[uid := db.users[uid].(balance := db.users[uid].balance - t.amount)]
                                 [c := db.users[c].(balance := db.users[c].balance + t.amount)],
                txns := db.txns + [t], members := db.members[i := db.members[i].(paid := true)], nextId := db.nextId + 1))
  {
  }

  /** Paying a share of one's own bill moves no money; the entry and the settled share remain. */
  lemma SplitPaySelf(db: Db, db1: Db, uid: UserId, t: Txn)
    requires Consistent(db) && uid in db.users && SharesOk(db1.members) && db1 == db.(members := db1.members)
    requires t == Txn(db.nextId, Some(uid), Some(uid), t.amount, 0, Split, "other") && t.amount >= 0
    ensures Preserved(db, db1.(txns := db.txns + [t], nextId := db.nextId + 1))
  {
    assert db1.users[uid := db1.users[uid]] == db1.users;
    GoalsSet(db.goals, db.users, uid, db.users[uid]);
    Posting(db1, uid, db.users[uid], t, db.goals);
  }

  /** Paying a share of someone else's bill moves the amount from payer to creator. */
  lemma SplitPayOther(db: Db, db1: Db, uid: UserId, c: UserId, t: Txn)
    requires Consistent(db) && uid in db.users && c in db.users && uid != c
    requires SharesOk(db1.members) && db1 == db.(members := db1.members)
    requires t == Txn(db.nextId, Some(uid), Some(c), t.amount, 0, Split, "other") && 0 <= t.amount <= db.users[uid].balance
    ensures Preserved(db, db1.(users := db.users[uid := db.users[uid].(balance := db.users[uid].balance - t.amount)]
                                                [c := db.users[c].(balance := db.users[c].balance + t.amount)],
                               txns := db.txns + [t], nextId := db.nextId + 1))
  {
    Posting2(db1, uid, db.users[uid].(balance := db.users[uid].balance - t.amount),
             c, db.users[c].(balance := db.users[c].balance + t.amount), t, db.contacts, db.nextId + 1);
  }

  /**
   * Deleting an account keeps the database consistent. The running totals
   * of the other party of a deleted entry keep counting it, so the
   * reconciliation with the ledger is not kept.
   */
  lemma DeleteAccountKeeps(db: Db, uid: UserId)
    requires Consistent(db)
    ensures var r := DeleteAccount(db, uid); Consistent(r) && XpKept(db.users, r.users)
  {
    DeleteTxns(db.txns, db.users, db.nextId, uid);
    DeleteGoals(db.goals, db.users, uid);
    FilterKeepsContacts(db.contacts, NotContactOf(uid));
    DeleteShares(db.members, uid);
  }
}
