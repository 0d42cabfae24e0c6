/**
 * The wallet's database as one object whose tables the request handlers
 * update in place, step by step as app.py does. Each handler is proved to
 * leave exactly the database and answer its `Api` function describes, and
 * to keep the consistency conditions of `Bank.Consistent`.
 */
module Wallet {
  import opened Wrappers
  import opened Gamification
  import opened Money
  import opened Records
  import opened Tables
  import opened Books
  import opened Bank
  import opened Api
  import opened Safety

  /** Writing key `a` again after writing `b` is writing `a` last value first. */
  lemma OverwriteFirst<K, V>(m: map<K, V>, a: K, b: K, x: V, y: V, z: V)
    requires a != b
    ensures m[a := x][b := y][a := z] == m[a := z][b := y]
  {
  }

  /** Preservation proved of a handler's result carries over to any state equal to it. */
  lemma Carried(before: Db, a: Db, b: Db)
    requires a == b
    requires Consistent(before) ==> Preserved(before, a)
    ensures Consistent(before) ==> Consistent(b) && (Bank.Reconciled(before) ==> Bank.Reconciled(b))
  {
  }

  /** Deleting an account keeps the database consistent, whatever value the tables are held in. */
  lemma DeletedValid(before: Db, after: Db, uid: UserId)
    requires after == Api.DeleteAccount(before, uid)
    ensures Consistent(before) ==> Consistent(after)
  {
    if Consistent(before) {
      DeleteAccountKeeps(before, uid);
    }
  }

  /** The tables once a transfer of `amount` with `fee` from `uid` to `rid` is committed. */
  ghost function Paid(db: Db, uid: UserId, rid: UserId, amount: int, fee: int, category: string): Db
    requires uid in db.users && rid in db.users
  {
    var s, v := db.users[uid], db.users[rid];
    var known := HasContact(db.contacts, uid, rid);
    db.(users := db.users[uid := Awarded(s.(balance := s.balance - (amount + fee), totalSent := s.totalSent + amount,
                                            txnCount := s.txnCount + 1), TransferXp)]
                         [rid := v.(balance := v.balance + amount, totalReceived := v.totalReceived + amount,
                                    txnCount := v.txnCount + 1)],
        txns := db.txns + [Txn(db.nextId, Some(uid), Some(rid), amount, fee, TxnKind.Transfer, category)],
        contacts := if known then db.contacts else db.contacts + [Contact(db.nextId + 1, uid, rid, "")],
        nextId := if known then db.nextId + 1 else db.nextId + 2)
  }

  /**
   * A transfer that passed every check of api_transfer and was committed
   * gives the answer and the tables `Api.Transfer` describes, and keeps
   * the database consistent and reconciled.
   */
  lemma TransferCommitted(before: Db, uid: UserId, identifier: string, amount: int, category: string, rid: UserId,
                          after: Db)
    requires uid in before.users && 0 < amount <= MaxTransfer && identifier != []
    requires Resolve(before.users, before.nextId, identifier) == Some(rid) && rid != uid
    requires before.users[uid].balance >= amount + FeeOf(amount)
    requires after == Paid(before, uid, rid, amount, FeeOf(amount), category)
    ensures Reply(after, Ok((before.nextId, FeeOf(amount)))) == Api.Transfer(before, uid, identifier, amount, category)
    ensures Consistent(before) ==> Consistent(after) && (Bank.Reconciled(before) ==> Bank.Reconciled(after))
  {
    assert Api.Transfer(before, uid, identifier, amount, category) == Reply(after, Ok((before.nextId, FeeOf(amount))));
    if Consistent(before) {
      TransferKeeps(before, uid, identifier, amount, category);
    }
    Carried(before, Api.Transfer(before, uid, identifier, amount, category).db, after);
  }

  /** The tables once a savings deposit of `amount` into goal row `i` is committed. */
  ghost function Saved(db: Db, uid: UserId, i: nat, amount: int): Db
    requires uid in db.users && i < |db.goals|
  {
    var u, g := db.users[uid], db.goals[i];
    db.(users := db.users[uid := Awarded(u.(balance := u.balance - amount, savings := u.savings + amount),
                                         GoalDepositXp + GoalBonus(g.current, g.current + amount, g.target))],
        goals := db.goals[i := g.(current := g.current + amount)],
        txns := db.txns + [Txn(db.nextId, Some(uid), None, amount, 0, Savings, "other")],
        nextId := db.nextId + 1)
  }

  /**
   * A savings deposit that passed the checks of api_savings_deposit and was
   * committed gives the answer and the tables `Api.SavingsDeposit`
   * describes, and keeps the database consistent and reconciled.
   */
  lemma SavingsDepositCommitted(before: Db, uid: UserId, gid: nat, amount: int, i: nat, after: Db)
    requires uid in before.users && GoalIndex(before.goals, gid, uid) == Some(i)
    requires 0 < amount <= before.users[uid].balance
    requires after == Saved(before, uid, i, amount)
    ensures Reply(after, Ok(before.nextId)) == Api.SavingsDeposit(before, uid, gid, amount)
    ensures Consistent(before) ==> Consistent(after) && (Bank.Reconciled(before) ==> Bank.Reconciled(after))
  {
    assert Api.SavingsDeposit(before, uid, gid, amount) == Reply(after, Ok(before.nextId));
    if Consistent(before) {
      SavingsDepositKeeps(before, uid, gid, amount);
    }
    Carried(before, Api.SavingsDeposit(before, uid, gid, amount).db, after);
  }

  /** The tables once the share in row `i` is paid to the bill's creator `c`. */
  ghost function Settled(db: Db, uid: UserId, i: nat, c: UserId): Db
    requires uid in db.users && c in db.users && i < |db.members|
  {
    var m, p := db.members[i], db.users[uid];
    var paid := db.users[uid := p.(balance := p.balance - m.owed)];
    db.(users := paid[c := paid[c].(balance := paid[c].balance + m.owed)],
        txns := db.txns + [Txn(db.nextId, Some(uid), Some(c), m.owed, 0, Split, "other")],
        members := db.members[i := m.(paid := true)],
        nextId := db.nextId + 1)
  }

  /** Paying an unpaid share that the payer can afford and whose bill and creator exist is `Settled`. */
  lemma SplitPaySettles(before: Db, uid: UserId, billId: nat, i: nat, c: UserId)
    requires uid in before.users && ShareIndex(before.members, billId, uid) == Some(i)
    requires before.users[uid].balance >= before.members[i].owed
    requires BillIndex(before.bills, billId).Some? && c == before.bills[BillIndex(before.bills, billId).value].creator
    requires c in before.users
    ensures Api.SplitPay(before, uid, billId) == Reply(Settled(before, uid, i, c), Ok(before.nextId))
  {
  }

  /**
   * A share payment that passed the checks of api_split_pay and was
   * committed gives the answer and the tables `Api.SplitPay` describes,
   * and keeps the database consistent and reconciled.
   */
  lemma SplitPayCommitted(before: Db, uid: UserId, billId: nat, i: nat, c: UserId, after: Db)
    requires uid in before.users && ShareIndex(before.members, billId, uid) == Some(i)
    requires before.users[uid].balance >= before.members[i].owed
    requires BillIndex(before.bills, billId).Some? && c == before.bills[BillIndex(before.bills, billId).value].creator
    requires c in before.users
    requires after == Settled(before, uid, i, c)
    ensures Reply(after, Ok(before.nextId)) == Api.SplitPay(before, uid, billId)
    ensures Consistent(before) ==> Consistent(after) && (Bank.Reconciled(before) ==> Bank.Reconciled(after))
  {
    SplitPaySettles(before, uid, billId, i, c);
    if Consistent(before) {
      SplitPayKeeps(before, uid, billId);
    }
    Carried(before, Api.SplitPay(before, uid, billId).db, after);
  }

  /** The tables once a bill with its shares is opened by `uid`. */
  ghost function Opened(db: Db, uid: UserId, title: string, total: int, shares: seq<ShareRequest>): Db
    requires uid in db.users
  {
    db.(users := db.users[uid := Awarded(db.users[uid], SplitCreateXp)],
        bills := db.bills + [Bill(db.nextId, uid, title, total)],
        members := db.members + [Member(db.nextId, uid, 0, true)] + Shares(db.users, db.nextId, db.nextId, shares),
        nextId := db.nextId + 1)
  }

  /**
   * A bill that passed the checks of api_split_create and was committed
   * gives the answer and the tables `Api.SplitCreate` describes, and keeps
   * the database consistent and reconciled.
   */
  lemma SplitCreateCommitted(before: Db, uid: UserId, title: string, total: int, shares: seq<ShareRequest>, after: Db)
    requires uid in before.users && title != [] && total > 0 && shares != []
    requires forall k :: 0 <= k < |shares| ==> shares[k].amount >= 0
    requires after == Opened(before, uid, title, total, shares)
    ensures Reply(after, Ok(before.nextId)) == Api.SplitCreate(before, uid, title, total, shares)
    ensures Consistent(before) ==> Consistent(after) && (Bank.Reconciled(before) ==> Bank.Reconciled(after))
  {
    assert Api.SplitCreate(before, uid, title, total, shares) == Reply(after, Ok(before.nextId));
    if Consistent(before) {
      SplitCreateKeeps(before, uid, title, total, shares);
    }
    Carried(before, Api.SplitCreate(before, uid, title, total, shares).db, after);
  }

  class Ledger {
    var users: map<UserId, User>
    var txns: seq<Txn>
    var goals: seq<Goal>
    var contacts: seq<Contact>
    var schedules: seq<Schedule>
    var bills: seq<Bill>
    var members: seq<Member>
    /** The next unused id: user ids, transaction references and row ids are drawn from it. */
    var nextId: nat

    /** The tables as one value. */
    function State(): Db
      reads this
    {
      Db(users, txns, goals, contacts, schedules, bills, members, nextId)
    }

    ghost predicate Valid()
      reads this
    {
      Consistent(State())
    }

    /** total_sent, total_received and total_txn_count agree with the transactions table. */
    ghost predicate Reconciled()
      reads this
    {
      Bank.Reconciled(State())
    }

    constructor ()
      ensures Valid() && Reconciled()
      ensures State() == Db(map[], [], [], [], [], [], [], 0)
    {
      users, txns, goals, contacts := map[], [], [], [];
      schedules, bills, members, nextId := [], [], [], 0;
    }

    /** User.award_xp (app.py:98-105): xp rises by `points`, the tier is chosen again. */
    method AwardXp(uid: UserId, points: nat)
      requires uid in users
      modifies this`users
      ensures users == old(users)[uid := Awarded(old(users)[uid], points)]
    {
      var u := users[uid];
      var t := SelectTier(u.xp + points);
      users := users[uid := u.(xp := u.xp + points, tier := t)];
    }

    /** The returning-user branch of the OAuth callback (app.py:372-384). */
    method Login(uid: UserId, today: int)
      requires uid in users
      modifies this`users
      ensures State() == Api.Login(old(State()), uid, today)
      ensures old(Valid()) ==> Valid() && (old(Reconciled()) ==> Reconciled())
    {
      ghost var before := State();
      var u := users[uid];
      if u.lastLogin == Some(today - 1) {
        users := users[uid := u.(streak := u.streak + 1)];
        AwardXp(uid, StreakXp);
        if users[uid].streak % 7 == 0 {
          AwardXp(uid, WeeklyBonusXp);
        }
      } else if u.lastLogin != Some(today) {
        users := users[uid := u.(streak := 1)];
      }
      users := users[uid := users[uid].(lastLogin := Some(today))];
      assert users == before.users[uid := Relogged(u, today)];
      if Consistent(before) {
        LoginKeeps(before, uid, today);
      }
      Carried(before, Api.Login(before, uid, today), State());
    }

    /**
     * The OAuth callback once the provider has named the email
     * (app.py:356-386): a known email signs in, an unknown one opens an
     * account with the welcome balance under the given account number.
     */
    method SignIn(email: string, accountNumber: string, today: int) returns (r: Result<UserId>)
      modifies this`users, this`nextId
      ensures Reply(State(), r) == Api.SignIn(old(State()), email, accountNumber, today)
      ensures old(Valid()) ==> Valid() && (old(Reconciled()) ==> Reconciled())
    {
      ghost var before := State();
      var known := FindByEmail(users, nextId, email);
      if known.Some? {
        Login(known.value, today);
        return Ok(known.value);
      }
      if AccountNumberTaken(users, accountNumber) {
        return Err(Internal);
      }
      var id := nextId;
      users := users[id := User(email, accountNumber, WelcomeBalance, 0, 0, Bronze, 0, Some(today), 0, 0, 0)];
      nextId := nextId + 1;
      AwardXp(id, SignupXp);
      r := Ok(id);
      if Consistent(before) {
        SignInKeeps(before, email, accountNumber, today);
      }
      Carried(before, Api.SignIn(before, email, accountNumber, today).db, State());
    }

    /** api_deposit (app.py:491-515). */
    method Deposit(uid: UserId, amount: int) returns (r: Result<nat>)
      requires uid in users
      modifies this`users, this`txns, this`nextId
      ensures Reply(State(), r) == Api.Deposit(old(State()), uid, amount)
      ensures old(Valid()) ==> Valid() && (old(Reconciled()) ==> Reconciled())
    {
      ghost var before := State();
      if amount <= 0 || amount > MaxDeposit {
        return Err(InvalidAmount);
      }
      var u := users[uid];
      users := users[uid := u.(balance := u.balance + amount, totalReceived := u.totalReceived + amount)];
      var reference := nextId;
      nextId := nextId + 1;
      var t := Txn(reference, None, Some(uid), amount, 0, TxnKind.Deposit, "other");
      txns := txns + [t];
      AwardXp(uid, DepositXp);
      r := Ok(reference);
      DepositEffect(before, uid, amount, users[uid], t);
      if Consistent(before) {
        DepositPosts(before, uid, amount, users[uid], t);
      }
      Carried(before, Api.Deposit(before, uid, amount).db, State());
    }

    /** api_withdraw (app.py:518-541). */
    method Withdraw(uid: UserId, amount: int) returns (r: Result<nat>)
      requires uid in users
      modifies this`users, this`txns, this`nextId
      ensures Reply(State(), r) == Api.Withdraw(old(State()), uid, amount)
      ensures old(Valid()) ==> Valid() && (old(Reconciled()) ==> Reconciled())
    {
      ghost var before := State();
      if amount <= 0 {
        return Err(InvalidAmount);
      }
      if users[uid].balance < amount {
        return Err(InsufficientFunds);
      }
      var u := users[uid];
      users := users[uid := u.(balance := u.balance - amount, totalSent := u.totalSent + amount)];
      var reference := nextId;
      nextId := nextId + 1;
      var t := Txn(reference, Some(uid), None, amount, 0, Withdrawal, "other");
      txns := txns + [t];
      r := Ok(reference);
      WithdrawEffect(before, uid, amount, users[uid], t);
      if Consistent(before) {
        WithdrawPosts(before, uid, amount, users[uid], t);
      }
      Carried(before, Api.Withdraw(before, uid, amount).db, State());
    }

    /** api_transfer (app.py:544-607): the reference and the fee are the answer. */
    method Transfer(uid: UserId, identifier: string, amount: int, category: string) returns (r: Result<(nat, int)>)
      requires uid in users
      modifies this`users, this`txns, this`contacts, this`nextId
      ensures Reply(State(), r) == Api.Transfer(old(State()), uid, identifier, amount, category)
      ensures old(Valid()) ==> Valid() && (old(Reconciled()) ==> Reconciled())
    {
      ghost var before := State();
      if amount <= 0 {
        return Err(InvalidAmount);
      }
      if amount > MaxTransfer {
        return Err(LimitExceeded);
      }
      if identifier == [] {
        return Err(MissingField);
      }
      var found := Resolve(users, nextId, identifier);
      if found.None? {
        return Err(RecipientNotFound);
      }
      var rid := found.value;
      if rid == uid {
        return Err(SelfNotAllowed);
      }
      var fee := FeeOf(amount);
      if users[uid].balance < amount + fee {
        return Err(InsufficientFunds);
      }
      r := Pay(uid, rid, amount, fee, category);
      TransferCommitted(before, uid, identifier, amount, category, rid, State());
    }

    /**
     * The commit of a transfer (app.py:580-603): the sender pays amount
     * and fee and earns the transfer xp, the receiver is credited, the
     * entry is written, and the receiver becomes a contact if they were not.
     */
    method Pay(uid: UserId, rid: UserId, amount: int, fee: int, category: string) returns (r: Result<(nat, int)>)
      requires uid in users && rid in users && uid != rid
      modifies this`users, this`txns, this`contacts, this`nextId
      ensures State() == Paid(old(State()), uid, rid, amount, fee, category)
      ensures r == Ok((old(nextId), fee))
    {
      var s := users[uid];
      var s1 := s.(balance := s.balance - (amount + fee), totalSent := s.totalSent + amount, txnCount := s.txnCount + 1);
      users := users[uid := s1];
      var v := users[rid];
      var v1 := v.(balance := v.balance + amount, totalReceived := v.totalReceived + amount, txnCount := v.txnCount + 1);
      users := users[rid := v1];
      var reference := nextId;
      nextId := nextId + 1;
      txns := txns + [Txn(reference, Some(uid), Some(rid), amount, fee, TxnKind.Transfer, category)];
      AwardXp(uid, TransferXp);
      if !HasContact(contacts, uid, rid) {
        contacts := contacts + [Contact(nextId, uid, rid, "")];
        nextId := nextId + 1;
      }
      r := Ok((reference, fee));
      OverwriteFirst(old(users), uid, rid, s1, v1, Awarded(s1, TransferXp));
    }

    /** api_savings_create (app.py:680-702). */
    method SavingsCreate(uid: UserId, name: string, target: int) returns (r: Result<nat>)
      requires uid in users
      modifies this`users, this`goals, this`nextId
      ensures Reply(State(), r) == Api.SavingsCreate(old(State()), uid, name, target)
      ensures old(Valid()) ==> Valid() && (old(Reconciled()) ==> Reconciled())
    {
      ghost var before := State();
      if name == [] || target <= 0 {
        return Err(MissingField);
      }
      var id := nextId;
      nextId := nextId + 1;
      goals := goals + [Goal(id, uid, name, target, 0)];
      AwardXp(uid, GoalCreateXp);
      r := Ok(id);
      if Consistent(before) {
        SavingsCreateKeeps(before, uid, name, target);
      }
      Carried(before, Api.SavingsCreate(before, uid, name, target).db, State());
    }

    /** api_savings_deposit (app.py:705-735), the goal bonus paid on the deposit that reaches the target. */
    method SavingsDeposit(uid: UserId, gid: nat, amount: int) returns (r: Result<nat>)
      requires uid in users
      modifies this`users, this`goals, this`txns, this`nextId
      ensures Reply(State(), r) == Api.SavingsDeposit(old(State()), uid, gid, amount)
      ensures old(Valid()) ==> Valid() && (old(Reconciled()) ==> Reconciled())
    {
      ghost var before := State();
      var found := GoalIndex(goals, gid, uid);
      if found.None? {
        return Err(NotFound);
      }
      var i := found.value;
      if amount <= 0 || users[uid].balance < amount {
        return Err(InsufficientFunds);
      }
      r := Save(uid, i, amount);
      SavingsDepositCommitted(before, uid, gid, amount, i, State());
    }

    /**
     * The commit of a savings deposit (app.py:721-732): the money moves from
     * the balance to the goal, the entry is written, the deposit xp is
     * earned and the bonus when this deposit reaches the target.
     */
    method Save(uid: UserId, i: nat, amount: int) returns (r: Result<nat>)
      requires uid in users && i < |goals|
      modifies this`users, this`goals, this`txns, this`nextId
      ensures State() == Saved(old(State()), uid, i, amount)
      ensures r == Ok(old(nextId))
    {
      var u := users[uid];
      users := users[uid := u.(balance := u.balance - amount, savings := u.savings + amount)];
      var g := goals[i];
      goals := goals[i := g.(current := g.current + amount)];
      var reference := nextId;
      nextId := nextId + 1;
      txns := txns + [Txn(reference, Some(uid), None, amount, 0, Savings, "other")];
      AwardXp(uid, GoalDepositXp);
      if g.current < g.target <= g.current + amount {
        AwardXp(uid, GoalReachedXp);
      }
      r := Ok(reference);
      assert users == old(users)[uid := Awarded(u.(balance := u.balance - amount, savings := u.savings + amount),
                                                GoalDepositXp + GoalBonus(g.current, g.current + amount, g.target))];
    }

    /** api_savings_withdraw (app.py:737-756), refusing an amount that is not positive. */
    method SavingsWithdraw(uid: UserId, gid: nat, amount: int) returns (r: Result<()>)
      requires uid in users
      modifies this`users, this`goals
      ensures Reply(State(), r) == Api.SavingsWithdraw(old(State()), uid, gid, amount)
      ensures old(Valid()) ==> Valid() && (old(Reconciled()) ==> Reconciled())
    {
      ghost var before := State();
      if amount <= 0 {
        return Err(InvalidAmount);
      }
      var found := GoalIndex(goals, gid, uid);
      if found.None? || goals[found.value].current < amount {
        return Err(InsufficientSavings);
      }
      var i := found.value;
      var u := users[uid];
      users := users[uid := u.(balance := u.balance + amount, savings := u.savings - amount)];
      var g := goals[i];
      goals := goals[i := g.(current := g.current - amount)];
      r := Ok(());
      SavingsWithdrawEffect(before, uid, gid, amount, i, users[uid]);
      if Consistent(before) {
        SavingsWithdrawPosts(before, uid, amount, i, users[uid]);
      }
      Carried(before, Api.SavingsWithdraw(before, uid, gid, amount).db, State());
    }

    /** api_savings_delete (app.py:759-770). */
    method SavingsDelete(uid: UserId, gid: nat) returns (r: Result<()>)
      requires uid in users
      modifies this`users, this`goals
      ensures Reply(State(), r) == Api.SavingsDelete(old(State()), uid, gid)
      ensures old(Valid()) ==> Valid() && (old(Reconciled()) ==> Reconciled())
    {
      ghost var before := State();
      var found := GoalIndex(goals, gid, uid);
      if found.None? {
        return Err(NotFound);
      }
      var i := found.value;
      var g := goals[i];
      if g.current > 0 {
        var u := users[uid];
        users := users[uid := u.(balance := u.balance + g.current, savings := u.savings - g.current)];
      } else {
        assert users == users[uid := users[uid]];
      }
      goals := goals[..i] + goals[i + 1..];
      r := Ok(());
      if Consistent(before) {
        SavingsDeleteKeeps(before, uid, gid);
      }
      Carried(before, Api.SavingsDelete(before, uid, gid).db, State());
    }

    /** api_contact_add (app.py:794-817). */
    method ContactAdd(uid: UserId, identifier: string, nickname: string) returns (r: Result<nat>)
      requires uid in users
      modifies this`contacts, this`nextId
      ensures Reply(State(), r) == Api.ContactAdd(old(State()), uid, identifier, nickname)
      ensures old(Valid()) ==> Valid() && (old(Reconciled()) ==> Reconciled())
    {
      ghost var before := State();
      if identifier == [] {
        return Err(MissingField);
      }
      var found := Resolve(users, nextId, identifier);
      if found.None? {
        return Err(RecipientNotFound);
      }
      var peer := found.value;
      if peer == uid {
        return Err(SelfNotAllowed);
      }
      if HasContact(contacts, uid, peer) {
        return Err(AlreadyExists);
      }
      var id := nextId;
      nextId := nextId + 1;
      contacts := contacts + [Contact(id, uid, peer, nickname)];
      r := Ok(id);
      if Consistent(before) {
        ContactAddKeeps(before, uid, identifier, nickname);
      }
      Carried(before, Api.ContactAdd(before, uid, identifier, nickname).db, State());
    }

    /** api_contact_delete (app.py:820-828). */
    method ContactDelete(uid: UserId, cid: nat) returns (r: Result<()>)
      modifies this`contacts
      ensures Reply(State(), r) == Api.ContactDelete(old(State()), uid, cid)
      ensures old(Valid()) ==> Valid() && (old(Reconciled()) ==> Reconciled())
    {
      ghost var before := State();
      var found := ContactIndex(contacts, cid, uid);
      if found.None? {
        return Err(NotFound);
      }
      var i := found.value;
      contacts := contacts[..i] + contacts[i + 1..];
      r := Ok(());
      if Consistent(before) {
        ContactDeleteKeeps(before, uid, cid);
      }
      Carried(before, Api.ContactDelete(before, uid, cid).db, State());
    }

    /** api_sched_create (app.py:833-861). */
    method ScheduleCreate(uid: UserId, identifier: string, amount: int, frequency: string, nextDate: string)
      returns (r: Result<nat>)
      requires uid in users
      modifies this`users, this`schedules, this`nextId
      ensures Reply(State(), r) == Api.ScheduleCreate(old(State()), uid, identifier, amount, frequency, nextDate)
      ensures old(Valid()) ==> Valid() && (old(Reconciled()) ==> Reconciled())
    {
      ghost var before := State();
      if identifier == [] || amount <= 0 || nextDate == [] {
        return Err(MissingField);
      }
      var found := Resolve(users, nextId, identifier);
      if found.None? {
        return Err(RecipientNotFound);
      }
      var id := nextId;
      nextId := nextId + 1;
      schedules := schedules + [Schedule(id, uid, found.value, amount, frequency, nextDate, true)];
      AwardXp(uid, ScheduleXp);
      r := Ok(id);
      if Consistent(before) {
        ScheduleCreateKeeps(before, uid, identifier, amount, frequency, nextDate);
      }
      Carried(before, Api.ScheduleCreate(before, uid, identifier, amount, frequency, nextDate).db, State());
    }

    /** api_sched_delete (app.py:864-872): the row stays, inactive. */
    method ScheduleDelete(uid: UserId, sid: nat) returns (r: Result<()>)
      modifies this`schedules
      ensures Reply(State(), r) == Api.ScheduleDelete(old(State()), uid, sid)
      ensures old(Valid()) ==> Valid() && (old(Reconciled()) ==> Reconciled())
    {
      ghost var before := State();
      var found := ScheduleIndex(schedules, sid, uid);
      if found.None? {
        return Err(NotFound);
      }
      var i := found.value;
      schedules := schedules[i := schedules[i].(active := false)];
      r := Ok(());
      if Consistent(before) {
        ScheduleDeleteKeeps(before, uid, sid);
      }
      Carried(before, Api.ScheduleDelete(before, uid, sid).db, State());
    }

    /**
     * api_split_create (app.py:877-915), refusing negative shares: the bill,
     * the creator's settled zero share, then one share per request whose
     * identifier names a user, in request order.
     */
    method SplitCreate(uid: UserId, title: string, total: int, shares: seq<ShareRequest>) returns (r: Result<nat>)
      requires uid in users
      modifies this`users, this`bills, this`members, this`nextId
      ensures Reply(State(), r) == Api.SplitCreate(old(State()), uid, title, total, shares)
      ensures old(Valid()) ==> Valid() && (old(Reconciled()) ==> Reconciled())
    {
      ghost var before := State();
      if title == [] || total <= 0 || shares == [] {
        return Err(MissingField);
      }
      if exists k :: 0 <= k < |shares| && shares[k].amount < 0 {
        return Err(InvalidAmount);
      }
      r := Open(uid, title, total, shares);
      SplitCreateCommitted(before, uid, title, total, shares, State());
    }

    /**
     * The commit of a new bill (app.py:892-914): the bill, the creator's
     * settled zero share, the requested shares, and the creator's xp.
     */
    method Open(uid: UserId, title: string, total: int, shares: seq<ShareRequest>) returns (r: Result<nat>)
      requires uid in users
      modifies this`users, this`bills, this`members, this`nextId
      ensures State() == Opened(old(State()), uid, title, total, shares)
      ensures r == Ok(old(nextId))
    {
      var bid := nextId;
      nextId := nextId + 1;
      bills := bills + [Bill(bid, uid, title, total)];
      members := members + [Member(bid, uid, 0, true)];
      AddShares(bid, shares);
      assert members == old(members) + [Member(bid, uid, 0, true)] + Shares(old(users), bid, bid, shares);
      AwardXp(uid, SplitCreateXp);
      r := Ok(bid);
    }

    /**
     * The loop of api_split_create (app.py:900-911): one unpaid share per
     * request whose identifier names a user, in request order.
     */
    method AddShares(bid: nat, shares: seq<ShareRequest>)
      modifies this`members
      ensures members == old(members) + Shares(users, bid, bid, shares)
    {
      var i := 0;
      while i < |shares|
        invariant 0 <= i <= |shares|
        invariant members == old(members) + Shares(users, bid, bid, shares[..i])
      {
        assert shares[..i + 1][..i] == shares[..i];
        var found := Resolve(users, bid, shares[i].identifier);
        if found.Some? {
          members := members + [Member(bid, found.value, shares[i].amount, false)];
        }
        i := i + 1;
      }
      assert shares[..i] == shares;
    }

    /** api_split_pay (app.py:918-945). */
    method SplitPay(uid: UserId, billId: nat) returns (r: Result<nat>)
      requires uid in users
      modifies this`users, this`txns, this`members, this`nextId
      ensures Reply(State(), r) == Api.SplitPay(old(State()), uid, billId)
      ensures old(Valid()) ==> Valid() && (old(Reconciled()) ==> Reconciled())
    {
      ghost var before := State();
      var found := ShareIndex(members, billId, uid);
      if found.None? {
        return Err(NothingToPay);
      }
      var i := found.value;
      if users[uid].balance < members[i].owed {
        return Err(InsufficientFunds);
      }
      var b := BillIndex(bills, billId);
      if b.None? {
        return Err(Internal);
      }
      var c := bills[b.value].creator;
      if c !in users {
        return Err(Internal);
      }
      r := Settle(uid, i, c);
      SplitPayCommitted(before, uid, billId, i, c, State());
    }

    /**
     * The commit of a share payment (app.py:932-944): the payer pays the
     * share to the bill's creator, the entry is written and the share is
     * marked paid.
     */
    method Settle(uid: UserId, i: nat, c: UserId) returns (r: Result<nat>)
      requires uid in users && c in users && i < |members|
      modifies this`users, this`txns, this`members, this`nextId
      ensures State() == Settled(old(State()), uid, i, c)
      ensures r == Ok(old(nextId))
    {
      var m := members[i];
      var p := users[uid];
      users := users[uid := p.(balance := p.balance - m.owed)];
      users := users[c := users[c].(balance := users[c].balance + m.owed)];
      var reference := nextId;
      nextId := nextId + 1;
      txns := txns + [Txn(reference, Some(uid), Some(c), m.owed, 0, Split, "other")];
      members := members[i := m.(paid := true)];
      r := Ok(reference);
    }

    /**
     * api_delete_account (app.py:984-996) with the cascades of the User
     * relationships (app.py:76-96).
     */
    method DeleteAccount(uid: UserId)
      modifies this`users, this`txns, this`members, this`goals, this`contacts, this`schedules
      ensures State() == Api.DeleteAccount(old(State()), uid)
      ensures old(Valid()) ==> Valid()
    {
      ghost var before := State();
      txns := Filter(txns, NotReceivedBy(uid));
      members := Filter(members, NotShareOf(uid));
      users := users - {uid};
      txns := Filter(txns, NotSentBy(uid));
      goals := Filter(goals, NotGoalOf(uid));
      contacts := Filter(contacts, NotContactOf(uid));
      schedules := Filter(schedules, NotScheduleOf(uid));
      assert State() == before.(users := before.users - {uid},
                                txns := Filter(Filter(before.txns, NotReceivedBy(uid)), NotSentBy(uid)),
                                members := Filter(before.members, NotShareOf(uid)),
                                goals := Filter(before.goals, NotGoalOf(uid)),
                                contacts := Filter(before.contacts, NotContactOf(uid)),
                                schedules := Filter(before.schedules, NotScheduleOf(uid)));
      DeletedValid(before, State(), uid);
    }
  }
}
