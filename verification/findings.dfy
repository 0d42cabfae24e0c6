/**
 * Three places where app.py, as written, lets a request through that breaks
 * the wallet's own rules. Each is modelled here as written, with a lemma
 * that exhibits the failure; the rest of the model (module Api) uses the
 * corrected behaviour, whose properties are proved in Safety and below.
 */
module Findings {
  import opened Wrappers
  import opened Gamification
  import opened Records
  import opened Tables
  import opened Books
  import opened Bank
  import opened Api
  import opened Safety

  // ------------------------------------------------------------ savings withdrawal

  /**
   * api_savings_withdraw as written (app.py:741-756): only the goal's
   * current amount is compared with the amount, so an amount that is not
   * positive always passes.
   */
  function SavingsWithdrawAsWritten(db: Db, uid: UserId, gid: nat, amount: int): (r: Reply<()>)
    requires uid in db.users
    ensures r.result.Err? ==> r == Reply(db, Err(InsufficientSavings))
    ensures r.result.Ok? <==> GoalIndex(db.goals, gid, uid).Some? && db.goals[GoalIndex(db.goals, gid, uid).value].current >= amount
    ensures r.result.Ok? ==>
      r.db.users == db.users[uid := db.users[uid].(balance := db.users[uid].balance + amount,
                                                   savings := db.users[uid].savings - amount)]
  {
    match GoalIndex(db.goals, gid, uid)
    case None => Reply(db, Err(InsufficientSavings))
    case Some(i) =>
      var g, u := db.goals[i], db.users[uid];
      if g.current < amount then Reply(db, Err(InsufficientSavings))
      else
        Reply(db.(users := db.users[uid := u.(balance := u.balance + amount, savings := u.savings - amount)],
                  goals := db.goals[i := g.(current := g.current - amount)]),
              Ok(()))
  }

  /**
   * As written, withdrawing a negative amount from any of one's goals is
   * accepted and takes the main balance below zero as soon as the amount
   * exceeds it; the corrected handler refuses the request.
   */
  lemma NegativeWithdrawOverdraws(db: Db, uid: UserId, gid: nat, amount: int)
    requires uid in db.users && GoalIndex(db.goals, gid, uid).Some?
    requires db.goals[GoalIndex(db.goals, gid, uid).value].current >= 0
    requires amount < 0 && db.users[uid].balance + amount < 0
    ensures SavingsWithdrawAsWritten(db, uid, gid, amount).result.Ok?
    ensures SavingsWithdrawAsWritten(db, uid, gid, amount).db.users[uid].balance < 0
    ensures !Consistent(SavingsWithdrawAsWritten(db, uid, gid, amount).db)
    ensures Api.SavingsWithdraw(db, uid, gid, amount) == Reply(db, Err(InvalidAmount))
  {
    var r := SavingsWithdrawAsWritten(db, uid, gid, amount).db;
    assert !UserOk(r.users[uid]);
  }

  /** The corrected withdrawal never leaves a negative balance or goal, whatever the amount. */
  lemma WithdrawNeverOverdraws(db: Db, uid: UserId, gid: nat, amount: int)
    requires Consistent(db) && uid in db.users
    ensures var r := Api.SavingsWithdraw(db, uid, gid, amount).db;
      && r.users[uid].balance >= db.users[uid].balance
      && r.users[uid].savings >= 0
      && forall i :: 0 <= i < |r.goals| ==> r.goals[i].current >= 0
  {
    SavingsWithdrawKeeps(db, uid, gid, amount);
    var r := Api.SavingsWithdraw(db, uid, gid, amount).db;
    assert UserOk(r.users[uid]);
  }

  // ------------------------------------------------------------ goal bonus

  /** The goal-achieved check as written (app.py:728): met on every deposit once the target is reached. */
  function GoalBonusAsWritten(after: int, target: int): (xp: nat)
    ensures xp == GoalReachedXp <==> after >= target
    ensures xp == 0 <==> after < target
  {
    if after >= target then GoalReachedXp else 0
  }

  /** The sum of a run of deposits. */
  function Total(deposits: seq<int>): int
  {
    if deposits == [] then 0 else deposits[0] + Total(deposits[1..])
  }

  /** Bonus xp earned over a run of deposits into a goal that starts at `current`, as corrected. */
  function TotalBonus(current: int, target: int, deposits: seq<int>): nat
    decreases |deposits|
  {
    if deposits == [] then 0
    else GoalBonus(current, current + deposits[0], target) + TotalBonus(current + deposits[0], target, deposits[1..])
  }

  /** The same, with the check as written. */
  function TotalBonusAsWritten(current: int, target: int, deposits: seq<int>): nat
    decreases |deposits|
  {
    if deposits == [] then 0
    else GoalBonusAsWritten(current + deposits[0], target) + TotalBonusAsWritten(current + deposits[0], target, deposits[1..])
  }

  /**
   * With the corrected check, a run of deposits earns the bonus once if it
   * takes the goal from below its target to at least its target, and not
   * at all otherwise.
   */
  lemma {:induction false} BonusPaidAtMostOnce(current: int, target: int, deposits: seq<int>)
    requires forall k :: 0 <= k < |deposits| ==> deposits[k] > 0
    ensures Total(deposits) >= 0
    ensures TotalBonus(current, target, deposits)
         == if current < target <= current + Total(deposits) then GoalReachedXp else 0
    decreases |deposits|
  {
    if deposits != [] {
      var rest := deposits[1..];
      assert forall k :: 0 <= k < |rest| ==> rest[k] == deposits[k + 1];
      BonusPaidAtMostOnce(current + deposits[0], target, rest);
    }
  }

  /**
   * As written, every deposit once the target is reached earns the bonus
   * again: a goal of 1000 at 900 that receives 100 and then 50 earns it
   * twice, where the corrected check pays it once.
   */
  lemma AsWrittenBonusRepeats()
    ensures TotalBonusAsWritten(900, 1000, [100, 50]) == 2 * GoalReachedXp
    ensures TotalBonus(900, 1000, [100, 50]) == GoalReachedXp
  {
    var ds := [100, 50];
    assert ds[1..] == [50] && [50][1..] == [];
    BonusPaidAtMostOnce(900, 1000, ds);
  }

  // ------------------------------------------------------------ split bill shares

  /**
   * api_split_create as written (app.py:880-915): the share amounts are
   * taken as given, negative ones included.
   */
  function SplitCreateAsWritten(db: Db, uid: UserId, title: string, total: int, shares: seq<ShareRequest>): (r: Reply<nat>)
    requires uid in db.users
    ensures r.result.Err? ==> r == Reply(db, Err(MissingField))
    ensures r.result.Ok? <==> title != [] && total > 0 && shares != []
    ensures r.result.Ok? ==>
      r.db.members == db.members + [Member(db.nextId, uid, 0, true)] + Shares(db.users, db.nextId, db.nextId, shares)
  {
    if title == [] || total <= 0 || shares == [] then Reply(db, Err(MissingField))
    else
      var bid := db.nextId;
      Reply(db.(users := db.users[uid := Awarded(db.users[uid], SplitCreateXp)],
                bills := db.bills + [Bill(bid, uid, title, total)],
                members := db.members + [Member(bid, uid, 0, true)] + Shares(db.users, db.nextId, bid, shares),
                nextId := db.nextId + 1),
            Ok(bid))
  }

  /** A request whose identifier names a user puts a share of its amount into the bill. */
  lemma {:induction false} SharesCover(users: map<UserId, User>, bound: nat, bill: nat, requests: seq<ShareRequest>, k: nat)
    requires k < |requests| && Resolve(users, bound, requests[k].identifier).Some?
    ensures exists j :: 0 <= j < |Shares(users, bound, bill, requests)|
                        && Shares(users, bound, bill, requests)[j].owed == requests[k].amount
    decreases |requests|
  {
    var init := requests[..|requests| - 1];
    var r := Shares(users, bound, bill, requests);
    if k == |requests| - 1 {
      assert r[|r| - 1].owed == requests[k].amount;
    } else {
      assert init[k] == requests[k];
      SharesCover(users, bound, bill, init, k);
      var ri := Shares(users, bound, bill, init);
      var j :| 0 <= j < |ri| && ri[j].owed == requests[k].amount;
      assert r[j] == ri[j];
    }
  }

  /**
   * As written, a negative share for someone who exists is accepted and
   * stored as a debt below zero; the corrected handler refuses the request.
   */
  lemma NegativeShareAccepted(db: Db, uid: UserId, title: string, total: int, shares: seq<ShareRequest>, k: nat)
    requires uid in db.users && title != [] && total > 0
    requires k < |shares| && shares[k].amount < 0 && Resolve(db.users, db.nextId, shares[k].identifier).Some?
    ensures SplitCreateAsWritten(db, uid, title, total, shares).result.Ok?
    ensures !SharesOk(SplitCreateAsWritten(db, uid, title, total, shares).db.members)
    ensures !Consistent(SplitCreateAsWritten(db, uid, title, total, shares).db)
    ensures Api.SplitCreate(db, uid, title, total, shares) == Reply(db, Err(InvalidAmount))
  {
    var added := Shares(db.users, db.nextId, db.nextId, shares);
    SharesCover(db.users, db.nextId, db.nextId, shares, k);
    var j :| 0 <= j < |added| && added[j].owed == shares[k].amount;
    var front := db.members + [Member(db.nextId, uid, 0, true)];
    var members := SplitCreateAsWritten(db, uid, title, total, shares).db.members;
    assert members == front + added;
    assert members[|front| + j] == added[j];
  }

  /**
   * Paying a negative share takes money from the bill's creator: when the
   * creator holds less than the share's size, their balance drops below zero.
   */
  lemma NegativeSharePaymentOverdraws(db: Db, uid: UserId, billId: nat)
    requires uid in db.users && ShareIndex(db.members, billId, uid).Some?
    requires BillIndex(db.bills, billId).Some?
    requires var c := db.bills[BillIndex(db.bills, billId).value].creator;
             var m := db.members[ShareIndex(db.members, billId, uid).value];
             && c in db.users && c != uid && m.owed < 0 && db.users[uid].balance >= 0 && db.users[c].balance + m.owed < 0
    ensures Api.SplitPay(db, uid, billId).result.Ok?
    ensures Api.SplitPay(db, uid, billId).db.users[db.bills[BillIndex(db.bills, billId).value].creator].balance < 0
  {
    var c := db.bills[BillIndex(db.bills, billId).value].creator;
    var m := db.members[ShareIndex(db.members, billId, uid).value];
    assert Api.SplitPay(db, uid, billId).db.users[c] == db.users[c].(balance := db.users[c].balance + m.owed);
  }

  /** With the corrected creation, a bill's shares never owe a negative amount. */
  lemma SharesNeverNegative(db: Db, uid: UserId, title: string, total: int, shares: seq<ShareRequest>)
    requires SharesOk(db.members) && uid in db.users
    ensures SharesOk(Api.SplitCreate(db, uid, title, total, shares).db.members)
  {
    if Api.SplitCreate(db, uid, title, total, shares).result.Ok? {
      var front := db.members + [Member(db.nextId, uid, 0, true)];
      SharesJoin(db.members, [Member(db.nextId, uid, 0, true)]);
      SharesNonNegative(db.users, db.nextId, db.nextId, shares);
      SharesJoin(front, Shares(db.users, db.nextId, db.nextId, shares));
      assert Api.SplitCreate(db, uid, title, total, shares).db.members == front + Shares(db.users, db.nextId, db.nextId, shares);
    }
  }

  // ------------------------------------------------------------ account deletion

  /**
   * api_delete_account as written (app.py:986-996): `user` is bound to the
   * `current_user` proxy, and `logout_user()` on the next line turns that
   * proxy into the anonymous user, which has no `id`. Reading `user.id` for
   * the first delete raises, so the request fails before any row is
   * deleted and nothing is committed; the caller is only logged out.
   */
  function DeleteAccountAsWritten(db: Db, uid: UserId): (r: Reply<()>)
    ensures r.result.Err? && r.db == db
  {
    Reply(db, Err(Internal))
  }

  /**
   * As written, asking to delete an account fails and keeps the account
   * with every entry, goal and share; the intended deletion removes the
   * user and every entry that names them.
   */
  lemma AsWrittenDeletionKeepsAccount(db: Db, uid: UserId)
    requires uid in db.users
    ensures uid in DeleteAccountAsWritten(db, uid).db.users
    ensures DeleteAccountAsWritten(db, uid).db.txns == db.txns
    ensures DeleteAccountAsWritten(db, uid).db.goals == db.goals
    ensures DeleteAccountAsWritten(db, uid).db.members == db.members
    ensures uid !in Api.DeleteAccount(db, uid).users
    ensures forall i :: 0 <= i < |Api.DeleteAccount(db, uid).txns| ==> !Involves(Api.DeleteAccount(db, uid).txns[i], uid)
  {
    DeleteAccountEntries(db, uid);
  }
}
