/**
 * What the denormalised columns of a user row summarise: the savings held
 * in goals, and the running totals and transfer count kept next to the
 * transactions table.
 */
module Books {
  import opened Wrappers
  import opened Records
  import opened Tables

  /** What one goal contributes to its owner's savings balance. */
  function Held(owner: UserId): Goal -> int
  {
    (g: Goal) => if g.owner == owner then g.current else 0
  }

  /** The sum of the current amounts of the goals `owner` holds. */
  function SavingsOf(goals: seq<Goal>, owner: UserId): int
  {
    Sum(goals, Held(owner))
  }

  /**
   * Outgoing money the code adds to total_sent: withdrawals (app.py:532)
   * and transfers (app.py:581). Savings and split entries are not added.
   */
  function SentBy(id: UserId): Txn -> int
  {
    (t: Txn) => if t.sender == Some(id) && (t.kind == Withdrawal || t.kind == Transfer) then t.amount else 0
  }

  /** Incoming money the code adds to total_received: deposits (app.py:505) and transfers (app.py:584). */
  function ReceivedBy(id: UserId): Txn -> int
  {
    (t: Txn) => if t.receiver == Some(id) && (t.kind == Deposit || t.kind == Transfer) then t.amount else 0
  }

  /** Entries the code counts in total_txn_count: transfers, on both sides (app.py:582, 585). */
  function TransferOf(id: UserId): Txn -> int
  {
    (t: Txn) => if t.kind == Transfer && (t.sender == Some(id) || t.receiver == Some(id)) then 1 else 0
  }

  function SentTotal(txns: seq<Txn>, id: UserId): int { Sum(txns, SentBy(id)) }
  function ReceivedTotal(txns: seq<Txn>, id: UserId): int { Sum(txns, ReceivedBy(id)) }
  function TransferCount(txns: seq<Txn>, id: UserId): int { Sum(txns, TransferOf(id)) }

  /** Does this ledger entry involve the user at all? */
  predicate Involves(t: Txn, id: UserId)
  {
    t.sender == Some(id) || t.receiver == Some(id)
  }

  /** Appending one entry moves each running total by that entry's share. */
  lemma LedgerAppend(txns: seq<Txn>, t: Txn, id: UserId)
    ensures SentTotal(txns + [t], id) == SentTotal(txns, id) + SentBy(id)(t)
    ensures ReceivedTotal(txns + [t], id) == ReceivedTotal(txns, id) + ReceivedBy(id)(t)
    ensures TransferCount(txns + [t], id) == TransferCount(txns, id) + TransferOf(id)(t)
  {
    SumAppend(txns, t, SentBy(id));
    SumAppend(txns, t, ReceivedBy(id));
    SumAppend(txns, t, TransferOf(id));
  }

  /** A user that no entry involves has all running totals at zero. */
  lemma LedgerStranger(txns: seq<Txn>, id: UserId)
    requires forall i :: 0 <= i < |txns| ==> !Involves(txns[i], id)
    ensures SentTotal(txns, id) == 0 && ReceivedTotal(txns, id) == 0 && TransferCount(txns, id) == 0
  {
    SumNonNegative(txns, TransferOf(id));
    SumZeroTerms(txns, SentBy(id));
    SumZeroTerms(txns, ReceivedBy(id));
  }

  lemma {:induction false} SumZeroTerms<T>(s: seq<T>, f: T -> int)
    requires forall i :: 0 <= i < |s| ==> f(s[i]) == 0
    ensures Sum(s, f) == 0
    decreases |s|
  {
    if s != [] {
      var init := s[..|s| - 1];
      assert forall i :: 0 <= i < |init| ==> init[i] == s[i];
      SumZeroTerms(init, f);
    }
  }

  /** A user that owns no goal has no savings in goals. */
  lemma SavingsOfStranger(goals: seq<Goal>, owner: UserId)
    requires forall i :: 0 <= i < |goals| ==> goals[i].owner != owner
    ensures SavingsOf(goals, owner) == 0
  {
    SumZeroTerms(goals, Held(owner));
  }

  /** With no negative goal, the sum held for an owner is at least any one of their goals. */
  lemma SavingsCoverGoal(goals: seq<Goal>, i: nat)
    requires i < |goals|
    requires forall j :: 0 <= j < |goals| ==> goals[j].current >= 0
    ensures SavingsOf(goals, goals[i].owner) >= goals[i].current
  {
    var owner := goals[i].owner;
    var rest := goals[..i] + goals[i + 1..];
    SumRemove(goals, i, Held(owner));
    assert forall j :: 0 <= j < |rest| ==> rest[j] in goals;
    SumNonNegative(rest, Held(owner));
  }

  // ------------------------------------------------------------- split shares

  /** One for each unpaid share of `user` in bill `bill`. */
  function Owing(bill: nat, user: UserId): Member -> int
  {
    (m: Member) => if m.bill == bill && m.user == user && !m.paid then 1 else 0
  }

  function UnpaidCount(members: seq<Member>, bill: nat, user: UserId): int
  {
    Sum(members, Owing(bill, user))
  }

  /** Settling one unpaid share lowers the unpaid count by exactly one. */
  lemma SettleOneShare(members: seq<Member>, i: nat)
    requires i < |members| && !members[i].paid
    ensures UnpaidCount(members[i := members[i].(paid := true)], members[i].bill, members[i].user)
         == UnpaidCount(members, members[i].bill, members[i].user) - 1
  {
    SumUpdate(members, i, members[i].(paid := true), Owing(members[i].bill, members[i].user));
  }

  /** The unpaid count is zero exactly when no share of that user in that bill is unpaid. */
  lemma UnpaidCountZero(members: seq<Member>, bill: nat, user: UserId)
    ensures UnpaidCount(members, bill, user) >= 0
    ensures UnpaidCount(members, bill, user) == 0 <==>
            forall i :: 0 <= i < |members| ==> !(members[i].bill == bill && members[i].user == user && !members[i].paid)
  {
    SumNonNegative(members, Owing(bill, user));
  }
}
