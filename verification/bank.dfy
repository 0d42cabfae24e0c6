/**
 * The database behind the wallet (the SQLAlchemy models of app.py:49-270
 * that the money handlers touch), the lookups the handlers run on it, and
 * the consistency conditions every handler keeps.
 */
module Bank {
  import opened Wrappers
  import opened Gamification
  import opened Money
  import opened Records
  import opened Tables
  import opened Books

  /** Experience points each action earns. */
  const SignupXp: nat := 100       // app.py:364
  const DepositXp: nat := 5        // app.py:510
  const TransferXp: nat := 15      // app.py:593
  const GoalCreateXp: nat := 20    // app.py:698
  const GoalDepositXp: nat := 10   // app.py:727
  const ScheduleXp: nat := 10      // app.py:859
  const SplitCreateXp: nat := 15   // app.py:913

  // ------------------------------------------------------------ row lookups

  /** The caller's goal with that id (app.py:715, 747, 762). */
  function GoalIndex(goals: seq<Goal>, gid: nat, uid: UserId): (r: Option<nat>)
    ensures r.Some? ==> r.value < |goals| && goals[r.value].id == gid && goals[r.value].owner == uid
    ensures r.None? ==> forall i :: 0 <= i < |goals| ==> !(goals[i].id == gid && goals[i].owner == uid)
  {
    FirstIndex(goals, (g: Goal) => g.id == gid && g.owner == uid)
  }

  /** The caller's contact with that id (app.py:823). */
  function ContactIndex(contacts: seq<Contact>, cid: nat, uid: UserId): (r: Option<nat>)
    ensures r.Some? ==> r.value < |contacts| && contacts[r.value].id == cid && contacts[r.value].owner == uid
    ensures r.None? ==> forall i :: 0 <= i < |contacts| ==> !(contacts[i].id == cid && contacts[i].owner == uid)
  {
    FirstIndex(contacts, (c: Contact) => c.id == cid && c.owner == uid)
  }

  /** The caller's scheduled payment with that id (app.py:867). */
  function ScheduleIndex(schedules: seq<Schedule>, sid: nat, uid: UserId): (r: Option<nat>)
    ensures r.Some? ==> r.value < |schedules| && schedules[r.value].id == sid && schedules[r.value].sender == uid
    ensures r.None? ==> forall i :: 0 <= i < |schedules| ==> !(schedules[i].id == sid && schedules[i].sender == uid)
  {
    FirstIndex(schedules, (s: Schedule) => s.id == sid && s.sender == uid)
  }

  /** The caller's first unpaid share in that bill (app.py:921-922). */
  function ShareIndex(members: seq<Member>, bill: nat, uid: UserId): (r: Option<nat>)
    ensures r.Some? ==> r.value < |members| && members[r.value].bill == bill && members[r.value].user == uid && !members[r.value].paid
    ensures r.None? ==> forall i :: 0 <= i < |members| ==> !(members[i].bill == bill && members[i].user == uid && !members[i].paid)
  {
    FirstIndex(members, (m: Member) => m.bill == bill && m.user == uid && !m.paid)
  }

  /** The bill with that id (app.py:926). */
  function BillIndex(bills: seq<Bill>, bill: nat): (r: Option<nat>)
    ensures r.Some? ==> r.value < |bills| && bills[r.value].id == bill
    ensures r.None? ==> forall i :: 0 <= i < |bills| ==> bills[i].id != bill
  {
    FirstIndex(bills, (b: Bill) => b.id == bill)
  }

  /** Is `peer` already among `owner`'s contacts (app.py:601, 811)? */
  predicate HasContact(contacts: seq<Contact>, owner: UserId, peer: UserId)
  {
    exists i :: 0 <= i < |contacts| && contacts[i].owner == owner && contacts[i].peer == peer
  }

  /** Is the account number already held by some user? */
  predicate AccountNumberTaken(users: map<UserId, User>, accountNumber: string)
  {
    exists id :: id in users && users[id].accountNumber == accountNumber
  }

  // ------------------------------------------------------------ new rows

  /** A first sign-in: the welcome balance and the sign-up xp (app.py:359-364). */
  function Newcomer(email: string, accountNumber: string, today: int): User
  {
    Awarded(User(email, accountNumber, WelcomeBalance, 0, 0, Bronze, 0, Some(today), 0, 0, 0), SignupXp)
  }

  /** A returning sign-in on day `today`: the login-streak rule applied to the row. */
  function Relogged(u: User, today: int): User
  {
    var s := LoginTransition(LoginState(u.streak, u.lastLogin, u.xp), today);
    u.(streak := s.streak, lastLogin := s.last, xp := s.xp,
       tier := if u.lastLogin == Some(today - 1) then TierOf(s.xp) else u.tier)
  }

  /**
   * The member rows a split-bill request adds after the creator's own:
   * one unpaid share per identifier that resolves, in request order;
   * identifiers that resolve to nobody are skipped (app.py:900-911).
   */
  function Shares(users: map<UserId, User>, bound: nat, bill: nat, requests: seq<ShareRequest>): (r: seq<Member>)
    ensures |r| <= |requests|
    ensures forall i :: 0 <= i < |r| ==> r[i].bill == bill && !r[i].paid && r[i].user in users
  {
    if requests == [] then []
    else
      var last := requests[|requests| - 1];
      Shares(users, bound, bill, requests[..|requests| - 1]) +
        match Resolve(users, bound, last.identifier)
        case Some(v) => [Member(bill, v, last.amount, false)]
        case None => []
  }

  /** Each share owes the amount of some request whose identifier names its debtor. */
  ghost predicate Drawn(r: seq<Member>, users: map<UserId, User>, bound: nat, requests: seq<ShareRequest>)
  {
    forall i :: 0 <= i < |r| ==>
      exists k :: 0 <= k < |requests| && r[i].owed == requests[k].amount
                  && Resolve(users, bound, requests[k].identifier) == Some(r[i].user)
  }

  /** Every share added is drawn from a request. */
  lemma {:induction false} SharesFromRequests(users: map<UserId, User>, bound: nat, bill: nat, requests: seq<ShareRequest>)
    ensures Drawn(Shares(users, bound, bill, requests), users, bound, requests)
    decreases |requests|
  {
    if requests != [] {
      var init := requests[..|requests| - 1];
      SharesFromRequests(users, bound, bill, init);
      var r := Shares(users, bound, bill, requests);
      var ri := Shares(users, bound, bill, init);
      forall i | 0 <= i < |r|
        ensures exists k :: 0 <= k < |requests| && r[i].owed == requests[k].amount
                            && Resolve(users, bound, requests[k].identifier) == Some(r[i].user)
      {
        if i < |ri| {
          assert r[i] == ri[i];
          var k :| 0 <= k < |init| && ri[i].owed == init[k].amount
                   && Resolve(users, bound, init[k].identifier) == Some(ri[i].user);
          assert init[k] == requests[k];
        } else {
          assert r[i].owed == requests[|requests| - 1].amount;
        }
      }
    }
  }

  /** When every identifier resolves, each request becomes exactly one unpaid share, in order. */
  lemma {:induction false} SharesAllResolve(users: map<UserId, User>, bound: nat, bill: nat, requests: seq<ShareRequest>)
    requires forall k :: 0 <= k < |requests| ==> Resolve(users, bound, requests[k].identifier).Some?
    ensures var r := Shares(users, bound, bill, requests);
      |r| == |requests| &&
      forall k :: 0 <= k < |requests| ==>
        r[k] == Member(bill, Resolve(users, bound, requests[k].identifier).value, requests[k].amount, false)
    decreases |requests|
  {
    if requests != [] {
      var init := requests[..|requests| - 1];
      assert forall k :: 0 <= k < |init| ==> init[k] == requests[k];
      SharesAllResolve(users, bound, bill, init);
    }
  }

  /** When no identifier resolves, the bill gets no shares besides its creator's. */
  lemma {:induction false} SharesNoneResolve(users: map<UserId, User>, bound: nat, bill: nat, requests: seq<ShareRequest>)
    requires forall k :: 0 <= k < |requests| ==> Resolve(users, bound, requests[k].identifier).None?
    ensures Shares(users, bound, bill, requests) == []
    decreases |requests|
  {
    if requests != [] {
      var init := requests[..|requests| - 1];
      assert forall k :: 0 <= k < |init| ==> init[k] == requests[k];
      SharesNoneResolve(users, bound, bill, init);
    }
  }

  // ------------------------------------------------------------ deletion filters

  function NotReceivedBy(uid: UserId): Txn -> bool { (t: Txn) => t.receiver != Some(uid) }
  function NotSentBy(uid: UserId): Txn -> bool { (t: Txn) => t.sender != Some(uid) }
  function NotGoalOf(uid: UserId): Goal -> bool { (g: Goal) => g.owner != uid }
  function NotContactOf(uid: UserId): Contact -> bool { (c: Contact) => c.owner != uid }
  function NotScheduleOf(uid: UserId): Schedule -> bool { (s: Schedule) => s.sender != uid }
  function NotShareOf(uid: UserId): Member -> bool { (m: Member) => m.user != uid }

  // ------------------------------------------------------------ invariants

  ghost predicate UserOk(u: User)
  {
    u.balance >= 0 && u.savings >= 0 && u.tier == TierOf(u.xp)
  }

  /** Every user id was issued, no balance is negative, the tier matches the xp. */
  ghost predicate UsersOk(users: map<UserId, User>, bound: nat)
  {
    forall id :: id in users ==> id < bound && UserOk(users[id])
  }

  ghost predicate TxnOk(t: Txn, users: map<UserId, User>, bound: nat)
  {
    && t.reference < bound
    && (t.sender.Some? || t.receiver.Some?)
    && (t.sender.Some? ==> t.sender.value in users)
    && (t.receiver.Some? ==> t.receiver.value in users)
    && t.amount >= 0 && t.fee >= 0
  }

  /** Entries name live users and carry issued references in increasing order. */
  ghost predicate TxnsOk(txns: seq<Txn>, users: map<UserId, User>, bound: nat)
  {
    && (forall i :: 0 <= i < |txns| ==> TxnOk(txns[i], users, bound))
    && Increasing(txns)
  }

  /** References strictly increase along the ledger. */
  ghost predicate Increasing(txns: seq<Txn>)
  {
    forall i, j :: 0 <= i < j < |txns| ==> txns[i].reference < txns[j].reference
  }

  /** Goals belong to live users, and each user's savings balance is what their goals hold. */
  ghost predicate GoalsOk(goals: seq<Goal>, users: map<UserId, User>)
  {
    && (forall i :: 0 <= i < |goals| ==> goals[i].owner in users && goals[i].current >= 0 && goals[i].target > 0)
    && (forall id :: id in users ==> users[id].savings == SavingsOf(goals, id))
  }

  /** No one is their own contact and each (owner, contact) pair occurs once. */
  ghost predicate ContactsOk(contacts: seq<Contact>)
  {
    && (forall i :: 0 <= i < |contacts| ==> contacts[i].owner != contacts[i].peer)
    && (forall i, j :: 0 <= i < j < |contacts| ==>
          contacts[i].owner != contacts[j].owner || contacts[i].peer != contacts[j].peer)
  }

  ghost predicate SharesOk(members: seq<Member>)
  {
    forall i :: 0 <= i < |members| ==> members[i].owed >= 0
  }

  /** The running totals of every user agree with the ledger. */
  ghost predicate CountersMatch(users: map<UserId, User>, txns: seq<Txn>)
  {
    forall id :: id in users ==> Tallies(users[id], txns, id)
  }

  /** The row of user `id` shows the totals of `txns`. */
  ghost predicate Tallies(u: User, txns: seq<Txn>, id: UserId)
  {
    && u.totalSent == SentTotal(txns, id)
    && u.totalReceived == ReceivedTotal(txns, id)
    && u.txnCount == TransferCount(txns, id)
  }

  /** No surviving user lost xp. */
  ghost predicate XpKept(before: map<UserId, User>, after: map<UserId, User>)
  {
    forall id :: id in before && id in after ==> before[id].xp <= after[id].xp
  }

  /** The same users with the same balances and savings. */
  ghost predicate MoneyKept(before: map<UserId, User>, after: map<UserId, User>)
  {
    && before.Keys == after.Keys
    && forall id :: id in after ==> after[id].balance == before[id].balance && after[id].savings == before[id].savings
  }

  // ------------------------------------------------------------ invariant lemmas

  /** Widening the user set and the id bound keeps the ledger well formed. */
  lemma TxnsWiden(txns: seq<Txn>, users: map<UserId, User>, users': map<UserId, User>, bound: nat, bound': nat)
    requires TxnsOk(txns, users, bound)
    requires users.Keys <= users'.Keys && bound <= bound'
    ensures TxnsOk(txns, users', bound')
  {
    forall i | 0 <= i < |txns| ensures TxnOk(txns[i], users', bound') {
      assert TxnOk(txns[i], users, bound);
    }
  }

  /** Appending an entry with a reference not issued before keeps the ledger well formed. */
  lemma TxnsAppend(txns: seq<Txn>, users: map<UserId, User>, users': map<UserId, User>, bound: nat, bound': nat, t: Txn)
    requires TxnsOk(txns, users, bound)
    requires users.Keys <= users'.Keys
    requires bound <= t.reference && TxnOk(t, users', bound')
    ensures TxnsOk(txns + [t], users', bound')
  {
    TxnsWiden(txns, users, users', bound, bound');
    var s := txns + [t];
    forall i, j | 0 <= i < j < |s| ensures s[i].reference < s[j].reference {
      if j == |txns| {
        assert TxnOk(txns[i], users, bound);
      }
    }
  }

  /** Replacing one user's row by a well-formed one keeps the user table well formed. */
  lemma UsersSet(users: map<UserId, User>, bound: nat, bound': nat, uid: UserId, u: User)
    requires UsersOk(users, bound) && bound <= bound' && uid < bound' && UserOk(u)
    ensures UsersOk(users[uid := u], bound')
  {
  }

  /** Replacing a user's row without touching savings keeps the goals consistent. */
  lemma GoalsSet(goals: seq<Goal>, users: map<UserId, User>, uid: UserId, u: User)
    requires GoalsOk(goals, users) && u.savings == SavingsOf(goals, uid)
    ensures GoalsOk(goals, users[uid := u])
  {
  }

  /** Replacing a user's row without touching its totals keeps the totals reconciled. */
  lemma CountersSet(users: map<UserId, User>, txns: seq<Txn>, uid: UserId, u: User)
    requires CountersMatch(users, txns) && Tallies(u, txns, uid)
    ensures CountersMatch(users[uid := u], txns)
  {
  }

  /** Entries of the kinds the totals ignore leave them reconciled. */
  lemma CountersIgnore(users: map<UserId, User>, txns: seq<Txn>, t: Txn)
    requires CountersMatch(users, txns) && (t.kind == Savings || t.kind == Split)
    ensures CountersMatch(users, txns + [t])
  {
    forall id | id in users ensures Tallies(users[id], txns + [t], id) {
      LedgerAppend(txns, t, id);
    }
  }

  /** A new goal of a live user, holding nothing yet, keeps the savings consistent. */
  lemma GoalsAppend(goals: seq<Goal>, users: map<UserId, User>, g: Goal)
    requires GoalsOk(goals, users) && g.owner in users && g.current == 0 && g.target > 0
    ensures GoalsOk(goals + [g], users)
  {
    forall id | id in users ensures users[id].savings == SavingsOf(goals + [g], id) {
      SumAppend(goals, g, Held(id));
    }
  }

  /** Moving money in or out of goal `i` moves its owner's savings by the same amount. */
  lemma GoalsUpdate(goals: seq<Goal>, users: map<UserId, User>, i: nat, g: Goal, u: User)
    requires GoalsOk(goals, users) && i < |goals|
    requires g.owner == goals[i].owner && g.current >= 0 && g.target > 0
    requires u.savings == users[g.owner].savings + g.current - goals[i].current
    ensures GoalsOk(goals[i := g], users[g.owner := u])
  {
    var users' := users[g.owner := u];
    forall id | id in users' ensures users'[id].savings == SavingsOf(goals[i := g], id) {
      SumUpdate(goals, i, g, Held(id));
    }
  }

  /** Deleting goal `i` after paying out what it holds keeps the savings consistent. */
  lemma GoalsRemove(goals: seq<Goal>, users: map<UserId, User>, i: nat, u: User)
    requires GoalsOk(goals, users) && i < |goals|
    requires u.savings == users[goals[i].owner].savings - goals[i].current
    ensures GoalsOk(goals[..i] + goals[i + 1..], users[goals[i].owner := u])
  {
    var users' := users[goals[i].owner := u];
    var rest := goals[..i] + goals[i + 1..];
    assert forall k :: 0 <= k < |rest| ==> rest[k] == (if k < i then goals[k] else goals[k + 1]);
    forall id | id in users' ensures users'[id].savings == SavingsOf(rest, id) {
      SumRemove(goals, i, Held(id));
    }
  }

  /** A new contact that is not the owner and not yet among their contacts keeps the table well formed. */
  lemma ContactsAppend(contacts: seq<Contact>, c: Contact)
    requires ContactsOk(contacts) && c.owner != c.peer && !HasContact(contacts, c.owner, c.peer)
    ensures ContactsOk(contacts + [c])
  {
  }

  /** The totals a user's row should show once entry `t` is on the ledger. */
  predicate Posted(before: User, after: User, id: UserId, t: Txn)
  {
    && after.totalSent == before.totalSent + SentBy(id)(t)
    && after.totalReceived == before.totalReceived + ReceivedBy(id)(t)
    && after.txnCount == before.txnCount + TransferOf(id)(t)
  }

  /** A row moved by its share of a new entry tallies the longer ledger. */
  lemma TallyPost(u: User, u': User, txns: seq<Txn>, t: Txn, id: UserId)
    requires Tallies(u, txns, id) && Posted(u, u', id, t)
    ensures Tallies(u', txns + [t], id)
  {
    LedgerAppend(txns, t, id);
  }

  /** An entry that does not involve a user leaves that user's tally as it was. */
  lemma TallyUntouched(u: User, txns: seq<Txn>, t: Txn, id: UserId)
    requires Tallies(u, txns, id) && !Involves(t, id)
    ensures Tallies(u, txns + [t], id)
  {
    LedgerAppend(txns, t, id);
  }

  /** An entry touching one user only, with that user's totals moved by its share. */
  lemma CountersPost(users: map<UserId, User>, txns: seq<Txn>, t: Txn, uid: UserId, u: User)
    requires CountersMatch(users, txns) && uid in users
    requires t.sender in {None, Some(uid)} && t.receiver in {None, Some(uid)}
    requires Posted(users[uid], u, uid, t)
    ensures CountersMatch(users[uid := u], txns + [t])
  {
    var m := users[uid := u];
    forall id | id in m ensures Tallies(m[id], txns + [t], id) {
      if id == uid {
        TallyPost(users[uid], u, txns, t, uid);
      } else {
        TallyUntouched(users[id], txns, t, id);
      }
    }
  }

  /** An entry between two users, with both users' totals moved by their shares. */
  lemma CountersPost2(users: map<UserId, User>, txns: seq<Txn>, t: Txn, a: UserId, ua: User, b: UserId, ub: User)
    requires CountersMatch(users, txns) && a in users && b in users && a != b
    requires t.sender in {None, Some(a), Some(b)} && t.receiver in {None, Some(a), Some(b)}
    requires Posted(users[a], ua, a, t) && Posted(users[b], ub, b, t)
    ensures CountersMatch(users[a := ua][b := ub], txns + [t])
  {
    var m := users[a := ua][b := ub];
    forall id | id in m ensures Tallies(m[id], txns + [t], id) {
      if id == b {
        TallyPost(users[b], ub, txns, t, b);
      } else if id == a {
        TallyPost(users[a], ua, txns, t, a);
      } else {
        TallyUntouched(users[id], txns, t, id);
      }
    }
  }

  /** An entry whose reference exceeds every earlier one keeps the ledger increasing. */
  lemma IncreasingAppend(txns: seq<Txn>, t: Txn)
    requires Increasing(txns)
    requires forall i :: 0 <= i < |txns| ==> txns[i].reference < t.reference
    ensures Increasing(txns + [t])
  {
    var s := txns + [t];
    forall i, j | 0 <= i < j < |s| ensures s[i].reference < s[j].reference {
      assert s[i] == txns[i];
      if j < |txns| {
        assert s[j] == txns[j];
      }
    }
  }

  /** Filtering the ledger keeps references in increasing order. */
  lemma {:induction false} FilterKeepsOrder(s: seq<Txn>, keep: Txn -> bool)
    requires Increasing(s)
    ensures Increasing(Filter(s, keep))
    decreases |s|
  {
    if s != [] {
      var init, last := s[..|s| - 1], s[|s| - 1];
      assert Increasing(init) by {
        assert forall k :: 0 <= k < |init| ==> init[k] == s[k];
      }
      FilterKeepsOrder(init, keep);
      FilterMembers(init, keep);
      var fi := Filter(init, keep);
      if keep(last) {
        forall i | 0 <= i < |fi| ensures fi[i].reference < last.reference {
          var k :| 0 <= k < |init| && init[k] == fi[i];
          assert s[k] == init[k];
        }
        IncreasingAppend(fi, last);
      }
    }
  }

  /** Filtering keeps contact pairs distinct and self-free. */
  lemma {:induction false} FilterKeepsContacts(s: seq<Contact>, keep: Contact -> bool)
    requires ContactsOk(s)
    ensures ContactsOk(Filter(s, keep))
    decreases |s|
  {
    if s != [] {
      var init, last := s[..|s| - 1], s[|s| - 1];
      assert ContactsOk(init);
      FilterKeepsContacts(init, keep);
      FilterMembers(init, keep);
      FilterMembers(s, keep);
      var fi := Filter(init, keep);
      forall i | 0 <= i < |fi| ensures fi[i].owner != last.owner || fi[i].peer != last.peer {
        var k :| 0 <= k < |init| && init[k] == fi[i];
        assert s[k] == init[k];
      }
      var r := Filter(s, keep);
      forall i | 0 <= i < |r| ensures r[i].owner != r[i].peer {
        var k :| 0 <= k < |s| && s[k] == r[i];
      }
    }
  }

  /** Deleting one contact keeps the pairs distinct. */
  lemma ContactsRemove(s: seq<Contact>, i: nat)
    requires i < |s| && ContactsOk(s)
    ensures ContactsOk(s[..i] + s[i + 1..])
  {
    var r := s[..i] + s[i + 1..];
    assert forall a :: 0 <= a < |r| ==> r[a] == (if a < i then s[a] else s[a + 1]);
  }

  /** The rows a split-bill request adds owe no negative amounts when no requested share is negative. */
  lemma SharesNonNegative(users: map<UserId, User>, bound: nat, bill: nat, requests: seq<ShareRequest>)
    requires forall k :: 0 <= k < |requests| ==> requests[k].amount >= 0
    ensures SharesOk(Shares(users, bound, bill, requests))
  {
    var added := Shares(users, bound, bill, requests);
    SharesFromRequests(users, bound, bill, requests);
    forall j | 0 <= j < |added| ensures added[j].owed >= 0 {
      var k :| 0 <= k < |requests| && added[j].owed == requests[k].amount
               && Resolve(users, bound, requests[k].identifier) == Some(added[j].user);
    }
  }

  lemma SharesJoin(a: seq<Member>, b: seq<Member>)
    requires SharesOk(a) && SharesOk(b)
    ensures SharesOk(a + b)
  {
    forall j | 0 <= j < |a + b| ensures (a + b)[j].owed >= 0 {
      if j >= |a| {
        assert (a + b)[j] == b[j - |a|];
      }
    }
  }

  /** Dropping entries keeps the ledger well formed and in order. */
  lemma TxnsFilter(txns: seq<Txn>, users: map<UserId, User>, bound: nat, keep: Txn -> bool)
    requires TxnsOk(txns, users, bound)
    ensures TxnsOk(Filter(txns, keep), users, bound)
  {
    FilterKeepsOrder(txns, keep);
    FilterMembers(txns, keep);
    var r := Filter(txns, keep);
    forall i | 0 <= i < |r| ensures TxnOk(r[i], users, bound) {
      var k :| 0 <= k < |txns| && txns[k] == r[i];
    }
  }

  /** Two filters in a row keep exactly the rows both keep. */
  lemma FilterTwice<T>(s: seq<T>, p: T -> bool, q: T -> bool)
    ensures forall i :: 0 <= i < |Filter(Filter(s, p), q)| ==>
              Filter(Filter(s, p), q)[i] in s && p(Filter(Filter(s, p), q)[i]) && q(Filter(Filter(s, p), q)[i])
    ensures forall i :: 0 <= i < |s| && p(s[i]) && q(s[i]) ==> s[i] in Filter(Filter(s, p), q)
  {
    var mid := Filter(s, p);
    var r := Filter(mid, q);
    FilterMembers(s, p);
    FilterMembers(mid, q);
    forall i | 0 <= i < |r| ensures r[i] in s && p(r[i]) && q(r[i]) {
      var k :| 0 <= k < |mid| && mid[k] == r[i];
    }
    forall i | 0 <= i < |s| && p(s[i]) && q(s[i]) ensures s[i] in r {
      var k :| 0 <= k < |mid| && mid[k] == s[i];
    }
  }

  /** Once no entry involves a user, that user's row can go. */
  lemma TxnsShrink(txns: seq<Txn>, users: map<UserId, User>, bound: nat, uid: UserId)
    requires TxnsOk(txns, users, bound)
    requires forall i :: 0 <= i < |txns| ==> !Involves(txns[i], uid)
    ensures TxnsOk(txns, users - {uid}, bound)
  {
    forall i | 0 <= i < |txns| ensures TxnOk(txns[i], users - {uid}, bound) {
      assert TxnOk(txns[i], users, bound);
    }
  }

  /** Deleting the entries a user received, then those they sent, leaves exactly the entries not involving them. */
  lemma DeleteTxns(txns: seq<Txn>, users: map<UserId, User>, bound: nat, uid: UserId)
    requires TxnsOk(txns, users, bound)
    ensures var r := Filter(Filter(txns, NotReceivedBy(uid)), NotSentBy(uid));
      && TxnsOk(r, users - {uid}, bound)
      && (forall i :: 0 <= i < |r| ==> !Involves(r[i], uid) && r[i] in txns)
      && (forall i :: 0 <= i < |txns| && !Involves(txns[i], uid) ==> txns[i] in r)
  {
    var mid := Filter(txns, NotReceivedBy(uid));
    var r := Filter(mid, NotSentBy(uid));
    TxnsFilter(txns, users, bound, NotReceivedBy(uid));
    TxnsFilter(mid, users, bound, NotSentBy(uid));
    FilterTwice(txns, NotReceivedBy(uid), NotSentBy(uid));
    TxnsShrink(r, users, bound, uid);
  }

  /** Deleting a user's goals keeps every other user's savings equal to what their goals hold. */
  lemma DeleteGoals(goals: seq<Goal>, users: map<UserId, User>, uid: UserId)
    requires GoalsOk(goals, users)
    ensures GoalsOk(Filter(goals, NotGoalOf(uid)), users - {uid})
  {
    var r := Filter(goals, NotGoalOf(uid));
    FilterMembers(goals, NotGoalOf(uid));
    forall i | 0 <= i < |r| ensures r[i].owner in users - {uid} && r[i].current >= 0 && r[i].target > 0 {
      var k :| 0 <= k < |goals| && goals[k] == r[i];
    }
    forall id | id in users - {uid} ensures users[id].savings == SavingsOf(r, id) {
      SumFilter(goals, NotGoalOf(uid), Held(id));
    }
  }

  /** Deleting a user's shares keeps the rest non-negative. */
  lemma DeleteShares(members: seq<Member>, uid: UserId)
    requires SharesOk(members)
    ensures SharesOk(Filter(members, NotShareOf(uid)))
  {
    var r := Filter(members, NotShareOf(uid));
    FilterMembers(members, NotShareOf(uid));
    forall i | 0 <= i < |r| ensures r[i].owed >= 0 {
      var k :| 0 <= k < |members| && members[k] == r[i];
    }
  }

  // ------------------------------------------------------------ the database

  /** The tables the handlers read and write; `nextId` stands for the auto-increment keys and generated references. */
  datatype Db = Db(users: map<UserId, User>, txns: seq<Txn>, goals: seq<Goal>, contacts: seq<Contact>,
                   schedules: seq<Schedule>, bills: seq<Bill>, members: seq<Member>, nextId: nat)

  /** The conditions every handler keeps. */
  ghost predicate Consistent(db: Db)
  {
    && UsersOk(db.users, db.nextId)
    && TxnsOk(db.txns, db.users, db.nextId)
    && GoalsOk(db.goals, db.users)
    && ContactsOk(db.contacts)
    && SharesOk(db.members)
  }

  /** total_sent, total_received and total_txn_count agree with the transactions table. */
  ghost predicate Reconciled(db: Db)
  {
    CountersMatch(db.users, db.txns)
  }
}
