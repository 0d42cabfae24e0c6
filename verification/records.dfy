/**
 * The rows the handlers read and write (the SQLAlchemy models of app.py:57-258),
 * reduced to the columns the money and gamification rules use.
 */
module Records {
  import opened Wrappers
  import opened Gamification

  /** Primary keys of users; every other table uses plain nat ids. */
  type UserId = nat

  /** A users row (app.py:57-73). Money columns are paise. */
  datatype User = User(
    email: string,
    accountNumber: string,
    balance: int,
    savings: int,
    xp: nat,
    tier: Tier,
    streak: nat,
    lastLogin: Option<int>,
    totalSent: int,
    totalReceived: int,
    txnCount: nat)

  datatype TxnKind = Deposit | Withdrawal | Transfer | Savings | Split

  /** A transactions row (app.py:119-130); the reference is a fresh id. */
  datatype Txn = Txn(
    reference: nat,
    sender: Option<UserId>,
    receiver: Option<UserId>,
    amount: int,
    fee: int,
    kind: TxnKind,
    category: string)

  /** A savings_goals row (app.py:163-171). */
  datatype Goal = Goal(id: nat, owner: UserId, name: string, target: int, current: int)

  /** A contacts row (app.py:194-201): `owner` knows `peer`. */
  datatype Contact = Contact(id: nat, owner: UserId, peer: UserId, nickname: string)

  /** A scheduled_payments row (app.py:206-216). */
  datatype Schedule = Schedule(
    id: nat,
    sender: UserId,
    receiver: UserId,
    amount: int,
    frequency: string,
    nextDate: string,
    active: bool)

  /** A split_bills row (app.py:221-228). */
  datatype Bill = Bill(id: nat, creator: UserId, title: string, total: int)

  /** A split_bill_members row (app.py:235-242). */
  datatype Member = Member(bill: nat, user: UserId, owed: int, paid: bool)

  /** One entry of the members list a split-bill request carries. */
  datatype ShareRequest = ShareRequest(identifier: string, amount: int)

  /** The error responses of the handlers. */
  datatype Error =
    | InvalidAmount        // non-positive or out-of-range amount
    | LimitExceeded        // above the single-transfer ceiling
    | MissingField         // a required field is empty
    | RecipientNotFound    // no user with that email or account number
    | NotFound             // no such goal, contact or scheduled payment of the caller
    | SelfNotAllowed       // transfer to, or contact with, oneself
    | AlreadyExists        // the contact pair or the account number is taken
    | InsufficientFunds    // balance below what the operation takes
    | InsufficientSavings  // goal holds less than the withdrawal
    | NothingToPay         // no unpaid share of the caller in that bill
    | Internal             // the handler raises and nothing is committed

  datatype Result<+T> = Ok(value: T) | Err(error: Error)

  /** The user after award_xp(points): xp grows and the tier is recomputed. */
  function Awarded(u: User, points: nat): User
  {
    u.(xp := u.xp + points, tier := TierOf(u.xp + points))
  }

  /** Does the identifier name this user (exact email or account number)? */
  predicate Matches(u: User, identifier: string)
  {
    u.email == identifier || u.accountNumber == identifier
  }
}
