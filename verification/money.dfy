/**
 * Amounts are integer paise (one rupee is 100 paise). The limits are those
 * of the deposit, transfer and sign-up handlers in app.py.
 */
module Money {
  /** Balance a new account starts with: ₹1,000 (app.py:360). */
  const WelcomeBalance: int := 100_000
  /** Largest single deposit: ₹1,00,000 (app.py:501). */
  const MaxDeposit: int := 10_000_000
  /** Largest single transfer: ₹50,000 (app.py:561). */
  const MaxTransfer: int := 5_000_000
  /** Transfers up to ₹1,000 carry no fee (app.py:574). */
  const FeeFreeLimit: int := 100_000

  /**
   * n / 1000 rounded to the nearest integer, ties to the even neighbour
   * (the nominal rule of Python's round).
   */
  function RoundThousandth(n: nat): (q: nat)
    ensures -500 <= 1000 * q - n <= 500
  {
    var lo := n / 1000;
    var rem := n % 1000;
    if rem < 500 then lo
    else if rem > 500 then lo + 1
    else if lo % 2 == 0 then lo
    else lo + 1
  }

  /**
   * The transfer fee: nothing up to the fee-free limit, otherwise 0.1% of
   * the amount rounded to the paisa (app.py:574).
   */
  function FeeOf(amount: int): (fee: int)
    ensures fee >= 0
    ensures fee == 0 <==> amount <= FeeFreeLimit
    ensures amount > FeeFreeLimit ==> -500 <= 1000 * fee - amount <= 500
    ensures amount > FeeFreeLimit ==> 0 < fee < amount
  {
    if amount <= FeeFreeLimit then 0 else RoundThousandth(amount)
  }

  /** The worked example of a ₹1,200 transfer: a fee of ₹1.20. */
  lemma FeeOfTwelveHundred()
    ensures FeeOf(120_000) == 120
  {
  }
}
