/**
 * Experience points, tiers and the daily login streak.
 * Tier selection follows User.award_xp (app.py:98-105); the streak rule
 * follows the returning-user branch of oauth2_callback (app.py:372-384).
 */
module Gamification {
  import opened Wrappers

  datatype Tier = Bronze | Silver | Gold | Platinum | Diamond

  /** The xp a tier starts at. */
  function Threshold(t: Tier): nat
  {
    match t
    case Bronze => 0
    case Silver => 200
    case Gold => 800
    case Platinum => 2000
    case Diamond => 5000
  }

  /** Position of a tier in the ladder, lowest first. */
  function Rank(t: Tier): nat
  {
    match t
    case Bronze => 0
    case Silver => 1
    case Gold => 2
    case Platinum => 3
    case Diamond => 4
  }

  /** The tier for a cumulative xp: the highest break point reached. */
  function TierOf(xp: int): Tier
  {
    if xp >= 5000 then Diamond
    else if xp >= 2000 then Platinum
    else if xp >= 800 then Gold
    else if xp >= 200 then Silver
    else Bronze
  }

  /** The tier list that award_xp scans, highest first; Bronze is the fallback. */
  const TierTable: seq<(Tier, nat)> :=
    [(Diamond, 5000), (Platinum, 2000), (Gold, 800), (Silver, 200)]

  /**
   * The loop of award_xp: start from Bronze and take the first entry of the
   * table whose threshold the xp reaches.
   */
  method SelectTier(xp: int) returns (t: Tier)
    ensures t == TierOf(xp)
    ensures Threshold(t) <= xp || t == Bronze
    ensures forall u: Tier :: Threshold(u) <= xp ==> Rank(u) <= Rank(t)
  {
    t := Bronze;
    var i := 0;
    while i < |TierTable|
      invariant 0 <= i <= |TierTable|
      invariant t == Bronze
      invariant forall j :: 0 <= j < i ==> xp < TierTable[j].1
    {
      if xp >= TierTable[i].1 {
        t := TierTable[i].0;
        // the entries skipped so far were all out of reach
        if i > 0 { assert xp < TierTable[0].1; }
        if i > 1 { assert xp < TierTable[1].1; }
        if i > 2 { assert xp < TierTable[2].1; }
        break;
      }
      i := i + 1;
    }
    assert t == Bronze ==> xp < TierTable[3].1;
  }

  /** A higher xp never gives a lower tier. */
  lemma TierMonotone(a: int, b: int)
    requires a <= b
    ensures Rank(TierOf(a)) <= Rank(TierOf(b))
  {
  }

  /** The break points fall exactly on the thresholds. */
  lemma TierBoundaries()
    ensures TierOf(199) == Bronze && TierOf(200) == Silver
    ensures TierOf(799) == Silver && TierOf(800) == Gold
    ensures TierOf(1999) == Gold && TierOf(2000) == Platinum
    ensures TierOf(4999) == Platinum && TierOf(5000) == Diamond
  {
  }

  // ---------------------------------------------------------------- streak

  /** The fields the login rule reads and writes; days are integer day numbers. */
  datatype LoginState = LoginState(streak: nat, last: Option<int>, xp: nat)

  const StreakXp: nat := 10
  const WeeklyBonusXp: nat := 50

  /**
   * One sign-in on day `today`: a login on the day after the last one extends
   * the streak and earns xp (with a bonus on every seventh day), a repeat on
   * the same day changes nothing, anything else restarts the streak at 1.
   */
  function LoginTransition(s: LoginState, today: int): LoginState
  {
    if s.last == Some(today - 1) then
      var k := s.streak + 1;
      LoginState(k, Some(today), s.xp + StreakXp + (if k % 7 == 0 then WeeklyBonusXp else 0))
    else if s.last == Some(today) then
      s
    else
      LoginState(1, Some(today), s.xp)
  }

  /** Signing in twice on the same day has the effect of signing in once. */
  lemma LoginSameDayIdempotent(s: LoginState, today: int)
    ensures LoginTransition(LoginTransition(s, today), today) == LoginTransition(s, today)
  {
  }

  /** Every sign-in records the day and never takes xp away. */
  lemma LoginRecordsDay(s: LoginState, today: int)
    ensures LoginTransition(s, today).last == Some(today)
    ensures LoginTransition(s, today).xp >= s.xp
  {
  }

  /** A missed day (or a first sign-in) restarts the streak at one without xp. */
  lemma LoginAfterGap(s: LoginState, today: int)
    requires s.last.None? || s.last.value < today - 1 || s.last.value > today
    ensures LoginTransition(s, today) == LoginState(1, Some(today), s.xp)
  {
  }

  /** Sign in on `k` consecutive days starting with day `first`. */
  function LoginRun(s: LoginState, first: int, k: nat): LoginState
    decreases k
  {
    if k == 0 then s else LoginRun(LoginTransition(s, first), first + 1, k - 1)
  }

  lemma WeekStep(n: nat)
    ensures (n + 1) / 7 == n / 7 + (if (n + 1) % 7 == 0 then 1 else 0)
  {
  }

  /**
   * After k consecutive daily sign-ins that continue a streak, the streak
   * grew by k and the xp by 10 per day plus 50 for every multiple of seven
   * the streak passed.
   */
  lemma {:induction false} ConsecutiveLogins(s: LoginState, first: int, k: nat)
    requires s.last == Some(first - 1)
    ensures LoginRun(s, first, k).streak == s.streak + k
    ensures LoginRun(s, first, k).xp == s.xp + StreakXp * k + WeeklyBonusXp * ((s.streak + k) / 7 - s.streak / 7)
    ensures k > 0 ==> LoginRun(s, first, k).last == Some(first + k - 1)
    decreases k
  {
    if k > 0 {
      var s1 := LoginTransition(s, first);
      WeekStep(s.streak);
      assert s1.streak == s.streak + 1;
      assert s1.xp == s.xp + StreakXp + WeeklyBonusXp * ((s.streak + 1) / 7 - s.streak / 7);
      ConsecutiveLogins(s1, first + 1, k - 1);
    }
  }

  // ---------------------------------------------------------------- goals

  const GoalReachedXp: nat := 100

  /**
   * The goal-achieved bonus: paid on the savings deposit that takes a goal
   * from below its target to at least its target, and on no other.
   */
  function GoalBonus(before: int, after: int, target: int): nat
  {
    if before < target <= after then GoalReachedXp else 0
  }
}
