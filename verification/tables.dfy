/**
 * Queries over the in-memory tables that stand for the SQL queries of
 * app.py: filtered deletes, `.first()` lookups and the user lookup by
 * email or account number.
 */
module Tables {
  import opened Wrappers
  import opened Records

  /** The rows of `s` that satisfy `keep`, in their original order. */
  function Filter<T>(s: seq<T>, keep: T -> bool): (r: seq<T>)
    ensures |r| <= |s|
  {
    if s == [] then []
    else
      var init := s[..|s| - 1];
      Filter(init, keep) + (if keep(s[|s| - 1]) then [s[|s| - 1]] else [])
  }

  /** A row survives the filter exactly when it was there and satisfies `keep`. */
  lemma {:induction false} FilterMembers<T>(s: seq<T>, keep: T -> bool)
    ensures forall i :: 0 <= i < |Filter(s, keep)| ==> Filter(s, keep)[i] in s && keep(Filter(s, keep)[i])
    ensures forall i :: 0 <= i < |s| && keep(s[i]) ==> s[i] in Filter(s, keep)
    decreases |s|
  {
    if s != [] {
      var init := s[..|s| - 1];
      assert s == init + [s[|s| - 1]];
      FilterMembers(init, keep);
    }
  }

  /** Position of the first row satisfying `p`, as `.first()` returns it. */
  function FirstIndex<T>(s: seq<T>, p: T -> bool): (r: Option<nat>)
    ensures r.Some? ==> r.value < |s| && p(s[r.value])
    ensures r.Some? ==> forall j :: 0 <= j < r.value ==> !p(s[j])
    ensures r.None? ==> forall j :: 0 <= j < |s| ==> !p(s[j])
  {
    if s == [] then None
    else if p(s[0]) then Some(0)
    else
      match FirstIndex(s[1..], p)
      case None => None
      case Some(k) => Some(k + 1)
  }

  /** The lowest user id in [from, bound) whose row satisfies `p`. */
  function FindUser(users: map<UserId, User>, p: User -> bool, from: nat, bound: nat): (r: Option<UserId>)
    ensures r.Some? ==> from <= r.value < bound && r.value in users && p(users[r.value])
    ensures r.Some? ==> forall id :: from <= id < r.value && id in users ==> !p(users[id])
    ensures r.None? ==> forall id :: from <= id < bound && id in users ==> !p(users[id])
    decreases bound - from
  {
    if from >= bound then None
    else if from in users && p(users[from]) then Some(from)
    else FindUser(users, p, from + 1, bound)
  }

  /** Recipient lookup by exact email or account number (app.py:564-568). */
  function Resolve(users: map<UserId, User>, bound: nat, identifier: string): (r: Option<UserId>)
    ensures r.Some? ==> r.value < bound && r.value in users && Matches(users[r.value], identifier)
    ensures r.None? ==> forall id :: 0 <= id < bound && id in users ==> !Matches(users[id], identifier)
  {
    FindUser(users, (u: User) => Matches(u, identifier), 0, bound)
  }

  /** User lookup by email alone, as sign-in does (app.py:356). */
  function FindByEmail(users: map<UserId, User>, bound: nat, email: string): (r: Option<UserId>)
    ensures r.Some? ==> r.value < bound && r.value in users && users[r.value].email == email
    ensures r.None? ==> forall id :: 0 <= id < bound && id in users ==> users[id].email != email
  {
    FindUser(users, (u: User) => u.email == email, 0, bound)
  }

  /** Widening the id range does not change a lookup that already succeeded. */
  lemma ResolveWiden(users: map<UserId, User>, bound: nat, bound': nat, identifier: string)
    requires bound <= bound' && Resolve(users, bound, identifier).Some?
    ensures Resolve(users, bound', identifier) == Resolve(users, bound, identifier)
  {
  }

  // ------------------------------------------------------------- sums

  /** The sum of `f` over the rows of `s` (SQL's SUM / COUNT over a table). */
  function Sum<T>(s: seq<T>, f: T -> int): int
  {
    if s == [] then 0 else Sum(s[..|s| - 1], f) + f(s[|s| - 1])
  }

  lemma SumAppend<T>(s: seq<T>, x: T, f: T -> int)
    ensures Sum(s + [x], f) == Sum(s, f) + f(x)
  {
    assert (s + [x])[..|s + [x]| - 1] == s;
  }

  lemma {:induction false} SumConcat<T>(a: seq<T>, b: seq<T>, f: T -> int)
    ensures Sum(a + b, f) == Sum(a, f) + Sum(b, f)
    decreases |b|
  {
    if b == [] {
      assert a + b == a;
    } else {
      var init := b[..|b| - 1];
      assert a + b == (a + init) + [b[|b| - 1]];
      SumAppend(a + init, b[|b| - 1], f);
      SumConcat(a, init, f);
    }
  }

  /** Replacing one row changes the sum by the difference of the two rows. */
  lemma SumUpdate<T>(s: seq<T>, i: nat, x: T, f: T -> int)
    requires i < |s|
    ensures Sum(s[i := x], f) == Sum(s, f) - f(s[i]) + f(x)
  {
    var pre, post := s[..i], s[i + 1..];
    assert s == pre + [s[i]] + post;
    assert s[i := x] == pre + [x] + post;
    SumConcat(pre + [s[i]], post, f);
    SumConcat(pre + [x], post, f);
    SumAppend(pre, s[i], f);
    SumAppend(pre, x, f);
  }

  /** Deleting one row takes its value out of the sum. */
  lemma {:induction false} SumRemove<T>(s: seq<T>, i: nat, f: T -> int)
    requires i < |s|
    ensures Sum(s[..i] + s[i + 1..], f) == Sum(s, f) - f(s[i])
  {
    var pre, post := s[..i], s[i + 1..];
    var mid := pre + [s[i]];
    assert s == mid + post;
    SumConcat(mid, post, f);
    SumAppend(pre, s[i], f);
    SumConcat(pre, post, f);
  }

  /** A sum of non-negative terms is zero exactly when every term is. */
  lemma {:induction false} SumNonNegative<T>(s: seq<T>, f: T -> int)
    requires forall i :: 0 <= i < |s| ==> f(s[i]) >= 0
    ensures Sum(s, f) >= 0
    ensures Sum(s, f) == 0 <==> forall i :: 0 <= i < |s| ==> f(s[i]) == 0
    decreases |s|
  {
    if s != [] {
      var init := s[..|s| - 1];
      assert forall i :: 0 <= i < |init| ==> init[i] == s[i];
      SumNonNegative(init, f);
    }
  }

  /** Rows that contribute nothing can be filtered out without changing the sum. */
  lemma {:induction false} SumFilter<T>(s: seq<T>, keep: T -> bool, f: T -> int)
    requires forall i :: 0 <= i < |s| && !keep(s[i]) ==> f(s[i]) == 0
    ensures Sum(Filter(s, keep), f) == Sum(s, f)
    decreases |s|
  {
    if s != [] {
      var init, last := s[..|s| - 1], s[|s| - 1];
      assert forall i :: 0 <= i < |init| ==> init[i] == s[i];
      SumFilter(init, keep, f);
      if keep(last) {
        SumAppend(Filter(init, keep), last, f);
      } else {
        assert !keep(s[|s| - 1]) && f(s[|s| - 1]) == 0;
        assert Filter(s, keep) == Filter(init, keep);
      }
    }
  }
}
