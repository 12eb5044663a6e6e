/** Account lockout: the failed-login counter of one account under sequential logins. */
module Lockout {
  import opened Common

  const MAX_FAILED_ATTEMPTS: nat := 5
  const LOCKOUT_MS: nat := 900000   // 15 minutes

  datatype Account = Account(failedLoginAttempts: nat, lockedUntil: Option<nat>)

  /** One login: the lockout test at `checkedAt`, the password comparison at `comparedAt`, the row write at `writtenAt`. */
  datatype Attempt = Attempt(checkedAt: nat, comparedAt: nat, writtenAt: nat, valid: bool)

  predicate Ordered(a: Attempt) { a.checkedAt <= a.comparedAt <= a.writtenAt }

  predicate Locked(u: Account, at: nat) { u.lockedUntil.Some? && at < u.lockedUntil.value }

  function Failed(u: Account, at: nat): Account {
    var attempts := u.failedLoginAttempts + 1;
    Account(attempts, if attempts >= MAX_FAILED_ATTEMPTS then Some(at + LOCKOUT_MS) else u.lockedUntil)
  }

  function Succeeded(u: Account): Account {
    if u.failedLoginAttempts > 0 then Account(0, None) else u
  }

  function AfterAttempt(u: Account, a: Attempt): Account {
    if Locked(u, a.checkedAt) then u else if a.valid then Succeeded(u) else Failed(u, a.writtenAt)
  }

  /** Logins one after another: each starts once the one before has written its row. */
  predicate Sequential(attempts: seq<Attempt>) {
    && (forall i | 0 <= i < |attempts| :: Ordered(attempts[i]))
    && (forall i | 0 < i < |attempts| :: attempts[i - 1].writtenAt <= attempts[i].checkedAt)
  }

  function AfterAll(u: Account, attempts: seq<Attempt>): Account {
    if attempts == [] then u else AfterAttempt(AfterAll(u, attempts[..|attempts| - 1]), attempts[|attempts| - 1])
  }

  /** When passwords were compared: the attempts that were not turned away. */
  function Comparisons(u: Account, attempts: seq<Attempt>): seq<nat> {
    if attempts == [] then []
    else
      var before, a := attempts[..|attempts| - 1], attempts[|attempts| - 1];
      Comparisons(u, before) + if Locked(AfterAll(u, before), a.checkedAt) then [] else [a.comparedAt]
  }

  const NEW_ACCOUNT := Account(0, None)

  /** `lockedUntil` is set exactly when five or more attempts have failed since the last success. */
  lemma {:induction false} LockedExactlyFromTheFifth(attempts: seq<Attempt>)
    ensures var u := AfterAll(NEW_ACCOUNT, attempts);
      u.lockedUntil.Some? <==> u.failedLoginAttempts >= MAX_FAILED_ATTEMPTS
  {
    if attempts != [] {
      LockedExactlyFromTheFifth(attempts[..|attempts| - 1]);
    }
  }

  /**
   * One login more, on the row: turned away it changes nothing, a success leaves zero attempts and no
   * lock, a failure one attempt more and, from the fifth on, a lock of 15 minutes.
   */
  lemma OneMoreLogin(attempts: seq<Attempt>, a: Attempt)
    ensures var u, t := AfterAll(NEW_ACCOUNT, attempts), AfterAll(NEW_ACCOUNT, attempts + [a]);
      if u.lockedUntil.Some? && a.checkedAt < u.lockedUntil.value then t == u
      else if a.valid then t.failedLoginAttempts == 0 && t.lockedUntil == None
      else
        && t.failedLoginAttempts == u.failedLoginAttempts + 1
        && t.lockedUntil == if t.failedLoginAttempts >= 5 then Some(a.writtenAt + 15 * 60000) else None
  {
    LastLogin(attempts, a);
    LockedExactlyFromTheFifth(attempts);
  }

  lemma LastLogin(attempts: seq<Attempt>, a: Attempt)
    ensures AfterAll(NEW_ACCOUNT, attempts + [a]) == AfterAttempt(AfterAll(NEW_ACCOUNT, attempts), a)
  {
    assert (attempts + [a])[..|attempts|] == attempts;
  }

  /** Its password is compared exactly when it is not turned away. */
  lemma OneMoreComparison(attempts: seq<Attempt>, a: Attempt)
    ensures var u := AfterAll(NEW_ACCOUNT, attempts);
      Comparisons(NEW_ACCOUNT, attempts + [a]) ==
      Comparisons(NEW_ACCOUNT, attempts) + if u.lockedUntil.Some? && a.checkedAt < u.lockedUntil.value then [] else [a.comparedAt]
  {
    assert (attempts + [a])[..|attempts|] == attempts;
  }

  /** A stretch without a success: the right password is given only while the lock lasts, and turned away. */
  predicate NoSuccess(attempts: seq<Attempt>) {
    forall i | 0 <= i < |attempts| && attempts[i].valid ::
      Locked(AfterAll(NEW_ACCOUNT, attempts[..i]), attempts[i].checkedAt)
  }

  lemma StretchPrefix(attempts: seq<Attempt>)
    requires attempts != [] && Sequential(attempts) && NoSuccess(attempts)
    ensures var n := |attempts| - 1;
      && Sequential(attempts[..n]) && NoSuccess(attempts[..n])
      && (attempts[n].valid ==> Locked(AfterAll(NEW_ACCOUNT, attempts[..n]), attempts[n].checkedAt))
  {
    var n := |attempts| - 1;
    forall i | 0 <= i < n && attempts[i].valid
      ensures Locked(AfterAll(NEW_ACCOUNT, attempts[..n][..i]), attempts[i].checkedAt)
    {
      assert attempts[..n][..i] == attempts[..i];
    }
  }

  /** From zero attempts and without a success, every comparison failed and was counted; the lock follows the last one. */
  lemma {:induction false} CountsComparisons(attempts: seq<Attempt>)
    requires Sequential(attempts) && NoSuccess(attempts)
    ensures var u, cs := AfterAll(NEW_ACCOUNT, attempts), Comparisons(NEW_ACCOUNT, attempts);
      && |cs| == u.failedLoginAttempts
      && (|cs| >= MAX_FAILED_ATTEMPTS ==> u.lockedUntil.Some? && cs[|cs| - 1] + LOCKOUT_MS <= u.lockedUntil.value)
      && (|cs| < MAX_FAILED_ATTEMPTS ==> u.lockedUntil == None)
  {
    if attempts != [] {
      StretchPrefix(attempts);
      CountsComparisons(attempts[..|attempts| - 1]);
    }
  }

  /** From the fifth comparison on, each comes at least 15 minutes after the one before. */
  lemma {:induction false} Spacing(attempts: seq<Attempt>, k: nat)
    requires Sequential(attempts) && NoSuccess(attempts)
    requires MAX_FAILED_ATTEMPTS <= k < |Comparisons(NEW_ACCOUNT, attempts)|
    ensures var cs := Comparisons(NEW_ACCOUNT, attempts); cs[k - 1] + LOCKOUT_MS <= cs[k]
  {
    var before := attempts[..|attempts| - 1];
    var u, cs := AfterAll(NEW_ACCOUNT, before), Comparisons(NEW_ACCOUNT, before);
    StretchPrefix(attempts);
    if k < |cs| {
      Spacing(before, k);
    } else {
      CountsComparisons(before);
      assert cs[k - 1] + LOCKOUT_MS <= u.lockedUntil.value <= attempts[|attempts| - 1].checkedAt;
    }
  }

  /**
   * The rate bound: in a stretch without a success from zero attempts, the k-th comparison
   * (k >= 5) comes no earlier than (k - 5) times 15 minutes after the fifth.
   */
  lemma {:induction false} RateBound(attempts: seq<Attempt>, k: nat)
    requires Sequential(attempts) && NoSuccess(attempts)
    requires MAX_FAILED_ATTEMPTS <= k <= |Comparisons(NEW_ACCOUNT, attempts)|
    ensures var cs := Comparisons(NEW_ACCOUNT, attempts);
      cs[MAX_FAILED_ATTEMPTS - 1] + (k - MAX_FAILED_ATTEMPTS) * LOCKOUT_MS <= cs[k - 1]
  {
    if k > MAX_FAILED_ATTEMPTS {
      RateBound(attempts, k - 1);
      Spacing(attempts, k - 1);
    }
  }

  class LoginGate {
    var failedLoginAttempts: nat
    var lockedUntil: Option<nat>

    ghost function View(): Account reads this { Account(failedLoginAttempts, lockedUntil) }

    /** The lockout part of a login; `Err(Forbidden)` before any comparison while the lock lasts. */
    method Login(a: Attempt) returns (r: Result<bool>)
      modifies this
      ensures View() == AfterAttempt(old(View()), a)
      ensures r == if Locked(old(View()), a.checkedAt) then Err(Forbidden) else if a.valid then Ok(true) else Err(Unauthorized)
      // On the row.
      ensures r == Err(Forbidden) <==> old(lockedUntil).Some? && a.checkedAt < old(lockedUntil).value
      ensures r == Err(Forbidden) ==> failedLoginAttempts == old(failedLoginAttempts) && lockedUntil == old(lockedUntil)
      ensures r == Err(Unauthorized) ==>
        && !a.valid && failedLoginAttempts == old(failedLoginAttempts) + 1
        && lockedUntil == if failedLoginAttempts >= 5 then Some(a.writtenAt + 15 * 60000) else old(lockedUntil)
      ensures r == Ok(true) ==>
        a.valid && failedLoginAttempts == 0 && (lockedUntil == if old(failedLoginAttempts) > 0 then None else old(lockedUntil))
    {
      if lockedUntil.Some? && a.checkedAt < lockedUntil.value {
        return Err(Forbidden);
      }
      if !a.valid {
        var newAttempts := failedLoginAttempts + 1;
        var shouldLock := newAttempts >= MAX_FAILED_ATTEMPTS;
        failedLoginAttempts := newAttempts;
        if shouldLock {
          lockedUntil := Some(a.writtenAt + LOCKOUT_MS);
        }
        return Err(Unauthorized);
      }
      if failedLoginAttempts > 0 {
        failedLoginAttempts := 0;
        lockedUntil := None;
      }
      r := Ok(true);
    }
  }
}
