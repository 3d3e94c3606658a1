/**
 * The failed-attempt bookkeeping and the lock test of the login workflow
 * (src/actions/loginUser.ts:114 and :144-158), as pure functions. Times
 * are integers in one unit; a lockout of `d` seconds ends at `now + d`.
 */
module LockoutPolicy {
  import opened Common

  /** What a failed password check writes to the user record. */
  datatype Bookkeeping = Bookkeeping(failedLoginAttempts: nat, lockedUntil: Option<int>)

  /** The lock is active while `lockedUntil` is set and still in the future. */
  function IsLocked(lockedUntil: Option<int>, now: int): (locked: bool)
    ensures lockedUntil.None? ==> !locked
    ensures lockedUntil.Some? && now >= lockedUntil.value ==> !locked
    ensures lockedUntil.Some? && now < lockedUntil.value ==> locked
  {
    lockedUntil.Some? && lockedUntil.value > now
  }

  /**
   * One more failure. When the new count reaches the maximum, the account is
   * locked for the lockout duration and the counter starts again from zero.
   */
  function OnFailedAttempt(count: nat, maxFailedLogins: int, lockoutDurationSeconds: int,
                           now: int): (b: Bookkeeping)
    ensures b.lockedUntil.Some? <==> count + 1 >= maxFailedLogins
    ensures b.lockedUntil.Some? ==> b == Bookkeeping(0, Some(now + lockoutDurationSeconds))
    ensures b.lockedUntil.None? ==> b.failedLoginAttempts == count + 1
  {
    var failed := count + 1;
    if failed >= maxFailedLogins then Bookkeeping(0, Some(now + lockoutDurationSeconds))
    else Bookkeeping(failed, None)
  }

  /** The stored counter never reaches the maximum. */
  lemma CounterBelowMaximum(count: nat, maxFailedLogins: int, lockoutDurationSeconds: int, now: int)
    requires maxFailedLogins >= 1
    ensures OnFailedAttempt(count, maxFailedLogins, lockoutDurationSeconds, now).failedLoginAttempts
            < maxFailedLogins
  {
  }

  /** A lock set by a failure at `now` is active exactly until `now + d`. */
  lemma LockLastsForDuration(count: nat, maxFailedLogins: int, lockoutDurationSeconds: int,
                             now: int, later: int)
    requires count + 1 >= maxFailedLogins
    ensures IsLocked(OnFailedAttempt(count, maxFailedLogins, lockoutDurationSeconds, now).lockedUntil, later)
            <==> later < now + lockoutDurationSeconds
  {
  }
}
