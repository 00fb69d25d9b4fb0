/**
 * The daily-claim streak (src/models/UserDailyStreak.js): whether a reward
 * can be claimed now, and how a claim moves the streak. Times are
 * milliseconds since the epoch; a calendar day is the whole number of days
 * since the epoch, so "midnight" is a multiple of `DAY_MS`.
 */
module DailyStreak {

  import opened Util

  const DAY_MS := 24 * 60 * 60 * 1000

  /** The calendar day a timestamp falls on. */
  function Day(t: int): int { t / DAY_MS }

  /** `setHours(0, 0, 0, 0)`: the midnight that starts the day of `t`. */
  function Midnight(t: int): (m: int)
    ensures m <= t < m + DAY_MS
    ensures Day(m) == Day(t)
  {
    Day(t) * DAY_MS
  }

  /** The answer of `canClaim`: `status`, and how long until the next claim (0 when it is now). */
  datatype ClaimStatus = ClaimStatus(status: bool, waitMs: int)

  /** The streak after a claim at `now`. */
  function NextStreak(streak: int, last: Option<int>, now: int): int {
    if last.None? then 1
    else
      var yesterday := Day(now) - 1;
      if Day(last.value) == yesterday then streak + 1
      else if Day(last.value) < yesterday then 1
      else streak
  }

  class UserDailyStreak {
    var currentStreak: int
    var lastClaimTimestamp: Option<int>

    /** A document with the schema defaults. */
    constructor ()
      ensures currentStreak == 0 && lastClaimTimestamp == None
    {
      currentStreak := 0;
      lastClaimTimestamp := None;
    }

    /**
     * `canClaim()` at `now`: with no earlier claim, yes; otherwise only from
     * the midnight after the last claim's day, and the wait is the time left
     * until that midnight.
     */
    function CanClaim(now: int): (r: ClaimStatus)
      reads this
      ensures r.status <==> lastClaimTimestamp.None? || Day(now) > Day(lastClaimTimestamp.value)
      ensures r.status <==> r.waitMs == 0
      ensures !r.status ==> now + r.waitMs == Midnight(lastClaimTimestamp.value) + DAY_MS
    {
      if lastClaimTimestamp.None? then ClaimStatus(true, 0)
      else
        var nextClaimDate := Midnight(lastClaimTimestamp.value) + DAY_MS;
        if now >= nextClaimDate then ClaimStatus(true, 0)
        else ClaimStatus(false, nextClaimDate - now)
    }

    /** `claim()` at `now`: moves the streak, records the claim and returns the new streak. */
    method Claim(now: int) returns (streak: int)
      modifies this
      ensures currentStreak == NextStreak(old(currentStreak), old(lastClaimTimestamp), now)
      ensures lastClaimTimestamp == Some(now)
      ensures streak == currentStreak
    {
      var today := Midnight(now);
      if lastClaimTimestamp.Some? {
        var lastClaimDate := Midnight(lastClaimTimestamp.value);
        var yesterday := today - DAY_MS;
        if lastClaimDate == yesterday {
          currentStreak := currentStreak + 1;
        } else if lastClaimDate < yesterday {
          currentStreak := 1;
        }
      } else {
        currentStreak := 1;
      }
      lastClaimTimestamp := Some(now);
      return currentStreak;
    }
  }

  /**
   * How a claim moves the streak: the first claim starts it at 1, a claim on
   * the day after the last one adds 1, a claim two or more days later
   * restarts it at 1, and a second claim on the same day leaves it.
   */
  lemma ClaimRules(streak: int, last: int, now: int)
    ensures NextStreak(streak, None, now) == 1
    ensures Day(now) == Day(last) + 1 ==> NextStreak(streak, Some(last), now) == streak + 1
    ensures Day(now) >= Day(last) + 2 ==> NextStreak(streak, Some(last), now) == 1
    ensures Day(now) == Day(last) ==> NextStreak(streak, Some(last), now) == streak
  {
  }

  /**
   * A claim allowed by `canClaim` leaves a streak of at least 1; one it does
   * not allow leaves the streak as it was. The streak is never negative.
   */
  lemma ClaimAgreesWithCanClaim(streak: int, last: Option<int>, now: int)
    requires streak >= 0
    ensures NextStreak(streak, last, now) >= 0
    ensures last.None? || Day(now) > Day(last.value) ==> NextStreak(streak, last, now) >= 1
    ensures last.Some? && Day(now) <= Day(last.value) ==> NextStreak(streak, last, now) == streak
  {
  }

  /** With a clock that does not run backwards, the wait is positive and at most a day. */
  lemma WaitAtMostADay(s: UserDailyStreak, now: int)
    requires s.lastClaimTimestamp.Some? && now >= s.lastClaimTimestamp.value
    ensures !s.CanClaim(now).status ==> 0 < s.CanClaim(now).waitMs <= DAY_MS
  {
  }

  /** The streak after claims at each of `times` in turn, from `streak` and `last`. */
  function ClaimAll(streak: int, last: Option<int>, times: seq<int>): int
    decreases |times|
  {
    if times == [] then streak
    else ClaimAll(NextStreak(streak, last, times[0]), Some(times[0]), times[1..])
  }

  /** Each claim falls on the calendar day after the one before. */
  predicate ConsecutiveDays(times: seq<int>) {
    forall k :: 0 <= k < |times| - 1 ==> Day(times[k + 1]) == Day(times[k]) + 1
  }

  /** Claiming on `n` consecutive days, from a claim on the day before the first, adds `n` to the streak. */
  lemma {:induction false} ConsecutiveClaimsAdd(streak: int, last: int, times: seq<int>)
    requires times != [] ==> Day(times[0]) == Day(last) + 1
    requires ConsecutiveDays(times)
    ensures ClaimAll(streak, Some(last), times) == streak + |times|
    decreases |times|
  {
    if times != [] {
      var rest := times[1..];
      assert ConsecutiveDays(rest) by {
        forall k | 0 <= k < |rest| - 1 ensures Day(rest[k + 1]) == Day(rest[k]) + 1 {
          assert rest[k] == times[k + 1] && rest[k + 1] == times[k + 2];
        }
      }
      if rest != [] {
        assert rest[0] == times[1];
      }
      ConsecutiveClaimsAdd(streak + 1, times[0], rest);
    }
  }

  /** A first claim followed by claims on each following day gives a streak equal to the number of claims. */
  lemma DailyClaimsCount(streak: int, times: seq<int>)
    requires times != [] && ConsecutiveDays(times)
    ensures ClaimAll(streak, None, times) == |times|
  {
    var rest := times[1..];
    assert ConsecutiveDays(rest) by {
      forall k | 0 <= k < |rest| - 1 ensures Day(rest[k + 1]) == Day(rest[k]) + 1 {
        assert rest[k] == times[k + 1] && rest[k + 1] == times[k + 2];
      }
    }
    if rest != [] {
      assert rest[0] == times[1];
    }
    ConsecutiveClaimsAdd(1, times[0], rest);
  }
}
