/** The hours in which nobody is texted (backend/src/lib/quietHours.ts). Minutes are
counted from local midnight in the configured zone. */
module QuietHours {
  import opened Tables

  const MINUTES_PER_DAY: int := 24 * 60

  /** What the configuration says; a bound that is not HH:MM reads as `None`. */
  datatype Config = Off | Window(from: Option<int>, to: Option<int>)

  datatype QuietHours = QuietHours(inWindow: bool, opensAt: Option<int>)

  predicate IsMinute(m: int) { 0 <= m < MINUTES_PER_DAY }

  predicate ConfigValid(config: Config) {
    config.Window? ==>
      (config.from.Some? ==> IsMinute(config.from.value)) && (config.to.Some? ==> IsMinute(config.to.value))
  }

  predicate Configured(config: Config) { config.Window? && config.from.Some? && config.to.Some? }

  predicate InWindow(from: int, to: int, now: int) {
    if from <= to then now >= from && now < to else now >= from || now < to
  }

  /** Minutes until the window closes. */
  function Remaining(from: int, to: int, now: int): int {
    if from <= to then to - now
    else if now >= from then MINUTES_PER_DAY - now + to
    else to - now
  }

  /** `at` is the instant, in milliseconds, at which the local minute is `now`. */
  function QuietHoursNow(config: Config, now: int, at: int): QuietHours {
    if !Configured(config) then QuietHours(false, None)
    else
      var from, to := config.from.value, config.to.value;
      if !InWindow(from, to, now) then QuietHours(false, None)
      else QuietHours(true, Some(at + Remaining(from, to, now) * 60_000))
  }

  /** The clock `j` minutes after it shows `m`. */
  function Later(m: int, j: int): int { (m + j) % MINUTES_PER_DAY }

  /** `now` is one of the minutes walked from `from`, around the clock, up to but not including `to`. */
  ghost predicate OnTheWay(from: int, to: int, now: int) {
    exists j :: 0 <= j < (to - from) % MINUTES_PER_DAY && Later(from, j) == now
  }

  lemma OneTurn(m: int)
    requires -MINUTES_PER_DAY < m < 2 * MINUTES_PER_DAY
    ensures m % MINUTES_PER_DAY == if m < 0 then m + MINUTES_PER_DAY
                                   else if m < MINUTES_PER_DAY then m else m - MINUTES_PER_DAY
  {
  }

  /** The test is membership of the cyclic interval [from, to), wrapped or not, and an
      interval with equal ends is empty. */
  lemma WindowIsCyclic(from: int, to: int, now: int)
    requires IsMinute(from) && IsMinute(to) && IsMinute(now)
    ensures InWindow(from, to, now) <==> OnTheWay(from, to, now)
  {
    var length := if to < from then to - from + MINUTES_PER_DAY else to - from;
    OneTurn(to - from);
    if InWindow(from, to, now) {
      var j := if now < from then now - from + MINUTES_PER_DAY else now - from;
      OneTurn(from + j);
      assert 0 <= j < length && Later(from, j) == now;
    }
    if OnTheWay(from, to, now) {
      var j :| 0 <= j < (to - from) % MINUTES_PER_DAY && Later(from, j) == now;
      OneTurn(from + j);
    }
  }

  ghost predicate FirstOutside(from: int, to: int, now: int, k: int) {
    && !OnTheWay(from, to, Later(now, k))
    && forall j :: 0 <= j < k ==> OnTheWay(from, to, Later(now, j))
  }

  lemma ClosesAfterRemaining(from: int, to: int, now: int)
    requires IsMinute(from) && IsMinute(to) && IsMinute(now) && InWindow(from, to, now)
    ensures 0 < Remaining(from, to, now) <= MINUTES_PER_DAY
    ensures FirstOutside(from, to, now, Remaining(from, to, now))
  {
    var k := Remaining(from, to, now);
    OneTurn(now + k);
    WindowIsCyclic(from, to, to);
    forall j | 0 <= j < k ensures OnTheWay(from, to, Later(now, j)) {
      OneTurn(now + j);
      assert InWindow(from, to, Later(now, j));
      WindowIsCyclic(from, to, Later(now, j));
    }
  }

  /** A text held back is let through at the first minute outside the window: every
      minute before it is inside, it is not, and it comes within a day. */
  lemma OpensAtTheRightMinute(config: Config, now: int, at: int)
    requires ConfigValid(config) && IsMinute(now)
    ensures var q := QuietHoursNow(config, now, at);
            && (q.inWindow <==> Configured(config) && OnTheWay(config.from.value, config.to.value, now))
            && (!q.inWindow ==> q.opensAt == None)
            && (q.inWindow ==>
                  exists k :: 0 < k <= MINUTES_PER_DAY && q.opensAt == Some(at + k * 60_000)
                              && FirstOutside(config.from.value, config.to.value, now, k))
  {
    if Configured(config) {
      WindowIsCyclic(config.from.value, config.to.value, now);
      if InWindow(config.from.value, config.to.value, now) {
        ClosesAfterRemaining(config.from.value, config.to.value, now);
      }
    }
  }
}
