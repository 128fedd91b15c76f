/** Cooldown arithmetic (src/domain/phoneCooldown.ts). */
module PhoneCooldown {
  import opened Domain

  const DEFAULT_COOLDOWN_MS: int := DAY_MS
  const ACTIVE_BALANCE_COOLDOWN_MS: int := 7 * DAY_MS

  function ComputeCooldownUntil(now: Time, hasActiveBalance: bool): Time {
    now + if hasActiveBalance then ACTIVE_BALANCE_COOLDOWN_MS else DEFAULT_COOLDOWN_MS
  }

  predicate IsInCooldown(cooldownUntil: Option<Time>, now: Time) {
    cooldownUntil.Some? && cooldownUntil.value > now
  }

  /** `Math.ceil(ms / 1000)` for a positive number of milliseconds. */
  function CooldownRemainingSeconds(cooldownUntil: Option<Time>, now: Time): int {
    if cooldownUntil.None? then 0
    else
      var ms := cooldownUntil.value - now;
      if ms > 0 then (ms + SECOND_MS - 1) / SECOND_MS else 0
  }

  /** A change starts a cooldown of a day, and of a week for an account with a balance, its last instant excluded. */
  lemma CooldownRunsADayOrAWeek(from: Time, hasActiveBalance: bool, at: Time)
    ensures IsInCooldown(Some(ComputeCooldownUntil(from, hasActiveBalance)), at) <==>
      at < from + (if hasActiveBalance then 7 * 24 else 24) * 60 * 60 * 1000
    ensures !IsInCooldown(None, at)
  {}

  /** The reported wait is the least whole number of seconds after which the cooldown is over. */
  lemma RemainingIsLeastWait(cooldownUntil: Option<Time>, now: Time, wait: nat)
    ensures CooldownRemainingSeconds(cooldownUntil, now) <= wait <==>
        !IsInCooldown(cooldownUntil, now + wait * SECOND_MS)
  {
    if cooldownUntil.Some? && cooldownUntil.value > now {
      var ms := cooldownUntil.value - now;
      var r := (ms + SECOND_MS - 1) / SECOND_MS;
      assert (r - 1) * SECOND_MS < ms <= r * SECOND_MS;
    }
  }
}
