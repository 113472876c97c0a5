/**
 * The command-cooldown table. A driver stamps a key with the time it issues
 * a command; a webhook for a stamped key that arrives less than 2000 ms
 * later is dropped. Two forms of the test occur in the drivers:
 * `stamp && now - stamp < cooldown` (fan, tunable-white light, window
 * covering) and `now - (stamp || 0) < cooldown` (full-colour light, dimmer).
 */
module Cooldown {

  const CooldownMs := 2000

  type Stamps = map<string, nat>

  /** `this.lastCommandTime[key] && (now - this.lastCommandTime[key]) < cooldown`. */
  predicate RecentlyCommanded(stamps: Stamps, key: string, now: nat) {
    key in stamps && stamps[key] != 0 && now - stamps[key] < CooldownMs
  }

  /** `this.lastCommandTime[key] || 0`. */
  function StampOrZero(stamps: Stamps, key: string): nat {
    if key in stamps then stamps[key] else 0
  }

  /** `Date.now() - (this.lastCommandTime[key] || 0) < cooldownPeriod`. */
  predicate WithinCooldown(stamps: Stamps, key: string, now: nat) {
    now - StampOrZero(stamps, key) < CooldownMs
  }

  /**
   * A command stamped at `t` suppresses its key for exactly 2000 ms: an
   * observation `d` ms later is dropped iff `d < 2000`, for both forms.
   */
  lemma StampOpensWindow(stamps: Stamps, key: string, t: nat, d: nat)
    requires t > 0
    ensures RecentlyCommanded(stamps[key := t], key, t + d) <==> d < CooldownMs
    ensures WithinCooldown(stamps[key := t], key, t + d) <==> d < CooldownMs
  {
  }

  /** Stamping one key never changes the verdict for another. */
  lemma StampIsPerKey(stamps: Stamps, key: string, other: string, t: nat, now: nat)
    requires other != key
    ensures RecentlyCommanded(stamps[key := t], other, now) == RecentlyCommanded(stamps, other, now)
    ensures WithinCooldown(stamps[key := t], other, now) == WithinCooldown(stamps, other, now)
  {
  }

  /**
   * The two forms agree once the clock is past 2000 ms; before that the
   * second form suppresses keys that were never stamped.
   */
  lemma FormsAgree(stamps: Stamps, key: string, now: nat)
    ensures now >= CooldownMs ==> (RecentlyCommanded(stamps, key, now) <==> WithinCooldown(stamps, key, now))
    ensures key !in stamps ==> !RecentlyCommanded(stamps, key, now)
    ensures key !in stamps ==> (WithinCooldown(stamps, key, now) <==> now < CooldownMs)
  {
  }
}
