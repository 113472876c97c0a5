/**
 * Value translators between the hub's attribute encodings (0-100 integer
 * percentages, Kelvin, named fan speeds, shade states, on/off strings) and
 * Homey's normalised capability domains (0-1 numbers, enums, booleans).
 */
module Translators {
  import opened Wrappers
  import opened Js

  // ---------------------------------------------------------------------
  // Percentage <-> unit value

  /** `Math.round(value * 100)`: a 0-1 capability value as a hub percentage. */
  function LevelFromUnit(v: real): int {
    Round(v * 100.0)
  }

  /** `level / 100`: a hub percentage as a 0-1 capability value. */
  function UnitFromLevel(level: int): real {
    level as real / 100.0
  }

  /** A unit value in range gives a percentage in 0..100. */
  lemma LevelBounds(v: real)
    requires 0.0 <= v <= 1.0
    ensures 0 <= LevelFromUnit(v) <= 100
  {
    RoundBounds(v * 100.0);
  }

  /** Integer percentages survive the trip through the unit domain exactly. */
  lemma LevelRoundTrip(level: int)
    ensures LevelFromUnit(UnitFromLevel(level)) == level
  {
    assert UnitFromLevel(level) * 100.0 == level as real;
    RoundOfInteger(level);
  }

  /** A unit value comes back from the hub within half a percent. */
  lemma UnitRoundTrip(v: real)
    ensures Abs(UnitFromLevel(LevelFromUnit(v)) - v) <= 0.005
  {
    RoundBounds(v * 100.0);
  }

  /**
   * The hub echoing a commanded level back as text: `parseInt(level) / 100`
   * reads the percentage that was sent.
   */
  lemma LevelEcho(v: real)
    ensures HundredthsValue(Str(IntText(LevelFromUnit(v)))) == Num(UnitFromLevel(LevelFromUnit(v)))
  {
    IntTextRoundTrip(LevelFromUnit(v));
  }

  // ---------------------------------------------------------------------
  // Colour temperature of full-colour lights: linear over 2200..6500 K

  const ColorMinKelvin := 2200
  const ColorKelvinSpan := 4300

  /** `Math.round(2200 + value * 4300)`. */
  function ColorKelvinFromUnit(v: real): int {
    Round(ColorMinKelvin as real + v * ColorKelvinSpan as real)
  }

  /** `(kelvin - 2200) / 4300`, not clamped. */
  function ColorUnitFromKelvin(k: int): real {
    (k - ColorMinKelvin) as real / ColorKelvinSpan as real
  }

  lemma ColorKelvinBounds(v: real)
    requires 0.0 <= v <= 1.0
    ensures 2200 <= ColorKelvinFromUnit(v) <= 6500
  {
    RoundBounds(2200.0 + v * 4300.0);
  }

  /** Whole Kelvin values survive the trip through the unit domain exactly. */
  lemma ColorKelvinRoundTrip(k: int)
    ensures ColorKelvinFromUnit(ColorUnitFromKelvin(k)) == k
  {
    assert 2200.0 + ColorUnitFromKelvin(k) * 4300.0 == k as real;
    RoundOfInteger(k);
  }

  /** A unit value comes back within half a Kelvin step. */
  lemma ColorUnitRoundTrip(v: real)
    ensures Abs(ColorUnitFromKelvin(ColorKelvinFromUnit(v)) - v) <= 1.0 / 8600.0
  {
    RoundBounds(2200.0 + v * 4300.0);
  }

  /** Inbound Kelvin outside 2200..6500 leaves the unit range. */
  lemma ColorUnitUnclamped()
    ensures ColorUnitFromKelvin(2000) < 0.0
    ensures ColorUnitFromKelvin(7000) > 1.0
  {
  }

  // ---------------------------------------------------------------------
  // Colour temperature of tunable-white lights: inverted over 2700..6500 K

  const TunableColdKelvin := 6500
  const TunableKelvinSpan := 3800

  /** `Math.round(6500 - value * 3800)`: 0 is cold (6500 K), 1 is warm (2700 K). */
  function TunableKelvinFromUnit(v: real): int {
    Round(TunableColdKelvin as real - v * TunableKelvinSpan as real)
  }

  /** `clamp01((6500 - kelvin) / 3800)`. */
  function TunableUnitFromKelvin(k: int): (r: real)
    ensures 0.0 <= r <= 1.0
  {
    Clamp01((TunableColdKelvin - k) as real / TunableKelvinSpan as real)
  }

  lemma TunableEndpoints()
    ensures TunableKelvinFromUnit(0.0) == 6500 && TunableUnitFromKelvin(6500) == 0.0
    ensures TunableKelvinFromUnit(1.0) == 2700 && TunableUnitFromKelvin(2700) == 1.0
  {
    RoundOfInteger(6500);
    RoundOfInteger(2700);
  }

  lemma TunableKelvinBounds(v: real)
    requires 0.0 <= v <= 1.0
    ensures 2700 <= TunableKelvinFromUnit(v) <= 6500
  {
    RoundBounds(6500.0 - v * 3800.0);
  }

  /** A warmer setting never sends a colder Kelvin value. */
  lemma TunableKelvinAntitone(v: real, w: real)
    requires v <= w
    ensures TunableKelvinFromUnit(w) <= TunableKelvinFromUnit(v)
  {
    assert 6500.0 - w * 3800.0 + 0.5 <= 6500.0 - v * 3800.0 + 0.5;
  }

  /** Kelvin values in 2700..6500 survive the trip exactly. */
  lemma TunableKelvinRoundTrip(k: int)
    requires 2700 <= k <= 6500
    ensures TunableKelvinFromUnit(TunableUnitFromKelvin(k)) == k
  {
    assert 6500.0 - TunableUnitFromKelvin(k) * 3800.0 == k as real;
    RoundOfInteger(k);
  }

  /** A unit value in range comes back within half a Kelvin step. */
  lemma TunableUnitRoundTrip(v: real)
    requires 0.0 <= v <= 1.0
    ensures Abs(TunableUnitFromKelvin(TunableKelvinFromUnit(v)) - v) <= 1.0 / 7600.0
  {
    var k := TunableKelvinFromUnit(v);
    RoundBounds(6500.0 - v * 3800.0);
    TunableKelvinBounds(v);
    assert 0.0 <= (6500 - k) as real / 3800.0 <= 1.0;
  }

  // ---------------------------------------------------------------------
  // Named fan speeds

  /** Outbound bucketing of a percentage into a hub speed name. */
  function SpeedName(percentage: int): string {
    if percentage == 0 then "off"
    else if percentage <= 20 then "low"
    else if percentage <= 40 then "medium-low"
    else if percentage <= 60 then "medium"
    else if percentage <= 80 then "medium-high"
    else "high"
  }

  /** The five-rung table used to restore the slider from a speed name. */
  function RungSpeed(name: string): Option<real> {
    if name == "low" then Some(0.2)
    else if name == "medium-low" then Some(0.4)
    else if name == "medium" then Some(0.6)
    else if name == "medium-high" then Some(0.8)
    else if name == "high" then Some(1.0)
    else None
  }

  predicate IsRung(name: string) {
    name in {"low", "medium-low", "medium", "medium-high", "high"}
  }

  /** `speedMap[name] || 0.6`: the slider position restored when turning on. */
  function RestoredSpeed(name: string): (r: real)
    ensures IsRung(name) ==> Some(r) == RungSpeed(name)
    ensures !IsRung(name) ==> r == 0.6
    ensures 0.2 <= r <= 1.0
  {
    match RungSpeed(name)
    case Some(x) => x
    case None => 0.6
  }

  /** Inbound named speeds read by a poll (lower-cased): the rungs, `off` and `auto`. */
  function PolledSpeedTable(name: string): Option<real> {
    if name == "off" then Some(0.0)
    else if name == "auto" then Some(0.5)
    else RungSpeed(name)
  }

  /** Inbound named speeds read from a webhook (lower-cased): the poll table plus `on`. */
  function WebhookSpeedTable(name: string): Option<real> {
    if name == "on" then Some(0.5) else PolledSpeedTable(name)
  }

  /** A speed name is `off` exactly for a zero percentage. */
  lemma SpeedNameOff(p: int)
    ensures SpeedName(p) == "off" <==> p == 0
  {
  }

  /** Every non-zero percentage names a rung, and that rung is the bucket's closed upper bound. */
  lemma SpeedNameBracket(p: int)
    requires 1 <= p <= 100
    ensures IsRung(SpeedName(p))
    ensures p <= LevelFromUnit(RestoredSpeed(SpeedName(p))) < p + 20
  {
    var x := RestoredSpeed(SpeedName(p));
    assert LevelFromUnit(x) == (x * 100.0).Floor by {
      RoundOfInteger((x * 100.0).Floor);
    }
  }

  /** Every rung value of the restore table re-buckets to its own name. */
  lemma RungRebuckets(name: string)
    requires IsRung(name)
    ensures SpeedName(LevelFromUnit(RestoredSpeed(name))) == name
  {
    var x := RestoredSpeed(name);
    assert LevelFromUnit(x) == (x * 100.0).Floor by {
      RoundOfInteger((x * 100.0).Floor);
    }
  }

  /** Both inbound tables read each outbound rung name as its rung value. */
  lemma InboundTablesAgreeOnRungs(name: string)
    requires IsRung(name)
    ensures WebhookSpeedTable(name) == PolledSpeedTable(name) == RungSpeed(name)
  {
  }

  /**
   * A webhook speed name is only found after lower-casing, but the raw name is
   * what gets stored and later replayed through the restore table: `High`
   * restores to 0.6 rather than 1.0.
   */
  lemma MixedCaseNameRestoresDefault()
    ensures WebhookSpeedTable(ToLower("High")) == Some(1.0)
    ensures RestoredSpeed("High") == 0.6
  {
    assert ToLower("High") == "high";
  }

  // ---------------------------------------------------------------------
  // Window shade

  /** `windowShade` as `windowcoverings_state`: opening/open up, closing/closed down, else idle. */
  function ShadeState(v: JsValue): string {
    if v == Str("open") || v == Str("opening") then "up"
    else if v == Str("closed") || v == Str("closing") then "down"
    else "idle"
  }

  /** The hub command for a `windowcoverings_state` value, if any. */
  function ShadeCommand(state: JsValue): Option<string> {
    if state == Str("up") then Some("open")
    else if state == Str("down") then Some("close")
    else if state == Str("idle") then Some("stopPositionChange")
    else None
  }

  lemma ShadeStateClasses(v: JsValue)
    ensures ShadeState(v) in {"up", "down", "idle"}
    ensures ShadeState(v) == "up" <==> v in {Str("open"), Str("opening")}
    ensures ShadeState(v) == "down" <==> v in {Str("closed"), Str("closing")}
  {
  }

  /** Each of the three states has its own command, and no other value has one. */
  lemma ShadeCommandsDistinct(a: JsValue, b: JsValue)
    ensures ShadeCommand(a).Some? <==> a in {Str("up"), Str("down"), Str("idle")}
    ensures ShadeCommand(a).Some? && ShadeCommand(a) == ShadeCommand(b) ==> a == b
  {
  }

  // ---------------------------------------------------------------------
  // Boolean encodings

  function SwitchCommand(on: bool): string { if on then "on" else "off" }
  predicate SwitchOn(v: JsValue) { v == Str("on") }

  function ValveCommand(open: bool): string { if open then "open" else "close" }
  predicate ValveOpen(v: JsValue) { v == Str("open") }

  function LockCommand(locked: bool): string { if locked then "lock" else "unlock" }
  predicate IsLocked(v: JsValue) { v == Str("locked") }

  predicate ContactOpen(v: JsValue) { v == Str("open") }
  predicate WaterWet(v: JsValue) { v == Str("wet") }
  predicate MotionActive(v: JsValue) { v == Str("active") }
  predicate PresencePresent(v: JsValue) { v == Str("present") }

  /**
   * Commands and reported states agree: the switch reports the command word,
   * the valve reports `open`/`closed`, the lock reports the command word with
   * `ed` appended.
   */
  lemma ActuatorEncodingsRoundTrip(b: bool)
    ensures SwitchOn(Str(SwitchCommand(b))) == b
    ensures ValveOpen(Str(if b then "open" else "closed")) == b
    ensures IsLocked(Str(LockCommand(b) + "ed")) == b
  {
  }
}
