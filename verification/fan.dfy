/**
 * The fan device: a named-speed fan whose 0-1 slider is bucketed into the
 * hub's five speed names, whose last named speed is kept in the device store
 * for turning back on, and whose `speed` webhooks are suppressed for 2000 ms
 * after either command stamps `lastCommandTime.speed`.
 */
module FanDriver {
  import opened Wrappers
  import opened Js
  import opened Translators
  import opened HubClient
  import opened Cooldown
  import opened Device

  /** What the fan's webhook and poll paths read and write. */
  datatype FanState = FanState(caps: Caps, stamps: Stamps, lastSpeedName: Option<string>)

  /** A slider value as the fan ever stores it: in range, or NaN from a non-numeric report. */
  predicate SpeedInRange(v: JsValue) {
    (v.Num? && 0.0 <= v.x <= 1.0) || v.NaN?
  }

  /** Only `speed` is ever stamped, and the slider stays in range. */
  predicate ValidState(s: FanState) {
    s.stamps.Keys <= {"speed"}
    && ("fan_speed" in s.caps ==> SpeedInRange(s.caps["fan_speed"]))
  }

  /** `getStoreValue('lastSpeedName') || 'medium'`. */
  function RestoreName(stored: Option<string>): (name: string)
    ensures stored.Some? && stored.value != "" ==> name == stored.value
    ensures stored.None? || stored.value == "" ==> name == "medium"
  {
    if stored.Some? && stored.value != "" then stored.value else "medium"
  }

  /** `getCapabilityValue('fan_speed') || 0` for the tolerance check. */
  function CurrentSpeed(caps: Caps): real {
    var v := CapValue(caps, "fan_speed");
    if v.Num? then v.x else 0.0
  }

  /**
   * A `speed` webhook value as a slider value: a number is a percentage, a
   * name is looked up lower-cased (None: an unknown name, which is dropped),
   * anything else reads as 0.
   */
  function WebhookSpeed(value: JsValue): (r: Option<JsValue>)
    ensures r.Some? ==> r.value.Num? || r.value.NaN?
    ensures r.None? <==> value.Str? && WebhookSpeedTable(ToLower(value.s)).None?
  {
    match value
    case Num(x) => Some(Num(x / 100.0))
    case NaN => Some(NaN)
    case Str(name) =>
      (match WebhookSpeedTable(ToLower(name))
       case Some(x) => Some(Num(x))
       case None => None)
    case _ => Some(Num(0.0))
  }

  /** A polled `speed` value as a slider value: unknown names read as 0.5. */
  function PolledSpeed(value: JsValue): (r: JsValue)
    ensures r.Num? || r.NaN?
    ensures value.Str? ==> r == Num(PolledSpeedTable(ToLower(value.s)).GetOr(0.5))
  {
    match value
    case Num(x) => Num(x / 100.0)
    case NaN => NaN
    case Str(name) => Num(PolledSpeedTable(ToLower(name)).GetOr(0.5))
    case _ => Num(0.0)
  }

  /** The `switch` webhook is applied when there is no slider, it is at 0, or the fan reports off. */
  predicate SwitchApplies(hasSpeed: bool, caps: Caps, value: JsValue) {
    var current := if hasSpeed then CapValue(caps, "fan_speed") else Null;
    current == Null || current == Num(0.0) || value == Str("off")
  }

  /** A named report other than `off`/`on`/`auto` is remembered verbatim. */
  function StoredName(previous: Option<string>, value: JsValue): Option<string> {
    if value.Str? && value.s != "off" && value.s != "on" && value.s != "auto" then Some(value.s) else previous
  }

  /** A `speed` webhook outside the cooldown. */
  function SpeedReport(s: FanState, value: JsValue): FanState {
    var s1 := s.(lastSpeedName := StoredName(s.lastSpeedName, value));
    match WebhookSpeed(value)
    case None => s1
    case Some(speed) =>
      if speed.Num? && Abs(CurrentSpeed(s.caps) - speed.x) > 0.05 then
        s1.(caps := s.caps["fan_speed" := Num(Clamp01(speed.x))]["onoff" := Bool(speed.x > 0.0)])
      else s1
  }

  /** `handleAttributeUpdate(attribute, value)` at time `now`. */
  function FanWebhook(hasSpeed: bool, s: FanState, attribute: string, value: JsValue, now: nat): (r: FanState)
    ensures r.stamps == s.stamps
    ensures ValidState(s) ==> ValidState(r)
  {
    if attribute == "switch" then
      if SwitchApplies(hasSpeed, s.caps, value) then s.(caps := s.caps["onoff" := Bool(SwitchOn(value))]) else s
    else if attribute == "speed" && hasSpeed then
      if RecentlyCommanded(s.stamps, "speed", now) then s else SpeedReport(s, value)
    else s
  }

  /** `pollDeviceState` given what `getDevice` returned (None: the fetch failed or had no attributes). */
  function FanPoll(hasSpeed: bool, s: FanState, fetched: Option<seq<Attribute>>): (r: FanState)
    ensures r.stamps == s.stamps && r.lastSpeedName == s.lastSpeedName
    ensures ValidState(s) ==> ValidState(r)
  {
    match fetched
    case None => s
    case Some(attributes) =>
      var caps :=
        match FindAttribute(attributes, "switch")
        case Some(v) => s.caps["onoff" := Bool(SwitchOn(v))]
        case None => s.caps;
      if !hasSpeed then s.(caps := caps)
      else
        match FindAttribute(attributes, "speed")
        case Some(v) => s.(caps := caps["fan_speed" := ClampValue(PolledSpeed(v))])
        case None => s.(caps := caps)
  }

  // ---------------------------------------------------------------------
  // Properties of the webhook and poll paths

  /**
   * A `speed` webhook `d` ms after a stamp at `t` is dropped iff `d < 2000`;
   * from 2000 ms on it is processed as a report.
   */
  lemma SpeedEchoWindow(s: FanState, value: JsValue, t: nat, d: nat)
    requires t > 0
    ensures var stamped := s.(stamps := s.stamps["speed" := t]);
            FanWebhook(true, stamped, "speed", value, t + d)
            == if d < CooldownMs then stamped else SpeedReport(stamped, value)
  {
    StampOpensWindow(s.stamps, "speed", t, d);
  }

  /**
   * An unknown speed name changes no capability, yet the raw name has
   * already replaced the stored name.
   */
  lemma {:induction false} UnknownNameOnlyStored(s: FanState, name: string, now: nat)
    requires WebhookSpeedTable(ToLower(name)).None?
    requires !RecentlyCommanded(s.stamps, "speed", now)
    ensures FanWebhook(true, s, "speed", Str(name), now) == s.(lastSpeedName := Some(name))
  {
    assert ToLower("off") == "off" && ToLower("on") == "on" && ToLower("auto") == "auto";
    assert name != "off" && name != "on" && name != "auto";
  }

  /**
   * An accepted report moves the slider only when it differs by more than
   * 0.05; it then stores the clamped value and `onoff = speed > 0`.
   */
  lemma AcceptedReport(s: FanState, value: JsValue, x: real)
    requires WebhookSpeed(value) == Some(Num(x))
    ensures var r := SpeedReport(s, value);
            r.lastSpeedName == StoredName(s.lastSpeedName, value)
            && (Abs(CurrentSpeed(s.caps) - x) > 0.05 ==>
                  r.caps == s.caps["fan_speed" := Num(Clamp01(x))]["onoff" := Bool(x > 0.0)])
            && (Abs(CurrentSpeed(s.caps) - x) <= 0.05 ==> r.caps == s.caps)
  {
  }

  /** Around a slider at 0.5, a report 4 points away is ignored and one 6 points away is applied. */
  lemma ToleranceBoundary(s: FanState)
    requires s.caps == map["fan_speed" := Num(0.5), "onoff" := Bool(true)]
    ensures SpeedReport(s, Num(54.0)).caps == s.caps
    ensures SpeedReport(s, Num(56.0)).caps == map["fan_speed" := Num(0.56), "onoff" := Bool(true)]
  {
    assert WebhookSpeed(Num(56.0)) == Some(Num(0.56));
  }

  /** A NaN report never moves the slider. */
  lemma NaNReportIgnored(s: FanState)
    ensures SpeedReport(s, NaN).caps == s.caps
  {
  }

  /**
   * A `switch` webhook turning the fan on is ignored while the slider is
   * away from 0; a report of `off` is always applied.
   */
  lemma SwitchGate(s: FanState, x: real, now: nat)
    requires s.caps == map["fan_speed" := Num(x), "onoff" := Bool(false)] && x != 0.0
    ensures FanWebhook(true, s, "switch", Str("on"), now) == s
    ensures FanWebhook(true, s, "switch", Str("off"), now).caps == s.caps["onoff" := Bool(false)]
    ensures FanWebhook(false, s, "switch", Str("on"), now).caps == s.caps["onoff" := Bool(true)]
  {
  }

  /** The poll path never reads the cooldown table. */
  lemma PollIgnoresStamps(hasSpeed: bool, s: FanState, fetched: Option<seq<Attribute>>, other: Stamps)
    ensures FanPoll(hasSpeed, s.(stamps := other), fetched).caps == FanPoll(hasSpeed, s, fetched).caps
  {
  }

  /**
   * A polled name outside the table reads as half speed, and any polled
   * number is clamped into the slider's range.
   */
  lemma PolledSpeedDefaults(s: FanState, name: string, percent: real)
    requires PolledSpeedTable(ToLower(name)).None?
    ensures FanPoll(true, s, Some([Attribute("speed", Str(name))])).caps == s.caps["fan_speed" := Num(0.5)]
    ensures FanPoll(true, s, Some([Attribute("speed", Num(percent))])).caps
            == s.caps["fan_speed" := Num(Clamp01(percent / 100.0))]
  {
    var named := [Attribute("speed", Str(name))];
    assert FindAttribute(named, "switch") == None;
    assert FindAttribute(named, "speed") == Some(Str(name));
    assert ClampValue(PolledSpeed(Str(name))) == Num(0.5);
    var numbered := [Attribute("speed", Num(percent))];
    assert FindAttribute(numbered, "switch") == None;
    assert FindAttribute(numbered, "speed") == Some(Num(percent));
  }

  /**
   * A speed command followed by turning on restores a rung at or above the
   * commanded percentage and less than 20 points above it.
   */
  lemma SpeedCommandRestores(v: real)
    requires 0.0 <= v <= 1.0 && LevelFromUnit(v) > 0
    ensures var name := SpeedName(LevelFromUnit(v));
            RestoreName(Some(name)) == name
            && LevelFromUnit(v) <= LevelFromUnit(RestoredSpeed(name)) < LevelFromUnit(v) + 20
  {
    LevelBounds(v);
    SpeedNameBracket(LevelFromUnit(v));
  }

  // ---------------------------------------------------------------------
  // The device

  class FanDevice {
    const id: string
    /** `hasCapability('fan_speed')`. */
    const hasSpeed: bool
    const hub: Hub
    var caps: Caps
    var lastCommandTime: Stamps
    /** The `lastSpeedName` entry of the device store. */
    var lastSpeedName: Option<string>

    function State(): FanState
      reads this
    {
      FanState(caps, lastCommandTime, lastSpeedName)
    }

    ghost predicate Valid()
      reads this
    {
      ValidState(State())
    }

    constructor (id: string, hasSpeed: bool, hub: Hub)
      ensures Valid()
      ensures this.id == id && this.hasSpeed == hasSpeed && this.hub == hub
      ensures caps == map[] && lastCommandTime == map[] && lastSpeedName == None
    {
      this.id := id;
      this.hasSpeed := hasSpeed;
      this.hub := hub;
      caps := map[];
      lastCommandTime := map[];
      lastSpeedName := None;
    }

    /**
     * `onCapabilityOnoff(value)`: stamp, then send the stored name (or
     * `off`) and move the slider to its rung (or 0). Errors are rethrown.
     * `value` stands for what Homey passes; Homey stores it on success.
     */
    method OnCapabilityOnoff(value: bool, now: nat) returns (error: Option<string>)
      requires Valid()
      modifies this, hub
      ensures Valid()
      ensures lastCommandTime == old(lastCommandTime)["speed" := now]
      ensures lastSpeedName == old(lastSpeedName)
      ensures hub.up == old(hub.up)
      ensures error == if hub.up then None else Some(hub.failure)
      ensures var name := if value then RestoreName(old(lastSpeedName)) else "off";
              hub.sent == if hub.up then old(hub.sent) + [Command(id, "setSpeed", [Value(Str(name))])] else old(hub.sent)
      ensures error.None? ==>
                caps == old(caps)["onoff" := Bool(value)]
                        ["fan_speed" := Num(if value then RestoredSpeed(RestoreName(old(lastSpeedName))) else 0.0)]
      ensures error.Some? ==> caps == old(caps)
    {
      lastCommandTime := lastCommandTime["speed" := now];
      var name := if value then RestoreName(lastSpeedName) else "off";
      error := hub.SendDeviceCommand(id, "setSpeed", [Value(Str(name))]);
      if error.Some? {
        return;
      }
      caps := caps["onoff" := Bool(value)];
      caps := caps["fan_speed" := Num(if value then RestoredSpeed(name) else 0.0)];
    }

    /**
     * `onCapabilityFanSpeed(value)`: bucket, stamp, remember the name unless
     * it is `off` (even if the send then fails), send it, and set `onoff`.
     * Homey keeps `value` within the capability's 0-1 range.
     */
    method OnCapabilityFanSpeed(value: real, now: nat) returns (error: Option<string>)
      requires Valid() && 0.0 <= value <= 1.0
      modifies this, hub
      ensures Valid()
      ensures var name := SpeedName(LevelFromUnit(value));
              lastSpeedName == (if name != "off" then Some(name) else old(lastSpeedName))
              && hub.sent == if hub.up then old(hub.sent) + [Command(id, "setSpeed", [Value(Str(name))])] else old(hub.sent)
      ensures lastCommandTime == old(lastCommandTime)["speed" := now]
      ensures hub.up == old(hub.up)
      ensures error == if hub.up then None else Some(hub.failure)
      ensures error.None? ==> caps == old(caps)["onoff" := Bool(LevelFromUnit(value) > 0)]["fan_speed" := Num(value)]
      ensures error.Some? ==> caps == old(caps)
    {
      var percentage := LevelFromUnit(value);
      var name := SpeedName(percentage);
      lastCommandTime := lastCommandTime["speed" := now];
      if name != "off" {
        lastSpeedName := Some(name);
      }
      error := hub.SendDeviceCommand(id, "setSpeed", [Value(Str(name))]);
      if error.Some? {
        return;
      }
      caps := caps["onoff" := Bool(percentage > 0)];
      caps := caps["fan_speed" := Num(value)];
    }

    method PollDeviceState(fetched: Option<seq<Attribute>>)
      requires Valid()
      modifies this
      ensures Valid()
      ensures State() == FanPoll(hasSpeed, old(State()), fetched)
    {
      var s := FanPoll(hasSpeed, State(), fetched);
      caps := s.caps;
    }

    method HandleAttributeUpdate(attribute: string, value: JsValue, now: nat)
      requires Valid()
      modifies this
      ensures Valid()
      ensures State() == FanWebhook(hasSpeed, old(State()), attribute, value, now)
    {
      if attribute == "switch" {
        if SwitchApplies(hasSpeed, caps, value) {
          caps := caps["onoff" := Bool(SwitchOn(value))];
        }
      } else if attribute == "speed" && hasSpeed {
        if RecentlyCommanded(lastCommandTime, "speed", now) {
          return;
        }
        var speed := WebhookSpeed(value);
        lastSpeedName := StoredName(lastSpeedName, value);
        if speed.None? {
          return;
        }
        var current := CurrentSpeed(caps);
        var x := speed.value;
        if x.Num? && Abs(current - x.x) > 0.05 {
          caps := caps["fan_speed" := Num(Clamp01(x.x))];
          caps := caps["onoff" := Bool(x.x > 0.0)];
        }
      }
    }
  }
}
