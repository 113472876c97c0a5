/**
 * The tunable-white light: on/off, dim and an inverted 2700-6500 K colour
 * temperature. The dim command stamps `dim` and guards `level` webhooks; the
 * temperature command stamps `temperature` and guards `colorTemperature`
 * webhooks; `switch` webhooks are never guarded.
 */
module ColorTempLightDriver {
  import opened Wrappers
  import opened Js
  import opened Translators
  import opened HubClient
  import opened Cooldown
  import opened Device

  datatype TunableState = TunableState(caps: Caps, stamps: Stamps)

  /** A 0-1 capability value as the light stores it: in range, or NaN from an unparsable report. */
  predicate InUnitRange(v: JsValue) {
    (v.Num? && 0.0 <= v.x <= 1.0) || v.NaN?
  }

  /** The colour temperature capability only ever holds in-range values. */
  predicate CapOk(cap: string, v: JsValue) {
    cap == "light_temperature" ==> InUnitRange(v)
  }

  predicate CapsOk(caps: Caps) {
    forall cap | cap in caps :: CapOk(cap, caps[cap])
  }

  predicate ValidState(s: TunableState) {
    s.stamps.Keys <= {"dim", "temperature"} && CapsOk(s.caps)
  }

  /** `Math.max(0, Math.min(1, (6500 - parseInt(k)) / 3800))`. */
  function InboundTemperature(value: JsValue): (r: JsValue)
    ensures InUnitRange(r)
    ensures ParseInt(value).None? <==> r.NaN?
  {
    match ParseInt(value)
    case Some(k) => Num(TunableUnitFromKelvin(k))
    case None => NaN
  }

  function Reported(attribute: string, value: JsValue): (r: Option<(string, JsValue)>)
    ensures r.Some? <==> attribute in PolledAttributes
  {
    if attribute == "switch" then Some(("onoff", Bool(SwitchOn(value))))
    else if attribute == "level" then Some(("dim", HundredthsValue(value)))
    else if attribute == "colorTemperature" then Some(("light_temperature", InboundTemperature(value)))
    else None
  }

  /** The stamp that guards an attribute's webhooks, if any. */
  function GuardKey(attribute: string): Option<string> {
    if attribute == "level" then Some("dim")
    else if attribute == "colorTemperature" then Some("temperature")
    else None
  }

  /** `handleAttributeUpdate(attribute, value)` at time `now`. */
  function TunableWebhook(s: TunableState, attribute: string, value: JsValue, now: nat): (r: TunableState)
    ensures r.stamps == s.stamps
    ensures ValidState(s) ==> ValidState(r)
  {
    var guard := GuardKey(attribute);
    if guard.Some? && RecentlyCommanded(s.stamps, guard.value, now) then s
    else s.(caps := Apply(s.caps, Reported(attribute, value)))
  }

  const PolledAttributes: seq<string> := ["switch", "level", "colorTemperature"]

  /** `pollDeviceState` given what `getDevice` returned. */
  function TunablePoll(s: TunableState, fetched: Option<seq<Attribute>>): (r: TunableState)
    ensures r.stamps == s.stamps
    ensures ValidState(s) ==> ValidState(r)
  {
    match fetched
    case None => s
    case Some(attributes) =>
      var caps := PollFrom(s.caps, attributes, PolledAttributes, Reported);
      assert ValidState(s) ==> CapsOk(caps) by {
        if ValidState(s) {
          PollKeepsRange(s.caps, attributes, PolledAttributes);
        }
      }
      s.(caps := caps)
  }

  lemma {:induction false} PollKeepsRange(caps: Caps, attributes: seq<Attribute>, names: seq<string>)
    requires CapsOk(caps)
    ensures CapsOk(PollFrom(caps, attributes, names, Reported))
    decreases |names|
  {
    if |names| > 0 {
      var found := FindAttribute(attributes, names[0]);
      var next := if found.Some? then Apply(caps, Reported(names[0], found.value)) else caps;
      if found.Some? && Reported(names[0], found.value).Some? {
        var w := Reported(names[0], found.value).value;
        assert CapOk(w.0, w.1);
      }
      assert CapsOk(next);
      PollKeepsRange(next, attributes, names[1..]);
    }
  }

  // ---------------------------------------------------------------------
  // Properties

  /** A `level` webhook `d` ms after a dim command at `t` is dropped iff `d < 2000`. */
  lemma LevelEchoWindow(s: TunableState, value: JsValue, t: nat, d: nat)
    requires t > 0
    ensures var stamped := s.(stamps := s.stamps["dim" := t]);
            TunableWebhook(stamped, "level", value, t + d)
            == if d < CooldownMs then stamped else stamped.(caps := s.caps["dim" := HundredthsValue(value)])
  {
    StampOpensWindow(s.stamps, "dim", t, d);
  }

  /** A `colorTemperature` webhook `d` ms after a temperature command at `t` is dropped iff `d < 2000`. */
  lemma TemperatureEchoWindow(s: TunableState, value: JsValue, t: nat, d: nat)
    requires t > 0
    ensures var stamped := s.(stamps := s.stamps["temperature" := t]);
            TunableWebhook(stamped, "colorTemperature", value, t + d)
            == if d < CooldownMs then stamped else stamped.(caps := s.caps["light_temperature" := InboundTemperature(value)])
  {
    StampOpensWindow(s.stamps, "temperature", t, d);
  }

  /**
   * `switch` reports are never guarded, and a key that was never stamped
   * never suppresses the attribute it guards.
   */
  lemma UnguardedReportsApplied(s: TunableState, attribute: string, value: JsValue, now: nat)
    requires attribute in PolledAttributes
    requires GuardKey(attribute).Some? ==> GuardKey(attribute).value !in s.stamps
    ensures TunableWebhook(s, attribute, value, now).caps == Apply(s.caps, Reported(attribute, value))
  {
  }

  /** A dim stamp never guards colour temperature, and a temperature stamp never guards level. */
  lemma GuardsAreSeparate(s: TunableState, value: JsValue, t: nat, now: nat)
    ensures TunableWebhook(s.(stamps := s.stamps["dim" := t]), "colorTemperature", value, now).caps
            == TunableWebhook(s, "colorTemperature", value, now).caps
    ensures TunableWebhook(s.(stamps := s.stamps["temperature" := t]), "level", value, now).caps
            == TunableWebhook(s, "level", value, now).caps
  {
    StampIsPerKey(s.stamps, "dim", "temperature", t, now);
    StampIsPerKey(s.stamps, "temperature", "dim", t, now);
  }

  /** A commanded temperature echoed back in Kelvin reads within half a Kelvin step of the slider. */
  lemma TemperatureEcho(v: real)
    requires 0.0 <= v <= 1.0
    ensures var r := InboundTemperature(Str(IntText(TunableKelvinFromUnit(v))));
            r.Num? && Abs(r.x - v) <= 1.0 / 7600.0
  {
    IntTextRoundTrip(TunableKelvinFromUnit(v));
    TunableUnitRoundTrip(v);
  }

  /** A poll that finds a single attribute writes what an unsuppressed webhook for it would. */
  lemma PollAgreesWithWebhook(s: TunableState, attribute: string, value: JsValue, now: nat)
    requires attribute in PolledAttributes
    requires GuardKey(attribute).Some? ==> !RecentlyCommanded(s.stamps, GuardKey(attribute).value, now)
    ensures TunablePoll(s, Some([Attribute(attribute, value)])) == TunableWebhook(s, attribute, value, now)
  {
    PollSingle(s.caps, attribute, value, PolledAttributes, Reported);
  }

  // ---------------------------------------------------------------------
  // The device

  class ColorTempLightDevice {
    const id: string
    const hub: Hub
    var caps: Caps
    var lastCommandTime: Stamps

    function State(): TunableState
      reads this
    {
      TunableState(caps, lastCommandTime)
    }

    ghost predicate Valid()
      reads this
    {
      ValidState(State())
    }

    constructor (id: string, hub: Hub)
      ensures Valid()
      ensures this.id == id && this.hub == hub && caps == map[] && lastCommandTime == map[]
    {
      this.id := id;
      this.hub := hub;
      caps := map[];
      lastCommandTime := map[];
    }

    /** `onCapabilityOnoff(value)`: no stamp; the error is rethrown as it is. */
    method OnCapabilityOnoff(value: bool) returns (error: Option<string>)
      requires Valid()
      modifies this, hub
      ensures Valid() && lastCommandTime == old(lastCommandTime)
      ensures hub.up == old(hub.up)
      ensures hub.sent == if hub.up then old(hub.sent) + [Command(id, SwitchCommand(value), [])] else old(hub.sent)
      ensures error == if hub.up then None else Some(hub.failure)
      ensures caps == if hub.up then old(caps)["onoff" := Bool(value)] else old(caps)
    {
      error := hub.SendDeviceCommand(id, SwitchCommand(value), []);
      if error.None? {
        caps := caps["onoff" := Bool(value)];
      }
    }

    /** `onCapabilityDim(value)`: stamp `dim`, then send the percentage. */
    method OnCapabilityDim(value: real, now: nat) returns (error: Option<string>)
      requires Valid()
      modifies this, hub
      ensures Valid()
      ensures lastCommandTime == old(lastCommandTime)["dim" := now]
      ensures hub.up == old(hub.up)
      ensures hub.sent == if hub.up then old(hub.sent) + [Command(id, "setLevel", [Value(Num(LevelFromUnit(value) as real))])]
                          else old(hub.sent)
      ensures error == if hub.up then None else Some(hub.failure)
      ensures caps == if hub.up then old(caps)["dim" := Num(value)] else old(caps)
    {
      lastCommandTime := lastCommandTime["dim" := now];
      error := hub.SendDeviceCommand(id, "setLevel", [Value(Num(LevelFromUnit(value) as real))]);
      if error.None? {
        caps := caps["dim" := Num(value)];
      }
    }

    /**
     * `onCapabilityLightTemperature(value)`: stamp `temperature`, then send
     * the inverted Kelvin value. Homey keeps `value` within 0-1.
     */
    method OnCapabilityLightTemperature(value: real, now: nat) returns (error: Option<string>)
      requires Valid() && 0.0 <= value <= 1.0
      modifies this, hub
      ensures Valid()
      ensures lastCommandTime == old(lastCommandTime)["temperature" := now]
      ensures hub.up == old(hub.up)
      ensures hub.sent == if hub.up then old(hub.sent) + [Command(id, "setColorTemperature", [Value(Num(TunableKelvinFromUnit(value) as real))])]
                          else old(hub.sent)
      ensures error == if hub.up then None else Some(hub.failure)
      ensures caps == if hub.up then old(caps)["light_temperature" := Num(value)] else old(caps)
    {
      lastCommandTime := lastCommandTime["temperature" := now];
      error := hub.SendDeviceCommand(id, "setColorTemperature", [Value(Num(TunableKelvinFromUnit(value) as real))]);
      if error.None? {
        caps := caps["light_temperature" := Num(value)];
      }
    }

    method PollDeviceState(fetched: Option<seq<Attribute>>)
      requires Valid()
      modifies this
      ensures Valid()
      ensures State() == TunablePoll(old(State()), fetched)
    {
      caps := TunablePoll(State(), fetched).caps;
    }

    method HandleAttributeUpdate(attribute: string, value: JsValue, now: nat)
      requires Valid()
      modifies this
      ensures Valid()
      ensures State() == TunableWebhook(old(State()), attribute, value, now)
    {
      if attribute == "level" && RecentlyCommanded(lastCommandTime, "dim", now) {
        return;
      }
      if attribute == "colorTemperature" && RecentlyCommanded(lastCommandTime, "temperature", now) {
        return;
      }
      caps := Apply(caps, Reported(attribute, value));
    }
  }
}
