/**
 * The full-colour light: on/off, dim, hue and saturation (sent together as
 * one debounced `setColor`), a linear 2200-6500 K colour temperature, and
 * the colour mode. Webhooks are suppressed for 2000 ms per raw hub
 * attribute name, and only hue and saturation are ever stamped.
 */
module ColorLightDriver {
  import opened Wrappers
  import opened Js
  import opened Translators
  import opened HubClient
  import opened Cooldown
  import opened Device

  /** The (hue, saturation) percentages a pending colour change will send. */
  datatype ColorPair = ColorPair(hue: JsValue, saturation: JsValue)

  datatype ColorLightState = ColorLightState(caps: Caps, stamps: Stamps)

  /** Hue and saturation are stamped together, and nothing else is stamped. */
  predicate ValidState(s: ColorLightState) {
    s.stamps.Keys <= {"hue", "saturation"}
    && ("hue" in s.stamps <==> "saturation" in s.stamps)
    && ("hue" in s.stamps ==> s.stamps["hue"] == s.stamps["saturation"])
  }

  /** `parseInt(k)` turned into the unclamped unit value `(kelvin - 2200) / 4300`. */
  function InboundTemperature(value: JsValue): (r: JsValue)
    ensures r.Num? || r.NaN?
  {
    match ParseInt(value)
    case Some(k) => Num(ColorUnitFromKelvin(k))
    case None => NaN
  }

  /** `colorMode` as `light_mode`: `CT` is temperature, anything else colour. */
  function ModeOf(value: JsValue): (mode: JsValue)
    ensures mode == Str("temperature") <==> value == Str("CT")
    ensures mode == Str("temperature") || mode == Str("color")
  {
    if value == Str("CT") then Str("temperature") else Str("color")
  }

  /**
   * The capability an attribute report writes and the value it writes, for
   * the attributes the light understands; `colorName` and anything else
   * write nothing.
   */
  function Reported(attribute: string, value: JsValue): (r: Option<(string, JsValue)>)
    ensures r.Some? <==> attribute in PolledAttributes
  {
    if attribute == "switch" then Some(("onoff", Bool(SwitchOn(value))))
    else if attribute == "level" then Some(("dim", HundredthsValue(value)))
    else if attribute == "hue" then Some(("light_hue", HundredthsValue(value)))
    else if attribute == "saturation" then Some(("light_saturation", HundredthsValue(value)))
    else if attribute == "colorTemperature" then Some(("light_temperature", InboundTemperature(value)))
    else if attribute == "colorMode" then Some(("light_mode", ModeOf(value)))
    else None
  }

  /** `handleAttributeUpdate(attribute, value)` at time `now`. */
  function ColorWebhook(s: ColorLightState, attribute: string, value: JsValue, now: nat): (r: ColorLightState)
    ensures r.stamps == s.stamps
  {
    if WithinCooldown(s.stamps, attribute, now) then s
    else s.(caps := Apply(s.caps, Reported(attribute, value)))
  }

  /** The attributes a poll reads, in the order it writes them. */
  const PolledAttributes: seq<string> := ["switch", "level", "hue", "saturation", "colorTemperature", "colorMode"]

  /** `pollDeviceState` given what `getDevice` returned. */
  function ColorPoll(s: ColorLightState, fetched: Option<seq<Attribute>>): (r: ColorLightState)
    ensures r.stamps == s.stamps
  {
    match fetched
    case None => s
    case Some(attributes) => s.(caps := PollFrom(s.caps, attributes, PolledAttributes, Reported))
  }

  // ---------------------------------------------------------------------
  // Properties

  /**
   * Because hue and saturation are stamped together, a webhook for either is
   * dropped exactly when one for the other would be.
   */
  lemma CrossStamped(s: ColorLightState, now: nat)
    requires ValidState(s)
    ensures WithinCooldown(s.stamps, "hue", now) <==> WithinCooldown(s.stamps, "saturation", now)
  {
  }

  /**
   * Nothing stamps `switch`, `level`, `colorTemperature` or `colorMode`, so
   * once the clock is past 2000 ms those reports are always applied.
   */
  lemma UnstampedReportsApplied(s: ColorLightState, attribute: string, value: JsValue, now: nat)
    requires ValidState(s) && now >= CooldownMs
    requires attribute in {"switch", "level", "colorTemperature", "colorMode"}
    ensures ColorWebhook(s, attribute, value, now).caps == s.caps[Reported(attribute, value).value.0 := Reported(attribute, value).value.1]
  {
    assert attribute !in s.stamps;
  }

  /** `colorName` and unknown attributes change nothing. */
  lemma IgnoredAttributes(s: ColorLightState, attribute: string, value: JsValue, now: nat)
    requires attribute !in {"switch", "level", "hue", "saturation", "colorTemperature", "colorMode"}
    ensures ColorWebhook(s, attribute, value, now) == s
  {
  }

  /** Inbound Kelvin is not clamped: a 2000 K report leaves the unit range. */
  lemma InboundTemperatureUnclamped()
    ensures InboundTemperature(Str("2000")).Num? && InboundTemperature(Str("2000")).x < 0.0
  {
    assert Str("2000") == Str(IntText(2000)) by { NatTextOf2000(); }
    IntTextRoundTrip(2000);
  }

  lemma NatTextOf2000()
    ensures IntText(2000) == "2000"
  {
  }

  /** An outbound temperature echoed back in Kelvin reads as the Kelvin value that was sent. */
  lemma TemperatureEcho(v: real)
    ensures InboundTemperature(Str(IntText(ColorKelvinFromUnit(v))))
            == Num(ColorUnitFromKelvin(ColorKelvinFromUnit(v)))
  {
    IntTextRoundTrip(ColorKelvinFromUnit(v));
  }

  /** A poll that finds a single attribute writes what a webhook for it would. */
  lemma PollAgreesWithWebhook(s: ColorLightState, attribute: string, value: JsValue, now: nat)
    requires attribute in PolledAttributes
    requires !WithinCooldown(s.stamps, attribute, now)
    ensures ColorPoll(s, Some([Attribute(attribute, value)])) == ColorWebhook(s, attribute, value, now)
  {
    PollSingle(s.caps, attribute, value, PolledAttributes, Reported);
  }

  // ---------------------------------------------------------------------
  // The device

  class ColorLightDevice {
    const id: string
    const hub: Hub
    var caps: Caps
    var lastCommandTime: Stamps
    /** The colour change the debounce timer will send, if one is waiting. */
    var pending: Option<ColorPair>

    function State(): ColorLightState
      reads this
    {
      ColorLightState(caps, lastCommandTime)
    }

    ghost predicate Valid()
      reads this
    {
      ValidState(State())
    }

    constructor (id: string, hub: Hub)
      ensures Valid()
      ensures this.id == id && this.hub == hub
      ensures caps == map[] && lastCommandTime == map[] && pending == None
    {
      this.id := id;
      this.hub := hub;
      caps := map[];
      lastCommandTime := map[];
      pending := None;
    }

    /** `onCapabilityOnoff(value)`: no stamp; errors become "Failed to control light". */
    method OnCapabilityOnoff(value: bool) returns (error: Option<string>)
      requires Valid()
      modifies this, hub
      ensures Valid()
      ensures lastCommandTime == old(lastCommandTime) && pending == old(pending)
      ensures hub.up == old(hub.up)
      ensures hub.sent == if hub.up then old(hub.sent) + [Command(id, SwitchCommand(value), [])] else old(hub.sent)
      ensures error == if hub.up then None else Some("Failed to control light")
      ensures caps == if hub.up then old(caps)["onoff" := Bool(value)] else old(caps)
    {
      var err := hub.SendDeviceCommand(id, SwitchCommand(value), []);
      if err.Some? {
        return Some("Failed to control light");
      }
      error := None;
      caps := caps["onoff" := Bool(value)];
    }

    /** `onCapabilityDim(value)`: sends the percentage, no stamp. */
    method OnCapabilityDim(value: real) returns (error: Option<string>)
      requires Valid()
      modifies this, hub
      ensures Valid()
      ensures lastCommandTime == old(lastCommandTime) && pending == old(pending)
      ensures hub.up == old(hub.up)
      ensures hub.sent == if hub.up then old(hub.sent) + [Command(id, "setLevel", [Value(Num(LevelFromUnit(value) as real))])]
                          else old(hub.sent)
      ensures error == if hub.up then None else Some("Failed to set light level")
      ensures caps == if hub.up then old(caps)["dim" := Num(value)] else old(caps)
    {
      var err := hub.SendDeviceCommand(id, "setLevel", [Value(Num(LevelFromUnit(value) as real))]);
      if err.Some? {
        return Some("Failed to set light level");
      }
      error := None;
      caps := caps["dim" := Num(value)];
    }

    /**
     * `onCapabilityLightHue(value)`: stamp hue and saturation, and replace
     * any pending change with (this hue, the current saturation).
     */
    method OnCapabilityLightHue(value: real, now: nat)
      requires Valid()
      modifies this
      ensures Valid()
      ensures lastCommandTime == old(lastCommandTime)["hue" := now]["saturation" := now]
      ensures pending == Some(ColorPair(PercentOf(Num(value)), PercentOf(NumericValue(Some(CapValue(old(caps), "light_saturation"))))))
      ensures caps == old(caps)["light_hue" := Num(value)]
    {
      lastCommandTime := lastCommandTime["hue" := now]["saturation" := now];
      var saturation := PercentOf(NumericValue(Some(CapValue(caps, "light_saturation"))));
      pending := Some(ColorPair(PercentOf(Num(value)), saturation));
      caps := caps["light_hue" := Num(value)];
    }

    /** `onCapabilityLightSaturation(value)`: as for hue, with the roles swapped. */
    method OnCapabilityLightSaturation(value: real, now: nat)
      requires Valid()
      modifies this
      ensures Valid()
      ensures lastCommandTime == old(lastCommandTime)["hue" := now]["saturation" := now]
      ensures pending == Some(ColorPair(PercentOf(NumericValue(Some(CapValue(old(caps), "light_hue")))), PercentOf(Num(value))))
      ensures caps == old(caps)["light_saturation" := Num(value)]
    {
      lastCommandTime := lastCommandTime["hue" := now]["saturation" := now];
      var hue := PercentOf(NumericValue(Some(CapValue(caps, "light_hue"))));
      pending := Some(ColorPair(hue, PercentOf(Num(value))));
      caps := caps["light_saturation" := Num(value)];
    }

    /**
     * `setHueSaturation(hue, saturation)`: stamp both, send the triple with
     * the current dim level, and switch `light_mode` to colour on success.
     */
    method SetHueSaturation(hue: JsValue, saturation: JsValue, now: nat) returns (error: Option<string>)
      requires Valid()
      modifies this, hub
      ensures Valid()
      ensures lastCommandTime == old(lastCommandTime)["hue" := now]["saturation" := now]
      ensures pending == old(pending)
      ensures hub.up == old(hub.up)
      ensures var level := PercentOf(NumericValue(Some(CapValue(old(caps), "dim"))));
              hub.sent == if hub.up then old(hub.sent) + [Command(id, "setColor", [ColorTriple(hue, saturation, level)])]
                          else old(hub.sent)
      ensures error == if hub.up then None else Some("Failed to set light color")
      ensures caps == if hub.up then old(caps)["light_mode" := Str("color")] else old(caps)
    {
      lastCommandTime := lastCommandTime["hue" := now]["saturation" := now];
      var level := PercentOf(NumericValue(Some(CapValue(caps, "dim"))));
      var err := hub.SendDeviceCommand(id, "setColor", [ColorTriple(hue, saturation, level)]);
      if err.Some? {
        return Some("Failed to set light color");
      }
      error := None;
      caps := caps["light_mode" := Str("color")];
    }

    /** The debounce timer firing: send the pending pair, if any; an error is only logged. */
    method FireColorTimer(now: nat)
      requires Valid()
      modifies this, hub
      ensures Valid()
      ensures pending == None
      ensures hub.up == old(hub.up)
      ensures old(pending).None? ==> caps == old(caps) && lastCommandTime == old(lastCommandTime) && hub.sent == old(hub.sent)
      ensures old(pending).Some? ==>
                var p := old(pending).value;
                var level := PercentOf(NumericValue(Some(CapValue(old(caps), "dim"))));
                lastCommandTime == old(lastCommandTime)["hue" := now]["saturation" := now]
                && hub.sent == (if hub.up then old(hub.sent) + [Command(id, "setColor", [ColorTriple(p.hue, p.saturation, level)])]
                                else old(hub.sent))
                && caps == if hub.up then old(caps)["light_mode" := Str("color")] else old(caps)
    {
      if pending.None? {
        return;
      }
      var p := pending.value;
      pending := None;
      var _ := SetHueSaturation(p.hue, p.saturation, now);
    }

    /**
     * `onCapabilityLightTemperature(value)`: send Kelvin, no stamp, and
     * switch `light_mode` to temperature on success.
     */
    method OnCapabilityLightTemperature(value: real) returns (error: Option<string>)
      requires Valid()
      modifies this, hub
      ensures Valid()
      ensures lastCommandTime == old(lastCommandTime) && pending == old(pending)
      ensures hub.up == old(hub.up)
      ensures hub.sent == if hub.up then old(hub.sent) + [Command(id, "setColorTemperature", [Value(Num(ColorKelvinFromUnit(value) as real))])]
                          else old(hub.sent)
      ensures error == if hub.up then None else Some("Failed to set color temperature")
      ensures caps == if hub.up then old(caps)["light_mode" := Str("temperature")]["light_temperature" := Num(value)] else old(caps)
    {
      var kelvin := ColorKelvinFromUnit(value);
      var err := hub.SendDeviceCommand(id, "setColorTemperature", [Value(Num(kelvin as real))]);
      if err.Some? {
        return Some("Failed to set color temperature");
      }
      error := None;
      caps := caps["light_mode" := Str("temperature")];
      caps := caps["light_temperature" := Num(value)];
    }

    method PollDeviceState(fetched: Option<seq<Attribute>>)
      requires Valid()
      modifies this
      ensures Valid() && pending == old(pending)
      ensures State() == ColorPoll(old(State()), fetched)
    {
      caps := ColorPoll(State(), fetched).caps;
    }

    method HandleAttributeUpdate(attribute: string, value: JsValue, now: nat)
      requires Valid()
      modifies this
      ensures Valid() && pending == old(pending)
      ensures State() == ColorWebhook(old(State()), attribute, value, now)
    {
      if WithinCooldown(lastCommandTime, attribute, now) {
        return;
      }
      caps := Apply(caps, Reported(attribute, value));
    }
  }
}
