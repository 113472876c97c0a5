/**
 * The thermostat: measured temperature, mode, and a single target
 * temperature that stands for the heating setpoint in `heat` mode, the
 * cooling setpoint in `cool` mode, and their midpoint otherwise.
 */
module ThermostatDriver {
  import opened Wrappers
  import opened Js
  import opened HubClient
  import opened Device

  /** `temperature` sets `measure_temperature` via `parseFloat`; `thermostatMode` is stored as it is. */
  function Reported(attribute: string, value: JsValue): (r: Option<(string, JsValue)>)
    ensures r.Some? <==> attribute in PolledAttributes
  {
    if attribute == "temperature" then Some(("measure_temperature", FloatValue(value)))
    else if attribute == "thermostatMode" then Some(("thermostat_mode", value))
    else None
  }

  /** `(a + b) / 2` on two parsed numbers; NaN when either is. */
  function Midpoint(a: JsValue, b: JsValue): (r: JsValue)
    requires (a.Num? || a.NaN?) && (b.Num? || b.NaN?)
    ensures r.NaN? <==> a.NaN? || b.NaN?
    ensures a.Num? && b.Num? ==> r.Num? && r.x - a.x == b.x - r.x
  {
    if a.Num? && b.Num? then Num((a.x + b.x) / 2.0) else NaN
  }

  /**
   * The target temperature a poll derives from the mode and the setpoint
   * attributes it found, or None when it leaves the target alone.
   */
  function DerivedTarget(mode: JsValue, heating: Option<JsValue>, cooling: Option<JsValue>): Option<JsValue> {
    if mode == Str("heat") && heating.Some? then Some(FloatValue(heating.value))
    else if mode == Str("cool") && cooling.Some? then Some(FloatValue(cooling.value))
    else if heating.Some? && cooling.Some? then Some(Midpoint(FloatValue(heating.value), FloatValue(cooling.value)))
    else None
  }

  const PolledAttributes: seq<string> := ["temperature", "thermostatMode"]

  /**
   * `pollDeviceState` given what `getDevice` returned: temperature and mode
   * first, then the target from the mode as it stands after that write.
   */
  function ThermostatPoll(caps: Caps, fetched: Option<seq<Attribute>>): (r: Caps)
    ensures fetched.None? ==> r == caps
    ensures caps.Keys <= r.Keys
  {
    match fetched
    case None => caps
    case Some(attributes) =>
      var polled := PollFrom(caps, attributes, PolledAttributes, Reported);
      var target := DerivedTarget(CapValue(polled, "thermostat_mode"),
                                  FindAttribute(attributes, "heatingSetpoint"),
                                  FindAttribute(attributes, "coolingSetpoint"));
      if target.Some? then polled["target_temperature" := target.value] else polled
  }

  /**
   * `handleAttributeUpdate(attribute, value)`: a setpoint change re-polls,
   * and `fetched` is what that poll's `getDevice` returns.
   */
  function ThermostatWebhook(caps: Caps, attribute: string, value: JsValue, fetched: Option<seq<Attribute>>): Caps {
    if attribute == "heatingSetpoint" || attribute == "coolingSetpoint" then ThermostatPoll(caps, fetched)
    else Apply(caps, Reported(attribute, value))
  }

  /** The setpoint commands the target listener sends for `value` in `mode`, in order. */
  function SetpointCommands(deviceId: string, mode: JsValue, value: real): (r: seq<Command>)
    ensures 1 <= |r| <= 2
    ensures forall c | c in r :: c.deviceId == deviceId && |c.params| == 1 && c.params[0].Value?
  {
    if mode == Str("heat") then [Command(deviceId, "setHeatingSetpoint", [Value(Num(value))])]
    else if mode == Str("cool") then [Command(deviceId, "setCoolingSetpoint", [Value(Num(value))])]
    else [Command(deviceId, "setHeatingSetpoint", [Value(Num(value - 1.0))]),
          Command(deviceId, "setCoolingSetpoint", [Value(Num(value + 1.0))])]
  }

  /** The attributes the hub reports once it has applied setpoint commands. */
  function Echo(commands: seq<Command>): seq<Attribute>
    requires forall c | c in commands :: |c.params| == 1 && c.params[0].Value?
  {
    if |commands| == 0 then []
    else
      var c := commands[0];
      [Attribute(if c.name == "setHeatingSetpoint" then "heatingSetpoint" else "coolingSetpoint", c.params[0].v)]
      + Echo(commands[1..])
  }

  // ---------------------------------------------------------------------
  // Properties

  /** A fetch holding a mode and no temperature writes the mode, then the target derived from it. */
  lemma PollWithMode(caps: Caps, attributes: seq<Attribute>, mode: JsValue)
    requires FindAttribute(attributes, "temperature").None?
    requires FindAttribute(attributes, "thermostatMode") == Some(mode)
    ensures var target := DerivedTarget(mode, FindAttribute(attributes, "heatingSetpoint"),
                                        FindAttribute(attributes, "coolingSetpoint"));
            var polled := caps["thermostat_mode" := mode];
            ThermostatPoll(caps, Some(attributes))
            == if target.Some? then polled["target_temperature" := target.value] else polled
  {
    assert PolledAttributes[1..] == ["thermostatMode"];
    assert PollFrom(caps, attributes, PolledAttributes, Reported) == caps["thermostat_mode" := mode];
  }

  /** What the hub reports after each mode's setpoint commands. */
  lemma SetpointEcho(deviceId: string, mode: JsValue, v: real)
    ensures Echo(SetpointCommands(deviceId, mode, v))
            == if mode == Str("heat") then [Attribute("heatingSetpoint", Num(v))]
               else if mode == Str("cool") then [Attribute("coolingSetpoint", Num(v))]
               else [Attribute("heatingSetpoint", Num(v - 1.0)), Attribute("coolingSetpoint", Num(v + 1.0))]
  {
    var commands := SetpointCommands(deviceId, mode, v);
    if mode != Str("heat") && mode != Str("cool") {
      assert commands[1..][1..] == [];
      assert Echo(commands[1..]) == [Attribute("coolingSetpoint", Num(v + 1.0))];
    } else {
      assert commands[1..] == [];
    }
  }

  /** A poll of a mode and the setpoints echoed for a target `n` derives `n`. */
  lemma EchoedPoll(caps: Caps, mode: JsValue, fetched: seq<Attribute>, n: int)
    requires fetched == if mode == Str("heat") then [Attribute("thermostatMode", mode), Attribute("heatingSetpoint", Num(n as real))]
                        else if mode == Str("cool") then [Attribute("thermostatMode", mode), Attribute("coolingSetpoint", Num(n as real))]
                        else [Attribute("thermostatMode", mode), Attribute("heatingSetpoint", Num((n - 1) as real)),
                              Attribute("coolingSetpoint", Num((n + 1) as real))]
    ensures var r := ThermostatPoll(caps, Some(fetched));
            "target_temperature" in r && r["target_temperature"] == Num(n as real)
            && r["thermostat_mode"] == mode
  {
    if mode == Str("heat") || mode == Str("cool") {
      SingleSetpointPoll(caps, mode, fetched, n);
    } else {
      PairedSetpointPoll(caps, mode, fetched, n);
    }
  }

  lemma SingleSetpointPoll(caps: Caps, mode: JsValue, fetched: seq<Attribute>, n: int)
    requires mode == Str("heat") || mode == Str("cool")
    requires fetched == [Attribute("thermostatMode", mode),
                         Attribute(if mode == Str("heat") then "heatingSetpoint" else "coolingSetpoint", Num(n as real))]
    ensures var r := ThermostatPoll(caps, Some(fetched));
            "target_temperature" in r && r["target_temperature"] == Num(n as real)
            && r["thermostat_mode"] == mode
  {
    PollWithMode(caps, fetched, mode);
    ParseFloatOfInteger(n);
    if mode == Str("heat") {
      assert FindAttribute(fetched, "heatingSetpoint") == Some(Num(n as real));
    } else {
      assert FindAttribute(fetched, "heatingSetpoint") == None;
      assert FindAttribute(fetched, "coolingSetpoint") == Some(Num(n as real));
    }
  }

  lemma PairedSetpointPoll(caps: Caps, mode: JsValue, fetched: seq<Attribute>, n: int)
    requires mode != Str("heat") && mode != Str("cool")
    requires fetched == [Attribute("thermostatMode", mode), Attribute("heatingSetpoint", Num((n - 1) as real)),
                         Attribute("coolingSetpoint", Num((n + 1) as real))]
    ensures var r := ThermostatPoll(caps, Some(fetched));
            "target_temperature" in r && r["target_temperature"] == Num(n as real)
            && r["thermostat_mode"] == mode
  {
    PollWithMode(caps, fetched, mode);
    assert FindAttribute(fetched, "heatingSetpoint") == Some(Num((n - 1) as real));
    assert FindAttribute(fetched[2..], "coolingSetpoint") == Some(Num((n + 1) as real));
    assert FindAttribute(fetched[1..], "coolingSetpoint") == Some(Num((n + 1) as real)) by {
      assert fetched[1..][1..] == fetched[2..];
    }
    ParseFloatOfInteger(n - 1);
    ParseFloatOfInteger(n + 1);
  }

  /**
   * A whole-degree target set on Homey, once the hub has applied the
   * setpoint commands it causes and reports them with the mode, polls back
   * as the same target in every mode.
   */
  lemma TargetCommandEcho(deviceId: string, caps: Caps, mode: JsValue, n: int)
    ensures var fetched := [Attribute("thermostatMode", mode)] + Echo(SetpointCommands(deviceId, mode, n as real));
            var r := ThermostatPoll(caps, Some(fetched));
            "target_temperature" in r && r["target_temperature"] == Num(n as real)
            && r["thermostat_mode"] == mode
  {
    SetpointEcho(deviceId, mode, n as real);
    assert n as real - 1.0 == (n - 1) as real && n as real + 1.0 == (n + 1) as real;
    var fetched := [Attribute("thermostatMode", mode)] + Echo(SetpointCommands(deviceId, mode, n as real));
    EchoedPoll(caps, mode, fetched, n);
  }

  lemma SixtyEightAndSeventyFour()
    ensures FloatValue(Str("68")) == Num(68.0) && FloatValue(Str("74")) == Num(74.0)
  {
    assert IntText(68) == "68";
    assert IntText(74) == "74";
    IntTextFloatRoundTrip(68);
    IntTextFloatRoundTrip(74);
  }

  /** Setpoints reported as text, 68 and 74 in `auto` mode, give a target of 71. */
  lemma AutoMidpointOfText(caps: Caps)
    ensures var fetched := [Attribute("thermostatMode", Str("auto")),
                            Attribute("heatingSetpoint", Str("68")),
                            Attribute("coolingSetpoint", Str("74"))];
            ThermostatPoll(caps, Some(fetched))["target_temperature"] == Num(71.0)
  {
    var fetched := [Attribute("thermostatMode", Str("auto")),
                    Attribute("heatingSetpoint", Str("68")),
                    Attribute("coolingSetpoint", Str("74"))];
    PollWithMode(caps, fetched, Str("auto"));
    SixtyEightAndSeventyFour();
  }

  /**
   * The target follows the mode the same poll reports, not the one stored
   * before it: a poll reporting `heat` takes the heating setpoint even when
   * `cool` was stored and the cooling setpoint is present too.
   */
  lemma PollUsesReportedMode(caps: Caps, heating: JsValue, cooling: JsValue)
    requires CapValue(caps, "thermostat_mode") == Str("cool")
    ensures var fetched := [Attribute("thermostatMode", Str("heat")),
                            Attribute("heatingSetpoint", heating),
                            Attribute("coolingSetpoint", cooling)];
            var r := ThermostatPoll(caps, Some(fetched));
            "target_temperature" in r && r["target_temperature"] == FloatValue(heating)
  {
    var fetched := [Attribute("thermostatMode", Str("heat")),
                    Attribute("heatingSetpoint", heating),
                    Attribute("coolingSetpoint", cooling)];
    PollWithMode(caps, fetched, Str("heat"));
  }

  /** With only one setpoint and a mode that does not select it, the target is left alone. */
  lemma LoneSetpointOutsideItsMode(caps: Caps, mode: JsValue, heating: JsValue)
    requires mode != Str("heat")
    ensures var fetched := [Attribute("thermostatMode", mode), Attribute("heatingSetpoint", heating)];
            var r := ThermostatPoll(caps, Some(fetched));
            CapValue(r, "target_temperature") == CapValue(caps, "target_temperature")
  {
    var fetched := [Attribute("thermostatMode", mode), Attribute("heatingSetpoint", heating)];
    PollWithMode(caps, fetched, mode);
  }

  /**
   * A temperature or mode webhook writes what a poll finding only that
   * attribute writes; a setpoint webhook is a poll.
   */
  lemma PollAgreesWithWebhook(caps: Caps, attribute: string, value: JsValue, fetched: Option<seq<Attribute>>)
    requires attribute in PolledAttributes
    ensures ThermostatPoll(caps, Some([Attribute(attribute, value)])) == ThermostatWebhook(caps, attribute, value, fetched)
    ensures ThermostatWebhook(caps, "heatingSetpoint", value, fetched) == ThermostatPoll(caps, fetched)
    ensures ThermostatWebhook(caps, "coolingSetpoint", value, fetched) == ThermostatPoll(caps, fetched)
  {
    PollSingle(caps, attribute, value, PolledAttributes, Reported);
    assert FindAttribute([Attribute(attribute, value)], "heatingSetpoint").None?;
    assert FindAttribute([Attribute(attribute, value)], "coolingSetpoint").None?;
  }

  // ---------------------------------------------------------------------
  // The device

  class ThermostatDevice {
    const id: string
    const hub: Hub
    var caps: Caps

    constructor (id: string, hub: Hub)
      ensures this.id == id && this.hub == hub && caps == map[]
    {
      this.id := id;
      this.hub := hub;
      caps := map[];
    }

    /**
     * `onCapabilityTargetTemperature(value)`: the commands follow the stored
     * mode; in any mode but heat and cool the cooling setpoint is sent only
     * once the heating setpoint has been accepted.
     */
    method OnCapabilityTargetTemperature(value: real) returns (error: Option<string>)
      modifies this, hub
      ensures hub.up == old(hub.up)
      ensures hub.sent == if hub.up then old(hub.sent) + SetpointCommands(id, CapValue(old(caps), "thermostat_mode"), value)
                          else old(hub.sent)
      ensures error == if hub.up then None else Some("Failed to set target temperature")
      ensures caps == if hub.up then old(caps)["target_temperature" := Num(value)] else old(caps)
    {
      var mode := CapValue(caps, "thermostat_mode");
      var err: Option<string>;
      if mode == Str("heat") {
        err := hub.SendDeviceCommand(id, "setHeatingSetpoint", [Value(Num(value))]);
      } else if mode == Str("cool") {
        err := hub.SendDeviceCommand(id, "setCoolingSetpoint", [Value(Num(value))]);
      } else {
        err := hub.SendDeviceCommand(id, "setHeatingSetpoint", [Value(Num(value - 1.0))]);
        if err.None? {
          err := hub.SendDeviceCommand(id, "setCoolingSetpoint", [Value(Num(value + 1.0))]);
        }
      }
      if err.None? {
        caps := caps["target_temperature" := Num(value)];
        error := None;
      } else {
        error := Some("Failed to set target temperature");
      }
    }

    /** `onCapabilityThermostatMode(value)`. */
    method OnCapabilityThermostatMode(value: JsValue) returns (error: Option<string>)
      modifies this, hub
      ensures hub.up == old(hub.up)
      ensures hub.sent == if hub.up then old(hub.sent) + [Command(id, "setThermostatMode", [Value(value)])] else old(hub.sent)
      ensures error == if hub.up then None else Some("Failed to set thermostat mode")
      ensures caps == if hub.up then old(caps)["thermostat_mode" := value] else old(caps)
    {
      var err := hub.SendDeviceCommand(id, "setThermostatMode", [Value(value)]);
      if err.None? {
        caps := caps["thermostat_mode" := value];
        error := None;
      } else {
        error := Some("Failed to set thermostat mode");
      }
    }

    method PollDeviceState(fetched: Option<seq<Attribute>>)
      modifies this
      ensures caps == ThermostatPoll(old(caps), fetched)
    {
      if fetched.Some? {
        var attributes := fetched.value;
        caps := PollFrom(caps, attributes, PolledAttributes, Reported);
        var heating := FindAttribute(attributes, "heatingSetpoint");
        var cooling := FindAttribute(attributes, "coolingSetpoint");
        var mode := CapValue(caps, "thermostat_mode");
        if mode == Str("heat") && heating.Some? {
          caps := caps["target_temperature" := FloatValue(heating.value)];
        } else if mode == Str("cool") && cooling.Some? {
          caps := caps["target_temperature" := FloatValue(cooling.value)];
        } else if heating.Some? && cooling.Some? {
          caps := caps["target_temperature" := Midpoint(FloatValue(heating.value), FloatValue(cooling.value))];
        }
      }
    }

    method HandleAttributeUpdate(attribute: string, value: JsValue, fetched: Option<seq<Attribute>>)
      modifies this
      ensures caps == ThermostatWebhook(old(caps), attribute, value, fetched)
    {
      if attribute == "temperature" {
        caps := caps["measure_temperature" := FloatValue(value)];
      } else if attribute == "thermostatMode" {
        caps := caps["thermostat_mode" := value];
      } else if attribute == "heatingSetpoint" || attribute == "coolingSetpoint" {
        PollDeviceState(fetched);
      }
    }
  }
}
