/**
 * End-to-end runs of the drivers against a reachable hub: a listener, then
 * the webhooks or polls that follow it, with the values each leaves behind.
 */
module Scenarios {
  import opened Wrappers
  import opened Js
  import opened HubClient
  import DimmerDriver
  import ThermostatDriver
  import ColorLightDriver
  import FanDriver
  import ButtonDriver

  /**
   * Dimming to 40% at t = 10000, the hub's stale `level` report of 70 is
   * dropped at t = 10500 and applied at t = 12500.
   */
  method DimmerEcho() returns (sent: seq<Command>, afterEarly: JsValue, afterLate: JsValue)
    ensures sent == [Command("7", "setLevel", [Value(Num(40.0))])]
    ensures afterEarly == Num(0.4)
    ensures afterLate == Num(0.7)
  {
    var hub := new Hub(true, "ECONNREFUSED");
    var dimmer := new DimmerDriver.DimmerDevice("7", hub);
    var error := dimmer.OnCapabilityDim(0.4, 10000);
    sent := hub.sent;
    dimmer.HandleAttributeUpdate("level", Str("70"), 10500);
    afterEarly := dimmer.caps["dim"];
    assert IntText(70) == "70";
    IntTextRoundTrip(70);
    dimmer.HandleAttributeUpdate("level", Str("70"), 12500);
    afterLate := dimmer.caps["dim"];
  }

  /**
   * In `auto` mode a target of 71 sends heating 70 and then cooling 72; a
   * later poll reporting 68 and 74 shows a target of 71.
   */
  method ThermostatAuto() returns (sent: seq<Command>, target: JsValue)
    ensures sent == [Command("12", "setThermostatMode", [Value(Str("auto"))]),
                     Command("12", "setHeatingSetpoint", [Value(Num(70.0))]),
                     Command("12", "setCoolingSetpoint", [Value(Num(72.0))])]
    ensures target == Num(71.0)
  {
    var hub := new Hub(true, "ECONNREFUSED");
    var thermostat := new ThermostatDriver.ThermostatDevice("12", hub);
    var error := thermostat.OnCapabilityThermostatMode(Str("auto"));
    error := thermostat.OnCapabilityTargetTemperature(71.0);
    sent := hub.sent;
    var fetched := [Attribute("thermostatMode", Str("auto")),
                    Attribute("heatingSetpoint", Str("68")),
                    Attribute("coolingSetpoint", Str("74"))];
    ThermostatDriver.AutoMidpointOfText(thermostat.caps);
    thermostat.PollDeviceState(Some(fetched));
    target := thermostat.caps["target_temperature"];
  }

  /**
   * Hue 0.5 and then saturation 0.3 within the debounce window, then the
   * timer: exactly one `setColor` with hue 50 and saturation 30 (at level 0,
   * as nothing set the level).
   */
  method ColorDebounce() returns (sent: seq<Command>)
    ensures sent == [Command("3", "setColor", [ColorTriple(Num(50.0), Num(30.0), Num(0.0))])]
  {
    var hub := new Hub(true, "ECONNREFUSED");
    var light := new ColorLightDriver.ColorLightDevice("3", hub);
    light.OnCapabilityLightHue(0.5, 5000);
    light.OnCapabilityLightSaturation(0.3, 5100);
    assert Round(0.3 * 100.0) == 30;
    light.FireColorTimer(5400);
    sent := hub.sent;
  }

  /**
   * A fan set to 50% then hears, after the cooldown, a `turbo` report (an
   * unknown name) and a report of 54%: neither moves the slider, the first
   * because the name is unknown and the second because it is within the
   * 0.05 tolerance.
   */
  method FanReportsIgnored() returns (afterTurbo: JsValue, afterClose: JsValue)
    ensures afterTurbo == Num(0.5)
    ensures afterClose == Num(0.5)
  {
    var hub := new Hub(true, "ECONNREFUSED");
    var fan := new FanDriver.FanDevice("9", true, hub);
    var error := fan.OnCapabilityFanSpeed(0.5, 20000);
    assert ToLower("turbo") == "turbo";
    fan.HandleAttributeUpdate("speed", Str("turbo"), 23000);
    afterTurbo := fan.caps["fan_speed"];
    fan.HandleAttributeUpdate("speed", Num(54.0), 24000);
    afterClose := fan.caps["fan_speed"];
  }

  /** A `pushed` event for button 2 fires `button_pushed` once with button 2; `numberOfButtons` changes nothing. */
  method ButtonPush() returns (fired: seq<ButtonDriver.Firing>)
    ensures fired == [ButtonDriver.Firing("button_pushed", 2)]
  {
    var button := new ButtonDriver.ButtonDevice();
    assert IntText(2) == "2";
    IntTextRoundTrip(2);
    button.HandleAttributeUpdate("pushed", Str("2"));
    button.HandleAttributeUpdate("numberOfButtons", Str("4"));
    fired := button.fired;
  }
}
