/**
 * The on/off actuators: the switch, the valve and the lock. Each has one
 * capability, sends one of two command words for it, and reads one hub
 * attribute back. None of them stamps commands, so every webhook is applied.
 */
module SwitchDriver {
  import opened Wrappers
  import opened Js
  import opened Translators
  import opened HubClient
  import opened Device

  /** `switch` sets `onoff`; other attributes write nothing. */
  function Reported(attribute: string, value: JsValue): (r: Option<(string, JsValue)>)
    ensures r.Some? <==> attribute in PolledAttributes
  {
    if attribute == "switch" then Some(("onoff", Bool(SwitchOn(value)))) else None
  }

  const PolledAttributes: seq<string> := ["switch"]

  /** The hub echoing a switch command leaves the value Homey stored for it as it is. */
  lemma CommandEcho(caps: Caps, on: bool)
    ensures var stored := caps["onoff" := Bool(on)];
            Apply(stored, Reported("switch", Str(SwitchCommand(on)))) == stored
  {
    ActuatorEncodingsRoundTrip(on);
  }

  /** A poll that finds the switch attribute writes what a webhook for it would. */
  lemma PollAgreesWithWebhook(caps: Caps, value: JsValue)
    ensures PollFrom(caps, [Attribute("switch", value)], PolledAttributes, Reported) == Apply(caps, Reported("switch", value))
  {
    PollSingle(caps, "switch", value, PolledAttributes, Reported);
  }

  class SwitchDevice {
    const id: string
    const hub: Hub
    var caps: Caps

    constructor (id: string, hub: Hub)
      ensures this.id == id && this.hub == hub && caps == map[]
    {
      this.id := id;
      this.hub := hub;
      caps := map[];
    }

    /** `onCapabilityOnoff(value)`: the error names the transport failure. */
    method OnCapabilityOnoff(value: bool) returns (error: Option<string>)
      modifies this, hub
      ensures hub.up == old(hub.up)
      ensures hub.sent == if hub.up then old(hub.sent) + [Command(id, SwitchCommand(value), [])] else old(hub.sent)
      ensures error == if hub.up then None else Some("Failed to control switch: " + hub.failure)
      ensures caps == if hub.up then old(caps)["onoff" := Bool(value)] else old(caps)
    {
      var err := hub.SendDeviceCommand(id, SwitchCommand(value), []);
      if err.None? {
        caps := caps["onoff" := Bool(value)];
        error := None;
      } else {
        error := Some("Failed to control switch: " + err.value);
      }
    }

    method PollDeviceState(fetched: Option<seq<Attribute>>)
      modifies this
      ensures caps == if fetched.Some? then PollFrom(old(caps), fetched.value, PolledAttributes, Reported) else old(caps)
    {
      if fetched.Some? {
        var found := FindAttribute(fetched.value, "switch");
        if found.Some? {
          caps := caps["onoff" := Bool(SwitchOn(found.value))];
        }
      }
    }

    method HandleAttributeUpdate(attribute: string, value: JsValue)
      modifies this
      ensures caps == Apply(old(caps), Reported(attribute, value))
    {
      if attribute == "switch" {
        caps := caps["onoff" := Bool(SwitchOn(value))];
      }
    }
  }
}

module ValveDriver {
  import opened Wrappers
  import opened Js
  import opened Translators
  import opened HubClient
  import opened Device

  /** `valve` sets `onoff` (open is on); other attributes write nothing. */
  function Reported(attribute: string, value: JsValue): (r: Option<(string, JsValue)>)
    ensures r.Some? <==> attribute in PolledAttributes
  {
    if attribute == "valve" then Some(("onoff", Bool(ValveOpen(value)))) else None
  }

  const PolledAttributes: seq<string> := ["valve"]

  /**
   * The valve reports `open` after `open` and `closed` after `close`; either
   * echo leaves the value Homey stored for the command as it is.
   */
  lemma CommandEcho(caps: Caps, open: bool)
    ensures var stored := caps["onoff" := Bool(open)];
            Apply(stored, Reported("valve", Str(if open then "open" else "closed"))) == stored
  {
    ActuatorEncodingsRoundTrip(open);
  }

  /** A poll that finds the valve attribute writes what a webhook for it would. */
  lemma PollAgreesWithWebhook(caps: Caps, value: JsValue)
    ensures PollFrom(caps, [Attribute("valve", value)], PolledAttributes, Reported) == Apply(caps, Reported("valve", value))
  {
    PollSingle(caps, "valve", value, PolledAttributes, Reported);
  }

  class ValveDevice {
    const id: string
    const hub: Hub
    var caps: Caps

    constructor (id: string, hub: Hub)
      ensures this.id == id && this.hub == hub && caps == map[]
    {
      this.id := id;
      this.hub := hub;
      caps := map[];
    }

    /** `onCapabilityOnoff(value)`: on opens the valve, off closes it. */
    method OnCapabilityOnoff(value: bool) returns (error: Option<string>)
      modifies this, hub
      ensures hub.up == old(hub.up)
      ensures hub.sent == if hub.up then old(hub.sent) + [Command(id, ValveCommand(value), [])] else old(hub.sent)
      ensures error == if hub.up then None else Some("Failed to control valve")
      ensures caps == if hub.up then old(caps)["onoff" := Bool(value)] else old(caps)
    {
      var err := hub.SendDeviceCommand(id, ValveCommand(value), []);
      if err.None? {
        caps := caps["onoff" := Bool(value)];
        error := None;
      } else {
        error := Some("Failed to control valve");
      }
    }

    method PollDeviceState(fetched: Option<seq<Attribute>>)
      modifies this
      ensures caps == if fetched.Some? then PollFrom(old(caps), fetched.value, PolledAttributes, Reported) else old(caps)
    {
      if fetched.Some? {
        var found := FindAttribute(fetched.value, "valve");
        if found.Some? {
          caps := caps["onoff" := Bool(ValveOpen(found.value))];
        }
      }
    }

    method HandleAttributeUpdate(attribute: string, value: JsValue)
      modifies this
      ensures caps == Apply(old(caps), Reported(attribute, value))
    {
      if attribute == "valve" {
        caps := caps["onoff" := Bool(ValveOpen(value))];
      }
    }
  }
}

module LockDriver {
  import opened Wrappers
  import opened Js
  import opened Translators
  import opened HubClient
  import opened Device

  /** `lock` sets `locked`; other attributes write nothing. */
  function Reported(attribute: string, value: JsValue): (r: Option<(string, JsValue)>)
    ensures r.Some? <==> attribute in PolledAttributes
  {
    if attribute == "lock" then Some(("locked", Bool(IsLocked(value)))) else None
  }

  const PolledAttributes: seq<string> := ["lock"]

  /** The lock reports `locked`/`unlocked`; either echo leaves the stored value as it is. */
  lemma CommandEcho(caps: Caps, locked: bool)
    ensures var stored := caps["locked" := Bool(locked)];
            Apply(stored, Reported("lock", Str(LockCommand(locked) + "ed"))) == stored
  {
    ActuatorEncodingsRoundTrip(locked);
  }

  /** A poll that finds the lock attribute writes what a webhook for it would. */
  lemma PollAgreesWithWebhook(caps: Caps, value: JsValue)
    ensures PollFrom(caps, [Attribute("lock", value)], PolledAttributes, Reported) == Apply(caps, Reported("lock", value))
  {
    PollSingle(caps, "lock", value, PolledAttributes, Reported);
  }

  class LockDevice {
    const id: string
    const hub: Hub
    var caps: Caps

    constructor (id: string, hub: Hub)
      ensures this.id == id && this.hub == hub && caps == map[]
    {
      this.id := id;
      this.hub := hub;
      caps := map[];
    }

    /** `onCapabilityLocked(value)`. */
    method OnCapabilityLocked(value: bool) returns (error: Option<string>)
      modifies this, hub
      ensures hub.up == old(hub.up)
      ensures hub.sent == if hub.up then old(hub.sent) + [Command(id, LockCommand(value), [])] else old(hub.sent)
      ensures error == if hub.up then None else Some("Failed to control lock")
      ensures caps == if hub.up then old(caps)["locked" := Bool(value)] else old(caps)
    {
      var err := hub.SendDeviceCommand(id, LockCommand(value), []);
      if err.None? {
        caps := caps["locked" := Bool(value)];
        error := None;
      } else {
        error := Some("Failed to control lock");
      }
    }

    method PollDeviceState(fetched: Option<seq<Attribute>>)
      modifies this
      ensures caps == if fetched.Some? then PollFrom(old(caps), fetched.value, PolledAttributes, Reported) else old(caps)
    {
      if fetched.Some? {
        var found := FindAttribute(fetched.value, "lock");
        if found.Some? {
          caps := caps["locked" := Bool(IsLocked(found.value))];
        }
      }
    }

    method HandleAttributeUpdate(attribute: string, value: JsValue)
      modifies this
      ensures caps == Apply(old(caps), Reported(attribute, value))
    {
      if attribute == "lock" {
        caps := caps["locked" := Bool(IsLocked(value))];
      }
    }
  }
}
