/**
 * The dimmer: on/off and a 0-1 level. The level command stamps `level`;
 * every webhook is checked against the stamp of its own attribute with the
 * `now - (stamp || 0)` form, so only `level` reports are ever suppressed
 * once the clock has passed 2000 ms.
 */
module DimmerDriver {
  import opened Wrappers
  import opened Js
  import opened Translators
  import opened HubClient
  import opened Cooldown
  import opened Device

  datatype DimmerState = DimmerState(caps: Caps, stamps: Stamps)

  /** Only the level command stamps. */
  predicate ValidState(s: DimmerState) {
    s.stamps.Keys <= {"level"}
  }

  /** `switch` sets `onoff`, `level` sets `dim` to `parseInt(value) / 100`; other attributes write nothing. */
  function Reported(attribute: string, value: JsValue): (r: Option<(string, JsValue)>)
    ensures r.Some? <==> attribute in PolledAttributes
  {
    if attribute == "switch" then Some(("onoff", Bool(SwitchOn(value))))
    else if attribute == "level" then Some(("dim", HundredthsValue(value)))
    else None
  }

  /** `handleAttributeUpdate(attribute, value)` at time `now`. */
  function DimmerWebhook(s: DimmerState, attribute: string, value: JsValue, now: nat): (r: DimmerState)
    ensures r.stamps == s.stamps
  {
    if WithinCooldown(s.stamps, attribute, now) then s
    else s.(caps := Apply(s.caps, Reported(attribute, value)))
  }

  const PolledAttributes: seq<string> := ["switch", "level"]

  /** `pollDeviceState` given what `getDevice` returned (None when the request failed). */
  function DimmerPoll(s: DimmerState, fetched: Option<seq<Attribute>>): (r: DimmerState)
    ensures r.stamps == s.stamps
  {
    match fetched
    case None => s
    case Some(attributes) => s.(caps := PollFrom(s.caps, attributes, PolledAttributes, Reported))
  }

  // ---------------------------------------------------------------------
  // Properties

  /** A `level` webhook `d` ms after a level command at `t` is dropped iff `d < 2000`. */
  lemma LevelEchoWindow(s: DimmerState, value: JsValue, t: nat, d: nat)
    requires t > 0
    ensures var stamped := s.(stamps := s.stamps["level" := t]);
            DimmerWebhook(stamped, "level", value, t + d)
            == if d < CooldownMs then stamped else stamped.(caps := s.caps["dim" := HundredthsValue(value)])
  {
    StampOpensWindow(s.stamps, "level", t, d);
  }

  /**
   * `switch` is never stamped, so once the clock is past the cooldown a
   * `switch` webhook is always applied; before that it is always dropped.
   */
  lemma SwitchReportsApplied(s: DimmerState, value: JsValue, now: nat)
    requires ValidState(s)
    ensures DimmerWebhook(s, "switch", value, now).caps
            == if now < CooldownMs then s.caps else s.caps["onoff" := Bool(SwitchOn(value))]
  {
    FormsAgree(s.stamps, "switch", now);
  }

  /** Attributes the dimmer does not read leave it unchanged. */
  lemma OtherAttributesIgnored(s: DimmerState, attribute: string, value: JsValue, now: nat)
    requires attribute !in PolledAttributes
    ensures DimmerWebhook(s, attribute, value, now) == s
  {
  }

  /** A level set on Homey and echoed back as text by the hub reads as the percentage sent. */
  lemma LevelCommandEcho(s: DimmerState, v: real, now: nat)
    requires !WithinCooldown(s.stamps, "level", now)
    ensures DimmerWebhook(s, "level", Str(IntText(LevelFromUnit(v))), now).caps["dim"]
            == Num(UnitFromLevel(LevelFromUnit(v)))
  {
    LevelEcho(v);
  }

  /** A poll that finds a single attribute writes what an unsuppressed webhook for it would. */
  lemma PollAgreesWithWebhook(s: DimmerState, attribute: string, value: JsValue, now: nat)
    requires attribute in PolledAttributes
    requires !WithinCooldown(s.stamps, attribute, now)
    ensures DimmerPoll(s, Some([Attribute(attribute, value)])) == DimmerWebhook(s, attribute, value, now)
  {
    PollSingle(s.caps, attribute, value, PolledAttributes, Reported);
  }

  // ---------------------------------------------------------------------
  // The device

  class DimmerDevice {
    const id: string
    const hub: Hub
    var caps: Caps
    var lastCommandTime: Stamps

    function State(): DimmerState
      reads this
    {
      DimmerState(caps, lastCommandTime)
    }

    ghost predicate Valid()
      reads this
    {
      ValidState(State())
    }

    constructor (id: string, hub: Hub)
      ensures Valid()
      ensures this.id == id && this.hub == hub && caps == map[] && lastCommandTime == map[]
    {
      this.id := id;
      this.hub := hub;
      caps := map[];
      lastCommandTime := map[];
    }

    /** `onCapabilityOnoff(value)`: no stamp. */
    method OnCapabilityOnoff(value: bool) returns (error: Option<string>)
      requires Valid()
      modifies this, hub
      ensures Valid() && lastCommandTime == old(lastCommandTime)
      ensures hub.up == old(hub.up)
      ensures hub.sent == if hub.up then old(hub.sent) + [Command(id, SwitchCommand(value), [])] else old(hub.sent)
      ensures error == if hub.up then None else Some("Failed to control dimmer")
      ensures caps == if hub.up then old(caps)["onoff" := Bool(value)] else old(caps)
    {
      var err := hub.SendDeviceCommand(id, SwitchCommand(value), []);
      if err.None? {
        caps := caps["onoff" := Bool(value)];
        error := None;
      } else {
        error := Some("Failed to control dimmer");
      }
    }

    /** `onCapabilityDim(value)`: stamp `level`, then send the percentage. */
    method OnCapabilityDim(value: real, now: nat) returns (error: Option<string>)
      requires Valid()
      modifies this, hub
      ensures Valid()
      ensures lastCommandTime == old(lastCommandTime)["level" := now]
      ensures hub.up == old(hub.up)
      ensures hub.sent == if hub.up then old(hub.sent) + [Command(id, "setLevel", [Value(Num(LevelFromUnit(value) as real))])]
                          else old(hub.sent)
      ensures error == if hub.up then None else Some("Failed to set dimmer level")
      ensures caps == if hub.up then old(caps)["dim" := Num(value)] else old(caps)
    {
      lastCommandTime := lastCommandTime["level" := now];
      var err := hub.SendDeviceCommand(id, "setLevel", [Value(Num(LevelFromUnit(value) as real))]);
      if err.None? {
        caps := caps["dim" := Num(value)];
        error := None;
      } else {
        error := Some("Failed to set dimmer level");
      }
    }

    method PollDeviceState(fetched: Option<seq<Attribute>>)
      requires Valid()
      modifies this
      ensures Valid()
      ensures State() == DimmerPoll(old(State()), fetched)
    {
      if fetched.Some? {
        caps := PollFrom(caps, fetched.value, PolledAttributes, Reported);
      }
    }

    method HandleAttributeUpdate(attribute: string, value: JsValue, now: nat)
      requires Valid()
      modifies this
      ensures Valid()
      ensures State() == DimmerWebhook(old(State()), attribute, value, now)
    {
      var lastCommand := if attribute in lastCommandTime then lastCommandTime[attribute] else 0;
      if now - lastCommand < CooldownMs {
        return;
      }
      if attribute == "switch" {
        caps := caps["onoff" := Bool(SwitchOn(value))];
      } else if attribute == "level" {
        caps := caps["dim" := HundredthsValue(value)];
      }
    }
  }
}
