/**
 * The window covering: an up/idle/down state and a 0-1 position. The
 * position command stamps `position` and guards `position` webhooks;
 * `windowShade` reports are never guarded.
 */
module WindowCoveringDriver {
  import opened Wrappers
  import opened Js
  import opened Translators
  import opened HubClient
  import opened Cooldown
  import opened Device

  datatype CoveringState = CoveringState(caps: Caps, stamps: Stamps)

  /** Only the position command stamps. */
  predicate ValidState(s: CoveringState) {
    s.stamps.Keys <= {"position"}
  }

  /** `position` sets `windowcoverings_set`, `windowShade` sets `windowcoverings_state`. */
  function Reported(attribute: string, value: JsValue): (r: Option<(string, JsValue)>)
    ensures r.Some? <==> attribute in PolledAttributes
  {
    if attribute == "position" then Some(("windowcoverings_set", HundredthsValue(value)))
    else if attribute == "windowShade" then Some(("windowcoverings_state", Str(ShadeState(value))))
    else None
  }

  /** `handleAttributeUpdate(attribute, value)` at time `now`. */
  function CoveringWebhook(s: CoveringState, attribute: string, value: JsValue, now: nat): (r: CoveringState)
    ensures r.stamps == s.stamps
  {
    if attribute == "position" && RecentlyCommanded(s.stamps, "position", now) then s
    else s.(caps := Apply(s.caps, Reported(attribute, value)))
  }

  const PolledAttributes: seq<string> := ["position", "windowShade"]

  /** `pollDeviceState` given what `getDevice` returned (None when the request failed). */
  function CoveringPoll(s: CoveringState, fetched: Option<seq<Attribute>>): (r: CoveringState)
    ensures r.stamps == s.stamps
  {
    match fetched
    case None => s
    case Some(attributes) => s.(caps := PollFrom(s.caps, attributes, PolledAttributes, Reported))
  }

  // ---------------------------------------------------------------------
  // Properties

  /** A `position` webhook `d` ms after a position command at `t` is dropped iff `d < 2000`. */
  lemma PositionEchoWindow(s: CoveringState, value: JsValue, t: nat, d: nat)
    requires t > 0
    ensures var stamped := s.(stamps := s.stamps["position" := t]);
            CoveringWebhook(stamped, "position", value, t + d)
            == if d < CooldownMs then stamped else stamped.(caps := s.caps["windowcoverings_set" := HundredthsValue(value)])
  {
    StampOpensWindow(s.stamps, "position", t, d);
  }

  /**
   * A `windowShade` webhook is applied whatever the stamps say, and the
   * state it writes is one of the three the state listener sends a command for.
   */
  lemma ShadeReportsApplied(s: CoveringState, value: JsValue, now: nat)
    ensures var r := CoveringWebhook(s, "windowShade", value, now);
            r.caps == s.caps["windowcoverings_state" := Str(ShadeState(value))]
            && ShadeCommand(r.caps["windowcoverings_state"]).Some?
  {
    ShadeStateClasses(value);
    ShadeCommandsDistinct(Str(ShadeState(value)), Str(ShadeState(value)));
  }

  /**
   * Moving fully up or down and reporting the finished movement (`open`
   * after `open`, `closed` after `close`) reads back as the state commanded.
   */
  lemma ShadeCommandEcho(state: string)
    requires state == "up" || state == "down"
    ensures var command := ShadeCommand(Str(state));
            command.Some?
            && ShadeState(Str(if command.value == "open" then "open" else "closed")) == state
  {
  }

  /** A poll that finds a single attribute writes what an unsuppressed webhook for it would. */
  lemma PollAgreesWithWebhook(s: CoveringState, attribute: string, value: JsValue, now: nat)
    requires attribute in PolledAttributes
    requires attribute == "position" ==> !RecentlyCommanded(s.stamps, "position", now)
    ensures CoveringPoll(s, Some([Attribute(attribute, value)])) == CoveringWebhook(s, attribute, value, now)
  {
    PollSingle(s.caps, attribute, value, PolledAttributes, Reported);
  }

  // ---------------------------------------------------------------------
  // The device

  class WindowCoveringDevice {
    const id: string
    const hub: Hub
    var caps: Caps
    var lastCommandTime: Stamps

    function State(): CoveringState
      reads this
    {
      CoveringState(caps, lastCommandTime)
    }

    ghost predicate Valid()
      reads this
    {
      ValidState(State())
    }

    constructor (id: string, hub: Hub)
      ensures Valid()
      ensures this.id == id && this.hub == hub && caps == map[] && lastCommandTime == map[]
    {
      this.id := id;
      this.hub := hub;
      caps := map[];
      lastCommandTime := map[];
    }

    /**
     * `onCapabilityWindowCoveringsState(value)`: up, down and idle send their
     * command; any other value sends nothing and is accepted. The error is
     * rethrown as it is.
     */
    method OnCapabilityWindowCoveringsState(value: JsValue) returns (error: Option<string>)
      requires Valid()
      modifies this, hub
      ensures Valid() && lastCommandTime == old(lastCommandTime)
      ensures hub.up == old(hub.up)
      ensures hub.sent == if ShadeCommand(value).Some? && hub.up
                          then old(hub.sent) + [Command(id, ShadeCommand(value).value, [])]
                          else old(hub.sent)
      ensures error == if ShadeCommand(value).Some? && !hub.up then Some(hub.failure) else None
      ensures caps == if error.None? then old(caps)["windowcoverings_state" := value] else old(caps)
    {
      var command := ShadeCommand(value);
      error := None;
      if command.Some? {
        error := hub.SendDeviceCommand(id, command.value, []);
      }
      if error.None? {
        caps := caps["windowcoverings_state" := value];
      }
    }

    /** `onCapabilityWindowCoveringsSet(value)`: stamp `position`, then send the percentage. */
    method OnCapabilityWindowCoveringsSet(value: real, now: nat) returns (error: Option<string>)
      requires Valid()
      modifies this, hub
      ensures Valid()
      ensures lastCommandTime == old(lastCommandTime)["position" := now]
      ensures hub.up == old(hub.up)
      ensures hub.sent == if hub.up then old(hub.sent) + [Command(id, "setPosition", [Value(Num(LevelFromUnit(value) as real))])]
                          else old(hub.sent)
      ensures error == if hub.up then None else Some(hub.failure)
      ensures caps == if hub.up then old(caps)["windowcoverings_set" := Num(value)] else old(caps)
    {
      lastCommandTime := lastCommandTime["position" := now];
      error := hub.SendDeviceCommand(id, "setPosition", [Value(Num(LevelFromUnit(value) as real))]);
      if error.None? {
        caps := caps["windowcoverings_set" := Num(value)];
      }
    }

    method PollDeviceState(fetched: Option<seq<Attribute>>)
      requires Valid()
      modifies this
      ensures Valid()
      ensures State() == CoveringPoll(old(State()), fetched)
    {
      if fetched.Some? {
        caps := PollFrom(caps, fetched.value, PolledAttributes, Reported);
      }
    }

    method HandleAttributeUpdate(attribute: string, value: JsValue, now: nat)
      requires Valid()
      modifies this
      ensures Valid()
      ensures State() == CoveringWebhook(old(State()), attribute, value, now)
    {
      if attribute == "position" {
        if RecentlyCommanded(lastCommandTime, "position", now) {
          return;
        }
        caps := caps["windowcoverings_set" := HundredthsValue(value)];
      } else if attribute == "windowShade" {
        caps := caps["windowcoverings_state" := Str(ShadeState(value))];
      }
    }
  }
}
