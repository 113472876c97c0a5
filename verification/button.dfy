/**
 * The button: hub button events become Flow card triggers carrying the
 * button number, and a poll records how many buttons the device has.
 */
module ButtonDriver {
  import opened Wrappers
  import opened Js
  import opened HubClient

  /** `parseInt(value) || 1`: NaN and 0 both fall back to button 1. */
  function ButtonNumber(value: JsValue): (r: int)
    ensures r != 0
    ensures r == 1 || ParseInt(value) == Some(r)
  {
    match ParseInt(value)
    case Some(n) => if n == 0 then 1 else n
    case None => 1
  }

  /** The Flow trigger card a hub button attribute fires, if any. */
  function TriggerCard(attribute: string): Option<string> {
    if attribute == "pushed" then Some("button_pushed")
    else if attribute == "held" then Some("button_held")
    else if attribute == "released" then Some("button_released")
    else if attribute == "doubleTapped" then Some("button_double_tapped")
    else None
  }

  /** One trigger of a card; its tokens and its state both carry `{ button }`. */
  datatype Firing = Firing(card: string, button: int)

  /** `handleAttributeUpdate(attribute, value)`: the cards fired so far, after this event. */
  function ButtonWebhook(fired: seq<Firing>, attribute: string, value: JsValue): (r: seq<Firing>)
    ensures |r| == |fired| + (if TriggerCard(attribute).Some? then 1 else 0)
    ensures r[..|fired|] == fired
    ensures |r| > |fired| ==> r[|fired|].card == TriggerCard(attribute).value && r[|fired|].button != 0
  {
    match TriggerCard(attribute)
    case Some(card) => fired + [Firing(card, ButtonNumber(value))]
    case None => fired
  }

  /** `parseInt(v)` as a JavaScript number. */
  function IntegerValue(v: JsValue): (r: JsValue)
    ensures r.NaN? <==> ParseInt(v).None?
  {
    match ParseInt(v)
    case Some(n) => Num(n as real)
    case None => NaN
  }

  /** `pollDeviceState`: the stored `numberOfButtons` after a fetch. */
  function ButtonPoll(numberOfButtons: Option<JsValue>, fetched: Option<seq<Attribute>>): Option<JsValue> {
    if fetched.None? then numberOfButtons
    else match FindAttribute(fetched.value, "numberOfButtons")
      case Some(v) => Some(IntegerValue(v))
      case None => numberOfButtons
  }

  // ---------------------------------------------------------------------
  // Properties

  /** A non-zero button number, sent as a number or as text, selects that button. */
  lemma ButtonNumberOfInteger(n: int)
    requires n != 0
    ensures ButtonNumber(Num(n as real)) == n
    ensures ButtonNumber(Str(IntText(n))) == n
  {
    ParseIntOfInteger(n);
    IntTextRoundTrip(n);
  }

  /** A value without a digit, or button 0, is button 1. */
  lemma ButtonNumberDefaults(s: string)
    requires forall i :: 0 <= i < |s| ==> !IsDigit(s[i])
    ensures ButtonNumber(Str(s)) == 1
    ensures ButtonNumber(Num(0.0)) == 1
  {
    ParseIntWithoutDigits(s);
    ParseIntOfInteger(0);
  }

  /** The four event attributes fire four different cards; nothing else fires one. */
  lemma TriggerCardsDistinct(a: string, b: string)
    ensures TriggerCard(a).Some? <==> a in {"pushed", "held", "released", "doubleTapped"}
    ensures TriggerCard(a).Some? && TriggerCard(a) == TriggerCard(b) ==> a == b
  {
  }

  /** The trigger one event fires: one for an event attribute, none otherwise. */
  function EventFiring(event: (string, JsValue)): (r: seq<Firing>)
    ensures |r| == (if TriggerCard(event.0).Some? then 1 else 0)
    ensures |r| == 1 ==> r[0] == Firing(TriggerCard(event.0).value, ButtonNumber(event.1))
  {
    match TriggerCard(event.0)
    case Some(card) => [Firing(card, ButtonNumber(event.1))]
    case None => []
  }

  /** The triggers a series of events fires, in order. */
  function Fires(events: seq<(string, JsValue)>): (r: seq<Firing>)
    ensures |r| <= |events|
    ensures forall i :: 0 <= i < |r| ==> r[i].button != 0
    decreases |events|
  {
    if |events| == 0 then [] else EventFiring(events[0]) + Fires(events[1..])
  }

  /** A webhook appends the trigger its event fires to those already fired. */
  lemma WebhookAppends(fired: seq<Firing>, attribute: string, value: JsValue)
    ensures ButtonWebhook(fired, attribute, value) == fired + EventFiring((attribute, value))
  {
    if TriggerCard(attribute).None? {
      assert fired + [] == fired;
    }
  }

  /**
   * A series of webhooks fires, after the triggers already fired, exactly
   * the triggers of its events, in order.
   */
  lemma {:induction false} EventsFireInOrder(fired: seq<Firing>, events: seq<(string, JsValue)>)
    ensures Replay(fired, events) == fired + Fires(events)
    decreases |events|
  {
    if |events| == 0 {
      assert fired + [] == fired;
    } else {
      var head := EventFiring(events[0]);
      ReplayStep(fired, events);
      EventsFireInOrder(fired + head, events[1..]);
      ConcatAssociates(fired, head, Fires(events[1..]));
    }
  }

  lemma ConcatAssociates<T>(a: seq<T>, b: seq<T>, c: seq<T>)
    ensures (a + b) + c == a + (b + c)
  {
  }

  /** Replaying a series is replaying its tail after the first event's trigger. */
  lemma ReplayStep(fired: seq<Firing>, events: seq<(string, JsValue)>)
    requires |events| > 0
    ensures Replay(fired, events) == Replay(fired + EventFiring(events[0]), events[1..])
  {
    WebhookAppends(fired, events[0].0, events[0].1);
    assert (events[0].0, events[0].1) == events[0];
  }

  /** The cards fired by a series of webhooks. */
  function Replay(fired: seq<Firing>, events: seq<(string, JsValue)>): seq<Firing>
    decreases |events|
  {
    if |events| == 0 then fired else Replay(ButtonWebhook(fired, events[0].0, events[0].1), events[1..])
  }

  /** Events without an event attribute fire nothing, wherever they stand in a series. */
  lemma {:induction false} OtherAttributesFireNothing(events: seq<(string, JsValue)>)
    requires forall i :: 0 <= i < |events| ==> TriggerCard(events[i].0).None?
    ensures Fires(events) == []
    decreases |events|
  {
    if |events| > 0 {
      OtherAttributesFireNothing(events[1..]);
    }
  }

  /** A poll stores the button count a device reports as text. */
  lemma PollStoresCount(stored: Option<JsValue>, n: int)
    ensures ButtonPoll(stored, Some([Attribute("numberOfButtons", Str(IntText(n)))])) == Some(Num(n as real))
  {
    IntTextRoundTrip(n);
  }

  // ---------------------------------------------------------------------
  // The device

  class ButtonDevice {
    /** The device store's `numberOfButtons`; None until a poll finds it. */
    var numberOfButtons: Option<JsValue>
    /** The Flow card triggers fired, oldest first. */
    var fired: seq<Firing>

    constructor ()
      ensures numberOfButtons == None && fired == []
    {
      numberOfButtons := None;
      fired := [];
    }

    method PollDeviceState(fetched: Option<seq<Attribute>>)
      modifies this
      ensures fired == old(fired)
      ensures numberOfButtons == ButtonPoll(old(numberOfButtons), fetched)
    {
      if fetched.Some? {
        var found := FindAttribute(fetched.value, "numberOfButtons");
        if found.Some? {
          numberOfButtons := Some(IntegerValue(found.value));
        }
      }
    }

    method HandleAttributeUpdate(attribute: string, value: JsValue)
      modifies this
      ensures numberOfButtons == old(numberOfButtons)
      ensures fired == ButtonWebhook(old(fired), attribute, value)
    {
      var buttonNumber := ButtonNumber(value);
      var card := TriggerCard(attribute);
      if card.Some? {
        fired := fired + [Firing(card.value, buttonNumber)];
      }
    }
  }
}
