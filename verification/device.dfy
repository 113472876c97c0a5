/**
 * What the device classes share: capability values as Homey stores them,
 * and the poll step that finds each attribute a driver reads in the fetched
 * attribute list and writes the capability that attribute reports into.
 */
module Device {
  import opened Wrappers
  import opened Js
  import opened HubClient

  /** Capability values by capability id; an id with no entry reads as null. */
  type Caps = map<string, JsValue>

  /** `getCapabilityValue(cap)`. */
  function CapValue(caps: Caps, cap: string): JsValue {
    if cap in caps then caps[cap] else Null
  }

  /**
   * A driver's reading of one attribute report: the capability it writes and
   * the value written, or None for an attribute the driver ignores.
   */
  type Report = (string, JsValue) -> Option<(string, JsValue)>

  /** `setCapabilityValue(cap, v)` for a report, if it writes anything. */
  function Apply(caps: Caps, write: Option<(string, JsValue)>): Caps {
    match write
    case Some(w) => caps[w.0 := w.1]
    case None => caps
  }

  /**
   * A poll: for each attribute name in order, `attributes.find(...)` and, if
   * found, apply the driver's reading of its current value.
   */
  function PollFrom(caps: Caps, attributes: seq<Attribute>, names: seq<string>, report: Report): (r: Caps)
    ensures caps.Keys <= r.Keys
    decreases |names|
  {
    if |names| == 0 then caps
    else
      var found := FindAttribute(attributes, names[0]);
      var next := if found.Some? then Apply(caps, report(names[0], found.value)) else caps;
      PollFrom(next, attributes, names[1..], report)
  }

  predicate Distinct(names: seq<string>) {
    forall i, j :: 0 <= i < j < |names| ==> names[i] != names[j]
  }

  /** Attributes that are not in the fetched list leave the capabilities alone. */
  lemma {:induction false} PollFromMissing(caps: Caps, attributes: seq<Attribute>, names: seq<string>, report: Report)
    requires forall i :: 0 <= i < |names| ==> FindAttribute(attributes, names[i]).None?
    ensures PollFrom(caps, attributes, names, report) == caps
    decreases |names|
  {
    if |names| > 0 {
      PollFromMissing(caps, attributes, names[1..], report);
    }
  }

  lemma {:induction false} PollFromOne(caps: Caps, a: Attribute, names: seq<string>, report: Report, k: nat)
    requires k < |names| && names[k] == a.name
    requires forall i :: 0 <= i < |names| && i != k ==> names[i] != a.name
    ensures PollFrom(caps, [a], names, report) == Apply(caps, report(a.name, a.currentValue))
    decreases |names|
  {
    if k == 0 {
      assert FindAttribute([a], names[0]) == Some(a.currentValue);
      forall i | 0 <= i < |names[1..]| ensures FindAttribute([a], names[1..][i]).None? {
        assert names[1..][i] == names[i + 1];
      }
      PollFromMissing(Apply(caps, report(a.name, a.currentValue)), [a], names[1..], report);
    } else {
      assert FindAttribute([a], names[0]).None?;
      PollFromOne(caps, a, names[1..], report, k - 1);
    }
  }

  /**
   * A poll whose fetch returns a single attribute the driver reads writes
   * exactly that attribute's report, as a webhook for it would.
   */
  lemma PollSingle(caps: Caps, attribute: string, value: JsValue, names: seq<string>, report: Report)
    requires Distinct(names) && attribute in names
    ensures PollFrom(caps, [Attribute(attribute, value)], names, report) == Apply(caps, report(attribute, value))
  {
    var k :| 0 <= k < |names| && names[k] == attribute;
    PollFromOne(caps, Attribute(attribute, value), names, report, k);
  }

  /** A poll whose fetch holds none of the attributes the driver reads changes nothing. */
  lemma PollOfUnrelated(caps: Caps, attributes: seq<Attribute>, names: seq<string>, report: Report)
    requires forall i, j :: 0 <= i < |attributes| && 0 <= j < |names| ==> attributes[i].name != names[j]
    ensures PollFrom(caps, attributes, names, report) == caps
  {
    PollFromMissing(caps, attributes, names, report);
  }
}
