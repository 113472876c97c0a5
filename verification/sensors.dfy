/**
 * The read-only sensors. The four binary sensors (contact, leak, presence,
 * motion) each turn one hub attribute into one alarm capability by
 * comparing it with a single "active" word; the temperature sensor parses
 * numbers and writes humidity only when the device has that capability.
 */
module BinarySensorDriver {
  import opened Wrappers
  import opened Js
  import opened Translators
  import opened HubClient
  import opened Device

  datatype SensorKind = Contact | Leak | Presence | Motion

  /** The hub attribute a sensor of this kind reads. */
  function AttributeOf(kind: SensorKind): string {
    match kind
    case Contact => "contact"
    case Leak => "water"
    case Presence => "presence"
    case Motion => "motion"
  }

  /** The alarm capability it writes. */
  function CapabilityOf(kind: SensorKind): string {
    match kind
    case Contact => "alarm_contact"
    case Leak => "alarm_water"
    case Presence => "alarm_presence"
    case Motion => "alarm_motion"
  }

  /** Whether a reported value raises the alarm. */
  predicate Active(kind: SensorKind, value: JsValue) {
    match kind
    case Contact => ContactOpen(value)
    case Leak => WaterWet(value)
    case Presence => PresencePresent(value)
    case Motion => MotionActive(value)
  }

  /** The kind's own attribute sets its alarm; other attributes write nothing. */
  function Reported(kind: SensorKind, attribute: string, value: JsValue): Option<(string, JsValue)> {
    if attribute == AttributeOf(kind) then Some((CapabilityOf(kind), Bool(Active(kind, value)))) else None
  }

  /** The reading of a sensor of this kind, as the poll applies it. */
  function ReportOf(kind: SensorKind): Report {
    (a, v) => Reported(kind, a, v)
  }

  function PollFor(kind: SensorKind, caps: Caps, fetched: Option<seq<Attribute>>): Caps {
    match fetched
    case None => caps
    case Some(attributes) => PollFrom(caps, attributes, [AttributeOf(kind)], ReportOf(kind))
  }

  /** A poll writes the alarm from the sensor's own attribute, if the fetch holds it, and nothing else. */
  lemma PollReadsOwnAttribute(kind: SensorKind, caps: Caps, attributes: seq<Attribute>)
    ensures PollFor(kind, caps, Some(attributes))
            == match FindAttribute(attributes, AttributeOf(kind))
               case None => caps
               case Some(v) => caps[CapabilityOf(kind) := Bool(Active(kind, v))]
  {
    var report := ReportOf(kind);
    var names := [AttributeOf(kind)];
    assert names[1..] == [];
    var found := FindAttribute(attributes, AttributeOf(kind));
    var next := if found.Some? then Apply(caps, report(AttributeOf(kind), found.value)) else caps;
    assert PollFrom(caps, attributes, names, report) == PollFrom(next, attributes, [], report);
    if found.Some? {
      assert report(AttributeOf(kind), found.value) == Some((CapabilityOf(kind), Bool(Active(kind, found.value))));
    }
  }

  /**
   * Each kind raises its alarm for exactly one word, and the four kinds use
   * four different attributes and capabilities.
   */
  lemma ActiveWords(kind: SensorKind, value: JsValue)
    ensures Active(kind, value) <==> value == Str(match kind
                                                   case Contact => "open"
                                                   case Leak => "wet"
                                                   case Presence => "present"
                                                   case Motion => "active")
  {
  }

  lemma KindsAreSeparate(k: SensorKind, l: SensorKind)
    ensures AttributeOf(k) == AttributeOf(l) ==> k == l
    ensures CapabilityOf(k) == CapabilityOf(l) ==> k == l
  {
  }

  /** Any value other than the active word, including the hub's "inactive" word, clears the alarm. */
  lemma OtherWordsClear(kind: SensorKind, value: JsValue)
    requires !Active(kind, value)
    ensures Reported(kind, AttributeOf(kind), value) == Some((CapabilityOf(kind), Bool(false)))
  {
  }

  /** A poll that finds the sensor's attribute writes what a webhook for it would. */
  lemma PollAgreesWithWebhook(kind: SensorKind, caps: Caps, value: JsValue)
    ensures PollFor(kind, caps, Some([Attribute(AttributeOf(kind), value)]))
            == Apply(caps, Reported(kind, AttributeOf(kind), value))
  {
    PollSingle(caps, AttributeOf(kind), value, [AttributeOf(kind)], ReportOf(kind));
  }

  class BinarySensorDevice {
    const kind: SensorKind
    var caps: Caps

    constructor (kind: SensorKind)
      ensures this.kind == kind && caps == map[]
    {
      this.kind := kind;
      caps := map[];
    }

    method PollDeviceState(fetched: Option<seq<Attribute>>)
      modifies this
      ensures caps == PollFor(kind, old(caps), fetched)
    {
      if fetched.Some? {
        var found := FindAttribute(fetched.value, AttributeOf(kind));
        PollReadsOwnAttribute(kind, caps, fetched.value);
        if found.Some? {
          caps := caps[CapabilityOf(kind) := Bool(Active(kind, found.value))];
        }
      }
    }

    method HandleAttributeUpdate(attribute: string, value: JsValue)
      modifies this
      ensures caps == Apply(old(caps), Reported(kind, attribute, value))
    {
      if attribute == AttributeOf(kind) {
        caps := caps[CapabilityOf(kind) := Bool(Active(kind, value))];
      }
    }
  }
}

module TemperatureSensorDriver {
  import opened Wrappers
  import opened Js
  import opened HubClient
  import opened Device

  /**
   * `temperature` sets `measure_temperature`; `humidity` sets
   * `measure_humidity` only on a device that has that capability.
   */
  function Reported(hasHumidity: bool, attribute: string, value: JsValue): (r: Option<(string, JsValue)>)
    ensures r.Some? <==> attribute in PolledAttributes && (attribute == "humidity" ==> hasHumidity)
  {
    if attribute == "temperature" then Some(("measure_temperature", FloatValue(value)))
    else if attribute == "humidity" && hasHumidity then Some(("measure_humidity", FloatValue(value)))
    else None
  }

  const PolledAttributes: seq<string> := ["temperature", "humidity"]

  function ReportOf(hasHumidity: bool): Report {
    (a, v) => Reported(hasHumidity, a, v)
  }

  function SensorPoll(hasHumidity: bool, caps: Caps, fetched: Option<seq<Attribute>>): Caps {
    match fetched
    case None => caps
    case Some(attributes) => PollFrom(caps, attributes, PolledAttributes, ReportOf(hasHumidity))
  }

  /** A whole-number reading, as a number or as its decimal text, is stored exactly. */
  lemma WholeReadingsExact(hasHumidity: bool, n: int)
    ensures Reported(hasHumidity, "temperature", Num(n as real)) == Some(("measure_temperature", Num(n as real)))
    ensures Reported(hasHumidity, "temperature", Str(IntText(n))) == Some(("measure_temperature", Num(n as real)))
  {
    ParseFloatOfInteger(n);
    IntTextFloatRoundTrip(n);
  }

  /** Without the humidity capability, humidity reports never touch the capabilities, by webhook or by poll. */
  lemma HumidityNeedsCapability(caps: Caps, value: JsValue, temperature: JsValue)
    ensures Apply(caps, Reported(false, "humidity", value)) == caps
    ensures SensorPoll(false, caps, Some([Attribute("humidity", value)])) == caps
    ensures SensorPoll(false, caps, Some([Attribute("temperature", temperature), Attribute("humidity", value)]))
            == caps["measure_temperature" := FloatValue(temperature)]
  {
    var fetched := [Attribute("temperature", temperature), Attribute("humidity", value)];
    assert FindAttribute(fetched, "temperature") == Some(temperature);
    assert FindAttribute(fetched, "humidity") == Some(value);
    assert PolledAttributes[1..] == ["humidity"];
  }

  /** A poll that finds a single attribute writes what a webhook for it would. */
  lemma PollAgreesWithWebhook(hasHumidity: bool, caps: Caps, attribute: string, value: JsValue)
    requires attribute in PolledAttributes
    ensures SensorPoll(hasHumidity, caps, Some([Attribute(attribute, value)]))
            == Apply(caps, Reported(hasHumidity, attribute, value))
  {
    PollSingle(caps, attribute, value, PolledAttributes, ReportOf(hasHumidity));
  }

  class TemperatureSensorDevice {
    /** `hasCapability('measure_humidity')`, fixed when the device is paired. */
    const hasHumidity: bool
    var caps: Caps

    constructor (hasHumidity: bool)
      ensures this.hasHumidity == hasHumidity && caps == map[]
    {
      this.hasHumidity := hasHumidity;
      caps := map[];
    }

    method PollDeviceState(fetched: Option<seq<Attribute>>)
      modifies this
      ensures caps == SensorPoll(hasHumidity, old(caps), fetched)
    {
      if fetched.Some? {
        var temperature := FindAttribute(fetched.value, "temperature");
        if temperature.Some? {
          caps := caps["measure_temperature" := FloatValue(temperature.value)];
        }
        ghost var afterTemperature := caps;
        var humidity := FindAttribute(fetched.value, "humidity");
        if humidity.Some? && hasHumidity {
          caps := caps["measure_humidity" := FloatValue(humidity.value)];
        }
        assert PolledAttributes[1..] == ["humidity"] && PolledAttributes[1..][1..] == [];
        assert PollFrom(afterTemperature, fetched.value, ["humidity"], ReportOf(hasHumidity)) == caps;
      }
    }

    method HandleAttributeUpdate(attribute: string, value: JsValue)
      modifies this
      ensures caps == Apply(old(caps), Reported(hasHumidity, attribute, value))
    {
      if attribute == "temperature" {
        caps := caps["measure_temperature" := FloatValue(value)];
      } else if attribute == "humidity" && hasHumidity {
        caps := caps["measure_humidity" := FloatValue(value)];
      }
    }
  }
}
