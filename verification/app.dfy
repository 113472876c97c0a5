/**
 * The app object: device classification and the pairing list, the Maker API
 * base URL, the command endpoint, the connection test, and the 100-entry log
 * kept for the settings page.
 */
module App {
  import opened Wrappers
  import opened Js

  // ---------------------------------------------------------------------
  // Device classification

  /** A device as `/devices/all` reports it (the fields classification and pairing read). */
  datatype Descriptor = Descriptor(
    id: JsValue,
    name: Option<string>,
    displayLabel: Option<string>,
    typeName: Option<string>,
    capabilities: Option<seq<string>>)

  datatype DriverTag =
    | Thermostat | Lock | Fan | WindowCovering | Button | ColorLight | ColorTempLight | Valve
    | Dimmer | Switch | ContactSensor | MotionSensor | PresenceSensor | LeakSensor | TemperatureSensor

  /** The driver id a tag stands for. */
  function TagName(t: DriverTag): string {
    match t
    case Thermostat => "thermostat"
    case Lock => "lock"
    case Fan => "fan"
    case WindowCovering => "window-covering"
    case Button => "button"
    case ColorLight => "color-light"
    case ColorTempLight => "color-temp-light"
    case Valve => "valve"
    case Dimmer => "dimmer"
    case Switch => "switch"
    case ContactSensor => "contact-sensor"
    case MotionSensor => "motion-sensor"
    case PresenceSensor => "presence-sensor"
    case LeakSensor => "leak-sensor"
    case TemperatureSensor => "temperature-sensor"
  }

  /** `hubitatDevice.capabilities || []`. */
  function CapabilityList(d: Descriptor): seq<string> {
    d.capabilities.GetOr([])
  }

  /** `(hubitatDevice.type || '').toLowerCase()`. */
  function LowerType(d: Descriptor): string {
    ToLower(d.typeName.GetOr(""))
  }

  /** `s || fallback` for an optional string. */
  function OrElse(s: Option<string>, fallback: Option<string>): Option<string> {
    if s.Some? && s.value != "" then s else fallback
  }

  /** `(hubitatDevice.label || hubitatDevice.name || '').toLowerCase()`. */
  function LowerName(d: Descriptor): string {
    ToLower(OrElse(OrElse(d.displayLabel, d.name), Some("")).GetOr(""))
  }

  predicate Has(d: Descriptor, capability: string) {
    capability in CapabilityList(d)
  }

  /** `mapDeviceToDriver`: the first-match rule chain. */
  function MapDeviceToDriver(d: Descriptor): Option<DriverTag> {
    if Has(d, "Thermostat") then Some(Thermostat)
    else if Has(d, "Lock") then Some(Lock)
    else if Has(d, "FanControl") || Has(d, "FanSpeed") then Some(Fan)
    else if Has(d, "WindowShade") then Some(WindowCovering)
    else if Has(d, "PushableButton") || Has(d, "HoldableButton") || Has(d, "DoubleTapableButton") then Some(Button)
    else if Has(d, "ColorControl") then Some(ColorLight)
    else if Has(d, "ColorTemperature") && !Has(d, "ColorControl") then Some(ColorTempLight)
    else if Has(d, "Valve") || Contains(LowerType(d), "valve") || Contains(LowerName(d), "valve") then Some(Valve)
    else if Has(d, "SwitchLevel") then Some(Dimmer)
    else if Has(d, "Switch") then Some(Switch)
    else if Has(d, "ContactSensor") then Some(ContactSensor)
    else if Has(d, "MotionSensor") then Some(MotionSensor)
    else if Has(d, "PresenceSensor") then Some(PresenceSensor)
    else if Has(d, "WaterSensor") then Some(LeakSensor)
    else if Has(d, "TemperatureMeasurement") then Some(TemperatureSensor)
    else None
  }

  /** Reference definition: each tag's own rule, read in isolation. */
  predicate RuleMatches(t: DriverTag, d: Descriptor) {
    match t
    case Thermostat => Has(d, "Thermostat")
    case Lock => Has(d, "Lock")
    case Fan => Has(d, "FanControl") || Has(d, "FanSpeed")
    case WindowCovering => Has(d, "WindowShade")
    case Button => Has(d, "PushableButton") || Has(d, "HoldableButton") || Has(d, "DoubleTapableButton")
    case ColorLight => Has(d, "ColorControl")
    case ColorTempLight => Has(d, "ColorTemperature") && !Has(d, "ColorControl")
    case Valve => Has(d, "Valve") || Contains(LowerType(d), "valve") || Contains(LowerName(d), "valve")
    case Dimmer => Has(d, "SwitchLevel")
    case Switch => Has(d, "Switch")
    case ContactSensor => Has(d, "ContactSensor")
    case MotionSensor => Has(d, "MotionSensor")
    case PresenceSensor => Has(d, "PresenceSensor")
    case LeakSensor => Has(d, "WaterSensor")
    case TemperatureSensor => Has(d, "TemperatureMeasurement")
  }

  /** Reference definition: the precedence of the rules, most specific first. */
  function Rank(t: DriverTag): nat {
    match t
    case Thermostat => 0
    case Lock => 1
    case Fan => 2
    case WindowCovering => 3
    case Button => 4
    case ColorLight => 5
    case ColorTempLight => 6
    case Valve => 7
    case Dimmer => 8
    case Switch => 9
    case ContactSensor => 10
    case MotionSensor => 11
    case PresenceSensor => 12
    case LeakSensor => 13
    case TemperatureSensor => 14
  }

  lemma RankInjective(t: DriverTag, u: DriverTag)
    ensures Rank(t) == Rank(u) ==> t == u
  {
  }

  /**
   * Classification returns the tag whose rule matches and outranks every
   * other matching rule, and nothing when no rule matches.
   */
  lemma ClassifyIsFirstMatch(d: Descriptor, t: DriverTag)
    ensures MapDeviceToDriver(d) == Some(t)
            <==> RuleMatches(t, d) && forall u :: Rank(u) < Rank(t) ==> !RuleMatches(u, d)
    ensures MapDeviceToDriver(d) == None <==> forall u :: !RuleMatches(u, d)
  {
    var r := MapDeviceToDriver(d);
    if r.Some? {
      var w := r.value;
      assert RuleMatches(w, d);
      forall u | Rank(u) < Rank(w) ensures !RuleMatches(u, d) {
        match u
        case Thermostat =>
        case Lock =>
        case Fan =>
        case WindowCovering =>
        case Button =>
        case ColorLight =>
        case ColorTempLight =>
        case Valve =>
        case Dimmer =>
        case Switch =>
        case ContactSensor =>
        case MotionSensor =>
        case PresenceSensor =>
        case LeakSensor =>
        case TemperatureSensor =>
      }
      if RuleMatches(t, d) && forall u :: Rank(u) < Rank(t) ==> !RuleMatches(u, d) {
        assert !(Rank(w) < Rank(t));
        assert !(Rank(t) < Rank(w));
        RankInjective(t, w);
      }
    } else {
      forall u ensures !RuleMatches(u, d) {
        match u
        case Thermostat =>
        case Lock =>
        case Fan =>
        case WindowCovering =>
        case Button =>
        case ColorLight =>
        case ColorTempLight =>
        case Valve =>
        case Dimmer =>
        case Switch =>
        case ContactSensor =>
        case MotionSensor =>
        case PresenceSensor =>
        case LeakSensor =>
        case TemperatureSensor =>
      }
    }
  }

  /** Capabilities that outrank full colour: thermostat, lock, fan, shade and button. */
  predicate HasEarlierThanColor(d: Descriptor) {
    Has(d, "Thermostat") || Has(d, "Lock") || Has(d, "FanControl") || Has(d, "FanSpeed")
    || Has(d, "WindowShade") || Has(d, "PushableButton") || Has(d, "HoldableButton")
    || Has(d, "DoubleTapableButton")
  }

  /** `ColorControl` wins over SwitchLevel, Switch and ColorTemperature. */
  lemma ColorControlMeansColorLight(d: Descriptor)
    requires Has(d, "ColorControl") && !HasEarlierThanColor(d)
    ensures MapDeviceToDriver(d) == Some(ColorLight)
  {
  }

  /** Tunable white needs ColorTemperature and no ColorControl. */
  lemma TunableWhiteOnlyWithoutColorControl(d: Descriptor)
    ensures MapDeviceToDriver(d) == Some(ColorTempLight)
            <==> Has(d, "ColorTemperature") && !Has(d, "ColorControl") && !HasEarlierThanColor(d)
  {
  }

  /**
   * A valve is recognised by capability, by type or by label (falling back
   * to the name); missing fields read as empty, so any descriptor classifies.
   */
  lemma ValveRecognition(d: Descriptor)
    ensures MapDeviceToDriver(d) == Some(Valve)
            <==> !HasEarlierThanColor(d) && !Has(d, "ColorControl") && !Has(d, "ColorTemperature")
                 && (Has(d, "Valve") || Contains(LowerType(d), "valve") || Contains(LowerName(d), "valve"))
  {
  }

  /** A name containing "valve" makes a device with no capabilities at all a valve. */
  lemma ValveByNameOnly()
    ensures MapDeviceToDriver(Descriptor(Num(7.0), Some("Garden Valve"), None, None, None)) == Some(Valve)
  {
    var d := Descriptor(Num(7.0), Some("Garden Valve"), None, None, None);
    var raw := "Garden Valve";
    assert OrElse(OrElse(d.displayLabel, d.name), Some("")).GetOr("") == raw;
    var lower := LowerName(d);
    assert lower == ToLower(raw);
    assert LowerChar(raw[7]) == 'v' && LowerChar(raw[8]) == 'a' && LowerChar(raw[9]) == 'l'
           && LowerChar(raw[10]) == 'v' && LowerChar(raw[11]) == 'e';
    assert lower[7..] == "valve";
    assert "valve" <= lower[7..];
    ContainsInSuffix(lower, "valve", 7);
    assert CapabilityList(d) == [];
  }

  /** A dimmable colour bulb is a colour light, not a dimmer or a switch. */
  lemma RgbBulbIsColorLight()
    ensures MapDeviceToDriver(Descriptor(Num(12.0), Some("Bulb"), None, Some("RGB Bulb"),
                                         Some(["Switch", "SwitchLevel", "ColorControl"]))) == Some(ColorLight)
  {
  }

  // ---------------------------------------------------------------------
  // Pairing list

  /** Whether a device is offered to the driver with the given id. */
  predicate Offered(d: Descriptor, driverId: string) {
    match MapDeviceToDriver(d)
    case Some(t) => TagName(t) == driverId
    case None => false
  }

  /** `allDevices.filter(device => mapDeviceToDriver(device) === driverId)`. */
  function Selected(devices: seq<Descriptor>, driverId: string): seq<Descriptor> {
    if |devices| == 0 then []
    else (if Offered(devices[0], driverId) then [devices[0]] else []) + Selected(devices[1..], driverId)
  }

  datatype PairingEntry = PairingEntry(name: Option<string>, id: string)

  /** `device.label || device.name`. */
  function PairingName(d: Descriptor): Option<string> {
    OrElse(d.displayLabel, d.name)
  }

  predicate HasDefinedId(d: Descriptor) {
    d.id != Undefined && d.id != Null
  }

  /** The TypeError `id.toString()` throws on a missing id. */
  function ToStringError(id: JsValue): string {
    "Cannot read properties of " + (if id == Null then "null" else "undefined") + " (reading 'toString')"
  }

  /**
   * Mapping the kept devices to pairing entries: the error thrown at the
   * first device without an id, or None when every device has one.
   */
  function MissingIdError(chosen: seq<Descriptor>): (r: Option<string>)
    ensures r.None? <==> forall i :: 0 <= i < |chosen| ==> HasDefinedId(chosen[i])
    ensures r.Some? ==> exists i :: 0 <= i < |chosen| && !HasDefinedId(chosen[i])
                          && (forall j :: 0 <= j < i ==> HasDefinedId(chosen[j]))
                          && r.value == ToStringError(chosen[i].id)
  {
    if |chosen| == 0 then None
    else if !HasDefinedId(chosen[0]) then Some(ToStringError(chosen[0].id))
    else
      var r := MissingIdError(chosen[1..]);
      assert r.Some? ==> exists i :: 1 <= i < |chosen| && !HasDefinedId(chosen[i])
                           && (forall j :: 0 <= j < i ==> HasDefinedId(chosen[j]))
                           && r.value == ToStringError(chosen[i].id) by {
        if r.Some? {
          var k :| 0 <= k < |chosen| - 1 && !HasDefinedId(chosen[1..][k])
                   && (forall j :: 0 <= j < k ==> HasDefinedId(chosen[1..][j]))
                   && r.value == ToStringError(chosen[1..][k].id);
          assert chosen[k + 1] == chosen[1..][k];
          assert forall j :: 1 <= j < k + 1 ==> chosen[j] == chosen[1..][j - 1];
        }
      }
      r
  }

  /**
   * `getDevicesForDriver(driverId)` given what `getDevices()` returned: the
   * offered devices as `{name, data: {id: id.toString()}}`; reading
   * `toString` of a missing id throws.
   */
  function GetDevicesForDriver(fetched: Result<seq<Descriptor>, string>, driverId: string)
    : Result<seq<PairingEntry>, string>
  {
    match fetched
    case Failure(e) => Failure(e)
    case Success(devices) =>
      var chosen := Selected(devices, driverId);
      match MissingIdError(chosen)
      case Some(e) => Failure(e)
      case None =>
        Success(seq(|chosen|, i requires 0 <= i < |chosen| => PairingEntry(PairingName(chosen[i]), ToString(chosen[i].id))))
  }

  lemma {:induction false} SelectedMembers(devices: seq<Descriptor>, driverId: string, d: Descriptor)
    ensures d in Selected(devices, driverId) <==> d in devices && Offered(d, driverId)
  {
    if |devices| > 0 {
      SelectedMembers(devices[1..], driverId, d);
      assert devices == [devices[0]] + devices[1..];
    }
  }

  /** Filtering keeps input order: it distributes over concatenation. */
  lemma {:induction false} SelectedAppend(a: seq<Descriptor>, b: seq<Descriptor>, driverId: string)
    ensures Selected(a + b, driverId) == Selected(a, driverId) + Selected(b, driverId)
  {
    if |a| > 0 {
      assert (a + b)[1..] == a[1..] + b;
      SelectedAppend(a[1..], b, driverId);
    } else {
      assert a + b == b;
    }
  }

  /** Driver ids are distinct, so a device is offered under exactly its own tag's id. */
  lemma OfferedUnderOwnTag(d: Descriptor, t: DriverTag)
    ensures Offered(d, TagName(t)) <==> MapDeviceToDriver(d) == Some(t)
  {
    if MapDeviceToDriver(d).Some? {
      var u := MapDeviceToDriver(d).value;
      if TagName(u) == TagName(t) {
        match u
        case Thermostat =>
        case Lock =>
        case Fan =>
        case WindowCovering =>
        case Button =>
        case ColorLight =>
        case ColorTempLight =>
        case Valve =>
        case Dimmer =>
        case Switch =>
        case ContactSensor =>
        case MotionSensor =>
        case PresenceSensor =>
        case LeakSensor =>
        case TemperatureSensor =>
      }
    }
  }

  /**
   * The pairing list for a tag holds exactly the devices classified as that
   * tag, in input order, each named `label || name` with its id as text.
   */
  lemma PairingListSpec(devices: seq<Descriptor>, t: DriverTag)
    requires forall d :: d in devices && MapDeviceToDriver(d) == Some(t) ==> HasDefinedId(d)
    ensures var r := GetDevicesForDriver(Success(devices), TagName(t));
            var chosen := Selected(devices, TagName(t));
            r.Success? && |r.value| == |chosen|
            && (forall i :: 0 <= i < |chosen| ==>
                  MapDeviceToDriver(chosen[i]) == Some(t)
                  && r.value[i] == PairingEntry(PairingName(chosen[i]), ToString(chosen[i].id)))
            && (forall d :: d in devices && MapDeviceToDriver(d) == Some(t) ==> d in chosen)
  {
    var chosen := Selected(devices, TagName(t));
    forall i | 0 <= i < |chosen| ensures MapDeviceToDriver(chosen[i]) == Some(t) && HasDefinedId(chosen[i]) {
      SelectedMembers(devices, TagName(t), chosen[i]);
      OfferedUnderOwnTag(chosen[i], t);
    }
    forall d | d in devices && MapDeviceToDriver(d) == Some(t) ensures d in chosen {
      OfferedUnderOwnTag(d, t);
      SelectedMembers(devices, TagName(t), d);
    }
  }

  /**
   * The pairing list fails exactly when the device fetch failed, passing its
   * error on, or when a device classified as the driver has no id to read.
   */
  lemma PairingFailures(fetched: Result<seq<Descriptor>, string>, t: DriverTag)
    ensures var r := GetDevicesForDriver(fetched, TagName(t));
            (r.Success? <==> fetched.Success?
                             && forall d :: d in fetched.value && MapDeviceToDriver(d) == Some(t) ==> HasDefinedId(d))
            && (fetched.Failure? ==> r == Failure(fetched.error))
  {
    if fetched.Success? {
      var devices := fetched.value;
      var chosen := Selected(devices, TagName(t));
      if exists i :: 0 <= i < |chosen| && !HasDefinedId(chosen[i]) {
        var i :| 0 <= i < |chosen| && !HasDefinedId(chosen[i]);
        SelectedMembers(devices, TagName(t), chosen[i]);
        OfferedUnderOwnTag(chosen[i], t);
      } else {
        forall d | d in devices && MapDeviceToDriver(d) == Some(t) ensures HasDefinedId(d) {
          OfferedUnderOwnTag(d, t);
          SelectedMembers(devices, TagName(t), d);
          var i :| 0 <= i < |chosen| && chosen[i] == d;
        }
      }
    }
  }

  /** A kept device with a null id fails with the null TypeError, an absent id with the undefined one. */
  lemma MissingIdMessages(d: Descriptor, t: DriverTag)
    requires MapDeviceToDriver(d) == Some(t)
    ensures d.id == Null ==> GetDevicesForDriver(Success([d]), TagName(t))
                             == Failure("Cannot read properties of " + "null" + " (reading 'toString')")
    ensures d.id == Undefined ==> GetDevicesForDriver(Success([d]), TagName(t))
                                  == Failure("Cannot read properties of " + "undefined" + " (reading 'toString')")
  {
    OfferedUnderOwnTag(d, t);
    assert Selected([d], TagName(t)) == [d];
  }

  // ---------------------------------------------------------------------
  // Maker API base URL and command endpoint

  /** The three connection settings as the settings store holds them. */
  datatype Connection = Connection(ip: JsValue, appId: JsValue, token: JsValue)

  /** The settings-field names as the error message lists them, in their fixed order. */
  function FieldRank(field: string): nat {
    if field == "IP address" then 0 else if field == "App ID" then 1 else 2
  }

  /** The setting names the configuration error can list. */
  const SettingNames: seq<string> := ["IP address", "App ID", "Access Token"]

  /**
   * The settings `getBaseUrl` reports as missing: exactly the falsy ones,
   * each under its own name, in the order IP address, App ID, Access Token.
   */
  function MissingSettings(c: Connection): (r: seq<string>)
    ensures forall f :: f in r ==> f in SettingNames
    ensures "IP address" in r <==> !Truthy(c.ip)
    ensures "App ID" in r <==> !Truthy(c.appId)
    ensures "Access Token" in r <==> !Truthy(c.token)
    ensures forall i, j :: 0 <= i < j < |r| ==> FieldRank(r[i]) < FieldRank(r[j])
  {
    (if !Truthy(c.ip) then ["IP address"] else [])
    + (if !Truthy(c.appId) then ["App ID"] else [])
    + (if !Truthy(c.token) then ["Access Token"] else [])
  }

  /**
   * `getBaseUrl`: the URL when all three settings are set, otherwise the
   * error it throws, naming the missing settings.
   */
  function BaseUrl(c: Connection): (r: Result<string, string>)
    ensures r.Success? <==> Truthy(c.ip) && Truthy(c.appId) && Truthy(c.token)
    ensures r.Success? ==> r.value == "http://" + ToString(c.ip) + "/apps/api/" + ToString(c.appId)
    ensures r.Failure? ==> |MissingSettings(c)| > 0 && r.error == ConfigErrorMessage(MissingSettings(c))
  {
    if !Truthy(c.ip) || !Truthy(c.appId) || !Truthy(c.token) then
      Failure(ConfigErrorMessage(MissingSettings(c)))
    else
      Success("http://" + ToString(c.ip) + "/apps/api/" + ToString(c.appId))
  }

  /** `parts.join(separator)`. */
  function Join(parts: seq<string>, separator: string): string {
    if |parts| == 0 then ""
    else if |parts| == 1 then parts[0]
    else parts[0] + separator + Join(parts[1..], separator)
  }

  const MissingPrefix := "Hubitat settings not configured. Missing: "

  /** The error `getBaseUrl` throws for missing settings. */
  function ConfigErrorMessage(missing: seq<string>): string {
    MissingPrefix + Join(missing, ", ")
  }

  /** With only the token unset, the thrown message names just the token. */
  lemma TokenMissingMessage(ip: JsValue, appId: JsValue)
    requires Truthy(ip) && Truthy(appId)
    ensures BaseUrl(Connection(ip, appId, Str(""))) == Failure(MissingPrefix + "Access Token")
  {
    var missing := MissingSettings(Connection(ip, appId, Str("")));
    assert missing == ["Access Token"];
    assert Join(missing, ", ") == "Access Token";
  }

  /** With nothing set, the thrown message names all three settings, comma-separated, in order. */
  lemma AllMissingMessage()
    ensures BaseUrl(Connection(Undefined, Null, Str("")))
            == Failure(MissingPrefix + ("IP address" + ", " + ("App ID" + ", " + "Access Token")))
  {
    var missing := MissingSettings(Connection(Undefined, Null, Str("")));
    assert missing == ["IP address", "App ID", "Access Token"];
    assert Join(missing[2..], ", ") == "Access Token";
    assert Join(missing[1..], ", ") == "App ID" + ", " + "Access Token";
    assert Join(missing, ", ") == "IP address" + ", " + ("App ID" + ", " + "Access Token");
  }

  /** The path `sendDeviceCommand` requests, with parameters as path segments. */
  function CommandEndpoint(deviceId: string, command: string, params: seq<string>): string {
    "/devices/" + deviceId + "/" + command + (if |params| > 0 then "/" + Join(params, "/") else "")
  }

  /** Splitting a path at every `/`. */
  function Segments(s: string): (r: seq<string>)
    ensures |r| >= 1
  {
    if |s| == 0 then [""]
    else if s[0] == '/' then [""] + Segments(s[1..])
    else
      var rest := Segments(s[1..]);
      [[s[0]] + rest[0]] + rest[1..]
  }

  predicate NoSlash(s: string) { '/' !in s }

  lemma {:induction false} SegmentsOfPlain(a: string)
    requires NoSlash(a)
    ensures Segments(a) == [a]
  {
    if |a| > 0 {
      SegmentsOfPlain(a[1..]);
      assert [a[0]] + a[1..] == a;
    }
  }

  lemma {:induction false} SegmentsAfterPlain(a: string, b: string)
    requires NoSlash(a)
    ensures Segments(a + "/" + b) == [a] + Segments(b)
  {
    if |a| == 0 {
      assert a + "/" + b == ['/'] + b;
      assert (['/'] + b)[1..] == b;
    } else {
      assert (a + "/" + b)[1..] == a[1..] + "/" + b;
      SegmentsAfterPlain(a[1..], b);
      assert [a[0]] + a[1..] == a;
    }
  }

  lemma {:induction false} SegmentsOfJoin(parts: seq<string>)
    requires |parts| >= 1
    requires forall i :: 0 <= i < |parts| ==> NoSlash(parts[i])
    ensures Segments(Join(parts, "/")) == parts
  {
    if |parts| == 1 {
      SegmentsOfPlain(parts[0]);
    } else {
      SegmentsOfJoin(parts[1..]);
      SegmentsAfterPlain(parts[0], Join(parts[1..], "/"));
      assert parts == [parts[0]] + parts[1..];
    }
  }

  /**
   * The endpoint is `/devices/<id>/<command>` followed by one path segment
   * per parameter; an empty parameter list adds nothing.
   */
  lemma EndpointSegments(deviceId: string, command: string, params: seq<string>)
    requires NoSlash(deviceId) && NoSlash(command)
    requires forall i :: 0 <= i < |params| ==> NoSlash(params[i])
    ensures Segments(CommandEndpoint(deviceId, command, params)) == ["", "devices", deviceId, command] + params
  {
    var tail := if |params| > 0 then "/" + Join(params, "/") else "";
    var endpoint := CommandEndpoint(deviceId, command, params);
    assert endpoint == "" + "/" + ("devices" + "/" + (deviceId + "/" + (command + tail)));
    SegmentsAfterPlain("", "devices" + "/" + (deviceId + "/" + (command + tail)));
    SegmentsAfterPlain("devices", deviceId + "/" + (command + tail));
    SegmentsAfterPlain(deviceId, command + tail);
    if |params| > 0 {
      assert command + tail == command + "/" + Join(params, "/");
      SegmentsAfterPlain(command, Join(params, "/"));
      SegmentsOfJoin(params);
      assert Segments(command + tail) == [command] + params;
    } else {
      assert command + tail == command;
      SegmentsOfPlain(command);
    }
  }

  // ---------------------------------------------------------------------
  // Connection test

  datatype ConnectionTest = ConnectionOk | ConnectionFailed(error: string)

  /** `testConnection` given what `getDevices()` returned. */
  function TestConnection(fetched: Result<seq<Descriptor>, string>): (r: ConnectionTest)
    ensures r.ConnectionOk? <==> fetched.Success?
    ensures fetched.Failure? ==> r == ConnectionFailed(fetched.error)
  {
    if fetched.Success? then ConnectionOk else ConnectionFailed(fetched.error)
  }

  // ---------------------------------------------------------------------
  // Log for the settings page

  const MaxLogs := 100

  function LogEntry(timestamp: string, message: string): string {
    "[" + timestamp + "] " + message
  }

  /** One `addLog` step: push, then drop the oldest entry once over the bound. */
  function Appended(logs: seq<string>, entry: string): seq<string> {
    var pushed := logs + [entry];
    if |pushed| > MaxLogs then pushed[1..] else pushed
  }

  /** The log after appending `entries` in order to an empty log. */
  function Replay(entries: seq<string>): seq<string> {
    if |entries| == 0 then [] else Appended(Replay(entries[..|entries| - 1]), entries[|entries| - 1])
  }

  function Min(a: nat, b: nat): nat { if a < b then a else b }

  /** The log always holds the newest `min(n, 100)` of the `n` entries added. */
  lemma {:induction false} ReplayKeepsNewest(entries: seq<string>)
    ensures Replay(entries) == entries[|entries| - Min(|entries|, MaxLogs)..]
  {
    if |entries| > 0 {
      var prefix := entries[..|entries| - 1];
      ReplayKeepsNewest(prefix);
      var kept := prefix[|prefix| - Min(|prefix|, MaxLogs)..];
      assert kept + [entries[|entries| - 1]] == entries[|prefix| - Min(|prefix|, MaxLogs)..];
    }
  }

  /** The text stored under the `app_logs` setting. */
  function LogsText(version: string, logs: seq<string>): string {
    "========================================\nHubitat Elevation Build: " + version
    + "\n========================================\n" + Join(logs, "\n")
  }

  class HubitatApp {
    const version: string
    var logs: seq<string>
    /** The `app_logs` setting. */
    var appLogs: string

    ghost predicate Valid()
      reads this
    {
      |logs| <= MaxLogs
    }

    constructor (version: string)
      ensures Valid()
      ensures this.version == version
      ensures logs == [] && appLogs == ""
    {
      this.version := version;
      logs := [];
      appLogs := "";
    }

    /**
     * `addLog(message)` with the `enable_logging` setting and the clock's
     * time-of-day text given: nothing happens when logging is explicitly off.
     */
    method AddLog(message: string, enableLogging: JsValue, timestamp: string)
      requires Valid()
      modifies this
      ensures Valid()
      ensures enableLogging == Bool(false) ==> logs == old(logs) && appLogs == old(appLogs)
      ensures enableLogging != Bool(false) ==>
                logs == Appended(old(logs), LogEntry(timestamp, message))
                && appLogs == LogsText(version, logs)
    {
      if enableLogging == Bool(false) {
        return;
      }
      var entry := LogEntry(timestamp, message);
      logs := logs + [entry];
      if |logs| > MaxLogs {
        logs := logs[1..];
      }
      appLogs := LogsText(version, logs);
    }
  }
}
