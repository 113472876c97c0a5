/**
 * The hub as the drivers see it: device attributes as returned by a device
 * fetch, and the command channel (`sendDeviceCommand`). The HTTP transport
 * behind it is abstract: a hub is either reachable, and records every
 * command it is sent, or it is not, and every command fails with the same
 * transport error.
 */
module HubClient {
  import opened Wrappers
  import opened Js

  /** One entry of a device's `attributes` list. */
  datatype Attribute = Attribute(name: string, currentValue: JsValue)

  /** `attributes.find(attr => attr.name === name)`, as the attribute's value. */
  function FindAttribute(attributes: seq<Attribute>, name: string): (r: Option<JsValue>)
    ensures r.None? <==> forall i :: 0 <= i < |attributes| ==> attributes[i].name != name
    ensures r.Some? ==> exists i :: 0 <= i < |attributes| && attributes[i] == Attribute(name, r.value)
                          && forall j :: 0 <= j < i ==> attributes[j].name != name
  {
    if |attributes| == 0 then None
    else if attributes[0].name == name then Some(attributes[0].currentValue)
    else
      var r := FindAttribute(attributes[1..], name);
      assert r.Some? ==> exists i :: 1 <= i < |attributes| && attributes[i] == Attribute(name, r.value)
                           && forall j :: 0 <= j < i ==> attributes[j].name != name by {
        if r.Some? {
          var k :| 0 <= k < |attributes| - 1 && attributes[1..][k] == Attribute(name, r.value)
                   && forall j :: 0 <= j < k ==> attributes[1..][j].name != name;
          assert attributes[k + 1] == Attribute(name, r.value);
          assert forall j :: 1 <= j < k + 1 ==> attributes[j].name == attributes[1..][j - 1].name;
        }
      }
      r
  }

  /**
   * A command parameter: a plain value, or the (hue, saturation, level)
   * triple that a full-colour light sends as its `setColor` payload.
   */
  datatype Param = Value(v: JsValue) | ColorTriple(hue: JsValue, saturation: JsValue, level: JsValue)

  datatype Command = Command(deviceId: string, name: string, params: seq<Param>)

  class Hub {
    /** Whether requests reach the hub and come back with status 200. */
    var up: bool
    /** The transport error every request fails with while the hub is down. */
    const failure: string
    /** Commands the hub has accepted, oldest first. */
    var sent: seq<Command>

    constructor (up: bool, failure: string)
      ensures this.up == up && this.failure == failure && sent == []
    {
      this.up := up;
      this.failure := failure;
      sent := [];
    }

    /** `sendDeviceCommand(deviceId, command, parameters)`: None on success, else the error. */
    method SendDeviceCommand(deviceId: string, command: string, params: seq<Param>) returns (err: Option<string>)
      modifies this
      ensures up == old(up)
      ensures err == if up then None else Some(failure)
      ensures sent == if up then old(sent) + [Command(deviceId, command, params)] else old(sent)
    {
      if up {
        sent := sent + [Command(deviceId, command, params)];
        err := None;
      } else {
        err := Some(failure);
      }
    }
  }
}
