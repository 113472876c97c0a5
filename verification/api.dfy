/**
 * The webhook endpoint: choosing where the payload sits in the request,
 * rejecting an incomplete payload, and routing the attribute change to the
 * first paired device whose id matches.
 */
module Api {
  import opened Wrappers
  import opened Js

  /**
   * `postWebhook`: `body.content` when truthy, else the query when it has a
   * key, else the body itself. (`getWebhook` passes the query as it is.)
   */
  function SelectPayload(body: map<string, JsValue>, query: map<string, JsValue>): (data: JsValue)
    ensures "content" in body && Truthy(body["content"]) ==> data == body["content"]
    ensures !("content" in body && Truthy(body["content"])) && |query| > 0 ==> data == Obj(query)
    ensures !("content" in body && Truthy(body["content"])) && |query| == 0 ==> data == Obj(body)
    ensures data != Undefined && data != Null
  {
    var content := Get(Obj(body), "content");
    if Truthy(content) then content
    else if |query.Keys| > 0 then Obj(query)
    else Obj(body)
  }

  /** A payload names a device, an attribute and a value (which may be null but not missing). */
  predicate Complete(data: JsValue) {
    Truthy(Get(data, "deviceId")) && Truthy(Get(data, "name")) && Get(data, "value") != Undefined
  }

  datatype WebhookResponse =
    | MissingParameters(received: JsValue)
    | Processed(deviceFound: bool, deviceId: JsValue, attributeName: JsValue, attributeValue: JsValue)
    | HandlerFailed(error: string)

  /** `(driver, device)` is the first position, in driver then device order, holding `key`. */
  predicate FirstHit(registry: seq<seq<string>>, key: string, at: (nat, nat)) {
    at.0 < |registry| && at.1 < |registry[at.0]| && registry[at.0][at.1] == key
    && (forall a, b :: 0 <= a < at.0 && 0 <= b < |registry[a]| ==> registry[a][b] != key)
    && (forall b :: 0 <= b < at.1 ==> registry[at.0][b] != key)
  }

  /** There is only one first hit, so at most one device is updated. */
  lemma FirstHitUnique(registry: seq<seq<string>>, key: string, p: (nat, nat), q: (nat, nat))
    requires FirstHit(registry, key, p) && FirstHit(registry, key, q)
    ensures p == q
  {
  }

  /**
   * `processWebhook(data)`. `registry` lists, driver by driver, the data ids
   * of the paired devices; `handlerError` is what the matched device's
   * `handleAttributeUpdate` throws, if anything. `target` is the device the
   * update is delivered to.
   */
  method ProcessWebhook(data: JsValue, registry: seq<seq<string>>, handlerError: Option<string>)
    returns (response: WebhookResponse, target: Option<(nat, nat)>)
    requires data != Undefined && data != Null
    ensures !Complete(data) ==> response == MissingParameters(data) && target == None
    ensures Complete(data) ==>
              var key := ToString(Get(data, "deviceId"));
              (target.None? <==> forall a, b :: 0 <= a < |registry| && 0 <= b < |registry[a]| ==> registry[a][b] != key)
              && (target.Some? ==> FirstHit(registry, key, target.value))
    ensures Complete(data) && (target.None? || handlerError.None?) ==>
              response == Processed(target.Some?, Get(data, "deviceId"), Get(data, "name"), Get(data, "value"))
    ensures Complete(data) && target.Some? && handlerError.Some? ==> response == HandlerFailed(handlerError.value)
  {
    if !Complete(data) {
      return MissingParameters(data), None;
    }
    var deviceId := Get(data, "deviceId");
    var key := ToString(deviceId);
    target := None;
    var a := 0;
    while a < |registry|
      invariant 0 <= a <= |registry|
      invariant target.None?
      invariant forall a', b :: 0 <= a' < a && 0 <= b < |registry[a']| ==> registry[a'][b] != key
    {
      var devices := registry[a];
      var b := 0;
      while b < |devices|
        invariant 0 <= b <= |devices|
        invariant target.None?
        invariant forall b' :: 0 <= b' < b ==> devices[b'] != key
      {
        if devices[b] == key {
          target := Some((a, b));
          break;
        }
        b := b + 1;
      }
      if target.Some? {
        break;
      }
      a := a + 1;
    }
    if target.Some? && handlerError.Some? {
      response := HandlerFailed(handlerError.value);
    } else {
      response := Processed(target.Some?, deviceId, Get(data, "name"), Get(data, "value"));
    }
  }
}
