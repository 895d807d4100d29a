/**
 * The payloads the hub exchanges with the remote hub: the envelope it wraps
 * every outgoing request in, and the mapping of the inbound connectivity event
 * to a boolean.
 */
module Messages {
  import opened Wrappers

  /** A JSON-like value as carried by the message channel; JNull is the absent value. */
  datatype Json =
    | JNull
    | JBool(b: bool)
    | JInt(i: int)
    | JString(s: string)
    | JArray(items: seq<Json>)
    | JObject(fields: map<string, Json>)

  /** The exceptions the modelled operations raise. */
  datatype Error = IndexError | KeyError

  const CallIdentifierKey: string := "callIdentifier"
  const RequestNonceKey: string := "requestNonce"
  const ValueKey: string := "value"

  /** The status the remote hub sends when the device controller is connected. */
  const ControllerConnectedStatus: string := "ControllerConnected"

  /**
   * The envelope of an outgoing request: a call identifier carrying the request
   * nonce, and the value only when one is given.
   */
  function SerializedData(nonce: string, value: Json): (r: Json)
    ensures r.JObject?
    ensures r.fields.Keys == if value == JNull then {CallIdentifierKey} else {CallIdentifierKey, ValueKey}
    ensures r.fields[CallIdentifierKey] == JObject(map[RequestNonceKey := JString(nonce)])
    ensures ValueKey in r.fields ==> r.fields[ValueKey] == value
  {
    var call := JObject(map[RequestNonceKey := JString(nonce)]);
    if value != JNull then JObject(map[CallIdentifierKey := call, ValueKey := value])
    else JObject(map[CallIdentifierKey := call])
  }

  /** The nonce a reply is correlated by, if the message carries one. */
  function RequestNonce(message: Json): Option<string>
  {
    if message.JObject? && CallIdentifierKey in message.fields then
      var call := message.fields[CallIdentifierKey];
      if call.JObject? && RequestNonceKey in call.fields && call.fields[RequestNonceKey].JString? then
        Some(call.fields[RequestNonceKey].s)
      else None
    else None
  }

  /** The value a message carries, JNull when it has none. */
  function Payload(message: Json): Json
  {
    if message.JObject? && ValueKey in message.fields then message.fields[ValueKey] else JNull
  }

  /** An envelope gives back the nonce and the value it was built from. */
  lemma EnvelopeRoundTrip(nonce: string, value: Json)
    ensures RequestNonce(SerializedData(nonce, value)) == Some(nonce)
    ensures Payload(SerializedData(nonce, value)) == value
  {
  }

  /** Distinct nonces or values give distinct envelopes. */
  lemma EnvelopeInjective(n1: string, v1: Json, n2: string, v2: Json)
    requires SerializedData(n1, v1) == SerializedData(n2, v2)
    ensures n1 == n2 && v1 == v2
  {
    EnvelopeRoundTrip(n1, v1);
    EnvelopeRoundTrip(n2, v2);
  }

  /**
   * The connectivity an inbound status event reports: true exactly when its
   * first argument is the "controller connected" status; an event without
   * arguments raises IndexError.
   */
  function ControllerConnectivity(args: seq<Json>): (r: Result<bool, Error>)
    ensures r.Err? <==> args == []
    ensures r.Err? ==> r.error == IndexError
    ensures r.Ok? ==> (r.value <==> args[0] == JString(ControllerConnectedStatus))
  {
    if args == [] then Err(IndexError)
    else Ok(args[0] == JString(ControllerConnectedStatus))
  }
}
