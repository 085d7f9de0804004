/**
 * The structural check the compiled server applies to every parsed inbound
 * message (`validateWebSocketMessage`), and the fixed error envelope it
 * echoes to a sender whose message is refused.
 */
module Validation {
  import opened Wrappers
  import opened Json

  /** The three reasons the validator throws, checked in this order. */
  datatype Rejection = InvalidMessage | InvalidType | MissingPayload

  /** The text of the `Error` thrown for each reason. */
  function Reason(r: Rejection): string
  {
    match r
    case InvalidMessage => "Invalid message"
    case InvalidType => "Invalid type"
    case MissingPayload => "Missing payload"
  }

  /**
   * The `WebSocketMessage` shape: an object with a string `type` and some
   * `payload` (any value, null included). Further keys are allowed.
   */
  predicate IsEnvelope(x: Json)
  {
    x.JObj? && "type" in x.fields && x.fields["type"].JStr? && "payload" in x.fields
  }

  /**
   * `validateWebSocketMessage`: the three guards of the source, written in
   * JavaScript's terms (`!data`, `typeof`, `in`); the first that fails
   * decides the rejection, and an accepted value is returned as it is.
   */
  function Validate(data: Json): (r: Result<Json, Rejection>)
    // Anything but an array or an object: falsy values, and primitives that are truthy.
    ensures r == Err(InvalidMessage) <==> !(data.JArr? || data.JObj?)
    // Every array, and every object whose `type` is missing or not a string.
    ensures r == Err(InvalidType) <==>
      data.JArr? || (data.JObj? && !("type" in data.fields && data.fields["type"].JStr?))
    // An object with a string `type` and no `payload` key.
    ensures r == Err(MissingPayload) <==>
      data.JObj? && "type" in data.fields && data.fields["type"].JStr? && "payload" !in data.fields
    ensures r.Ok? <==> IsEnvelope(data)
    ensures r.Ok? ==> r.value == data
  {
    if !Truthy(data) || TypeOf(Defined(data)) != "object" then
      Err(InvalidMessage)
    else if !HasProperty(data, "type") || TypeOf(GetProperty(data, "type")) != "string" then
      ArrayLacksNamedKey(if data.JArr? then data.elems else [], "type");
      Err(InvalidType)
    else if !HasProperty(data, "payload") then
      Err(MissingPayload)
    else
      Ok(data)
  }

  /** The envelope sent back to a sender whose message did not parse or validate. */
  function ErrorEnvelope(): (e: Json)
    ensures IsEnvelope(e) && Validate(e) == Ok(e)
    ensures e.fields["type"] == JStr("error")
    ensures e.fields["payload"] == JObj(map["message" := JStr("Invalid message format")])
  {
    JObj(map["type" := JStr("error"),
             "payload" := JObj(map["message" := JStr("Invalid message format")])])
  }

  /** Precedence: a non-string `type` is reported as such even when `payload` is missing too. */
  lemma TypeCheckedBeforePayload(fields: map<string, Json>)
    requires "type" in fields && !fields["type"].JStr?
    ensures Validate(JObj(fields)) == Err(InvalidType)
  {
  }

  /** Precedence: once the value is an object with a string `type`, only `payload` can still fail. */
  lemma PayloadCheckedLast(fields: map<string, Json>, t: string)
    requires "type" in fields && fields["type"] == JStr(t)
    ensures Validate(JObj(fields)) == (if "payload" in fields then Ok(JObj(fields)) else Err(MissingPayload))
  {
  }

  /** Arrays pass the object test (`typeof [] === 'object'`) and then fail on `type`. */
  lemma ArraysHaveInvalidType(elems: seq<Json>)
    ensures Validate(JArr(elems)) == Err(InvalidType)
  {
  }

  /** `{"type": 5, "payload": {}}` is refused for its type; `{"type": "x"}` for its missing payload. */
  lemma WorkedExamples()
    ensures Validate(JObj(map["type" := JNum(5.0), "payload" := JObj(map[])])) == Err(InvalidType)
    ensures Validate(JObj(map["type" := JNum(5.0)])) == Err(InvalidType)
    ensures Validate(JObj(map["type" := JStr("x")])) == Err(MissingPayload)
    ensures Validate(JObj(map["type" := JStr("x"), "payload" := JNull]))
      == Ok(JObj(map["type" := JStr("x"), "payload" := JNull]))
    ensures Validate(JObj(map["type" := JStr(""), "payload" := JNum(0.0)])).Ok?
    ensures Validate(JNull) == Err(InvalidMessage) && Validate(JNum(0.0)) == Err(InvalidMessage)
    ensures Validate(JStr("")) == Err(InvalidMessage) && Validate(JBool(false)) == Err(InvalidMessage)
    ensures Validate(JNum(0.5)) == Err(InvalidMessage) && Validate(JStr("hi")) == Err(InvalidMessage)
  {
    assert "payload" !in map["type" := JNum(5.0)];
    assert "payload" !in map["type" := JStr("x")];
  }
}
