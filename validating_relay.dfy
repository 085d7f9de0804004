/**
 * The connection handlers of the compiled server: an inbound message is
 * parsed and validated; a valid one is broadcast to the other open clients,
 * anything else earns the sender, and only the sender, the fixed error
 * envelope. The error and close handlers only log.
 */
module ValidatingRelay {
  import opened Wrappers
  import opened Json
  import opened Validation
  import opened Clients

  /**
   * The decision of the `'message'` handler, given what `JSON.parse` made of
   * the frame (None when it threw): relay exactly the validated envelopes,
   * unchanged, and answer everything else with the error envelope, whatever
   * the validator's own reason was.
   */
  function Decide(parsed: Option<Json>): (a: Action)
    ensures a.Relay? <==> parsed.Some? && IsEnvelope(parsed.value)
    ensures a.Relay? ==> a.message == parsed.value
    ensures !a.Relay? ==> a == Reply(ErrorEnvelope())
  {
    match parsed
    case None => Reply(ErrorEnvelope())
    case Some(data) =>
      match Validate(data)
      case Ok(message) => Relay(message)
      case Err(_) => Reply(ErrorEnvelope())
  }

  /**
   * The reply does not depend on why a message was refused, nor on whether
   * it parsed at all: the validator's texts differ, the reply is the same.
   */
  lemma ReplyIgnoresReason(x: Json, y: Json)
    requires Validate(x).Err? && Validate(y).Err? && Validate(x).error != Validate(y).error
    ensures Reason(Validate(x).error) != Reason(Validate(y).error)
    ensures Decide(Some(x)) == Decide(Some(y)) == Decide(None)
  {
  }

  /**
   * `ws.on('message', ...)` for connection `ws`. A valid envelope is
   * broadcast and the sender receives nothing; otherwise the sender's
   * outbox grows by the error envelope and no other client changes.
   */
  method OnMessage(wss: ClientSet, ws: Connection, parsed: Option<Json>)
    requires wss.Valid()
    modifies (set c | c in wss.clients), ws
    ensures Decide(parsed).Relay? ==>
      Broadcasted(wss.clients, ws, Decide(parsed).message) && ws.outbox == old(ws.outbox)
    ensures Decide(parsed).Reply? ==>
      && ws.outbox == old(ws.outbox) + [ErrorEnvelope()]
      && forall c :: c in wss.clients && c != ws ==>
           c.outbox == old(c.outbox) && c.readyState == old(c.readyState)
    ensures ws.readyState == old(ws.readyState)
  {
    match parsed {
      case None =>
        ws.Send(ErrorEnvelope());
      case Some(data) =>
        match Validate(data) {
          case Ok(message) =>
            wss.Broadcast(ws, message);
          case Err(_) =>
            ws.Send(ErrorEnvelope());
        }
    }
  }

  /** `ws.on('error', ...)`: logs the error, changes nothing, and does not unregister `ws`. */
  method OnError(wss: ClientSet, ws: Connection)
    ensures wss.clients == old(wss.clients)
    ensures Untouched(wss.clients)
    ensures ws.outbox == old(ws.outbox) && ws.readyState == old(ws.readyState)
  {
  }

  /** `ws.on('close', ...)`: logs the disconnection, changes nothing, and does not unregister `ws`. */
  method OnClose(wss: ClientSet, ws: Connection)
    ensures wss.clients == old(wss.clients)
    ensures Untouched(wss.clients)
    ensures ws.outbox == old(ws.outbox) && ws.readyState == old(ws.readyState)
  {
  }

  /**
   * Four fresh clients A, B, C (OPEN) and D (CLOSING). A sends a valid
   * envelope: B and C each receive it once, A and D receive nothing.
   */
  method RelayScenario(env: Json) returns (a: seq<Json>, b: seq<Json>, c: seq<Json>, d: seq<Json>)
    requires IsEnvelope(env)
    ensures a == [] && b == [env] && c == [env] && d == []
  {
    var ca := new Connection(Open);
    var cb := new Connection(Open);
    var cc := new Connection(Open);
    var cd := new Connection(Closing);
    var wss := new ClientSet([ca, cb, cc, cd]);
    OnMessage(wss, ca, Some(env));
    assert cb in wss.clients && cc in wss.clients && cd in wss.clients;
    a, b, c, d := ca.outbox, cb.outbox, cc.outbox, cd.outbox;
  }

  /**
   * Two fresh OPEN clients A and B. A sends `{"type": "chat"}`, which has
   * no payload: A alone is sent the error envelope and B receives nothing.
   */
  method RejectScenario() returns (a: seq<Json>, b: seq<Json>)
    ensures a == [ErrorEnvelope()] && b == []
  {
    var ca := new Connection(Open);
    var cb := new Connection(Open);
    var wss := new ClientSet([ca, cb]);
    var bad := JObj(map["type" := JStr("chat")]);
    assert "payload" !in bad.fields;
    OnMessage(wss, ca, Some(bad));
    assert cb in wss.clients;
    a, b := ca.outbox, cb.outbox;
  }
}
