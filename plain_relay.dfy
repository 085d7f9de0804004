/**
 * The connection handler of the uncompiled server (server.ts and its
 * compiled server.js, which agree line for line): whatever `JSON.parse`
 * accepts is broadcast to the other open clients without any check, and a
 * frame that does not parse is only logged.
 */
module PlainRelay {
  import opened Wrappers
  import opened Json
  import opened Validation
  import opened Clients
  import ValidatingRelay

  /**
   * The decision of this variant's `'message'` handler: relay every parsed
   * value as it is, and send nothing at all when parsing threw.
   */
  function Decide(parsed: Option<Json>): (a: Action)
    ensures a.Relay? <==> parsed.Some?
    ensures a.Relay? ==> a.message == parsed.value
    ensures !a.Relay? ==> a == Drop
  {
    match parsed
    case None => Drop
    case Some(message) => Relay(message)
  }

  /** Every message the validating server relays, this one relays too, unchanged. */
  lemma RelaysWhateverTheValidatorAccepts(parsed: Option<Json>)
    requires ValidatingRelay.Decide(parsed).Relay?
    ensures Decide(parsed) == ValidatingRelay.Decide(parsed)
  {
  }

  /**
   * The two servers differ on every parsed value that is not an envelope
   * (relayed here, answered with the error envelope there) and on every
   * frame that does not parse (dropped here, answered there).
   */
  lemma DivergesFromValidatingRelay(parsed: Option<Json>)
    requires parsed.None? || !IsEnvelope(parsed.value)
    ensures ValidatingRelay.Decide(parsed) == Reply(ErrorEnvelope())
    ensures Decide(parsed) == if parsed.None? then Drop else Relay(parsed.value)
  {
  }

  /**
   * `ws.on('message', ...)` for connection `ws`: a parsed value is broadcast
   * as it is; a parse failure changes no client. The sender never receives
   * anything.
   */
  method OnMessage(wss: ClientSet, ws: Connection, parsed: Option<Json>)
    requires wss.Valid()
    modifies set c | c in wss.clients
    ensures Decide(parsed).Relay? ==> Broadcasted(wss.clients, ws, Decide(parsed).message)
    ensures Decide(parsed).Drop? ==> Untouched(wss.clients)
    ensures ws.outbox == old(ws.outbox) && ws.readyState == old(ws.readyState)
  {
    match parsed {
      case Some(message) =>
        wss.Broadcast(ws, message);
      case None =>
    }
  }

  /**
   * Three fresh clients A, B (OPEN) and C (CLOSED). A sends the bare number
   * 5, then a frame that does not parse: B receives the number once, nobody
   * receives anything for the second frame, and A and C receive nothing.
   */
  method Scenario() returns (a: seq<Json>, b: seq<Json>, c: seq<Json>)
    ensures a == [] && b == [JNum(5.0)] && c == []
  {
    var ca := new Connection(Open);
    var cb := new Connection(Open);
    var cc := new Connection(Closed);
    var wss := new ClientSet([ca, cb, cc]);
    OnMessage(wss, ca, Some(JNum(5.0)));
    assert cb in wss.clients && cc in wss.clients;
    OnMessage(wss, ca, None);
    assert cb in wss.clients && cc in wss.clients;
    a, b, c := ca.outbox, cb.outbox, cc.outbox;
  }
}
