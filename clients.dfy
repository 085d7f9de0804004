/**
 * The connections of the WebSocket server and the fan-out loop that both
 * server variants run over `wss.clients`: every client other than the
 * sender whose `readyState` is OPEN is sent the message once.
 */
module Clients {
  import opened Json

  /** The four `readyState` values of a WebSocket. */
  datatype ReadyState = Connecting | Open | Closing | Closed

  /**
   * One peer connection. `outbox` records, in order, every value passed to
   * `send` (the value itself standing for its `JSON.stringify` text).
   */
  class Connection {
    var readyState: ReadyState
    var outbox: seq<Json>

    constructor (state: ReadyState)
      ensures readyState == state && outbox == []
    {
      readyState := state;
      outbox := [];
    }

    /** `send(JSON.stringify(m))`. */
    method Send(m: Json)
      modifies this
      ensures outbox == old(outbox) + [m]
      ensures readyState == old(readyState)
    {
      outbox := outbox + [m];
    }
  }

  /**
   * What a message handler decides to do with one inbound message: relay it
   * to the other clients, send a reply to the sender only, or send nothing.
   */
  datatype Action = Relay(message: Json) | Reply(message: Json) | Drop

  /** What a broadcast can see of, and does to, one client. */
  datatype Peer = Peer(isSender: bool, state: ReadyState, outbox: seq<Json>)

  /** The broadcast rule for one client: `client !== ws && client.readyState === OPEN`. */
  predicate Receives(p: Peer)
  {
    !p.isSender && p.state == Open
  }

  /**
   * The clients after one broadcast of `m`, in the order `forEach` visits them.
   * Each receiving client gets `m` appended exactly once; every other client,
   * the sender among them, keeps its outbox; no state changes.
   */
  function FanOut(peers: seq<Peer>, m: Json): (r: seq<Peer>)
    ensures |r| == |peers|
    ensures forall i :: 0 <= i < |peers| ==>
      && r[i].isSender == peers[i].isSender
      && r[i].state == peers[i].state
      && r[i].outbox == (if !peers[i].isSender && peers[i].state == Open
                         then peers[i].outbox + [m] else peers[i].outbox)
  {
    if peers == [] then []
    else
      var p := peers[0];
      [if Receives(p) then p.(outbox := p.outbox + [m]) else p] + FanOut(peers[1..], m)
  }

  /** The number of clients a broadcast delivers to. */
  function RecipientCount(peers: seq<Peer>): nat
  {
    if peers == [] then 0 else (if Receives(peers[0]) then 1 else 0) + RecipientCount(peers[1..])
  }

  /** The number of messages sent so far, over all clients. */
  function SentCount(peers: seq<Peer>): nat
  {
    if peers == [] then 0 else |peers[0].outbox| + SentCount(peers[1..])
  }

  /** The number of copies of `m` sent so far, over all clients. */
  function CopiesOf(peers: seq<Peer>, m: Json): nat
  {
    if peers == [] then 0 else multiset(peers[0].outbox)[m] + CopiesOf(peers[1..], m)
  }

  /** A broadcast sends exactly one message per recipient, and nothing more. */
  lemma {:induction false} FanOutSendsOnePerRecipient(peers: seq<Peer>, m: Json)
    ensures SentCount(FanOut(peers, m)) == SentCount(peers) + RecipientCount(peers)
    ensures CopiesOf(FanOut(peers, m), m) == CopiesOf(peers, m) + RecipientCount(peers)
  {
    if peers != [] {
      FanOutSendsOnePerRecipient(peers[1..], m);
      var r := FanOut(peers, m);
      assert r[1..] == FanOut(peers[1..], m);
      if Receives(peers[0]) {
        assert multiset(r[0].outbox) == multiset(peers[0].outbox) + multiset{m};
      }
    }
  }

  /** With no client OPEN other than the sender, a broadcast changes nothing. */
  lemma {:induction false} FanOutWithoutRecipients(peers: seq<Peer>, m: Json)
    requires RecipientCount(peers) == 0
    ensures FanOut(peers, m) == peers
  {
    if peers != [] {
      FanOutWithoutRecipients(peers[1..], m);
      assert FanOut(peers, m) == [peers[0]] + FanOut(peers[1..], m);
      assert peers == [peers[0]] + peers[1..];
    }
  }

  /** The view of one connection, as seen from a broadcast by `sender`. */
  function View(c: Connection, sender: Connection): Peer
    reads c
  {
    Peer(c == sender, c.readyState, c.outbox)
  }

  /** The views of a sequence of connections, in order. */
  function Views(cs: seq<Connection>, sender: Connection): (r: seq<Peer>)
    reads set c | c in cs
    ensures |r| == |cs|
    ensures forall i :: 0 <= i < |cs| ==> r[i] == View(cs[i], sender)
  {
    if cs == [] then [] else [View(cs[0], sender)] + Views(cs[1..], sender)
  }

  /**
   * The effect of one broadcast of `m` by `sender` on the connections `cs`:
   * each OPEN one other than the sender was sent `m` once more; the others
   * kept their outbox; no `readyState` changed.
   */
  twostate predicate Broadcasted(cs: seq<Connection>, sender: Connection, m: Json)
    reads set c | c in cs
  {
    forall c :: c in cs ==>
      && c.readyState == old(c.readyState)
      && c.outbox == (if c != sender && old(c.readyState) == Open
                      then old(c.outbox) + [m] else old(c.outbox))
  }

  /** No connection in `cs` changed. */
  twostate predicate Untouched(cs: seq<Connection>)
    reads set c | c in cs
  {
    forall c :: c in cs ==> c.readyState == old(c.readyState) && c.outbox == old(c.outbox)
  }

  /** The effect of a broadcast on the connections is `FanOut` on their views. */
  twostate lemma BroadcastedIsFanOut(cs: seq<Connection>, sender: Connection, m: Json)
    requires Broadcasted(cs, sender, m)
    ensures Views(cs, sender) == FanOut(old(Views(cs, sender)), m)
  {
    ghost var before := old(Views(cs, sender));
    ghost var after := Views(cs, sender);
    forall j | 0 <= j < |cs| ensures after[j] == FanOut(before, m)[j] {
      assert cs[j] in cs;
      assert before[j] == old(View(cs[j], sender));
    }
  }

  /** The server's client collection, `wss.clients`: a set, so no connection appears twice. */
  class ClientSet {
    var clients: seq<Connection>

    ghost predicate Valid()
      reads this
    {
      forall i, j :: 0 <= i < j < |clients| ==> clients[i] != clients[j]
    }

    /** Registration is done by the WebSocket library; the model starts from a given collection. */
    constructor (initial: seq<Connection>)
      requires forall i, j :: 0 <= i < j < |initial| ==> initial[i] != initial[j]
      ensures Valid() && clients == initial
    {
      clients := initial;
    }

    /**
     * `handleWebSocketMessage(ws, message)`, and the same `forEach` loop
     * inlined in the uncompiled server: every OPEN client other than the
     * sender is sent the message once, nothing else changes, and the
     * collection itself is left as it was.
     */
    method Broadcast(sender: Connection, message: Json)
      requires Valid()
      modifies set c | c in clients
      ensures Broadcasted(clients, sender, message)
      ensures sender.outbox == old(sender.outbox) && sender.readyState == old(sender.readyState)
    {
      var i := 0;
      while i < |clients|
        invariant 0 <= i <= |clients|
        invariant forall j :: 0 <= j < i ==>
          && clients[j].readyState == old(clients[j].readyState)
          && clients[j].outbox == (if clients[j] != sender && old(clients[j].readyState) == Open
                                   then old(clients[j].outbox) + [message] else old(clients[j].outbox))
        invariant forall j :: i <= j < |clients| ==>
          clients[j].readyState == old(clients[j].readyState) && clients[j].outbox == old(clients[j].outbox)
        invariant sender.outbox == old(sender.outbox) && sender.readyState == old(sender.readyState)
      {
        var client := clients[i];
        if client != sender && client.readyState == Open {
          client.Send(message);
        }
        i := i + 1;
      }
    }
  }
}
