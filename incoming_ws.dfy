/** The live-update WebSocket handler: it registers a peer on open and greets
    it with the current occupancy, answers the text `ping` with `pong`, ignores
    every other client message, and unregisters the peer on close or error. */
module IncomingWs {
  import opened Text
  import opened PeerRegistry

  /** A client frame: text, or a frame whose `text()` throws. */
  datatype ClientMessage = TextMessage(text: string) | Undecodable

  /** `open`: register first, then count, so the hello always reports at least
      this peer; the hello goes to the opening peer only. */
  method Open(r: Relay, peer: Peer, at: string)
    modifies r
    ensures r.peers == old(r.peers) + {peer}
    ensures r.outbox == old(r.outbox) + [Frame(peer, Json(Hello(at, |r.peers|)))]
    ensures 1 <= |r.peers| && Hello(at, |r.peers|).TypeTag() == "whatsapp:ws:open"
  {
    r.Register(peer);
    var connectedPeers := r.Count();
    r.Send(peer, Json(Hello(at, connectedPeers)));
  }

  /** `message`: a keepalive; registry membership never changes. */
  method Message(r: Relay, peer: Peer, m: ClientMessage)
    modifies r
    ensures r.peers == old(r.peers)
    ensures m == TextMessage("ping") ==> r.outbox == old(r.outbox) + [Frame(peer, Plain("pong"))]
    ensures m != TextMessage("ping") ==> r.outbox == old(r.outbox)
  {
    match m
    case TextMessage(text) =>
      if text == "ping" {
        r.Send(peer, Plain("pong"));
      }
    case Undecodable =>
  }

  /** `close`: unconditional unregistration. */
  method Close(r: Relay, peer: Peer)
    modifies r
    ensures r.peers == old(r.peers) - {peer} && r.outbox == old(r.outbox)
  {
    r.Unregister(peer);
  }

  /** `error`: unconditional unregistration, like `close`. */
  method Error(r: Relay, peer: Peer)
    modifies r
    ensures r.peers == old(r.peers) - {peer} && r.outbox == old(r.outbox)
  {
    r.Unregister(peer);
  }

  /** A peer that connected before a broadcast receives exactly two frames, in
      order: a hello reporting one connected peer, then the incoming event. */
  method HelloThenIncoming(payload: Payload, at: string, now: string) returns (r: Relay)
    ensures r.peers == {Peer(0)}
    ensures r.outbox == [Frame(Peer(0), Json(Hello(at, 1))), Frame(Peer(0), Json(Incoming(BuildEvent(payload, now))))]
  {
    r := new Relay();
    Open(r, Peer(0), at);
    var attempted := r.Broadcast(payload, now, p => false);
    assert attempted[0] in attempted;
    DeliveriesNoFailure(attempted, p => false, Json(Incoming(BuildEvent(payload, now))));
  }

  /** Two peers connect and one closes before the broadcast: only the other one
      receives the event, and one peer stays registered. */
  method OneOfTwoClosed(payload: Payload, at: string, now: string) returns (r: Relay)
    ensures r.peers == {Peer(1)} && |r.peers| == 1
    ensures |r.outbox| == 3 && r.outbox[2] == Frame(Peer(1), Json(Incoming(BuildEvent(payload, now))))
  {
    r := new Relay();
    Open(r, Peer(0), at);
    Open(r, Peer(1), at);
    Close(r, Peer(0));
    var attempted := r.Broadcast(payload, now, p => false);
    assert attempted[0] in attempted;
    DeliveriesNoFailure(attempted, p => false, Json(Incoming(BuildEvent(payload, now))));
  }
}
