/** The in-memory relay of inbound WhatsApp messages: the process-wide set of
    connected live-update peers and the broadcast that fans one event out to all
    of them, dropping every peer whose `send` throws. */
module PeerRegistry {
  import opened Text

  /** An opaque per-connection handle; only its identity matters. */
  datatype Peer = Peer(id: nat)

  /** Raw provider form fields, in insertion order. */
  type Params = seq<(string, string)>

  /** The `whatsapp:incoming` event as the browsers receive it. */
  datatype IncomingEvent = IncomingEvent(
    receivedAt: string,
    messageSid: string,
    from: string,
    to: string,
    body: string,
    numMedia: Option<string>,
    params: Option<Params>)

  /** What a caller hands to the broadcast: the event without its type, with an
      optional receive time. */
  datatype Payload = Payload(
    receivedAt: Option<string>,
    messageSid: string,
    from: string,
    to: string,
    body: string,
    numMedia: Option<string>,
    params: Option<Params>)

  /** The JSON messages the server pushes to a live-update peer. */
  datatype ServerMessage =
    | Hello(at: string, connectedPeers: nat)
    | Incoming(event: IncomingEvent)
  {
    /** The `type` discriminator the message is serialised with. */
    function TypeTag(): string {
      match this
      case Hello(_, _) => "whatsapp:ws:open"
      case Incoming(_) => "whatsapp:incoming"
    }
  }

  /** The text handed to `peer.send`: either `JSON.stringify` of a server
      message (kept symbolic: equal messages give equal text) or a plain string. */
  datatype Wire = Json(msg: ServerMessage) | Plain(text: string)

  /** One successful `peer.send(wire)`. */
  datatype Frame = Frame(to: Peer, wire: Wire)

  /** The event the broadcast sends: the payload's fields copied unchanged, the
      payload's receive time when it has one and the current time `now` otherwise. */
  function BuildEvent(p: Payload, now: string): (e: IncomingEvent)
    ensures p.receivedAt.Some? ==> e.receivedAt == p.receivedAt.value
    ensures p.receivedAt.None? ==> e.receivedAt == now
    ensures e.messageSid == p.messageSid && e.from == p.from && e.to == p.to && e.body == p.body
    ensures e.numMedia == p.numMedia && e.params == p.params
    ensures Incoming(e).TypeTag() == "whatsapp:incoming"
  {
    IncomingEvent(p.receivedAt.GetOr(now), p.messageSid, p.from, p.to, p.body, p.numMedia, p.params)
  }

  /** The frames a broadcast hands over when it tries the peers of `attempted`
      in order and the send to `p` throws exactly when `fails(p)`. */
  function Deliveries(attempted: seq<Peer>, fails: Peer -> bool, wire: Wire): seq<Frame>
  {
    if attempted == [] then []
    else
      var last := attempted[|attempted| - 1];
      Deliveries(attempted[..|attempted| - 1], fails, wire)
        + (if fails(last) then [] else [Frame(last, wire)])
  }

  predicate Distinct<T(==)>(s: seq<T>) {
    forall i, j :: 0 <= i < j < |s| ==> s[i] != s[j]
  }

  /** Every frame of a broadcast carries the one wire value, goes to a tried peer
      whose send did not throw, and every such peer gets one. */
  lemma {:induction false} DeliveriesExact(attempted: seq<Peer>, fails: Peer -> bool, wire: Wire)
    ensures forall f :: f in Deliveries(attempted, fails, wire) ==>
              f.wire == wire && f.to in attempted && !fails(f.to)
    ensures forall q :: q in attempted && !fails(q) ==> Frame(q, wire) in Deliveries(attempted, fails, wire)
  {
    if attempted != [] {
      var init := attempted[..|attempted| - 1];
      DeliveriesExact(init, fails, wire);
      assert attempted == init + [attempted[|attempted| - 1]];
    }
  }

  /** When every peer is tried once, no peer gets the event twice. */
  lemma {:induction false} DeliveriesOncePerPeer(attempted: seq<Peer>, fails: Peer -> bool, wire: Wire)
    requires Distinct(attempted)
    ensures Distinct(Deliveries(attempted, fails, wire))
    ensures |Deliveries(attempted, fails, wire)| <= |attempted|
  {
    if attempted != [] {
      var init := attempted[..|attempted| - 1];
      var last := attempted[|attempted| - 1];
      DeliveriesOncePerPeer(init, fails, wire);
      DeliveriesExact(init, fails, wire);
      assert last !in init;
    }
  }

  /** With no peer whose send throws, the broadcast reaches every tried peer in order. */
  lemma {:induction false} DeliveriesNoFailure(attempted: seq<Peer>, fails: Peer -> bool, wire: Wire)
    requires forall p :: p in attempted ==> !fails(p)
    ensures |Deliveries(attempted, fails, wire)| == |attempted|
    ensures forall i :: 0 <= i < |attempted| ==> Deliveries(attempted, fails, wire)[i] == Frame(attempted[i], wire)
  {
    if attempted != [] {
      DeliveriesNoFailure(attempted[..|attempted| - 1], fails, wire);
    }
  }

  /** The registry (the module-level `Set<Peer>` of the source) together with the
      log of every frame a peer accepted. */
  class Relay {
    var peers: set<Peer>
    var outbox: seq<Frame>

    constructor ()
      ensures peers == {} && outbox == []
    {
      peers := {};
      outbox := [];
    }

    /** `registerWhatsAppIncomingPeer`: adding a member again changes nothing. */
    method Register(p: Peer)
      modifies this
      ensures peers == old(peers) + {p} && outbox == old(outbox)
      ensures p in old(peers) ==> peers == old(peers)
      ensures |peers| == |old(peers)| + (if p in old(peers) then 0 else 1)
    {
      peers := peers + {p};
    }

    /** `unregisterWhatsAppIncomingPeer`: removing a non-member changes nothing,
        and no other peer is touched. */
    method Unregister(p: Peer)
      modifies this
      ensures peers == old(peers) - {p} && outbox == old(outbox)
      ensures p !in old(peers) ==> peers == old(peers)
      ensures forall q :: q != p ==> (q in peers <==> q in old(peers))
      ensures |peers| == |old(peers)| - (if p in old(peers) then 1 else 0)
    {
      peers := peers - {p};
    }

    /** `getWhatsAppIncomingPeerCount`: the number of distinct registered peers. */
    method Count() returns (n: nat)
      ensures n == |peers|
    {
      n := |peers|;
    }

    /** `peer.send(wire)` on a send that does not throw. */
    method Send(p: Peer, wire: Wire)
      modifies this
      ensures outbox == old(outbox) + [Frame(p, wire)] && peers == old(peers)
    {
      outbox := outbox + [Frame(p, wire)];
    }

    /** `broadcastWhatsAppIncoming`: the event is built and serialised once, every
        registered peer is tried exactly once (in an order the model leaves open,
        returned as `attempted`), a throwing send only drops that peer, and no
        peer is ever added. */
    method Broadcast(payload: Payload, now: string, fails: Peer -> bool) returns (attempted: seq<Peer>)
      modifies this
      ensures Distinct(attempted) && (forall p :: p in attempted <==> p in old(peers))
      ensures |attempted| == |old(peers)|
      ensures peers == set p | p in old(peers) && !fails(p)
      ensures outbox == old(outbox) + Deliveries(attempted, fails, Json(Incoming(BuildEvent(payload, now))))
    {
      var wire := Json(Incoming(BuildEvent(payload, now)));
      var remaining := peers;
      attempted := [];
      while remaining != {}
        invariant remaining <= old(peers)
        invariant Distinct(attempted) && |attempted| + |remaining| == |old(peers)|
        invariant forall p :: p in attempted <==> p in old(peers) && p !in remaining
        invariant peers == set p | p in old(peers) && (p in remaining || !fails(p))
        invariant outbox == old(outbox) + Deliveries(attempted, fails, wire)
        decreases remaining
      {
        var p :| p in remaining;
        if fails(p) {
          peers := peers - {p};
        } else {
          outbox := outbox + [Frame(p, wire)];
        }
        remaining := remaining - {p};
        assert (attempted + [p])[..|attempted|] == attempted;
        attempted := attempted + [p];
      }
    }
  }
}
