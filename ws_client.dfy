/** The browser side of the live-update channel: a connection state machine
    with a connect guard, the handlers of the socket's events, and a bounded,
    newest-first list of incoming WhatsApp events. The browser's `WebSocket`
    object is reduced to an identity, its ready state is read from a parameter,
    and JSON decoding is a parameter. */
module WsClient {
  import opened Text
  import opened PeerRegistry

  datatype Status = Idle | Connecting | Open | Closed | Error

  /** `WebSocket.readyState`. */
  datatype ReadyState = SocketConnecting | SocketOpen | SocketClosing | SocketClosed

  /** A socket created by `connect`: its attempt number and the URL it dials. */
  datatype Socket = Socket(attempt: nat, url: string)

  /** What `JSON.parse` made of a frame: the `type` property, if the value has
      one, and the value read as an incoming event. */
  datatype Decoded = Decoded(typeTag: Option<string>, event: IncomingEvent)

  /** `lastMessage`: a decoded frame, or `{type: 'unknown', raw}` for a frame
      that is not JSON. */
  datatype LastMessage = Parsed(decoded: Decoded) | Unknown(raw: string)

  /** An opaque error event. */
  datatype ErrorEvent = ErrorEvent(detail: string)

  /** `defaultWsUrl`: `wss:` for a page served over `https:`, `ws:` otherwise,
      then the page's host and the endpoint path. */
  function DefaultWsUrl(protocol: string, host: string): (u: string)
    ensures protocol == "https:" ==> u == "wss://" + host + "/api/whatsapp/incoming.ws"
    ensures protocol != "https:" ==> u == "ws://" + host + "/api/whatsapp/incoming.ws"
  {
    var wsProtocol := if protocol == "https:" then "wss:" else "ws:";
    wsProtocol + "//" + host + "/api/whatsapp/incoming.ws"
  }

  /** The end index `Array.prototype.slice(0, end)` uses on a list of `len`
      elements: a negative end counts from the back. */
  function SliceEnd(len: nat, end: int): (n: nat)
    ensures n <= len
    ensures end >= 0 ==> n == if end < len then end else len
    ensures end < 0 ==> n == if len + end > 0 then len + end else 0
  {
    if end >= 0 then (if end < len then end else len)
    else if len + end > 0 then len + end else 0
  }

  /** `[evt, ...list].slice(0, max)`. */
  function Pushed(list: seq<IncomingEvent>, evt: IncomingEvent, max: int): seq<IncomingEvent> {
    ([evt] + list)[..SliceEnd(|list| + 1, max)]
  }

  /** With a positive bound the new event comes first, at most `max` events are
      kept, and the others are the newest of the previous list, in order. */
  lemma PushedNewestFirst(list: seq<IncomingEvent>, evt: IncomingEvent, max: int)
    requires max >= 1
    ensures var r := Pushed(list, evt, max);
            && r[0] == evt
            && |r| <= max
            && |r| == (if |list| + 1 < max then |list| + 1 else max)
            && r[1..] == list[..|r| - 1]
  {
    var r := Pushed(list, evt, max);
    assert r[1..] == ([evt] + list)[1..|r|];
    assert ([evt] + list)[1..|r|] == list[..|r| - 1];
  }

  /** Whatever the bound, what is kept is a prefix of the new list. */
  lemma PushedIsPrefix(list: seq<IncomingEvent>, evt: IncomingEvent, max: int)
    ensures var r := Pushed(list, evt, max);
            |r| <= |list| + 1 && r == ([evt] + list)[..|r|]
  {
  }

  /** Repeated pushes never grow the list past the bound. */
  lemma {:induction false} PushesStayBounded(list: seq<IncomingEvent>, evts: seq<IncomingEvent>, max: int)
    requires max >= 0 && |list| <= max
    ensures |PushAll(list, evts, max)| <= max
    decreases |evts|
  {
    if evts != [] {
      PushesStayBounded(Pushed(list, evts[0], max), evts[1..], max);
    }
  }

  function PushAll(list: seq<IncomingEvent>, evts: seq<IncomingEvent>, max: int): seq<IncomingEvent>
    decreases |evts|
  {
    if evts == [] then list else PushAll(Pushed(list, evts[0], max), evts[1..], max)
  }

  /** A frame counts as an incoming event exactly when it decodes with type
      `whatsapp:incoming`; a non-string frame is read as the empty text, which
      `JSON.parse` always rejects, so it is `unknown` with empty raw text. */
  function Classify(data: Option<string>, decode: string -> Option<Decoded>): (m: LastMessage)
    requires decode("") == None
    ensures data.None? ==> m == Unknown("")
    ensures var raw := data.GetOr("");
            && (decode(raw).Some? ==> m == Parsed(decode(raw).value))
            && (decode(raw).None? ==> m == Unknown(raw))
  {
    var raw := data.GetOr("");
    match decode(raw)
    case Some(d) => Parsed(d)
    case None => Unknown(raw)
  }

  predicate IsIncoming(m: LastMessage) {
    m.Parsed? && m.decoded.typeTag == Some("whatsapp:incoming")
  }

  /** The state of one `useWhatsAppIncomingWs` instance. */
  class Client {
    const url: Option<string>
    const maxMessages: Option<int>
    const autoConnect: Option<bool>
    var status: Status
    var lastMessage: Option<LastMessage>
    var incoming: seq<IncomingEvent>
    var error: Option<ErrorEvent>
    var ws: Option<Socket>
    var connectAttempt: nat
    /** Every `ws.send` call, in order. */
    var sent: seq<(Socket, string)>
    /** Every `ws.close` call, in order, with its code and reason. */
    var closeCalls: seq<(Socket, Option<int>, Option<string>)>

    constructor (url: Option<string>, maxMessages: Option<int>, autoConnect: Option<bool>)
      ensures this.url == url && this.maxMessages == maxMessages && this.autoConnect == autoConnect
      ensures status == Idle && lastMessage.None? && incoming == [] && error.None?
      ensures ws.None? && connectAttempt == 0 && sent == [] && closeCalls == []
    {
      this.url := url;
      this.maxMessages := maxMessages;
      this.autoConnect := autoConnect;
      status := Idle;
      lastMessage := None;
      incoming := [];
      error := None;
      ws := None;
      connectAttempt := 0;
      sent := [];
      closeCalls := [];
    }

    /** `pushIncoming` with the bound `maxMessages ?? 50`. */
    method PushIncoming(evt: IncomingEvent)
      modifies this
      ensures incoming == Pushed(old(incoming), evt, maxMessages.GetOr(50))
      ensures status == old(status) && lastMessage == old(lastMessage) && error == old(error)
      ensures ws == old(ws) && connectAttempt == old(connectAttempt) && sent == old(sent) && closeCalls == old(closeCalls)
    {
      incoming := ([evt] + incoming)[..SliceEnd(|incoming| + 1, maxMessages.GetOr(50))];
    }

    /** `connect`: nothing outside the browser or while the current socket is
        open or still connecting; otherwise the error is cleared, the status is
        `connecting`, the attempt counter goes up by one and a new socket dials
        the configured URL or the default one. When the `WebSocket` constructor
        throws (`constructThrows`, an invalid URL) the exception propagates
        (`threw`) after those updates, and the old socket reference stays. */
    method Connect(isClient: bool, readyState: ReadyState, protocol: string, host: string, constructThrows: bool)
      returns (threw: bool)
      modifies this
      ensures var guarded := !isClient || (old(ws).Some? && (readyState == SocketOpen || readyState == SocketConnecting));
              && (guarded ==> !threw && status == old(status) && error == old(error) && ws == old(ws)
                              && connectAttempt == old(connectAttempt))
              && (!guarded ==> status == Connecting && error.None? && connectAttempt == old(connectAttempt) + 1
                               && threw == constructThrows
                               && (constructThrows ==> ws == old(ws))
                               && (!constructThrows ==>
                                     ws == Some(Socket(connectAttempt, if url.Some? then url.value else DefaultWsUrl(protocol, host)))))
      ensures lastMessage == old(lastMessage) && incoming == old(incoming)
      ensures sent == old(sent) && closeCalls == old(closeCalls)
    {
      threw := false;
      if !isClient {
        return;
      }
      if ws.Some? && (readyState == SocketOpen || readyState == SocketConnecting) {
        return;
      }
      error := None;
      status := Connecting;
      var target := if url.Some? then url.value else DefaultWsUrl(protocol, host);
      connectAttempt := connectAttempt + 1;
      if constructThrows {
        threw := true;
        return;
      }
      ws := Some(Socket(connectAttempt, target));
    }

    /** `onopen`. */
    method OnOpen()
      modifies this
      ensures status == Open
      ensures lastMessage == old(lastMessage) && incoming == old(incoming) && error == old(error)
      ensures ws == old(ws) && connectAttempt == old(connectAttempt) && sent == old(sent) && closeCalls == old(closeCalls)
    {
      status := Open;
    }

    /** `onmessage`: every frame becomes the last message; only an incoming
        event is added to the list. */
    method OnMessage(data: Option<string>, decode: string -> Option<Decoded>)
      requires decode("") == None
      modifies this
      ensures data.None? ==> lastMessage == Some(Unknown("")) && incoming == old(incoming)
      ensures lastMessage == Some(Classify(data, decode))
      ensures IsIncoming(Classify(data, decode)) ==>
                incoming == Pushed(old(incoming), Classify(data, decode).decoded.event, maxMessages.GetOr(50))
      ensures !IsIncoming(Classify(data, decode)) ==> incoming == old(incoming)
      ensures status == old(status) && error == old(error)
      ensures ws == old(ws) && connectAttempt == old(connectAttempt) && sent == old(sent) && closeCalls == old(closeCalls)
    {
      var msg := Classify(data, decode);
      lastMessage := Some(msg);
      if IsIncoming(msg) {
        PushIncoming(msg.decoded.event);
      }
    }

    /** `onerror`: the status becomes `error` and the event is kept. */
    method OnError(e: ErrorEvent)
      modifies this
      ensures status == Error && error == Some(e)
      ensures lastMessage == old(lastMessage) && incoming == old(incoming)
      ensures ws == old(ws) && connectAttempt == old(connectAttempt) && sent == old(sent) && closeCalls == old(closeCalls)
    {
      status := Error;
      error := Some(e);
    }

    /** `onclose`. */
    method OnClose()
      modifies this
      ensures status == Closed
      ensures lastMessage == old(lastMessage) && incoming == old(incoming) && error == old(error)
      ensures ws == old(ws) && connectAttempt == old(connectAttempt) && sent == old(sent) && closeCalls == old(closeCalls)
    {
      status := Closed;
    }

    /** `disconnect`: without a socket nothing happens; otherwise `close` is
        called and the socket reference is dropped even when `close` throws, in
        which case the exception propagates (`threw`). */
    method Disconnect(code: Option<int>, reason: Option<string>, closeThrows: bool) returns (threw: bool)
      modifies this
      ensures old(ws).None? ==> !threw && closeCalls == old(closeCalls)
      ensures old(ws).Some? ==> threw == closeThrows && closeCalls == old(closeCalls) + [(old(ws).value, code, reason)]
      ensures ws.None?
      ensures status == old(status) && lastMessage == old(lastMessage) && incoming == old(incoming) && error == old(error)
      ensures connectAttempt == old(connectAttempt) && sent == old(sent)
    {
      threw := false;
      if ws.None? {
        return;
      }
      closeCalls := closeCalls + [(ws.value, code, reason)];
      threw := closeThrows;
      ws := None;
    }

    /** `sendPing`: the text `ping` goes out only on an open socket. */
    method SendPing(readyState: ReadyState)
      modifies this
      ensures old(ws).Some? && readyState == SocketOpen ==> sent == old(sent) + [(old(ws).value, "ping")]
      ensures !(old(ws).Some? && readyState == SocketOpen) ==> sent == old(sent)
      ensures status == old(status) && lastMessage == old(lastMessage) && incoming == old(incoming) && error == old(error)
      ensures ws == old(ws) && connectAttempt == old(connectAttempt) && closeCalls == old(closeCalls)
    {
      if ws.None? || readyState != SocketOpen {
        return;
      }
      sent := sent + [(ws.value, "ping")];
    }

    /** `onMounted`: `connect()` unless `autoConnect` is false. */
    method Mount(isClient: bool, readyState: ReadyState, protocol: string, host: string, constructThrows: bool)
      returns (threw: bool)
      modifies this
      ensures var guarded := !autoConnect.GetOr(true) || !isClient
                             || (old(ws).Some? && (readyState == SocketOpen || readyState == SocketConnecting));
              && (guarded ==> !threw && status == old(status) && error == old(error) && ws == old(ws)
                              && connectAttempt == old(connectAttempt))
              && (!guarded ==> status == Connecting && error.None? && connectAttempt == old(connectAttempt) + 1
                               && threw == constructThrows
                               && (constructThrows ==> ws == old(ws))
                               && (!constructThrows ==>
                                     ws == Some(Socket(connectAttempt, if url.Some? then url.value else DefaultWsUrl(protocol, host)))))
      ensures lastMessage == old(lastMessage) && incoming == old(incoming)
      ensures sent == old(sent) && closeCalls == old(closeCalls)
    {
      threw := false;
      if autoConnect.GetOr(true) {
        threw := Connect(isClient, readyState, protocol, host, constructThrows);
      }
    }

    /** `onBeforeUnmount`: `disconnect(1000, 'component unmounted')`. */
    method Unmount(closeThrows: bool) returns (threw: bool)
      modifies this
      ensures old(ws).None? ==> !threw && closeCalls == old(closeCalls)
      ensures old(ws).Some? ==> threw == closeThrows
                                && closeCalls == old(closeCalls) + [(old(ws).value, Some(1000), Some("component unmounted"))]
      ensures ws.None?
      ensures status == old(status) && lastMessage == old(lastMessage) && incoming == old(incoming) && error == old(error)
      ensures connectAttempt == old(connectAttempt) && sent == old(sent)
    {
      threw := Disconnect(Some(1000), Some("component unmounted"), closeThrows);
    }
  }

  /** A fresh client that connects, opens and receives one incoming event
      holds exactly that event, and a second `connect` while the socket is open
      changes nothing. */
  method ConnectReceiveReconnect(host: string, e: IncomingEvent, raw: string, decode: string -> Option<Decoded>)
    returns (c: Client)
    requires decode("") == None
    requires decode(raw) == Some(Decoded(Some("whatsapp:incoming"), e))
    ensures c.status == Open && c.connectAttempt == 1 && c.incoming == [e]
    ensures c.ws == Some(Socket(1, "wss://" + host + "/api/whatsapp/incoming.ws"))
  {
    c := new Client(None, None, None);
    var _ := c.Connect(true, SocketClosed, "https:", host, false);
    c.OnOpen();
    c.OnMessage(Some(raw), decode);
    var _ := c.Connect(true, SocketOpen, "https:", host, false);
  }
}
