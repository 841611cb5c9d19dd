/** The inbound Twilio webhook: configuration gate, form parsing, public URL
    reconstruction, signature gate, field extraction and the TwiML
    acknowledgement. The handler only acknowledges: it does not broadcast. */
module IncomingWebhook {
  import opened Text
  import opened Http
  import opened TwilioSignature

  /** `parseFormUrlEncoded`, after `URLSearchParams` has decoded the body into
      its entries: one object, filled entry by entry, where a repeated key keeps
      the value of its last occurrence. */
  method ParseForm(entries: seq<(string, string)>) returns (out: Dict)
    ensures out == FormObject(entries)
    ensures DistinctKeys(out)
    ensures forall k :: Get(out, k) == LastValue(entries, k)
  {
    out := [];
    var i := 0;
    while i < |entries|
      invariant 0 <= i <= |entries|
      invariant out == FormObject(entries[..i])
    {
      var (k, v) := entries[i];
      FormObjectPrefixStep(entries, i);
      out := Put(out, k, v);
      i := i + 1;
    }
    assert entries[..i] == entries;
    FormObjectLastWins(entries);
  }

  /** `getPublicWebhookUrl`: a non-empty `x-forwarded-proto` replaces the scheme,
      a non-empty `x-forwarded-host` replaces the host, each on its own; path and
      query are kept. */
  function PublicWebhookUrl(request: Url, forwardedProto: Option<string>, forwardedHost: Option<string>): (u: Url)
    ensures u.path == request.path && u.query == request.query
    ensures u.scheme == if Truthy(forwardedProto) then forwardedProto.value else request.scheme
    ensures u.host == if Truthy(forwardedHost) then forwardedHost.value else request.host
  {
    var withProto := if Truthy(forwardedProto) then request.(scheme := forwardedProto.value) else request;
    if Truthy(forwardedHost) then withProto.(host := forwardedHost.value) else withProto
  }

  /** The fields the handler reads out of the parsed form. */
  datatype InboundMessage = InboundMessage(messageSid: string, from: string, to: string, body: string, numMedia: Option<string>)

  /** `params.MessageSid ?? params.SmsMessageSid ?? params.SmsSid ?? ''`: the
      first of the three that is present, even when it is empty. */
  function MessageSid(params: Dict): (sid: string)
    ensures HasKey(params, "MessageSid") ==> Some(sid) == Get(params, "MessageSid")
    ensures !HasKey(params, "MessageSid") && HasKey(params, "SmsMessageSid") ==> Some(sid) == Get(params, "SmsMessageSid")
    ensures !HasKey(params, "MessageSid") && !HasKey(params, "SmsMessageSid") ==>
              (if HasKey(params, "SmsSid") then Some(sid) == Get(params, "SmsSid") else sid == "")
  {
    match Get(params, "MessageSid")
    case Some(s) => s
    case None =>
      match Get(params, "SmsMessageSid")
      case Some(s) => s
      case None => Get(params, "SmsSid").GetOr("")
  }

  /** An empty `MessageSid` is not skipped in favour of a non-empty fallback. */
  lemma EmptyMessageSidWins(params: Dict)
    requires Get(params, "MessageSid") == Some("")
    requires Get(params, "SmsMessageSid").Some? && Get(params, "SmsMessageSid").value != ""
    ensures MessageSid(params) == ""
  {
  }

  /** The logged record: `Body`, `From` and `To` default to the empty string,
      `NumMedia` stays optional. */
  function Extract(params: Dict): (m: InboundMessage)
    ensures m.messageSid == MessageSid(params)
    ensures Some(m.body) == Get(params, "Body") || (!HasKey(params, "Body") && m.body == "")
    ensures Some(m.from) == Get(params, "From") || (!HasKey(params, "From") && m.from == "")
    ensures Some(m.to) == Get(params, "To") || (!HasKey(params, "To") && m.to == "")
    ensures m.numMedia == Get(params, "NumMedia")
  {
    InboundMessage(MessageSid(params), Get(params, "From").GetOr(""), Get(params, "To").GetOr(""),
                   Get(params, "Body").GetOr(""), Get(params, "NumMedia"))
  }

  /** What the handler sees of the HTTP request. */
  datatype WebhookRequest = WebhookRequest(
    url: Url,
    signature: Option<string>,
    forwardedProto: Option<string>,
    forwardedHost: Option<string>,
    rawBody: Option<string>)

  datatype WebhookResponse =
    | Rejected(status: nat)
    | Acknowledged(contentType: string, body: string, received: InboundMessage)

  const EmptyTwiML: string := "<?xml version=\"1.0\" encoding=\"UTF-8\"?><Response></Response>"

  /** The parameters the signature is checked against: the decoded body (an
      absent body read as the empty string) with the last duplicate winning. */
  function ParsedBody(req: WebhookRequest, decode: string -> seq<(string, string)>): Dict {
    FormObject(decode(req.rawBody.GetOr("")))
  }

  /** The handler. `authToken` is the configured secret, `decode` stands for
      `URLSearchParams` and `digest` for HMAC-SHA1 followed by Base64. The 400
      branch of the source is not reachable: every value of the parsed form is a
      string and the schema is not strict, so schema validation always succeeds. */
  method HandleIncoming(authToken: Option<string>, req: WebhookRequest,
                        decode: string -> seq<(string, string)>, digest: (string, string) -> string)
    returns (res: WebhookResponse)
    ensures res == Rejected(500) <==> !Truthy(authToken)
    ensures Truthy(authToken) ==>
              (res == Rejected(403) <==>
                !ValidRequest(digest, authToken.value, req.signature.GetOr(""),
                              Href(PublicWebhookUrl(req.url, req.forwardedProto, req.forwardedHost)),
                              ParsedBody(req, decode)))
    ensures res.Rejected? ==> res.status == 500 || res.status == 403
    ensures Truthy(authToken)
            && ValidRequest(digest, authToken.value, req.signature.GetOr(""),
                            Href(PublicWebhookUrl(req.url, req.forwardedProto, req.forwardedHost)),
                            ParsedBody(req, decode))
            ==> res.Acknowledged?
    ensures res.Acknowledged? ==>
              && res.contentType == "text/xml; charset=utf-8" && res.body == EmptyTwiML
              && res.received == Extract(ParsedBody(req, decode))
  {
    if !Truthy(authToken) {
      return Rejected(500);
    }
    var signature := req.signature.GetOr("");
    var rawBody := req.rawBody.GetOr("");
    var params := ParseForm(decode(rawBody));
    var webhookUrl := Href(PublicWebhookUrl(req.url, req.forwardedProto, req.forwardedHost));
    if !ValidRequest(digest, authToken.value, signature, webhookUrl, params) {
      return Rejected(403);
    }
    res := Acknowledged("text/xml; charset=utf-8", EmptyTwiML, Extract(params));
  }
}
