/** The outbound WhatsApp send endpoint: configuration gates, the choice
    between a free-text message and a content template, the serialisation of
    template variables, phone masking for the logs, and the mapping of provider
    failures. The provider call is a parameter. */
module Send {
  import opened Text
  import opened Http

  /** One field of the JSON request body, as the schemas see it. */
  datatype BodyField = Missing | Str(s: string) | StringRecord(entries: Dict) | Invalid

  datatype SendBody = SendBody(to: BodyField, body: BodyField, contentSid: BodyField, contentVariables: BodyField)

  /** Template variables: a string passed on verbatim, or a string record. */
  datatype ContentVariables = Verbatim(json: string) | Record(entries: Dict)

  datatype SendRequest =
    | TextMessage(to: string, body: string)
    | TemplateMessage(to: string, contentSid: string, contentVariables: ContentVariables)

  /** `ToSchema`: a non-empty string that starts with `whatsapp:`. */
  predicate ValidTo(f: BodyField) {
    f.Str? && |f.s| >= 1 && StartsWith(f.s, "whatsapp:")
  }

  predicate NonEmpty(f: BodyField) {
    f.Str? && |f.s| >= 1
  }

  /** The template variables schema with its default: absent is `'{}'`, a
      non-empty string or a string record is accepted, anything else refused. */
  function TemplateVariables(f: BodyField): (r: Option<ContentVariables>)
    ensures f.Missing? ==> r == Some(Verbatim("{}"))
    ensures NonEmpty(f) ==> r == Some(Verbatim(f.s))
    ensures f.StringRecord? ==> r == Some(Record(f.entries))
    ensures r.Some? <==> f.Missing? || NonEmpty(f) || f.StringRecord?
  {
    match f
    case Missing => Some(Verbatim("{}"))
    case Str(s) => if |s| >= 1 then Some(Verbatim(s)) else None
    case StringRecord(entries) => Some(Record(entries))
    case Invalid => None
  }

  /** `BodySchema`: the text variant is tried first; the template variant only
      when the text variant fails. `None` is the 400 path; a body that is not an
      object is `None` on input. */
  function SelectRequest(body: Option<SendBody>): (r: Option<SendRequest>)
    ensures r.Some? ==> body.Some? && ValidTo(body.value.to) && r.value.to == body.value.to.s
    ensures body.Some? && ValidTo(body.value.to) && NonEmpty(body.value.body) ==>
              r == Some(TextMessage(body.value.to.s, body.value.body.s))
    ensures body.Some? && !NonEmpty(body.value.body) ==>
              (r.Some? <==> ValidTo(body.value.to) && NonEmpty(body.value.contentSid)
                            && TemplateVariables(body.value.contentVariables).Some?)
    ensures body.Some? && !NonEmpty(body.value.body) && r.Some? ==> r.value.TemplateMessage?
    ensures r.Some? && r.value.TextMessage? ==> NonEmpty(body.value.body) && r.value.body == body.value.body.s
    ensures r.Some? && r.value.TemplateMessage? ==>
              && r.value.contentSid == body.value.contentSid.s
              && Some(r.value.contentVariables) == TemplateVariables(body.value.contentVariables)
  {
    if body.None? || !ValidTo(body.value.to) then None
    else
      var b := body.value;
      if NonEmpty(b.body) then Some(TextMessage(b.to.s, b.body.s))
      else if NonEmpty(b.contentSid) && TemplateVariables(b.contentVariables).Some? then
        Some(TemplateMessage(b.to.s, b.contentSid.s, TemplateVariables(b.contentVariables).value))
      else None
  }

  /** Without a valid `to` no request is selected, whatever else the body holds. */
  lemma InvalidToRejected(body: SendBody)
    requires !ValidTo(body.to)
    ensures SelectRequest(Some(body)).None?
  {
  }

  /** The `contentVariables` text sent to the provider: a string as it is, a
      record through `stringify` (standing for `JSON.stringify`). */
  function ContentVariablesJson(cv: ContentVariables, stringify: Dict -> string): (r: string)
    ensures cv.Verbatim? ==> r == cv.json
    ensures cv.Record? ==> r == stringify(cv.entries)
  {
    match cv
    case Verbatim(json) => json
    case Record(entries) => stringify(entries)
  }

  const WhatsAppPrefix: string := "whatsapp:"

  /** The last (at most) four characters of `s`: `s.slice(-4)`. */
  function LastFour(s: string): (r: string)
    ensures |r| == if |s| < 4 then |s| else 4
    ensures r == s[|s| - |r|..]
  {
    if |s| < 4 then s else s[|s| - 4..]
  }

  /** `maskPhone`: the empty string stays empty; otherwise the `whatsapp:`
      prefix when present, three stars, and the last four characters after the
      prefix. */
  function MaskPhone(v: string): (r: string)
    ensures v == "" ==> r == ""
    ensures v != "" ==>
              var hasPrefix := StartsWith(v, WhatsAppPrefix);
              var rest := if hasPrefix then v[|WhatsAppPrefix|..] else v;
              r == (if hasPrefix then WhatsAppPrefix else "") + "***" + LastFour(rest)
  {
    if v == "" then v
    else
      var withoutPrefix := if StartsWith(v, WhatsAppPrefix) then v[|WhatsAppPrefix|..] else v;
      var last4 := LastFour(withoutPrefix);
      (if StartsWith(v, WhatsAppPrefix) then WhatsAppPrefix else "") + "***" + last4
  }

  /** A masked number reveals at most four characters of the input, all taken
      from its end, and keeps the `whatsapp:` prefix exactly when the input has it. */
  lemma MaskPhoneRevealsLastFour(v: string)
    requires v != ""
    ensures var r := MaskPhone(v);
            StartsWith(r, WhatsAppPrefix) <==> StartsWith(v, WhatsAppPrefix)
    ensures var r := MaskPhone(v);
            var k := |r| - |(if StartsWith(v, WhatsAppPrefix) then WhatsAppPrefix else "") + "***"|;
            && 0 <= k <= 4 && k <= |v|
            && r[|r| - k..] == v[|v| - k..]
  {
    var hasPrefix := StartsWith(v, WhatsAppPrefix);
    var rest := if hasPrefix then v[|WhatsAppPrefix|..] else v;
    var r := MaskPhone(v);
    var head := (if hasPrefix then WhatsAppPrefix else "") + "***";
    assert r == head + LastFour(rest);
    assert r[|head|..] == LastFour(rest);
    if !hasPrefix {
      assert !StartsWith(r, WhatsAppPrefix) by {
        if |r| >= |WhatsAppPrefix| {
          assert r[..|WhatsAppPrefix|][0] == '*' != WhatsAppPrefix[0];
        }
      }
    }
    assert rest[|rest| - |LastFour(rest)|..] == v[|v| - |LastFour(rest)|..];
  }

  /** The call made to the provider. */
  datatype ProviderCall = ProviderCall(from: string, to: string, body: Option<string>,
                                       contentSid: Option<string>, contentVariables: Option<string>)

  datatype ProviderResult = Sent(sid: string) | ProviderError(code: Option<string>, message: Option<string>)

  datatype SendResponse =
    | SendOk(sid: string)
    | SendFail(status: nat, code: Option<string>, message: Option<string>)

  /** The provider call a selected request makes. */
  function CallFor(from: string, req: SendRequest, stringify: Dict -> string): (c: ProviderCall)
    ensures c.from == from && c.to == req.to
    ensures req.TextMessage? ==> c.body == Some(req.body) && c.contentSid.None? && c.contentVariables.None?
    ensures req.TemplateMessage? ==>
              c.body.None? && c.contentSid == Some(req.contentSid)
              && c.contentVariables == Some(ContentVariablesJson(req.contentVariables, stringify))
  {
    match req
    case TextMessage(to, body) => ProviderCall(from, to, Some(body), None, None)
    case TemplateMessage(to, contentSid, cv) =>
      ProviderCall(from, to, None, Some(contentSid), Some(ContentVariablesJson(cv, stringify)))
  }

  /** The handler: 500 when the provider client or the sender number is not
      configured, before the body is looked at; 400 for a body no variant
      accepts; otherwise one provider call, answered with its message id or
      with 502 carrying only the provider's error code and message. */
  function HandleSend(clientConfigured: bool, from: Option<string>, body: Option<SendBody>,
                      stringify: Dict -> string, provider: ProviderCall -> ProviderResult)
    : (out: (SendResponse, Option<ProviderCall>))
    ensures !clientConfigured || !Truthy(from) ==> out == (SendFail(500, None, None), None)
    ensures clientConfigured && Truthy(from) && SelectRequest(body).None? ==> out == (SendFail(400, None, None), None)
    ensures clientConfigured && Truthy(from) && SelectRequest(body).Some? ==>
              var call := CallFor(from.value, SelectRequest(body).value, stringify);
              && out.1 == Some(call)
              && (provider(call).Sent? ==> out.0 == SendOk(provider(call).sid))
              && (provider(call).ProviderError? ==> out.0 == SendFail(502, provider(call).code, provider(call).message))
    ensures out.1.Some? <==> out.0.SendOk? || out.0.status == 502
  {
    if !clientConfigured || !Truthy(from) then (SendFail(500, None, None), None)
    else
      match SelectRequest(body)
      case None => (SendFail(400, None, None), None)
      case Some(req) =>
        var call := CallFor(from.value, req, stringify);
        match provider(call)
        case Sent(sid) => (SendOk(sid), Some(call))
        case ProviderError(code, message) => (SendFail(502, code, message), Some(call))
  }
}
