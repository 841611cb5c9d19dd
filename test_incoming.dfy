/** The development-only endpoint that signs a synthetic webhook request the
    way Twilio would and posts it to the inbound webhook: production guard,
    strict body schema with defaults, form building, target URL and signature. */
module TestIncoming {
  import opened Text
  import opened Http
  import opened TwilioSignature
  import opened IncomingWebhook

  /** A field of the JSON request body: absent, present with the expected type,
      or present with another type. */
  datatype Field<T> = Missing | Given(value: T) | Mistyped {
    function Or(default: T): T {
      if Given? then value else default
    }
  }

  /** The JSON body; `unknownKeys` holds its top-level keys outside the schema. */
  datatype TestBody = TestBody(
    from: Field<string>,
    to: Field<string>,
    body: Field<string>,
    extra: Field<Dict>,
    targetPath: Field<string>,
    includeResponseBody: Field<bool>,
    unknownKeys: set<string>)

  const DefaultFrom: string := "whatsapp:+972500000000"
  const DefaultTo: string := "whatsapp:+14155238886"
  const DefaultBody: string := "Test message (local webhook test)"
  const DefaultTargetPath: string := "/api/whatsapp/incoming"

  /** The strict schema: an object, no unknown key, every given field well typed. */
  predicate SchemaAccepts(body: Option<TestBody>) {
    && body.Some?
    && var b := body.value;
       && b.unknownKeys == {}
       && !b.from.Mistyped? && !b.to.Mistyped? && !b.body.Mistyped?
       && !b.extra.Mistyped? && !b.targetPath.Mistyped? && !b.includeResponseBody.Mistyped?
  }

  /** The three fields set first, in this order. */
  function BaseFields(from: string, to: string, body: string): seq<(string, string)> {
    [("From", from), ("To", to), ("Body", body)]
  }

  /** The form the handler signs and posts: `From`, `To` and `Body` are set, then
      every `extra` entry, so an extra field overrides a base field of the same
      name; finally the form is copied entry by entry into a plain object. */
  method BuildForm(from: string, to: string, body: string, extra: Dict) returns (paramsObj: Dict)
    ensures paramsObj == FormObject(BaseFields(from, to, body) + extra)
    ensures DistinctKeys(paramsObj)
    ensures forall k :: Get(paramsObj, k) == (if HasKey(extra, k) then LastValue(extra, k) else LastValue(BaseFields(from, to, body), k))
  {
    var form: Dict := Put(Put(Put([], "From", from), "To", to), "Body", body);
    BaseFormObject(from, to, body);
    form := SetEntries(form, BaseFields(from, to, body), extra);
    FormObjectLastWins(BaseFields(from, to, body) + extra);
    paramsObj := CopyEntries(form);
    ExtraOverrides(BaseFields(from, to, body), extra);
  }

  /** `for (const [k, v] of Object.entries(extra)) form.set(k, v)` on a form
      filled from `base`. */
  method SetEntries(form: Dict, base: Dict, extra: Dict) returns (r: Dict)
    requires form == FormObject(base)
    ensures r == FormObject(base + extra)
  {
    r := form;
    assert base + extra[..0] == base;
    var i := 0;
    while i < |extra|
      invariant 0 <= i <= |extra|
      invariant r == FormObject(base + extra[..i])
    {
      SetStep(base, extra, i);
      r := Put(r, extra[i].0, extra[i].1);
      i := i + 1;
    }
    assert base + extra[..i] == base + extra;
  }

  lemma SetStep(base: Dict, extra: Dict, i: nat)
    requires i < |extra|
    ensures FormObject(base + extra[..i + 1]) == Put(FormObject(base + extra[..i]), extra[i].0, extra[i].1)
  {
    assert base + extra[..i + 1] == (base + extra[..i]) + [extra[i]];
    FormObjectSnoc(base + extra[..i], extra[i]);
  }

  /** `for (const [k, v] of form.entries()) paramsObj[k] = v`: with distinct
      keys, the object holds the same entries in the same order. */
  method CopyEntries(form: Dict) returns (obj: Dict)
    requires DistinctKeys(form)
    ensures obj == form
  {
    obj := [];
    var j := 0;
    while j < |form|
      invariant 0 <= j <= |form|
      invariant obj == form[..j]
    {
      assert !HasKey(obj, form[j].0);
      obj := Put(obj, form[j].0, form[j].1);
      assert form[..j + 1] == form[..j] + [form[j]];
      j := j + 1;
    }
    assert form[..j] == form;
  }

  /** Setting `From`, `To` and `Body` on an empty form gives the three base
      fields, in that order, and so does filling an object from them. */
  lemma BaseFormObject(from: string, to: string, body: string)
    ensures Put(Put(Put([], "From", from), "To", to), "Body", body) == BaseFields(from, to, body)
    ensures FormObject(BaseFields(from, to, body)) == BaseFields(from, to, body)
  {
    var f, t, b := ("From", from), ("To", to), ("Body", body);
    assert Put([], "From", from) == [f];
    assert Put([f], "To", to) == [f, t] by { assert [f][1..] == []; }
    assert Put([f, t], "Body", body) == [f, t, b] by { assert [f, t][1..] == [t]; assert [t][1..] == []; }
    FormObjectOfDistinct([f, t, b]);
  }

  /** A key of the second part reads its value there; any other key reads its
      value in the first part. */
  lemma ExtraOverrides(base: seq<(string, string)>, extra: seq<(string, string)>)
    ensures forall k :: LastValue(base + extra, k) == (if HasKey(extra, k) then LastValue(extra, k) else LastValue(base, k))
  {
    forall k ensures LastValue(base + extra, k) == (if HasKey(extra, k) then LastValue(extra, k) else LastValue(base, k)) {
      LastValueAppend(base, extra, k);
      LastValueIsLast(extra, k);
    }
  }

  /** What the handler hands to `fetch`, or the error status it fails with. */
  datatype TestResult =
    | Failed(status: nat)
    | Prepared(url: string, signature: string, form: Dict, includeResponseBody: bool)

  /** The target: the request's own origin, the path replaced by `targetPath`,
      the query cleared. */
  function TargetUrl(requestUrl: Url, targetPath: string): (u: Url)
    ensures u.scheme == requestUrl.scheme && u.host == requestUrl.host
    ensures u.path == targetPath && u.query == ""
  {
    requestUrl.(path := targetPath, query := "")
  }

  /** The handler: 404 in production before anything is read, 400 for a body the
      strict schema refuses, 500 without an auth token, otherwise the signed
      request. `digest` stands for HMAC-SHA1 followed by Base64. */
  method HandleTestIncoming(production: bool, body: Option<TestBody>, authToken: Option<string>,
                            requestUrl: Url, digest: (string, string) -> string)
    returns (res: TestResult)
    ensures production ==> res == Failed(404)
    ensures !production && !SchemaAccepts(body) ==> res == Failed(400)
    ensures !production && SchemaAccepts(body) && !Truthy(authToken) ==> res == Failed(500)
    ensures !production && SchemaAccepts(body) && Truthy(authToken) ==>
              var b := body.value;
              && res.Prepared?
              && res.url == Href(TargetUrl(requestUrl, b.targetPath.Or(DefaultTargetPath)))
              && res.form == FormObject(BaseFields(b.from.Or(DefaultFrom), b.to.Or(DefaultTo), b.body.Or(DefaultBody))
                                        + b.extra.Or([]))
              && res.signature == Signature(digest, authToken.value, res.url, res.form)
              && res.includeResponseBody == b.includeResponseBody.Or(true)
  {
    if production {
      return Failed(404);
    }
    if !SchemaAccepts(body) {
      return Failed(400);
    }
    var b := body.value;
    if !Truthy(authToken) {
      return Failed(500);
    }
    var url := Href(TargetUrl(requestUrl, b.targetPath.Or(DefaultTargetPath)));
    var form := BuildForm(b.from.Or(DefaultFrom), b.to.Or(DefaultTo), b.body.Or(DefaultBody), b.extra.Or([]));
    var signature := Signature(digest, authToken.value, url, form);
    res := Prepared(url, signature, form, b.includeResponseBody.Or(true));
  }

  /** A request this endpoint prepares passes the inbound webhook's signature
      check when the webhook sees the same token, the same public URL and a
      body that decodes to the same entries. */
  lemma PreparedRequestIsValid(authToken: string, res: TestResult, req: WebhookRequest,
                               decode: string -> seq<(string, string)>, digest: (string, string) -> string)
    requires res.Prepared? && DistinctKeys(res.form)
    requires res.signature == Signature(digest, authToken, res.url, res.form)
    requires req.signature == Some(res.signature)
    requires decode(req.rawBody.GetOr("")) == res.form
    requires Href(PublicWebhookUrl(req.url, req.forwardedProto, req.forwardedHost)) == res.url
    ensures ValidRequest(digest, authToken, req.signature.GetOr(""),
                         Href(PublicWebhookUrl(req.url, req.forwardedProto, req.forwardedHost)),
                         ParsedBody(req, decode))
  {
    FormObjectOfDistinct(res.form);
  }
}
