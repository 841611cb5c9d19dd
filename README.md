# WhatsApp relay and site helpers of a dental-clinic website, in Dafny

This project models the server-side WhatsApp relay of a Nuxt dental-clinic
site and the deterministic helpers around it. It proves properties of that
model. The modelled parts are:

- the in-memory registry of live-update WebSocket peers, with the broadcast
  that fans one `whatsapp:incoming` event out to them;
- the WebSocket lifecycle handler (`open`, `message`, `close`, `error`);
- the inbound Twilio webhook: auth-token gate, form parsing, public URL
  reconstruction, signature gate, field extraction and the TwiML
  acknowledgement;
- the visible part of Twilio's request signature (the signing string), and
  the development endpoint that builds, signs and posts a synthetic webhook
  request;
- the lead endpoint, with its per-IP fixed-window rate limiter over a
  process-wide map;
- the SEO head builder, the contact-link helpers, the WhatsApp booking
  message and service lists of the Arabic copy;
- the browser-side WebSocket composable and the outbound send endpoint.

One Dafny module per source file:

| file | module | source |
|---|---|---|
| `text.dfy` | `Text` | JavaScript string primitives shared by all (`trim`, `\s`, `\d`, `\w`, `join`, default `sort` order) |
| `http.dfy` | `Http` | string dictionaries with object / `URLSearchParams.set` semantics, request URLs |
| `peer_registry.dfy` | `PeerRegistry` | `server/utils/whatsappIncomingWs.ts` |
| `incoming_ws.dfy` | `IncomingWs` | `server/api/whatsapp/incoming.ws.ts` |
| `twilio_signature.dfy` | `TwilioSignature` | `computeTwilioSignature` and `twilio.validateRequest` |
| `incoming_webhook.dfy` | `IncomingWebhook` | `server/api/whatsapp/incoming.post.ts` |
| `test_incoming.dfy` | `TestIncoming` | `server/api/whatsapp/test-incoming.post.ts` |
| `lead.dfy` | `Lead` | `server/api/lead.post.ts` |
| `seo.dfy` | `Seo` | `app/utils/seo.ts` |
| `client_links.dfy` | `ClientLinks` | `app/client.ts` |
| `content.dfy` | `Content` | `app/content/ar.ts` |
| `ws_client.dfy` | `WsClient` | `composables/useWhatsAppIncomingWs.ts` |
| `send.dfy` | `Send` | `server/api/whatsapp/send.post.ts` |

State the source changes in place is modelled as classes:

- `PeerRegistry.Relay` holds the peer set and a log of accepted frames.
- `Lead.RateLimiter` holds the rate-limit map.
- `WsClient.Client` holds the composable's refs and its socket.

Loops of the source are methods with loop invariants: the broadcast, form
parsing, form building and cleanup. Each is proved against a specification
function. The booking-message builder appends its lines one by one and is a
method proved against the function that lists them. Everything else is functions and
lemmas.

Opaque collaborators are parameters:

- HMAC-SHA1 followed by Base64 is `digest`.
- `URLSearchParams` decoding is `decode`.
- `encodeURIComponent` and form encoding are `encode` and `formEncode`.
- `JSON.parse` is `decode`, and `JSON.stringify` of a record is `stringify`.
- `new URL(path, base)` is `resolve`.
- The provider call is `provider`.
- Whether a peer's `send` throws is `fails`.
- Clocks (`now`, `at`, `timestamp`) are plain values.

The relay's `JSON.stringify` of a server message is kept symbolic as
`Wire.Json(msg)`: equal messages give equal text.

## Model

| member | source | states |
|---|---|---|
| PeerRegistry.Relay.Register | server/utils/whatsappIncomingWs.ts:37-39 | the peer is a member afterwards; re-registering a member leaves the set and its size unchanged |
| PeerRegistry.Relay.Unregister | server/utils/whatsappIncomingWs.ts:41-43 | the peer is not a member afterwards; removing a non-member is a no-op; no other peer's membership changes |
| PeerRegistry.Relay.Count | server/utils/whatsappIncomingWs.ts:45-47 | the count is the number of distinct registered peers |
| PeerRegistry.BuildEvent | server/utils/whatsappIncomingWs.ts:56-65 | the event carries type `whatsapp:incoming`, the payload's receive time when given and the current time otherwise, and every other payload field unchanged |
| PeerRegistry.Relay.Broadcast | server/utils/whatsappIncomingWs.ts:67-77 | every registered peer is tried exactly once with one and the same wire value; afterwards the peers are exactly the old ones whose send did not throw; the log gains exactly the successful deliveries |
| PeerRegistry.DeliveriesExact | server/utils/whatsappIncomingWs.ts:69-77 | each frame carries the one wire value and goes to a tried peer whose send did not throw, and every such peer gets a frame, so one failure does not stop the others |
| PeerRegistry.DeliveriesOncePerPeer | server/utils/whatsappIncomingWs.ts:69-77 | no peer receives the event twice, and there are no more frames than peers |
| PeerRegistry.DeliveriesNoFailure | server/utils/whatsappIncomingWs.ts:69-77 | without failures every tried peer receives the event, in order; with no peers there are no sends |
| IncomingWs.Open | server/api/whatsapp/incoming.ws.ts:23-40 | the peer is registered before counting, so the hello reports the new size, which is at least 1; exactly one `whatsapp:ws:open` hello is sent, to the opening peer |
| IncomingWs.Message | server/api/whatsapp/incoming.ws.ts:42-52 | the text `ping` gets exactly one `pong` to the same peer; any other text or an undecodable frame sends nothing; membership never changes |
| IncomingWs.Close | server/api/whatsapp/incoming.ws.ts:54-57 | the peer is unregistered unconditionally |
| IncomingWs.Error | server/api/whatsapp/incoming.ws.ts:59-65 | the peer is unregistered unconditionally |
| IncomingWs.HelloThenIncoming | server/api/whatsapp/incoming.ws.ts:23-40 | a peer that connects before a broadcast receives the hello with count 1, then the event |
| IncomingWs.OneOfTwoClosed | server/api/whatsapp/incoming.ws.ts:54-57 | after two opens and one close, only the remaining peer receives the broadcast event |
| Http.Get | server/api/whatsapp/incoming.post.ts:72-75 | a key reads a value exactly when some entry has that key, and the value read is that entry's |
| Http.Put | server/api/whatsapp/incoming.post.ts:28 | assigning an existing key keeps the length and the order of keys; a new key is appended |
| Http.PutGet | server/api/whatsapp/incoming.post.ts:28 | after `d[k] = v`, `k` reads `v` and every other key reads what it read before |
| Http.LastValueIsLast | server/api/whatsapp/incoming.post.ts:26-29 | the reference value of a repeated key is that of its last occurrence, and there is none exactly when the key never occurs |
| Http.LastValueAbsent | server/api/whatsapp/incoming.post.ts:26-29 | no value is found exactly when no entry has the key |
| Http.LastValueWitness | server/api/whatsapp/incoming.post.ts:26-29 | the value found is that of an entry with the key that no later entry overrides |
| Http.FormObjectSnoc | server/api/whatsapp/incoming.post.ts:28 | filling one more entry is one more assignment |
| Http.FormObjectLastWins | server/api/whatsapp/incoming.post.ts:26-29 | the filled object has distinct keys and every key reads the value of its last occurrence |
| Http.LastValueAppend | server/api/whatsapp/test-incoming.post.ts:70-75 | in a concatenation, a key of the second part takes its value from there |
| Http.FormObjectOfDistinct | server/api/whatsapp/test-incoming.post.ts:78-79 | copying entries with distinct keys into an object gives the same entries |
| IncomingWebhook.ParseForm | server/api/whatsapp/incoming.post.ts:25-30 | the loop yields the filled object: distinct keys, each reading the value of its last occurrence |
| IncomingWebhook.PublicWebhookUrl | server/api/whatsapp/incoming.post.ts:32-44 | a non-empty forwarded proto replaces the scheme and a non-empty forwarded host the host, each on its own; path and query are kept |
| IncomingWebhook.MessageSid | server/api/whatsapp/incoming.post.ts:75 | the first of `MessageSid`, `SmsMessageSid`, `SmsSid` that is present, even if empty, otherwise the empty string |
| IncomingWebhook.EmptyMessageSidWins | server/api/whatsapp/incoming.post.ts:75 | an empty `MessageSid` wins over a non-empty fallback |
| IncomingWebhook.Extract | server/api/whatsapp/incoming.post.ts:72-75 | missing `Body`, `From`, `To` read as the empty string; present ones are copied |
| IncomingWebhook.HandleIncoming | server/api/whatsapp/incoming.post.ts:46-88 | 500 exactly when there is no auth token, before anything else; with a token, 403 exactly when the signature over the public URL and the parsed body does not match (header and body read as empty when missing), and a matching signature is always acknowledged with the fixed empty TwiML as `text/xml; charset=utf-8` and the extracted fields |
| TwilioSignature.Insert | server/api/whatsapp/test-incoming.post.ts:40 | inserting an entry adds exactly that entry to the multiset |
| TwilioSignature.InsertSorted | server/api/whatsapp/test-incoming.post.ts:40 | insertion keeps a name-sorted list sorted |
| TwilioSignature.SortByKey | server/api/whatsapp/test-incoming.post.ts:40 | the sorted parameters are a permutation of the input, in strictly ascending name order when names are distinct |
| TwilioSignature.SortedUnique | server/api/whatsapp/test-incoming.post.ts:40 | two sorted permutations of the same parameters are equal |
| TwilioSignature.SigningString | server/api/whatsapp/test-incoming.post.ts:40 | the signing string starts with the URL, and equals it when there are no parameters |
| TwilioSignature.SigningStringOrderIndependent | server/api/whatsapp/test-incoming.post.ts:40 | the signing string does not depend on the order in which parameters were inserted |
| TwilioSignature.SigningStringOfSorted | server/api/whatsapp/test-incoming.post.ts:40 | with distinct names, the signing string is the URL followed by each name and its value, in ascending name order |
| TestIncoming.BuildForm | server/api/whatsapp/test-incoming.post.ts:67-79 | the form is `From`, `To`, `Body` then the extra entries, with an extra field overriding a base field of the same name; keys are distinct |
| TestIncoming.SetEntries | server/api/whatsapp/test-incoming.post.ts:75 | setting every extra entry on the base form gives the form filled from the base entries followed by the extra ones |
| TestIncoming.CopyEntries | server/api/whatsapp/test-incoming.post.ts:78-79 | copying a form with distinct keys into an object keeps its entries and their order |
| TestIncoming.ExtraOverrides | server/api/whatsapp/test-incoming.post.ts:70-75 | a key set by `extra` reads its extra value, any other key its base value |
| TestIncoming.TargetUrl | server/api/whatsapp/test-incoming.post.ts:63-65 | the target keeps the request's scheme and host, takes `targetPath` as path and has no query |
| TestIncoming.HandleTestIncoming | server/api/whatsapp/test-incoming.post.ts:44-81 | production gives 404 first; a body the strict schema refuses (unknown key, wrong type) gives 400; no token gives 500; otherwise the defaults, the target URL and the signature over the built form |
| TestIncoming.PreparedRequestIsValid | server/api/whatsapp/test-incoming.post.ts:81 | a prepared request passes the inbound webhook's signature check when the webhook sees the same token, URL and form entries |
| Lead.CeilDiv | server/api/lead.post.ts:55 | the result is the least integer whose multiple of the divisor reaches the dividend |
| Lead.RetryAfterSeconds | server/api/lead.post.ts:55 | the delay is at least one second, waiting it reaches the reset time, and one second less would not unless it is 1 |
| Lead.Consume | server/api/lead.post.ts:41-60 | a new key or an ended window restarts with count 1, reset in 600000 ms and remaining 9; a full window refuses with remaining 0, an unchanged count and a positive retry delay; otherwise the count goes up by one and remaining is `max(0, 10 - count)`; every call records `now` as last seen |
| Lead.ConsumeKeepsCountBounded | server/api/lead.post.ts:54-60 | a stored count stays between 1 and 10 |
| Lead.Unexpired | server/api/lead.post.ts:32-34 | exactly the entries whose window has not ended are kept, unchanged |
| Lead.CleanupInvisible | server/api/lead.post.ts:29-42 | cleanup never changes what a call decides or stores |
| Lead.StepFrame | server/api/lead.post.ts:37-61 | a call writes only its own key and sets its last-seen time; any other key is kept or, above 5000 entries, dropped only when expired |
| Lead.CallsWithinWindow | server/api/lead.post.ts:54-60 | within an open window, the calls still allowed are at most what the window has left |
| Lead.AtMostTenPerWindow | server/api/lead.post.ts:42-60 | the call that opens a window and all calls of the same key before it ends are allowed at most 10 times |
| Lead.OthersAllowNone | server/api/lead.post.ts:37-61 | calls of other keys never count as allowed calls of a key |
| Lead.InterleavedWithinWindow | server/api/lead.post.ts:29-61 | with calls of every key interleaved in time order, a key's open window allows at most what it has left |
| Lead.AtMostTenPerWindowInterleaved | server/api/lead.post.ts:29-61 | the per-IP limit with other IPs' calls in between, cleanups included: the call opening a window and the same key's later calls inside it are allowed at most 10 times |
| Lead.RateLimiter.Cleanup | server/api/lead.post.ts:29-35 | nothing happens at or below 5000 entries; above, exactly the ended windows are deleted |
| Lead.RateLimiter.CheckAndConsume | server/api/lead.post.ts:37-61 | the decision and the new store are those of cleanup followed by one call |
| Lead.Required | server/api/lead.post.ts:14-18 | a required field is a string whose trimmed length is within bounds, and the trimmed value is kept |
| Lead.ParseLead | server/api/lead.post.ts:13-21 | a body is accepted exactly when every required field passes its trimmed length check, `message` is absent or passes, and `hp` is absent or a string; the accepted fields are the trimmed inputs, with `message` and `hp` defaulting to empty and `hp` kept untrimmed |
| Lead.IpKey | server/api/lead.post.ts:89-90 | a missing or empty address becomes `unknown`; any other is kept |
| Lead.HandleLead | server/api/lead.post.ts:63-143 | 400 first; a non-blank honeypot answers ok without touching the store or forwarding; then 429 with the retry delay, then 500 without a webhook URL, then the forward with 502 on failure |
| Seo.NormalizePath | app/utils/seo.ts:47-52 | the result starts with `/`; a path that trims to empty (exactly the all-whitespace paths, by `Text.TrimEmptyIffBlank`) gives `/`; otherwise the trimmed path when it already starts with `/`, and `/` followed by it when not |
| Seo.PrependSlashTrimmed | app/utils/seo.ts:51 | prefixing `/` to a trimmed path keeps it trimmed |
| Seo.NormalizePathIdempotent | app/utils/seo.ts:47-52 | normalising twice is normalising once |
| Seo.TokenAt | app/utils/seo.ts:68 | a placeholder match is `{`, one or more word characters, `}` |
| Seo.TokenThenRest | app/utils/seo.ts:67-71 | a placeholder is replaced by its value, or kept verbatim when unknown, and the value is not scanned again |
| Seo.ApplyTokensNoBrace | app/utils/seo.ts:67-71 | text without `{` is unchanged |
| Seo.ApplyTokensNoVars | app/utils/seo.ts:67-71 | with no variables, every placeholder stays and the text is unchanged |
| Seo.BuildTitle | app/utils/seo.ts:73-84 | a blank page title selects the fallback title, any other the title template, both with the trimmed page title as a variable |
| Seo.FirstOf | app/utils/seo.ts:89-91 | nullish precedence: the first present value, else the default |
| Seo.CanonicalUrl | app/utils/seo.ts:54-65 | no canonical URL without a site URL; with one, the normalised path resolved against it, or none when resolving fails |
| Seo.CanonicalOfNormalized | app/utils/seo.ts:54-65 | a path and its normalised form give the same canonical URL |
| Seo.NormalizedIsTrimmed | app/utils/seo.ts:47-52 | a normalised path has no whitespace at either end |
| Seo.NormalizeFixed | app/utils/seo.ts:47-52 | a trimmed path starting with `/` is returned unchanged |
| Seo.MetaTags | app/utils/seo.ts:108-121 | exactly 8 entries; both title entries carry the title and all three description entries the description; entries 1 to 4 are properties |
| Seo.BuildMeta | app/utils/seo.ts:86-124 | explicit input over page configuration over site default for title, description, path and `ogType` (default `website`); locale and card default to `ar_AR` and `summary_large_image` |
| Seo.CanonicalAtMostOne | app/utils/seo.ts:122 | at most one canonical link, and none without a site URL |
| Seo.DescriptionTrimmed | app/utils/seo.ts:100 | the description entries neither start nor end with whitespace |
| ClientLinks.FormatClientAddress | app/client.ts:49-52 | line, city and country joined by `، ` |
| ClientLinks.ToWaMePhone | app/client.ts:57-59 | the result has digits only |
| ClientLinks.DigitsAppend | app/client.ts:58 | the filter distributes over concatenation, so every digit is kept in order and nothing else |
| ClientLinks.ToWaMePhoneIdempotent | app/client.ts:58 | converting twice is converting once |
| ClientLinks.BuildWhatsAppLink | app/client.ts:61-65 | without text (absent or empty) the bare `https://wa.me/` link with the digits; otherwise the encoded text after `?text=` |
| ClientLinks.BuildTelLink | app/client.ts:67-70 | `tel:` then the phone with all whitespace removed |
| ClientLinks.RemoveSpacesAppend | app/client.ts:68 | whitespace removal distributes over concatenation |
| ClientLinks.RemoveSpacesOfClean | app/client.ts:68 | a number without whitespace is unchanged |
| ClientLinks.MailtoParams | app/client.ts:73-75 | `subject` then `body`, each only when non-empty |
| ClientLinks.BuildMailtoLink | app/client.ts:72-79 | the bare `mailto:` link exactly when subject and body are both absent or empty, otherwise with the serialised query |
| ClientLinks.MailtoSubjectFirst | app/client.ts:72-79 | with both, the subject pair comes before the body pair |
| ClientLinks.BuildMapsLink | app/client.ts:81-83 | the URL is returned unchanged |
| Content.When | app/content/ar.ts:356 | the non-empty of date and time label, joined by ` - `, date first |
| Content.WhatsappPrefill | app/content/ar.ts:343-364 | the pushed lines, joined by newlines, are the specified message lines |
| Content.PrefillShape | app/content/ar.ts:351-363 | the message opens with the greeting and the booking line, ends with `شكرًا!`, and has one extra line for each non-empty field group |
| Content.PrefillAllEmpty | app/content/ar.ts:351-363 | with every field empty the message is exactly three lines |
| Content.ServiceOptions | app/content/ar.ts:291-295 | one option per service, in order, with value and label equal to the service |
| Content.FirstFive | app/content/ar.ts:180 | the first five services, or all of them when fewer |
| Content.ServicesSeoDescription | app/content/ar.ts:180 | the description lists the first five services at most, joined by `، ` |
| Content.ServicesBeyondFiveIgnored | app/content/ar.ts:180 | services past the fifth never change the description |
| WsClient.DefaultWsUrl | composables/useWhatsAppIncomingWs.ts:42-47 | `wss:` for an `https:` page, `ws:` otherwise |
| WsClient.SliceEnd | composables/useWhatsAppIncomingWs.ts:73 | `slice(0, end)` keeps `end` elements at most, counting a negative end from the back |
| WsClient.PushedNewestFirst | composables/useWhatsAppIncomingWs.ts:70-74 | the new event is first, at most the bound are kept, and the rest are a prefix of the previous list in order |
| WsClient.PushedIsPrefix | composables/useWhatsAppIncomingWs.ts:73 | whatever the bound, what is kept is a prefix of the new list |
| WsClient.PushesStayBounded | composables/useWhatsAppIncomingWs.ts:70-74 | repeated pushes never exceed the bound |
| WsClient.Classify | composables/useWhatsAppIncomingWs.ts:95-103 | given that the empty text never decodes (`JSON.parse('')` throws), a non-string frame is always `unknown` with empty raw text; a string frame is the decoded value when it decodes and `unknown` with its raw text when not |
| WsClient.Client.PushIncoming | composables/useWhatsAppIncomingWs.ts:72-74 | the list becomes the bounded newest-first push, with the bound defaulting to 50; nothing else changes |
| WsClient.Client.Connect | composables/useWhatsAppIncomingWs.ts:76-87 | a no-op outside the browser or while the socket is open or connecting; otherwise error cleared, status `connecting`, attempt counter up by one and a new socket on the configured or default URL; when the socket constructor throws, the error propagates after those updates and the old socket reference stays |
| WsClient.Client.OnOpen | composables/useWhatsAppIncomingWs.ts:89-92 | status becomes `open` |
| WsClient.Client.OnMessage | composables/useWhatsAppIncomingWs.ts:94-110 | every frame becomes the last message; only type `whatsapp:incoming` is pushed; a non-string frame leaves `{type: 'unknown', raw: ''}` and an unchanged list |
| WsClient.Client.OnError | composables/useWhatsAppIncomingWs.ts:112-116 | status becomes `error` and the error is kept |
| WsClient.Client.OnClose | composables/useWhatsAppIncomingWs.ts:118-127 | status becomes `closed` |
| WsClient.Client.Disconnect | composables/useWhatsAppIncomingWs.ts:130-138 | without a socket nothing happens; otherwise `close` is called and the socket is dropped even when `close` throws |
| WsClient.Client.SendPing | composables/useWhatsAppIncomingWs.ts:140-143 | `ping` is sent only on an open socket |
| WsClient.Client.Mount | composables/useWhatsAppIncomingWs.ts:145-147 | `connect` exactly when `autoConnect` is not false, with its whole effect; otherwise nothing changes |
| WsClient.Client.Unmount | composables/useWhatsAppIncomingWs.ts:149-151 | `disconnect` with code 1000 and reason `component unmounted`, with its whole effect: the socket is closed and dropped, a throwing `close` propagates, and nothing else changes |
| WsClient.ConnectReceiveReconnect | composables/useWhatsAppIncomingWs.ts:76-128 | connect, open and one event leave that event alone in the list; a second connect on an open socket changes nothing |
| Send.TemplateVariables | server/api/whatsapp/send.post.ts:18-21 | absent is `'{}'`; a non-empty string is accepted verbatim and a string record as that record; anything else is refused |
| Send.SelectRequest | server/api/whatsapp/send.post.ts:4-24 | a valid `to` (non-empty, `whatsapp:` prefix) is required; a non-empty `body` selects the text variant first; otherwise a non-empty `contentSid` and valid variables select the template variant, carrying the `contentSid` and the accepted variables; the text variant carries the given `body` |
| Send.InvalidToRejected | server/api/whatsapp/send.post.ts:4-7 | without a valid `to` nothing is selected |
| Send.ContentVariablesJson | server/api/whatsapp/send.post.ts:82-84 | a string is sent verbatim, a record serialised |
| Send.LastFour | server/api/whatsapp/send.post.ts:49 | the last four characters, or all when fewer |
| Send.MaskPhone | server/api/whatsapp/send.post.ts:45-51 | empty stays empty; otherwise the prefix when present, `***`, and the last four characters after the prefix |
| Send.MaskPhoneRevealsLastFour | server/api/whatsapp/send.post.ts:45-51 | the prefix is kept exactly when present, and at most four characters of the input, all from its end, are revealed |
| Send.CallFor | server/api/whatsapp/send.post.ts:60-106 | the text variant sends `from`, `to`, `body`; the template variant sends `from`, `to`, `contentSid` and the serialised variables |
| Send.HandleSend | server/api/whatsapp/send.post.ts:26-126 | 500 when client or sender is missing, before the body; then 400; otherwise one provider call answered with its id, or 502 carrying only code and message |
| Text.TrimStart | app/utils/seo.ts:48 | the result is a suffix of the input that does not start with whitespace, and only whitespace was removed |
| Text.TrimEnd | app/utils/seo.ts:48 | the result is a prefix of the input that does not end with whitespace, and only whitespace was removed |
| Text.TrimFixed | app/utils/seo.ts:48 | a string with no whitespace at either end is its own trim |
| Text.Digits | app/client.ts:58 | removing every non-digit keeps digits only and never lengthens the string |
| Text.RemoveSpaces | app/client.ts:68 | removing whitespace runs leaves no whitespace and never lengthens the string |
| Text.BelowIrreflexive | server/api/whatsapp/test-incoming.post.ts:40 | no string sorts before itself |
| Text.BelowAsymmetric | server/api/whatsapp/test-incoming.post.ts:40 | two strings never sort before each other |
| Http.PutDistinct | server/api/whatsapp/incoming.post.ts:28 | assigning a key keeps the keys distinct |
| PeerRegistry.Relay.Send | server/utils/whatsappIncomingWs.ts:72 | a send that does not throw appends exactly one frame for that peer and leaves the peers unchanged |
| TestIncoming.BaseFormObject | server/api/whatsapp/test-incoming.post.ts:67-72 | setting `From`, `To`, `Body` on an empty form gives those three entries in that order, and filling an object from them changes nothing |
| Seo.WordPrefixLen | app/utils/seo.ts:68 | the length of the longest run of word characters at the start |
| Seo.WordPrefixExact | app/utils/seo.ts:68 | a placeholder name is matched up to its closing brace and no further |
| ClientLinks.DigitsOfOne | app/client.ts:58 | one character is kept exactly when it is a digit |
| ClientLinks.DigitsOfDigits | app/client.ts:58 | a string of digits is unchanged by the filter |
| ClientLinks.SerializeParams | app/client.ts:77 | the query is empty exactly when there are no parameters |
| Content.LineIf | app/content/ar.ts:354-361 | a labelled line exactly when the value is present and non-empty |
| Text.TrimTrimmed | app/utils/seo.ts:48 | the trimmed string has no whitespace at either end |
| Text.TrimTwice | server/api/lead.post.ts:14-18 | trimming twice is trimming once |
| Text.TrimShape | app/utils/seo.ts:48 | the trimmed string sits inside the input with only whitespace around it and no whitespace at its ends |
| Text.TrimEmptyIffBlank | app/utils/seo.ts:48-49 | trimming gives the empty string exactly for all-whitespace input |
| Text.JoinEnds | app/content/ar.ts:363 | joining keeps the first part as a prefix and the last as a suffix |
| Text.BelowTransitive | server/api/whatsapp/test-incoming.post.ts:40 | the default sort order on strings is transitive |
| Text.BelowTotal | server/api/whatsapp/test-incoming.post.ts:40 | any two different strings are ordered one way or the other |
| Seo.ApplyTokens | app/utils/seo.ts:67-71 | `applyTokens`; characterised by `Seo.TokenThenRest`, `Seo.ApplyTokensNoBrace` and `Seo.ApplyTokensNoVars` |
| TwilioSignature.Signature | server/api/whatsapp/test-incoming.post.ts:39-42 | `computeTwilioSignature`: the keyed digest of the signing string; the signing string is characterised by `TwilioSignature.SigningStringOfSorted` and `TwilioSignature.SigningStringOrderIndependent` |
| TwilioSignature.ValidRequest | server/api/whatsapp/incoming.post.ts:55 | `validateRequest` as "recomputed signature equals the header"; `TestIncoming.PreparedRequestIsValid` proves that a prepared request satisfies it |
| Lead.Step | server/api/lead.post.ts:37-61 | one `checkAndConsumeRateLimit` on the store; characterised by `Lead.CleanupInvisible`, `Lead.StepFrame` and `Lead.AtMostTenPerWindowInterleaved` |
| Lead.Cleaned | server/api/lead.post.ts:29-35 | cleanup only deletes, never changes a kept entry, and keeps every entry at or below 5000 entries and every unexpired one above |
| Lead.Honeypot | server/api/lead.post.ts:79 | `hp` trimmed is non-empty; `Lead.HandleLead` states its effect: ok, with no store change and no forward |
| WsClient.Pushed | composables/useWhatsAppIncomingWs.ts:73 | `[evt, ...list].slice(0, max)`; characterised by `WsClient.PushedNewestFirst`, `WsClient.PushedIsPrefix` and `WsClient.PushesStayBounded` |
| Http.FormObject | server/api/whatsapp/incoming.post.ts:26-29 | the object filled by assigning each entry in turn; `Http.FormObjectLastWins` ties it to `Http.LastValue` |
| Http.LastValue | server/api/whatsapp/incoming.post.ts:26-29 | the independent reference: the value of the last entry with the key; characterised by `Http.LastValueIsLast`, `Http.LastValueAbsent` and `Http.LastValueWitness` |
| Content.PrefillLines | app/content/ar.ts:351-363 | the message lines `whatsappPrefill` pushes; characterised by `Content.PrefillShape` and `Content.PrefillAllEmpty` |
| TestIncoming.SchemaAccepts | server/api/whatsapp/test-incoming.post.ts:6-31 | the strict schema: an object with no unknown key, each field absent or of its type; outside production `TestIncoming.HandleTestIncoming` answers 400 exactly when it fails |

## Left out

- HMAC-SHA1 (RFC 2104), Base64 (section 4 of RFC 4648), `twilio.validateRequest` and its constant-time comparison: these are library code, represented by the `digest` parameter. The validator is modelled as "recomputed signature equals the header". The library's extra attempts (with and without the port, or with a `bodySHA256` query) are not modelled.
- `URL`, `URLSearchParams` and `encodeURIComponent` rules (section 5 of the WHATWG URL Standard) are parameters or are simplified:
  - A URL is scheme, host, path and query.
  - The `protocol`, `host` and `pathname` setters assign verbatim. They do not validate, normalise or percent-encode.
- `JSON.stringify` and `JSON.parse` are parameters. So are zod's internals: every schema is stated as field-level predicates, and the `flatten()` error details of a 400 are not modelled.
- Strings are sequences of Unicode code points, whereas JavaScript counts UTF-16 code units. Lengths (`min`/`max`, `slice(-4)`) and the sort order differ for characters outside the Basic Multilingual Plane.
- Object keys: keys are modelled in insertion order.
  - Integer-like keys, which JavaScript enumerates first, are not modelled.
  - Neither is a key such as `__proto__`, which writes the prototype instead of an own property.
  - `applyTokens` looks up only own variables, whereas JavaScript would also find inherited properties such as `constructor`.
- Network effects are left out: the test endpoint's `fetch` and its response echo, the lead forward (only the payload and whether it threw are modelled), the provider's `messages.create` (only its result), `readBody`, the response headers (`retry-after` and content types are noted in the results) and all logging.
- Clocks and randomness (`Date.now`, `new Date().toISOString()`, the request id) are parameters or are left out.
- `IncomingWs.Open` and `IncomingWs.Message` assume that sending the hello and the `pong` succeeds. A throwing hello send aborts `open` in the source, and a throwing `pong` is swallowed; neither failure is modelled.
- `PeerRegistry.Relay.Broadcast` tries the peers in an order the model leaves open. A JavaScript `Set` iterates in insertion order.
- Concurrency and multi-instance fan-out are left out: the relay runs on one event loop, so the broadcast is a sequential loop.
- `WsClient.Client`: Vue reactivity is modelled as plain fields. The browser `WebSocket` becomes an identity plus a ready state passed in as a parameter.
  - Events of a socket that `connect` has already replaced still update the same fields. The model does not tie events to a socket.
- `server/utils/useTwilio.ts` is not part of this model beyond its "500 when missing" gates, and neither are `app/site.config.ts` (static copy), `nuxt.config.ts`, the scroll-reveal code of `app/client.ts` and its plugin.
- `buildSeoHead` only forwards its input to `buildMeta` and is not modelled separately.
- `Lead.ParseLead`: zod's `min`/`max` count UTF-16 code units and the schema strips unknown keys. A field of any other JSON type is modelled as one `Other` value.
- `Lead.HandleLead`: the `retry-after` header is returned as `retryAfterSeconds` of the 429 result.
- `WsClient.Client.PushIncoming`: `maxMessages` is an integer. A fractional JavaScript number, which `slice` truncates toward zero, is not modelled.
- `Seo.SiteMeta`: `pages` is a map from page key to configuration. The source's typed keys are modelled as strings.

Notable behaviours of the code:

- The inbound webhook never calls the broadcast. It only acknowledges.
- `messageSid` uses nullish fallback, so a present empty `MessageSid` wins.
- The server's message types are `whatsapp:ws:open` and `whatsapp:incoming`.
- The inbound webhook's 400 branch (`server/api/whatsapp/incoming.post.ts:63-70`) cannot be reached. Every parsed form value is a string and the schema is not strict, so that branch is not modelled.
