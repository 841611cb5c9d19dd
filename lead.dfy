/** The lead-capture endpoint: a strict field schema, a honeypot, a per-IP
    fixed-window rate limiter over a process-wide map, and the forward of the
    lead to a configured webhook. */
module Lead {
  import opened Text
  import opened Http

  const RateLimitMax: nat := 10
  /** Ten minutes, in milliseconds. */
  const RateLimitWindowMs: nat := 600000
  /** Cleanup only runs above this many stored keys. */
  const CleanupThreshold: nat := 5000

  /** The window of one key: calls counted, when the window ends, last call. */
  datatype Entry = Entry(count: nat, resetAt: int, lastSeen: int)

  /** What `checkAndConsumeRateLimit` returns. */
  datatype Decision = Decision(allowed: bool, retryAfterSeconds: nat, remaining: nat)

  /** `Math.ceil(n / d)` for a positive divisor: the least integer whose
      multiple of `d` reaches `n`. */
  function CeilDiv(n: int, d: int): (q: int)
    requires d > 0
    ensures (q - 1) * d < n <= q * d
  {
    -((-n) / d)
  }

  /** `Math.max(1, Math.ceil((resetAt - now) / 1000))`. */
  function RetryAfterSeconds(resetAt: int, now: int): (r: nat)
    ensures r >= 1
    ensures resetAt - now <= r * 1000
    ensures r == 1 || (r - 1) * 1000 < resetAt - now
  {
    var c := CeilDiv(resetAt - now, 1000);
    if c < 1 then 1 else c
  }

  /** One call for one key, after cleanup: a missing or ended window is
      restarted with this call counted, a full window refuses the call, any
      other window counts it. Every call records `now` as the last one seen. */
  function Consume(e: Option<Entry>, now: int): (o: (Decision, Entry))
    ensures o.1.lastSeen == now
    ensures o.0.allowed <==> e.None? || now >= e.value.resetAt || e.value.count < RateLimitMax
    ensures !o.0.allowed ==>
              && o.1 == e.value.(lastSeen := now)
              && o.0.remaining == 0
              && o.0.retryAfterSeconds == RetryAfterSeconds(e.value.resetAt, now)
              && 0 < e.value.resetAt - now <= o.0.retryAfterSeconds * 1000
    ensures (e.None? || now >= e.value.resetAt) ==> o.1 == Entry(1, now + RateLimitWindowMs, now) && o.0.remaining == RateLimitMax - 1
    ensures o.0.allowed && e.Some? && now < e.value.resetAt ==>
              o.1 == e.value.(count := e.value.count + 1, lastSeen := now)
    ensures o.0.allowed ==> o.0.retryAfterSeconds == 0 && o.0.remaining == if o.1.count <= RateLimitMax then RateLimitMax - o.1.count else 0
  {
    if e.None? || now >= e.value.resetAt then
      (Decision(true, 0, RateLimitMax - 1), Entry(1, now + RateLimitWindowMs, now))
    else if e.value.count >= RateLimitMax then
      (Decision(false, RetryAfterSeconds(e.value.resetAt, now), 0), e.value.(lastSeen := now))
    else
      var next := e.value.(count := e.value.count + 1, lastSeen := now);
      (Decision(true, 0, if RateLimitMax - next.count >= 0 then RateLimitMax - next.count else 0), next)
  }

  /** A stored window count stays between 1 and the maximum. */
  lemma ConsumeKeepsCountBounded(e: Option<Entry>, now: int)
    requires e.Some? ==> e.value.count <= RateLimitMax
    ensures 1 <= Consume(e, now).1.count <= RateLimitMax
    ensures Consume(e, now).0.allowed ==> Consume(e, now).1.count == (if e.None? || now >= e.value.resetAt then 1 else e.value.count + 1)
  {
  }

  function Lookup(store: map<string, Entry>, key: string): Option<Entry> {
    if key in store then Some(store[key]) else None
  }

  /** The entries a cleanup keeps: those whose window has not ended. */
  function Unexpired(store: map<string, Entry>, now: int): (r: map<string, Entry>)
    ensures forall k :: k in r <==> k in store && store[k].resetAt > now
    ensures forall k :: k in r ==> r[k] == store[k]
  {
    map k | k in store && store[k].resetAt > now :: store[k]
  }

  /** `cleanupRateLimitStore`: nothing below the threshold, otherwise every
      ended window is dropped. */
  function Cleaned(store: map<string, Entry>, now: int): (r: map<string, Entry>)
    ensures forall k :: k in r ==> k in store && r[k] == store[k]
    ensures forall k :: k in store && (|store| <= CleanupThreshold || store[k].resetAt > now) ==> k in r
  {
    if |store| <= CleanupThreshold then store else Unexpired(store, now)
  }

  /** Cleanup never changes what a call decides or stores: it only drops
      windows that the call would restart anyway. */
  lemma CleanupInvisible(store: map<string, Entry>, key: string, now: int)
    ensures Consume(Lookup(Cleaned(store, now), key), now) == Consume(Lookup(store, key), now)
  {
    if |store| > CleanupThreshold && key in store && store[key].resetAt <= now {
      assert key !in Cleaned(store, now);
    }
  }

  /** One whole `checkAndConsumeRateLimit(key, now)` on the store. */
  function Step(store: map<string, Entry>, key: string, now: int): (Decision, map<string, Entry>) {
    var cleaned := Cleaned(store, now);
    var o := Consume(Lookup(cleaned, key), now);
    (o.0, cleaned[key := o.1])
  }

  /** A call writes its own key only: every other key keeps its entry, or loses
      it to cleanup, which happens only above the threshold and only to an
      ended window. */
  lemma StepFrame(store: map<string, Entry>, key: string, now: int)
    ensures var s := Step(store, key, now).1;
            && key in s && s[key].lastSeen == now
            && (forall k :: k != key && k in s ==> k in store && s[k] == store[k])
            && (forall k :: k != key && k in store && k !in s ==> |store| > CleanupThreshold && store[k].resetAt <= now)
  {
  }

  /** The number of calls allowed when `key` calls at each of `times` in turn,
      and the store afterwards. */
  function Calls(store: map<string, Entry>, key: string, times: seq<int>): (int, map<string, Entry>)
    decreases |times|
  {
    if times == [] then (0, store)
    else
      var step := Step(store, key, times[0]);
      var rest := Calls(step.1, key, times[1..]);
      ((if step.0.allowed then 1 else 0) + rest.0, rest.1)
  }

  /** Within an open window, the calls still allowed are at most what the
      window has left. */
  lemma {:induction false} CallsWithinWindow(store: map<string, Entry>, key: string, times: seq<int>)
    requires key in store && store[key].count <= RateLimitMax
    requires forall i :: 0 <= i < |times| ==> times[i] < store[key].resetAt
    ensures Calls(store, key, times).0 <= RateLimitMax - store[key].count
  {
    if times != [] {
      var now := times[0];
      CleanupInvisible(store, key, now);
      var step := Step(store, key, now);
      assert step.1[key] == Consume(Lookup(store, key), now).1;
      assert step.1[key].resetAt == store[key].resetAt;
      CallsWithinWindow(step.1, key, times[1..]);
    }
  }

  /** At most ten calls per key per window: the call that opens a window at
      `start` and every later call of that key before `start` plus ten minutes
      are allowed at most ten times in all. */
  lemma AtMostTenPerWindow(store: map<string, Entry>, key: string, start: int, times: seq<int>)
    requires key !in store || store[key].resetAt <= start
    requires forall i :: 0 <= i < |times| ==> times[i] < start + RateLimitWindowMs
    ensures Calls(store, key, [start] + times).0 <= RateLimitMax
  {
    CleanupInvisible(store, key, start);
    var step := Step(store, key, start);
    assert step.0.allowed && step.1[key] == Entry(1, start + RateLimitWindowMs, start);
    CallsWithinWindow(step.1, key, times);
    assert ([start] + times)[1..] == times;
  }

  /** Calls from every IP arriving in turn, as (key, time) pairs: the calls of
      `key` that are allowed, and the store afterwards. */
  function Interleaved(store: map<string, Entry>, calls: seq<(string, int)>, key: string): (int, map<string, Entry>)
    decreases |calls|
  {
    if calls == [] then (0, store)
    else
      var step := Step(store, calls[0].0, calls[0].1);
      var rest := Interleaved(step.1, calls[1..], key);
      ((if calls[0].0 == key && step.0.allowed then 1 else 0) + rest.0, rest.1)
  }

  /** Call times never go backwards. */
  predicate Chronological(calls: seq<(string, int)>) {
    forall i, j :: 0 <= i < j < |calls| ==> calls[i].1 <= calls[j].1
  }

  /** Calls of other keys never allow a call of `key`. */
  lemma {:induction false} OthersAllowNone(store: map<string, Entry>, calls: seq<(string, int)>, key: string)
    requires forall i :: 0 <= i < |calls| ==> calls[i].0 != key
    ensures Interleaved(store, calls, key).0 == 0
    decreases |calls|
  {
    if calls != [] {
      OthersAllowNone(Step(store, calls[0].0, calls[0].1).1, calls[1..], key);
    }
  }

  /** Within an open window of `key`, calls of other keys in between do not
      give `key` more than the window has left. */
  lemma {:induction false} InterleavedWithinWindow(store: map<string, Entry>, calls: seq<(string, int)>, key: string)
    requires key in store && store[key].count <= RateLimitMax
    requires Chronological(calls)
    requires forall i :: 0 <= i < |calls| && calls[i].0 == key ==> calls[i].1 < store[key].resetAt
    ensures Interleaved(store, calls, key).0 <= RateLimitMax - store[key].count
    decreases |calls|
  {
    if calls != [] {
      var k, now := calls[0].0, calls[0].1;
      var step := Step(store, k, now);
      if k == key {
        CleanupInvisible(store, key, now);
        assert step.1[key] == Consume(Lookup(store, key), now).1;
        assert step.1[key].resetAt == store[key].resetAt;
        InterleavedWithinWindow(step.1, calls[1..], key);
      } else {
        StepFrame(store, k, now);
        if key in step.1 {
          assert step.1[key] == store[key];
          InterleavedWithinWindow(step.1, calls[1..], key);
        } else {
          // the window of `key` ended by `now`, so no later call of `key` is left
          assert store[key].resetAt <= now;
          forall i | 0 <= i < |calls[1..]| ensures calls[1..][i].0 != key {
            assert calls[1..][i] == calls[i + 1];
            assert store[key].resetAt <= now <= calls[i + 1].1;
          }
          OthersAllowNone(step.1, calls[1..], key);
        }
      }
    }
  }

  /** The per-IP limit with every other IP's calls interleaved: the call of
      `key` that opens a window at `start` and every later call of `key`
      before the window ends are allowed at most ten times in all. */
  lemma AtMostTenPerWindowInterleaved(store: map<string, Entry>, key: string, start: int, calls: seq<(string, int)>)
    requires key !in store || store[key].resetAt <= start
    requires Chronological(calls)
    requires forall i :: 0 <= i < |calls| && calls[i].0 == key ==> calls[i].1 < start + RateLimitWindowMs
    ensures Interleaved(store, [(key, start)] + calls, key).0 <= RateLimitMax
  {
    CleanupInvisible(store, key, start);
    var step := Step(store, key, start);
    assert step.0.allowed && step.1[key] == Entry(1, start + RateLimitWindowMs, start);
    InterleavedWithinWindow(step.1, calls, key);
    assert ([(key, start)] + calls)[1..] == calls;
  }

  /** The process-wide rate limit store. */
  class RateLimiter {
    var store: map<string, Entry>

    constructor ()
      ensures store == map[]
    {
      store := map[];
    }

    /** `cleanupRateLimitStore(store, now)`: above the threshold, visit every key
        and delete it when its window has ended. */
    method Cleanup(now: int)
      modifies this
      ensures store == Cleaned(old(store), now)
    {
      if |store| <= CleanupThreshold {
        return;
      }
      var keys := store.Keys;
      while keys != {}
        invariant keys <= old(store).Keys
        invariant forall k :: k in store <==> k in old(store) && (k in keys || old(store)[k].resetAt > now)
        invariant forall k :: k in store ==> store[k] == old(store)[k]
        decreases keys
      {
        var k :| k in keys;
        if store[k].resetAt <= now {
          store := store - {k};
        }
        keys := keys - {k};
      }
      assert store == Unexpired(old(store), now);
    }

    /** `checkAndConsumeRateLimit(ipKey, now)`. */
    method CheckAndConsume(ipKey: string, now: int) returns (d: Decision)
      modifies this
      ensures (d, store) == Step(old(store), ipKey, now)
    {
      Cleanup(now);
      ghost var cleaned := store;
      if ipKey !in store || now >= store[ipKey].resetAt {
        store := store[ipKey := Entry(1, now + RateLimitWindowMs, now)];
        return Decision(true, 0, RateLimitMax - 1);
      }
      var entry := store[ipKey].(lastSeen := now);
      store := store[ipKey := entry];
      if entry.count >= RateLimitMax {
        return Decision(false, RetryAfterSeconds(entry.resetAt, now), 0);
      }
      entry := entry.(count := entry.count + 1);
      store := store[ipKey := entry];
      assert store == cleaned[ipKey := entry];
      d := Decision(true, 0, if RateLimitMax - entry.count >= 0 then RateLimitMax - entry.count else 0);
    }
  }

  /** One field of the JSON body: absent, a string, or any other value. */
  datatype Field = Absent | Str(s: string) | Other

  datatype LeadBody = LeadBody(name: Field, phone: Field, service: Field, message: Field, sourcePage: Field, hp: Field)

  /** The body after validation: the first five fields trimmed, `hp` as given. */
  datatype Lead = Lead(name: string, phone: string, service: string, message: string, sourcePage: string, hp: string)

  /** A required string, trimmed, with its trimmed length in `[min, max]`. */
  function Required(f: Field, min: nat, max: nat): (r: Option<string>)
    ensures r.Some? <==> f.Str? && min <= |Trim(f.s)| <= max
    ensures r.Some? ==> r.value == Trim(f.s)
  {
    if f.Str? && min <= |Trim(f.s)| <= max then Some(Trim(f.s)) else None
  }

  /** `BodySchema.safeParse`; `None` is the 400 path. A body that is not an
      object is `None` on input. */
  function ParseLead(body: Option<LeadBody>): (r: Option<Lead>)
    ensures r.Some? ==>
              && 2 <= |r.value.name| <= 80 && 6 <= |r.value.phone| <= 30 && 2 <= |r.value.service| <= 80
              && |r.value.message| <= 1000 && 1 <= |r.value.sourcePage| <= 200
    ensures r.Some? ==> body.Some? && (body.value.hp.Absent? ==> r.value.hp == "")
    ensures r.Some? ==> body.Some? && (body.value.message.Absent? ==> r.value.message == "")
    ensures body.Some? && (body.value.hp.Other? || body.value.message.Other?) ==> r.None?
    ensures r.Some? <==>
              && body.Some?
              && Required(body.value.name, 2, 80).Some?
              && Required(body.value.phone, 6, 30).Some?
              && Required(body.value.service, 2, 80).Some?
              && (body.value.message.Absent? || Required(body.value.message, 0, 1000).Some?)
              && Required(body.value.sourcePage, 1, 200).Some?
              && !body.value.hp.Other?
    ensures r.Some? ==>
              && r.value.name == Trim(body.value.name.s)
              && r.value.phone == Trim(body.value.phone.s)
              && r.value.service == Trim(body.value.service.s)
              && r.value.message == (if body.value.message.Str? then Trim(body.value.message.s) else "")
              && r.value.sourcePage == Trim(body.value.sourcePage.s)
              && r.value.hp == (if body.value.hp.Str? then body.value.hp.s else "")
  {
    if body.None? then None
    else
      var b := body.value;
      var name := Required(b.name, 2, 80);
      var phone := Required(b.phone, 6, 30);
      var service := Required(b.service, 2, 80);
      var message := if b.message.Absent? then Some("") else Required(b.message, 0, 1000);
      var sourcePage := Required(b.sourcePage, 1, 200);
      var hp := match b.hp case Absent => Some("") case Str(s) => Some(s) case Other => None;
      if name.Some? && phone.Some? && service.Some? && message.Some? && sourcePage.Some? && hp.Some? then
        Some(Lead(name.value, phone.value, service.value, message.value, sourcePage.value, hp.value))
      else None
  }

  /** `String(ip || 'unknown')` after `getRequestIP(event) ?? 'unknown'`: a
      missing or empty address becomes `unknown`. */
  function IpKey(ip: Option<string>): (k: string)
    ensures k != ""
    ensures ip.Some? && ip.value != "" ==> k == ip.value
    ensures ip.None? || ip.value == "" ==> k == "unknown"
  {
    if ip.Some? && ip.value != "" then ip.value else "unknown"
  }

  /** The honeypot fires on an `hp` that is not all whitespace. */
  predicate Honeypot(lead: Lead) {
    Trim(lead.hp) != ""
  }

  /** The record forwarded to the webhook. */
  datatype LeadPayload = LeadPayload(
    name: string, phone: string, service: string, message: string, sourcePage: string,
    timestamp: string, ip: string, userAgent: Option<string>)

  datatype LeadResponse =
    | Ok
    | Fail(status: nat, error: string, retryAfterSeconds: Option<nat>)

  /** The handler. `timestamp` is `new Date(now).toISOString()`, `webhookUrl`
      the configured forward target and `forwardFails` whether the POST throws;
      `forwarded` is the payload the POST carried, if one was attempted. */
  method HandleLead(limiter: RateLimiter, body: Option<LeadBody>, ip: Option<string>, userAgent: Option<string>,
                    now: int, timestamp: string, webhookUrl: Option<string>, forwardFails: bool)
    returns (res: LeadResponse, forwarded: Option<LeadPayload>)
    modifies limiter
    ensures ParseLead(body).None? ==>
              res == Fail(400, "invalid_body", None) && forwarded.None? && limiter.store == old(limiter.store)
    ensures ParseLead(body).Some? && Honeypot(ParseLead(body).value) ==>
              res == Ok && forwarded.None? && limiter.store == old(limiter.store)
    ensures ParseLead(body).Some? && !Honeypot(ParseLead(body).value) ==>
              var lead := ParseLead(body).value;
              var step := Step(old(limiter.store), IpKey(ip), now);
              && limiter.store == step.1
              && (!step.0.allowed ==> res == Fail(429, "rate_limited", Some(step.0.retryAfterSeconds)) && forwarded.None?)
              && (step.0.allowed && !Truthy(webhookUrl) ==> res == Fail(500, "missing_webhook", None) && forwarded.None?)
              && (step.0.allowed && Truthy(webhookUrl) ==>
                    && forwarded == Some(LeadPayload(lead.name, lead.phone, lead.service, lead.message, lead.sourcePage,
                                                     timestamp, IpKey(ip), userAgent))
                    && res == if forwardFails then Fail(502, "webhook_failed", None) else Ok)
  {
    forwarded := None;
    var parsed := ParseLead(body);
    if parsed.None? {
      return Fail(400, "invalid_body", None), None;
    }
    var lead := parsed.value;
    if Honeypot(lead) {
      return Ok, None;
    }
    var ipKey := IpKey(ip);
    var rl := limiter.CheckAndConsume(ipKey, now);
    if !rl.allowed {
      return Fail(429, "rate_limited", Some(rl.retryAfterSeconds)), None;
    }
    if !Truthy(webhookUrl) {
      return Fail(500, "missing_webhook", None), None;
    }
    forwarded := Some(LeadPayload(lead.name, lead.phone, lead.service, lead.message, lead.sourcePage,
                                  timestamp, ipKey, userAgent));
    res := if forwardFails then Fail(502, "webhook_failed", None) else Ok;
  }
}
