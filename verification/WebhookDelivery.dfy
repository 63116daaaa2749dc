/** Deliveries event by event: how often is posted, what is waited for in between, what is sent, what is told. */
module WebhookDelivery {
  import opened Idempotency
  import opened Json
  import opened Stringify
  import opened Strings
  import opened Webhook
  import opened WebhookDispatch

  // ---------- how often ----------

  // Attempt k, counted from 0, is made: it is the first, or the limit is above it and every one before it was not
  // answered well, or the update behind it failed.
  ghost predicate Made(answers: nat -> Answer, retryCount: int, k: nat) {
    k == 0 || (k < retryCount && forall j: nat :: j < k ==> answers(j) != Answered(true, true))
  }

  lemma {:induction false} TriesMade(answers: nat -> Answer, retryCount: int, n: nat)
    requires Stops(answers, 0, Limit(retryCount), n)
    ensures forall k: nat :: k < n <==> Made(answers, retryCount, k)
    ensures Accepted(answers(n - 1)) <==> answers(n - 1) == Answered(true, true)
  {
    forall k: nat ensures k < n <==> Made(answers, retryCount, k) {
      if n <= k < retryCount && k > 0 { assert Accepted(answers(n - 1)); }
    }
  }

  // ---------- direct delivery ----------

  // n POSTs with the waits between them: d after the first, 2d after the second, and so on.
  predicate Paced(log: seq<Event>, id: string, n: nat, d: nat, from: nat) {
    && n > 0 && |log| == 2 * n - 1
    && (forall k :: 0 <= k < n ==> log[2 * k].Posted? && log[2 * k].id == id)
    && (forall k :: 0 <= k < n - 1 ==> log[2 * k + 1] == Waited(id, d * (from + k + 1)))
  }

  lemma AttemptsUnfold(id: string, r: Request, d: nat, first: nat, n: nat)
    requires n > 1
    ensures var rest, log := DirectAttempts(id, r, d, first + 1, n - 1), DirectAttempts(id, r, d, first, n);
      && |log| == |rest| + 2 && log[0] == Posted(id, Stamp(r, first)) && log[1] == Waited(id, d * (first + 1))
      && forall i :: 2 <= i < |log| ==> log[i] == rest[i - 2]
  {
  }

  lemma {:induction false} AttemptsPaced(id: string, r: Request, d: nat, first: nat, n: nat)
    requires n > 0
    ensures Paced(DirectAttempts(id, r, d, first, n), id, n, d, first)
    decreases n
  {
    if n > 1 {
      AttemptsPaced(id, r, d, first + 1, n - 1);
      AttemptsUnfold(id, r, d, first, n);
      var rest, log := DirectAttempts(id, r, d, first + 1, n - 1), DirectAttempts(id, r, d, first, n);
      forall k | 0 <= k < n ensures log[2 * k].Posted? && log[2 * k].id == id {
        if k > 0 { assert log[2 * k] == rest[2 * (k - 1)]; }
      }
      forall k | 0 <= k < n - 1 ensures log[2 * k + 1] == Waited(id, d * (first + k + 1)) {
        if k > 0 { assert log[2 * k + 1] == rest[2 * (k - 1) + 1]; }
      }
    }
  }

  lemma {:induction false} AttemptsStamped(id: string, r: Request, d: nat, first: nat, n: nat, k: nat)
    requires k < n
    ensures var log := DirectAttempts(id, r, d, first, n);
      2 * k < |log| && log[2 * k] == Posted(id, Stamp(r, first + k))
    decreases n
  {
    if k > 0 {
      AttemptsStamped(id, r, d, first + 1, n - 1, k - 1);
      AttemptsUnfold(id, r, d, first, n);
    }
  }

  // What a delivery says when it is over.
  function Told(id: string, ok: bool): seq<Event> {
    if ok then [Triggered(id), Hook(id, "webhook:delivered"), Hook(id, "webhook:after")]
    else [Hook(id, "webhook:error")]
  }

  // A delivery, event by event: POSTs of the payload's text to the webhook's address, as many as attempts are made,
  // the waits between them, and the end.
  ghost predicate Delivery(log: seq<Event>, w: Webhook, payload: Json, d: nat, answers: nat -> Answer, n: nat) {
    && 0 < n && 2 * n - 1 <= |log| && Paced(log[..2 * n - 1], w.id, n, d, 0)
    && (forall k: nat :: k < n <==> Made(answers, w.retryCount, k))
    && (forall k :: 0 <= k < n ==> log[2 * k].request.url == w.url && log[2 * k].request.body == Text(payload))
    && log[2 * n - 1..] == Told(w.id, answers(n - 1) == Answered(true, true))
  }

  // Such is direct delivery of a payload that is a JSON value other than null.
  lemma DirectOrder(w: Webhook, payload: Json, h: Headers, d: nat, hmac: (string, string) -> string,
                    answers: nat -> Answer) returns (n: nat)
    requires payload != Null
    ensures Delivery(DirectLog(w, Payload(payload), h, d, hmac, answers), w, payload, d, answers, n)
  {
    n := Tries(answers, 0, Limit(w.retryCount));
    TriesStops(answers, 0, Limit(w.retryCount), n);
    TriesMade(answers, w.retryCount, n);
    var r := Request(w.url, DirectHeaders(h, w, Text(payload), hmac), Text(payload));
    AttemptsPaced(w.id, r, d, 0, n);
    var attempts := DirectAttempts(w.id, r, d, 0, n);
    var log := DirectLog(w, Payload(payload), h, d, hmac, answers);
    assert log == attempts + Told(w.id, Accepted(answers(n - 1)));
    assert log[..2 * n - 1] == attempts && log[2 * n - 1..] == Told(w.id, Accepted(answers(n - 1)));
    forall k | 0 <= k < n ensures log[2 * k] == Posted(w.id, Stamp(r, k)) {
      AttemptsStamped(w.id, r, d, 0, n, k);
    }
  }

  // Anything else: a payload without a text is refused, and so is a missing one if it is to be signed; null, and a
  // missing payload that is not signed, are posted once, and reported as an error whatever the answer is.
  lemma DirectOdd(w: Webhook, offer: Offer, h: Headers, d: nat, hmac: (string, string) -> string,
                  answers: nat -> Answer)
    requires offer in {NoPayload, Unprintable, Payload(Null)}
    ensures var log := DirectLog(w, offer, h, d, hmac, answers);
      var signs := w.secret != "" && ("X-WhatsGate-Signature" !in h || h["X-WhatsGate-Signature"] == "");
      if offer == Unprintable || (offer == NoPayload && signs) then log == [Hook(w.id, "webhook:error")]
      else
        && log != [] && log[0].Posted? && log[0].id == w.id && log[0].request.url == w.url
        && log[0].request.body == (if offer == NoPayload then "" else "null")
        && log[1..] == (if answers(0) == Answered(true, true) then [Triggered(w.id)] else [])
                       + [Hook(w.id, "webhook:error")]
  {
  }

  // In direct mode, a pass whose plugins leave such a payload is its webhook:before and then that delivery, with the
  // waits that are configured; where a plugin stops it or makes the result null, nothing follows.
  lemma DirectTurn(c: Config, o: Occasion, key: string, w: Webhook, t: Turn) returns (n: nat)
    requires !c.queueEnabled
    ensures var verdict, segment := t.before(PayloadFor(o, key, t), o.data).verdict, Segment(c, o, key, w, t);
      && segment != [] && segment[0] == Hook(w.id, "webhook:before")
      && (Aborts(c, o, key, w, t) <==> verdict == NullResult)
      && (!verdict.Going? ==> segment[1..] == [])
      && (verdict.Going? && verdict.offer.Payload? && verdict.offer.value != Null ==>
            Delivery(segment[1..], w, verdict.offer.value, c.retryDelay, t.answers, n))
  {
    n := 0;
    var verdict := t.before(PayloadFor(o, key, t), o.data).verdict;
    if verdict.Going? && verdict.offer.Payload? && verdict.offer.value != Null {
      var h := HeadersFor(c, o, key, w, t);
      n := DirectOrder(w, verdict.offer.value, h, c.retryDelay, c.hmac, t.answers);
      assert Segment(c, o, key, w, t)[1..] == DirectLog(w, verdict.offer, h, c.retryDelay, c.hmac, t.answers);
    }
  }

  // ---------- the queue ----------

  // A job for a payload carries its text, and so it does not survive the queue exactly if that is null.
  lemma JobKeepsText(w: Webhook, payload: Json, h: Headers, hmac: (string, string) -> string)
    requires payload.Num? && Finite(payload.text) ==> UniqueText.NumberText(payload.text)
    ensures var job := JobOf(w, Payload(payload), h, hmac);
      && job.payload.Some? && Text(job.payload.value) == Text(payload)
      && (Survives(payload) <==> Text(payload) != "null") && (Processable(job) <==> Text(payload) != "null")
  {
    match payload
    case Str(s) => assert Text(payload)[0] == '\"';
    case Arr(_) => assert Text(payload)[0] == '[';
    case Obj(_) => assert Text(payload)[0] == '{';
    case Num(t) => if Finite(t) { assert Text(payload)[0] == t[0]; }
    case Bool(b) => assert Text(payload)[0] == if b then 't' else 'f';
    case Null =>
  }

  // The queue's run of a job with a payload other than null: the POSTs of its attempts, and then its end.
  lemma QueueOrder(job: Job, answers: nat -> Answer) returns (n: nat)
    requires job.payload.Some? && job.payload.value != Null
    ensures var log := JobLog(job, answers);
      && 0 < n <= |log| && (forall k: nat :: k < n <==> Made(answers, job.attempts, k))
      && (forall k :: 0 <= k < n ==>
            && log[k].Posted? && log[k].id == job.webhookId && log[k].request.url == job.url
            && log[k].request.body == Text(job.payload.value)
            && log[k].request.headers == job.headers["X-WhatsGate-Retry-Count" := Decimal(k)])
      && log[n..] == if answers(n - 1) == Answered(true, true)
                     then [Triggered(job.webhookId), Hook(job.webhookId, "webhook:delivered")]
                     else [Hook(job.webhookId, "webhook:error")]
  {
    n := Tries(answers, 0, Limit(job.attempts));
    TriesStops(answers, 0, Limit(job.attempts), n);
    TriesMade(answers, job.attempts, n);
    var posts := QueueAttempts(job.webhookId, JobRequest(job), n);
    assert JobLog(job, answers) == posts + Ending(job.webhookId, Accepted(answers(n - 1)));
    assert JobLog(job, answers)[n..] == Ending(job.webhookId, Accepted(answers(n - 1)));
  }

  // In queue mode, a pass puts a job in the queue exactly if it tells so, which is if the plugins leave something
  // that can be printed and the queue takes it. The job is for the webhook, its attempts are as many as it has
  // retries, and it is signed over the text of the payload if the webhook has a secret. If there is a secret but no
  // text, the pass throws before it tells anything; in all other cases it tells of an error, or a plugin stopped it.
  lemma QueueTurn(c: Config, o: Occasion, key: string, w: Webhook, t: Turn)
    requires c.queueEnabled
    ensures var verdict, before := t.before(PayloadFor(o, key, t), o.data).verdict, [Hook(w.id, "webhook:before")];
      var segment, jobs := Segment(c, o, key, w, t), Queued(c, o, key, w, t);
      match verdict
      case Stopped => segment == before && jobs == [] && !Aborts(c, o, key, w, t)
      case NullResult => segment == before && jobs == [] && Aborts(c, o, key, w, t)
      case Going(offer) =>
        if w.secret != "" && offer in {NoPayload, Unprintable} then
          segment == before && jobs == [] && Aborts(c, o, key, w, t)
        else if offer == Unprintable || !t.added then
          segment == before + [Hook(w.id, "webhook:error")] && jobs == [] && !Aborts(c, o, key, w, t)
        else
          && segment == before + [Hook(w.id, "webhook:queued")] && |jobs| == 1 && !Aborts(c, o, key, w, t)
          && jobs[0].webhookId == w.id && jobs[0].url == w.url
          && jobs[0].attempts == jobs[0].maxRetries == w.retryCount
          && (jobs[0].payload.Some? <==> offer.Payload?)
  {
  }

  // ---------- headers ----------

  // The header `name` of attempt k, where the webhook's own headers are `custom`.
  function HeaderSent(name: string, custom: Headers, o: Occasion, key: string, t: Turn, signature: Option<string>,
                      k: nat): Option<string> {
    if name == "X-WhatsGate-Retry-Count" then Some(Decimal(k))
    else if name == "X-WhatsGate-Signature" && signature.Some? then signature
    else if name in custom then Some(custom[name])
    else if name == "Content-Type" then Some("application/json")
    else if name == "User-Agent" then Some("WhatsGate-Webhook/1.0.0")
    else if name == "X-WhatsGate-Event" then Some(o.event)
    else if name == "X-WhatsGate-Idempotency-Key" then Some(key)
    else if name == "X-WhatsGate-Delivery-Id" then Some(t.deliveryId)
    else None
  }

  lemma HeadersAre(custom: Headers, o: Occasion, key: string, t: Turn, signature: Option<string>, k: nat, name: string)
    ensures var h := BaseHeaders(o, key, t) + custom;
      var signed := if signature.Some? then h[SIGNATURE := signature.value] else h;
      Header(signed[RETRY_COUNT := Decimal(k)], name) == HeaderSent(name, custom, o, key, t, signature, k)
  {
    NamesApart();
  }

  // The name is a key of `custom`, and not with an empty value.
  predicate Sets(custom: Headers, name: string) {
    name in custom && custom[name] != ""
  }

  lemma RequestAt(r: Request, n: nat, k: nat)
    requires k < n
    ensures Requests(r, 0, n)[k].headers == r.headers[RETRY_COUNT := Decimal(k)]
  {
    assert 0 + k == k && Requests(r, 0, n)[k] == Stamp(r, 0 + k);
  }

  // Every header of every request of direct delivery, which signs unless the webhook's own headers do, and over the
  // body that is sent.
  lemma DirectHeadersSent(c: Config, o: Occasion, key: string, w: Webhook, t: Turn, offer: Offer, name: string)
    ensures var custom, h := CustomHeaders(w.headers, c.parse), HeadersFor(c, o, key, w, t);
      var signature := "sha256=" + c.hmac(if offer.Payload? then Text(offer.value) else "", w.secret);
      var signs := w.secret != "" && !Sets(custom, "X-WhatsGate-Signature");
      var posts := Posts(DirectLog(w, offer, h, c.retryDelay, c.hmac, t.answers));
      forall k :: 0 <= k < |posts| ==>
        Header(posts[k].headers, name)
        == HeaderSent(name, custom, o, key, t, if signs then Some(signature) else None, k)
  {
    var custom, h := CustomHeaders(w.headers, c.parse), HeadersFor(c, o, key, w, t);
    var signature := Signature(c.hmac, Body(offer), w.secret);
    var signs := w.secret != "" && !Sets(custom, "X-WhatsGate-Signature");
    var n := DirectDelivery(w, offer, h, c.retryDelay, c.hmac, t.answers);
    SignatureHeld(custom, o, key, t);
    var posts := Posts(DirectLog(w, offer, h, c.retryDelay, c.hmac, t.answers));
    forall k | 0 <= k < |posts|
      ensures Header(posts[k].headers, name)
        == HeaderSent(name, custom, o, key, t, if signs then Some(signature) else None, k)
    {
      RequestAt(Request(w.url, DirectHeaders(h, w, Body(offer), c.hmac), Body(offer)), n, k);
      HeadersAre(custom, o, key, t, if signs then Some(signature) else None, k, name);
    }
  }

  // The same of every request of a queued job, which is signed whatever the webhook's own headers say.
  lemma QueueHeadersSent(c: Config, o: Occasion, key: string, w: Webhook, t: Turn, offer: Offer, name: string)
    ensures var custom, h := CustomHeaders(w.headers, c.parse), HeadersFor(c, o, key, w, t);
      var signature := "sha256=" + c.hmac(if offer.Payload? then Text(offer.value) else "", w.secret);
      var posts := Posts(JobLog(JobOf(w, offer, h, c.hmac), t.answers));
      forall k :: 0 <= k < |posts| ==>
        Header(posts[k].headers, name)
        == HeaderSent(name, custom, o, key, t, if w.secret != "" then Some(signature) else None, k)
  {
    var custom, h := CustomHeaders(w.headers, c.parse), HeadersFor(c, o, key, w, t);
    var signature := Signature(c.hmac, Body(offer), w.secret);
    var n := QueueDelivery(JobOf(w, offer, h, c.hmac), t.answers);
    var posts := Posts(JobLog(JobOf(w, offer, h, c.hmac), t.answers));
    forall k | 0 <= k < |posts|
      ensures Header(posts[k].headers, name)
        == HeaderSent(name, custom, o, key, t, if w.secret != "" then Some(signature) else None, k)
    {
      RequestAt(JobRequest(JobOf(w, offer, h, c.hmac)), n, k);
      HeadersAre(custom, o, key, t, if w.secret != "" then Some(signature) else None, k, name);
    }
  }

  // Among the base headers there is no signature.
  lemma SignatureHeld(custom: Headers, o: Occasion, key: string, t: Turn)
    ensures var h := BaseHeaders(o, key, t) + custom;
      (SIGNATURE in h && h[SIGNATURE] != "") <==> Sets(custom, "X-WhatsGate-Signature")
  {
    NamesApart();
  }

  // The text of the member of that name, if it is a string; the name __proto__ cannot be set.
  function OwnHeader(source: Option<Json>, name: string): Option<string> {
    if source.Some? && source.value.Obj? && name != "__proto__" then
      var member := Get(source.value.members, name);
      if member.Some? && member.value.Str? then Some(member.value.s) else None
    else None
  }

  // A webhook's own headers are the string members of the object that is stored, or whose text is.
  lemma OwnHeadersAre(stored: Json, parse: string -> Option<Json>, name: string)
    ensures Header(CustomHeaders(stored, parse), name)
      == OwnHeader(if stored.Str? then parse(stored.s) else Some(stored), name)
  {
    var source := if stored.Str? then parse(stored.s) else Some(stored);
    if source.Some? && source.value.Obj? { StringMembersAre(source.value.members, name); }
  }

  lemma StringMembersAre(members: seq<Member>, name: string)
    ensures Header(StringMembers(members), name) == StringMember(members, name)
  {
    GetInside(members, name);
  }

  // ---------- what plugins are given ----------

  // Every member of the payload; what is found in its data is what the event's data holds.
  lemma PayloadHolds(o: Occasion, key: string, t: Turn, name: string, inside: string)
    requires UniqueKeys(o.data)
    ensures var payload := PayloadFor(o, key, t);
      && At(payload, [Key("data"), Key(inside)]) == Lookup(o.data, inside)
      && (name == "data" || Get(payload.members, name)
          == if name == "event" then Some(Str(o.event))
             else if name == "timestamp" then Some(Str(t.timestamp))
             else if name == "sessionId" then Some(Str(o.sessionId))
             else if name == "idempotencyKey" then Some(Str(key))
             else if name == "deliveryId" then Some(Str(t.deliveryId))
             else None)
  {
    var p := PayloadFor(o, key, t).members;
    SixMembers(p, name);
    SixMembers(p, "data");
    GetIsLookup(o.data, inside);
    var data := p[5].value;
    assert [Key("data"), Key(inside)][1..] == [Key(inside)] && [Key(inside)][1..] == [];
    assert At(data, [Key(inside)]) == match Get(data.members, inside) case Some(v) => At(v, []) case None => None;
  }

  lemma SixMembers(p: seq<Member>, name: string)
    requires |p| == 6
    ensures Get(p, name) == if p[0].key == name then Some(p[0].value) else if p[1].key == name then Some(p[1].value)
      else if p[2].key == name then Some(p[2].value) else if p[3].key == name then Some(p[3].value)
      else if p[4].key == name then Some(p[4].value) else if p[5].key == name then Some(p[5].value) else None
  {
    assert p[0..] == p;
    GetFrom(p, 0, name);
    GetFrom(p, 1, name);
    GetFrom(p, 2, name);
    GetFrom(p, 3, name);
    GetFrom(p, 4, name);
    GetFrom(p, 5, name);
  }

  lemma GetFrom(p: seq<Member>, k: nat, name: string)
    requires k < |p|
    ensures Get(p[k..], name) == if p[k].key == name then Some(p[k].value) else Get(p[k + 1..], name)
  {
    assert p[k..][1..] == p[k + 1..];
  }

  // The key that an event is dispatched with is that of any record which holds the event's data with the session's
  // own id over any other.
  lemma KeyOfEvent(c: Config, o: Occasion, x: seq<Field>)
    requires UniqueKeys(o.data) && UniqueKeys(x)
    requires forall k :: k in Keys(x) <==> k == "sessionId" || k in Keys(o.data)
    requires forall k :: SameValue(Lookup(x, k), if k == "sessionId" then Some(Str(o.sessionId)) else Lookup(o.data, k))
    ensures KeyFor(o, c) == IdempotencyKey(o.event, x, HashData(c.sha))
  {
    var own := WithSession(o.data, o.sessionId);
    WithSessionKeys(o.data, o.sessionId);
    forall k ensures SameValue(Lookup(own, k), Lookup(x, k)) {
      SessionNamed(o.data, o.sessionId, k);
      SameBack(Lookup(x, k), Lookup(own, k));
    }
    KeyIgnoresOrder(o.event, own, x, c.sha);
  }

  lemma SameBack(a: Option<Json>, b: Option<Json>)
    requires SameValue(a, b)
    ensures SameValue(b, a)
  {
    if a.Some? { SameSymmetric(a.value, b.value); }
  }

  lemma {:induction false} SameSymmetric(v: Json, w: Json)
    requires Same(v, w)
    ensures Same(w, v)
  {
    match (v, w)
    case (Arr(a), Arr(b)) =>
      forall i | 0 <= i < |a| ensures Same(b[i], a[i]) { SameSymmetric(a[i], b[i]); }
    case (Obj(a), Obj(b)) =>
      forall k | Get(a, k).Some? && Get(b, k).Some? ensures Same(Part(w, k), Part(v, k)) {
        SameSymmetric(Part(v, k), Part(w, k));
      }
    case _ =>
  }
}
