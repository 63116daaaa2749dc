/** Both delivery modes as they work: a headers object shared by all retries, a job run by a queue worker. */
module WebhookServices {
  import opened Json
  import opened Stringify
  import opened Idempotency
  import opened Strings
  import opened Webhook
  import opened WebhookDispatch

  // The keys of an object are distinct.
  predicate OwnKeys(headers: Json, parse: string -> Option<Json>) {
    var source := HeaderSource(headers, parse);
    source.Obj? ==> forall i, j :: 0 <= i < j < |source.members| ==> source.members[i].key != source.members[j].key
  }

  function DirectRequest(w: Webhook, body: string, h: Headers, hmac: (string, string) -> string): Request {
    Request(w.url, DirectHeaders(h, w, body, hmac), body)
  }

  ghost predicate Seen(entries: seq<Member>, n: nat, key: string)
    requires n <= |entries|
  {
    exists j :: 0 <= j < n && entries[j].key == key
  }

  // The headers hold the string members among the first n entries.
  ghost predicate Parsed(entries: seq<Member>, n: nat, h: Headers)
    requires n <= |entries|
  {
    && (forall k :: k in h <==> Seen(entries, n, k) && StringMember(entries, k).Some?)
    && (forall k <- h :: StringMember(entries, k) == Some(h[k]))
  }

  // The last attempt that is made from `first` on is accepted.
  predicate Succeeds(answers: nat -> Answer, first: nat, limit: nat)
    requires first < limit
  {
    Accepted(answers(first + Tries(answers, first, limit) - 1))
  }

  // What attempts from `first` on do to the world.
  function DeliverLog(w: Webhook, r: Request, retryDelay: nat, first: nat, answers: nat -> Answer): seq<Event>
    requires first < Limit(w.retryCount)
  {
    var n := Tries(answers, first, Limit(w.retryCount));
    DirectAttempts(w.id, r, retryDelay, first, n) + if Accepted(answers(first + n - 1)) then [Triggered(w.id)] else []
  }

  // What deliverWebhook does to the world.
  function DeliverWork(w: Webhook, offer: Offer, h: Headers, c: Config, answers: nat -> Answer): seq<Event> {
    if Readable(offer) then DeliverLog(w, DirectRequest(w, Body(offer), h, c.hmac), c.retryDelay, 0, answers)
    else if Refused(w, offer, h) then []
    else OneAttempt(w, Body(offer), h, c.hmac, answers(0))
  }

  // Only webhooks that are subscribed to the event, or to everything, have anything in the log; and if dispatch comes
  // to its end, and ids are distinct, all of them have, and it begins with their webhook:before.
  ghost predicate ServesSubscribers(log: seq<Event>, stored: seq<Webhook>, event: string, ok: bool) {
    && (forall e <- log :: exists w <- stored :: w.id == e.id && (event in w.events || "*" in w.events))
    && (ok && DistinctIds(stored) ==>
          forall j :: 0 <= j < |stored| ==> Begins(Collect(log, Only(stored[j].id)), stored[j], event))
  }

  ghost predicate Begins(own: seq<Event>, w: Webhook, event: string) {
    if event in w.events || "*" in w.events then own != [] && own[0] == Hook(w.id, "webhook:before") else own == []
  }

  lemma Subscribers(c: Config, o: Occasion, stored: seq<Webhook>, turns: nat -> Turn)
    ensures var ws, key := Matching(stored, o.event), KeyFor(o, c);
      ServesSubscribers(DispatchLog(c, o, key, ws, turns), stored, o.event, After(c, o, key, ws, turns).going)
  {
    var ws, key := Matching(stored, o.event), KeyFor(o, c);
    forall e <- DispatchLog(c, o, key, ws, turns)
      ensures exists w <- stored :: w.id == e.id && (o.event in w.events || "*" in w.events)
    {
      OnlyServed(c, o, key, ws, turns);
      var w :| w in ws && w.id == e.id;
      ServedIsStored(stored, o.event, w);
    }
    if After(c, o, key, ws, turns).going && DistinctIds(stored) {
      forall j | 0 <= j < |stored|
        ensures Begins(Collect(DispatchLog(c, o, key, ws, turns), Only(stored[j].id)), stored[j], o.event)
      {
        ReachedAll(c, o, key, stored, turns, j);
        DispatchServes(c, o, key, stored, turns, j);
      }
    }
  }

  lemma ServedIsStored(stored: seq<Webhook>, event: string, w: Webhook)
    requires w in Matching(stored, event)
    ensures w in stored && (event in w.events || "*" in w.events)
  {
    var at := Served(stored, event);
    var i :| 0 <= i < |at| && Matching(stored, event)[i] == w;
    assert at[i] in at;
  }

  // Where dispatch comes to its end, no turn has aborted it.
  lemma ReachedAll(c: Config, o: Occasion, key: string, stored: seq<Webhook>, turns: nat -> Turn, j: nat)
    requires j < |stored| && After(c, o, key, Matching(stored, o.event), turns).going
    ensures After(c, o, key, Matching(stored[..j], o.event), turns).going
  {
    MatchingAround(stored, o.event, j);
    var ws, k := Matching(stored, o.event), |Matching(stored[..j], o.event)|;
    assert ws[..k] == Matching(stored[..j], o.event);
    if !After(c, o, key, ws[..k], turns).going { StaysAborted(c, o, key, ws, turns, k); }
  }

  class HeaderBag {
    var entries: Headers

    constructor (entries: Headers)
      ensures this.entries == entries
    {
      this.entries := entries;
    }

    method Set(name: string, value: string)
      modifies this
      ensures entries == old(entries)[name := value]
    {
      entries := entries[name := value];
    }
  }

  // The data of an event, as one object.
  class Record {
    var fields: seq<Field>

    constructor (fields: seq<Field>)
      ensures this.fields == fields
    {
      this.fields := fields;
    }
  }

  class WebhookService {
    const config: Config
    var log: seq<Event>
    var queue: seq<Job>

    constructor (config: Config)
      ensures this.config == config && log == [] && queue == []
    {
      this.config := config;
      log, queue := [], [];
    }

    method ParseWebhookHeaders(headers: Json) returns (parsedHeaders: Headers)
      requires OwnKeys(headers, config.parse)
      ensures parsedHeaders == CustomHeaders(headers, config.parse)
    {
      var source := HeaderSource(headers, config.parse);
      parsedHeaders := map[];
      if !source.Obj? {
        return;
      }
      var entries := source.members;
      for i := 0 to |entries|
        invariant Parsed(entries, i, parsedHeaders)
      {
        ParsedStep(entries, i, parsedHeaders);
        if entries[i].value.Str? && entries[i].key != "__proto__" {
          parsedHeaders := parsedHeaders[entries[i].key := entries[i].value.s];
        }
      }
      ParsedAll(entries, parsedHeaders);
    }

    // deliverWebhook, called for the first attempt; false where it throws. Nothing changes the payload between
    // attempts, so its text is passed along.
    method DeliverWebhook(w: Webhook, offer: Offer, headers: HeaderBag, answers: nat -> Answer)
        returns (delivered: bool)
      modifies headers, this`log
      ensures delivered == (Readable(offer) && Succeeds(answers, 0, Limit(w.retryCount)))
      ensures log == old(log) + DeliverWork(w, offer, old(headers.entries), config, answers)
    {
      if offer.Unprintable? {
        return false;
      }
      var body := Body(offer);
      if Readable(offer) {
        delivered := DeliverText(w, body, headers, answers);
        return;
      }
      // The payload is null or missing. Without a text there is nothing to sign.
      if offer.NoPayload? && Signs(headers.entries, w) {
        return false;
      }
      // Reading it, behind the answer and again in the catch block, throws.
      var _ := Attempt(w, body, headers, 1, answers(0), DirectRequest(w, body, headers.entries, config.hmac));
      return false;
    }

    // With a payload that can be read.
    method DeliverText(w: Webhook, body: string, headers: HeaderBag, answers: nat -> Answer) returns (delivered: bool)
      modifies headers, this`log
      ensures delivered == Succeeds(answers, 0, Limit(w.retryCount))
      ensures var r := DirectRequest(w, body, old(headers.entries), config.hmac);
        log == old(log) + DeliverLog(w, r, config.retryDelay, 0, answers)
    {
      ghost var r := DirectRequest(w, body, headers.entries, config.hmac);
      delivered := DeliverFrom(w, body, headers, 1, answers, r, log + DeliverLog(w, r, config.retryDelay, 0, answers));
    }

    // The call of attempt `attempt`, and the retries it leads to. The shared headers hold what earlier attempts
    // left in them, which sends the same as the headers of the first.
    method DeliverFrom(w: Webhook, body: string, headers: HeaderBag, attempt: nat, answers: nat -> Answer,
                       ghost r: Request, ghost whole: seq<Event>) returns (delivered: bool)
      requires 1 <= attempt <= Limit(w.retryCount)
      requires Stamp(DirectRequest(w, body, headers.entries, config.hmac), attempt - 1) == Stamp(r, attempt - 1)
      requires log + DeliverLog(w, r, config.retryDelay, attempt - 1, answers) == whole
      modifies headers, this`log
      ensures delivered == Succeeds(answers, attempt - 1, Limit(w.retryCount))
      ensures log == whole
      decreases Limit(w.retryCount) - attempt
    {
      delivered := Attempt(w, body, headers, attempt, answers(attempt - 1), r);
      if !delivered && attempt < w.retryCount {
        log := log + [Waited(w.id, config.retryDelay * attempt)];
        LogAgain(old(log), log, w, r, config.retryDelay, attempt - 1, answers);
        delivered := DeliverFrom(w, body, headers, attempt + 1, answers, r, whole);
      } else {
        LogLast(old(log), w, r, config.retryDelay, attempt - 1, answers);
      }
    }

    // The POST of one attempt, and the update that follows it.
    method Attempt(w: Webhook, body: string, headers: HeaderBag, attempt: nat, answer: Answer, ghost r: Request)
        returns (ok: bool)
      requires 1 <= attempt
      requires Stamp(DirectRequest(w, body, headers.entries, config.hmac), attempt - 1) == Stamp(r, attempt - 1)
      modifies headers, this`log
      ensures ok == Accepted(answer)
      ensures log == old(log) + [Posted(w.id, Stamp(r, attempt - 1))] + (if ok then [Triggered(w.id)] else [])
      ensures Stamp(DirectRequest(w, body, headers.entries, config.hmac), attempt) == Stamp(r, attempt)
    {
      PrepareHeaders(w, body, headers, attempt);
      SharedAgain(old(headers.entries), w, body, config.hmac, attempt - 1, headers.entries, attempt);
      Restamp(r, DirectRequest(w, body, old(headers.entries), config.hmac), attempt - 1, attempt);
      log := log + [Posted(w.id, Request(w.url, headers.entries, body))];
      ok := answer.Answered? && answer.ok && answer.stored;
      if ok {
        log := log + [Triggered(w.id)];
      }
    }

    method PrepareHeaders(w: Webhook, body: string, headers: HeaderBag, attempt: nat)
      requires 1 <= attempt
      modifies headers
      ensures var signed := DirectHeaders(old(headers.entries), w, body, config.hmac);
        headers.entries == signed[RETRY_COUNT := Decimal(attempt - 1)]
    {
      headers.Set(RETRY_COUNT, Decimal(attempt - 1));
      if w.secret != "" && (SIGNATURE !in headers.entries || headers.entries[SIGNATURE] == "") {
        headers.Set(SIGNATURE, Signature(config.hmac, body, w.secret));
      }
      SharedHeaders(old(headers.entries), w, body, config.hmac, attempt - 1, headers.entries);
    }

    // dispatch: `stored` is what the repository returned for the session. False where it throws.
    method Dispatch(stored: seq<Webhook>, sessionId: string, event: string, data: Record, turns: nat -> Turn)
        returns (ok: bool)
      requires forall w <- stored :: OwnKeys(w.headers, config.parse)
      modifies this`log, this`queue, data
      ensures var o, ws := Occasion(sessionId, event, old(data.fields)), Matching(stored, event);
        && log == old(log) + DispatchLog(config, o, KeyFor(o, config), ws, turns)
        && queue == old(queue) + DispatchQueue(config, o, KeyFor(o, config), ws, turns)
        && Progress(ok, data.fields) == After(config, o, KeyFor(o, config), ws, turns)
      ensures old(log) <= log && ServesSubscribers(log[|old(log)|..], stored, event, ok)
    {
      ghost var o := Occasion(sessionId, event, data.fields);
      var matchingWebhooks := Matching(stored, event);
      MatchingStored(stored, event);
      Subscribers(config, o, stored, turns);
      var key := KeyFor(Occasion(sessionId, event, data.fields), config);
      ok := DispatchTo(matchingWebhooks, sessionId, event, data, key, turns);
      Grown(old(log), DispatchLog(config, o, KeyFor(o, config), matchingWebhooks, turns));
    }

    // The loop over the matching webhooks, left where a pass throws.
    method DispatchTo(ws: seq<Webhook>, sessionId: string, event: string, data: Record, key: string, turns: nat -> Turn)
        returns (ok: bool)
      requires forall w <- ws :: OwnKeys(w.headers, config.parse)
      modifies this`log, this`queue, data
      ensures var o := Occasion(sessionId, event, old(data.fields));
        && log == old(log) + DispatchLog(config, o, key, ws, turns)
        && queue == old(queue) + DispatchQueue(config, o, key, ws, turns)
        && Progress(ok, data.fields) == After(config, o, key, ws, turns)
    {
      ghost var o := Occasion(sessionId, event, data.fields);
      ok := true;
      for i := 0 to |ws|
        invariant log == old(log) + DispatchLog(config, o, key, ws[..i], turns)
        invariant queue == old(queue) + DispatchQueue(config, o, key, ws[..i], turns)
        invariant ok && Progress(true, data.fields) == After(config, o, key, ws[..i], turns)
      {
        assert ws[i] in ws;
        ok := DispatchOne(ws[i], sessionId, event, data, key, turns(i));
        LogStep(old(log), old(queue), config, o, key, ws, turns, i);
        if !ok {
          Aborted(config, o, key, ws, turns, i + 1);
          return;
        }
      }
      assert ws[..|ws|] == ws;
    }

    // One pass of the loop: the payload holds the shared data itself, so plugins can write into it. False where it
    // throws.
    method DispatchOne(w: Webhook, sessionId: string, event: string, data: Record, key: string, turn: Turn)
        returns (ok: bool)
      requires OwnKeys(w.headers, config.parse)
      modifies this`log, this`queue, data
      ensures var o := Occasion(sessionId, event, old(data.fields));
        && log == old(log) + Segment(config, o, key, w, turn)
        && queue == old(queue) + Queued(config, o, key, w, turn)
        && data.fields == Sent(o, key, turn).data && ok == !Aborts(config, o, key, w, turn)
    {
      var o := Occasion(sessionId, event, data.fields);
      log := log + [Hook(w.id, "webhook:before")];
      var result := turn.before(PayloadFor(o, key, turn), data.fields);
      data.fields := result.data;
      if result.verdict.Stopped? {
        return true;
      }
      if result.verdict.NullResult? {
        return false;
      }
      var finalPayload := result.verdict.offer;
      var parsedHeaders := ParseWebhookHeaders(w.headers);
      var headers := new HeaderBag(BaseHeaders(o, key, turn) + parsedHeaders);
      if config.queueEnabled {
        ok := Enqueue(w, finalPayload, headers, turn.added);
      } else {
        Deliver(w, finalPayload, headers, turn.answers);
        ok := true;
        ghost var h := HeadersFor(config, o, key, w, turn);
        Assoc(old(log), [Hook(w.id, "webhook:before")],
              DirectLog(w, finalPayload, h, config.retryDelay, config.hmac, turn.answers));
      }
    }

    // The queue mode of a pass. Signing comes before the try block: a payload without a text throws there.
    method Enqueue(w: Webhook, offer: Offer, headers: HeaderBag, added: bool) returns (ok: bool)
      modifies headers, this`log, this`queue
      ensures ok == (w.secret == "" || offer.Payload?)
      ensures var taken := ok && added && !offer.Unprintable?;
        && log == old(log) + (if !ok then [] else [Hook(w.id, if taken then "webhook:queued" else "webhook:error")])
        && queue == old(queue) + (if taken then [JobOf(w, offer, old(headers.entries), config.hmac)] else [])
    {
      if w.secret != "" {
        if !offer.Payload? {
          return false;
        }
        headers.Set(SIGNATURE, Signature(config.hmac, Body(offer), w.secret));
      }
      if added && !offer.Unprintable? {
        queue := queue + [Job(w.id, w.url, headers.entries, InQueue(offer), w.retryCount, w.retryCount)];
        log := log + [Hook(w.id, "webhook:queued")];
      } else {
        log := log + [Hook(w.id, "webhook:error")];
      }
      ok := true;
    }

    // The direct mode of a pass.
    method Deliver(w: Webhook, offer: Offer, headers: HeaderBag, answers: nat -> Answer)
      modifies headers, this`log
      ensures log == old(log) + DirectLog(w, offer, old(headers.entries), config.retryDelay, config.hmac, answers)
    {
      ghost var h := headers.entries;
      var delivered := DeliverWebhook(w, offer, headers, answers);
      if delivered {
        log := log + [Hook(w.id, "webhook:delivered")];
        log := log + [Hook(w.id, "webhook:after")];
      } else {
        log := log + [Hook(w.id, "webhook:error")];
      }
      Delivers(old(log), w, offer, h, config, answers);
    }
  }

  class WebhookProcessor {
    var log: seq<Event>

    constructor ()
      ensures log == []
    {
      log := [];
    }

    // process: one attempt; false where it throws to have the queue retry. A payload that is null or missing throws
    // at once.
    method Process(job: Job, attemptsMade: nat, answer: Answer) returns (ok: bool)
      modifies this
      ensures ok == (Processable(job) && Accepted(answer))
      ensures !Processable(job) ==> log == old(log)
      ensures Processable(job) ==>
        log == old(log) + [Posted(job.webhookId, Stamp(JobRequest(job), attemptsMade))]
             + (if ok || attemptsMade + 1 >= job.maxRetries then Ending(job.webhookId, ok) else [])
    {
      if job.payload.None? || job.payload.value.Null? {
        return false;
      }
      var requestHeaders := job.headers[RETRY_COUNT := Decimal(attemptsMade)];
      log := log + [Posted(job.webhookId, Request(job.url, requestHeaders, Text(job.payload.value)))];
      if answer.Answered? && answer.ok && answer.stored {
        log := log + [Triggered(job.webhookId)] + [Hook(job.webhookId, "webhook:delivered")];
        assert Ending(job.webhookId, true) == [Triggered(job.webhookId)] + [Hook(job.webhookId, "webhook:delivered")];
        return true;
      }
      var isFinalAttempt := attemptsMade + 1 >= job.maxRetries;
      if isFinalAttempt {
        log := log + [Hook(job.webhookId, "webhook:error")];
      }
      return false;
    }

    // What the queue does with a job: process it until it succeeds or its attempts are used up, at least once.
    // The processor's own count of the last attempt then agrees with the queue's.
    method RunJob(job: Job, answers: nat -> Answer) returns (ok: bool)
      requires job.maxRetries == job.attempts
      modifies this
      ensures log == old(log) + JobLog(job, answers)
      ensures ok == (Processable(job) && Accepted(answers(Tries(answers, 0, Limit(job.attempts)) - 1)))
    {
      ghost var r := JobRequest(job);
      ghost var n := Tries(answers, 0, Limit(job.attempts));
      TriesStops(answers, 0, Limit(job.attempts), n);
      ok := Process(job, 0, answers(0));
      var attemptsMade := 1;
      JobStep(old(log), job.webhookId, r, 0);
      assert QueueAttempts(job.webhookId, r, 0) == [];
      while !ok && attemptsMade < job.attempts
        invariant attemptsMade >= 1 && ok == (Processable(job) && Accepted(answers(attemptsMade - 1)))
        invariant !Processable(job) ==> log == old(log)
        invariant Processable(job) ==> attemptsMade <= n
        invariant Processable(job) ==>
          log == old(log) + QueueAttempts(job.webhookId, r, attemptsMade)
               + (if ok || attemptsMade >= job.maxRetries then Ending(job.webhookId, ok) else [])
        decreases job.attempts - attemptsMade
      {
        ok := Process(job, attemptsMade, answers(attemptsMade));
        JobStep(old(log), job.webhookId, r, attemptsMade);
        attemptsMade := attemptsMade + 1;
      }
    }
  }

  // ---------- helpers ----------

  lemma {:induction false} GetAt(members: seq<Member>, i: nat)
    requires i < |members|
    requires forall j, k :: 0 <= j < k < |members| ==> members[j].key != members[k].key
    ensures Get(members, members[i].key) == Some(members[i].value)
  {
    if i > 0 { GetAt(members[1..], i - 1); }
  }

  lemma ParsedAll(entries: seq<Member>, h: Headers)
    requires Parsed(entries, |entries|, h)
    ensures h == StringMembers(entries)
  {
    var all := StringMembers(entries);
    forall k ensures k in h <==> k in all {
      if k in all { assert Seen(entries, |entries|, k); }
    }
  }

  lemma ParsedStep(entries: seq<Member>, i: nat, h: Headers)
    requires i < |entries| && Parsed(entries, i, h)
    requires forall j, k :: 0 <= j < k < |entries| ==> entries[j].key != entries[k].key
    ensures var e := entries[i];
      Parsed(entries, i + 1, if e.value.Str? && e.key != "__proto__" then h[e.key := e.value.s] else h)
  {
    GetAt(entries, i);
    forall k ensures Seen(entries, i + 1, k) <==> Seen(entries, i, k) || k == entries[i].key {}
  }

  // The shared object holds exactly what this attempt should send.
  lemma SharedHeaders(h: Headers, w: Webhook, body: string, hmac: (string, string) -> string, k: nat, now: Headers)
    requires var stamped := h[RETRY_COUNT := Decimal(k)];
      now == if w.secret != "" && (SIGNATURE !in stamped || stamped[SIGNATURE] == "")
             then stamped[SIGNATURE := Signature(hmac, body, w.secret)] else stamped
    ensures now == DirectHeaders(h, w, body, hmac)[RETRY_COUNT := Decimal(k)]
  {
    NamesApart();
  }

  // The next attempt starts from it and only moves the retry count.
  lemma SharedAgain(h: Headers, w: Webhook, body: string, hmac: (string, string) -> string, k: nat, now: Headers,
                    next: nat)
    requires now == DirectHeaders(h, w, body, hmac)[RETRY_COUNT := Decimal(k)]
    ensures DirectHeaders(now, w, body, hmac) == now
    ensures now[RETRY_COUNT := Decimal(next)] == DirectHeaders(h, w, body, hmac)[RETRY_COUNT := Decimal(next)]
  {
    NamesApart();
    assert "sha256=" + hmac(body, w.secret) != "";
  }

  lemma LogLast(log: seq<Event>, w: Webhook, r: Request, retryDelay: nat, first: nat, answers: nat -> Answer)
    requires first < Limit(w.retryCount) && (Accepted(answers(first)) || first + 1 == Limit(w.retryCount))
    ensures Succeeds(answers, first, Limit(w.retryCount)) == Accepted(answers(first))
    ensures log + DeliverLog(w, r, retryDelay, first, answers)
      == log + [Posted(w.id, Stamp(r, first))] + if Accepted(answers(first)) then [Triggered(w.id)] else []
  {
  }

  lemma LogAgain(log: seq<Event>, sofar: seq<Event>, w: Webhook, r: Request, retryDelay: nat, first: nat,
                 answers: nat -> Answer)
    requires first + 1 < Limit(w.retryCount) && !Accepted(answers(first))
    requires sofar == log + [Posted(w.id, Stamp(r, first))] + [] + [Waited(w.id, retryDelay * (first + 1))]
    ensures Succeeds(answers, first, Limit(w.retryCount)) == Succeeds(answers, first + 1, Limit(w.retryCount))
    ensures sofar + DeliverLog(w, r, retryDelay, first + 1, answers)
         == log + DeliverLog(w, r, retryDelay, first, answers)
  {
    var n := Tries(answers, first + 1, Limit(w.retryCount));
    Regroup(log, Posted(w.id, Stamp(r, first)), Waited(w.id, retryDelay * (first + 1)),
            DirectAttempts(w.id, r, retryDelay, first + 1, n),
            if Accepted(answers(first + n)) then [Triggered(w.id)] else []);
  }

  lemma Regroup<T>(l: seq<T>, e: T, f: T, rest: seq<T>, end: seq<T>)
    ensures (l + [e] + [] + [f]) + (rest + end) == l + (([e, f] + rest) + end)
  {
  }

  lemma JobStep(l: seq<Event>, id: string, r: Request, k: nat)
    ensures ((l + QueueAttempts(id, r, k)) + []) + [Posted(id, Stamp(r, k))] == l + QueueAttempts(id, r, k + 1)
  {
    QueueStep(id, r, k + 1);
  }

  lemma Grown<T>(a: seq<T>, b: seq<T>)
    ensures a <= a + b && (a + b)[|a|..] == b
  {
  }

  lemma {:induction false} MatchingStored(stored: seq<Webhook>, event: string)
    ensures forall w <- Matching(stored, event) :: w in stored
  {
    if stored != [] { MatchingStored(stored[1..], event); }
  }

  lemma LogStep(l: seq<Event>, q: seq<Job>, c: Config, o: Occasion, key: string, ws: seq<Webhook>, turns: nat -> Turn,
                i: nat)
    requires i < |ws|
    ensures var p := After(c, o, key, ws[..i], turns);
      && (l + DispatchLog(c, o, key, ws[..i], turns)) + SegmentAt(c, o, key, p, ws[i], turns(i))
        == l + DispatchLog(c, o, key, ws[..i + 1], turns)
      && (q + DispatchQueue(c, o, key, ws[..i], turns)) + QueuedAt(c, o, key, p, ws[i], turns(i))
        == q + DispatchQueue(c, o, key, ws[..i + 1], turns)
      && Next(c, o, key, p, ws[i], turns(i)) == After(c, o, key, ws[..i + 1], turns)
  {
    var p := After(c, o, key, ws[..i], turns);
    assert ws[..i + 1][..i] == ws[..i];
    Assoc(l, DispatchLog(c, o, key, ws[..i], turns), SegmentAt(c, o, key, p, ws[i], turns(i)));
    Assoc(q, DispatchQueue(c, o, key, ws[..i], turns), QueuedAt(c, o, key, p, ws[i], turns(i)));
  }

  // Behind a turn that aborts, nothing happens.
  lemma {:induction false} Aborted(c: Config, o: Occasion, key: string, ws: seq<Webhook>, turns: nat -> Turn, j: nat)
    requires j <= |ws| && !After(c, o, key, ws[..j], turns).going
    ensures DispatchLog(c, o, key, ws, turns) == DispatchLog(c, o, key, ws[..j], turns)
    ensures DispatchQueue(c, o, key, ws, turns) == DispatchQueue(c, o, key, ws[..j], turns)
    ensures After(c, o, key, ws, turns) == After(c, o, key, ws[..j], turns)
    decreases |ws|
  {
    if j < |ws| {
      assert ws[..|ws| - 1][..j] == ws[..j];
      Aborted(c, o, key, ws[..|ws| - 1], turns, j);
    } else {
      assert ws[..j] == ws;
    }
  }

  lemma Delivers(l: seq<Event>, w: Webhook, offer: Offer, h: Headers, c: Config, answers: nat -> Answer)
    ensures var work := DeliverWork(w, offer, h, c, answers);
      l + DirectLog(w, offer, h, c.retryDelay, c.hmac, answers)
      == if Readable(offer) && Succeeds(answers, 0, Limit(w.retryCount))
         then ((l + work) + [Hook(w.id, "webhook:delivered")]) + [Hook(w.id, "webhook:after")]
         else (l + work) + [Hook(w.id, "webhook:error")]
  {
    if Readable(offer) {
      var n := Tries(answers, 0, Limit(w.retryCount));
      var r := DirectRequest(w, Body(offer), h, c.hmac);
      var attempts := DirectAttempts(w.id, r, c.retryDelay, 0, n);
      if Succeeds(answers, 0, Limit(w.retryCount)) { Closing(l, attempts, w.id); } else { Failing(l, attempts, w.id); }
    } else {
      Assoc(l, DeliverWork(w, offer, h, c, answers), [Hook(w.id, "webhook:error")]);
    }
  }

  lemma Closing(l: seq<Event>, attempts: seq<Event>, id: string)
    ensures ((l + (attempts + [Triggered(id)])) + [Hook(id, "webhook:delivered")]) + [Hook(id, "webhook:after")]
      == l + (attempts + DirectClosing(id, true))
  {
  }

  lemma Failing(l: seq<Event>, attempts: seq<Event>, id: string)
    ensures (l + (attempts + [])) + [Hook(id, "webhook:error")] == l + (attempts + DirectClosing(id, false))
  {
  }
}
