/**
 What delivering a webhook event comes to: the requests, waits and hooks of both delivery modes. The
 digest of HMAC-SHA-256, the endpoint's answers and the plugins are parameters.
 */
module Webhook {
  import opened Json
  import opened Stringify
  import opened Strings

  type Headers = map<string, string>

  const CONTENT_TYPE := "Content-Type"
  const USER_AGENT := "User-Agent"
  const EVENT := "X-WhatsGate-Event"
  const IDEMPOTENCY_KEY := "X-WhatsGate-Idempotency-Key"
  const DELIVERY_ID := "X-WhatsGate-Delivery-Id"
  const RETRY_COUNT := "X-WhatsGate-Retry-Count"
  const SIGNATURE := "X-WhatsGate-Signature"

  // secret is "" where the stored one is null: both mean that nothing is signed.
  datatype Webhook = Webhook(
    id: string, url: string, events: seq<string>, secret: string, headers: Json, retryCount: int)

  // The body of a request without one is empty; no JSON text is.
  datatype Request = Request(url: string, headers: Headers, body: string)

  // What one POST comes to: no answer, or an answer and the update of lastTriggeredAt that follows a good one.
  datatype Answer = Unanswered | Answered(ok: bool, stored: bool)

  predicate Accepted(a: Answer) {
    a.Answered? && a.ok && a.stored
  }

  // The payload that plugins leave to be sent: there may be none, it may be a value that JSON.stringify rejects, or
  // it is a JSON value.
  datatype Offer = NoPayload | Unprintable | Payload(value: Json)

  function Body(offer: Offer): string {
    if offer.Payload? then Text(offer.value) else ""
  }

  // Delivery reads a property of the payload, which throws for null and for none.
  predicate Readable(offer: Offer) {
    offer.Payload? && !offer.value.Null?
  }

  // A payload that comes out of the queue's JSON as something other than null. (Numbers that are not finite print
  // as null.)
  predicate Survives(payload: Json) {
    !payload.Null? && (payload.Num? ==> Finite(payload.text))
  }

  // What delivery does to the world, for the webhook with the given id.
  datatype Event =
    | Posted(id: string, request: Request)
    | Waited(id: string, ms: nat)
    | Triggered(id: string)
    | Hook(id: string, name: string)

  // A webhook that asks for no attempt still gets one.
  function Limit(retryCount: int): nat {
    if retryCount > 1 then retryCount else 1
  }

  function Signature(hmac: (string, string) -> string, body: string, secret: string): string {
    "sha256=" + hmac(body, secret)
  }

  // Direct delivery signs unless there is a custom signature.
  predicate Signs(h: Headers, w: Webhook) {
    w.secret != "" && (SIGNATURE !in h || h[SIGNATURE] == "")
  }

  function DirectHeaders(h: Headers, w: Webhook, body: string, hmac: (string, string) -> string): Headers {
    if Signs(h, w) then h[SIGNATURE := Signature(hmac, body, w.secret)] else h
  }

  function QueueHeaders(h: Headers, w: Webhook, body: string, hmac: (string, string) -> string): Headers {
    if w.secret != "" then h[SIGNATURE := Signature(hmac, body, w.secret)] else h
  }

  // The request of attempt k, counted from 0.
  function Stamp(r: Request, k: nat): Request {
    r.(headers := r.headers[RETRY_COUNT := Decimal(k)])
  }

  // How many POSTs are made from attempt `first` on.
  function Tries(answers: nat -> Answer, first: nat, limit: nat): nat
    requires first < limit
    decreases limit - first
  {
    if Accepted(answers(first)) || first + 1 == limit then 1 else 1 + Tries(answers, first + 1, limit)
  }

  function DirectAttempts(id: string, r: Request, retryDelay: nat, first: nat, n: nat): seq<Event>
    requires n > 0
    decreases n
  {
    var post := Posted(id, Stamp(r, first));
    if n == 1 then [post]
    else [post, Waited(id, retryDelay * (first + 1))] + DirectAttempts(id, r, retryDelay, first + 1, n - 1)
  }

  function DirectClosing(id: string, ok: bool): seq<Event> {
    if ok then [Triggered(id), Hook(id, "webhook:delivered"), Hook(id, "webhook:after")]
    else [Hook(id, "webhook:error")]
  }

  function DirectRetries(w: Webhook, body: string, h: Headers, retryDelay: nat, hmac: (string, string) -> string,
                         answers: nat -> Answer): seq<Event> {
    var n := Tries(answers, 0, Limit(w.retryCount));
    DirectAttempts(w.id, Request(w.url, DirectHeaders(h, w, body, hmac), body), retryDelay, 0, n)
    + DirectClosing(w.id, Accepted(answers(n - 1)))
  }

  // Nothing can be posted: the payload has no text, or no text to sign.
  predicate Refused(w: Webhook, offer: Offer, h: Headers) {
    offer.Unprintable? || (offer.NoPayload? && Signs(h, w))
  }

  // The one attempt with a payload that cannot be read: reading it throws after the answer, whatever that is,
  // and nothing retries.
  function OneAttempt(w: Webhook, body: string, h: Headers, hmac: (string, string) -> string, a: Answer): seq<Event> {
    [Posted(w.id, Stamp(Request(w.url, DirectHeaders(h, w, body, hmac), body), 0))]
    + if Accepted(a) then [Triggered(w.id)] else []
  }

  function DirectLog(w: Webhook, offer: Offer, h: Headers, retryDelay: nat, hmac: (string, string) -> string,
                     answers: nat -> Answer): seq<Event> {
    if Readable(offer) then DirectRetries(w, Body(offer), h, retryDelay, hmac, answers)
    else
      (if Refused(w, offer, h) then [] else OneAttempt(w, Body(offer), h, hmac, answers(0)))
      + [Hook(w.id, "webhook:error")]
  }

  function QueueAttempts(id: string, r: Request, n: nat): seq<Event> {
    seq(n, k requires 0 <= k < n => Posted(id, Stamp(r, k)))
  }

  // How a delivery ends: for the queue, this is all; direct delivery adds a hook.
  function Ending(id: string, ok: bool): seq<Event> {
    if ok then [Triggered(id), Hook(id, "webhook:delivered")] else [Hook(id, "webhook:error")]
  }

  // What is put in the queue for one webhook, and comes out again; there may be no payload in it.
  datatype Job = Job(
    webhookId: string, url: string, headers: Headers, payload: Option<Json>, maxRetries: int, attempts: int)

  function InQueue(offer: Offer): Option<Json> {
    if offer.Payload? then Some(if Survives(offer.value) then offer.value else Null) else None
  }

  function JobOf(w: Webhook, offer: Offer, h: Headers, hmac: (string, string) -> string): Job {
    Job(w.id, w.url, QueueHeaders(h, w, Body(offer), hmac), InQueue(offer), w.retryCount, w.retryCount)
  }

  // The processor throws at once, every time, on a job whose payload is null or missing.
  predicate Processable(job: Job) {
    job.payload.Some? && !job.payload.value.Null?
  }

  function JobRequest(job: Job): Request {
    Request(job.url, job.headers, if job.payload.Some? then Text(job.payload.value) else "")
  }

  // Everything that running a job to its end does.
  function JobLog(job: Job, answers: nat -> Answer): seq<Event> {
    if !Processable(job) then []
    else
      var n := Tries(answers, 0, Limit(job.attempts));
      QueueAttempts(job.webhookId, JobRequest(job), n) + Ending(job.webhookId, Accepted(answers(n - 1)))
  }

  function Collect<T>(log: seq<Event>, of: Event -> seq<T>): seq<T> {
    if log == [] then [] else of(log[0]) + Collect(log[1..], of)
  }

  function Posts(log: seq<Event>): seq<Request> {
    Collect(log, PostOf)
  }

  function PostOf(e: Event): seq<Request> {
    if e.Posted? then [e.request] else []
  }

  // The hooks that tell how a delivery ended, and the updates of lastTriggeredAt.
  function Ends(log: seq<Event>): seq<Event> {
    Collect(log, EndOf)
  }

  function EndOf(e: Event): seq<Event> {
    if e.Triggered? || (e.Hook? && (e.name == "webhook:delivered" || e.name == "webhook:error")) then [e] else []
  }

  function Waits(log: seq<Event>): nat {
    if log == [] then 0 else (if log[0].Waited? then log[0].ms else 0) + Waits(log[1..])
  }

  function Requests(r: Request, first: nat, n: nat): seq<Request> {
    seq(n, k requires 0 <= k < n => Stamp(r, first + k))
  }

  // ---------- how many attempts ----------

  // n is the position of the first accepted attempt, or else the limit.
  predicate Stops(answers: nat -> Answer, first: nat, limit: nat, n: nat) {
    && first < first + n <= limit
    && (forall k: nat :: first <= k < first + n - 1 ==> !Accepted(answers(k)))
    && (Accepted(answers(first + n - 1)) || first + n == limit)
  }

  lemma {:induction false} TriesStops(answers: nat -> Answer, first: nat, limit: nat, n: nat)
    requires first < limit
    ensures Stops(answers, first, limit, n) <==> n == Tries(answers, first, limit)
    decreases limit - first
  {
    if !Accepted(answers(first)) && first + 1 < limit {
      TriesStops(answers, first + 1, limit, Tries(answers, first + 1, limit));
      if n > 1 { TriesStops(answers, first + 1, limit, n - 1); }
    }
  }

  // ---------- the projections ----------

  lemma CollectStep<T>(e: Event, log: seq<Event>, of: Event -> seq<T>)
    ensures Collect([e] + log, of) == of(e) + Collect(log, of)
  {
    assert ([e] + log)[1..] == log;
  }

  lemma {:induction false} CollectConcat<T>(a: seq<Event>, b: seq<Event>, of: Event -> seq<T>)
    ensures Collect(a + b, of) == Collect(a, of) + Collect(b, of)
  {
    if a == [] {
      assert a + b == b;
    } else {
      var e, rest := a[0], a[1..];
      CollectConcat(rest, b, of);
      assert a == [e] + rest;
      Assoc([e], rest, b);
      CollectStep(e, rest + b, of);
      Assoc(of(e), Collect(rest, of), Collect(b, of));
    }
  }

  lemma {:induction false} WaitsConcat(a: seq<Event>, b: seq<Event>)
    ensures Waits(a + b) == Waits(a) + Waits(b)
  {
    if a == [] {
      assert a + b == b;
    } else {
      WaitsConcat(a[1..], b);
      assert (a + b)[1..] == a[1..] + b;
    }
  }

  lemma CollectOne<T>(e: Event, of: Event -> seq<T>)
    ensures Collect([e], of) == of(e)
  {
    assert Collect([e][1..], of) == [];
  }

  lemma CollectTwo<T>(e: Event, f: Event, of: Event -> seq<T>)
    ensures Collect([e, f], of) == of(e) + of(f)
  {
    assert [e, f] == [e] + [f];
    CollectConcat([e], [f], of);
    CollectOne(e, of);
    CollectOne(f, of);
  }

  lemma RequestsStep(r: Request, first: nat, n: nat)
    requires n > 0
    ensures Requests(r, first, n) == [Stamp(r, first)] + Requests(r, first + 1, n - 1)
    ensures Requests(r, first, n) == Requests(r, first, n - 1) + [Stamp(r, first + n - 1)]
  {
  }

  lemma {:induction false} DirectPosts(id: string, r: Request, retryDelay: nat, first: nat, n: nat)
    requires n > 0
    ensures Posts(DirectAttempts(id, r, retryDelay, first, n)) == Requests(r, first, n)
    decreases n
  {
    var post, wait := Posted(id, Stamp(r, first)), Waited(id, retryDelay * (first + 1));
    RequestsStep(r, first, n);
    if n > 1 {
      DirectPosts(id, r, retryDelay, first + 1, n - 1);
      CollectConcat([post, wait], DirectAttempts(id, r, retryDelay, first + 1, n - 1), PostOf);
      CollectTwo(post, wait, PostOf);
    } else {
      CollectOne(post, PostOf);
    }
  }

  lemma {:induction false} DirectEndless(id: string, r: Request, retryDelay: nat, first: nat, n: nat)
    requires n > 0
    ensures Ends(DirectAttempts(id, r, retryDelay, first, n)) == []
    decreases n
  {
    var post, wait := Posted(id, Stamp(r, first)), Waited(id, retryDelay * (first + 1));
    if n > 1 {
      DirectEndless(id, r, retryDelay, first + 1, n - 1);
      CollectConcat([post, wait], DirectAttempts(id, r, retryDelay, first + 1, n - 1), EndOf);
      CollectTwo(post, wait, EndOf);
    } else {
      CollectOne(post, EndOf);
    }
  }

  lemma {:induction false} DirectWaits(id: string, r: Request, retryDelay: nat, first: nat, n: nat)
    requires n > 0
    ensures 2 * Waits(DirectAttempts(id, r, retryDelay, first, n)) == retryDelay * ((n - 1) * (2 * first + n))
    decreases n
  {
    if n > 1 {
      DirectWaits(id, r, retryDelay, first + 1, n - 1);
      WaitsConcat([Posted(id, Stamp(r, first)), Waited(id, retryDelay * (first + 1))],
                  DirectAttempts(id, r, retryDelay, first + 1, n - 1));
      WaitStep(retryDelay, first, n);
    }
  }

  lemma WaitStep(d: nat, first: nat, n: nat)
    requires n > 1
    ensures 2 * (d * (first + 1)) + d * ((n - 2) * (2 * (first + 1) + (n - 1))) == d * ((n - 1) * (2 * first + n))
  {
    assert 2 * (first + 1) + (n - 2) * (2 * (first + 1) + (n - 1)) == (n - 1) * (2 * first + n);
    assert 2 * (d * (first + 1)) == d * (2 * (first + 1));
  }

  lemma {:induction false} QueuePosts(id: string, r: Request, n: nat)
    ensures Posts(QueueAttempts(id, r, n)) == Requests(r, 0, n)
    ensures Ends(QueueAttempts(id, r, n)) == []
  {
    if n > 0 {
      QueuePosts(id, r, n - 1);
      var last := Posted(id, Stamp(r, n - 1));
      RequestsStep(r, 0, n);
      QueueStep(id, r, n);
      CollectConcat(QueueAttempts(id, r, n - 1), [last], PostOf);
      CollectConcat(QueueAttempts(id, r, n - 1), [last], EndOf);
      CollectOne(last, PostOf);
      CollectOne(last, EndOf);
    }
  }

  lemma QueueStep(id: string, r: Request, n: nat)
    requires n > 0
    ensures QueueAttempts(id, r, n) == QueueAttempts(id, r, n - 1) + [Posted(id, Stamp(r, n - 1))]
  {
  }

  // ---------- the main results ----------

  // Direct delivery of a readable payload: n = min(first success, max(1, retryCount)) POSTs, all alike but for the
  // retry count, which runs from 0 to n - 1, a total wait of retryDelay * n * (n - 1) / 2, and one end. Any other
  // payload is posted once at most, and fails whatever the answer is.
  lemma DirectDelivery(w: Webhook, offer: Offer, h: Headers, retryDelay: nat, hmac: (string, string) -> string,
                       answers: nat -> Answer) returns (n: nat)
    ensures var log := DirectLog(w, offer, h, retryDelay, hmac, answers);
      var r := Request(w.url, DirectHeaders(h, w, Body(offer), hmac), Body(offer));
      && Posts(log) == Requests(r, 0, n)
      && 2 * Waits(log) == retryDelay * (n * (n - 1))
      && if Readable(offer) then
           Stops(answers, 0, Limit(w.retryCount), n) && Ends(log) == Ending(w.id, Accepted(answers(n - 1)))
         else
           && n == (if Refused(w, offer, h) then 0 else 1)
           && Ends(log)
             == (if n == 1 && Accepted(answers(0)) then [Triggered(w.id)] else []) + [Hook(w.id, "webhook:error")]
  {
    if Readable(offer) {
      n := DirectRetried(w, Body(offer), h, retryDelay, hmac, answers);
    } else {
      n := if Refused(w, offer, h) then 0 else 1;
      DirectFails(w, offer, h, retryDelay, hmac, answers);
    }
  }

  lemma DirectFails(w: Webhook, offer: Offer, h: Headers, retryDelay: nat, hmac: (string, string) -> string,
                    answers: nat -> Answer)
    requires !Readable(offer)
    ensures var log := DirectLog(w, offer, h, retryDelay, hmac, answers);
      var r := Request(w.url, DirectHeaders(h, w, Body(offer), hmac), Body(offer));
      var posted := !Refused(w, offer, h);
      && Posts(log) == Requests(r, 0, if posted then 1 else 0) && Waits(log) == 0
      && Ends(log)
        == (if posted && Accepted(answers(0)) then [Triggered(w.id)] else []) + [Hook(w.id, "webhook:error")]
  {
    var error := [Hook(w.id, "webhook:error")];
    var attempt := OneAttempt(w, Body(offer), h, hmac, answers(0));
    QueueEnds(w.id, false);
    assert Waits(error) == 0;
    if Refused(w, offer, h) {
      assert [] + error == error;
    } else {
      OneAttemptIs(w, Body(offer), h, hmac, answers(0));
      CollectConcat(attempt, error, PostOf);
      CollectConcat(attempt, error, EndOf);
      WaitsConcat(attempt, error);
    }
  }

  lemma OneAttemptIs(w: Webhook, body: string, h: Headers, hmac: (string, string) -> string, a: Answer)
    ensures var attempt := OneAttempt(w, body, h, hmac, a);
      && Posts(attempt) == Requests(Request(w.url, DirectHeaders(h, w, body, hmac), body), 0, 1)
      && Ends(attempt) == (if Accepted(a) then [Triggered(w.id)] else []) && Waits(attempt) == 0
  {
    var post := Posted(w.id, Stamp(Request(w.url, DirectHeaders(h, w, body, hmac), body), 0));
    var triggered := if Accepted(a) then [Triggered(w.id)] else [];
    TriggeredIs(w.id, Accepted(a));
    CollectStep(post, triggered, PostOf);
    CollectStep(post, triggered, EndOf);
    WaitsConcat([post], triggered);
  }

  lemma TriggeredIs(id: string, ok: bool)
    ensures var t := if ok then [Triggered(id)] else [];
      Posts(t) == [] && Ends(t) == t && Waits(t) == 0
  {
    CollectOne(Triggered(id), PostOf);
    CollectOne(Triggered(id), EndOf);
  }

  lemma DirectRetried(w: Webhook, body: string, h: Headers, retryDelay: nat, hmac: (string, string) -> string,
                      answers: nat -> Answer) returns (n: nat)
    ensures Stops(answers, 0, Limit(w.retryCount), n)
    ensures var log := DirectRetries(w, body, h, retryDelay, hmac, answers);
      && Posts(log) == Requests(Request(w.url, DirectHeaders(h, w, body, hmac), body), 0, n)
      && 2 * Waits(log) == retryDelay * (n * (n - 1))
      && Ends(log) == Ending(w.id, Accepted(answers(n - 1)))
  {
    n := Tries(answers, 0, Limit(w.retryCount));
    TriesStops(answers, 0, Limit(w.retryCount), n);
    var r := Request(w.url, DirectHeaders(h, w, body, hmac), body);
    var attempts, closing := DirectAttempts(w.id, r, retryDelay, 0, n), DirectClosing(w.id, Accepted(answers(n - 1)));
    DirectPosts(w.id, r, retryDelay, 0, n);
    DirectEndless(w.id, r, retryDelay, 0, n);
    DirectWaits(w.id, r, retryDelay, 0, n);
    CollectConcat(attempts, closing, PostOf);
    CollectConcat(attempts, closing, EndOf);
    WaitsConcat(attempts, closing);
    DirectEnds(w.id, Accepted(answers(n - 1)));
    assert (n - 1) * (2 * 0 + n) == n * (n - 1);
  }

  lemma DirectEnds(id: string, ok: bool)
    ensures Posts(DirectClosing(id, ok)) == [] && Waits(DirectClosing(id, ok)) == 0
    ensures Ends(DirectClosing(id, ok)) == Ending(id, ok)
  {
    QueueEnds(id, ok);
    if ok {
      var after := Hook(id, "webhook:after");
      assert DirectClosing(id, ok) == Ending(id, ok) + [after];
      assert "webhook:after"[8] != "webhook:delivered"[8] && "webhook:after"[8] != "webhook:error"[8];
      CollectConcat(Ending(id, ok), [after], PostOf);
      CollectConcat(Ending(id, ok), [after], EndOf);
      CollectOne(after, PostOf);
      CollectOne(after, EndOf);
      WaitsConcat(Ending(id, ok), [after]);
    }
  }

  lemma QueueEnds(id: string, ok: bool)
    ensures Posts(Ending(id, ok)) == [] && Ends(Ending(id, ok)) == Ending(id, ok) && Waits(Ending(id, ok)) == 0
  {
    if ok {
      assert Ending(id, ok) == [Triggered(id)] + [Hook(id, "webhook:delivered")];
      WaitsConcat([Triggered(id)], [Hook(id, "webhook:delivered")]);
      CollectTwo(Triggered(id), Hook(id, "webhook:delivered"), PostOf);
      CollectTwo(Triggered(id), Hook(id, "webhook:delivered"), EndOf);
    } else {
      CollectOne(Hook(id, "webhook:error"), PostOf);
      CollectOne(Hook(id, "webhook:error"), EndOf);
    }
  }

  // A job whose payload can be read is processed as often, and ends alike. Any other job is retried to its limit,
  // too, but posts nothing and tells nobody how it ended.
  lemma QueueDelivery(job: Job, answers: nat -> Answer) returns (n: nat)
    ensures Posts(JobLog(job, answers)) == Requests(JobRequest(job), 0, n)
    ensures if Processable(job) then
        && Stops(answers, 0, Limit(job.attempts), n)
        && Ends(JobLog(job, answers)) == Ending(job.webhookId, Accepted(answers(n - 1)))
      else n == 0 && JobLog(job, answers) == []
  {
    if Processable(job) {
      var limit := Limit(job.attempts);
      n := Tries(answers, 0, limit);
      TriesStops(answers, 0, limit, n);
      var r, ending := JobRequest(job), Ending(job.webhookId, Accepted(answers(n - 1)));
      QueuePosts(job.webhookId, r, n);
      CollectConcat(QueueAttempts(job.webhookId, r, n), ending, PostOf);
      CollectConcat(QueueAttempts(job.webhookId, r, n), ending, EndOf);
      QueueEnds(job.webhookId, Accepted(answers(n - 1)));
    } else {
      n := 0;
    }
  }

  // Where the two modes sign alike.
  predicate SignsAlike(h: Headers, w: Webhook, body: string, hmac: (string, string) -> string) {
    w.secret == "" || SIGNATURE !in h || h[SIGNATURE] in ["", "sha256=" + hmac(body, w.secret)]
  }

  // The two modes end alike exactly for a payload that survives the queue; and then they send the same requests in
  // the same order exactly when the webhook has no secret or no custom signature other than the right one.
  lemma ModesAgree(w: Webhook, payload: Json, h: Headers, retryDelay: nat, hmac: (string, string) -> string,
                   answers: nat -> Answer)
    ensures var direct := DirectLog(w, Payload(payload), h, retryDelay, hmac, answers);
      var queued := JobLog(JobOf(w, Payload(payload), h, hmac), answers);
      && (Ends(direct) == Ends(queued) <==> Survives(payload))
      && (Survives(payload) ==>
            && |Posts(direct)| == |Posts(queued)| > 0
            && (Posts(direct) == Posts(queued) <==> SignsAlike(h, w, Text(payload), hmac)))
  {
    var body, job := Text(payload), JobOf(w, Payload(payload), h, hmac);
    var m := DirectDelivery(w, Payload(payload), h, retryDelay, hmac, answers);
    var n := QueueDelivery(job, answers);
    if Survives(payload) {
      TriesStops(answers, 0, Limit(w.retryCount), m);
      TriesStops(answers, 0, Limit(w.retryCount), n);
      RequestsApart(Request(w.url, DirectHeaders(h, w, body, hmac), body), Request(w.url, job.headers, body), n);
      HeadersApart(h, w, body, hmac);
    }
  }

  // Every request of either mode is signed over the very body it carries, unless the custom headers sign it.
  lemma SignedOverBody(w: Webhook, offer: Offer, h: Headers, retryDelay: nat, hmac: (string, string) -> string,
                       answers: nat -> Answer)
    requires w.secret != "" && SIGNATURE !in h
    ensures var direct := DirectLog(w, offer, h, retryDelay, hmac, answers);
      var queued := JobLog(JobOf(w, offer, h, hmac), answers);
      forall r <- Posts(direct) + Posts(queued) :: Signed(r, hmac, w.secret)
  {
    var body := Body(offer);
    var job := JobOf(w, offer, h, hmac);
    var m := DirectDelivery(w, offer, h, retryDelay, hmac, answers);
    var n := QueueDelivery(job, answers);
    AllSigned(Request(w.url, DirectHeaders(h, w, body, hmac), body), m, hmac, w.secret);
    if Processable(job) { AllSigned(JobRequest(job), n, hmac, w.secret); }
  }

  predicate Signed(r: Request, hmac: (string, string) -> string, secret: string) {
    "X-WhatsGate-Signature" in r.headers && r.headers["X-WhatsGate-Signature"] == "sha256=" + hmac(r.body, secret)
  }

  lemma AllSigned(r: Request, n: nat, hmac: (string, string) -> string, secret: string)
    requires Signed(r, hmac, secret)
    ensures forall s <- Requests(r, 0, n) :: Signed(s, hmac, secret)
  {
    assert RETRY_COUNT[12] != SIGNATURE[12];
  }

  lemma RequestsApart(r: Request, s: Request, n: nat)
    requires n > 0
    ensures Requests(r, 0, n) == Requests(s, 0, n) <==> Stamp(r, 0) == Stamp(s, 0)
  {
    if Stamp(r, 0) == Stamp(s, 0) {
      forall k: nat ensures Stamp(r, k) == Stamp(s, k) {
        Restamp(r, s, 0, k);
      }
    } else {
      assert Requests(r, 0, n)[0] == Stamp(r, 0) && Requests(s, 0, n)[0] == Stamp(s, 0);
    }
  }

  lemma Restamp(r: Request, s: Request, k: nat, next: nat)
    requires Stamp(r, k) == Stamp(s, k)
    ensures Stamp(r, next) == Stamp(s, next)
  {
    assert Stamp(Stamp(r, k), next) == Stamp(r, next);
    assert Stamp(Stamp(s, k), next) == Stamp(s, next);
  }

  lemma HeadersApart(h: Headers, w: Webhook, body: string, hmac: (string, string) -> string)
    ensures var d, q := DirectHeaders(h, w, body, hmac), QueueHeaders(h, w, body, hmac);
      d[RETRY_COUNT := Decimal(0)] == q[RETRY_COUNT := Decimal(0)] <==> SignsAlike(h, w, body, hmac)
  {
    var d, q := DirectHeaders(h, w, body, hmac), QueueHeaders(h, w, body, hmac);
    assert RETRY_COUNT[12] != SIGNATURE[12];
    if d[RETRY_COUNT := Decimal(0)] == q[RETRY_COUNT := Decimal(0)] && w.secret != "" {
      assert d[RETRY_COUNT := Decimal(0)][SIGNATURE] == q[RETRY_COUNT := Decimal(0)][SIGNATURE];
      assert d[SIGNATURE] == q[SIGNATURE];
    }
    if SignsAlike(h, w, body, hmac) {
      assert d == q;
    }
  }
}
