/** One event sent to all the webhooks of a session. */
module WebhookDispatch {
  import opened Json
  import opened Stringify
  import opened Idempotency
  import opened Strings
  import opened Webhook

  // parse is JSON.parse: none where it throws.
  datatype Config = Config(retryDelay: nat, queueEnabled: bool, hmac: (string, string) -> string,
                           parse: string -> Option<Json>, sha: string -> string)

  // The data is one object, shared by the payloads of all webhooks; `data` is what it holds.
  datatype Occasion = Occasion(sessionId: string, event: string, data: seq<Field>)

  // How the chain of webhook:before ends: a plugin stops the delivery; or the chain goes on, with a result that is
  // null, or with what can be found as its payload.
  datatype Verdict = Stopped | NullResult | Going(offer: Offer)

  // And its handlers may write into the shared data, which then holds `data`.
  datatype Hooked = Hooked(verdict: Verdict, data: seq<Field>)

  // What happens around one webhook: what the plugins make of the payload and the data behind it, whether the
  // queue takes the job (if it can be printed), and what the endpoint answers.
  datatype Turn = Turn(timestamp: string, deliveryId: string, before: (Json, seq<Field>) -> Hooked, added: bool,
                       answers: nat -> Answer)

  function Matching(webhooks: seq<Webhook>, event: string): seq<Webhook> {
    if webhooks == [] then []
    else
      (if event in webhooks[0].events || "*" in webhooks[0].events then [webhooks[0]] else [])
      + Matching(webhooks[1..], event)
  }

  // data with the session's own id over any other.
  function WithSession(data: seq<Field>, sessionId: string): seq<Field> {
    if data == [] then [Field("sessionId", Some(Str(sessionId)))]
    else if data[0].key == "sessionId" then [Field("sessionId", Some(Str(sessionId)))] + data[1..]
    else [data[0]] + WithSession(data[1..], sessionId)
  }

  // Made once, before any plugin sees the data.
  function KeyFor(o: Occasion, c: Config): string {
    IdempotencyKey(o.event, WithSession(o.data, o.sessionId), HashData(c.sha))
  }

  function PayloadFor(o: Occasion, key: string, t: Turn): Json {
    Obj([Member("event", Str(o.event)), Member("timestamp", Str(t.timestamp)), Member("sessionId", Str(o.sessionId)),
         Member("idempotencyKey", Str(key)), Member("deliveryId", Str(t.deliveryId)),
         Member("data", Obj(Members(o.data)))])
  }

  function StringMember(members: seq<Member>, key: string): Option<string> {
    match Get(members, key)
    case Some(Str(s)) => if key == "__proto__" then None else Some(s)
    case _ => None
  }

  // The object behind the stored headers, which may be its JSON text.
  function HeaderSource(stored: Json, parse: string -> Option<Json>): Json {
    if stored.Str? then match parse(stored.s) case Some(v) => v case None => Obj([]) else stored
  }

  // Exactly the members with string values.
  function CustomHeaders(stored: Json, parse: string -> Option<Json>): Headers {
    var source := HeaderSource(stored, parse);
    if source.Obj? then StringMembers(source.members) else map[]
  }

  function StringMembers(members: seq<Member>): Headers {
    map i | 0 <= i < |members| && StringMember(members, members[i].key).Some?
      :: members[i].key := StringMember(members, members[i].key).value
  }

  function BaseHeaders(o: Occasion, key: string, t: Turn): Headers {
    map[CONTENT_TYPE := "application/json", USER_AGENT := "WhatsGate-Webhook/1.0.0", EVENT := o.event,
        IDEMPOTENCY_KEY := key, DELIVERY_ID := t.deliveryId, RETRY_COUNT := "0"]
  }

  function HeadersFor(c: Config, o: Occasion, key: string, w: Webhook, t: Turn): Headers {
    BaseHeaders(o, key, t) + CustomHeaders(w.headers, c.parse)
  }

  function Sent(o: Occasion, key: string, t: Turn): Hooked {
    t.before(PayloadFor(o, key, t), o.data)
  }

  // Reading the payload of null throws, and so does signing, for the queue, a payload without a text. Nothing catches
  // that: dispatch ends there, for this webhook and all later ones.
  predicate Aborts(c: Config, o: Occasion, key: string, w: Webhook, t: Turn) {
    match Sent(o, key, t).verdict
    case Stopped => false
    case NullResult => true
    case Going(offer) => c.queueEnabled && w.secret != "" && !offer.Payload?
  }

  // All that dispatch does for one webhook.
  function Segment(c: Config, o: Occasion, key: string, w: Webhook, t: Turn): seq<Event> {
    [Hook(w.id, "webhook:before")] +
    if Aborts(c, o, key, w, t) then []
    else match Sent(o, key, t).verdict
      case Going(offer) =>
        if c.queueEnabled then
          [Hook(w.id, if t.added && !offer.Unprintable? then "webhook:queued" else "webhook:error")]
        else DirectLog(w, offer, HeadersFor(c, o, key, w, t), c.retryDelay, c.hmac, t.answers)
      case _ => []
  }

  function Queued(c: Config, o: Occasion, key: string, w: Webhook, t: Turn): seq<Job> {
    if Aborts(c, o, key, w, t) then []
    else match Sent(o, key, t).verdict
      case Going(offer) =>
        if c.queueEnabled && t.added && !offer.Unprintable?
        then [JobOf(w, offer, HeadersFor(c, o, key, w, t), c.hmac)] else []
      case _ => []
  }

  // How far dispatch has got: whether it still goes on, and what the shared data holds.
  datatype Progress = Progress(going: bool, data: seq<Field>)

  function After(c: Config, o: Occasion, key: string, ws: seq<Webhook>, turns: nat -> Turn): Progress {
    if ws == [] then Progress(true, o.data)
    else
      var n := |ws| - 1;
      Next(c, o, key, After(c, o, key, ws[..n], turns), ws[n], turns(n))
  }

  function Next(c: Config, o: Occasion, key: string, p: Progress, w: Webhook, t: Turn): Progress {
    if !p.going then p
    else
      var now := o.(data := p.data);
      Progress(!Aborts(c, now, key, w, t), Sent(now, key, t).data)
  }

  function SegmentAt(c: Config, o: Occasion, key: string, p: Progress, w: Webhook, t: Turn): seq<Event> {
    if p.going then Segment(c, o.(data := p.data), key, w, t) else []
  }

  function QueuedAt(c: Config, o: Occasion, key: string, p: Progress, w: Webhook, t: Turn): seq<Job> {
    if p.going then Queued(c, o.(data := p.data), key, w, t) else []
  }

  function DispatchLog(c: Config, o: Occasion, key: string, ws: seq<Webhook>, turns: nat -> Turn): seq<Event> {
    if ws == [] then []
    else
      var n := |ws| - 1;
      DispatchLog(c, o, key, ws[..n], turns) + SegmentAt(c, o, key, After(c, o, key, ws[..n], turns), ws[n], turns(n))
  }

  function DispatchQueue(c: Config, o: Occasion, key: string, ws: seq<Webhook>, turns: nat -> Turn): seq<Job> {
    if ws == [] then []
    else
      var n := |ws| - 1;
      DispatchQueue(c, o, key, ws[..n], turns) + QueuedAt(c, o, key, After(c, o, key, ws[..n], turns), ws[n], turns(n))
  }

  // ---------- what one webhook has from the others ----------

  function Only(id: string): Event -> seq<Event> {
    (e: Event) => if e.id == id then [e] else []
  }

  predicate AllFor(log: seq<Event>, id: string) {
    forall i :: 0 <= i < |log| ==> log[i].id == id
  }

  lemma {:induction false} OnlyOwn(log: seq<Event>, id: string, other: string)
    requires AllFor(log, id)
    ensures Collect(log, Only(other)) == if other == id then log else []
  {
    if log != [] {
      OnlyOwn(log[1..], id, other);
      assert log == [log[0]] + log[1..];
    }
  }

  lemma {:induction false} AttemptsFor(id: string, r: Request, retryDelay: nat, first: nat, n: nat)
    requires n > 0
    ensures AllFor(DirectAttempts(id, r, retryDelay, first, n), id)
    decreases n
  {
    if n > 1 { AttemptsFor(id, r, retryDelay, first + 1, n - 1); }
  }

  lemma AllForConcat(a: seq<Event>, b: seq<Event>, id: string)
    requires AllFor(a, id) && AllFor(b, id)
    ensures AllFor(a + b, id)
  {
  }

  lemma DirectLogFor(w: Webhook, offer: Offer, h: Headers, retryDelay: nat, hmac: (string, string) -> string,
                     answers: nat -> Answer)
    ensures AllFor(DirectLog(w, offer, h, retryDelay, hmac, answers), w.id)
  {
    if Readable(offer) {
      var n := Tries(answers, 0, Limit(w.retryCount));
      var r := Request(w.url, DirectHeaders(h, w, Body(offer), hmac), Body(offer));
      AttemptsFor(w.id, r, retryDelay, 0, n);
      AllForConcat(DirectAttempts(w.id, r, retryDelay, 0, n), DirectClosing(w.id, Accepted(answers(n - 1))), w.id);
    }
  }

  lemma SegmentFor(c: Config, o: Occasion, key: string, w: Webhook, t: Turn)
    ensures AllFor(Segment(c, o, key, w, t), w.id)
  {
    var verdict := Sent(o, key, t).verdict;
    if !Aborts(c, o, key, w, t) && verdict.Going? && !c.queueEnabled {
      var h := HeadersFor(c, o, key, w, t);
      var log := DirectLog(w, verdict.offer, h, c.retryDelay, c.hmac, t.answers);
      DirectLogFor(w, verdict.offer, h, c.retryDelay, c.hmac, t.answers);
      AllForConcat([Hook(w.id, "webhook:before")], log, w.id);
    }
  }

  function Concat(segments: seq<seq<Event>>): seq<Event> {
    if segments == [] then [] else Concat(segments[..|segments| - 1]) + segments[|segments| - 1]
  }

  // Of segments that are each for one of distinct ids, one is left.
  lemma {:induction false} OnlyOne(segments: seq<seq<Event>>, ids: seq<string>, id: string)
    requires |ids| == |segments| && forall i :: 0 <= i < |ids| ==> AllFor(segments[i], ids[i])
    requires forall i, j :: 0 <= i < j < |ids| ==> ids[i] != ids[j]
    ensures forall k :: 0 <= k < |ids| && ids[k] == id ==> Collect(Concat(segments), Only(id)) == segments[k]
    ensures id !in ids ==> Collect(Concat(segments), Only(id)) == []
  {
    if segments != [] {
      var n := |segments| - 1;
      OnlyOne(segments[..n], ids[..n], id);
      OnlyOwn(segments[n], ids[n], id);
      CollectConcat(Concat(segments[..n]), segments[n], Only(id));
      if ids[n] == id {
        assert id !in ids[..n];
      } else {
        assert ids == ids[..n] + [ids[n]];
        forall k | 0 <= k < |ids| && ids[k] == id ensures Collect(Concat(segments), Only(id)) == segments[k] {
          assert ids[..n][k] == id && segments[..n][k] == segments[k];
        }
      }
    }
  }

  // What the log holds of webhook i.
  function SegmentOf(c: Config, o: Occasion, key: string, ws: seq<Webhook>, turns: nat -> Turn, i: nat): seq<Event>
    requires i < |ws|
  {
    SegmentAt(c, o, key, After(c, o, key, ws[..i], turns), ws[i], turns(i))
  }

  lemma SegmentOfPrefix(c: Config, o: Occasion, key: string, ws: seq<Webhook>, turns: nat -> Turn, n: nat, i: nat)
    requires i < n <= |ws|
    ensures SegmentOf(c, o, key, ws[..n], turns, i) == SegmentOf(c, o, key, ws, turns, i)
  {
    assert ws[..n][..i] == ws[..i];
  }

  lemma {:induction false} LogIsSegments(c: Config, o: Occasion, key: string, ws: seq<Webhook>, turns: nat -> Turn,
                                         segments: seq<seq<Event>>)
    requires |segments| == |ws| && forall i :: 0 <= i < |ws| ==> segments[i] == SegmentOf(c, o, key, ws, turns, i)
    ensures DispatchLog(c, o, key, ws, turns) == Concat(segments)
  {
    if ws != [] {
      var n := |ws| - 1;
      forall i | 0 <= i < n ensures segments[..n][i] == SegmentOf(c, o, key, ws[..n], turns, i) {
        SegmentOfPrefix(c, o, key, ws, turns, n, i);
      }
      LogIsSegments(c, o, key, ws[..n], turns, segments[..n]);
      assert segments[n] == SegmentOf(c, o, key, ws, turns, n);
    }
  }

  lemma SegmentAtFor(c: Config, o: Occasion, key: string, p: Progress, w: Webhook, t: Turn)
    ensures AllFor(SegmentAt(c, o, key, p, w, t), w.id)
  {
    if p.going { SegmentFor(c, o.(data := p.data), key, w, t); }
  }

  predicate DistinctIds(ws: seq<Webhook>) {
    forall i, j :: 0 <= i < j < |ws| ==> ws[i].id != ws[j].id
  }

  // Whatever the other webhooks' endpoints and queue do, a webhook gets what its own turn makes of the shared data
  // as the turns before it left it, unless one of those aborted dispatch: then it gets nothing.
  lemma DispatchSegment(c: Config, o: Occasion, key: string, ws: seq<Webhook>, turns: nat -> Turn, k: nat)
    requires k < |ws| && DistinctIds(ws)
    ensures Collect(DispatchLog(c, o, key, ws, turns), Only(ws[k].id)) == SegmentOf(c, o, key, ws, turns, k)
  {
    var segments := seq(|ws|, i requires 0 <= i < |ws| => SegmentOf(c, o, key, ws, turns, i));
    var ids := seq(|ws|, i requires 0 <= i < |ws| => ws[i].id);
    forall i | 0 <= i < |ws| ensures AllFor(segments[i], ids[i]) {
      SegmentAtFor(c, o, key, After(c, o, key, ws[..i], turns), ws[i], turns(i));
    }
    LogIsSegments(c, o, key, ws, turns, segments);
    OnlyOne(segments, ids, ids[k]);
  }

  // Nothing is for a webhook that is not among them.
  lemma OthersGetNothing(c: Config, o: Occasion, key: string, ws: seq<Webhook>, turns: nat -> Turn, id: string)
    requires DistinctIds(ws) && forall w <- ws :: w.id != id
    ensures Collect(DispatchLog(c, o, key, ws, turns), Only(id)) == []
  {
    var segments := seq(|ws|, i requires 0 <= i < |ws| => SegmentOf(c, o, key, ws, turns, i));
    var ids := seq(|ws|, i requires 0 <= i < |ws| => ws[i].id);
    forall i | 0 <= i < |ws| ensures AllFor(segments[i], ids[i]) {
      SegmentAtFor(c, o, key, After(c, o, key, ws[..i], turns), ws[i], turns(i));
    }
    LogIsSegments(c, o, key, ws, turns, segments);
    OnlyOne(segments, ids, id);
  }

  // ---------- jobs ----------

  function JobsOf(queue: seq<Job>, id: string): seq<Job> {
    if queue == [] then []
    else JobsOf(queue[..|queue| - 1], id) + if queue[|queue| - 1].webhookId == id then [queue[|queue| - 1]] else []
  }

  lemma {:induction false} JobsConcat(a: seq<Job>, b: seq<Job>, id: string)
    requires |b| <= 1
    ensures JobsOf(a + b, id) == JobsOf(a, id) + if b != [] && b[0].webhookId == id then b else []
  {
    if b == [] {
      assert a + b == a;
    } else {
      assert (a + b)[..|a|] == a && (a + b)[|a|] == b[0] && b == [b[0]];
    }
  }

  // The jobs of an id are those of the turns before the last, and those of the last if it is for that id.
  lemma LastJobs(c: Config, o: Occasion, key: string, ws: seq<Webhook>, turns: nat -> Turn, id: string)
    requires ws != []
    ensures var n := |ws| - 1;
      JobsOf(DispatchQueue(c, o, key, ws, turns), id) == JobsOf(DispatchQueue(c, o, key, ws[..n], turns), id)
        + if ws[n].id == id then QueuedAt(c, o, key, After(c, o, key, ws[..n], turns), ws[n], turns(n)) else []
  {
    var n := |ws| - 1;
    JobsConcat(DispatchQueue(c, o, key, ws[..n], turns),
               QueuedAt(c, o, key, After(c, o, key, ws[..n], turns), ws[n], turns(n)), id);
  }

  lemma {:induction false} NoJobs(c: Config, o: Occasion, key: string, ws: seq<Webhook>, turns: nat -> Turn, id: string)
    requires forall i :: 0 <= i < |ws| ==> ws[i].id != id
    ensures JobsOf(DispatchQueue(c, o, key, ws, turns), id) == []
  {
    if ws != [] {
      LastJobs(c, o, key, ws, turns, id);
      NoJobs(c, o, key, ws[..|ws| - 1], turns, id);
    }
  }

  lemma {:induction false} OwnJobs(c: Config, o: Occasion, key: string, ws: seq<Webhook>, turns: nat -> Turn, k: nat)
    requires k < |ws| && DistinctIds(ws)
    ensures JobsOf(DispatchQueue(c, o, key, ws, turns), ws[k].id)
      == QueuedAt(c, o, key, After(c, o, key, ws[..k], turns), ws[k], turns(k))
  {
    var n, id := |ws| - 1, ws[k].id;
    LastJobs(c, o, key, ws, turns, id);
    if k < n {
      OwnJobs(c, o, key, ws[..n], turns, k);
      assert ws[..n][..k] == ws[..k] && ws[..n][k] == ws[k] && ws[n].id != id;
    } else {
      NoJobs(c, o, key, ws[..n], turns, id);
    }
  }

  // A webhook's jobs are those that its own turn makes over the shared data as the turns before it left it, and none
  // if one of those aborted dispatch.
  lemma DispatchJobs(c: Config, o: Occasion, key: string, ws: seq<Webhook>, turns: nat -> Turn, k: nat)
    requires k < |ws| && DistinctIds(ws)
    ensures var before := After(c, o, key, ws[..k], turns);
      JobsOf(DispatchQueue(c, o, key, ws, turns), ws[k].id)
      == if before.going then Queued(c, o.(data := before.data), key, ws[k], turns(k)) else []
  {
    OwnJobs(c, o, key, ws, turns, k);
  }

  // ---------- which webhooks are served ----------

  lemma {:induction false} MatchingConcat(a: seq<Webhook>, b: seq<Webhook>, event: string)
    ensures Matching(a + b, event) == Matching(a, event) + Matching(b, event)
  {
    if a == [] {
      assert a + b == b;
    } else {
      MatchingConcat(a[1..], b, event);
      assert (a + b)[0] == a[0] && (a + b)[1..] == a[1..] + b;
      var first := if event in a[0].events || "*" in a[0].events then [a[0]] else [];
      Assoc(first, Matching(a[1..], event), Matching(b, event));
    }
  }

  lemma MatchingOne(w: Webhook, event: string)
    ensures Matching([w], event) == if event in w.events || "*" in w.events then [w] else []
  {
    assert [w][1..] == [];
  }

  // Exactly the stored webhooks that are subscribed to the event or to everything, each as often and in the order
  // they are stored: webhook i of those served is number at[i] of those stored.
  lemma {:induction false} Served(stored: seq<Webhook>, event: string) returns (at: seq<nat>)
    ensures |at| == |Matching(stored, event)|
    ensures forall i :: 0 <= i < |at| ==> at[i] < |stored| && Matching(stored, event)[i] == stored[at[i]]
    ensures forall i, j :: 0 <= i < j < |at| ==> at[i] < at[j]
    ensures forall k :: 0 <= k < |stored| ==>
      (k in at <==> event in stored[k].events || "*" in stored[k].events)
  {
    at := [];
    if stored != [] {
      var n := |stored| - 1;
      assert stored == stored[..n] + [stored[n]];
      MatchingConcat(stored[..n], [stored[n]], event);
      MatchingOne(stored[n], event);
      var rest := Served(stored[..n], event);
      at := rest + if event in stored[n].events || "*" in stored[n].events then [n] else [];
    }
  }

  lemma MatchingAround(stored: seq<Webhook>, event: string, j: nat)
    requires j < |stored|
    ensures Matching(stored, event)
      == Matching(stored[..j], event) + Matching([stored[j]], event) + Matching(stored[j + 1..], event)
  {
    assert stored == stored[..j] + [stored[j]] + stored[j + 1..];
    MatchingConcat(stored[..j] + [stored[j]], stored[j + 1..], event);
    MatchingConcat(stored[..j], [stored[j]], event);
  }

  lemma DistinctServed(stored: seq<Webhook>, event: string)
    requires DistinctIds(stored)
    ensures DistinctIds(Matching(stored, event))
    ensures forall w <- Matching(stored, event) :: w in stored && (event in w.events || "*" in w.events)
  {
    var at := Served(stored, event);
    forall i | 0 <= i < |at| ensures event in stored[at[i]].events || "*" in stored[at[i]].events {
      assert at[i] in at;
    }
  }

  // A webhook gets anything at all exactly if it is subscribed to the event, or to everything, and no turn before it
  // aborts dispatch; and what it gets begins with its webhook:before.
  lemma DispatchServes(c: Config, o: Occasion, key: string, stored: seq<Webhook>, turns: nat -> Turn, j: nat)
    requires j < |stored| && DistinctIds(stored)
    ensures var w := stored[j];
      var own := Collect(DispatchLog(c, o, key, Matching(stored, o.event), turns), Only(w.id));
      && (own != [] <==>
            && (o.event in w.events || "*" in w.events)
            && After(c, o, key, Matching(stored[..j], o.event), turns).going)
      && (own != [] ==> own[0] == Hook(w.id, "webhook:before"))
  {
    var w, ws, k := stored[j], Matching(stored, o.event), |Matching(stored[..j], o.event)|;
    DistinctServed(stored, o.event);
    MatchingOne(w, o.event);
    MatchingAround(stored, o.event, j);
    if o.event in w.events || "*" in w.events {
      assert ws[k] == w && ws[..k] == Matching(stored[..j], o.event);
      DispatchSegment(c, o, key, ws, turns, k);
    } else {
      forall v <- ws ensures v.id != w.id {
        assert v in stored;
        var i :| 0 <= i < |stored| && stored[i] == v;
        assert i != j;
      }
      OthersGetNothing(c, o, key, ws, turns, w.id);
    }
  }

  // Whatever happens, nothing happens for anyone else.
  lemma {:induction false} OnlyServed(c: Config, o: Occasion, key: string, ws: seq<Webhook>, turns: nat -> Turn)
    ensures forall e <- DispatchLog(c, o, key, ws, turns) :: exists w <- ws :: w.id == e.id
  {
    if ws != [] {
      var n := |ws| - 1;
      OnlyServed(c, o, key, ws[..n], turns);
      var segment := SegmentAt(c, o, key, After(c, o, key, ws[..n], turns), ws[n], turns(n));
      SegmentAtFor(c, o, key, After(c, o, key, ws[..n], turns), ws[n], turns(n));
      forall e <- DispatchLog(c, o, key, ws, turns) ensures exists w <- ws :: w.id == e.id {
        if e in segment {
          assert ws[n] in ws;
        } else {
          assert e in DispatchLog(c, o, key, ws[..n], turns);
          var w :| w in ws[..n] && w.id == e.id;
          assert w in ws;
        }
      }
    }
  }

  // The turns, with t for webhook k.
  function WithTurn(turns: nat -> Turn, k: nat, t: Turn): nat -> Turn {
    (i: nat) => if i == k then t else turns(i)
  }

  lemma {:induction false} EarlierTurns(c: Config, o: Occasion, key: string, ws: seq<Webhook>, turns: nat -> Turn,
                                        k: nat, t: Turn)
    requires |ws| <= k
    ensures After(c, o, key, ws, WithTurn(turns, k, t)) == After(c, o, key, ws, turns)
  {
    if ws != [] {
      EarlierTurns(c, o, key, ws[..|ws| - 1], turns, k, t);
    }
  }

  // What webhook k would get if it were alone with the original data.
  predicate AsAlone(c: Config, o: Occasion, key: string, ws: seq<Webhook>, turns: nat -> Turn, k: nat, t: Turn)
    requires k < |ws|
  {
    Collect(DispatchLog(c, o, key, ws, WithTurn(turns, k, t)), Only(ws[k].id)) == Segment(c, o, key, ws[k], t)
  }

  // Whatever its own turn is, a webhook gets what it would get alone exactly if no turn before it aborts dispatch and
  // they leave the shared data as it was. A plugin that stops the delivery to an earlier webhook can change it, too.
  lemma DispatchIsolates(c: Config, o: Occasion, key: string, ws: seq<Webhook>, turns: nat -> Turn, k: nat)
    requires k < |ws| && DistinctIds(ws)
    ensures (forall t: Turn :: AsAlone(c, o, key, ws, turns, k, t))
      <==> After(c, o, key, ws[..k], turns) == Progress(true, o.data)
  {
    var p := After(c, o, key, ws[..k], turns);
    forall t: Turn
      ensures AsAlone(c, o, key, ws, turns, k, t)
        <==> SegmentAt(c, o, key, p, ws[k], t) == Segment(c, o, key, ws[k], t)
    {
      DispatchSegment(c, o, key, ws, WithTurn(turns, k, t), k);
      EarlierTurns(c, o, key, ws[..k], turns, k, t);
    }
    if p != Progress(true, o.data) {
      var t := Picky(o.data);
      PickySegment(c, o, key, ws[k]);
      if p.going { PickyStops(c, o.(data := p.data), key, ws[k], o.data); }
      assert !AsAlone(c, o, key, ws, turns, k, t);
    }
  }

  // A plugin that lets a payload through only over this data.
  function Picky(data: seq<Field>): Turn {
    Turn("", "", (payload: Json, d: seq<Field>) => Hooked(if d == data then Going(Payload(payload)) else Stopped, d),
         true, (_: nat) => Unanswered)
  }

  lemma PickySegment(c: Config, o: Occasion, key: string, w: Webhook)
    ensures |Segment(c, o, key, w, Picky(o.data))| > 1
  {
    assert Sent(o, key, Picky(o.data)).verdict.Going?;
  }

  lemma PickyStops(c: Config, o: Occasion, key: string, w: Webhook, data: seq<Field>)
    requires o.data != data
    ensures |Segment(c, o, key, w, Picky(data))| == 1
  {
    assert Sent(o, key, Picky(data)).verdict.Stopped?;
  }

  // ---------- runs in which it is not so ----------

  lemma {:induction false} StaysAborted(c: Config, o: Occasion, key: string, ws: seq<Webhook>, turns: nat -> Turn,
                                        j: nat)
    requires j <= |ws| && !After(c, o, key, ws[..j], turns).going
    ensures !After(c, o, key, ws, turns).going
  {
    if j < |ws| {
      assert ws[..|ws| - 1][..j] == ws[..j];
      StaysAborted(c, o, key, ws[..|ws| - 1], turns, j);
    } else {
      assert ws[..j] == ws;
    }
  }

  // Where a turn aborts dispatch, no later webhook gets anything.
  lemma AbortSilences(c: Config, o: Occasion, key: string, ws: seq<Webhook>, turns: nat -> Turn, j: nat, k: nat)
    requires j < k < |ws| && DistinctIds(ws)
    requires var p := After(c, o, key, ws[..j], turns);
      p.going && Aborts(c, o.(data := p.data), key, ws[j], turns(j))
    ensures Collect(DispatchLog(c, o, key, ws, turns), Only(ws[k].id)) == []
  {
    assert ws[..j + 1][..j] == ws[..j];
    assert !After(c, o, key, ws[..j + 1], turns).going;
    assert ws[..k][..j + 1] == ws[..j + 1];
    StaysAborted(c, o, key, ws[..k], turns, j + 1);
    DispatchSegment(c, o, key, ws, turns, k);
  }

  // A plugin that makes the result null, and one that returns something without a payload; the data they leave alone.
  function Nulling(): Turn {
    Turn("", "", (_: Json, data: seq<Field>) => Hooked(NullResult, data), true, (_: nat) => Unanswered)
  }

  function Payloadless(): Turn {
    Turn("", "", (_: Json, data: seq<Field>) => Hooked(Going(NoPayload), data), true, (_: nat) => Unanswered)
  }

  // The second webhook gets nothing, although nobody touched the data.
  lemma NullResultAborts(c: Config, o: Occasion, key: string, w: Webhook, v: Webhook, turns: nat -> Turn)
    requires w.id != v.id
    requires turns(0) == Nulling() || (turns(0) == Payloadless() && c.queueEnabled && w.secret != "")
    ensures After(c, o, key, [w], turns) == Progress(false, o.data)
    ensures Collect(DispatchLog(c, o, key, [w, v], turns), Only(v.id)) == []
  {
    assert [w][..0] == [] && [w, v][..0] == [];
    var p := After(c, o, key, [], turns);
    assert p == Progress(true, o.data) && After(c, o, key, [w], turns) == Next(c, o, key, p, w, turns(0));
    AbortSilences(c, o, key, [w, v], turns, 0, 1);
  }

  // The first request carries the text of the payload.
  lemma FirstPost(c: Config, o: Occasion, key: string, w: Webhook, t: Turn)
    requires var verdict := Sent(o, key, t).verdict;
      !c.queueEnabled && verdict.Going? && Readable(verdict.offer)
    ensures var segment := Segment(c, o, key, w, t);
      |segment| > 1 && segment[1].Posted? && segment[1].request.body == Body(Sent(o, key, t).verdict.offer)
  {
    var offer, h := Sent(o, key, t).verdict.offer, HeadersFor(c, o, key, w, t);
    var n := Tries(t.answers, 0, Limit(w.retryCount));
    var r := Request(w.url, DirectHeaders(h, w, Body(offer), c.hmac), Body(offer));
    assert DirectAttempts(w.id, r, c.retryDelay, 0, n)[0] == Posted(w.id, Stamp(r, 0));
  }

  // A plugin stops the delivery to the first webhook and empties the data. The second webhook, to which no plugin
  // objects, is then sent another body.
  lemma StopperReachesNext(c: Config, o: Occasion, key: string, w: Webhook, v: Webhook, turns: nat -> Turn)
    requires !c.queueEnabled && w.id != v.id && o.data == [Field("body", Some(Str("hello")))]
    requires turns(0) == Emptying() && turns(1) == Passing()
    ensures Collect(DispatchLog(c, o, key, [w, v], turns), Only(v.id)) != Segment(c, o, key, v, turns(1))
  {
    var left := o.(data := []);
    DispatchSegment(c, o, key, [w, v], turns, 1);
    EmptiedAfter(c, o, key, w, turns);
    assert [w, v][..1] == [w];
    FirstPost(c, o, key, v, Passing());
    FirstPost(c, left, key, v, Passing());
    BodiesDiffer(o, left, key);
  }

  lemma EmptiedAfter(c: Config, o: Occasion, key: string, w: Webhook, turns: nat -> Turn)
    requires turns(0) == Emptying()
    ensures After(c, o, key, [w], turns) == Progress(true, [])
  {
    assert [w][..0] == [];
    assert After(c, o, key, [w], turns) == Next(c, o, key, After(c, o, key, [], turns), w, turns(0));
  }

  lemma BodiesDiffer(o: Occasion, left: Occasion, key: string)
    requires o.data == [Field("body", Some(Str("hello")))] && left.data == []
    ensures Text(PayloadFor(o, key, Passing())) != Text(PayloadFor(left, key, Passing()))
  {
    var p, q := PayloadFor(o, key, Passing()), PayloadFor(left, key, Passing());
    assert o.data[1..] == [];
    assert Members(o.data) == [Member("body", Str("hello"))] && Members(left.data) == [];
    assert p.members[5] != q.members[5];
    if Text(p) == Text(q) {
      UniqueText.TextUnique(p, q, "", "");
    }
  }

  function Emptying(): Turn {
    Turn("", "", (_: Json, _: seq<Field>) => Hooked(Stopped, []), true, (_: nat) => Unanswered)
  }

  function Passing(): Turn {
    Turn("", "", (payload: Json, data: seq<Field>) => Hooked(Going(Payload(payload)), data), true,
         (_: nat) => Unanswered)
  }

  // ---------- the two modes, through dispatch ----------

  // What the queue mode comes to, with the job run to its end.
  function WithJob(c: Config, o: Occasion, key: string, w: Webhook, t: Turn): seq<Event> {
    var queue := Queued(c, o, key, w, t);
    Segment(c, o, key, w, t) + if queue == [] then [] else JobLog(queue[0], t.answers)
  }

  // Where both modes end alike: a payload must survive the queue; one that cannot be printed fails in both, if no
  // signature is asked for.
  predicate Portable(w: Webhook, offer: Offer) {
    match offer
    case NoPayload => false
    case Unprintable => w.secret == ""
    case Payload(value) => Survives(value)
  }

  // One hook tells how a delivery ended, perhaps after an update of lastTriggeredAt.
  predicate EndsInOneHook(id: string, ends: seq<Event>) {
    || ends == [Hook(id, "webhook:error")] || ends == [Triggered(id)] + [Hook(id, "webhook:error")]
    || ends == Ending(id, true)
  }

  // If a plugin stops it, or leaves a null result, no mode delivers anything. Otherwise direct delivery ends in
  // exactly one webhook:delivered or webhook:error, and both modes end alike exactly for portable payloads; and where
  // the payload survives, they send the same requests exactly if the custom headers carry no foreign signature.
  lemma DispatchModesAgree(c: Config, o: Occasion, key: string, w: Webhook, t: Turn)
    requires t.added
    ensures var direct := Segment(c.(queueEnabled := false), o, key, w, t);
      var queued := WithJob(c.(queueEnabled := true), o, key, w, t);
      match Sent(o, key, t).verdict
      case Going(offer) =>
        && EndsInOneHook(w.id, Ends(direct))
        && (Ends(direct) == Ends(queued) <==> Portable(w, offer))
        && (offer.Payload? && Survives(offer.value) ==>
              && EndsOnce(w, t.answers, Ends(direct))
              && (Posts(direct) == Posts(queued)
                  <==> SignsAlike(HeadersFor(c, o, key, w, t), w, Text(offer.value), c.hmac)))
      case _ => direct == queued && Posts(direct) == [] && Ends(direct) == []
  {
    var before := Hook(w.id, "webhook:before");
    CollectOne(before, PostOf);
    CollectOne(before, EndOf);
    assert [before] + [] == [before];
    var verdict := Sent(o, key, t).verdict;
    if verdict.Going? {
      var h := HeadersFor(c, o, key, w, t);
      DirectEndsInOne(c, w, verdict.offer, h, t.answers);
      if verdict.offer.Payload? {
        PayloadModesAgree(c, w, verdict.offer.value, h, t.answers);
      } else {
        OddModesApart(c, o, key, w, t);
      }
    }
  }

  lemma DirectEndsInOne(c: Config, w: Webhook, offer: Offer, h: Headers, answers: nat -> Answer)
    ensures var direct := [Hook(w.id, "webhook:before")] + DirectLog(w, offer, h, c.retryDelay, c.hmac, answers);
      EndsInOneHook(w.id, Ends(direct))
  {
    var n := DirectDelivery(w, offer, h, c.retryDelay, c.hmac, answers);
    Behind(w.id, DirectLog(w, offer, h, c.retryDelay, c.hmac, answers));
  }

  lemma PayloadModesAgree(c: Config, w: Webhook, payload: Json, h: Headers, answers: nat -> Answer)
    ensures var before, accepted := [Hook(w.id, "webhook:before")], [Hook(w.id, "webhook:queued")];
      var direct := before + DirectLog(w, Payload(payload), h, c.retryDelay, c.hmac, answers);
      var queued := before + accepted + JobLog(JobOf(w, Payload(payload), h, c.hmac), answers);
      && (Ends(direct) == Ends(queued) <==> Survives(payload))
      && (Survives(payload) ==>
            && EndsOnce(w, answers, Ends(direct))
            && (Posts(direct) == Posts(queued) <==> SignsAlike(h, w, Text(payload), c.hmac)))
  {
    ModesAgree(w, payload, h, c.retryDelay, c.hmac, answers);
    var n := DirectDelivery(w, Payload(payload), h, c.retryDelay, c.hmac, answers);
    if Survives(payload) {
      assert EndsOnce(w, answers, Ending(w.id, Accepted(answers(n - 1))));
    }
    Behind(w.id, DirectLog(w, Payload(payload), h, c.retryDelay, c.hmac, answers));
    BehindQueued(w.id, JobLog(JobOf(w, Payload(payload), h, c.hmac), answers));
  }

  // A payload without a text: with a secret, the queue mode aborts; else it fails at once or queues a job that never
  // tells how it ended.
  lemma OddJob(c: Config, o: Occasion, key: string, w: Webhook, t: Turn)
    requires var verdict := Sent(o, key, t).verdict; verdict.Going? && !verdict.offer.Payload?
    requires t.added && c.queueEnabled
    ensures WithJob(c, o, key, w, t) == [Hook(w.id, "webhook:before")]
      + if w.secret != "" then [] else if Sent(o, key, t).verdict.offer.Unprintable? then [Hook(w.id, "webhook:error")]
        else [Hook(w.id, "webhook:queued")]
  {
  }

  lemma OddModesApart(c: Config, o: Occasion, key: string, w: Webhook, t: Turn)
    requires var verdict := Sent(o, key, t).verdict; verdict.Going? && !verdict.offer.Payload?
    requires t.added
    ensures var direct := Segment(c.(queueEnabled := false), o, key, w, t);
      var queued := WithJob(c.(queueEnabled := true), o, key, w, t);
      Ends(direct) == Ends(queued) <==> Portable(w, Sent(o, key, t).verdict.offer)
  {
    var offer, h := Sent(o, key, t).verdict.offer, HeadersFor(c, o, key, w, t);
    OddJob(c.(queueEnabled := true), o, key, w, t);
    OddEnds(w.id);
    var n := DirectDelivery(w, offer, h, c.retryDelay, c.hmac, t.answers);
    Behind(w.id, DirectLog(w, offer, h, c.retryDelay, c.hmac, t.answers));
  }

  lemma OddEnds(id: string)
    ensures Ends([Hook(id, "webhook:before")] + []) == []
    ensures Ends([Hook(id, "webhook:before")] + [Hook(id, "webhook:error")]) == [Hook(id, "webhook:error")]
    ensures Ends([Hook(id, "webhook:before")] + [Hook(id, "webhook:queued")]) == []
  {
    Behind(id, []);
    Behind(id, [Hook(id, "webhook:error")]);
    Behind(id, [Hook(id, "webhook:queued")]);
    CollectOne(Hook(id, "webhook:error"), EndOf);
    CollectOne(Hook(id, "webhook:queued"), EndOf);
  }

  // One end, told by the last attempt.
  ghost predicate EndsOnce(w: Webhook, answers: nat -> Answer, ends: seq<Event>) {
    exists n: nat :: Stops(answers, 0, Limit(w.retryCount), n) && ends == Ending(w.id, Accepted(answers(n - 1)))
  }

  lemma Behind(id: string, log: seq<Event>)
    ensures Posts([Hook(id, "webhook:before")] + log) == Posts(log)
    ensures Ends([Hook(id, "webhook:before")] + log) == Ends(log)
  {
    CollectStep(Hook(id, "webhook:before"), log, PostOf);
    CollectStep(Hook(id, "webhook:before"), log, EndOf);
  }

  lemma BehindQueued(id: string, log: seq<Event>)
    ensures var start := [Hook(id, "webhook:before")] + [Hook(id, "webhook:queued")];
      Posts(start + log) == Posts(log) && Ends(start + log) == Ends(log)
  {
    var b, q := Hook(id, "webhook:before"), Hook(id, "webhook:queued");
    assert [b] + [q] == [b, q];
    CollectConcat([b, q], log, PostOf);
    CollectConcat([b, q], log, EndOf);
    CollectTwo(b, q, PostOf);
    CollectTwo(b, q, EndOf);
  }

  // ---------- headers and keys ----------

  lemma {:induction false} SessionNamed(data: seq<Field>, sessionId: string, key: string)
    ensures Lookup(WithSession(data, sessionId), key)
      == if key == "sessionId" then Some(Str(sessionId)) else Lookup(data, key)
  {
    if data != [] {
      SessionNamed(data[1..], sessionId, key);
    }
  }

  // The keys and the session stay distinct.
  lemma {:induction false} WithSessionKeys(data: seq<Field>, sessionId: string)
    requires UniqueKeys(data)
    ensures UniqueKeys(WithSession(data, sessionId))
    ensures forall k :: k in Keys(WithSession(data, sessionId)) <==> k == "sessionId" || k in Keys(data)
  {
    var all := WithSession(data, sessionId);
    if data == [] {
      assert Keys(all) == ["sessionId"];
    } else {
      var own := Field("sessionId", Some(Str(sessionId)));
      assert Keys(data) == [data[0].key] + Keys(data[1..]);
      if data[0].key == "sessionId" {
        assert Keys(all) == Keys(data);
        assert forall i :: 0 <= i < |data| ==> all[i].key == data[i].key;
      } else {
        WithSessionKeys(data[1..], sessionId);
        var rest := WithSession(data[1..], sessionId);
        assert Keys(all) == [data[0].key] + Keys(rest);
        forall i | 0 <= i < |rest| ensures rest[i].key != data[0].key {
          assert Keys(rest)[i] == rest[i].key && rest[i].key in Keys(rest);
          NotAgain(data, rest[i].key);
        }
      }
    }
  }

  lemma NotAgain(data: seq<Field>, k: string)
    requires UniqueKeys(data) && data != []
    ensures k in Keys(data[1..]) ==> k != data[0].key
  {
    if k in Keys(data[1..]) {
      var i :| 0 <= i < |data[1..]| && Keys(data[1..])[i] == k;
      assert data[i + 1].key == k;
    }
  }

  // Events whose data differ only in the order of keys, at whatever depth, are dispatched with one key.
  lemma DispatchKeyIgnoresOrder(c: Config, o: Occasion, p: Occasion)
    requires o.sessionId == p.sessionId && o.event == p.event
    requires UniqueKeys(o.data) && UniqueKeys(p.data) && SamePayload(o.data, p.data)
    ensures KeyFor(o, c) == KeyFor(p, c)
  {
    var a, b := WithSession(o.data, o.sessionId), WithSession(p.data, p.sessionId);
    WithSessionKeys(o.data, o.sessionId);
    WithSessionKeys(p.data, p.sessionId);
    forall k ensures SameValue(Lookup(a, k), Lookup(b, k)) {
      SessionNamed(o.data, o.sessionId, k);
      SessionNamed(p.data, p.sessionId, k);
      assert SameValue(Lookup(o.data, k), Lookup(p.data, k));
    }
    KeyIgnoresOrder(o.event, a, b, c.sha);
  }

  // The data of an update of a group.
  function Update(group: Json, changes: seq<Member>): seq<Field> {
    [Field("groupId", Some(group)), Field("changes", Some(Obj(changes)))]
  }

  // Two updates of a group whose changes name neither groupId nor changes nor sessionId are dispatched with one
  // key, whatever they say.
  lemma GroupUpdatesCollide(c: Config, sessionId: string, group: Json, a: seq<Member>, b: seq<Member>)
    requires forall k <- ["groupId", "changes", "sessionId"] :: Get(a, k) == None && Get(b, k) == None
    ensures KeyFor(Occasion(sessionId, "group.update", Update(group, a)), c)
         == KeyFor(Occasion(sessionId, "group.update", Update(group, b)), c)
  {
    var x, y := WithSession(Update(group, a), sessionId), WithSession(Update(group, b), sessionId);
    UpdateFields(sessionId, group, a);
    UpdateFields(sessionId, group, b);
    NestedInvisible(x, y, "changes", a, b);
    UpdateKey(x, HashData(c.sha));
    UpdateKey(y, HashData(c.sha));
  }

  lemma UpdateFields(sessionId: string, group: Json, a: seq<Member>)
    ensures var x := WithSession(Update(group, a), sessionId);
      && UniqueKeys(x) && Keys(x) == ["groupId", "changes", "sessionId"]
      && Lookup(x, "changes") == Some(Obj(a)) && Lookup(x, "groupId") == Some(group)
      && forall j :: j != "changes" && j != "groupId" ==>
        Lookup(x, j) == if j == "sessionId" then Some(Str(sessionId)) else None
  {
    var g, h := Field("groupId", Some(group)), Field("changes", Some(Obj(a)));
    var i := Field("sessionId", Some(Str(sessionId)));
    WithSessionLater(g, [h], sessionId);
    WithSessionLater(h, [], sessionId);
    assert [h] + [] == [h] && [g] + [h] == Update(group, a);
    assert WithSession(Update(group, a), sessionId) == [g] + ([h] + [i]) == [g, h, i];
    forall j: string ensures Lookup([g, h, i], j) == if j == g.key then g.value else if j == h.key then h.value
                                                     else if j == i.key then i.value else None {
      LookupThree(g, h, i, j);
    }
  }

  lemma WithSessionLater(f: Field, rest: seq<Field>, sessionId: string)
    requires f.key != "sessionId"
    ensures WithSession([f] + rest, sessionId) == [f] + WithSession(rest, sessionId)
  {
    assert ([f] + rest)[1..] == rest;
  }

  lemma LookupThree(f: Field, g: Field, h: Field, key: string)
    ensures Lookup([f, g, h], key) == if key == f.key then f.value else if key == g.key then g.value
                                      else if key == h.key then h.value else None
  {
    assert [f, g, h][1..] == [g, h] && [g, h][1..] == [h] && [h][1..] == [];
    assert Lookup([h], key) == if key == h.key then h.value else Lookup([], key);
    assert Lookup([g, h], key) == if key == g.key then g.value else Lookup([h], key);
  }

  lemma UpdateKey(data: seq<Field>, hash: seq<Field> -> string)
    ensures IdempotencyKey("group.update", data, hash) == "grp_" + Show(data, "groupId") + "_update_" + hash(data)
  {
  }

  function Header(h: Headers, name: string): Option<string> {
    if name in h then Some(h[name]) else None
  }

  lemma OwnHeaders(o: Occasion, key: string, t: Turn)
    ensures var h := BaseHeaders(o, key, t);
      && Header(h, IDEMPOTENCY_KEY) == Some(key) && Header(h, DELIVERY_ID) == Some(t.deliveryId)
      && Header(h, EVENT) == Some(o.event)
  {
    NamesApart();
  }

  // What the plugins are given agrees with the headers, where those are not the webhook's own.
  lemma PayloadAgrees(c: Config, o: Occasion, key: string, w: Webhook, t: Turn)
    requires forall name <- [IDEMPOTENCY_KEY, DELIVERY_ID, EVENT] :: name !in CustomHeaders(w.headers, c.parse)
    ensures var payload, h := PayloadFor(o, key, t).members, HeadersFor(c, o, key, w, t);
      && Get(payload, "idempotencyKey") == TextOf(Header(h, IDEMPOTENCY_KEY))
      && Get(payload, "deliveryId") == TextOf(Header(h, DELIVERY_ID))
      && Get(payload, "event") == TextOf(Header(h, EVENT))
  {
    OwnHeaders(o, key, t);
    var p := PayloadFor(o, key, t).members;
    assert p[0].key == "event" && p[1].key == "timestamp" && p[2].key == "sessionId";
    GetFour(p);
  }

  lemma GetFour(p: seq<Member>)
    requires |p| > 4 && p[0].key == "event" && p[1].key == "timestamp" && p[2].key == "sessionId"
    requires p[3].key == "idempotencyKey" && p[4].key == "deliveryId"
    ensures Get(p, "event") == Some(p[0].value)
    ensures Get(p, "idempotencyKey") == Some(p[3].value) && Get(p, "deliveryId") == Some(p[4].value)
  {
    assert Get(p[3..], "idempotencyKey") == Some(p[3].value);
    assert Get(p[3..], "deliveryId") == Get(p[3..][1..], "deliveryId") == Some(p[4].value);
    GetLater(p, "idempotencyKey", 3);
    GetLater(p, "deliveryId", 3);
  }

  lemma {:induction false} GetLater(p: seq<Member>, key: string, n: nat)
    requires n <= |p| && forall i :: 0 <= i < n ==> p[i].key != key
    ensures Get(p, key) == Get(p[n..], key)
  {
    if n > 0 {
      GetLater(p[1..], key, n - 1);
      assert p[1..][n - 1..] == p[n..];
    } else {
      assert p[0..] == p;
    }
  }

  function TextOf(header: Option<string>): Option<Json> {
    match header case Some(s) => Some(Str(s)) case None => None
  }

  lemma NamesApart()
    ensures IDEMPOTENCY_KEY[12] == 'I' && DELIVERY_ID[12] == 'D' && EVENT[12] == 'E' && RETRY_COUNT[12] == 'R'
    ensures SIGNATURE[12] == 'S'
  {
  }
}
