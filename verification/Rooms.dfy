/**
 Rooms of the WebSocket gateway: a client subscribes to patterns (session, event), either part of which may
 be a wildcard, and each pattern is a room with a name.
 */
module Rooms {
  import opened Json
  import opened Strings

  const SUBSCRIBABLE_EVENTS := [
    "message.received", "message.sent", "message.ack", "message.revoked", "session.status", "session.qr",
    "session.authenticated", "session.disconnected", "group.join", "group.leave", "group.update"
  ]

  datatype Pattern = Pattern(session: string, event: string)

  predicate Subscribable(e: string) {
    e == "*" || e in SUBSCRIBABLE_EVENTS
  }

  function BuildRoomName(session: string, event: string): string {
    Join("session:" + session, event)
  }

  function Name(p: Pattern): string {
    BuildRoomName(p.session, p.event)
  }

  function FirstColon(s: string): (i: nat)
    ensures i <= |s| && NoColon(s[..i]) && (i < |s| ==> s[i] == ':')
  {
    if s == "" || s[0] == ':' then 0 else 1 + FirstColon(s[1..])
  }

  // What the regular expression's dot does not match.
  predicate LineEnd(c: char) {
    c == '\n' || c == '\r' || c == '\U{2028}' || c == '\U{2029}'
  }

  predicate OneLine(s: string) {
    s != "" && forall k :: 0 <= k < |s| ==> !LineEnd(s[k])
  }

  function ParseRoomName(room: string): Option<Pattern> {
    if !("session:" <= room) then None
    else
      var rest := room[8..];
      var i := FirstColon(rest);
      if i == 0 || i == |rest| || !OneLine(rest[i + 1..]) then None
      else Some(Pattern(rest[..i], rest[i + 1..]))
  }

  // ---------- names ----------

  lemma SubscribableColonFree(e: string)
    requires Subscribable(e)
    ensures NoColon(e) && OneLine(e)
  {
    EventsColonFree();
  }

  lemma EventsColonFree()
    ensures forall e <- SUBSCRIBABLE_EVENTS :: NoColon(e) && OneLine(e)
  {
    forall i | 0 <= i < |SUBSCRIBABLE_EVENTS| ensures NoColon(SUBSCRIBABLE_EVENTS[i]) {}
    forall i | 0 <= i < |SUBSCRIBABLE_EVENTS| ensures OneLine(SUBSCRIBABLE_EVENTS[i]) {}
  }

  // Two patterns never share a room, whatever the session ids are.
  lemma NamesInjective(p: Pattern, q: Pattern)
    requires NoColon(p.event) && NoColon(q.event)
    ensures Name(p) == Name(q) <==> p == q
  {
    if Name(p) == Name(q) {
      LastPart("session:" + p.session, p.event, "session:" + q.session, q.event);
      assert p.session == ("session:" + p.session)[8..];
      assert q.session == ("session:" + q.session)[8..];
    }
  }

  lemma {:induction false} FirstColonIs(a: string, b: string)
    requires NoColon(a)
    ensures FirstColon(a + ":" + b) == |a|
  {
    if a == "" {
      assert a + ":" + b == ":" + b;
    } else {
      assert (a + ":" + b)[1..] == a[1..] + ":" + b;
      FirstColonIs(a[1..], b);
    }
  }

  lemma ParseName(room: string, p: Pattern)
    ensures ParseRoomName(room) == Some(p)
      <==> room == Name(p) && p.session != "" && NoColon(p.session) && OneLine(p.event)
  {
    var rest := p.session + ":" + p.event;
    if room == Name(p) {
      assert room == "session:" + rest;
      assert room[8..] == rest;
      if NoColon(p.session) {
        FirstColonIs(p.session, p.event);
        assert rest[..|p.session|] == p.session && rest[|p.session| + 1..] == p.event;
      }
    }
    if ParseRoomName(room) == Some(p) {
      var tail := room[8..];
      var i := FirstColon(tail);
      assert tail == tail[..i] + ":" + tail[i + 1..];
      assert room == "session:" + tail;
      assert room == "session:" + (p.session + ":" + p.event) == Name(p);
    }
  }

  lemma OneLineIs(s: string)
    ensures OneLine(s) <==> s != "" && forall c <- s :: c as int !in [10, 13, 8232, 8233]
  {
    forall c ensures LineEnd(c) <==> c as int in [10, 13, 8232, 8233] {}
    forall k | 0 <= k < |s| ensures s[k] in s {}
    forall c <- s ensures exists k :: 0 <= k < |s| && s[k] == c {}
  }

  // Parsing undoes building exactly for session ids that are neither empty nor hold a colon.
  lemma ParseBuild(room: string, p: Pattern)
    ensures ParseRoomName(room) == Some(p)
      <==> && room == "session:" + p.session + ":" + p.event && p.session != "" && ':' !in p.session
           && p.event != "" && forall c <- p.event :: c as int !in [10, 13, 8232, 8233]
    ensures Name(p) == "session:" + p.session + ":" + p.event
  {
    ParseName(room, p);
    OneLineIs(p.event);
  }

  // ---------- a client's rooms ----------

  // What a message asks for. The events that are not subscribable are dropped. `all` says that the session id
  // is the wildcard.
  datatype Op = Subscribe(session: string, events: seq<string>) | Unsubscribe(session: string, all: bool)

  function Valid(events: seq<string>): (r: seq<string>)
    ensures forall e :: e in r <==> e in events && Subscribable(e)
  {
    if events == [] then []
    else (if Subscribable(events[0]) then [events[0]] else []) + Valid(events[1..])
  }

  // The prefix that unsubscribing looks for.
  predicate Leaves(room: string, session: string, all: bool) {
    "session:" + session + ":" <= room || (all && "session:" <= room)
  }

  function RoomsAfter(rooms: set<string>, op: Op): set<string> {
    match op
    case Subscribe(s, events) => if s == "" then rooms else rooms + set e | e in Valid(events) :: BuildRoomName(s, e)
    case Unsubscribe(s, all) => set r | r in rooms && !Leaves(r, s, all)
  }

  // Unsubscribing from s drops its patterns and those of session ids that go on with a colon after s;
  // unsubscribing from the wildcard drops all.
  predicate Drops(p: Pattern, session: string, all: bool) {
    all || p.session == session || session + ":" <= p.session
  }

  function PatternsAfter(held: set<Pattern>, op: Op): set<Pattern> {
    match op
    case Subscribe(s, events) => if s == "" then held else held + set e | e in Valid(events) :: Pattern(s, e)
    case Unsubscribe(s, all) => set p | p in held && !Drops(p, s, all)
  }

  // A client is in its own room, named after its socket, and in those of the patterns it holds.
  function RoomsOf(own: string, held: set<Pattern>): set<string> {
    {own} + set p | p in held :: Name(p)
  }

  predicate Proper(held: set<Pattern>) {
    forall p <- held :: Subscribable(p.event)
  }

  lemma LeavesIsDrops(p: Pattern, session: string, all: bool)
    requires NoColon(p.event)
    ensures Leaves(Name(p), session, all) <==> Drops(p, session, all)
  {
    var room, prefix := Name(p), "session:" + session + ":";
    assert room == "session:" + (p.session + ":" + p.event);
    assert room[8..] == p.session + ":" + p.event;
    assert prefix[8..] == session + ":";
    assert forall k :: 8 <= k < |prefix| ==> prefix[k] == (session + ":")[k - 8];
    assert forall k :: 8 <= k < |room| ==> room[k] == (p.session + ":" + p.event)[k - 8];
    PrefixUpToColon(session, p.session, p.event);
    assert prefix <= room <==> session + ":" <= p.session + ":" + p.event by {
      if prefix <= room { assert (session + ":") == room[8..][..|session| + 1]; }
      if session + ":" <= p.session + ":" + p.event {
        assert prefix == "session:" + (session + ":") == room[..|prefix|];
      }
    }
  }

  lemma PrefixUpToColon(s: string, x: string, e: string)
    requires NoColon(e)
    ensures s + ":" <= x + ":" + e <==> x == s || s + ":" <= x
  {
    var a, b := s + ":", x + ":" + e;
    if a <= b {
      assert b[|s|] == a[|s|] == ':';
      assert forall k :: |x| < k < |b| ==> b[k] == e[k - |x| - 1];
      if |s| == |x| {
        assert s == b[..|s|] == x;
      } else {
        assert |s| < |x|;
        assert a == b[..|s| + 1] == x[..|s| + 1];
      }
    }
  }

  lemma NamesOfMore(held: set<Pattern>, s: string, events: seq<string>)
    ensures (set p | p in held + (set e | e in events :: Pattern(s, e)) :: Name(p))
      == (set p | p in held :: Name(p)) + set e | e in events :: BuildRoomName(s, e)
  {
    var more := set e | e in events :: Pattern(s, e);
    forall e <- events ensures BuildRoomName(s, e) in set p | p in held + more :: Name(p) {
      assert Pattern(s, e) in held + more;
    }
  }

  lemma JoinSimulates(own: string, held: set<Pattern>, s: string, events: seq<string>)
    ensures var op := Subscribe(s, events);
      RoomsAfter(RoomsOf(own, held), op) == RoomsOf(own, PatternsAfter(held, op))
  {
    NamesOfMore(held, s, Valid(events));
  }

  lemma LeaveSimulates(own: string, held: set<Pattern>, op: Op)
    requires Proper(held) && !("session:" <= own) && op.Unsubscribe?
    ensures RoomsAfter(RoomsOf(own, held), op) == RoomsOf(own, PatternsAfter(held, op))
  {
    var left := PatternsAfter(held, op);
    OwnStays(own, op.session, op.all);
    forall p <- held ensures Leaves(Name(p), op.session, op.all) <==> p !in left {
      SubscribableColonFree(p.event);
      LeavesIsDrops(p, op.session, op.all);
    }
  }

  // The rooms of a client are those of its patterns, after every message.
  lemma StepSimulates(own: string, held: set<Pattern>, op: Op)
    requires Proper(held) && !("session:" <= own)
    ensures RoomsAfter(RoomsOf(own, held), op) == RoomsOf(own, PatternsAfter(held, op))
    ensures Proper(PatternsAfter(held, op))
  {
    match op
    case Subscribe(s, events) => JoinSimulates(own, held, s, events);
    case Unsubscribe(_, _) => LeaveSimulates(own, held, op);
  }

  lemma PrefixTrans(a: string, b: string, c: string)
    requires a + b <= c
    ensures a <= c && c[..|a|] == a && |a + b| <= |c| && forall k :: 0 <= k < |b| ==> c[|a| + k] == b[k]
  {
    assert c[..|a + b|] == a + b;
    assert forall k :: 0 <= k < |a + b| ==> c[k] == (a + b)[k];
  }

  lemma OwnStays(own: string, s: string, all: bool)
    requires !("session:" <= own)
    ensures !Leaves(own, s, all)
  {
    assert "session:" + s + ":" == "session:" + (s + ":");
    if "session:" + (s + ":") <= own {
      PrefixTrans("session:", s + ":", own);
    }
  }

  // ---------- runs ----------

  function HeldAfter(ops: seq<Op>): set<Pattern> {
    if ops == [] then {} else PatternsAfter(HeldAfter(ops[..|ops| - 1]), ops[|ops| - 1])
  }

  function RoomsAfterAll(own: string, ops: seq<Op>): set<string> {
    if ops == [] then {own} else RoomsAfter(RoomsAfterAll(own, ops[..|ops| - 1]), ops[|ops| - 1])
  }

  lemma {:induction false} RunSimulates(own: string, ops: seq<Op>)
    requires !("session:" <= own)
    ensures Proper(HeldAfter(ops)) && RoomsAfterAll(own, ops) == RoomsOf(own, HeldAfter(ops))
  {
    if ops != [] {
      RunSimulates(own, ops[..|ops| - 1]);
      StepSimulates(own, HeldAfter(ops[..|ops| - 1]), ops[|ops| - 1]);
    }
  }

  predicate Adds(op: Op, p: Pattern) {
    op.Subscribe? && op.session == p.session && p.session != "" && p.event in Valid(op.events)
  }

  predicate Removes(op: Op, p: Pattern) {
    op.Unsubscribe? && Drops(p, op.session, op.all)
  }

  // A pattern is held exactly when it was subscribed to and not dropped since.
  ghost predicate Live(ops: seq<Op>, p: Pattern) {
    exists i :: 0 <= i < |ops| && Adds(ops[i], p) && forall j :: i < j < |ops| ==> !Removes(ops[j], p)
  }

  lemma LiveStep(ops: seq<Op>, op: Op, p: Pattern)
    ensures Live(ops + [op], p) <==> Adds(op, p) || (Live(ops, p) && !Removes(op, p))
  {
    var all := ops + [op];
    if Live(ops, p) && !Removes(op, p) {
      var i :| 0 <= i < |ops| && Adds(ops[i], p) && forall j :: i < j < |ops| ==> !Removes(ops[j], p);
      assert Adds(all[i], p);
    }
    if Adds(op, p) {
      assert Adds(all[|ops|], p);
    }
    if Live(all, p) {
      var i :| 0 <= i < |all| && Adds(all[i], p) && forall j :: i < j < |all| ==> !Removes(all[j], p);
      if i < |ops| {
        assert forall j :: i < j < |ops| ==> ops[j] == all[j];
        assert Adds(ops[i], p) && all[|ops|] == op;
      }
    }
  }

  lemma {:induction false} HeldIsLive(ops: seq<Op>, p: Pattern)
    ensures p in HeldAfter(ops) <==> Live(ops, p)
  {
    if ops != [] {
      var before, op := ops[..|ops| - 1], ops[|ops| - 1];
      HeldIsLive(before, p);
      assert ops == before + [op];
      LiveStep(before, op, p);
      PatternStep(HeldAfter(before), op, p);
    }
  }

  lemma PatternStep(held: set<Pattern>, op: Op, p: Pattern)
    ensures p in PatternsAfter(held, op) <==> Adds(op, p) || (p in held && !Removes(op, p))
  {
    if op.Subscribe? && p.event in Valid(op.events) {
      assert Pattern(op.session, p.event) == p <==> op.session == p.session;
    }
  }

  // With colon-free session ids, unsubscribing from s drops exactly the patterns of s; the wildcard drops all.
  lemma UnsubscribeExact(held: set<Pattern>, s: string)
    ensures PatternsAfter(held, Unsubscribe(s, false)) == (set p | p in held && p.session != s)
      <==> forall p <- held :: !(s + ":" <= p.session)
    ensures PatternsAfter(held, Unsubscribe(s, true)) == {}
  {
    var left := PatternsAfter(held, Unsubscribe(s, false));
    if left == (set p | p in held && p.session != s) {
      forall p <- held ensures !(s + ":" <= p.session) {
        assert p in left <==> p.session != s;
      }
    }
  }

  // No colon-free id goes on with a colon after another.
  lemma ColonFreeIds(s: string, x: string)
    ensures s + ":" <= x ==> !NoColon(x)
  {
    if s + ":" <= x {
      PrefixTrans(s, ":", x);
      assert x[|s| + 0] == ':';
    }
  }

  // ---------- emission ----------

  // The rooms an event goes to, one after the other.
  function Targets(session: string, event: string): seq<Pattern> {
    [Pattern(session, event), Pattern(session, "*"), Pattern("*", event), Pattern("*", "*")]
  }

  // How often a client in these rooms is sent the event.
  function Copies(rooms: set<string>, targets: seq<Pattern>): nat {
    if targets == [] then 0 else (if Name(targets[0]) in rooms then 1 else 0) + Copies(rooms, targets[1..])
  }

  function Count(held: set<Pattern>, targets: seq<Pattern>): nat {
    if targets == [] then 0 else (if targets[0] in held then 1 else 0) + Count(held, targets[1..])
  }

  lemma {:induction false} CopiesAreHeld(own: string, held: set<Pattern>, targets: seq<Pattern>)
    requires Proper(held) && !("session:" <= own) && forall t <- targets :: NoColon(t.event)
    ensures Copies(RoomsOf(own, held), targets) == Count(held, targets)
  {
    if targets != [] {
      var t := targets[0];
      assert Name(t) in RoomsOf(own, held) <==> t in held by {
        if Name(t) in RoomsOf(own, held) {
          NameHasPrefix(t);
          var p :| p in held && Name(p) == Name(t);
          SubscribableColonFree(p.event);
          NamesInjective(p, t);
        }
      }
      CopiesAreHeld(own, held, targets[1..]);
    }
  }

  lemma NameHasPrefix(p: Pattern)
    ensures "session:" <= Name(p)
  {
    assert Name(p)[..8] == "session:";
  }

  // The pattern is for this session or all, and for this event or all.
  predicate Covers(p: Pattern, session: string, event: string) {
    (p.session == session || p.session == "*") && (p.event == event || p.event == "*")
  }

  // An event of session s reaches a client once for each pattern it holds that covers the event; were s the wildcard
  // itself, it would reach it twice.
  lemma OncePerPattern(own: string, held: set<Pattern>, session: string, event: string)
    requires Proper(held) && !("session:" <= own) && event in SUBSCRIBABLE_EVENTS
    ensures var covering := set p <- held | Covers(p, session, event);
      Copies(RoomsOf(own, held), Targets(session, event)) == |covering| * if session == "*" then 2 else 1
  {
    SubscribableColonFree(event);
    SubscribableColonFree("*");
    CopiesAreHeld(own, held, Targets(session, event));
    NotWild(event);
    CoveringTargets(held, session, event);
    if session == "*" {
      CountTwice(held, Pattern("*", event), Pattern("*", "*"));
    } else {
      CountDistinct(held, Targets(session, event));
    }
  }

  lemma CoveringTargets(held: set<Pattern>, session: string, event: string)
    ensures (set p <- held | Covers(p, session, event)) == set p <- Targets(session, event) | p in held
  {
    forall p ensures p in Targets(session, event) <==> Covers(p, session, event) {
      assert p == Pattern(p.session, p.event);
      InFour(p, Pattern(session, event), Pattern(session, "*"), Pattern("*", event), Pattern("*", "*"));
    }
  }

  lemma InFour<T>(x: T, a: T, b: T, c: T, d: T)
    ensures x in [a, b, c, d] <==> x == a || x == b || x == c || x == d
  {
  }

  lemma NotWild(event: string)
    requires event in SUBSCRIBABLE_EVENTS
    ensures event != "*"
  {
  }

  lemma CountTwice(held: set<Pattern>, a: Pattern, b: Pattern)
    requires a != b
    ensures Count(held, [a, b, a, b]) == |set p <- [a, b, a, b] | p in held| * 2
  {
    assert [a, b, a, b] == [a, b] + [a, b];
    CountConcat(held, [a, b], [a, b]);
    CountDistinct(held, [a, b]);
    assert (set p <- [a, b, a, b] | p in held) == set p <- [a, b] | p in held;
  }

  lemma {:induction false} CountConcat(held: set<Pattern>, a: seq<Pattern>, b: seq<Pattern>)
    ensures Count(held, a + b) == Count(held, a) + Count(held, b)
  {
    if a == [] {
      assert a + b == b;
    } else {
      assert (a + b)[1..] == a[1..] + b;
      CountConcat(held, a[1..], b);
    }
  }

  lemma {:induction false} CountDistinct(held: set<Pattern>, targets: seq<Pattern>)
    requires forall i, j :: 0 <= i < j < |targets| ==> targets[i] != targets[j]
    ensures Count(held, targets) == |set p <- targets | p in held|
  {
    if targets != [] {
      CountDistinct(held, targets[1..]);
      assert targets == [targets[0]] + targets[1..];
      assert targets[0] !in targets[1..];
      OneMore(held, targets[0], targets[1..]);
    }
  }

  lemma OneMore(held: set<Pattern>, t: Pattern, rest: seq<Pattern>)
    requires t !in rest
    ensures |set p <- [t] + rest | p in held| == (if t in held then 1 else 0) + |set p <- rest | p in held|
  {
    var all, others := set p <- [t] + rest | p in held, set p <- rest | p in held;
    if t in held {
      assert all == others + {t};
    } else {
      assert all == others;
    }
  }
}
