/** The WebSocket gateway as it works: messages that join and leave rooms, and sends to rooms. */
module EventsGateways {
  import opened Json
  import opened Rooms
  import opened Stringify

  datatype Response =
    | Subscribed(session: string, events: seq<string>)
    | Unsubscribed(sessionId: Option<Json>)
    | Error(code: string)

  datatype EventMessage = EventMessage(session: string, event: string, data: Json)

  // A socket. Its rooms are its own, under an id that is not the name of a pattern, and those it joined.
  class Client {
    const id: string
    var rooms: set<string>
    ghost var held: set<Pattern>
    var inbox: seq<EventMessage>

    ghost predicate Valid()
      reads this
    {
      !("session:" <= id) && Proper(held) && rooms == RoomsOf(id, held)
    }

    constructor (id: string)
      requires !("session:" <= id)
      ensures Valid() && this.id == id && held == {} && inbox == []
    {
      this.id := id;
      rooms, held, inbox := {id}, {}, [];
    }

    method Join(room: string)
      modifies this`rooms
      ensures rooms == old(rooms) + {room}
    {
      rooms := rooms + {room};
    }

    method Leave(room: string)
      modifies this`rooms
      ensures rooms == old(rooms) - {room}
    {
      rooms := rooms - {room};
    }
  }

  // The strings among the entries of an events array that can be subscribed to.
  function ValidEvents(entries: seq<Json>): seq<string> {
    Rooms.Valid(Texts(entries))
  }

  function Texts(entries: seq<Json>): seq<string> {
    if entries == [] then []
    else (if entries[0].Str? then [entries[0].s] else []) + Texts(entries[1..])
  }

  // What the gateway answers: sessionId and events are whatever the client sent, none where it sent nothing.
  function SubscribeResponse(sessionId: Option<Json>, events: Option<Json>): Response {
    match (sessionId, events)
    case (Some(Str(s)), Some(Arr(entries))) =>
      if s == "" then Error("INVALID_SESSION")
      else if ValidEvents(entries) == [] then Error("INVALID_EVENTS")
      else Subscribed(s, ValidEvents(entries))
    case (Some(Str(s)), _) => Error(if s == "" then "INVALID_SESSION" else "INVALID_EVENTS")
    case _ => Error("INVALID_SESSION")
  }

  // A value in a template literal; none is what a client did not send.
  function Shown(v: Option<Json>): string {
    match v case Some(value) => ShownJson(value) case None => "undefined"
  }

  function ShownJson(v: Json): string {
    match v
    case Null => "null"
    case Bool(b) => if b then "true" else "false"
    case Num(t) => t
    case Str(s) => s
    case Arr(items) =>
      Commas(seq(|items|, i requires 0 <= i < |items| => if items[i].Null? then "" else ShownJson(items[i])))
    case Obj(_) => "[object Object]"
  }

  // The text of what was sent. (That of an array of several items has theirs between commas.)
  predicate PrintsAs(v: Option<Json>, text: string) {
    match v
    case None => text == "undefined"
    case Some(Null) => text == "null"
    case Some(Bool(true)) => text == "true"
    case Some(Bool(false)) => text == "false"
    case Some(Num(number)) => text == number
    case Some(Str(s)) => text == s
    case Some(Obj(_)) => text == "[object Object]"
    case Some(Arr(items)) =>
      |items| <= 1 ==> text == if items == [] || items[0] == Null then "" else ShownJson(items[0])
  }

  // The rooms change just when the answer says so.
  function OpOf(r: Response): Option<Op> {
    match r
    case Subscribed(s, events) => Some(Subscribe(s, events))
    case _ => None
  }

  // The client asks for e: it stands in the events array, and is the wildcard or one of the eleven events.
  ghost predicate AsksFor(events: Option<Json>, e: string) {
    && events.Some? && events.value.Arr? && Str(e) in events.value.items
    && e in ["*", "message.received", "message.sent", "message.ack", "message.revoked", "session.status", "session.qr",
             "session.authenticated", "session.disconnected", "group.join", "group.leave", "group.update"]
  }

  lemma SubscribableIs(e: string)
    ensures Subscribable(e) <==>
      e in ["*", "message.received", "message.sent", "message.ack", "message.revoked", "session.status", "session.qr",
            "session.authenticated", "session.disconnected", "group.join", "group.leave", "group.update"]
  {
    assert ["*"] + SUBSCRIBABLE_EVENTS
      == ["*", "message.received", "message.sent", "message.ack", "message.revoked", "session.status", "session.qr",
          "session.authenticated", "session.disconnected", "group.join", "group.leave", "group.update"];
    assert e in ["*"] + SUBSCRIBABLE_EVENTS <==> e == "*" || e in SUBSCRIBABLE_EVENTS;
  }

  lemma {:induction false} TextsAre(entries: seq<Json>, e: string)
    ensures e in Texts(entries) <==> Str(e) in entries
  {
    if entries != [] {
      TextsAre(entries[1..], e);
      assert entries == [entries[0]] + entries[1..];
    }
  }

  lemma ValidAre(entries: seq<Json>, e: string)
    ensures e in ValidEvents(entries) <==> AsksFor(Some(Arr(entries)), e)
  {
    TextsAre(entries, e);
    SubscribableIs(e);
  }

  // What a subscription comes to: an error, of one of two kinds, which changes nothing; or the events that were asked
  // for, and the patterns of the session with just these.
  ghost predicate Settles(sessionId: Option<Json>, events: Option<Json>, before: set<Pattern>, r: Response,
                          after: set<Pattern>) {
    if sessionId.None? || !sessionId.value.Str? || sessionId.value.s == "" then
      r == Error("INVALID_SESSION") && after == before
    else if forall e :: !AsksFor(events, e) then
      r == Error("INVALID_EVENTS") && after == before
    else
      && r.Subscribed? && r.session == sessionId.value.s && (forall e :: e in r.events <==> AsksFor(events, e))
      && forall p :: p in after <==> p in before || (p.session == sessionId.value.s && AsksFor(events, p.event))
  }

  lemma AnswersSettle(sessionId: Option<Json>, events: Option<Json>, before: set<Pattern>, after: set<Pattern>)
    requires Follows(before, SubscribeResponse(sessionId, events), after)
    ensures Settles(sessionId, events, before, SubscribeResponse(sessionId, events), after)
  {
    if events.Some? && events.value.Arr? {
      forall e ensures e in ValidEvents(events.value.items) <==> AsksFor(events, e) {
        ValidAre(events.value.items, e);
      }
      if ValidEvents(events.value.items) != [] {
        assert AsksFor(events, ValidEvents(events.value.items)[0]);
        ValidTwice(Texts(events.value.items));
        if sessionId.Some? && sessionId.value.Str? && sessionId.value.s != "" {
          MorePatterns(before, sessionId.value.s, ValidEvents(events.value.items));
        }
      }
    }
  }

  lemma MorePatterns(before: set<Pattern>, s: string, events: seq<string>)
    ensures forall p :: p in before + (set e | e in events :: Pattern(s, e)) <==>
      p in before || (p.session == s && p.event in events)
  {
    forall p: Pattern | p.session == s && p.event in events ensures p in set e | e in events :: Pattern(s, e) {
      assert p == Pattern(s, p.event);
    }
  }

  ghost predicate Follows(before: set<Pattern>, r: Response, after: set<Pattern>) {
    after == match OpOf(r) case Some(op) => PatternsAfter(before, op) case None => before
  }

  method JoinAll(client: Client, s: string, validEvents: seq<string>)
    modifies client`rooms
    ensures client.rooms == old(client.rooms) + set e | e in validEvents :: BuildRoomName(s, e)
  {
    for i := 0 to |validEvents|
      invariant client.rooms == old(client.rooms) + set e | e in validEvents[..i] :: BuildRoomName(s, e)
    {
      client.Join(BuildRoomName(s, validEvents[i]));
      assert validEvents[..i + 1] == validEvents[..i] + [validEvents[i]];
      JoinOne(s, validEvents[..i], validEvents[i]);
    }
    assert validEvents[..|validEvents|] == validEvents;
  }

  method HandleSubscribe(client: Client, sessionId: Option<Json>, events: Option<Json>) returns (r: Response)
    requires client.Valid()
    modifies client
    ensures client.Valid() && client.inbox == old(client.inbox)
    ensures r == SubscribeResponse(sessionId, events)
    ensures Settles(sessionId, events, old(client.held), r, client.held)
  {
    r := JoinAsked(client, sessionId, events);
    AnswersSettle(sessionId, events, old(client.held), client.held);
  }

  method JoinAsked(client: Client, sessionId: Option<Json>, events: Option<Json>) returns (r: Response)
    requires client.Valid()
    modifies client
    ensures client.Valid() && client.inbox == old(client.inbox)
    ensures r == SubscribeResponse(sessionId, events)
    ensures Follows(old(client.held), r, client.held)
  {
    if sessionId.None? || !sessionId.value.Str? || sessionId.value.s == "" {
      return Error("INVALID_SESSION");
    }
    if events.None? || !events.value.Arr? || |events.value.items| == 0 {
      return Error("INVALID_EVENTS");
    }
    var s := sessionId.value.s;
    var validEvents := ValidEvents(events.value.items);
    if |validEvents| == 0 {
      return Error("INVALID_EVENTS");
    }
    JoinAll(client, s, validEvents);
    ValidTwice(Texts(events.value.items));
    StepSimulates(client.id, client.held, Subscribe(s, validEvents));
    client.held := PatternsAfter(client.held, Subscribe(s, validEvents));
    return Subscribed(s, validEvents);
  }

  method LeaveAll(client: Client, session: string, all: bool)
    modifies client`rooms
    ensures client.rooms == RoomsAfter(old(client.rooms), Unsubscribe(session, all))
  {
    var clientRooms := client.rooms;
    var sessionPrefix := "session:" + session + ":";
    while clientRooms != {}
      invariant clientRooms <= old(client.rooms)
      invariant client.rooms == set x | x in old(client.rooms) && (x in clientRooms || !Leaves(x, session, all))
      decreases |clientRooms|
    {
      var room :| room in clientRooms;
      clientRooms := clientRooms - {room};
      if sessionPrefix <= room || (all && "session:" <= room) {
        client.Leave(room);
      }
    }
  }

  // The session id is not checked: whatever was sent is printed into the prefix, but only the string * is the
  // wildcard.
  method HandleUnsubscribe(client: Client, sessionId: Option<Json>) returns (r: Response)
    requires client.Valid()
    modifies client
    ensures client.Valid() && client.inbox == old(client.inbox)
    ensures r == Unsubscribed(sessionId)
    ensures PrintsAs(sessionId, Shown(sessionId))
    ensures var s, all := Shown(sessionId), sessionId == Some(Str("*"));
      forall p :: p in client.held <==> p in old(client.held) && !(all || p.session == s || s + ":" <= p.session)
  {
    var session, all := Shown(sessionId), sessionId == Some(Str("*"));
    LeaveAll(client, session, all);
    StepSimulates(client.id, client.held, Unsubscribe(session, all));
    client.held := PatternsAfter(client.held, Unsubscribe(session, all));
    return Unsubscribed(sessionId);
  }

  function Copy<T>(x: T, present: bool): seq<T> {
    if present then [x] else []
  }

  function Repeat<T>(x: T, n: nat): seq<T> {
    seq(n, _ => x)
  }

  // server.to(room).emit: every connected client in the room gets one copy.
  method SendTo(clients: seq<Client>, room: string, message: EventMessage)
    requires forall i, j :: 0 <= i < j < |clients| ==> clients[i] != clients[j]
    modifies clients`inbox
    ensures forall c <- clients :: c.inbox == old(c.inbox) + Copy(message, room in c.rooms)
  {
    for i := 0 to |clients|
      invariant forall k :: 0 <= k < i ==>
        clients[k].inbox == old(clients[k].inbox) + Copy(message, room in clients[k].rooms)
      invariant forall k :: i <= k < |clients| ==> clients[k].inbox == old(clients[k].inbox)
    {
      var c := clients[i];
      if room in c.rooms {
        c.inbox := c.inbox + [message];
      }
    }
  }

  // emitToRooms: four sends, whose copies add up for a client that is in several of the rooms.
  method EmitToRooms(clients: seq<Client>, session: string, event: string, data: Json)
    requires forall i, j :: 0 <= i < j < |clients| ==> clients[i] != clients[j]
    requires forall c <- clients :: c.Valid()
    modifies clients`inbox
    ensures forall c <- clients :: c.Valid() && c.inbox == old(c.inbox)
              + Repeat(EventMessage(session, event, data), Copies(c.rooms, Targets(session, event)))
    ensures event in SUBSCRIBABLE_EVENTS ==>
      forall c <- clients ::
        var covering := set p <- c.held | Covers(p, session, event);
        c.inbox == old(c.inbox)
          + Repeat(EventMessage(session, event, data), |covering| * if session == "*" then 2 else 1)
  {
    var message := EventMessage(session, event, data);
    SendTo(clients, BuildRoomName(session, event), message);
    SendTo(clients, BuildRoomName(session, "*"), message);
    SendTo(clients, BuildRoomName("*", event), message);
    SendTo(clients, BuildRoomName("*", "*"), message);
    forall c <- clients
      ensures c.inbox == old(c.inbox) + Repeat(message, Copies(c.rooms, Targets(session, event)))
    {
      FourSends(old(c.inbox), message, c.rooms, session, event);
    }
    if event in SUBSCRIBABLE_EVENTS {
      forall c <- clients
        ensures var covering := set p <- c.held | Covers(p, session, event);
          Copies(c.rooms, Targets(session, event)) == |covering| * if session == "*" then 2 else 1
      {
        OncePerPattern(c.id, c.held, session, event);
      }
    }
  }

  // ---------- helpers ----------

  lemma {:induction false} ValidTwice(events: seq<string>)
    ensures Rooms.Valid(Rooms.Valid(events)) == Rooms.Valid(events)
  {
    if events != [] {
      var rest := Rooms.Valid(events[1..]);
      ValidTwice(events[1..]);
      assert ([events[0]] + rest)[1..] == rest;
      if !Subscribable(events[0]) { assert Rooms.Valid(events) == rest; }
    }
  }

  lemma JoinOne(s: string, events: seq<string>, event: string)
    ensures (set e | e in events + [event] :: BuildRoomName(s, e))
      == (set e | e in events :: BuildRoomName(s, e)) + {BuildRoomName(s, event)}
  {
    assert event in events + [event];
    forall e <- events ensures BuildRoomName(s, e) in set e | e in events + [event] :: BuildRoomName(s, e) {
      assert e in events + [event];
    }
  }

  lemma CopiesCons(rooms: set<string>, t: Pattern, rest: seq<Pattern>)
    ensures Copies(rooms, [t] + rest) == (if Name(t) in rooms then 1 else 0) + Copies(rooms, rest)
  {
    assert ([t] + rest)[1..] == rest;
  }

  function One(present: bool): nat {
    if present then 1 else 0
  }

  lemma SendAgain<T>(inbox: seq<T>, m: T, present: bool, n: nat)
    ensures (inbox + Copy(m, present)) + Repeat(m, n) == inbox + Repeat(m, One(present) + n)
  {
  }

  lemma FourSends(inbox: seq<EventMessage>, m: EventMessage, rooms: set<string>, session: string, event: string)
    ensures inbox + Copy(m, BuildRoomName(session, event) in rooms) + Copy(m, BuildRoomName(session, "*") in rooms)
                  + Copy(m, BuildRoomName("*", event) in rooms) + Copy(m, BuildRoomName("*", "*") in rooms)
      == inbox + Repeat(m, Copies(rooms, Targets(session, event)))
  {
    var a, b, c, d := Pattern(session, event), Pattern(session, "*"), Pattern("*", event), Pattern("*", "*");
    CopiesCons(rooms, a, [b, c, d]);
    CopiesCons(rooms, b, [c, d]);
    CopiesCons(rooms, c, [d]);
    CopiesCons(rooms, d, []);
    assert Targets(session, event) == [a] + [b, c, d] && [b, c, d] == [b] + [c, d];
    assert [c, d] == [c] + [d] && [d] == [d] + [];
    Sends(inbox, m, Name(a) in rooms, Name(b) in rooms, Name(c) in rooms, Name(d) in rooms);
  }

  lemma Sends<T>(inbox: seq<T>, m: T, a: bool, b: bool, c: bool, d: bool)
    ensures inbox + Copy(m, a) + Copy(m, b) + Copy(m, c) + Copy(m, d)
      == inbox + Repeat(m, One(a) + (One(b) + (One(c) + One(d))))
  {
    var one := inbox + Copy(m, a);
    var two := one + Copy(m, b);
    var three := two + Copy(m, c);
    assert three + Copy(m, d) == three + Repeat(m, One(d));
    SendAgain(two, m, c, One(d));
    SendAgain(one, m, b, One(c) + One(d));
    SendAgain(inbox, m, a, One(b) + (One(c) + One(d)));
  }
}
