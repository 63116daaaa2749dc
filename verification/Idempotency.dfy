/**
 Idempotency keys of webhook events. A payload is a record whose fields may be undefined; SHA-256 is a
 parameter.
 */
module Idempotency {
  import opened Json
  import opened Stringify
  import opened UniqueText

  datatype Field = Field(key: string, value: Option<Json>)

  predicate UniqueKeys(data: seq<Field>) {
    forall i, j :: 0 <= i < j < |data| ==> data[i].key != data[j].key
  }

  // The value of a field: none when the field is missing or undefined.
  function Lookup(data: seq<Field>, key: string): Option<Json> {
    if data == [] then None
    else if data[0].key == key then data[0].value
    else Lookup(data[1..], key)
  }

  function Keys(data: seq<Field>): seq<string> {
    seq(|data|, i requires 0 <= i < |data| => data[i].key)
  }

  // What JSON.stringify sees of a payload: an undefined field has no member.
  function Members(data: seq<Field>): seq<Member> {
    if data == [] then []
    else (if data[0].value.Some? then [Member(data[0].key, data[0].value.value)] else []) + Members(data[1..])
  }

  // The order of Array.prototype.sort on strings.
  predicate Before(a: string, b: string) {
    b != "" && (a == "" || a[0] < b[0] || (a[0] == b[0] && Before(a[1..], b[1..])))
  }

  function Insert(k: string, names: seq<string>): seq<string> {
    if names != [] && Before(names[0], k) then [names[0]] + Insert(k, names[1..]) else [k] + names
  }

  function Sort(names: seq<string>): seq<string> {
    if names == [] then [] else Insert(names[0], Sort(names[1..]))
  }

  // hashData before the digest: the payload's own key names list the members at every depth.
  function HashText(data: seq<Field>): string {
    Listed(Obj(Members(data)), Sort(Keys(data)))
  }

  function Take(s: string, n: nat): string {
    if |s| < n then s else s[..n]
  }

  function HashData(sha: string -> string): seq<Field> -> string {
    (data: seq<Field>) => Take(sha(HashText(data)), 12)
  }

  function ToStr(value: Option<Json>, fallback: string): string {
    match value
    case Some(Str(s)) => s
    case Some(Num(t)) => t
    case Some(Bool(b)) => if b then "true" else "false"
    case _ => fallback
  }

  const UNKNOWN := "unknown"

  function Show(data: seq<Field>, key: string): string {
    ToStr(Lookup(data, key), UNKNOWN)
  }

  function Underscored(event: string): string {
    seq(|event|, i requires 0 <= i < |event| => if event[i] == '.' then '_' else event[i])
  }

  function MessageId(data: seq<Field>): string {
    var id := Show(data, "messageId");
    if id != "" then id else Show(data, "id")
  }

  function IdempotencyKey(event: string, data: seq<Field>, hash: seq<Field> -> string): string {
    if event == "message.received" || event == "message.sent" then "msg_" + MessageId(data)
    else if event == "message.ack" then "ack_" + Show(data, "messageId") + "_" + ToStr(Lookup(data, "ack"), "0")
    else if event == "message.revoked" then "rev_" + Show(data, "messageId")
    else if event == "session.status" then "sess_" + Show(data, "sessionId") + "_" + Show(data, "status")
    else if event == "session.qr" then "qr_" + Show(data, "sessionId") + "_" + hash(Just(data, "qr"))
    else if event == "session.authenticated" then "auth_" + Show(data, "sessionId") + "_" + hash(data)
    else if event == "session.disconnected" then "disc_" + Show(data, "sessionId") + "_" + hash(Just(data, "reason"))
    else if event == "group.join" then "grp_" + Show(data, "groupId") + "_" + Show(data, "participantId") + "_join"
    else if event == "group.leave" then "grp_" + Show(data, "groupId") + "_" + Show(data, "participantId") + "_leave"
    else if event == "group.update" then "grp_" + Show(data, "groupId") + "_update_" + hash(data)
    else "evt_" + Underscored(event) + "_" + hash(data)
  }

  function Just(data: seq<Field>, key: string): seq<Field> {
    [Field(key, Lookup(data, key))]
  }

  // ---------- sorting the names ----------

  predicate Ascending(s: seq<string>) {
    forall i, j :: 0 <= i < j < |s| ==> Before(s[i], s[j])
  }

  lemma {:induction false} BeforeTotal(a: string, b: string)
    ensures a != b ==> Before(a, b) || Before(b, a)
    ensures !(Before(a, b) && Before(b, a))
  {
    if a != "" && b != "" {
      BeforeTotal(a[1..], b[1..]);
      assert a == [a[0]] + a[1..] && b == [b[0]] + b[1..];
    }
  }

  lemma {:induction false} BeforeTransitive(a: string, b: string, c: string)
    requires Before(a, b) && Before(b, c)
    ensures Before(a, c)
  {
    if a != "" && a[0] == b[0] == c[0] {
      BeforeTransitive(a[1..], b[1..], c[1..]);
    }
  }

  lemma {:induction false} InsertKeeps(k: string, s: seq<string>)
    requires Ascending(s) && k !in s
    ensures Ascending(Insert(k, s))
    ensures forall x :: x in Insert(k, s) <==> x == k || x in s
  {
    if s != [] {
      BeforeTotal(s[0], k);
      assert s == [s[0]] + s[1..];
      if Before(s[0], k) {
        InsertKeeps(k, s[1..]);
        FirstBefore(s[0], Insert(k, s[1..]));
      } else {
        forall x <- s ensures Before(k, x) {
          if x != s[0] { BeforeTransitive(k, s[0], x); }
        }
        FirstBefore(k, s);
      }
    }
  }

  lemma FirstBefore(k: string, s: seq<string>)
    requires Ascending(s) && forall x <- s :: Before(k, x)
    ensures Ascending([k] + s)
  {
  }

  lemma {:induction false} SortKeeps(s: seq<string>)
    requires forall i, j :: 0 <= i < j < |s| ==> s[i] != s[j]
    ensures Ascending(Sort(s))
    ensures forall x :: x in Sort(s) <==> x in s
  {
    if s != [] {
      SortKeeps(s[1..]);
      assert s[0] !in s[1..];
      InsertKeeps(s[0], Sort(s[1..]));
      assert s == [s[0]] + s[1..];
    }
  }

  lemma {:induction false} AscendingUnique(s: seq<string>, t: seq<string>)
    requires Ascending(s) && Ascending(t) && forall x :: x in s <==> x in t
    ensures s == t
  {
    SameEmpty(s, t);
    if s != [] {
      AscendingHead(s, t[0]);
      AscendingHead(t, s[0]);
      BeforeTotal(s[0], t[0]);
      assert s[0] == t[0];
      forall x ensures x in s[1..] <==> x in t[1..] {
        BeforeTotal(x, x);
        assert x in s[1..] ==> Before(s[0], x);
        assert x in t[1..] ==> Before(t[0], x);
        assert x in s <==> x == s[0] || x in s[1..];
        assert x in t <==> x == t[0] || x in t[1..];
      }
      AscendingUnique(s[1..], t[1..]);
      assert s == [s[0]] + s[1..] && t == [t[0]] + t[1..];
    }
  }

  lemma SameEmpty(s: seq<string>, t: seq<string>)
    requires forall x :: x in s <==> x in t
    ensures s == [] <==> t == []
  {
    if s != [] { assert s[0] in s; }
    if t != [] { assert t[0] in t; }
  }

  lemma AscendingHead(s: seq<string>, x: string)
    requires Ascending(s) && s != [] && x in s
    ensures x == s[0] || Before(s[0], x)
  {
  }

  // ---------- key order ----------

  // Equal up to the order of members, at every depth.
  ghost predicate Same(v: Json, w: Json) {
    match (v, w)
    case (Arr(a), Arr(b)) => |a| == |b| && forall i :: 0 <= i < |a| ==> Same(a[i], b[i])
    case (Obj(a), Obj(b)) =>
      && (forall k :: Get(a, k).Some? == Get(b, k).Some?)
      && forall k :: Get(a, k).Some? && Get(b, k).Some? ==> Same(Part(v, k), Part(w, k))
    case _ => v == w
  }

  ghost predicate SameValue(a: Option<Json>, b: Option<Json>) {
    a.Some? == b.Some? && (a.Some? ==> Same(a.value, b.value))
  }

  ghost predicate SamePayload(a: seq<Field>, b: seq<Field>) {
    && (forall k :: k in Keys(a) <==> k in Keys(b))
    && forall k :: SameValue(Lookup(a, k), Lookup(b, k))
  }

  lemma {:induction false} SameIsSameOn(v: Json, w: Json, names: seq<string>)
    requires Same(v, w)
    ensures SameOn(v, w, names)
  {
    match (v, w)
    case (Arr(a), Arr(b)) =>
      forall i | 0 <= i < |a| ensures SameOn(a[i], b[i], names) {
        SameIsSameOn(a[i], b[i], names);
      }
    case (Obj(a), Obj(b)) =>
      forall k <- names | Get(a, k).Some? && Get(b, k).Some? ensures SameOn(Part(v, k), Part(w, k), names) {
        SameIsSameOn(Part(v, k), Part(w, k), names);
      }
    case _ =>
  }

  lemma {:induction false} GetIsLookup(data: seq<Field>, key: string)
    requires UniqueKeys(data)
    ensures Get(Members(data), key) == Lookup(data, key)
  {
    if data != [] {
      GetIsLookup(data[1..], key);
      if data[0].key == key { LookupMissing(data[1..], key); }
      assert if data[0].value.Some? then Members(data)[1..] == Members(data[1..])
             else Members(data) == Members(data[1..]);
    }
  }

  lemma {:induction false} LookupMissing(data: seq<Field>, key: string)
    requires forall i :: 0 <= i < |data| ==> data[i].key != key
    ensures Lookup(data, key) == None
  {
    if data != [] {
      LookupMissing(data[1..], key);
    }
  }

  lemma SortedKeys(a: seq<Field>, b: seq<Field>)
    requires UniqueKeys(a) && UniqueKeys(b)
    requires forall k :: k in Keys(a) <==> k in Keys(b)
    ensures Sort(Keys(a)) == Sort(Keys(b))
  {
    SortKeeps(Keys(a));
    SortKeeps(Keys(b));
    AscendingUnique(Sort(Keys(a)), Sort(Keys(b)));
  }

  // What is hashed does not depend on the order in which keys were added, at any depth.
  lemma HashIgnoresOrder(a: seq<Field>, b: seq<Field>)
    requires UniqueKeys(a) && UniqueKeys(b) && SamePayload(a, b)
    ensures HashText(a) == HashText(b)
  {
    SortedKeys(a, b);
    var v, w := Obj(Members(a)), Obj(Members(b));
    forall k ensures SameValue(Get(v.members, k), Get(w.members, k)) {
      GetIsLookup(a, k);
      GetIsLookup(b, k);
    }
    assert Same(v, w);
    SameIsSameOn(v, w, Sort(Keys(a)));
    SameOnIsProjected(v, w, Sort(Keys(a)));
    ListedIsProjected(v, Sort(Keys(a)));
    ListedIsProjected(w, Sort(Keys(a)));
  }

  // Two payloads that differ only in key order get the same key, for every event.
  lemma KeyIgnoresOrder(event: string, a: seq<Field>, b: seq<Field>, sha: string -> string)
    requires UniqueKeys(a) && UniqueKeys(b) && SamePayload(a, b)
    ensures IdempotencyKey(event, a, HashData(sha)) == IdempotencyKey(event, b, HashData(sha))
  {
    HashIgnoresOrder(a, b);
    JustIgnoresOrder(a, b, "qr");
    JustIgnoresOrder(a, b, "reason");
    KeyReads(event, a, b, HashData(sha));
  }

  lemma JustIgnoresOrder(a: seq<Field>, b: seq<Field>, k: string)
    requires SamePayload(a, b)
    ensures HashText(Just(a, k)) == HashText(Just(b, k))
  {
    var x, y := Just(a, k), Just(b, k);
    assert Keys(x) == [k] == Keys(y);
    HashIgnoresOrder(x, y);
  }

  lemma ShowsSame(a: seq<Field>, b: seq<Field>, k: string, fallback: string)
    requires SamePayload(a, b)
    ensures ToStr(Lookup(a, k), fallback) == ToStr(Lookup(b, k), fallback)
  {
    assert SameValue(Lookup(a, k), Lookup(b, k));
  }

  lemma KeyReads(event: string, a: seq<Field>, b: seq<Field>, hash: seq<Field> -> string)
    requires SamePayload(a, b) && hash(a) == hash(b)
    requires hash(Just(a, "qr")) == hash(Just(b, "qr")) && hash(Just(a, "reason")) == hash(Just(b, "reason"))
    ensures IdempotencyKey(event, a, hash) == IdempotencyKey(event, b, hash)
  {
    ShowsSame(a, b, "messageId", UNKNOWN);
    ShowsSame(a, b, "id", UNKNOWN);
    ShowsSame(a, b, "ack", "0");
    ShowsSame(a, b, "sessionId", UNKNOWN);
    ShowsSame(a, b, "status", UNKNOWN);
    ShowsSame(a, b, "groupId", UNKNOWN);
    ShowsSame(a, b, "participantId", UNKNOWN);
  }

  // ---------- what is hashed ----------

  function Canonical(data: seq<Field>): Json {
    Project(Obj(Members(data)), Sort(Keys(data)))
  }

  // Numbers as JavaScript has them.
  predicate Numbers(v: Json) {
    match v
    case Num(t) => Finite(t) ==> NumberText(t)
    case Arr(items) => forall i :: 0 <= i < |items| ==> Numbers(items[i])
    case Obj(members) => forall i :: 0 <= i < |members| ==> Numbers(members[i].value)
    case _ => true
  }

  lemma {:induction false} ProjectPrinted(v: Json, names: seq<string>)
    requires Numbers(v)
    ensures Printed(Project(v, names))
  {
    match v
    case Arr(items) =>
      forall i | 0 <= i < |items| ensures Printed(Project(items[i], names)) {
        ProjectPrinted(items[i], names);
      }
    case Obj(members) =>
      var k := Present(members, names);
      forall i | 0 <= i < |k| ensures Printed(Project(Part(v, k[i]), names)) {
        GetInside(members, k[i]);
        ProjectPrinted(Part(v, k[i]), names);
      }
    case _ =>
  }

  // Two payloads hash the same text exactly when their projections onto their own key names are equal.
  lemma HashTextUnique(a: seq<Field>, b: seq<Field>)
    requires Numbers(Obj(Members(a))) && Numbers(Obj(Members(b)))
    ensures HashText(a) == Text(Canonical(a))
    ensures HashText(a) == HashText(b) <==> Canonical(a) == Canonical(b)
  {
    ListedIsProjected(Obj(Members(a)), Sort(Keys(a)));
    ListedIsProjected(Obj(Members(b)), Sort(Keys(b)));
    ProjectPrinted(Obj(Members(a)), Sort(Keys(a)));
    ProjectPrinted(Obj(Members(b)), Sort(Keys(b)));
    if HashText(a) == HashText(b) {
      TextUnique(Canonical(a), Canonical(b), "", "");
    }
  }

  // For payloads with the same key names: exactly when they agree, at every depth, on members with
  // those names. All other nested members are invisible.
  lemma HashSeesTopNames(a: seq<Field>, b: seq<Field>)
    requires UniqueKeys(a) && UniqueKeys(b) && forall k :: k in Keys(a) <==> k in Keys(b)
    requires Numbers(Obj(Members(a))) && Numbers(Obj(Members(b)))
    ensures HashText(a) == HashText(b) <==> SameOn(Obj(Members(a)), Obj(Members(b)), Sort(Keys(a)))
  {
    SortedKeys(a, b);
    HashTextUnique(a, b);
    SameOnIsProjected(Obj(Members(a)), Obj(Members(b)), Sort(Keys(a)));
  }

  // So what a nested object says under other names than the payload's own does not reach the hash.
  lemma NestedInvisible(x: seq<Field>, y: seq<Field>, k: string, a: seq<Member>, b: seq<Member>)
    requires UniqueKeys(x) && UniqueKeys(y) && Keys(x) == Keys(y)
    requires Lookup(x, k) == Some(Obj(a)) && Lookup(y, k) == Some(Obj(b))
    requires forall j :: j != k ==> Lookup(x, j) == Lookup(y, j)
    requires forall n <- Keys(x) :: Get(a, n) == None && Get(b, n) == None
    ensures HashText(x) == HashText(y)
  {
    var names := Sort(Keys(x));
    SortKeeps(Keys(x));
    NothingSeen(a, b, names);
    forall n <- names ensures AgreeOn(Lookup(x, n), Lookup(y, n), names) {
      if n != k && Lookup(x, n).Some? { SameOnIsProjected(Lookup(x, n).value, Lookup(x, n).value, names); }
    }
    FieldsAgree(x, y, names);
    ListedIsProjected(Obj(Members(x)), names);
    ListedIsProjected(Obj(Members(y)), names);
  }

  predicate AgreeOn(a: Option<Json>, b: Option<Json>, names: seq<string>) {
    a.Some? == b.Some? && (a.Some? ==> SameOn(a.value, b.value, names))
  }

  lemma FieldsAgree(x: seq<Field>, y: seq<Field>, names: seq<string>)
    requires UniqueKeys(x) && UniqueKeys(y)
    requires forall n <- names :: AgreeOn(Lookup(x, n), Lookup(y, n), names)
    ensures Project(Obj(Members(x)), names) == Project(Obj(Members(y)), names)
  {
    var v, w := Obj(Members(x)), Obj(Members(y));
    forall n <- names ensures AgreeOn(Get(v.members, n), Get(w.members, n), names) {
      GetIsLookup(x, n);
      GetIsLookup(y, n);
    }
    assert SameOn(v, w, names);
    SameOnIsProjected(v, w, names);
  }

  lemma NothingSeen(a: seq<Member>, b: seq<Member>, names: seq<string>)
    requires forall n <- names :: Get(a, n) == None && Get(b, n) == None
    ensures SameOn(Obj(a), Obj(b), names)
  {
  }

  // ---------- message keys ----------

  // id is read only where messageId is the empty string; without messageId every message has the same key.
  lemma MessageKeys(a: seq<Field>, b: seq<Field>, hash: seq<Field> -> string)
    requires Lookup(a, "messageId") == Lookup(b, "messageId")
    ensures IdempotencyKey("message.received", a, hash) == IdempotencyKey("message.received", b, hash)
      <==> Show(a, "messageId") != "" || Show(a, "id") == Show(b, "id")
    ensures Lookup(a, "messageId") == None ==> IdempotencyKey("message.received", a, hash) == "msg_unknown"
  {
    var k, l := IdempotencyKey("message.received", a, hash), IdempotencyKey("message.received", b, hash);
    assert k == l <==> k[4..] == l[4..];
  }
}
