/** When two events share an idempotency key. */
module IdempotencyKeys {
  import opened Json
  import opened Stringify
  import opened Idempotency

  // ---------- joining with underscores ----------

  // The pair (u, v) is (x, y) with a piece that ends in an underscore moved from y to x.
  ghost predicate Shifted(x: string, y: string, u: string, v: string) {
    exists z :: u == x + "_" + z && y == z + "_" + v
  }

  ghost predicate SameJoined(x: string, y: string, u: string, v: string) {
    (x == u && y == v) || Shifted(x, y, u, v) || Shifted(u, v, x, y)
  }

  lemma JoinedShift(x: string, y: string, u: string, v: string)
    requires x + "_" + y == u + "_" + v && |x| < |u|
    ensures Shifted(x, y, u, v)
  {
    var s, z := x + "_" + y, u[|x| + 1..];
    assert s[|x|] == '_' && s[..|u|] == u && s[|u| + 1..] == v && s[|u|] == '_';
    assert u[|x|] == s[|x|] && u[..|x|] == s[..|x|] == x;
    assert y == s[|x| + 1..] == z + "_" + v;
    assert u == x + "_" + z;
  }

  lemma JoinedSame(x: string, y: string, u: string, v: string)
    ensures x + "_" + y == u + "_" + v <==> SameJoined(x, y, u, v)
  {
    if x + "_" + y == u + "_" + v {
      if |x| < |u| {
        JoinedShift(x, y, u, v);
      } else if |u| < |x| {
        JoinedShift(u, v, x, y);
      } else {
        assert x == (x + "_" + y)[..|x|] == u;
        assert y == (x + "_" + y)[|x| + 1..] == v;
      }
    }
    if Shifted(x, y, u, v) {
      var z :| u == x + "_" + z && y == z + "_" + v;
      assert x + "_" + (z + "_" + v) == x + "_" + z + "_" + v;
    }
    if Shifted(u, v, x, y) {
      var z :| x == u + "_" + z && v == z + "_" + y;
      assert u + "_" + (z + "_" + y) == u + "_" + z + "_" + y;
    }
  }

  lemma ShiftedHasOne(x: string, y: string, u: string, v: string)
    requires Shifted(x, y, u, v)
    ensures '_' in y
  {
    var z :| u == x + "_" + z && y == z + "_" + v;
    assert y[|z|] == '_';
  }

  // Without underscores in the second part, as in digests and numbers, both parts are told by the joined text.
  lemma SecondPlain(x: string, y: string, u: string, v: string)
    requires '_' !in y && '_' !in v
    ensures SameJoined(x, y, u, v) <==> x == u && y == v
  {
    if Shifted(x, y, u, v) { ShiftedHasOne(x, y, u, v); }
    if Shifted(u, v, x, y) { ShiftedHasOne(u, v, x, y); }
  }

  // ---------- what a key is made of ----------

  // The first part of the key.
  function Kind(event: string): string {
    if event == "message.received" || event == "message.sent" then "msg"
    else if event == "message.ack" then "ack"
    else if event == "message.revoked" then "rev"
    else if event == "session.status" then "sess"
    else if event == "session.qr" then "qr"
    else if event == "session.authenticated" then "auth"
    else if event == "session.disconnected" then "disc"
    else if event == "group.join" || event == "group.leave" || event == "group.update" then "grp"
    else "evt"
  }

  function Digest(sha: string -> string, data: seq<Field>): string {
    var digest := sha(HashText(data));
    if |digest| > 12 then digest[..12] else digest
  }

  // The two parts by which events of a kind are told apart, and what stands behind them.
  datatype Parts = Parts(first: string, second: string, suffix: string)

  function PartsOf(event: string, data: seq<Field>, sha: string -> string): Option<Parts> {
    if event == "message.received" || event == "message.sent" then None
    else if event == "message.ack" then Some(Parts(Shown(data, "messageId", "unknown"), Shown(data, "ack", "0"), ""))
    else if event == "message.revoked" then None
    else if event == "session.status" then Some(Parts(Session(data), Shown(data, "status", "unknown"), ""))
    else if event == "session.qr" then Some(Parts(Session(data), Digest(sha, [Field("qr", Lookup(data, "qr"))]), ""))
    else if event == "session.authenticated" then Some(Parts(Session(data), Digest(sha, data), ""))
    else if event == "session.disconnected" then
      Some(Parts(Session(data), Digest(sha, [Field("reason", Lookup(data, "reason"))]), ""))
    else if event == "group.join" then Some(Parts(Group(data), Shown(data, "participantId", "unknown"), "_join"))
    else if event == "group.leave" then Some(Parts(Group(data), Shown(data, "participantId", "unknown"), "_leave"))
    else if event == "group.update" then Some(Parts(Group(data) + "_update", Digest(sha, data), ""))
    else None
  }

  function Session(data: seq<Field>): string {
    Shown(data, "sessionId", "unknown")
  }

  function Group(data: seq<Field>): string {
    Shown(data, "groupId", "unknown")
  }

  // A text or a number, true or false, as it prints; for anything else, and for nothing, another text.
  function Shown(data: seq<Field>, key: string, otherwise: string): string {
    var value := Lookup(data, key);
    if value.None? then otherwise
    else match value.value
      case Str(s) => s
      case Num(text) => text
      case Bool(b) => Text(Bool(b))
      case _ => otherwise
  }

  function Assembled(kind: string, p: Parts): string {
    kind + "_" + (p.first + "_" + p.second) + p.suffix
  }

  lemma Assembling(kind: string, prefix: string, x: string, y: string, s: string)
    requires prefix == kind + "_"
    ensures Assembled(kind, Parts(x, y, s)) == prefix + x + "_" + y + s
    ensures Assembled(kind, Parts(x, y, "")) == prefix + x + "_" + y
  {
  }

  lemma AssemblingUpdate(g: string, y: string)
    ensures Assembled("grp", Parts(g + "_update", y, "")) == "grp_" + g + "_update_" + y
  {
    assert "_update" + "_" == "_update_";
    assert "grp" + "_" == "grp_";
  }

  lemma ShownIs(data: seq<Field>, key: string, otherwise: string)
    ensures Shown(data, key, otherwise) == ToStr(Lookup(data, key), otherwise)
  {
  }

  lemma DigestIs(sha: string -> string, data: seq<Field>)
    ensures Digest(sha, data) == HashData(sha)(data)
  {
  }

  lemma KeyForm(event: string, data: seq<Field>, sha: string -> string)
    requires PartsOf(event, data, sha).Some?
    ensures IdempotencyKey(event, data, HashData(sha)) == Assembled(Kind(event), PartsOf(event, data, sha).value)
  {
    var p := PartsOf(event, data, sha).value;
    DigestIs(sha, data);
    ShownIs(data, "sessionId", "unknown");
    ShownIs(data, "groupId", "unknown");
    if event == "message.received" || event == "message.sent" {
    } else if event == "message.ack" {
      ShownIs(data, "messageId", "unknown");
      ShownIs(data, "ack", "0");
      Assembling("ack", "ack_", p.first, p.second, "");
    } else if event == "message.revoked" {
    } else {
      OtherForm(event, data, sha);
    }
  }

  lemma OtherForm(event: string, data: seq<Field>, sha: string -> string)
    requires PartsOf(event, data, sha).Some?
    requires event != "message.received" && event != "message.sent" && event != "message.ack"
    ensures IdempotencyKey(event, data, HashData(sha)) == Assembled(Kind(event), PartsOf(event, data, sha).value)
  {
    var p := PartsOf(event, data, sha).value;
    DigestIs(sha, data);
    ShownIs(data, "sessionId", "unknown");
    if event == "session.status" {
      ShownIs(data, "status", "unknown");
      Assembling("sess", "sess_", p.first, p.second, "");
    } else if event == "session.qr" {
      Assembling("qr", "qr_", p.first, p.second, "");
    } else if event == "session.authenticated" {
      Assembling("auth", "auth_", p.first, p.second, "");
    } else if event == "session.disconnected" {
      Assembling("disc", "disc_", p.first, p.second, "");
    } else if event != "message.revoked" {
      GroupForm(event, data, sha);
    }
  }

  lemma GroupForm(event: string, data: seq<Field>, sha: string -> string)
    requires PartsOf(event, data, sha).Some?
    requires event != "message.received" && event != "message.sent" && event != "message.ack"
    requires event != "session.status" && event != "session.qr" && event != "session.authenticated"
    requires event != "session.disconnected"
    ensures IdempotencyKey(event, data, HashData(sha)) == Assembled(Kind(event), PartsOf(event, data, sha).value)
  {
    var p := PartsOf(event, data, sha).value;
    DigestIs(sha, data);
    ShownIs(data, "groupId", "unknown");
    ShownIs(data, "participantId", "unknown");
    if event == "group.update" {
      AssemblingUpdate(Group(data), p.second);
    } else {
      Assembling("grp", "grp_", p.first, p.second, p.suffix);
    }
  }

  lemma Framed(a: string, s: string, t: string, b: string)
    ensures a + s + b == a + t + b <==> s == t
  {
    if a + s + b == a + t + b {
      assert |s| == |t|;
      assert s == (a + s + b)[|a|..|a| + |s|] == (a + t + b)[|a|..|a| + |t|] == t;
    }
  }

  lemma SameSuffix(event: string, a: seq<Field>, b: seq<Field>, sha: string -> string)
    requires PartsOf(event, a, sha).Some?
    ensures PartsOf(event, b, sha).Some? && PartsOf(event, a, sha).value.suffix == PartsOf(event, b, sha).value.suffix
  {
  }

  // Two events of one of these kinds share their key exactly if their two parts agree, or differ by where an
  // underscore splits them; and where the second parts hold no underscore, exactly if both agree.
  lemma TwoPartKeys(event: string, a: seq<Field>, b: seq<Field>, sha: string -> string)
    requires PartsOf(event, a, sha).Some? && PartsOf(event, b, sha).Some?
    ensures var p, q := PartsOf(event, a, sha).value, PartsOf(event, b, sha).value;
      var same := IdempotencyKey(event, a, HashData(sha)) == IdempotencyKey(event, b, HashData(sha));
      && (same <==> SameJoined(p.first, p.second, q.first, q.second))
      && ('_' !in p.second && '_' !in q.second ==> (same <==> p.first == q.first && p.second == q.second))
  {
    var p, q := PartsOf(event, a, sha).value, PartsOf(event, b, sha).value;
    KeyForm(event, a, sha);
    KeyForm(event, b, sha);
    SameSuffix(event, a, b, sha);
    Framed(Kind(event) + "_", p.first + "_" + p.second, q.first + "_" + q.second, p.suffix);
    JoinedSame(p.first, p.second, q.first, q.second);
    if '_' !in p.second && '_' !in q.second { SecondPlain(p.first, p.second, q.first, q.second); }
  }

  // So the joins of two participants to two groups can share a key.
  lemma JoinsCollide(x: string, y: string, z: string, sha: string -> string)
    ensures IdempotencyKey("group.join", Joins(x + "_" + y, z), HashData(sha))
      == IdempotencyKey("group.join", Joins(x, y + "_" + z), HashData(sha))
  {
    JoinKey(x + "_" + y, z, sha);
    JoinKey(x, y + "_" + z, sha);
    assert x + "_" + y + "_" + z == x + "_" + (y + "_" + z);
  }

  function Joins(group: string, participant: string): seq<Field> {
    [Field("groupId", Some(Str(group))), Field("participantId", Some(Str(participant)))]
  }

  lemma JoinKey(group: string, participant: string, sha: string -> string)
    ensures IdempotencyKey("group.join", Joins(group, participant), HashData(sha))
      == "grp_" + (group + "_" + participant) + "_join"
  {
    TwoFields("groupId", Str(group), "participantId", Str(participant));
    var p := PartsOf("group.join", Joins(group, participant), sha).value;
    assert p == Parts(group, participant, "_join");
    KeyForm("group.join", Joins(group, participant), sha);
    Assembling("grp", "grp_", group, participant, "_join");
  }

  lemma TwoFields(k: string, v: Json, l: string, w: Json)
    requires k != l
    ensures var data := [Field(k, Some(v)), Field(l, Some(w))]; Lookup(data, k) == Some(v) && Lookup(data, l) == Some(w)
  {
    var data := [Field(k, Some(v)), Field(l, Some(w))];
    assert data[1..][0].key == l;
  }

  // Revocations share a key exactly if they show the same message id.
  lemma RevocationKeys(a: seq<Field>, b: seq<Field>, hash: seq<Field> -> string)
    ensures IdempotencyKey("message.revoked", a, hash) == IdempotencyKey("message.revoked", b, hash)
      <==> Shown(a, "messageId", "unknown") == Shown(b, "messageId", "unknown")
  {
    Framed("rev_", Shown(a, "messageId", "unknown"), Shown(b, "messageId", "unknown"), "");
  }

  // What a message is told by: its message id, or if that is the empty text, its id.
  function MessageName(data: seq<Field>): string {
    var id := Shown(data, "messageId", "unknown");
    if |id| > 0 then id else Shown(data, "id", "unknown")
  }

  // Messages share a key exactly if that agrees.
  lemma MessageKeysExactly(a: seq<Field>, b: seq<Field>, hash: seq<Field> -> string)
    ensures IdempotencyKey("message.received", a, hash) == IdempotencyKey("message.received", b, hash)
      <==> MessageName(a) == MessageName(b)
  {
    ShownIs(a, "messageId", "unknown");
    ShownIs(b, "messageId", "unknown");
    ShownIs(a, "id", "unknown");
    ShownIs(b, "id", "unknown");
    Framed("msg_", MessageName(a), MessageName(b), "");
  }

  // A message that is received and one that is sent share a key exactly as two received messages do.
  lemma SentLikeReceived(data: seq<Field>, hash: seq<Field> -> string)
    ensures IdempotencyKey("message.sent", data, hash) == IdempotencyKey("message.received", data, hash)
  {
  }

  // ---------- events of different kinds ----------

  lemma KindPlain(event: string)
    ensures '_' !in Kind(event)
  {
  }

  lemma KeyBegins(event: string, data: seq<Field>, hash: seq<Field> -> string)
    ensures Kind(event) + "_" <= IdempotencyKey(event, data, hash)
  {
    if event == "message.received" || event == "message.sent" {
      assert "msg" + "_" == "msg_";
    } else if event == "message.ack" {
      assert "ack" + "_" == "ack_";
    } else if event == "message.revoked" {
      assert "rev" + "_" == "rev_";
    } else if event == "session.status" {
      assert "sess" + "_" == "sess_";
    } else if event == "session.qr" {
      assert "qr" + "_" == "qr_";
    }
  }

  lemma KindUnique(k: string, l: string, key: string)
    requires '_' !in k && '_' !in l && k + "_" <= key && l + "_" <= key
    ensures k == l
  {
    assert key[|k|] == '_' && key[|l|] == '_' && k == key[..|k|] && l == key[..|l|];
    assert forall i :: 0 <= i < |k| ==> key[i] == k[i] && k[i] != '_';
    assert forall i :: 0 <= i < |l| ==> key[i] == l[i] && l[i] != '_';
  }

  // Events of different kinds never share a key, whatever their data.
  lemma KindsApart(e: string, f: string, a: seq<Field>, b: seq<Field>, hash: seq<Field> -> string)
    requires Kind(e) != Kind(f)
    ensures IdempotencyKey(e, a, hash) != IdempotencyKey(f, b, hash)
  {
    KeyBegins(e, a, hash);
    KeyBegins(f, b, hash);
    KindPlain(e);
    KindPlain(f);
    if IdempotencyKey(e, a, hash) == IdempotencyKey(f, b, hash) {
      KindUnique(Kind(e), Kind(f), IdempotencyKey(e, a, hash));
    }
  }

  // Nor do joins and leaves of groups.
  lemma JoinIsNotLeave(a: seq<Field>, b: seq<Field>, hash: seq<Field> -> string)
    ensures IdempotencyKey("group.join", a, hash) != IdempotencyKey("group.leave", b, hash)
  {
    var j, l := IdempotencyKey("group.join", a, hash), IdempotencyKey("group.leave", b, hash);
    assert j[|j| - 1] == 'n' && l[|l| - 1] == 'e';
  }

  // The names differ at most in dots that stand where underscores do.
  predicate AlikeNames(e: string, f: string) {
    |e| == |f| && forall i :: 0 <= i < |e| ==> e[i] == f[i] || (e[i] in "._" && f[i] in "._")
  }

  lemma FallbackForm(event: string, data: seq<Field>, sha: string -> string)
    requires Kind(event) == "evt"
    ensures IdempotencyKey(event, data, HashData(sha)) == "evt_" + (Underscored(event) + "_" + Digest(sha, data)) + ""
  {
    DigestIs(sha, data);
  }

  // Other events have their name and a digest of all their data: they share a key exactly if their names are alike,
  // up to dots and underscores, and their digests agree.
  lemma OtherKeys(e: string, f: string, a: seq<Field>, b: seq<Field>, sha: string -> string)
    requires Kind(e) == Kind(f) == "evt" && forall text :: |sha(text)| >= 12
    ensures IdempotencyKey(e, a, HashData(sha)) == IdempotencyKey(f, b, HashData(sha))
      <==> AlikeNames(e, f) && Digest(sha, a) == Digest(sha, b)
  {
    var x, y, u, v := Underscored(e), Digest(sha, a), Underscored(f), Digest(sha, b);
    FallbackForm(e, a, sha);
    FallbackForm(f, b, sha);
    Framed("evt_", x + "_" + y, u + "_" + v, "");
    if x + "_" + y == u + "_" + v {
      assert |x| == |u|;
      assert x == (x + "_" + y)[..|x|] == u && y == (x + "_" + y)[|x| + 1..] == v;
    }
    UnderscoredAlike(e, f);
  }

  lemma UnderscoredAlike(e: string, f: string)
    ensures Underscored(e) == Underscored(f) <==> AlikeNames(e, f)
  {
    var x, u := Underscored(e), Underscored(f);
    if x == u {
      forall i | 0 <= i < |e| ensures e[i] == f[i] || (e[i] in "._" && f[i] in "._") {
        assert x[i] == u[i];
      }
    }
    if AlikeNames(e, f) {
      forall i | 0 <= i < |e| ensures x[i] == u[i] {}
    }
  }
}
