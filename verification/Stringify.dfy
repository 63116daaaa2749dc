/**
 JSON.stringify, section 25.5.2 of ECMA-262, for values without toJSON: with a list of property names,
 which selects and orders the members of every object in the value, and without one.
 */
module Stringify {
  import opened Json

  function Commas(parts: seq<string>): string {
    if |parts| == 0 then ""
    else if |parts| == 1 then parts[0]
    else parts[0] + "," + Commas(parts[1..])
  }

  function Hex(n: int): char
    requires 0 <= n < 16
  {
    "0123456789abcdef"[n]
  }

  // One character of a quoted string (section 25.5.2.3).
  function Escape(c: char): string {
    if c == '\"' then "\\\""
    else if c == '\\' then "\\\\"
    else if c == 8 as char then "\\b"
    else if c == '\t' then "\\t"
    else if c == '\n' then "\\n"
    else if c == 12 as char then "\\f"
    else if c == '\r' then "\\r"
    else if c < ' ' then "\\u00" + [Hex(c as int / 16), Hex(c as int % 16)]
    else [c]
  }

  function Escaped(s: string): string {
    if s == "" then "\"" else Escape(s[0]) + Escaped(s[1..])
  }

  function Quote(s: string): string {
    "\"" + Escaped(s)
  }

  predicate Finite(number: string) {
    number !in ["NaN", "Infinity", "-Infinity"]
  }

  // Without a list: every member, in the order of the object.
  function Text(v: Json): string {
    match v
    case Null => "null"
    case Bool(b) => if b then "true" else "false"
    case Num(t) => if Finite(t) then t else "null"
    case Str(s) => Quote(s)
    case Arr(items) => "[" + Commas(seq(|items|, i requires 0 <= i < |items| => Text(items[i]))) + "]"
    case Obj(members) =>
      var parts := seq(|members|, i requires 0 <= i < |members| =>
        Quote(members[i].key) + ":" + Text(members[i].value));
      "{" + Commas(parts) + "}"
  }

  // The names an object has members for.
  function Present(members: seq<Member>, names: seq<string>): (r: seq<string>)
    ensures forall k <- r :: k in names && Get(members, k).Some?
  {
    if names == [] then []
    else (if Get(members, names[0]).Some? then [names[0]] else []) + Present(members, names[1..])
  }

  function Part(v: Json, key: string): (r: Json)
    requires v.Obj? && Get(v.members, key).Some?
    ensures r < v
  {
    GetInside(v.members, key);
    Get(v.members, key).value
  }

  lemma {:induction false} GetInside(members: seq<Member>, key: string)
    ensures Get(members, key).Some? ==>
      exists i :: 0 <= i < |members| && members[i] == Member(key, Get(members, key).value)
  {
    if members != [] && members[0].key != key {
      GetInside(members[1..], key);
    }
  }

  // With a list of names.
  function Listed(v: Json, names: seq<string>): string {
    match v
    case Null => "null"
    case Bool(b) => if b then "true" else "false"
    case Num(t) => if Finite(t) then t else "null"
    case Str(s) => Quote(s)
    case Arr(items) => "[" + Commas(seq(|items|, i requires 0 <= i < |items| => Listed(items[i], names))) + "]"
    case Obj(members) =>
      var k := Present(members, names);
      "{" + Commas(seq(|k|, i requires 0 <= i < |k| => Quote(k[i]) + ":" + Listed(Part(v, k[i]), names))) + "}"
  }

  // The value cut down, at every depth, to the members that names lists, in that order.
  function Project(v: Json, names: seq<string>): Json {
    match v
    case Num(t) => if Finite(t) then v else Null
    case Arr(items) => Arr(seq(|items|, i requires 0 <= i < |items| => Project(items[i], names)))
    case Obj(members) =>
      var k := Present(members, names);
      Obj(seq(|k|, i requires 0 <= i < |k| => Member(k[i], Project(Part(v, k[i]), names))))
    case _ => v
  }

  // Serialising with a list is serialising the projection without one.
  lemma {:induction false} ListedIsProjected(v: Json, names: seq<string>)
    ensures Listed(v, names) == Text(Project(v, names))
  {
    var p := Project(v, names);
    match v
    case Arr(items) =>
      forall i | 0 <= i < |items| ensures Listed(items[i], names) == Text(p.items[i]) {
        ListedIsProjected(items[i], names);
      }
      assert seq(|items|, i requires 0 <= i < |items| => Listed(items[i], names))
          == seq(|p.items|, i requires 0 <= i < |p.items| => Text(p.items[i]));
    case Obj(members) =>
      var k := Present(members, names);
      forall i | 0 <= i < |k| ensures Listed(Part(v, k[i]), names) == Text(p.members[i].value) {
        ListedIsProjected(Part(v, k[i]), names);
      }
      assert seq(|k|, i requires 0 <= i < |k| => Quote(k[i]) + ":" + Listed(Part(v, k[i]), names))
          == seq(|p.members|, i requires 0 <= i < |p.members| =>
               Quote(p.members[i].key) + ":" + Text(p.members[i].value));
    case _ =>
  }

  // Two values differ at most in members outside names and in the order of the others, at every depth.
  predicate SameOn(v: Json, w: Json, names: seq<string>) {
    match (v, w)
    case (Arr(a), Arr(b)) => |a| == |b| && forall i :: 0 <= i < |a| ==> SameOn(a[i], b[i], names)
    case (Obj(a), Obj(b)) =>
      && (forall k <- names :: Get(a, k).Some? == Get(b, k).Some?)
      && forall k <- names :: Get(a, k).Some? && Get(b, k).Some? ==> SameOn(Part(v, k), Part(w, k), names)
    case _ => Project(v, names) == Project(w, names)
  }

  lemma {:induction false} PresentAgree(a: seq<Member>, b: seq<Member>, names: seq<string>)
    ensures Present(a, names) == Present(b, names) <==> forall k <- names :: Get(a, k).Some? == Get(b, k).Some?
  {
    if names != [] {
      PresentAgree(a, b, names[1..]);
      if Present(a, names) == Present(b, names) {
        PresentHolds(a, names);
        PresentHolds(b, names);
        assert forall k <- names :: Get(a, k).Some? <==> k in Present(a, names);
      } else {
        var k := names[0];
        assert Get(a, k).Some? == Get(b, k).Some? ==> Present(a, names[1..]) != Present(b, names[1..]);
        assert forall j <- names[1..] :: j in names;
      }
    }
  }

  lemma {:induction false} PresentHolds(members: seq<Member>, names: seq<string>)
    ensures forall k <- names :: Get(members, k).Some? ==> k in Present(members, names)
  {
    if names != [] {
      PresentHolds(members, names[1..]);
    }
  }

  lemma {:induction false} SameOnIsProjected(v: Json, w: Json, names: seq<string>)
    ensures SameOn(v, w, names) <==> Project(v, names) == Project(w, names)
  {
    match (v, w)
    case (Arr(a), Arr(b)) =>
      forall i | 0 <= i < |a| && i < |b|
        ensures SameOn(a[i], b[i], names) <==> Project(a[i], names) == Project(b[i], names)
      {
        SameOnIsProjected(a[i], b[i], names);
      }
      SameItems(a, b, names);
    case (Obj(a), Obj(b)) =>
      PresentAgree(a, b, names);
      PresentHolds(a, names);
      forall k <- names | Get(a, k).Some? && Get(b, k).Some?
        ensures SameOn(Part(v, k), Part(w, k), names) <==> Project(Part(v, k), names) == Project(Part(w, k), names)
      {
        SameOnIsProjected(Part(v, k), Part(w, k), names);
      }
      SameMembers(v, w, names);
    case _ =>
  }

  lemma SameItems(a: seq<Json>, b: seq<Json>, names: seq<string>)
    ensures Project(Arr(a), names) == Project(Arr(b), names)
      <==> |a| == |b| && forall i :: 0 <= i < |a| ==> Project(a[i], names) == Project(b[i], names)
  {
    var p, q := Project(Arr(a), names).items, Project(Arr(b), names).items;
    assert |p| == |a| && |q| == |b|;
    assert forall i :: 0 <= i < |a| ==> p[i] == Project(a[i], names);
    assert forall i :: 0 <= i < |b| ==> q[i] == Project(b[i], names);
    assert p == q <==> |p| == |q| && forall i :: 0 <= i < |p| ==> p[i] == q[i];
  }

  lemma SameMembers(v: Json, w: Json, names: seq<string>)
    requires v.Obj? && w.Obj?
    ensures Project(v, names) == Project(w, names)
      <==> && Present(v.members, names) == Present(w.members, names)
           && forall k <- Present(v.members, names) :: Project(Part(v, k), names) == Project(Part(w, k), names)
  {
    var j, k := Present(v.members, names), Present(w.members, names);
    var p, q := Project(v, names).members, Project(w, names).members;
    assert |p| == |j| && |q| == |k|;
    assert forall i :: 0 <= i < |j| ==> p[i] == Member(j[i], Project(Part(v, j[i]), names));
    assert forall i :: 0 <= i < |k| ==> q[i] == Member(k[i], Project(Part(w, k[i]), names));
    if p == q {
      assert j == k;
      forall x <- j ensures Project(Part(v, x), names) == Project(Part(w, x), names) {
        var i :| 0 <= i < |j| && j[i] == x;
        assert p[i] == q[i];
      }
    }
  }
}
