/** JSON text determines the value it was made from. */
module UniqueText {
  import opened Json
  import opened Stringify
  import opened Strings

  // What can follow a value inside a JSON text.
  predicate Ends(r: string) {
    r == "" || r[0] in ",]}"
  }

  predicate NumberText(t: string) {
    t != "" && t[0] in "-0123456789" && forall k :: 0 <= k < |t| ==> t[k] in "-+.eE0123456789"
  }

  // Every number in the value is finite, and written the way JavaScript prints numbers.
  predicate Printed(v: Json) {
    match v
    case Num(t) => Finite(t) && NumberText(t)
    case Arr(items) => forall i :: 0 <= i < |items| ==> Printed(items[i])
    case Obj(members) => forall i :: 0 <= i < |members| ==> Printed(members[i].value)
    case _ => true
  }

  lemma Bracketed(a: string, b: string, c: string, d: string)
    ensures ((a + b) + c) + d == a + (b + (c + d))
  {
    Assoc(a + b, c, d);
    Assoc(a, b, c + d);
  }

  lemma Rest(p: string, u: string, v: string)
    requires p + u == p + v
    ensures u == v
  {
    assert u == (p + u)[|p|..];
  }

  // What one character or escape sequence of a quoted string stands for (section 25.5.1 of ECMA-262).
  predicate StandsFor(text: string, c: char) {
    if |text| == 1 then text[0] == c && c !in "\"\\" && c >= ' '
    else if |text| == 2 then
      && text[0] == '\\'
      && match text[1]
         case '\"' => c == '\"'
         case '\\' => c == '\\'
         case 'b' => c as int == 8
         case 't' => c as int == 9
         case 'n' => c as int == 10
         case 'f' => c as int == 12
         case 'r' => c as int == 13
         case _ => false
    else
      && |text| == 6 && text[..4] == "\\u00" && text[4] in "01" && text[5] in "0123456789abcdef"
      && c as int == HexDigit(text[4]) * 16 + HexDigit(text[5])
  }

  function HexDigit(c: char): int {
    if '0' <= c <= '9' then c as int - '0' as int else c as int - 'a' as int + 10
  }

  // What is written for a character stands for it, and for no other; and it is written short where it can be.
  lemma EscapeStandsFor(c: char, d: char)
    ensures StandsFor(Escape(c), d) <==> c == d
    ensures |Escape(c)| == if c as int in [8, 9, 10, 12, 13, 34, 92] then 2 else if c < ' ' then 6 else 1
  {
    if c < ' ' && c != 8 as char && c != '\t' && c != '\n' && c != 12 as char && c != '\r' {
      ControlStandsFor(c, d);
    }
  }

  lemma ControlStandsFor(c: char, d: char)
    requires c < ' '
    ensures StandsFor("\\u00" + [Hex(c as int / 16), Hex(c as int % 16)], d) <==> c == d
  {
    var text := "\\u00" + [Hex(c as int / 16), Hex(c as int % 16)];
    assert text[..4] == "\\u00" && text[4] == Hex(c as int / 16) && text[5] == Hex(c as int % 16);
    HexOf(c as int / 16);
    HexOf(c as int % 16);
    LowHex(c as int / 16);
  }

  // Numbers that are not finite print as null.
  lemma NotFinite(number: string)
    ensures number in ["NaN", "Infinity", "-Infinity"] ==> Text(Num(number)) == "null"
    ensures number !in ["NaN", "Infinity", "-Infinity"] ==> Text(Num(number)) == number
  {
  }

  lemma HexOf(n: int)
    requires 0 <= n < 16
    ensures Hex(n) in "0123456789abcdef" && HexDigit(Hex(n)) == n
  {
  }

  lemma LowHex(n: int)
    requires 0 <= n < 2
    ensures Hex(n) in "01"
  {
  }

  lemma EscapeUnique(c: char, d: char, x: string, y: string)
    requires Escape(c) + x == Escape(d) + y
    ensures c == d && x == y
  {
    var s := Escape(c) + x;
    assert s[0] == Escape(c)[0] == Escape(d)[0];
    if s[0] == '\\' {
      assert s[1] == Escape(c)[1] == Escape(d)[1];
      if s[1] == 'u' {
        assert s[4] == Escape(c)[4] == Escape(d)[4];
        assert s[5] == Escape(c)[5] == Escape(d)[5];
        HexUnique(c as int / 16, d as int / 16);
        HexUnique(c as int % 16, d as int % 16);
      }
    }
    assert c == d;
    assert x == s[|Escape(c)|..] == y;
  }

  lemma HexUnique(m: int, n: int)
    requires 0 <= m < 16 && 0 <= n < 16 && Hex(m) == Hex(n)
    ensures m == n
  {
  }

  lemma {:induction false} EscapedUnique(s: string, t: string, x: string, y: string)
    requires Escaped(s) + x == Escaped(t) + y
    ensures s == t && x == y
  {
    EscapedHead(s, x);
    EscapedHead(t, y);
    if s != "" && t != "" {
      var u, v := Escaped(s[1..]) + x, Escaped(t[1..]) + y;
      Assoc(Escape(s[0]), Escaped(s[1..]), x);
      Assoc(Escape(t[0]), Escaped(t[1..]), y);
      EscapeUnique(s[0], t[0], u, v);
      EscapedUnique(s[1..], t[1..], x, y);
      assert s == [s[0]] + s[1..] && t == [t[0]] + t[1..];
    } else {
      Rest("\"", x, y);
    }
  }

  // Only the closing quote stands for itself.
  lemma EscapedHead(s: string, x: string)
    ensures (Escaped(s) + x)[0] == '\"' <==> s == ""
  {
    if s != "" {
      assert Escape(s[0])[0] != '\"';
      assert (Escaped(s) + x)[0] == Escape(s[0])[0];
    }
  }

  lemma QuoteUnique(s: string, t: string, x: string, y: string)
    requires Quote(s) + x == Quote(t) + y
    ensures s == t && x == y
  {
    Assoc("\"", Escaped(s), x);
    Assoc("\"", Escaped(t), y);
    Rest("\"", Escaped(s) + x, Escaped(t) + y);
    EscapedUnique(s, t, x, y);
  }

  lemma NumberUnique(s: string, t: string, x: string, y: string)
    requires NumberText(s) && NumberText(t) && Ends(x) && Ends(y) && s + x == t + y
    ensures s == t && x == y
  {
    if |s| < |t| {
      LongerHead(s, t, x, y);
    } else if |t| < |s| {
      LongerHead(t, s, y, x);
    } else {
      assert s == (s + x)[..|s|] && t == (t + y)[..|s|];
      Rest(s, x, y);
    }
  }

  lemma LongerHead(s: string, t: string, x: string, y: string)
    requires |s| < |t| && s + x == t + y
    ensures x != "" && x[0] == t[|s|]
  {
    assert (s + x)[|s|] == (t + y)[|s|];
  }

  // Texts that cannot be continued in two ways, and do not begin like the end of a list.
  ghost predicate Readable(p: string, q: string) {
    && !Ends(p) && !Ends(q)
    && forall x, y :: Ends(x) && Ends(y) && p + x == q + y ==> p == q
  }

  lemma {:induction false} CommasUnique(a: seq<string>, b: seq<string>, x: string, y: string)
    requires forall i :: 0 <= i < |a| ==> !Ends(a[i])
    requires forall i :: 0 <= i < |b| ==> !Ends(b[i])
    requires forall i :: 0 <= i < |a| && i < |b| ==> Readable(a[i], b[i])
    requires Ends(x) && Ends(y) && x != "" && y != "" && x[0] != ',' && y[0] != ','
    requires Commas(a) + x == Commas(b) + y
    ensures a == b && x == y
  {
    CommasHead(a, x);
    CommasHead(b, y);
    if a != [] && b != [] {
      var u, v := After(a, x), After(b, y);
      CommasStep(a, x);
      CommasStep(b, y);
      assert Readable(a[0], b[0]) && Ends(u) && Ends(v);
      assert a[0] == b[0];
      Rest(a[0], u, v);
      AfterHead(a, x);
      AfterHead(b, y);
      if |a| > 1 {
        Rest(",", Commas(a[1..]) + x, Commas(b[1..]) + y);
        CommasUnique(a[1..], b[1..], x, y);
      }
      SameLists(a, b);
    } else {
      assert Commas([]) + x == x && Commas([]) + y == y;
    }
  }

  lemma SameLists(a: seq<string>, b: seq<string>)
    requires a != [] && b != [] && a[0] == b[0] && a[1..] == b[1..]
    ensures a == b
  {
    assert a == [a[0]] + a[1..] && b == [b[0]] + b[1..];
  }

  // What follows the first part says whether there are more.
  lemma AfterHead(a: seq<string>, x: string)
    requires a != [] && x != "" && x[0] != ','
    ensures After(a, x) != "" && (After(a, x)[0] == ',' <==> |a| > 1)
    ensures |a| > 1 ==> After(a, x) == "," + (Commas(a[1..]) + x)
  {
    if |a| > 1 { Assoc(",", Commas(a[1..]), x); }
  }

  function After(a: seq<string>, x: string): string
    requires |a| > 0
  {
    if |a| == 1 then x else ("," + Commas(a[1..])) + x
  }

  lemma CommasStep(a: seq<string>, x: string)
    requires |a| > 0
    ensures Commas(a) + x == a[0] + After(a, x)
  {
    if |a| > 1 {
      Assoc(a[0], ",", Commas(a[1..]));
      Assoc(a[0], "," + Commas(a[1..]), x);
    }
  }

  lemma CommasHead(a: seq<string>, x: string)
    requires a != [] ==> !Ends(a[0])
    requires Ends(x)
    ensures Ends(Commas(a) + x) <==> a == []
  {
    if a != [] {
      assert (Commas(a) + x)[0] == a[0][0];
    } else {
      assert Commas(a) + x == x;
    }
  }

  function ItemTexts(v: Json): seq<string>
    requires v.Arr?
  {
    seq(|v.items|, i requires 0 <= i < |v.items| => Text(v.items[i]))
  }

  function MemberTexts(v: Json): seq<string>
    requires v.Obj?
  {
    seq(|v.members|, i requires 0 <= i < |v.members| => Quote(v.members[i].key) + ":" + Text(v.members[i].value))
  }

  // The first character tells what kind of value it is.
  lemma SameKind(v: Json, w: Json, x: string, y: string)
    requires Printed(v) && Printed(w) && Text(v) + x == Text(w) + y
    ensures v.Null? == w.Null? && v.Bool? == w.Bool? && v.Num? == w.Num? && v.Str? == w.Str? && v.Arr? == w.Arr?
    ensures v.Bool? ==> v == w
  {
    assert (Text(v) + x)[0] == Text(v)[0] == Text(w)[0];
  }

  lemma {:induction false} TextUnique(v: Json, w: Json, x: string, y: string)
    requires Printed(v) && Printed(w) && Ends(x) && Ends(y)
    requires Text(v) + x == Text(w) + y
    ensures v == w && x == y
    decreases v, 1
  {
    SameKind(v, w, x, y);
    match v
    case Null => Rest(Text(v), x, y);
    case Bool(_) => Rest(Text(v), x, y);
    case Num(_) => NumberUnique(v.text, w.text, x, y);
    case Str(_) => QuoteUnique(v.s, w.s, x, y);
    case Arr(_) => ArrUnique(v, w, x, y);
    case Obj(_) => ObjUnique(v, w, x, y);
  }

  lemma {:induction false} ArrUnique(v: Json, w: Json, x: string, y: string)
    requires v.Arr? && w.Arr? && Printed(v) && Printed(w) && Ends(x) && Ends(y)
    requires Text(v) + x == Text(w) + y
    ensures v == w && x == y
    decreases v, 0
  {
    var a, b := ItemTexts(v), ItemTexts(w);
    forall i | 0 <= i < |a| && i < |b|
      ensures Readable(a[i], b[i]) && (a[i] == b[i] ==> v.items[i] == w.items[i])
    {
      ValueReadable(v.items[i], w.items[i]);
    }
    forall i | 0 <= i < |a| ensures !Ends(a[i]) { TextHead(v.items[i]); }
    forall i | 0 <= i < |b| ensures !Ends(b[i]) { TextHead(w.items[i]); }
    Bracketed("[", Commas(a), "]", x);
    Bracketed("[", Commas(b), "]", y);
    Rest("[", Commas(a) + ("]" + x), Commas(b) + ("]" + y));
    CommasUnique(a, b, "]" + x, "]" + y);
    Rest("]", x, y);
    assert v.items == w.items;
  }

  lemma {:induction false} ValueReadable(v: Json, w: Json)
    requires Printed(v) && Printed(w)
    ensures Readable(Text(v), Text(w)) && (Text(v) == Text(w) ==> v == w)
    decreases v, 2
  {
    TextHead(v);
    TextHead(w);
    forall x, y | Ends(x) && Ends(y) && Text(v) + x == Text(w) + y ensures v == w {
      TextUnique(v, w, x, y);
    }
    if Text(v) == Text(w) {
      TextUnique(v, w, "", "");
    }
  }

  lemma TextHead(v: Json)
    requires Printed(v)
    ensures !Ends(Text(v))
  {
  }

  lemma {:induction false} ObjUnique(v: Json, w: Json, x: string, y: string)
    requires v.Obj? && w.Obj? && Printed(v) && Printed(w) && Ends(x) && Ends(y)
    requires Text(v) + x == Text(w) + y
    ensures v == w && x == y
    decreases v, 0
  {
    var a, b := MemberTexts(v), MemberTexts(w);
    forall i | 0 <= i < |a| && i < |b|
      ensures Readable(a[i], b[i]) && (a[i] == b[i] ==> v.members[i] == w.members[i])
    {
      ValueReadable(v.members[i].value, w.members[i].value);
      MemberReadable(v.members[i], w.members[i]);
    }
    Bracketed("{", Commas(a), "}", x);
    Bracketed("{", Commas(b), "}", y);
    Rest("{", Commas(a) + ("}" + x), Commas(b) + ("}" + y));
    CommasUnique(a, b, "}" + x, "}" + y);
    Rest("}", x, y);
    assert v.members == w.members;
  }

  lemma MemberReadable(m: Member, n: Member)
    requires Readable(Text(m.value), Text(n.value)) && (Text(m.value) == Text(n.value) ==> m.value == n.value)
    ensures var p, q := Quote(m.key) + ":" + Text(m.value), Quote(n.key) + ":" + Text(n.value);
      Readable(p, q) && (p == q ==> m == n)
  {
    var p, q := Quote(m.key) + ":" + Text(m.value), Quote(n.key) + ":" + Text(n.value);
    forall x, y | Ends(x) && Ends(y) && p + x == q + y ensures m == n {
      KeyedUnique(m.key, n.key, Text(m.value), Text(n.value), x, y);
    }
    if p == q {
      assert p + "" == q + "";
    }
  }

  lemma KeyedUnique(k: string, l: string, v: string, w: string, x: string, y: string)
    requires ((Quote(k) + ":") + v) + x == ((Quote(l) + ":") + w) + y
    ensures k == l && v + x == w + y
  {
    Bracketed(Quote(k), ":", v, x);
    Bracketed(Quote(l), ":", w, y);
    QuoteUnique(k, l, ":" + (v + x), ":" + (w + y));
    Rest(":", v + x, w + y);
  }
}
