/**
 Template substitution of bulk messages: every `{word}` token of every string in a JSON tree is
 replaced by the variable of that name, in one pass.
 */
module Template {
  import opened Json

  // `own` holds the variables a caller sent. `inherited` holds what a property read on any plain
  // object also finds (`constructor`, `toString`, ...), as the text it converts to.
  datatype Variables = Variables(own: map<string, string>, inherited: map<string, string>)

  predicate IsWord(c: char) {
    'a' <= c <= 'z' || 'A' <= c <= 'Z' || '0' <= c <= '9' || c == '_'
  }

  predicate AllWord(s: string) {
    forall k :: 0 <= k < |s| ==> IsWord(s[k])
  }

  function Token(name: string): string {
    "{" + name + "}"
  }

  // The length of the longest run of word characters that s starts with.
  function WordRun(s: string): (n: nat)
    ensures n <= |s| && AllWord(s[..n]) && (n < |s| ==> !IsWord(s[n]))
  {
    if s != "" && IsWord(s[0]) then
      var n := WordRun(s[1..]);
      assert s[..n + 1] == [s[0]] + s[1..][..n];
      n + 1
    else 0
  }

  // Does the pattern \{(\w+)\} match at the start of s? If so, the name it captures.
  function Match(s: string): Option<string> {
    if s == "" || s[0] != '{' then None
    else
      var n := WordRun(s[1..]);
      if 0 < n && n + 1 < |s| && s[n + 1] == '}' then Some(s[1..n + 1]) else None
  }

  // What a token is replaced by: a variable that is missing or empty leaves the token.
  function Value(vars: Variables, name: string): string {
    if name in vars.own then (if vars.own[name] == "" then Token(name) else vars.own[name])
    else if name in vars.inherited && vars.inherited[name] != "" then vars.inherited[name]
    else Token(name)
  }

  // The pass of String.prototype.replace: on a match, go on behind it; otherwise keep a character.
  function Replace(s: string, vars: Variables): string {
    if s == "" then ""
    else match Match(s)
      case Some(name) =>
        MatchSpec(s, name);
        Value(vars, name) + Replace(s[|name| + 2..], vars)
      case None => [s[0]] + Replace(s[1..], vars)
  }

  function ApplyVariables(content: Json, variables: Option<Variables>): Json {
    match variables case None => content case Some(vars) => ProcessValue(content, vars)
  }

  function ProcessValue(v: Json, vars: Variables): Json {
    match v
    case Str(s) => Str(Replace(s, vars))
    case Arr(items) => Arr(seq(|items|, i requires 0 <= i < |items| => ProcessValue(items[i], vars)))
    case Obj(members) =>
      Obj(seq(|members|, i requires 0 <= i < |members| =>
        Member(members[i].key, ProcessValue(members[i].value, vars))))
    case _ => v
  }

  // ---------- A reference definition: literals and tokens ----------

  datatype Segment = Lit(c: char) | Tok(name: string)

  function Text(seg: Segment): string {
    match seg case Lit(c) => [c] case Tok(name) => Token(name)
  }

  // What reading the property `name` of the variables finds: own variables hide inherited ones.
  function Property(vars: Variables, name: string): Option<string> {
    if name in vars.inherited + vars.own then Some((vars.inherited + vars.own)[name]) else None
  }

  // A token becomes the text that is found under its name, and stays if none is, or an empty one.
  function Filled(seg: Segment, vars: Variables): string {
    match seg
    case Lit(c) => [c]
    case Tok(name) =>
      match Property(vars, name)
      case Some(text) => if |text| > 0 then text else "{" + name + "}"
      case None => "{" + name + "}"
  }

  function Flatten(segs: seq<Segment>): string {
    if segs == [] then "" else Text(segs[0]) + Flatten(segs[1..])
  }

  function Render(segs: seq<Segment>, vars: Variables): string {
    if segs == [] then "" else Filled(segs[0], vars) + Render(segs[1..], vars)
  }

  // The code points that \w stands for.
  predicate WordCode(n: int) {
    48 <= n <= 57 || 65 <= n <= 90 || n == 95 || 97 <= n <= 122
  }

  ghost predicate IsName(name: string) {
    name != "" && forall k :: 0 <= k < |name| ==> WordCode(name[k] as int)
  }

  // s starts with a token.
  ghost predicate StartsWithToken(s: string, name: string) {
    IsName(name) && Token(name) <= s
  }

  // A cut in which every token that occurs anywhere is a segment of its own.
  ghost predicate Tokenised(segs: seq<Segment>) {
    segs != [] ==>
      && Tokenised(segs[1..])
      && (segs[0].Tok? ==> IsName(segs[0].name))
      && (segs[0].Lit? ==> forall name :: !StartsWithToken(Flatten(segs), name))
  }

  // ---------- Lemmas ----------

  lemma WordRunUnique(s: string, n: nat)
    requires n < |s| && AllWord(s[..n]) && !IsWord(s[n])
    ensures WordRun(s) == n
  {
    var m := WordRun(s);
    assert forall k :: 0 <= k < n ==> s[..n][k] == s[k];
    assert forall k :: 0 <= k < m ==> s[..m][k] == s[k];
  }

  lemma MatchSpec(s: string, name: string)
    ensures Match(s) == Some(name) <==> StartsWithToken(s, name)
  {
    if StartsWithToken(s, name) {
      var n := |name|;
      assert s[..n + 2] == Token(name);
      assert s[1..n + 1] == s[..n + 2][1..n + 1] == name;
      assert s[n + 1] == s[..n + 2][n + 1] == '}';
      assert s[0] == s[..n + 2][0] == '{';
      assert s[1..][..n] == name;
      WordRunUnique(s[1..], n);
    }
    if Match(s) == Some(name) {
      var n := WordRun(s[1..]);
      assert s[1..][..n] == s[1..n + 1] == name;
      assert s[..n + 2] == Token(name);
    }
  }

  // The cut that the scan of Replace makes.
  function Cut(s: string): (segs: seq<Segment>)
    ensures Flatten(segs) == s
    ensures Tokenised(segs)
  {
    if s == "" then []
    else match Match(s)
      case Some(name) =>
        MatchSpec(s, name);
        assert s == Token(name) + s[|name| + 2..];
        [Tok(name)] + Cut(s[|name| + 2..])
      case None =>
        var segs := [Lit(s[0])] + Cut(s[1..]);
        assert Flatten(segs) == s;
        assert Tokenised(segs) by {
          forall name ensures !StartsWithToken(s, name) { MatchSpec(s, name); }
        }
        segs
  }

  // Substitution is a rendering of *any* cut that isolates the tokens, so the inserted values
  // are never looked at again and no token is missed.
  lemma {:induction false} ReplaceIsRender(segs: seq<Segment>, vars: Variables)
    requires Tokenised(segs)
    ensures Replace(Flatten(segs), vars) == Render(segs, vars)
  {
    if segs != [] {
      ReplaceIsRender(segs[1..], vars);
      var s := Flatten(segs);
      match segs[0]
      case Lit(c) =>
        if Match(s).Some? { MatchSpec(s, Match(s).value); }
        assert s[1..] == Flatten(segs[1..]);
      case Tok(name) =>
        MatchSpec(s, name);
        assert s[|name| + 2..] == Flatten(segs[1..]);
        ValueIs(vars, name);
    }
  }

  lemma ValueIs(vars: Variables, name: string)
    ensures Value(vars, name) == Filled(Tok(name), vars)
  {
  }

  lemma FirstSegment(segs: seq<Segment>)
    requires Tokenised(segs) && segs != []
    ensures segs[0] == match Match(Flatten(segs)) case Some(name) => Tok(name) case None => Lit(Flatten(segs)[0])
  {
    var s := Flatten(segs);
    if segs[0].Tok? { MatchSpec(s, segs[0].name); }
    if Match(s).Some? { MatchSpec(s, Match(s).value); }
  }

  // There is exactly one such cut.
  lemma {:induction false} CutUnique(a: seq<Segment>, b: seq<Segment>)
    requires Tokenised(a) && Tokenised(b) && Flatten(a) == Flatten(b)
    ensures a == b
  {
    assert forall segs: seq<Segment> :: segs != [] ==> |Text(segs[0])| > 0;
    if a != [] && b != [] {
      var s := Flatten(a);
      FirstSegment(a);
      FirstSegment(b);
      var n := |Text(a[0])|;
      assert Flatten(a[1..]) == s[n..] == Flatten(b[1..]);
      CutUnique(a[1..], b[1..]);
    }
  }

  lemma Regroup(x: string, n: nat, t: string)
    requires n <= |x|
    ensures x[..n] + (x[n..] + t) == x + t
  {
    assert x == x[..n] + x[n..];
  }

  lemma ReplaceStep(s: string, vars: Variables)
    requires s != "" && s[0] != '{'
    ensures Replace(s, vars) == s[..1] + Replace(s[1..], vars)
  {
  }

  lemma {:induction false} ReplacePlain(x: string, y: string, vars: Variables)
    requires forall k :: 0 <= k < |x| ==> x[k] != '{'
    ensures Replace(x + y, vars) == x + Replace(y, vars)
    decreases |x|
  {
    if x == "" {
      assert x + y == y;
    } else {
      assert (x + y)[0] == x[0] && (x + y)[1..] == x[1..] + y;
      ReplaceStep(x + y, vars);
      ReplacePlain(x[1..], y, vars);
      Regroup(x, 1, Replace(y, vars));
    }
  }

  // A token of a + b that begins in a and ends in b, and that the pass would change.
  ghost predicate ChangedAcross(a: string, b: string, vars: Variables, i: nat, name: string) {
    i < |a| < i + |name| + 2 && StartsWithToken((a + b)[i..], name) && Value(vars, name) != Token(name)
  }

  ghost predicate TokenAcross(a: string, b: string, vars: Variables) {
    exists i: nat, name :: ChangedAcross(a, b, vars, i, name)
  }

  // The pass distributes over concatenation exactly when the cut goes through no token that it changes.
  lemma {:induction false} ReplaceConcat(a: string, b: string, vars: Variables)
    ensures Replace(a + b, vars) == Replace(a, vars) + Replace(b, vars) <==> !TokenAcross(a, b, vars)
    decreases |a|
  {
    if a == "" {
      assert a + b == b;
    } else if FirstStep(a + b) <= |a| {
      var n := FirstStep(a + b);
      var v := ConcatStep(a, b, vars);
      ReplaceConcat(a[n..], b, vars);
      AcrossShift(a, b, vars);
      SameHead(v, Replace(a[n..] + b, vars), Replace(a[n..], vars), Replace(b, vars));
    } else {
      ConcatThroughToken(a, b, vars, Match(a + b).value);
    }
  }

  // How far the pass moves on in its first step.
  function FirstStep(s: string): nat {
    match Match(s) case Some(name) => |name| + 2 case None => 1
  }

  // The pass takes the same first piece off a + b and off a.
  lemma ConcatStep(a: string, b: string, vars: Variables) returns (v: string)
    requires a != "" && FirstStep(a + b) <= |a|
    ensures Replace(a + b, vars) == v + Replace(a[FirstStep(a + b)..] + b, vars)
    ensures Replace(a, vars) == v + Replace(a[FirstStep(a + b)..], vars)
  {
    var s := a + b;
    var n := FirstStep(s);
    assert s[n..] == a[n..] + b;
    assert s[0] == a[0];
    SameMatch(a, b);
    v := if Match(s).Some? then Value(vars, Match(s).value) else [s[0]];
  }

  // A match that ends within a is one of a.
  lemma SameMatch(a: string, b: string)
    requires a != "" && FirstStep(a + b) <= |a|
    ensures Match(a) == Match(a + b)
  {
    var s := a + b;
    if Match(s).Some? {
      var name := Match(s).value;
      MatchSpec(s, name);
      assert a[..|name| + 2] == s[..|name| + 2];
      MatchSpec(a, name);
    } else if Match(a).Some? {
      var name := Match(a).value;
      MatchSpec(a, name);
      assert s[..|name| + 2] == a[..|name| + 2];
      MatchSpec(s, name);
    }
  }

  lemma TokenInside(name: string)
    requires AllWord(name)
    ensures forall k :: 0 < k < |name| + 2 ==> Token(name)[k] != '{'
  {
    forall k | 0 < k < |name| + 2 ensures Token(name)[k] != '{' {
      if k < |name| + 1 { assert Token(name)[k] == name[k - 1]; }
    }
  }

  // No token starts inside a token.
  lemma TokensApart(s: string, outer: string, i: nat, name: string)
    requires 0 < i < |s| && StartsWithToken(s, outer) && StartsWithToken(s[i..], name)
    ensures |outer| + 2 <= i
  {
    assert s[i] == s[i..][0] == Token(name)[0] == '{';
    TokenInside(outer);
    assert forall k :: 0 <= k < |outer| + 2 ==> s[k] == s[..|outer| + 2][k];
  }

  lemma AcrossShift(a: string, b: string, vars: Variables)
    requires a != "" && FirstStep(a + b) <= |a|
    ensures TokenAcross(a, b, vars) <==> TokenAcross(a[FirstStep(a + b)..], b, vars)
  {
    var s := a + b;
    var n := FirstStep(s);
    assert s[n..] == a[n..] + b && s[0..] == s;
    if TokenAcross(a, b, vars) {
      var i: nat, name :| ChangedAcross(a, b, vars, i, name);
      MatchSpec(s, name);
      if Match(s).Some? { MatchSpec(s, Match(s).value); }
      if Match(s).Some? && 0 < i { TokensApart(s, Match(s).value, i, name); }
      assert s[i..] == (a[n..] + b)[i - n..];
      assert ChangedAcross(a[n..], b, vars, i - n, name);
    }
    if TokenAcross(a[n..], b, vars) {
      var i: nat, name :| ChangedAcross(a[n..], b, vars, i, name);
      assert s[i + n..] == (a[n..] + b)[i..];
      assert ChangedAcross(a, b, vars, i + n, name);
    }
  }

  // A piece of a token without its closing brace stays as it is.
  lemma {:induction false} ReplaceUnclosed(a: string, vars: Variables)
    requires '}' !in a
    ensures Replace(a, vars) == a
  {
    if a != "" {
      assert forall k :: 0 <= k < |a| ==> a[k] != '}';
      ReplaceUnclosed(a[1..], vars);
    }
  }

  lemma ConcatThroughToken(a: string, b: string, vars: Variables, name: string)
    requires a != "" && Match(a + b) == Some(name) && |a| < |name| + 2
    ensures Replace(a + b, vars) == Replace(a, vars) + Replace(b, vars) <==> !TokenAcross(a, b, vars)
  {
    MatchSpec(a + b, name);
    SplitToken(a, b, vars, name);
    OnlyTokenAcross(a, b, vars, name);
    var tail := Replace((a + b)[|name| + 2..], vars);
    if Value(vars, name) + tail == Token(name) + tail { SameTail(Value(vars, name), Token(name), tail); }
  }

  lemma CutToken(a: string, b: string, name: string)
    requires StartsWithToken(a + b, name) && 0 < |a| < |name| + 2
    ensures a == Token(name)[..|a|] && '}' !in a
    ensures b == Token(name)[|a|..] + (a + b)[|name| + 2..]
    ensures forall k :: 0 <= k < |name| + 2 - |a| ==> Token(name)[|a|..][k] != '{'
  {
    var s := a + b;
    assert a == s[..|a|] == Token(name)[..|a|];
    assert b == s[|a|..];
    TokenInside(name);
  }

  // Both pieces of a token that is cut in two come out as they are.
  lemma SplitToken(a: string, b: string, vars: Variables, name: string)
    requires StartsWithToken(a + b, name) && 0 < |a| < |name| + 2
    ensures Replace(a, vars) + Replace(b, vars) == Token(name) + Replace((a + b)[|name| + 2..], vars)
  {
    CutToken(a, b, name);
    ReplaceUnclosed(a, vars);
    ReplacePlain(Token(name)[|a|..], (a + b)[|name| + 2..], vars);
    Regroup(Token(name), |a|, Replace((a + b)[|name| + 2..], vars));
  }

  lemma OnlyTokenAcross(a: string, b: string, vars: Variables, name: string)
    requires StartsWithToken(a + b, name) && 0 < |a| < |name| + 2
    ensures TokenAcross(a, b, vars) <==> Value(vars, name) != Token(name)
  {
    var s := a + b;
    assert s[0..] == s;
    MatchSpec(s, name);
    if TokenAcross(a, b, vars) {
      var i: nat, other :| ChangedAcross(a, b, vars, i, other);
      if 0 < i { TokensApart(s, name, i, other); }
      MatchSpec(s, other);
    }
    if Value(vars, name) != Token(name) { assert ChangedAcross(a, b, vars, 0, name); }
  }

  lemma SameHead(v: string, x: string, y: string, z: string)
    ensures v + x == (v + y) + z <==> x == y + z
  {
    assert (v + y) + z == v + (y + z);
    assert x == (v + x)[|v|..] && y + z == (v + (y + z))[|v|..];
  }

  lemma SameTail(a: string, b: string, t: string)
    requires a + t == b + t
    ensures a == b
  {
    assert |a| == |b|;
    assert a == (a + t)[..|a|] == (b + t)[..|b|] == b;
  }

  lemma {:induction false} GetProcessed(members: seq<Member>, vars: Variables, key: string)
    ensures Get(ProcessValue(Obj(members), vars).members, key)
         == match Get(members, key) case Some(v) => Some(ProcessValue(v, vars)) case None => None
  {
    if members != [] {
      assert ProcessValue(Obj(members), vars).members[1..] == ProcessValue(Obj(members[1..]), vars).members;
      GetProcessed(members[1..], vars, key);
    }
  }

  // Substitution keeps the tree: looking up any path and substituting commute, so strings are the
  // only leaves that change and no key or element is added, dropped or moved.
  lemma {:induction false} ProcessAt(v: Json, vars: Variables, path: seq<Selector>)
    ensures At(ProcessValue(v, vars), path)
         == match At(v, path) case Some(part) => Some(ProcessValue(part, vars)) case None => None
    decreases |path|
  {
    if path != [] {
      if v.Obj? && path[0].Key? { GetProcessed(v.members, vars, path[0].k); }
      match Select(v, path[0])
      case Some(part) => ProcessAt(part, vars, path[1..]);
      case None =>
    }
  }

  // `after` is `before` with every string rendered, and nothing else changed.
  ghost predicate Substituted(before: Json, after: Json, vars: Variables) {
    match before
    case Str(s) => after == Str(Render(Cut(s), vars))
    case Arr(items) =>
      after.Arr? && |after.items| == |items|
      && forall i :: 0 <= i < |items| ==> Substituted(items[i], after.items[i], vars)
    case Obj(members) =>
      after.Obj? && |after.members| == |members|
      && forall i :: 0 <= i < |members| ==>
           after.members[i].key == members[i].key && Substituted(members[i].value, after.members[i].value, vars)
    case _ => after == before
  }

  // Whoever sends variables gets every string of the content rendered; whoever sends none, the content as it is.
  ghost predicate Applied(before: Json, after: Json, variables: Option<Variables>) {
    match variables case None => after == before case Some(vars) => Substituted(before, after, vars)
  }

  lemma {:induction false} ProcessSubstitutes(v: Json, vars: Variables)
    ensures Substituted(v, ProcessValue(v, vars), vars)
  {
    match v
    case Str(s) => ReplaceIsRender(Cut(s), vars);
    case Arr(items) =>
      forall i | 0 <= i < |items| ensures Substituted(items[i], ProcessValue(items[i], vars), vars) {
        ProcessSubstitutes(items[i], vars);
      }
    case Obj(members) =>
      forall i | 0 <= i < |members| ensures Substituted(members[i].value, ProcessValue(members[i].value, vars), vars) {
        ProcessSubstitutes(members[i].value, vars);
      }
    case _ =>
  }

  // And this is the only such content.
  lemma {:induction false} SubstitutedUnique(v: Json, a: Json, b: Json, vars: Variables)
    requires Substituted(v, a, vars) && Substituted(v, b, vars)
    ensures a == b
  {
    match v
    case Arr(items) =>
      forall i | 0 <= i < |items| ensures a.items[i] == b.items[i] {
        SubstitutedUnique(items[i], a.items[i], b.items[i], vars);
      }
    case Obj(members) =>
      forall i | 0 <= i < |members| ensures a.members[i] == b.members[i] {
        SubstitutedUnique(members[i].value, a.members[i].value, b.members[i].value, vars);
      }
    case _ =>
  }

  lemma AppliedIs(before: Json, after: Json, variables: Option<Variables>)
    ensures after == ApplyVariables(before, variables) <==> Applied(before, after, variables)
  {
    if variables.Some? {
      ProcessSubstitutes(before, variables.value);
      if Applied(before, after, variables) {
        SubstitutedUnique(before, after, ApplyVariables(before, variables), variables.value);
      }
    }
  }
}
