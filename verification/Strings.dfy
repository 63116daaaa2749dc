/** Strings whose parts are joined by colons, and decimal numerals. */
module Strings {

  predicate NoColon(s: string) {
    forall k :: 0 <= k < |s| ==> s[k] != ':'
  }

  function Join(a: string, b: string): string {
    a + ":" + b
  }

  // The last colon says where the last part begins.
  lemma LastPart(a: string, b: string, x: string, y: string)
    requires Join(a, b) == Join(x, y) && NoColon(b) && NoColon(y)
    ensures a == x && b == y
  {
    var s := Join(a, b);
    assert s[|a|] == ':' && s[|x|] == ':';
    assert forall k :: |a| < k < |s| ==> s[k] == b[k - |a| - 1];
    assert forall k :: |x| < k < |s| ==> s[k] == y[k - |x| - 1];
    assert |a| == |x|;
    assert a == s[..|a|] && x == s[..|x|] && b == s[|a| + 1..] && y == s[|x| + 1..];
  }

  lemma JoinAssociates(p: string, a: string, m: string)
    ensures Join(p, Join(a, m)) == Join(Join(p, a), m)
  {
  }

  lemma LastThreeParts(p: string, a: string, m: string, t: string, q: string, b: string, n: string, u: string)
    requires Join(Join(p, Join(a, m)), t) == Join(Join(q, Join(b, n)), u)
    requires NoColon(t) && NoColon(u) && NoColon(m) && NoColon(n) && NoColon(a) && NoColon(b)
    ensures p == q && a == b && m == n && t == u
  {
    LastPart(Join(p, Join(a, m)), t, Join(q, Join(b, n)), u);
    JoinAssociates(p, a, m);
    JoinAssociates(q, b, n);
    LastPart(Join(p, a), m, Join(q, b), n);
    LastPart(p, a, q, b);
  }

  function Digit(d: nat): char
    requires d < 10
  {
    "0123456789"[d]
  }

  function Decimal(n: nat): string {
    if n < 10 then [Digit(n)] else Decimal(n / 10) + [Digit(n % 10)]
  }

  lemma Assoc<T>(a: seq<T>, b: seq<T>, c: seq<T>)
    ensures (a + b) + c == a + (b + c)
  {
  }
}
