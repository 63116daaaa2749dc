/** IPv4 addresses and CIDR blocks as integers: what the allow list of an API key means. */
module Cidr {
  import opened Json
  import opened Strings
  import opened Bits
  import opened Powers

  // ---------- text ----------

  // What String.prototype.trim removes.
  predicate White(c: char) {
    || 9 as char <= c <= 13 as char || c == ' ' || c == '\U{A0}' || c == '\U{1680}' || '\U{2000}' <= c <= '\U{200A}'
    || c == '\U{2028}' || c == '\U{2029}' || c == '\U{202F}' || c == '\U{205F}' || c == '\U{3000}' || c == '\U{FEFF}'
  }

  function TrimStart(s: string): string {
    if s != "" && White(s[0]) then TrimStart(s[1..]) else s
  }

  function TrimEnd(s: string): string {
    if s != "" && White(s[|s| - 1]) then TrimEnd(s[..|s| - 1]) else s
  }

  function Trim(s: string): string {
    TrimEnd(TrimStart(s))
  }

  function Split(s: string, sep: char): (parts: seq<string>)
    ensures |parts| > 0
  {
    if s == "" then [""]
    else
      var rest := Split(s[1..], sep);
      if s[0] == sep then [""] + rest else [[s[0]] + rest[0]] + rest[1..]
  }

  predicate Digits(s: string) {
    forall i :: 0 <= i < |s| ==> '0' <= s[i] <= '9'
  }

  // parseInt(s, 10) of digits.
  function Number(s: string): nat
    requires Digits(s)
  {
    if s == "" then 0 else 10 * Number(s[..|s| - 1]) + (s[|s| - 1] as int - '0' as int)
  }

  predicate OctetText(s: string) {
    1 <= |s| <= 3 && Digits(s) && Number(s) <= 255
  }

  predicate BitsText(s: string) {
    1 <= |s| <= 2 && Digits(s)
  }

  // ---------- addresses ----------

  function Address(a: nat, b: nat, c: nat, d: nat): nat {
    a * 0x100_0000 + b * 0x1_0000 + c * 0x100 + d
  }

  function ParseIp(ip: string): Option<nat> {
    var parts := Split(Trim(ip), '.');
    if |parts| == 4 && OctetText(parts[0]) && OctetText(parts[1]) && OctetText(parts[2]) && OctetText(parts[3])
    then Some(Address(Number(parts[0]), Number(parts[1]), Number(parts[2]), Number(parts[3])))
    else None
  }

  function Dots(a: string, b: string, c: string, d: string): string {
    a + "." + b + "." + c + "." + d
  }

  function Dotted(n: nat): string
    requires n < TWO_32
  {
    Dots(Decimal(n / 0x100_0000), Decimal(n / 0x1_0000 % 256), Decimal(n / 0x100 % 256), Decimal(n % 256))
  }

  // ---------- blocks ----------

  // The addresses that share the first `bits` bits.
  predicate SameBlock(ip: nat, range: nat, bits: nat)
    requires bits <= 32
  {
    ip / Pow2(32 - bits) == range / Pow2(32 - bits)
  }

  function Mask(bits: nat): int
    requires bits <= 32
  {
    if bits == 0 then 0 else ToUint32(Shl(0xffff_ffff, 32 - bits))
  }

  predicate InCidr(ip: string, cidr: string) {
    var parts := Split(cidr, '/');
    && |parts| == 2 && parts[0] != "" && BitsText(parts[1]) && Number(parts[1]) <= 32
    && match (ParseIp(ip), ParseIp(parts[0]))
       case (Some(i), Some(r)) => SameBlock(i, r, Number(parts[1]))
       case _ => false
  }

  predicate Allows(entry: string, ip: string) {
    if '/' in entry then InCidr(ip, entry) else ip == entry
  }

  // ---------- masks ----------

  lemma MinusPower(d: nat)
    requires 1 <= d <= 0x8000_0000
    ensures ToUint32(ToInt32(-1 * d)) == TWO_32 - d
  {
  }

  lemma ShlOnes(n: nat)
    requires n < 32
    ensures Shl(0xffff_ffff, n) == ToInt32(-1 * Pow2(n))
  {
    assert ToInt32(0xffff_ffff) == -1 && n % 32 == n;
  }

  lemma MaskIs(bits: nat)
    requires bits <= 32
    ensures Pow2(32 - bits) <= TWO_32 && Mask(bits) == TWO_32 - Pow2(32 - bits)
  {
    Pow32();
    if bits > 0 {
      Pow2Monotone(32 - bits, 31);
      MinusPower(Pow2(32 - bits));
      ShlOnes(32 - bits);
    }
  }

  lemma Masked(ip: nat, mask: nat, d: nat)
    requires ip < TWO_32 && mask < TWO_32 && d > 0 && AndBits(ip, mask) == (ip / d) * d
    ensures And(ip, mask) == ToInt32((ip / d) * d) && (ip / d) * d < TWO_32
  {
    RoundDown(ip, d);
    AndSmall(ip, mask);
  }

  lemma AndSmall(x: nat, y: nat)
    requires x < TWO_32 && y < TWO_32
    ensures And(x, y) == ToInt32(AndBits(x, y))
  {
    Unsigned(x);
    Unsigned(y);
    var u, v := ToUint32(x), ToUint32(y);
    assert And(x, y) == ToInt32(AndBits(u, v));
  }

  lemma Unsigned(x: nat)
    requires x < TWO_32
    ensures ToUint32(x) == x
  {
  }

  lemma MaskedIs(ip: nat, bits: nat)
    requires ip < TWO_32 && bits <= 32
    ensures var d := Pow2(32 - bits); And(ip, Mask(bits)) == ToInt32((ip / d) * d) && (ip / d) * d < TWO_32
  {
    Pow32();
    MaskIs(bits);
    AndMask(ip, 32, 32 - bits, Mask(bits), Pow2(32 - bits));
    Masked(ip, Mask(bits), Pow2(32 - bits));
  }

  lemma SameRounded(ip: nat, range: nat, mask: int, d: nat)
    requires d > 0
    requires And(ip, mask) == ToInt32((ip / d) * d) && (ip / d) * d < TWO_32
    requires And(range, mask) == ToInt32((range / d) * d) && (range / d) * d < TWO_32
    ensures And(ip, mask) == And(range, mask) <==> ip / d == range / d
  {
    SamePrefix(ip / d, range / d, d, And(ip, mask), And(range, mask));
  }

  lemma SamePrefix(p: nat, q: nat, d: nat, x: int, y: int)
    requires d > 0
    requires x == ToInt32(p * d) && p * d < TWO_32
    requires y == ToInt32(q * d) && q * d < TWO_32
    ensures x == y <==> p == q
  {
    ToInt32Injective(p * d, q * d);
    SameMultiple(p, q, d);
  }

  // The masked comparison is the comparison of prefixes, for every prefix length from 0 to 32.
  lemma MaskedIsPrefix(ip: nat, range: nat, bits: nat)
    requires ip < TWO_32 && range < TWO_32 && bits <= 32
    ensures And(ip, Mask(bits)) == And(range, Mask(bits)) <==> SameBlock(ip, range, bits)
  {
    MaskedIs(ip, bits);
    MaskedIs(range, bits);
    SameRounded(ip, range, Mask(bits), Pow2(32 - bits));
  }

  lemma RoundDown(a: nat, d: nat)
    requires d > 0
    ensures (a / d) * d <= a < (a / d) * d + d
  {
    assert a == (a / d) * d + a % d;
  }

  lemma SameMultiple(p: nat, q: nat, d: nat)
    requires d > 0
    ensures p * d == q * d <==> p == q
  {
    Multiple(p - q, d);
    assert (p - q) * d == p * d - q * d;
  }

  // Without its own case, a prefix of length 0 would compare all 32 bits: a shift by 32 is a shift by 0.
  lemma ZeroNeedsItsCase(ip: nat, range: nat)
    requires ip < TWO_32 && range < TWO_32
    ensures var wrapped := ToUint32(Shl(0xffff_ffff, 32 - 0));
      And(ip, wrapped) == And(range, wrapped) <==> ip == range
    ensures SameBlock(ip, range, 0)
  {
    Pow32();
    AndOnes(ip, 32);
    AndOnes(range, 32);
    assert Shl(0xffff_ffff, 32) == ToInt32(-1 * Pow2(0)) == -1;
    ToInt32Injective(ip, range);
    DivUnique(ip, TWO_32, 0, ip);
    DivUnique(range, TWO_32, 0, range);
  }

  // A block is an interval of 2^(32 - bits) addresses.
  lemma BlockIsInterval(ip: nat, range: nat, bits: nat)
    requires bits <= 32
    ensures InInterval(range, range, Pow2(32 - bits))
    ensures SameBlock(ip, range, bits) <==> InInterval(ip, range, Pow2(32 - bits))
  {
    SameInterval(ip, range, Pow2(32 - bits));
    SameInterval(range, range, Pow2(32 - bits));
  }

  // ip lies in the interval of `size` addresses, aligned to its size, that range lies in.
  predicate InInterval(ip: nat, range: nat, size: nat)
    requires size > 0
  {
    (range / size) * size <= ip < (range / size) * size + size
  }

  lemma SameInterval(ip: nat, range: nat, size: nat)
    requires size > 0
    ensures ip / size == range / size <==> InInterval(ip, range, size)
  {
    Interval(ip, range / size, size);
  }

  lemma Interval(a: nat, q: nat, d: nat)
    requires d > 0
    ensures a / d == q <==> q * d <= a < q * d + d
  {
    RoundDown(a, d);
    if q * d <= a < q * d + d {
      DivUnique(a, d, q, a - q * d);
    }
  }

  lemma DivDiv(a: nat, m: nat, n: nat)
    requires m > 0 && n > 0
    ensures m * n > 0 && (a / m) / n == a / (m * n)
  {
    var p, s := a / m, a % m;
    var q, r := p / n, p % n;
    assert a == p * m + s;
    assert p == q * n + r;
    Multiple(m, n);
    TwoDigits(q, r, s, m, n);
    DivUnique(a, m * n, q, r * m + s);
  }

  lemma TwoDigits(q: nat, r: nat, s: nat, m: nat, n: nat)
    requires r < n && s < m
    ensures (q * n + r) * m + s == q * (m * n) + (r * m + s) && r * m + s < m * n
  {
    Distribute(q * n, r, m);
    assert (q * n) * m == q * (m * n);
    Multiple(n - r, m);
    Distribute(n - r, r, m);
  }

  lemma Distribute(x: int, y: int, m: int)
    ensures (x + y) * m == x * m + y * m
  {
  }

  // Blocks of one length partition the addresses, and blocks of two lengths nest or are disjoint: whatever
  // shares the longer prefix shares the shorter one.
  lemma BlocksNest(ip: nat, r: nat, short: nat, s: nat, long: nat, any: nat)
    requires short <= long <= 32
    requires SameBlock(ip, r, short) && SameBlock(ip, s, long)
    ensures SameBlock(any, s, long) ==> SameBlock(any, r, short)
    ensures short == long ==> (SameBlock(any, s, long) <==> SameBlock(any, r, short))
  {
    Pow2Add(32 - long, long - short);
    DivDiv(ip, Pow2(32 - long), Pow2(long - short));
    DivDiv(s, Pow2(32 - long), Pow2(long - short));
    DivDiv(any, Pow2(32 - long), Pow2(long - short));
  }

  // ---------- what parsing accepts ----------

  function Joined(parts: seq<string>, sep: char): string
    requires |parts| > 0
  {
    if |parts| == 1 then parts[0] else parts[0] + [sep] + Joined(parts[1..], sep)
  }

  lemma {:induction false} SplitPlain(s: string, sep: char)
    requires sep !in s
    ensures Split(s, sep) == [s]
  {
    if s != "" {
      assert s[0] != sep && forall c <- s[1..] :: c in s;
      SplitPlain(s[1..], sep);
      assert s == [s[0]] + s[1..];
    }
  }

  lemma {:induction false} SplitAt(a: string, b: string, sep: char)
    requires sep !in a
    ensures Split(a + [sep] + b, sep) == [a] + Split(b, sep)
  {
    var s := a + [sep] + b;
    if a == "" {
      assert s[1..] == b;
    } else {
      assert forall c <- a[1..] :: c in a;
      assert s[1..] == a[1..] + [sep] + b && s[0] == a[0];
      SplitAt(a[1..], b, sep);
      assert a == [a[0]] + a[1..];
      var rest := Split(s[1..], sep);
      assert rest[0] == a[1..] && rest[1..] == Split(b, sep);
    }
  }

  lemma {:induction false} SplitJoin(s: string, sep: char)
    ensures Joined(Split(s, sep), sep) == s
    ensures forall p <- Split(s, sep) :: sep !in p
  {
    if s != "" {
      SplitJoin(s[1..], sep);
      var rest := Split(s[1..], sep);
      assert s == [s[0]] + s[1..];
      if s[0] == sep {
        assert ([""] + rest)[1..] == rest;
      } else {
        var all := [[s[0]] + rest[0]] + rest[1..];
        assert all[1..] == rest[1..] && all[0] == [s[0]] + rest[0];
      }
    }
  }

  lemma SplitFour(a: string, b: string, c: string, d: string)
    requires '.' !in a && '.' !in b && '.' !in c && '.' !in d
    ensures Split(Dots(a, b, c, d), '.') == [a, b, c, d]
  {
    assert Dots(a, b, c, d) == a + "." + (b + "." + (c + "." + d));
    SplitAt(a, b + "." + (c + "." + d), '.');
    SplitAt(b, c + "." + d, '.');
    SplitAt(c, d, '.');
    SplitPlain(d, '.');
  }

  lemma OctetPlain(s: string)
    requires Digits(s)
    ensures '.' !in s && '/' !in s && forall c <- s :: !White(c)
  {
  }

  // A string is an address exactly when, trimmed, it is four parts of one to three digits, each at most 255.
  lemma ParseIpSpec(ip: string, n: nat)
    ensures ParseIp(ip) == Some(n) <==> exists a, b, c, d ::
      && OctetText(a) && OctetText(b) && OctetText(c) && OctetText(d)
      && Trim(ip) == Dots(a, b, c, d) && n == Address(Number(a), Number(b), Number(c), Number(d))
  {
    if ParseIp(ip) == Some(n) {
      var p := Split(Trim(ip), '.');
      SplitJoin(Trim(ip), '.');
      JoinedFour(p);
      assert Trim(ip) == Dots(p[0], p[1], p[2], p[3]);
    }
    forall a, b, c, d |
      && OctetText(a) && OctetText(b) && OctetText(c) && OctetText(d)
      && Trim(ip) == Dots(a, b, c, d) && n == Address(Number(a), Number(b), Number(c), Number(d))
      ensures ParseIp(ip) == Some(n)
    {
      OctetPlain(a);
      OctetPlain(b);
      OctetPlain(c);
      OctetPlain(d);
      SplitFour(a, b, c, d);
    }
  }

  lemma JoinedFour(p: seq<string>)
    requires |p| == 4
    ensures Joined(p, '.') == Dots(p[0], p[1], p[2], p[3])
  {
    assert Joined(p[1..][1..][1..], '.') == p[3];
    assert Joined(p[1..][1..], '.') == p[2] + "." + p[3];
    assert Joined(p[1..], '.') == p[1] + "." + (p[2] + "." + p[3]);
  }

  lemma {:induction false} DecimalDigits(n: nat)
    ensures Decimal(n) != "" && Digits(Decimal(n)) && Number(Decimal(n)) == n
    ensures n < 1000 ==> |Decimal(n)| <= 3
  {
    if n >= 10 {
      DecimalDigits(n / 10);
      assert n < 1000 ==> n / 10 < 100;
      assert n / 10 >= 10 ==> Decimal(n / 10) == Decimal(n / 10 / 10) + [Digit(n / 10 % 10)];
      var s := Decimal(n);
      assert s[..|s| - 1] == Decimal(n / 10);
    } else {
      assert Decimal(n)[..0] == "";
    }
  }

  lemma {:induction false} TrimPlain(s: string)
    requires s != "" ==> !White(s[0]) && !White(s[|s| - 1])
    ensures Trim(s) == s
  {
  }

  lemma AddressRange(a: nat, b: nat, c: nat, d: nat)
    requires a < 256 && b < 256 && c < 256 && d < 256
    ensures Address(a, b, c, d) < TWO_32
  {
  }

  // Reading undoes printing, for every 32-bit number.
  lemma PrintThenParse(n: nat)
    requires n < TWO_32
    ensures ParseIp(Dotted(n)) == Some(n)
  {
    var a, b, c, d := n / 0x100_0000, n / 0x1_0000 % 256, n / 0x100 % 256, n % 256;
    OctetOf(a);
    OctetOf(b);
    OctetOf(c);
    OctetOf(d);
    var s := Dotted(n);
    assert s[0] == Decimal(a)[0] && s[|s| - 1] == Decimal(d)[|Decimal(d)| - 1];
    TrimPlain(s);
    SplitFour(Decimal(a), Decimal(b), Decimal(c), Decimal(d));
    FourDigits(n);
  }

  lemma OctetOf(a: nat)
    requires a < 256
    ensures OctetText(Decimal(a)) && Number(Decimal(a)) == a && '.' !in Decimal(a)
    ensures !White(Decimal(a)[0]) && !White(Decimal(a)[|Decimal(a)| - 1])
  {
    DecimalDigits(a);
    OctetPlain(Decimal(a));
  }

  lemma FourDigits(n: nat)
    requires n < TWO_32
    ensures Address(n / 0x100_0000, n / 0x1_0000 % 256, n / 0x100 % 256, n % 256) == n
  {
    var x, y, z := n / 0x100, n / 0x1_0000, n / 0x100_0000;
    assert n == 256 * x + n % 256;
    assert y == x / 256 && x == 256 * y + x % 256;
    assert z == y / 256 && y == 256 * z + y % 256;
  }

  // ---------- what an entry lets in ----------

  // The code points of white space and line ends (sections 12.2 and 12.3 of ECMA-262).
  predicate Space(c: char) {
    var n := c as int;
    9 <= n <= 13 || 8192 <= n <= 8202 || n in [32, 160, 5760, 8232, 8233, 8239, 8287, 12288, 65279]
  }

  lemma WhiteIsSpace(c: char)
    ensures White(c) <==> Space(c)
  {
  }

  // Trimming takes white space off both ends, and all of it.
  lemma TrimIs(s: string) returns (a: string, b: string)
    ensures s == a + Trim(s) + b && (forall c <- a + b :: Space(c))
    ensures Trim(s) != "" ==> !Space(Trim(s)[0]) && !Space(Trim(s)[|Trim(s)| - 1])
  {
    forall c ensures White(c) <==> Space(c) { WhiteIsSpace(c); }
    a := TrimStartIs(s);
    b := TrimEndIs(TrimStart(s));
    assert a + (Trim(s) + b) == a + Trim(s) + b;
    if Trim(s) != "" { assert Trim(s)[0] == TrimStart(s)[0]; }
  }

  lemma {:induction false} TrimStartIs(s: string) returns (a: string)
    ensures s == a + TrimStart(s) && (forall c <- a :: White(c))
    ensures TrimStart(s) != "" ==> !White(TrimStart(s)[0])
  {
    a := "";
    if s != "" && White(s[0]) {
      var rest := TrimStartIs(s[1..]);
      a := [s[0]] + rest;
      assert s == [s[0]] + s[1..];
    }
  }

  lemma {:induction false} TrimEndIs(s: string) returns (b: string)
    ensures s == TrimEnd(s) + b && (forall c <- b :: White(c))
    ensures TrimEnd(s) != "" ==> !White(TrimEnd(s)[|TrimEnd(s)| - 1])
  {
    b := "";
    if s != "" && White(s[|s| - 1]) {
      var rest := TrimEndIs(s[..|s| - 1]);
      b := rest + [s[|s| - 1]];
      assert s == s[..|s| - 1] + [s[|s| - 1]];
    }
  }

  // ip is an address of the block that the two parts of cidr write: an address, and one or two digits for a number of
  // bits of at most 32. It lies in an interval of 2^(32 - bits) addresses, aligned to its size.
  ghost predicate InWrittenBlock(ip: string, cidr: string, range: string, bits: string, i: nat, r: nat) {
    && cidr == range + "/" + bits && 1 <= |bits| <= 2 && Digits(bits) && Number(bits) <= 32
    && ParseIp(ip) == Some(i) && ParseIp(range) == Some(r) && InInterval(i, r, Pow2(32 - Number(bits)))
  }

  lemma InCidrIs(ip: string, cidr: string)
    ensures InCidr(ip, cidr) <==> exists range, bits, i, r :: InWrittenBlock(ip, cidr, range, bits, i, r)
  {
    if InCidr(ip, cidr) {
      var parts := Split(cidr, '/');
      SplitJoin(cidr, '/');
      assert parts[1..][0] == parts[1];
      var i, r := ParseIp(ip).value, ParseIp(parts[0]).value;
      BlockIsInterval(i, r, Number(parts[1]));
      assert InWrittenBlock(ip, cidr, parts[0], parts[1], i, r);
    }
    forall range, bits, i, r | InWrittenBlock(ip, cidr, range, bits, i, r) ensures InCidr(ip, cidr) {
      SplitCidr(range, bits, r);
      BlockIsInterval(i, r, Number(bits));
    }
  }

  lemma SplitCidr(range: string, bits: string, r: nat)
    requires ParseIp(range) == Some(r) && Digits(bits)
    ensures range != "" && '/' !in range && '/' !in bits && Split(range + "/" + bits, '/') == [range, bits]
  {
    AddressPlain(range, r);
    OctetPlain(bits);
    SplitAt(range, bits, '/');
    SplitPlain(bits, '/');
  }

  // No address holds a slash.
  lemma AddressPlain(s: string, n: nat)
    requires ParseIp(s) == Some(n)
    ensures s != "" && '/' !in s
  {
    ParseIpSpec(s, n);
    var a, b, c, d :|
      && OctetText(a) && OctetText(b) && OctetText(c) && OctetText(d)
      && Trim(s) == Dots(a, b, c, d) && n == Address(Number(a), Number(b), Number(c), Number(d));
    OctetPlain(a);
    OctetPlain(b);
    OctetPlain(c);
    OctetPlain(d);
    var x, y := TrimIs(s);
    assert '/' !in Dots(a, b, c, d);
    assert '/' !in x + y;
  }

  lemma PartsDecide(ip: string, cidr: string, range: string, bits: string, i: nat, r: nat)
    requires ParseIp(ip) == Some(i) && ParseIp(range) == Some(r) && Split(cidr, '/') == [range, bits] && range != ""
    ensures InCidr(ip, cidr) <==> BitsText(bits) && Number(bits) <= 32 && SameBlock(i, r, Number(bits))
  {
  }

  // Only one address and one number of bits are written by an entry.
  lemma WrittenOnce(ip: string, range: string, bits: string, i: nat, r: nat)
    requires ParseIp(ip) == Some(i) && ParseIp(range) == Some(r) && BitsText(bits)
    ensures InCidr(ip, range + "/" + bits) <==> Number(bits) <= 32 && InInterval(i, r, Pow2(32 - Number(bits)))
  {
    SplitCidr(range, bits, r);
    PartsDecide(ip, range + "/" + bits, range, bits, i, r);
    if Number(bits) <= 32 { BlockIsInterval(i, r, Number(bits)); }
  }

  // An entry that is an address and a number of bits, as they print, lets in just the addresses of the aligned block
  // of 2^(32 - bits) addresses around it; for more than 32 bits it lets in none; without bits, only itself.
  lemma PrintedEntry(r: nat, bits: nat, n: nat)
    requires r < TWO_32 && n < TWO_32 && bits < 100
    ensures Allows(Dotted(r) + "/" + Decimal(bits), Dotted(n))
      <==> bits <= 32 && var size := Pow2(32 - bits); r / size * size <= n < r / size * size + size
    ensures Allows(Dotted(r), Dotted(n)) <==> n == r
  {
    PrintThenParse(r);
    PrintThenParse(n);
    DecimalDigits(bits);
    TwoDigitsLong(bits);
    AddressPlain(Dotted(r), r);
    assert (Dotted(r) + "/" + Decimal(bits))[|Dotted(r)|] == '/';
    WrittenOnce(Dotted(n), Dotted(r), Decimal(bits), n, r);
  }

  lemma TwoDigitsLong(bits: nat)
    requires bits < 100
    ensures 1 <= |Decimal(bits)| <= 2
  {
    assert bits >= 10 ==> bits / 10 < 10;
  }
}
