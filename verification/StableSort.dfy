/**
 Registrations sorted by priority, stably (ECMA-262 2023, section 23.1.3.30): what a stable sort is, that
 there is only one result, and how it behaves when an element is added or taken out.
 */
module StableSort {
  import opened HookInterfaces

  type Test = Registration -> bool

  function Filter(s: seq<Registration>, keep: Test): seq<Registration> {
    if s == [] then [] else Filter(s[..|s| - 1], keep) + One(s[|s| - 1], keep)
  }

  function One(r: Registration, keep: Test): seq<Registration> {
    if keep(r) then [r] else []
  }

  function HasPriority(p: int): Test {
    (r: Registration) => r.priority == p
  }

  function Without<T>(s: seq<T>, i: nat): seq<T>
    requires i < |s|
  {
    s[..i] + s[i + 1..]
  }

  predicate Sorted(s: seq<Registration>) {
    forall i, j :: 0 <= i < j < |s| ==> s[i].priority <= s[j].priority
  }

  // `sorted` is a stable sort of s: ordered by priority, and the registrations of each priority are
  // those of s in the order of s.
  ghost predicate IsStableSort(sorted: seq<Registration>, s: seq<Registration>) {
    && Sorted(sorted)
    && forall p :: Filter(sorted, HasPriority(p)) == Filter(s, HasPriority(p))
  }

  // Where r goes: behind everything that does not come after it.
  function Place(sorted: seq<Registration>, r: Registration): (n: nat)
    ensures n <= |sorted|
    ensures forall i :: n <= i < |sorted| ==> sorted[i].priority > r.priority
    ensures n > 0 ==> sorted[n - 1].priority <= r.priority
  {
    if sorted == [] then 0
    else if sorted[|sorted| - 1].priority <= r.priority then |sorted|
    else
      var n := Place(sorted[..|sorted| - 1], r);
      n
  }

  function Insert(sorted: seq<Registration>, r: Registration): seq<Registration> {
    sorted[..Place(sorted, r)] + [r] + sorted[Place(sorted, r)..]
  }

  function Sort(s: seq<Registration>): seq<Registration> {
    if s == [] then [] else Insert(Sort(s[..|s| - 1]), s[|s| - 1])
  }

  // ---------- Filters ----------

  lemma FilterPush(s: seq<Registration>, r: Registration, keep: Test)
    ensures Filter(s + [r], keep) == Filter(s, keep) + One(r, keep)
  {
    assert (s + [r])[..|s|] == s;
  }

  lemma Swap(x: seq<Registration>, y: seq<Registration>, z: seq<Registration>)
    requires y == [] || z == []
    ensures x + y + z == x + z + y
  {
  }

  lemma {:induction false} FilterConcat(a: seq<Registration>, b: seq<Registration>, keep: Test)
    ensures Filter(a + b, keep) == Filter(a, keep) + Filter(b, keep)
    decreases |b|
  {
    if b == [] {
      assert a + b == a;
    } else {
      assert (a + b)[..|a + b| - 1] == a + b[..|b| - 1];
      FilterConcat(a, b[..|b| - 1], keep);
    }
  }

  lemma {:induction false} FilterIn(s: seq<Registration>, keep: Test, r: Registration)
    ensures r in Filter(s, keep) <==> r in s && keep(r)
  {
    if s != [] {
      FilterIn(s[..|s| - 1], keep, r);
      assert s == s[..|s| - 1] + [s[|s| - 1]];
    }
  }

  lemma Cut(s: seq<Registration>, i: nat)
    requires i < |s|
    ensures s == s[..i] + [s[i]] + s[i + 1..]
  {
  }

  lemma FilterParts(a: seq<Registration>, r: Registration, b: seq<Registration>, keep: Test)
    ensures Filter(a + [r] + b, keep) == Filter(a, keep) + One(r, keep) + Filter(b, keep)
  {
    FilterConcat(a + [r], b, keep);
    FilterPush(a, r, keep);
  }

  // The parts before, at and behind position i.
  lemma FilterSplit(s: seq<Registration>, i: nat, keep: Test)
    requires i < |s|
    ensures Filter(s, keep) == Filter(s[..i], keep) + One(s[i], keep) + Filter(s[i + 1..], keep)
  {
    Cut(s, i);
    FilterParts(s[..i], s[i], s[i + 1..], keep);
  }

  lemma {:induction false} FilterTwice(s: seq<Registration>, f: Test, g: Test)
    ensures Filter(Filter(s, f), g) == Filter(Filter(s, g), f)
  {
    if s != [] {
      var rest, r := s[..|s| - 1], s[|s| - 1];
      FilterTwice(rest, f, g);
      FilterAfter(rest, r, f, g);
      FilterAfter(rest, r, g, f);
      assert s == rest + [r];
    }
  }

  lemma FilterAfter(rest: seq<Registration>, r: Registration, f: Test, g: Test)
    ensures Filter(Filter(rest + [r], f), g) == Filter(Filter(rest, f), g) + if f(r) then One(r, g) else []
  {
    FilterPush(rest, r, f);
    if f(r) { FilterPush(Filter(rest, f), r, g); } else { assert Filter(rest, f) + [] == Filter(rest, f); }
  }

  lemma {:induction false} FilterAll(s: seq<Registration>, keep: Test)
    requires forall i :: 0 <= i < |s| ==> keep(s[i])
    ensures Filter(s, keep) == s
  {
    if s != [] {
      var rest, r := s[..|s| - 1], s[|s| - 1];
      FilterAll(rest, keep);
      assert s == rest + [r];
    }
  }

  lemma {:induction false} FilterNone(s: seq<Registration>, keep: Test)
    requires forall i :: 0 <= i < |s| ==> !keep(s[i])
    ensures Filter(s, keep) == []
  {
    if s != [] { FilterNone(s[..|s| - 1], keep); }
  }

  lemma {:induction false} FilterSorted(s: seq<Registration>, keep: Test)
    requires Sorted(s)
    ensures Sorted(Filter(s, keep))
  {
    if s != [] {
      var rest, r := s[..|s| - 1], s[|s| - 1];
      FilterSorted(rest, keep);
      var f := Filter(rest, keep);
      forall i | 0 <= i < |f| ensures f[i].priority <= r.priority {
        FilterIn(rest, keep, f[i]);
      }
    }
  }

  // s[i] is number |Filter(s[..i])| of the elements kept.
  lemma FilterAt(s: seq<Registration>, i: nat, keep: Test)
    requires i < |s| && keep(s[i])
    ensures var n := |Filter(s[..i], keep)|;
      n < |Filter(s, keep)| && Filter(s, keep)[n] == s[i]
  {
    FilterSplit(s, i, keep);
  }

  // And every element kept is somewhere.
  lemma {:induction false} FilterIndex(s: seq<Registration>, n: nat, keep: Test) returns (i: nat)
    requires n < |Filter(s, keep)|
    ensures i < |s| && keep(s[i]) && |Filter(s[..i], keep)| == n && s[i] == Filter(s, keep)[n]
  {
    var rest := s[..|s| - 1];
    if n < |Filter(rest, keep)| {
      i := FilterIndex(rest, n, keep);
      assert s[..i] == rest[..i];
    } else {
      i := |s| - 1;
    }
  }

  // Exactly the elements that pass, each as often and in the order they are there: number i of those kept is number
  // at[i] of s.
  lemma {:induction false} FilterIs(s: seq<Registration>, keep: Test) returns (at: seq<nat>)
    ensures |at| == |Filter(s, keep)| && forall i :: 0 <= i < |at| ==> at[i] < |s| && Filter(s, keep)[i] == s[at[i]]
    ensures forall i, j :: 0 <= i < j < |at| ==> at[i] < at[j]
    ensures forall k :: 0 <= k < |s| ==> (k in at <==> keep(s[k]))
  {
    at := [];
    if s != [] {
      var n := |s| - 1;
      var rest := FilterIs(s[..n], keep);
      at := rest + if keep(s[n]) then [n] else [];
    }
  }

  lemma TakeOut(x: seq<Registration>, y: seq<Registration>, z: seq<Registration>)
    ensures y == [] ==> x + y + z == x + z
    ensures |y| == 1 ==> |x| < |x + y + z| && Without(x + y + z, |x|) == x + z
  {
  }

  lemma FilterWithout(s: seq<Registration>, i: nat, keep: Test)
    requires i < |s|
    ensures keep(s[i]) ==> |Filter(s[..i], keep)| < |Filter(s, keep)|
    ensures Filter(Without(s, i), keep) ==
      if keep(s[i]) then Without(Filter(s, keep), |Filter(s[..i], keep)|) else Filter(s, keep)
  {
    FilterSplit(s, i, keep);
    FilterConcat(s[..i], s[i + 1..], keep);
    TakeOut(Filter(s[..i], keep), One(s[i], keep), Filter(s[i + 1..], keep));
  }

  lemma FilterMonotone(s: seq<Registration>, i: nat, j: nat, keep: Test)
    requires i <= j <= |s|
    ensures |Filter(s[..i], keep)| <= |Filter(s[..j], keep)|
  {
    assert s[..j] == s[..i] + s[i..j];
    FilterConcat(s[..i], s[i..j], keep);
  }

  // ---------- Sorting ----------

  lemma InsertSorted(sorted: seq<Registration>, r: Registration)
    requires Sorted(sorted)
    ensures Sorted(Insert(sorted, r))
  {
  }

  lemma MoveBehind(a: seq<Registration>, r: Registration, b: seq<Registration>, p: int)
    requires forall i :: 0 <= i < |b| ==> b[i].priority > r.priority
    ensures Filter(a + [r] + b, HasPriority(p)) == Filter(a + b + [r], HasPriority(p))
  {
    var keep := HasPriority(p);
    FilterParts(a, r, b, keep);
    FilterPush(a + b, r, keep);
    FilterConcat(a, b, keep);
    if r.priority == p { FilterNone(b, keep); }
    Swap(Filter(a, keep), One(r, keep), Filter(b, keep));
  }

  lemma InsertFilter(sorted: seq<Registration>, r: Registration, p: int)
    ensures Filter(Insert(sorted, r), HasPriority(p)) == Filter(sorted, HasPriority(p)) + One(r, HasPriority(p))
  {
    var n := Place(sorted, r);
    MoveBehind(sorted[..n], r, sorted[n..], p);
    assert sorted[..n] + sorted[n..] == sorted;
    FilterPush(sorted, r, HasPriority(p));
  }

  lemma InsertStable(sorted: seq<Registration>, s: seq<Registration>, r: Registration)
    requires IsStableSort(sorted, s)
    ensures IsStableSort(Insert(sorted, r), s + [r])
  {
    InsertSorted(sorted, r);
    forall p ensures Filter(Insert(sorted, r), HasPriority(p)) == Filter(s + [r], HasPriority(p)) {
      InsertFilter(sorted, r, p);
      FilterPush(s, r, HasPriority(p));
    }
  }

  lemma {:induction false} SortIsStable(s: seq<Registration>)
    ensures IsStableSort(Sort(s), s)
  {
    if s != [] {
      var rest, r := s[..|s| - 1], s[|s| - 1];
      SortIsStable(rest);
      InsertStable(Sort(rest), rest, r);
      assert s == rest + [r];
    }
  }

  ghost predicate SamePerPriority(a: seq<Registration>, b: seq<Registration>) {
    forall p :: Filter(a, HasPriority(p)) == Filter(b, HasPriority(p))
  }

  lemma {:induction false} SortedDetermined(a: seq<Registration>, b: seq<Registration>)
    requires Sorted(a) && Sorted(b) && SamePerPriority(a, b)
    ensures a == b
    decreases |a|
  {
    if a == [] {
      if b != [] { LastOfStable(b, a); }
    } else {
      LastOfStable(a, b);
      var a', b' := a[..|a| - 1], b[..|b| - 1];
      forall p ensures Filter(a', HasPriority(p)) == Filter(b', HasPriority(p)) {
        assert Filter(a, HasPriority(p)) == Filter(b, HasPriority(p));
        SameButLast(a, b, HasPriority(p));
      }
      SortedDetermined(a', b');
      assert a == a' + [a[|a| - 1]] && b == b' + [b[|b| - 1]];
    }
  }

  lemma SameButLast(a: seq<Registration>, b: seq<Registration>, keep: Test)
    requires a != [] && b != [] && a[|a| - 1] == b[|b| - 1] && Filter(a, keep) == Filter(b, keep)
    ensures Filter(a[..|a| - 1], keep) == Filter(b[..|b| - 1], keep)
  {
    var x, y := Filter(a[..|a| - 1], keep), Filter(b[..|b| - 1], keep);
    var z := One(a[|a| - 1], keep);
    assert x + z == y + z && |x| == |y|;
    assert x == (x + z)[..|x|] && y == (y + z)[..|y|];
  }

  lemma LastOfStable(a: seq<Registration>, b: seq<Registration>)
    requires Sorted(a) && Sorted(b) && a != [] && SamePerPriority(a, b)
    ensures b != [] && a[|a| - 1] == b[|b| - 1]
  {
    var i := InBoth(a, b, |a| - 1);
    var j := InBoth(b, a, |b| - 1);
    var p := a[|a| - 1].priority;
    assert b[|b| - 1].priority == p;
    LastKept(a, HasPriority(p));
    LastKept(b, HasPriority(p));
    assert Filter(a, HasPriority(p)) == Filter(b, HasPriority(p));
  }

  lemma LastKept(a: seq<Registration>, keep: Test)
    requires a != [] && keep(a[|a| - 1])
    ensures var f := Filter(a, keep);
      f != [] && f[|f| - 1] == a[|a| - 1]
  {
  }

  lemma InBoth(a: seq<Registration>, b: seq<Registration>, i: nat) returns (j: nat)
    requires SamePerPriority(a, b) && i < |a|
    ensures j < |b| && b[j] == a[i]
  {
    var keep := HasPriority(a[i].priority);
    FilterAt(a, i, keep);
    assert Filter(a, keep) == Filter(b, keep);
    j := FilterIndex(b, |Filter(a[..i], keep)|, keep);
  }

  // There is only one stable sort.
  lemma StableSortUnique(a: seq<Registration>, b: seq<Registration>, s: seq<Registration>)
    requires IsStableSort(a, s) && IsStableSort(b, s)
    ensures a == b
  {
    forall p ensures Filter(a, HasPriority(p)) == Filter(b, HasPriority(p)) {
      assert Filter(a, HasPriority(p)) == Filter(s, HasPriority(p)) == Filter(b, HasPriority(p));
    }
    SortedDetermined(a, b);
  }

  // Pushing onto a sorted list and sorting again is sorting everything in order of arrival.
  lemma SortPush(s: seq<Registration>, r: Registration)
    ensures Sort(Sort(s) + [r]) == Sort(s + [r])
  {
    SortIsStable(s);
    SortIsStable(Sort(s) + [r]);
    SortIsStable(s + [r]);
    forall p ensures Filter(Sort(s) + [r], HasPriority(p)) == Filter(s + [r], HasPriority(p)) {
      FilterPush(Sort(s), r, HasPriority(p));
      FilterPush(s, r, HasPriority(p));
    }
    StableSortUnique(Sort(Sort(s) + [r]), Sort(s + [r]), s + [r]);
  }

  lemma SortFilter(s: seq<Registration>, keep: Test)
    ensures Filter(Sort(s), keep) == Sort(Filter(s, keep))
  {
    SortIsStable(s);
    SortIsStable(Filter(s, keep));
    FilterSorted(Sort(s), keep);
    forall p ensures Filter(Filter(Sort(s), keep), HasPriority(p)) == Filter(Filter(s, keep), HasPriority(p)) {
      FilterTwice(Sort(s), keep, HasPriority(p));
      FilterTwice(s, keep, HasPriority(p));
    }
    StableSortUnique(Filter(Sort(s), keep), Sort(Filter(s, keep)), Filter(s, keep));
  }

  // Taking element i out of the sorted list is taking its original out and sorting the rest.
  lemma SortWithout(s: seq<Registration>, i: nat) returns (k: nat)
    requires i < |Sort(s)|
    ensures k < |s| && s[k] == Sort(s)[i] && Without(Sort(s), i) == Sort(Without(s, k))
    ensures SameRank(s, k, i)
  {
    SortIsStable(s);
    var sorted := Sort(s);
    var keep := HasPriority(sorted[i].priority);
    FilterAt(sorted, i, keep);
    assert Filter(sorted, keep) == Filter(s, keep);
    k := FilterIndex(s, |Filter(sorted[..i], keep)|, keep);
    WithoutStable(s, k, i);
    SortIsStable(Without(s, k));
    StableSortUnique(Without(sorted, i), Sort(Without(s, k)), Without(s, k));
  }

  // Sort(s)[i] is s[k]: the same registration, and as many of its priority come before it.
  ghost predicate SameRank(s: seq<Registration>, k: nat, i: nat) {
    && k < |s| && i < |Sort(s)| && Sort(s)[i] == s[k]
    && |Filter(Sort(s)[..i], HasPriority(s[k].priority))| == |Filter(s[..k], HasPriority(s[k].priority))|
  }

  lemma WithoutStable(s: seq<Registration>, k: nat, i: nat)
    requires SameRank(s, k, i)
    ensures IsStableSort(Without(Sort(s), i), Without(s, k))
  {
    SortIsStable(s);
    forall p ensures Filter(Without(Sort(s), i), HasPriority(p)) == Filter(Without(s, k), HasPriority(p)) {
      RankWithout(s, k, i, p);
    }
    WithoutSorted(Sort(s), i);
  }

  lemma WithoutSorted(s: seq<Registration>, i: nat)
    requires Sorted(s) && i < |s|
    ensures Sorted(Without(s, i))
  {
  }

  lemma RankWithout(s: seq<Registration>, k: nat, i: nat, p: int)
    requires SameRank(s, k, i) && Filter(Sort(s), HasPriority(p)) == Filter(s, HasPriority(p))
    ensures Filter(Without(Sort(s), i), HasPriority(p)) == Filter(Without(s, k), HasPriority(p))
  {
    FilterWithout(Sort(s), i, HasPriority(p));
    FilterWithout(s, k, HasPriority(p));
  }

  // What comes before s[k] by priority and then by arrival comes before it in the sorted list.
  lemma EarlierInSort(s: seq<Registration>, m: nat, k: nat, i: nat)
    requires SameRank(s, k, i) && m < |s|
    requires s[m].priority < s[k].priority || (s[m].priority == s[k].priority && m < k)
    ensures s[m] in Sort(s)[..i]
  {
    var x := PlaceInSort(s, m);
    if s[m].priority == s[k].priority { RankOrder(s, m, x, k, i); } else { PriorityOrder(Sort(s), s, x, i); }
    InPrefix(Sort(s), x, i);
  }

  lemma InPrefix(s: seq<Registration>, x: nat, i: nat)
    requires x < i <= |s|
    ensures s[x] in s[..i]
  {
    assert s[..i][x] == s[x];
  }

  lemma PriorityOrder(sorted: seq<Registration>, s: seq<Registration>, x: nat, i: nat)
    requires sorted == Sort(s) && x < |sorted| && i < |sorted| && sorted[x].priority < sorted[i].priority
    ensures x < i
  {
    SortIsStable(s);
  }

  lemma RankOrder(s: seq<Registration>, m: nat, x: nat, k: nat, i: nat)
    requires SameRank(s, m, x) && SameRank(s, k, i) && s[m].priority == s[k].priority && m < k
    ensures x < i
  {
    SmallerRank(s, m, k);
    if i <= x { FilterMonotone(Sort(s), i, x, HasPriority(s[k].priority)); }
  }

  lemma PlaceInSort(s: seq<Registration>, m: nat) returns (x: nat)
    requires m < |s|
    ensures SameRank(s, m, x)
  {
    SortIsStable(s);
    var keep := HasPriority(s[m].priority);
    FilterAt(s, m, keep);
    assert Filter(Sort(s), keep) == Filter(s, keep);
    x := FilterIndex(Sort(s), |Filter(s[..m], keep)|, keep);
  }

  lemma SmallerRank(s: seq<Registration>, m: nat, k: nat)
    requires m < k < |s| && s[m].priority == s[k].priority
    ensures |Filter(s[..m], HasPriority(s[k].priority))| < |Filter(s[..k], HasPriority(s[k].priority))|
  {
    var keep := HasPriority(s[k].priority);
    assert s[..m + 1] == s[..m] + [s[m]];
    FilterPush(s[..m], s[m], keep);
    FilterMonotone(s, m + 1, k, keep);
  }
}
