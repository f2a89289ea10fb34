/** The library calls of the program that the model needs: LINQ's OrderByDescending on scored
    pairs, reading a table in primary-key order, and sums over a set of keys. */
module Collections {

  // ---------------------------------------------------------------- stable descending sort

  ghost predicate Descending<T>(s: seq<(T, int)>) {
    forall i, j :: 0 <= i < j < |s| ==> s[i].1 >= s[j].1
  }

  lemma HigherKeyFirst<T>(s: seq<(T, int)>, i: nat, j: nat)
    requires Descending(s) && i < |s| && j < |s| && s[i].1 > s[j].1
    ensures i < j
  {
  }

  /** The items carrying one key, in the order of the list. */
  function WithKey<T>(s: seq<(T, int)>, key: int): seq<(T, int)> {
    if s == [] then []
    else (if s[0].1 == key then [s[0]] else []) + WithKey(s[1..], key)
  }

  /** Puts x, which stood before every item of s, in its place among the sorted items s. */
  function Place<T>(x: (T, int), s: seq<(T, int)>): seq<(T, int)> {
    if s == [] || s[0].1 <= x.1 then [x] + s
    else [s[0]] + Place(x, s[1..])
  }

  function StableDescending<T>(s: seq<(T, int)>): seq<(T, int)> {
    if s == [] then [] else Place(s[0], StableDescending(s[1..]))
  }

  lemma PlaceHead<T>(x: (T, int), s: seq<(T, int)>)
    ensures Place(x, s) != [] && Place(x, s)[0] == if s == [] || s[0].1 <= x.1 then x else s[0]
  {
  }

  lemma {:induction false} PlaceKeepsItems<T>(x: (T, int), s: seq<(T, int)>)
    ensures multiset(Place(x, s)) == multiset{x} + multiset(s)
  {
    if s == [] || s[0].1 <= x.1 {
      assert multiset([x] + s) == multiset{x} + multiset(s);
    } else {
      PlaceKeepsItems(x, s[1..]);
      assert s == [s[0]] + s[1..];
    }
  }

  lemma {:induction false} PlaceKeepsOrder<T>(x: (T, int), s: seq<(T, int)>)
    requires Descending(s)
    ensures Descending(Place(x, s))
  {
    if s != [] && s[0].1 > x.1 {
      PlaceKeepsOrder(x, s[1..]);
      PlaceKeepsItems(x, s[1..]);
      var rest := Place(x, s[1..]);
      forall j | 0 <= j < |rest| ensures s[0].1 >= rest[j].1 {
        assert rest[j] in multiset(rest);
        assert rest[j] == x || rest[j] in s[1..];
      }
    }
  }

  lemma WithKeyCons<T>(x: (T, int), s: seq<(T, int)>, key: int)
    ensures WithKey([x] + s, key) == (if x.1 == key then [x] else []) + WithKey(s, key)
  {
    assert ([x] + s)[1..] == s;
  }

  lemma {:induction false} PlaceKeepsKeys<T>(x: (T, int), s: seq<(T, int)>, key: int)
    ensures WithKey(Place(x, s), key) == (if x.1 == key then [x] else []) + WithKey(s, key)
  {
    if s == [] || s[0].1 <= x.1 {
      WithKeyCons(x, s, key);
    } else {
      PlaceKeepsKeys(x, s[1..], key);
      WithKeyCons(s[0], Place(x, s[1..]), key);
    }
  }

  /** The sorted list is a permutation of the input, descends by key, and lists the items that
      share a key in their original order. */
  lemma {:induction false} StableDescendingSorts<T>(s: seq<(T, int)>)
    ensures multiset(StableDescending(s)) == multiset(s)
    ensures Descending(StableDescending(s))
    ensures forall key :: WithKey(StableDescending(s), key) == WithKey(s, key)
  {
    if s != [] {
      var rest := StableDescending(s[1..]);
      StableDescendingSorts(s[1..]);
      PlaceKeepsItems(s[0], rest);
      PlaceKeepsOrder(s[0], rest);
      assert s == [s[0]] + s[1..];
      forall key ensures WithKey(StableDescending(s), key) == WithKey(s, key) {
        PlaceKeepsKeys(s[0], rest, key);
      }
    }
  }

  lemma {:induction false} WithKeyFinds<T>(s: seq<(T, int)>, key: int)
    ensures forall x :: x in WithKey(s, key) ==> x in s && x.1 == key
    ensures (exists i :: 0 <= i < |s| && s[i].1 == key) ==> WithKey(s, key) != []
  {
    if s != [] {
      WithKeyFinds(s[1..], key);
    }
  }

  lemma WithKeyTail<T>(s: seq<(T, int)>, key: int)
    requires s != []
    ensures WithKey(s[1..], key) == if s[0].1 == key then WithKey(s, key)[1..] else WithKey(s, key)
  {
  }

  lemma WithKeyFirst<T>(s: seq<(T, int)>)
    requires s != []
    ensures WithKey(s, s[0].1) != [] && WithKey(s, s[0].1)[0] == s[0]
  {
  }

  lemma KeyAtMost<T>(t: seq<(T, int)>, key: int)
    requires Descending(t) && WithKey(t, key) != []
    ensures t != [] && key <= t[0].1
  {
    WithKeyFinds(t, key);
    var x := WithKey(t, key)[0];
    assert x in WithKey(t, key);
    assert x in t && x.1 == key;
  }

  lemma SameHead<T>(s: seq<(T, int)>, t: seq<(T, int)>)
    requires Descending(s) && Descending(t) && s != []
    requires forall key :: WithKey(s, key) == WithKey(t, key)
    ensures t != [] && s[0] == t[0]
  {
    var a := s[0].1;
    WithKeyFirst(s);
    assert WithKey(s, a) == WithKey(t, a);
    KeyAtMost(t, a);
    var b := t[0].1;
    WithKeyFirst(t);
    assert WithKey(s, b) == WithKey(t, b);
    KeyAtMost(s, b);
  }

  /** Those two facts fix the list: there is only one stable descending order. */
  lemma {:induction false} StableOrderUnique<T>(s: seq<(T, int)>, t: seq<(T, int)>)
    requires Descending(s) && Descending(t)
    requires forall key :: WithKey(s, key) == WithKey(t, key)
    ensures s == t
  {
    if s == [] {
      if t != [] { WithKeyFirst(t); }
    } else {
      SameHead(s, t);
      forall key ensures WithKey(s[1..], key) == WithKey(t[1..], key) {
        WithKeyTail(s, key);
        WithKeyTail(t, key);
      }
      StableOrderUnique(s[1..], t[1..]);
      assert s == [s[0]] + s[1..] && t == [t[0]] + t[1..];
    }
  }

  /** Two items with one key stand in the order in which they are listed among the items of that key. */
  lemma {:induction false} WithKeyPair<T>(s: seq<(T, int)>, i: nat, j: nat) returns (a: nat, b: nat)
    requires i < j < |s| && s[i].1 == s[j].1
    ensures var w := WithKey(s, s[i].1); a < b < |w| && w[a] == s[i] && w[b] == s[j]
  {
    var key := s[i].1;
    var them := if s[0].1 == key then 1 else 0;
    WithKeyCons(s[0], s[1..], key);
    assert [s[0]] + s[1..] == s;
    if i > 0 {
      var c, d := WithKeyPair(s[1..], i - 1, j - 1);
      a, b := c + them, d + them;
    } else {
      var d := WithKeyPlaceOf(s[1..], j - 1);
      a, b := 0, d + 1;
    }
  }

  lemma {:induction false} WithKeyPlaceOf<T>(s: seq<(T, int)>, j: nat) returns (b: nat)
    requires j < |s|
    ensures var w := WithKey(s, s[j].1); b < |w| && w[b] == s[j]
  {
    var key := s[j].1;
    WithKeyCons(s[0], s[1..], key);
    assert [s[0]] + s[1..] == s;
    if j > 0 {
      var c := WithKeyPlaceOf(s[1..], j - 1);
      b := c + if s[0].1 == key then 1 else 0;
    } else {
      b := 0;
    }
  }

  lemma {:induction false} PairWithKey<T>(s: seq<(T, int)>, key: int, a: nat, b: nat) returns (i: nat, j: nat)
    requires a < b < |WithKey(s, key)|
    ensures i < j < |s| && s[i] == WithKey(s, key)[a] && s[j] == WithKey(s, key)[b]
  {
    WithKeyCons(s[0], s[1..], key);
    assert [s[0]] + s[1..] == s;
    if s[0].1 != key {
      var c, d := PairWithKey(s[1..], key, a, b);
      i, j := c + 1, d + 1;
    } else if a > 0 {
      var c, d := PairWithKey(s[1..], key, a - 1, b - 1);
      i, j := c + 1, d + 1;
    } else {
      var d := PlaceWithKey(s[1..], key, b - 1);
      i, j := 0, d + 1;
    }
  }

  lemma {:induction false} PlaceWithKey<T>(s: seq<(T, int)>, key: int, b: nat) returns (j: nat)
    requires b < |WithKey(s, key)|
    ensures j < |s| && s[j] == WithKey(s, key)[b]
  {
    WithKeyCons(s[0], s[1..], key);
    assert [s[0]] + s[1..] == s;
    if s[0].1 == key && b == 0 {
      j := 0;
    } else {
      var d := PlaceWithKey(s[1..], key, if s[0].1 == key then b - 1 else b);
      j := d + 1;
    }
  }

  /** The sort keeps the order of items that share a key. */
  lemma StableKeepsPair<T>(s: seq<(T, int)>, i: nat, j: nat) returns (x: nat, y: nat)
    requires var t := StableDescending(s); i < j < |t| && t[i].1 == t[j].1
    ensures x < y < |s| && s[x] == StableDescending(s)[i] && s[y] == StableDescending(s)[j]
  {
    var t := StableDescending(s);
    StableDescendingSorts(s);
    var a, b := WithKeyPair(t, i, j);
    assert WithKey(t, t[i].1) == WithKey(s, t[i].1);
    x, y := PairWithKey(s, t[i].1, a, b);
  }

  /** The items that satisfy p. */
  function Keep<T>(s: seq<(T, int)>, p: T -> bool): (r: seq<(T, int)>)
    ensures forall x :: x in r ==> x in s
  {
    if s == [] then [] else (if p(s[0].0) then [s[0]] else []) + Keep(s[1..], p)
  }

  lemma KeepCons<T>(x: (T, int), s: seq<(T, int)>, p: T -> bool)
    ensures Keep([x] + s, p) == if p(x.0) then [x] + Keep(s, p) else Keep(s, p)
  {
    assert ([x] + s)[1..] == s;
    assert [] + Keep(s, p) == Keep(s, p);
  }

  lemma {:induction false} PlaceKeep<T>(x: (T, int), s: seq<(T, int)>, p: T -> bool)
    requires Descending(s)
    ensures Keep(Place(x, s), p) == if p(x.0) then Place(x, Keep(s, p)) else Keep(s, p)
  {
    if s == [] || s[0].1 <= x.1 {
      var t := Keep(s, p);
      KeepCons(x, s, p);
      if t != [] { assert t[0] in s && t[0].1 <= s[0].1; }
    } else {
      var y, con := s[0], s[1..];
      assert s == [y] + con;
      PlaceKeep(x, con, p);
      PlaceCons(x, y, con);
      PlaceCons(x, y, Keep(con, p));
      KeepCons(y, Place(x, con), p);
      KeepCons(y, con, p);
    }
  }

  lemma PlaceCons<T>(x: (T, int), y: (T, int), s: seq<(T, int)>)
    requires y.1 > x.1
    ensures Place(x, [y] + s) == [y] + Place(x, s)
  {
    assert ([y] + s)[1..] == s;
  }

  /** Sorting and leaving items out can be exchanged. */
  lemma {:induction false} StableKeep<T>(s: seq<(T, int)>, p: T -> bool)
    ensures Keep(StableDescending(s), p) == StableDescending(Keep(s, p))
  {
    if s != [] {
      StableKeep(s[1..], p);
      StableDescendingSorts(s[1..]);
      PlaceKeep(s[0], StableDescending(s[1..]), p);
      KeepCons(s[0], s[1..], p);
      assert s == [s[0]] + s[1..];
    }
  }

  // ---------------------------------------------------------------- lists without repetition

  ghost predicate Distinct<T>(s: seq<T>) { forall i, j :: 0 <= i < j < |s| ==> s[i] != s[j] }

  lemma DistinctPrefix<T>(s: seq<T>, n: nat, truoc: seq<T>)
    requires Distinct(s) && n < |s| && truoc == s[..n]
    ensures s[n] !in truoc
  {
  }

  lemma CountedTwice<T>(s: seq<T>, i: nat, j: nat)
    requires i < j < |s| && s[i] == s[j]
    ensures multiset(s)[s[i]] >= 2
  {
    assert s == s[..j] + [s[j]] + s[j + 1..];
    assert s[i] in s[..j];
    assert multiset(s) == multiset(s[..j]) + multiset{s[j]} + multiset(s[j + 1..]);
  }

  lemma {:induction false} CountedOnce<T>(s: seq<T>, x: T)
    requires Distinct(s)
    ensures multiset(s)[x] <= 1
  {
    if s != [] {
      assert s == [s[0]] + s[1..];
      CountedOnce(s[1..], x);
      if x == s[0] {
        forall j | 0 <= j < |s[1..]| ensures s[1..][j] != x { }
        assert x !in multiset(s[1..]);
      }
    }
  }

  lemma PermutationDistinct<T>(s: seq<T>, t: seq<T>)
    requires Distinct(s) && multiset(s) == multiset(t)
    ensures Distinct(t)
  {
    forall i, j | 0 <= i < j < |t| ensures t[i] != t[j] {
      if t[i] == t[j] {
        CountedTwice(t, i, j);
        CountedOnce(s, t[i]);
      }
    }
  }

  // ---------------------------------------------------------------- lists of lists

  /** The first n pieces, one after another. */
  function Joined<T>(f: nat -> seq<T>, n: nat): seq<T> {
    if n == 0 then [] else Joined(f, n - 1) + f(n - 1)
  }

  lemma {:induction false} JoinedPrefix<T>(f: nat -> seq<T>, i: nat, n: nat)
    requires i <= n
    ensures Joined(f, i) <= Joined(f, n)
  {
    if i < n { JoinedPrefix(f, i, n - 1); }
  }

  lemma {:induction false} JoinedHolds<T>(f: nat -> seq<T>, n: nat, x: T)
    ensures x in Joined(f, n) <==> exists k: nat :: k < n && x in f(k)
  {
    if n > 0 { JoinedHolds(f, n - 1, x); }
  }

  /** Item r of s belongs to number vi[r], and the numbers stand in order. */
  ghost predicate Numbered<T(!new), N(!new)>(s: seq<T>, vi: seq<N>, of: (N, T) -> bool, before: (N, N) -> bool) {
    && |vi| == |s| && (forall r :: 0 <= r < |vi| ==> of(vi[r], s[r]))
    && (forall r, t :: 0 <= r < t < |vi| ==> before(vi[r], vi[t]))
  }

  lemma NumberedAppend<T(!new), N(!new)>(a: seq<T>, va: seq<N>, b: seq<T>, vb: seq<N>,
                                         of: (N, T) -> bool, before: (N, N) -> bool)
    requires Numbered(a, va, of, before) && Numbered(b, vb, of, before)
    requires forall q, p :: q in va && p in vb ==> before(q, p)
    ensures Numbered(a + b, va + vb, of, before)
  {
    var s, vi := a + b, va + vb;
    forall r, t | 0 <= r < t < |vi| ensures before(vi[r], vi[t]) {
      if r < |va| <= t { assert va[r] in va && vb[t - |va|] in vb; }
    }
  }

  /** The same of pieces put one after another. */
  lemma {:induction false} NumberedJoined<T(!new)>(f: nat -> seq<T>, g: nat -> seq<nat>, n: nat,
                                                   of: (nat, T) -> bool, before: (nat, nat) -> bool)
    requires forall k: nat :: k < n ==> Numbered(f(k), g(k), of, before)
    requires forall i: nat, j: nat, q, p :: i < j < n && q in g(i) && p in g(j) ==> before(q, p)
    ensures Numbered(Joined(f, n), Joined(g, n), of, before)
  {
    if n > 0 {
      NumberedJoined(f, g, n - 1, of, before);
      forall q, p | q in Joined(g, n - 1) && p in g(n - 1) ensures before(q, p) { JoinedHolds(g, n - 1, q); }
      NumberedAppend(Joined(f, n - 1), Joined(g, n - 1), f(n - 1), g(n - 1), of, before);
    }
  }

  function Flatten<T>(ss: seq<seq<T>>): seq<T> {
    if ss == [] then [] else Flatten(ss[..|ss| - 1]) + ss[|ss| - 1]
  }

  lemma FlattenAppend<T>(ss: seq<seq<T>>, s: seq<T>)
    ensures Flatten(ss + [s]) == Flatten(ss) + s
  {
    assert (ss + [s])[..|ss|] == ss;
  }

  /** A list whose first item satisfies `dau` and every later one `sau` together with those before it. */
  ghost predicate Grown<T(!new)>(ds: seq<T>, dau: T -> bool, sau: (seq<T>, T) -> bool) {
    if |ds| <= 1 then ds == [] || dau(ds[0])
    else
      var n := |ds| - 1;
      Grown(ds[..n], dau, sau) && sau(ds[..n], ds[n])
  }

  lemma GrownAppend<T(!new)>(ds: seq<T>, x: T, dau: T -> bool, sau: (seq<T>, T) -> bool)
    requires Grown(ds, dau, sau) && if ds == [] then dau(x) else sau(ds, x)
    ensures Grown(ds + [x], dau, sau)
  {
    assert (ds + [x])[..|ds|] == ds;
  }

  lemma {:induction false} GrownAt<T(!new)>(ds: seq<T>, g: nat, dau: T -> bool, sau: (seq<T>, T) -> bool)
    requires Grown(ds, dau, sau) && g < |ds|
    ensures if g == 0 then dau(ds[0]) else sau(ds[..g], ds[g])
  {
    var n := |ds| - 1;
    if g < n {
      GrownAt(ds[..n], g, dau, sau);
      assert ds[..n][..g] == ds[..g];
    }
  }

  lemma AppendAssociative<T>(a: seq<T>, b: seq<T>, c: seq<T>)
    ensures a + (b + c) == (a + b) + c
  {
  }

  // ---------------------------------------------------------------- rows in key order

  predicate IsLeast(x: nat, s: set<nat>) {
    x in s && forall y: nat :: y in s ==> x <= y
  }

  lemma {:induction false} LeastExists(s: set<nat>)
    requires s != {}
    ensures exists x: nat :: IsLeast(x, s)
  {
    var a: nat :| a in s;
    var t := s - {a};
    if t == {} {
      assert forall y: nat :: y in s ==> y == a || y in t;
      assert IsLeast(a, s);
    } else {
      LeastExists(t);
      var b: nat :| IsLeast(b, t);
      assert forall y: nat :: y in s ==> y == a || y in t;
      assert IsLeast(if a <= b then a else b, s);
    }
  }

  function Least(s: set<nat>): (x: nat)
    requires s != {}
    ensures IsLeast(x, s)
  {
    LeastExists(s);
    var x: nat :| IsLeast(x, s);
    x
  }

  ghost predicate Ascending(s: seq<nat>) {
    forall i, j :: 0 <= i < j < |s| ==> s[i] < s[j]
  }

  lemma AscendingPlace(s: seq<nat>, i: nat, j: nat)
    requires Ascending(s) && i < |s| && j < |s|
    ensures s[i] < s[j] <==> i < j
  {
  }

  /** The primary keys of a table, ascending. */
  function SortedKeys(s: set<nat>): (r: seq<nat>)
    ensures Ascending(r)
    ensures forall x :: x in r <==> x in s
    ensures |r| == |s|
  {
    if s == {} then []
    else
      var x := Least(s);
      [x] + SortedKeys(s - {x})
  }

  /** The positions of the items with property p, ascending. */
  function Positions<T>(s: seq<T>, p: T -> bool): (r: seq<nat>)
    ensures Ascending(r)
    ensures forall i: nat :: i in r <==> i < |s| && p(s[i])
  {
    if s == [] then []
    else
      var n := |s| - 1;
      var truoc := Positions(s[..n], p);
      assert forall i :: 0 <= i < |truoc| ==> truoc[i] in truoc;
      truoc + if p(s[n]) then [n] else []
  }

  lemma PositionsAppend<T>(s: seq<T>, x: T, p: T -> bool)
    ensures Positions(s + [x], p) == if p(x) then Positions(s, p) + [|s|] else Positions(s, p)
  {
    assert (s + [x])[..|s|] == s && Positions(s, p) + [] == Positions(s, p);
  }

  /** The items of t are those of s at the given positions. */
  ghost predicate TakenAt<T>(t: seq<T>, s: seq<T>, vi: seq<nat>) {
    |t| == |vi| && forall i :: 0 <= i < |vi| ==> vi[i] < |s| && t[i] == s[vi[i]]
  }

  lemma TakenAtAppend<T>(t: seq<T>, s: seq<T>, x: T, p: T -> bool)
    requires TakenAt(t, s, Positions(s, p))
    ensures TakenAt(if p(x) then t + [x] else t, s + [x], Positions(s + [x], p))
  {
    PositionsAppend(s, x, p);
  }

  // ---------------------------------------------------------------- sums over a table

  /** The sum of the values of a table. */
  ghost function Total(m: map<nat, nat>): nat
    decreases |m|
  {
    if m.Keys == {} then 0
    else
      var k := Least(m.Keys);
      assert (m - {k}).Keys == m.Keys - {k} && |m - {k}| == |m| - 1;
      m[k] + Total(m - {k})
  }

  lemma RemoveShrinks(m: map<nat, nat>, k: nat)
    requires k in m
    ensures (m - {k}).Keys == m.Keys - {k} && |m - {k}| == |m| - 1
  {
  }

  lemma RemoveTwo(m: map<nat, nat>, k: nat, l: nat)
    ensures m - {l} - {k} == m - {k} - {l}
  {
  }

  lemma TotalUnfold(m: map<nat, nat>, l: nat)
    requires m.Keys != {} && l == Least(m.Keys)
    ensures Total(m) == m[l] + Total(m - {l})
  {
  }

  /** The order in which rows are added does not matter. */
  lemma {:induction false} TotalTakeOut(m: map<nat, nat>, k: nat)
    requires k in m
    ensures Total(m) == m[k] + Total(m - {k})
    decreases |m|
  {
    var l := Least(m.Keys);
    TotalUnfold(m, l);
    if k != l {
      RemoveShrinks(m, l);
      RemoveShrinks(m, k);
      TotalTakeOut(m - {l}, k);
      TotalTakeOut(m - {k}, l);
      RemoveTwo(m, k, l);
      assert Total(m) == m[l] + (m[k] + Total(m - {l} - {k}));
    }
  }

  lemma TotalWith(m: map<nat, nat>, n: map<nat, nat>, k: nat)
    requires k in n && k !in m && (forall x: nat :: x in n <==> x == k || x in m)
    requires forall x: nat :: x in m ==> n[x] == m[x]
    ensures Total(n) == n[k] + Total(m)
  {
    TotalTakeOut(n, k);
    assert n - {k} == m;
  }

  /** More rows and larger values never lower the total. */
  lemma {:induction false} TotalMonotone(m: map<nat, nat>, n: map<nat, nat>)
    requires forall k: nat :: k in m ==> k in n && m[k] <= n[k]
    ensures Total(m) <= Total(n)
    decreases |m|
  {
    if m.Keys != {} {
      var k := Least(m.Keys);
      TotalTakeOut(m, k);
      TotalTakeOut(n, k);
      RemoveShrinks(m, k);
      TotalMonotone(m - {k}, n - {k});
    }
  }

  /** One value raised, none lowered: a larger total. */
  lemma TotalStrict(m: map<nat, nat>, n: map<nat, nat>, k: nat)
    requires forall x: nat :: x in m ==> x in n && m[x] <= n[x]
    requires k in m && m[k] < n[k]
    ensures Total(m) < Total(n)
  {
    TotalTakeOut(m, k);
    TotalTakeOut(n, k);
    TotalMonotone(m - {k}, n - {k});
  }

  lemma {:induction false} TotalScaled(m: map<nat, nat>, n: map<nat, nat>, c: nat)
    requires m.Keys == n.Keys && forall k: nat :: k in m ==> n[k] == c * m[k]
    ensures Total(n) == c * Total(m)
    decreases |m|
  {
    if m.Keys != {} {
      var k := Least(m.Keys);
      TotalTakeOut(m, k);
      TotalTakeOut(n, k);
      RemoveShrinks(m, k);
      TotalScaled(m - {k}, n - {k}, c);
      assert c * (m[k] + Total(m - {k})) == c * m[k] + c * Total(m - {k});
    }
  }

  lemma {:induction false} TotalPlus(a: map<nat, nat>, b: map<nat, nat>, c: map<nat, nat>)
    requires a.Keys == b.Keys == c.Keys && forall k: nat :: k in c ==> c[k] == a[k] + b[k]
    ensures Total(c) == Total(a) + Total(b)
    decreases |c|
  {
    if c.Keys != {} {
      var k := Least(c.Keys);
      TotalTakeOut(a, k);
      TotalTakeOut(b, k);
      TotalTakeOut(c, k);
      RemoveShrinks(a, k);
      RemoveShrinks(b, k);
      RemoveShrinks(c, k);
      TotalPlus(a - {k}, b - {k}, c - {k});
    }
  }

  lemma {:induction false} TotalZero(m: map<nat, nat>)
    requires forall k: nat :: k in m ==> m[k] == 0
    ensures Total(m) == 0
    decreases |m|
  {
    if m.Keys != {} {
      var k := Least(m.Keys);
      RemoveShrinks(m, k);
      TotalZero(m - {k});
    }
  }

  lemma TotalOne(m: map<nat, nat>, k: nat)
    requires forall x: nat :: x in m <==> x == k
    ensures Total(m) == m[k]
  {
    TotalTakeOut(m, k);
    TotalZero(m - {k});
  }

  /** Rows with value zero add nothing. */
  lemma {:induction false} TotalPadded(m: map<nat, nat>, n: map<nat, nat>)
    requires m.Keys <= n.Keys
    requires forall k: nat :: k in n ==> n[k] == if k in m then m[k] else 0
    ensures Total(m) == Total(n)
    decreases |m|
  {
    if m.Keys == {} {
      TotalZero(n);
    } else {
      var k := Least(m.Keys);
      TotalTakeOut(m, k);
      TotalTakeOut(n, k);
      RemoveShrinks(m, k);
      RemoveShrinks(n, k);
      TotalPadded(m - {k}, n - {k});
    }
  }
}
