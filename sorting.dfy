/** Stable sorting on a string key, as Python's `list.sort(key=..., reverse=...)` and
    `sorted` do it, with the sequence facts the reports need (sums and maps are
    unchanged by reordering). */
module Sorting {

  /** Python's `<=` on `str`: lexicographic order on code points. */
  predicate LexLe(a: string, b: string)
    decreases |a|
  {
    a == [] || (b != [] && (a[0] < b[0] || (a[0] == b[0] && LexLe(a[1..], b[1..]))))
  }

  lemma {:induction false} LexLeTotal(a: string, b: string)
    ensures LexLe(a, b) || LexLe(b, a)
    decreases |a|
  {
    if a != [] && b != [] && a[0] == b[0] {
      LexLeTotal(a[1..], b[1..]);
    }
  }

  lemma {:induction false} LexLeTransitive(a: string, b: string, c: string)
    requires LexLe(a, b) && LexLe(b, c)
    ensures LexLe(a, c)
    decreases |a|
  {
    if a != [] && a[0] == b[0] && b[0] == c[0] {
      LexLeTransitive(a[1..], b[1..], c[1..]);
    }
  }

  /** `x` may stand before `y` in a list sorted on `key`; `descending` is `reverse=True`. */
  predicate InOrder<T>(key: T -> string, descending: bool, x: T, y: T)
  {
    if descending then LexLe(key(y), key(x)) else LexLe(key(x), key(y))
  }

  lemma InOrderTotal<T>(key: T -> string, descending: bool, x: T, y: T)
    ensures InOrder(key, descending, x, y) || InOrder(key, descending, y, x)
  {
    LexLeTotal(key(x), key(y));
  }

  lemma InOrderTransitive<T>(key: T -> string, descending: bool, x: T, y: T, z: T)
    requires InOrder(key, descending, x, y) && InOrder(key, descending, y, z)
    ensures InOrder(key, descending, x, z)
  {
    if descending {
      LexLeTransitive(key(z), key(y), key(x));
    } else {
      LexLeTransitive(key(x), key(y), key(z));
    }
  }

  predicate SortedOn<T>(s: seq<T>, key: T -> string, descending: bool)
  {
    forall i, j :: 0 <= i < j < |s| ==> InOrder(key, descending, s[i], s[j])
  }

  /** Puts `x` in front of the first element it may precede, so that `x` stays ahead of
      the elements whose key equals its own. */
  function Insert<T>(x: T, s: seq<T>, key: T -> string, descending: bool): (r: seq<T>)
    ensures multiset(r) == multiset(s) + multiset{x}
    ensures |r| == |s| + 1
  {
    if s == [] then [x]
    else if InOrder(key, descending, x, s[0]) then [x] + s
    else
      assert s == [s[0]] + s[1..];
      [s[0]] + Insert(x, s[1..], key, descending)
  }

  lemma {:induction false} InsertSorted<T>(x: T, s: seq<T>, key: T -> string, descending: bool)
    requires SortedOn(s, key, descending)
    ensures SortedOn(Insert(x, s, key, descending), key, descending)
  {
    if s != [] {
      if InOrder(key, descending, x, s[0]) {
        InsertInFront(x, s, key, descending);
      } else {
        var t := Insert(x, s[1..], key, descending);
        InsertSorted(x, s[1..], key, descending);
        InsertBehind(x, s, key, descending);
        assert Insert(x, s, key, descending) == [s[0]] + t;
      }
    }
  }

  /** `x` put in front of a sorted list it may precede. */
  lemma InsertInFront<T>(x: T, s: seq<T>, key: T -> string, descending: bool)
    requires SortedOn(s, key, descending) && s != [] && InOrder(key, descending, x, s[0])
    ensures SortedOn([x] + s, key, descending)
  {
    var r := [x] + s;
    forall j | 1 <= j < |r| ensures InOrder(key, descending, x, r[j]) {
      if j > 1 { InOrderTransitive(key, descending, x, s[0], s[j - 1]); }
    }
  }

  /** When `x` goes behind the head of a sorted list, the head may precede everything
      the insertion into the tail produces. */
  lemma InsertBehind<T>(x: T, s: seq<T>, key: T -> string, descending: bool)
    requires SortedOn(s, key, descending) && s != [] && !InOrder(key, descending, x, s[0])
    ensures forall j :: 0 <= j < |Insert(x, s[1..], key, descending)| ==>
      InOrder(key, descending, s[0], Insert(x, s[1..], key, descending)[j])
  {
    var t := Insert(x, s[1..], key, descending);
    InOrderTotal(key, descending, x, s[0]);
    forall j | 0 <= j < |t| ensures InOrder(key, descending, s[0], t[j]) {
      assert t[j] in multiset(t);
      if t[j] != x {
        assert t[j] in multiset(s[1..]);
        var k :| 0 <= k < |s[1..]| && s[1..][k] == t[j];
        assert s[k + 1] == t[j];
      }
    }
  }

  /** A stable sort on `key`; `descending` models `reverse=True`. */
  function SortOn<T>(s: seq<T>, key: T -> string, descending: bool): (r: seq<T>)
    ensures multiset(r) == multiset(s)
    ensures |r| == |s|
  {
    if s == [] then []
    else
      var rest := SortOn(s[1..], key, descending);
      assert s == [s[0]] + s[1..];
      Insert(s[0], rest, key, descending)
  }

  lemma {:induction false} SortOnSorted<T>(s: seq<T>, key: T -> string, descending: bool)
    ensures SortedOn(SortOn(s, key, descending), key, descending)
  {
    if s != [] {
      SortOnSorted(s[1..], key, descending);
      InsertSorted(s[0], SortOn(s[1..], key, descending), key, descending);
    }
  }

  lemma {:induction false} LexLeReflexive(a: string)
    ensures LexLe(a, a)
    decreases |a|
  {
    if a != [] { LexLeReflexive(a[1..]); }
  }

  /** The elements whose key is `k`. */
  function KeyIs<T>(key: T -> string, k: string): T -> bool
  {
    (x: T) => key(x) == k
  }

  /** Inserting `x` adds it in front of the elements of its own key and leaves the
      order among every key's elements as it was. */
  lemma {:induction false} InsertStable<T>(x: T, s: seq<T>, key: T -> string, descending: bool, k: string)
    ensures Filter(KeyIs(key, k), Insert(x, s, key, descending))
      == (if key(x) == k then [x] else []) + Filter(KeyIs(key, k), s)
  {
    if s == [] {
      assert Insert(x, s, key, descending) == [] + [x];
    } else if InOrder(key, descending, x, s[0]) {
      FilterCons(KeyIs(key, k), x, s);
    } else {
      InsertStable(x, s[1..], key, descending, k);
      InsertBehindStable(x, s, key, descending, k);
    }
  }

  /** The step of `InsertStable` where `x` goes behind the head: the head's key differs
      from `x`'s, so at most one of the two lands in front. */
  lemma InsertBehindStable<T>(x: T, s: seq<T>, key: T -> string, descending: bool, k: string)
    requires s != [] && !InOrder(key, descending, x, s[0])
    requires Filter(KeyIs(key, k), Insert(x, s[1..], key, descending))
      == (if key(x) == k then [x] else []) + Filter(KeyIs(key, k), s[1..])
    ensures Filter(KeyIs(key, k), Insert(x, s, key, descending))
      == (if key(x) == k then [x] else []) + Filter(KeyIs(key, k), s)
  {
    var p := KeyIs(key, k);
    var t := Insert(x, s[1..], key, descending);
    var mine := if key(x) == k then [x] else [];
    var head := if p(s[0]) then [s[0]] else [];
    assert Insert(x, s, key, descending) == [s[0]] + t;
    LexLeReflexive(key(x));
    assert head == [] || mine == [];
    FilterCons(p, s[0], t);
    FilterHead(p, s);
    FrontSwap(head, mine, Filter(p, s[1..]));
  }

  lemma FrontSwap<T>(a: seq<T>, b: seq<T>, rest: seq<T>)
    requires a == [] || b == []
    ensures a + (b + rest) == b + (a + rest)
  {
    if a == [] {
      assert a + (b + rest) == b + rest;
      assert a + rest == rest;
    } else {
      assert b + (a + rest) == a + rest;
      assert b + rest == rest;
    }
  }

  /** `sorted` is stable: the elements of any one key keep their original order. */
  lemma {:induction false} SortOnStable<T>(s: seq<T>, key: T -> string, descending: bool, k: string)
    ensures Filter(KeyIs(key, k), SortOn(s, key, descending)) == Filter(KeyIs(key, k), s)
  {
    if s != [] {
      SortOnStable(s[1..], key, descending, k);
      InsertStable(s[0], SortOn(s[1..], key, descending), key, descending, k);
      FilterHead(KeyIs(key, k), s);
    }
  }

  lemma {:induction false} FilterConcat<T>(p: T -> bool, a: seq<T>, b: seq<T>)
    ensures Filter(p, a + b) == Filter(p, a) + Filter(p, b)
    decreases |b|
  {
    if b == [] {
      assert a + b == a;
    } else {
      var init, last := b[..|b| - 1], b[|b| - 1];
      assert b == init + [last];
      assert a + b == (a + init) + [last];
      FilterSnoc(p, a + init, last);
      FilterSnoc(p, init, last);
      FilterConcat(p, a, init);
    }
  }

  lemma FilterHead<T>(p: T -> bool, s: seq<T>)
    requires s != []
    ensures Filter(p, s) == (if p(s[0]) then [s[0]] else []) + Filter(p, s[1..])
  {
    FilterCons(p, s[0], s[1..]);
    assert [s[0]] + s[1..] == s;
  }

  lemma FilterCons<T>(p: T -> bool, x: T, s: seq<T>)
    ensures Filter(p, [x] + s) == (if p(x) then [x] else []) + Filter(p, s)
  {
    FilterConcat(p, [x], s);
    assert [x] == [] + [x];
    FilterSnoc(p, [], x);
  }

  /** `list[:n]`. */
  function Take<T>(s: seq<T>, n: nat): (r: seq<T>)
    ensures |r| == if |s| < n then |s| else n
    ensures r <= s
  {
    if |s| < n then s else s[..n]
  }

  function Map<T, U>(f: T -> U, s: seq<T>): (r: seq<U>)
    ensures |r| == |s|
  {
    if s == [] then [] else [f(s[0])] + Map(f, s[1..])
  }

  lemma {:induction false} MapAt<T, U>(f: T -> U, s: seq<T>, i: nat)
    requires i < |s|
    ensures Map(f, s)[i] == f(s[i])
  {
    if i > 0 { MapAt(f, s[1..], i - 1); }
  }

  lemma MapSnoc<T, U>(f: T -> U, s: seq<T>, i: nat)
    requires i < |s|
    ensures Map(f, s[..i + 1]) == Map(f, s[..i]) + [f(s[i])]
  {
    assert s[..i + 1] == s[..i] + [s[i]];
    MapConcat(f, s[..i], [s[i]]);
  }

  function Sum<T>(f: T -> nat, s: seq<T>): nat
  {
    if s == [] then 0 else f(s[0]) + Sum(f, s[1..])
  }

  lemma {:induction false} MapConcat<T, U>(f: T -> U, a: seq<T>, b: seq<T>)
    ensures Map(f, a + b) == Map(f, a) + Map(f, b)
  {
    if a == [] {
      assert a + b == b;
    } else {
      assert (a + b)[1..] == a[1..] + b;
      MapConcat(f, a[1..], b);
    }
  }

  lemma {:induction false} SumConcat<T>(f: T -> nat, a: seq<T>, b: seq<T>)
    ensures Sum(f, a + b) == Sum(f, a) + Sum(f, b)
  {
    if a == [] {
      assert a + b == b;
    } else {
      assert (a + b)[1..] == a[1..] + b;
      SumConcat(f, a[1..], b);
    }
  }

  /** Removing the element at position `k` leaves the multiset minus that element. */
  lemma RemoveAt<T>(b: seq<T>, k: nat)
    requires k < |b|
    ensures b == b[..k] + [b[k]] + b[k + 1..]
    ensures multiset(b[..k] + b[k + 1..]) == multiset(b) - multiset{b[k]}
  {
    assert b == b[..k] + [b[k]] + b[k + 1..];
  }

  /** Where the first element of `a` sits in a permutation `b` of it; what remains on
      both sides is again a permutation. */
  lemma RemoveFirst<T>(a: seq<T>, b: seq<T>) returns (k: nat)
    requires a != [] && multiset(a) == multiset(b)
    ensures k < |b| && b[k] == a[0]
    ensures b == b[..k] + [b[k]] + b[k + 1..]
    ensures multiset(a[1..]) == multiset(b[..k] + b[k + 1..])
  {
    assert a[0] in multiset(b);
    k :| 0 <= k < |b| && b[k] == a[0];
    RemoveAt(b, k);
    assert a == [a[0]] + a[1..];
    assert multiset(a) == multiset{a[0]} + multiset(a[1..]);
  }

  /** Reordering a sequence changes neither the sum of a measure over it ... */
  lemma {:induction false} SumPermutation<T>(f: T -> nat, a: seq<T>, b: seq<T>)
    requires multiset(a) == multiset(b)
    ensures Sum(f, a) == Sum(f, b)
    decreases |a|
  {
    if a == [] {
      assert |multiset(b)| == 0;
    } else {
      var k := RemoveFirst(a, b);
      var left, right := b[..k], b[k + 1..];
      SumPermutation(f, a[1..], left + right);
      assert b == left + ([b[k]] + right);
      SumSplit(f, left, b[k], right);
    }
  }

  lemma SumSplit<T>(f: T -> nat, left: seq<T>, x: T, right: seq<T>)
    ensures Sum(f, left + ([x] + right)) == Sum(f, left + right) + f(x)
  {
    SumConcat(f, left, [x] + right);
    SumConcat(f, [x], right);
    SumConcat(f, left, right);
    assert Sum(f, [x]) == f(x);
  }

  /** ... nor the multiset of what a map over it produces. */
  lemma {:induction false} MapPermutation<T, U>(f: T -> U, a: seq<T>, b: seq<T>)
    requires multiset(a) == multiset(b)
    ensures multiset(Map(f, a)) == multiset(Map(f, b))
    decreases |a|
  {
    if a == [] {
      assert |multiset(b)| == 0;
    } else {
      var k := RemoveFirst(a, b);
      var left, right := b[..k], b[k + 1..];
      MapPermutation(f, a[1..], left + right);
      assert b == left + ([b[k]] + right);
      MapSplit(f, left, b[k], right);
      assert Map(f, a) == [f(a[0])] + Map(f, a[1..]);
    }
  }

  lemma MapSplit<T, U>(f: T -> U, left: seq<T>, x: T, right: seq<T>)
    ensures multiset(Map(f, left + ([x] + right))) == multiset(Map(f, left + right)) + multiset{f(x)}
  {
    MapConcat(f, left, [x] + right);
    MapConcat(f, [x], right);
    MapConcat(f, left, right);
    assert Map(f, [x]) == [f(x)];
  }

  /** An element that sits beyond position `n` of a sorted list is never ahead of any
      element of its first `n`: `sorted(...)[:n]` keeps the leading elements. */
  lemma TakeKeepsLeaders<T>(s: seq<T>, key: T -> string, descending: bool, n: nat, x: T)
    requires SortedOn(s, key, descending)
    requires x in multiset(s) - multiset(Take(s, n))
    ensures forall i :: 0 <= i < |Take(s, n)| ==> InOrder(key, descending, Take(s, n)[i], x)
  {
    var t := Take(s, n);
    if |s| < n {
      assert false;
    } else {
      assert s == t + s[n..];
      assert multiset(s) == multiset(t) + multiset(s[n..]);
      assert x in multiset(s[n..]);
      var k :| 0 <= k < |s[n..]| && s[n..][k] == x;
      assert s[n + k] == x;
    }
  }

  /** The elements of `s` that satisfy `p`, in order (a comprehension with an `if`). */
  function Filter<T>(p: T -> bool, s: seq<T>): (r: seq<T>)
    ensures |r| <= |s|
  {
    if s == [] then [] else Filter(p, s[..|s| - 1]) + (if p(s[|s| - 1]) then [s[|s| - 1]] else [])
  }

  lemma FilterSnoc<T>(p: T -> bool, s: seq<T>, x: T)
    ensures Filter(p, s + [x]) == Filter(p, s) + (if p(x) then [x] else [])
  {
    assert (s + [x])[..|s|] == s;
  }

  lemma {:induction false} FilterMember<T>(p: T -> bool, s: seq<T>, x: T)
    ensures x in Filter(p, s) <==> x in s && p(x)
  {
    if s != [] {
      FilterMember(p, s[..|s| - 1], x);
      assert s == s[..|s| - 1] + [s[|s| - 1]];
    }
  }

  /** What `f` maps a member of `s` to is a member of the map. */
  lemma {:induction false} MapMember<T, U>(f: T -> U, s: seq<T>, x: T)
    requires x in s
    ensures f(x) in Map(f, s)
  {
    var i :| 0 <= i < |s| && s[i] == x;
    MapAt(f, s, i);
  }

  /** Every member of a map is the image of some member of `s`. */
  lemma MapSource<T, U>(f: T -> U, s: seq<T>, y: U) returns (x: T)
    requires y in Map(f, s)
    ensures x in s && y == f(x)
  {
    var i :| 0 <= i < |Map(f, s)| && Map(f, s)[i] == y;
    MapAt(f, s, i);
    x := s[i];
  }

  /** Appending an element that every earlier element may precede keeps a list sorted. */
  lemma SortedSnoc<T>(s: seq<T>, x: T, key: T -> string, descending: bool)
    requires SortedOn(s, key, descending)
    requires forall y :: y in s ==> InOrder(key, descending, y, x)
    ensures SortedOn(s + [x], key, descending)
  {
    var r := s + [x];
    forall i, j | 0 <= i < j < |r| ensures InOrder(key, descending, r[i], r[j]) {
      if j == |s| { assert r[i] == s[i]; assert r[i] in s; }
    }
  }

  /** Dropping elements keeps a sorted list sorted. */
  lemma {:induction false} FilterSorted<T>(p: T -> bool, s: seq<T>, key: T -> string, descending: bool)
    requires SortedOn(s, key, descending)
    ensures SortedOn(Filter(p, s), key, descending)
  {
    if s != [] {
      var init, last := s[..|s| - 1], s[|s| - 1];
      assert SortedOn(init, key, descending);
      FilterSorted(p, init, key, descending);
      if p(last) {
        forall y | y in Filter(p, init) ensures InOrder(key, descending, y, last) {
          FilterMember(p, init, y);
          assert y in init;
          var i :| 0 <= i < |init| && init[i] == y;
          assert s[i] == y;
        }
        SortedSnoc(Filter(p, init), last, key, descending);
      }
    }
  }

  /** A loop that appends `f(e)` for every element `e` of `s` that passes the test `p`. */
  method AppendMapped<T, U>(acc: seq<U>, s: seq<T>, p: T -> bool, f: T -> U)
    returns (out: seq<U>)
    ensures out == acc + Map(f, Filter(p, s))
  {
    out := acc;
    for i := 0 to |s|
      invariant out == acc + Map(f, Filter(p, s[..i]))
    {
      FilterMapSnoc(p, f, s, i);
      if p(s[i]) {
        AppendAssoc(acc, Map(f, Filter(p, s[..i])), [f(s[i])]);
        out := out + [f(s[i])];
      }
    }
    assert s[..|s|] == s;
  }

  /** The mapped survivors of the first `i + 1` elements. */
  lemma FilterMapSnoc<T, U>(p: T -> bool, f: T -> U, s: seq<T>, i: nat)
    requires i < |s|
    ensures Map(f, Filter(p, s[..i + 1])) == Map(f, Filter(p, s[..i])) + (if p(s[i]) then [f(s[i])] else [])
  {
    assert s[..i + 1] == s[..i] + [s[i]];
    FilterSnoc(p, s[..i], s[i]);
    MapConcat(f, Filter(p, s[..i]), if p(s[i]) then [s[i]] else []);
    assert Map(f, [s[i]]) == [f(s[i])];
  }

  lemma AppendAssoc<T>(a: seq<T>, b: seq<T>, c: seq<T>)
    ensures (a + b) + c == a + (b + c)
  {
  }

  /** Handing the next part from the pending output to the output gathered so far: the
      step of a loop that appends each part in turn. */
  lemma AppendShift<T>(before: seq<T>, part: seq<T>, rest: seq<T>, pending: seq<T>, whole: seq<T>)
    requires pending == part + rest
    requires before + pending == whole
    ensures (before + part) + rest == whole
  {
    assert (before + part) + rest == before + (part + rest);
  }

  /** The parts `part(x, n)` of the elements in turn, where `n` counts what the earlier
      parts produced, starting from `base`. */
  function Chain<T, U>(part: (T, nat) -> seq<U>, xs: seq<T>, base: nat): seq<U>
  {
    if xs == [] then [] else
      var init := Chain(part, xs[..|xs| - 1], base);
      init + part(xs[|xs| - 1], base + |init|)
  }

  /** The step of a loop that appends each element's part in turn. */
  lemma ChainSnoc<T, U>(part: (T, nat) -> seq<U>, xs: seq<T>, i: nat, base: nat)
    requires i < |xs|
    ensures Chain(part, xs[..i + 1], base)
      == Chain(part, xs[..i], base) + part(xs[i], base + |Chain(part, xs[..i], base)|)
  {
    assert xs[..i + 1][..i] == xs[..i];
  }

  /** Some element of `s` passes the test `p`. */
  predicate Any<T>(p: T -> bool, s: seq<T>)
  {
    s != [] && (Any(p, s[..|s| - 1]) || p(s[|s| - 1]))
  }

  lemma AnySnoc<T>(p: T -> bool, s: seq<T>, i: nat)
    requires i < |s|
    ensures Any(p, s[..i + 1]) == (Any(p, s[..i]) || p(s[i]))
  {
    assert s[..i + 1][..i] == s[..i];
  }

  lemma {:induction false} AnyExists<T>(p: T -> bool, s: seq<T>)
    ensures Any(p, s) <==> exists i :: 0 <= i < |s| && p(s[i])
  {
    if s != [] {
      var init := s[..|s| - 1];
      AnyExists(p, init);
      if exists i :: 0 <= i < |init| && p(init[i]) {
        var i :| 0 <= i < |init| && p(init[i]);
        assert s[i] == init[i];
      }
      if exists i :: 0 <= i < |s| && p(s[i]) {
        var i :| 0 <= i < |s| && p(s[i]);
        if i < |init| { assert init[i] == s[i]; }
      }
    }
  }
}
