/** The sequence operations the program reaches through JavaScript's Array
    methods: `filter` (and its counting idiom `filter(...).length`), `reduce`
    into per-key buckets, and `sort` with a comparator. */
module Base {

  datatype Option<+T> = None | Some(value: T)

  /** The outcome of a call that can throw: its value, or the error message. */
  datatype Result<+T> = Ok(value: T) | Err(message: string)

  /** `Array.prototype.filter`: the elements satisfying `p`, in input order. */
  function Filter<T>(s: seq<T>, p: T -> bool): (r: seq<T>)
    ensures |r| <= |s|
  {
    if s == [] then []
    else
      assert s == [s[0]] + s[1..];
      (if p(s[0]) then [s[0]] else []) + Filter(s[1..], p)
  }

  /** Every kept element is in the input and passes `p`, and every element
      of the input that passes `p` is kept. */
  lemma FilterMembers<T>(s: seq<T>, p: T -> bool)
    ensures forall i :: 0 <= i < |Filter(s, p)| ==> Filter(s, p)[i] in s && p(Filter(s, p)[i])
    ensures forall i :: 0 <= i < |s| && p(s[i]) ==> s[i] in Filter(s, p)
  {
    FilterSound(s, p);
    FilterComplete(s, p);
  }

  /** Only elements of the input that pass `p` are kept. */
  lemma {:induction false} FilterSound<T>(s: seq<T>, p: T -> bool)
    ensures forall i :: 0 <= i < |Filter(s, p)| ==> Filter(s, p)[i] in s && p(Filter(s, p)[i])
  {
    if s != [] {
      var t := s[1..];
      FilterSound(t, p);
      var head := if p(s[0]) then [s[0]] else [];
      var rest := Filter(t, p);
      var r := Filter(s, p);
      assert r == head + rest;
      forall i | 0 <= i < |r| ensures r[i] in s && p(r[i]) {
        if i >= |head| {
          assert r[i] == rest[i - |head|];
          var k :| 0 <= k < |t| && t[k] == rest[i - |head|];
          assert s[k + 1] == r[i];
        }
      }
    }
  }

  /** Every element of the input that passes `p` is kept. */
  lemma {:induction false} FilterComplete<T>(s: seq<T>, p: T -> bool)
    ensures forall i :: 0 <= i < |s| && p(s[i]) ==> s[i] in Filter(s, p)
  {
    if s != [] {
      var t := s[1..];
      FilterComplete(t, p);
      var head := if p(s[0]) then [s[0]] else [];
      var rest := Filter(t, p);
      var r := Filter(s, p);
      assert r == head + rest;
      forall i | 0 <= i < |s| && p(s[i]) ensures s[i] in r {
        if i == 0 {
          assert r[0] == s[0];
        } else {
          assert s[i] == t[i - 1];
          var k :| 0 <= k < |rest| && rest[k] == s[i];
          assert r[|head| + k] == s[i];
        }
      }
    }
  }

  /** The kept elements are a sub-multiset of the input. */
  lemma {:induction false} FilterSubMultiset<T>(s: seq<T>, p: T -> bool)
    ensures multiset(Filter(s, p)) <= multiset(s)
  {
    if s != [] {
      var t := s[1..];
      FilterSubMultiset(t, p);
      assert s == [s[0]] + t;
      assert multiset(s) == multiset{s[0]} + multiset(t);
      assert Filter(s, p) == (if p(s[0]) then [s[0]] else []) + Filter(t, p);
    }
  }

  /** Filtering distributes over concatenation: the relative order of the kept
      elements is the order of the input. */
  lemma {:induction false} FilterConcat<T>(a: seq<T>, b: seq<T>, p: T -> bool)
    ensures Filter(a + b, p) == Filter(a, p) + Filter(b, p)
  {
    if a == [] {
      assert a + b == b;
    } else {
      assert (a + b)[0] == a[0] && (a + b)[1..] == a[1..] + b;
      FilterConcat(a[1..], b, p);
      assert Filter(a, p) == (if p(a[0]) then [a[0]] else []) + Filter(a[1..], p);
    }
  }

  /** Appending one element appends it to the result exactly when it passes. */
  lemma FilterSnoc<T>(s: seq<T>, x: T, p: T -> bool)
    ensures Filter(s + [x], p) == Filter(s, p) + (if p(x) then [x] else [])
  {
    FilterConcat(s, [x], p);
    FilterSingleton(x, p);
  }

  /** The filter of a one-element sequence. */
  lemma FilterSingleton<T>(x: T, p: T -> bool)
    ensures Filter([x], p) == (if p(x) then [x] else [])
  {
    assert [x][1..] == [];
    assert Filter([x], p) == (if p(x) then [x] else []) + Filter([], p);
  }

  /** A filter that keeps every element is the identity. */
  lemma {:induction false} FilterKeepsAll<T>(s: seq<T>, p: T -> bool)
    requires forall i :: 0 <= i < |s| ==> p(s[i])
    ensures Filter(s, p) == s
  {
    if s != [] {
      var t := s[1..];
      assert forall i :: 0 <= i < |t| ==> t[i] == s[i + 1];
      FilterKeepsAll(t, p);
      assert Filter(s, p) == (if p(s[0]) then [s[0]] else []) + Filter(t, p);
    }
  }

  /** A filter that keeps nothing yields the empty sequence. */
  lemma {:induction false} FilterKeepsNone<T>(s: seq<T>, p: T -> bool)
    requires forall i :: 0 <= i < |s| ==> !p(s[i])
    ensures Filter(s, p) == []
  {
    if s != [] {
      var t := s[1..];
      assert forall i :: 0 <= i < |t| ==> t[i] == s[i + 1];
      FilterKeepsNone(t, p);
    }
  }

  /** Filtering twice with the same predicate is filtering once. */
  lemma FilterIdempotent<T>(s: seq<T>, p: T -> bool)
    ensures Filter(Filter(s, p), p) == Filter(s, p)
  {
    var r := Filter(s, p);
    FilterMembers(s, p);
    forall i | 0 <= i < |r| ensures p(r[i]) {
      assert r[i] in r;
      assert r[i] in s && p(r[i]);
    }
    FilterKeepsAll(r, p);
  }

  /** A predicate and its negation split a sequence into two parts that
      together hold every element exactly as often as the input. */
  lemma {:induction false} FilterPartition<T>(s: seq<T>, p: T -> bool, q: T -> bool)
    requires forall x :: q(x) == !p(x)
    ensures multiset(Filter(s, p)) + multiset(Filter(s, q)) == multiset(s)
  {
    if s != [] {
      var t := s[1..];
      FilterPartition(t, p, q);
      assert s == [s[0]] + t;
      assert multiset(s) == multiset{s[0]} + multiset(t);
      if p(s[0]) {
        assert Filter(s, p) == [s[0]] + Filter(t, p);
        assert Filter(s, q) == Filter(t, q);
      } else {
        assert Filter(s, p) == Filter(t, p);
        assert Filter(s, q) == [s[0]] + Filter(t, q);
      }
    }
  }

  /** Filtering keeps an order: if `s` is ordered by `le`, so is any filter of it. */
  lemma FilterKeepsOrder<T>(s: seq<T>, p: T -> bool, le: (T, T) -> bool)
    requires SortedBy(s, le)
    ensures SortedBy(Filter(s, p), le)
  {
    if s != [] {
      FilterKeepsOrder(s[1..], p, le);
      var rest := Filter(s[1..], p);
      FilterMembers(s[1..], p);
      forall j | 0 <= j < |rest| ensures le(s[0], rest[j]) {
        assert rest[j] in rest;
        var k :| 0 <= k < |s[1..]| && s[1..][k] == rest[j];
        assert s[k + 1] == rest[j];
      }
    }
  }

  /** An element that fails `p` makes the filtered sequence shorter. */
  lemma {:induction false} FilterShorter<T>(s: seq<T>, p: T -> bool, i: int)
    requires 0 <= i < |s| && !p(s[i])
    ensures |Filter(s, p)| < |s|
  {
    if i > 0 {
      FilterShorter(s[1..], p, i - 1);
    }
  }

  /** The number of elements satisfying `p` (the `filter(p).length` idiom). */
  function Count<T>(s: seq<T>, p: T -> bool): (n: nat)
    ensures n <= |s|
    ensures n == 0 <==> forall i :: 0 <= i < |s| ==> !p(s[i])
  {
    FilterEmptyIffNoneKept(s, p);
    |Filter(s, p)|
  }

  /** The filter is empty exactly when no element passes `p`. */
  lemma FilterEmptyIffNoneKept<T>(s: seq<T>, p: T -> bool)
    ensures Filter(s, p) == [] <==> forall i :: 0 <= i < |s| ==> !p(s[i])
  {
    FilterMembers(s, p);
    if forall i :: 0 <= i < |s| ==> !p(s[i]) {
      FilterKeepsNone(s, p);
    }
  }

  /** `Array.prototype.some`: some element satisfies `p`. */
  predicate Any<T>(s: seq<T>, p: T -> bool)
    ensures Any(s, p) <==> exists x :: x in s && p(x)
  {
    exists i :: 0 <= i < |s| && p(s[i])
  }

  /** Appending an element adds exactly that element's test. */
  lemma AnyAppend<T>(s: seq<T>, x: T, p: T -> bool)
    ensures Any(s + [x], p) <==> Any(s, p) || p(x)
  {
    var t := s + [x];
    assert t[|s|] == x;
    if Any(s, p) {
      var i :| 0 <= i < |s| && p(s[i]);
      assert t[i] == s[i];
    }
    if Any(t, p) && !p(x) {
      var i :| 0 <= i < |t| && p(t[i]);
      assert i != |s|;
      assert t[i] == s[i];
    }
  }

  /** Dropping elements that fail `q` keeps the answer when every element
      satisfying `p` also satisfies `q`. */
  lemma AnyFilter<T>(s: seq<T>, p: T -> bool, q: T -> bool)
    requires forall x :: p(x) ==> q(x)
    ensures Any(s, p) <==> Any(Filter(s, q), p)
  {
    var r := Filter(s, q);
    FilterMembers(s, q);
    if Any(s, p) {
      var i :| 0 <= i < |s| && p(s[i]);
      assert s[i] in r;
      var j :| 0 <= j < |r| && r[j] == s[i];
    }
    if Any(r, p) {
      var j :| 0 <= j < |r| && p(r[j]);
      assert r[j] in s;
      var i :| 0 <= i < |s| && s[i] == r[j];
    }
  }

  /** A sequence whose elements are `f(0), f(1), ...` stays so when
      `f(|s|)` is appended. */
  lemma AppendIndexed<T>(s: seq<T>, x: T, f: nat -> T)
    requires forall i :: 0 <= i < |s| ==> s[i] == f(i)
    requires x == f(|s|)
    ensures forall i :: 0 <= i < |s| + 1 ==> (s + [x])[i] == f(i)
  {
  }

  /** `reduce((sum, x) => sum + f(x), 0)`. */
  function SumOf<T>(s: seq<T>, f: T -> int): (sum: int)
    ensures (forall i :: 0 <= i < |s| ==> f(s[i]) >= 0) ==> sum >= 0
    ensures (forall i :: 0 <= i < |s| ==> f(s[i]) == 0) ==> sum == 0
  {
    if s == [] then 0 else SumOf(s[..|s| - 1], f) + f(s[|s| - 1])
  }

  /** A sum over a concatenation is the sum of the sums. */
  lemma {:induction false} SumOfConcat<T>(a: seq<T>, b: seq<T>, f: T -> int)
    ensures SumOf(a + b, f) == SumOf(a, f) + SumOf(b, f)
  {
    if b == [] {
      assert a + b == a;
    } else {
      assert (a + b)[..|a + b| - 1] == a + b[..|b| - 1];
      SumOfConcat(a, b[..|b| - 1], f);
    }
  }

  /** The sum is monotone in the summand. */
  lemma {:induction false} SumOfMonotone<T>(s: seq<T>, f: T -> int, g: T -> int)
    requires forall i :: 0 <= i < |s| ==> f(s[i]) <= g(s[i])
    ensures SumOf(s, f) <= SumOf(s, g)
  {
    if s != [] {
      SumOfMonotone(s[..|s| - 1], f, g);
    }
  }

  /** `Array.prototype.flat()` of a list of lists: the lists one after another. */
  function Flatten<T>(ss: seq<seq<T>>): (r: seq<T>)
    ensures forall i :: 0 <= i < |r| ==> exists j :: 0 <= j < |ss| && r[i] in ss[j]
    ensures forall j, k :: 0 <= j < |ss| && 0 <= k < |ss[j]| ==> ss[j][k] in r
  {
    if ss == [] then [] else Flatten(ss[..|ss| - 1]) + ss[|ss| - 1]
  }

  /** A filter that keeps nothing of any part keeps nothing of the whole. */
  lemma {:induction false} FilterFlattenNone<T>(ss: seq<seq<T>>, p: T -> bool)
    requires forall j :: 0 <= j < |ss| ==> Filter(ss[j], p) == []
    ensures Filter(Flatten(ss), p) == []
  {
    if ss != [] {
      FilterFlattenNone(ss[..|ss| - 1], p);
      FilterConcat(Flatten(ss[..|ss| - 1]), ss[|ss| - 1], p);
    }
  }

  /** When a filter keeps all of part `i` and nothing of the other parts, the
      filter of the whole is part `i`. */
  lemma {:induction false} FilterFlattenSingle<T>(ss: seq<seq<T>>, p: T -> bool, i: int)
    requires 0 <= i < |ss|
    requires Filter(ss[i], p) == ss[i]
    requires forall j :: 0 <= j < |ss| && j != i ==> Filter(ss[j], p) == []
    ensures Filter(Flatten(ss), p) == ss[i]
  {
    var init := ss[..|ss| - 1];
    var last := ss[|ss| - 1];
    assert Flatten(ss) == Flatten(init) + last;
    FilterConcat(Flatten(init), last, p);
    if i == |ss| - 1 {
      assert forall j :: 0 <= j < |init| ==> init[j] == ss[j];
      FilterFlattenNone(init, p);
      assert Filter(Flatten(ss), p) == [] + ss[i];
    } else {
      assert forall j :: 0 <= j < |init| ==> init[j] == ss[j];
      FilterFlattenSingle(init, p, i);
      assert Filter(Flatten(ss), p) == ss[i] + [];
    }
  }

  // ---------------------------------------------------------------------
  // Grouping into buckets (a `reduce` pushing into `acc[key(x)]`)

  /** The bucket for key `k`: the items whose key is `k`, in input order. */
  function Bucket<T, K(==)>(items: seq<T>, key: T -> K, k: K): seq<T>
  {
    if items == [] then []
    else
      var last := items[|items| - 1];
      Bucket(items[..|items| - 1], key, k) + (if key(last) == k then [last] else [])
  }

  /** The test "has key `k`" as a predicate on items. */
  function HasKey<T, K(==)>(key: T -> K, k: K): T -> bool
  {
    x => key(x) == k
  }

  /** A bucket is the filter of the items by their key. */
  lemma {:induction false} BucketIsFilter<T, K>(items: seq<T>, key: T -> K, k: K)
    ensures Bucket(items, key, k) == Filter(items, HasKey(key, k))
  {
    if items != [] {
      var init, last := items[..|items| - 1], items[|items| - 1];
      assert items == init + [last];
      BucketIsFilter(init, key, k);
      FilterConcat(init, [last], HasKey(key, k));
    }
  }

  /** The loop of `acc[key(x)] ??= []; acc[key(x)].push(x)` over `items`:
      a bucket exists exactly for the keys that occur, and it holds that key's
      items in input order. */
  method GroupBy<T, K(==)>(items: seq<T>, key: T -> K) returns (groups: map<K, seq<T>>)
    ensures forall k :: k in groups ==> groups[k] == Bucket(items, key, k)
    ensures forall k :: k !in groups ==> Bucket(items, key, k) == []
  {
    groups := map[];
    for i := 0 to |items|
      invariant forall k :: k in groups ==> groups[k] == Bucket(items[..i], key, k)
      invariant forall k :: k !in groups ==> Bucket(items[..i], key, k) == []
    {
      var x := items[i];
      var k := key(x);
      var bucket := if k in groups then groups[k] else [];
      assert bucket == Bucket(items[..i], key, k);
      var next := groups[k := bucket + [x]];
      assert items[..i + 1][..i] == items[..i];
      forall k' | k' in next ensures next[k'] == Bucket(items[..i + 1], key, k') {
        assert Bucket(items[..i + 1], key, k')
               == Bucket(items[..i], key, k') + (if key(x) == k' then [x] else []);
      }
      forall k' | k' !in next ensures Bucket(items[..i + 1], key, k') == [] {
        assert Bucket(items[..i + 1], key, k')
               == Bucket(items[..i], key, k') + (if key(x) == k' then [x] else []);
      }
      groups := next;
    }
    assert items[..|items|] == items;
  }

  /** Every item lies in the bucket of its own key, and a bucket holds only
      items of its key. */
  lemma InOwnBucketOnly<T, K>(items: seq<T>, key: T -> K, i: int, k: K)
    requires 0 <= i < |items|
    ensures items[i] in Bucket(items, key, k) <==> key(items[i]) == k
  {
    BucketIsFilter(items, key, k);
    var b := Bucket(items, key, k);
    FilterMembers(items, HasKey(key, k));
    assert items[i] in items;
    if items[i] in b {
      var j :| 0 <= j < |b| && b[j] == items[i];
    }
  }

  // ---------------------------------------------------------------------
  // Sorting with a comparator (`Array.prototype.sort`, which is stable)

  /** `le(a, b)` reads "a may come before b": the comparator returns <= 0. */
  ghost predicate TotalPreorder<T(!new)>(le: (T, T) -> bool)
  {
    && (forall a, b :: le(a, b) || le(b, a))
    && (forall a, b, c :: le(a, b) && le(b, c) ==> le(a, c))
  }

  predicate SortedBy<T>(s: seq<T>, le: (T, T) -> bool)
  {
    forall i, j :: 0 <= i < j < |s| ==> le(s[i], s[j])
  }

  /** Inserts `x` in front of the first element it may precede; an element
      that came earlier in the input stays ahead of its equals (stability). */
  function Insert<T(!new)>(x: T, s: seq<T>, le: (T, T) -> bool): (r: seq<T>)
    requires TotalPreorder(le) && SortedBy(s, le)
    ensures multiset(r) == multiset(s) + multiset{x}
    ensures SortedBy(r, le)
  {
    if s == [] then [x]
    else if le(x, s[0]) then [x] + s
    else
      var rest := Insert(x, s[1..], le);
      InsertBehindHead(x, s, rest, le);
      [s[0]] + rest
  }

  /** The head of `s`, which `x` may not precede, may precede everything of
      the insertion into the tail. */
  lemma InsertBehindHead<T(!new)>(x: T, s: seq<T>, rest: seq<T>, le: (T, T) -> bool)
    requires TotalPreorder(le) && SortedBy(s, le) && s != [] && !le(x, s[0])
    requires multiset(rest) == multiset(s[1..]) + multiset{x} && SortedBy(rest, le)
    ensures multiset([s[0]] + rest) == multiset(s) + multiset{x}
    ensures SortedBy([s[0]] + rest, le)
  {
    assert s == [s[0]] + s[1..];
    forall j | 0 <= j < |rest|
      ensures le(s[0], rest[j])
    {
      assert rest[j] in multiset(rest);
      if rest[j] != x {
        assert rest[j] in multiset(s[1..]);
        var k :| 0 <= k < |s[1..]| && s[1..][k] == rest[j];
        assert s[k + 1] == rest[j];
      }
    }
    var r := [s[0]] + rest;
    forall i, j | 0 <= i < j < |r|
      ensures le(r[i], r[j])
    {
      assert r[j] == rest[j - 1];
      if i > 0 {
        assert r[i] == rest[i - 1];
      }
    }
  }

  /** The sorted order the program obtains from `sort` with comparator `le`. */
  function SortBy<T(!new)>(s: seq<T>, le: (T, T) -> bool): (r: seq<T>)
    requires TotalPreorder(le)
    ensures multiset(r) == multiset(s)
    ensures SortedBy(r, le)
  {
    if s == [] then []
    else
      assert s == [s[0]] + s[1..];
      Insert(s[0], SortBy(s[1..], le), le)
  }

  /** The elements `le` ranks equal to `x`. */
  function EquivTo<T>(le: (T, T) -> bool, x: T): T -> bool
  {
    y => le(x, y) && le(y, x)
  }

  /** Filtering a list with a given head. */
  lemma FilterCons<T>(a: T, s: seq<T>, p: T -> bool)
    ensures Filter([a] + s, p) == (if p(a) then [a] else []) + Filter(s, p)
  {
    var r := [a] + s;
    assert r[0] == a && r[1..] == s;
  }

  /** An element that may not precede `z` is not ranked equal to `x`
      together with `z`. */
  lemma NotBothEquiv<T(!new)>(le: (T, T) -> bool, x: T, y: T, z: T)
    requires TotalPreorder(le) && !le(y, z)
    ensures !(EquivTo(le, x)(y) && EquivTo(le, x)(z))
  {
  }

  /** Inserting `y` puts it behind nothing it ranks equal to: among the
      elements equal to `x`, `y` comes first if it is one of them, followed
      by those already in `t`, in their order. */
  lemma {:induction false} FilterInsert<T(!new)>(y: T, t: seq<T>, le: (T, T) -> bool, x: T)
    requires TotalPreorder(le) && SortedBy(t, le)
    ensures Filter(Insert(y, t, le), EquivTo(le, x))
      == (if EquivTo(le, x)(y) then [y] else []) + Filter(t, EquivTo(le, x))
  {
    var e := EquivTo(le, x);
    if t == [] {
      assert Insert(y, t, le) == [y] + t;
      FilterCons(y, t, e);
    } else if le(y, t[0]) {
      assert Insert(y, t, le) == [y] + t;
      FilterCons(y, t, e);
    } else {
      var rest := Insert(y, t[1..], le);
      assert SortedBy(t[1..], le);
      FilterInsert(y, t[1..], le, x);
      assert Insert(y, t, le) == [t[0]] + rest;
      FilterCons(t[0], rest, e);
      assert t == [t[0]] + t[1..];
      FilterCons(t[0], t[1..], e);
      NotBothEquiv(le, x, y, t[0]);
      var ey, et := (if e(y) then [y] else []), (if e(t[0]) then [t[0]] else []);
      assert ey == [] || et == [];
      assert et + (ey + Filter(t[1..], e)) == ey + (et + Filter(t[1..], e));
    }
  }

  /** `sort` is stable: the elements the comparator ranks equal to any `x`
      keep their input order. */
  lemma {:induction false} SortByStable<T(!new)>(s: seq<T>, le: (T, T) -> bool, x: T)
    requires TotalPreorder(le)
    ensures Filter(SortBy(s, le), EquivTo(le, x)) == Filter(s, EquivTo(le, x))
  {
    if s != [] {
      SortByStable(s[1..], le, x);
      FilterInsert(s[0], SortBy(s[1..], le), le, x);
      assert s == [s[0]] + s[1..];
    }
  }
}
