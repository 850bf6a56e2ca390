/** Orderings and the sort used wherever the application orders rows: the database's
    `orderBy` and JavaScript's Array.prototype.sort with a comparator. */
module Sorting {

  /** A sort key: a number (a timestamp) or a string compared code point by code point. */
  datatype Key = IntKey(i: int) | StrKey(s: string)

  /** Sort direction, as the 'asc' | 'desc' strings of the source. */
  datatype Order = Asc | Desc

  /** Lexicographic `a <= b` on strings, the order of JavaScript's `<` on strings. */
  predicate StrLeq(a: string, b: string)
    decreases |a|
  {
    |a| == 0 || (|b| > 0 && (a[0] < b[0] || (a[0] == b[0] && StrLeq(a[1..], b[1..]))))
  }

  predicate KeyLeq(a: Key, b: Key) {
    match (a, b)
    case (IntKey(x), IntKey(y)) => x <= y
    case (StrKey(x), StrKey(y)) => StrLeq(x, y)
    case (IntKey(_), StrKey(_)) => true
    case (StrKey(_), IntKey(_)) => false
  }

  /** a may stand before b in a list sorted in direction o. */
  predicate InOrder(a: Key, b: Key, o: Order) {
    if o == Asc then KeyLeq(a, b) else KeyLeq(b, a)
  }

  lemma {:induction false} StrLeqTotal(a: string, b: string)
    ensures StrLeq(a, b) || StrLeq(b, a)
    decreases |a|
  {
    if |a| > 0 && |b| > 0 && a[0] == b[0] {
      StrLeqTotal(a[1..], b[1..]);
    }
  }

  lemma {:induction false} StrLeqTransitive(a: string, b: string, c: string)
    requires StrLeq(a, b) && StrLeq(b, c)
    ensures StrLeq(a, c)
    decreases |a|
  {
    if |a| > 0 && a[0] == b[0] && b[0] == c[0] {
      StrLeqTransitive(a[1..], b[1..], c[1..]);
    }
  }

  lemma {:induction false} StrLeqAntisymmetric(a: string, b: string)
    requires StrLeq(a, b) && StrLeq(b, a)
    ensures a == b
    decreases |a|
  {
    if |a| > 0 {
      StrLeqAntisymmetric(a[1..], b[1..]);
      assert a == [a[0]] + a[1..];
      assert b == [b[0]] + b[1..];
    }
  }

  /** Any two keys are comparable: the key order is total. */
  lemma KeyLeqTotal(a: Key, b: Key)
    ensures KeyLeq(a, b) || KeyLeq(b, a)
  {
    if a.StrKey? && b.StrKey? {
      StrLeqTotal(a.s, b.s);
    }
  }

  lemma KeyLeqTransitive(a: Key, b: Key, c: Key)
    requires KeyLeq(a, b) && KeyLeq(b, c)
    ensures KeyLeq(a, c)
  {
    if a.StrKey? && b.StrKey? && c.StrKey? {
      StrLeqTransitive(a.s, b.s, c.s);
    }
  }

  lemma KeyLeqAntisymmetric(a: Key, b: Key)
    requires KeyLeq(a, b) && KeyLeq(b, a)
    ensures a == b
  {
    if a.StrKey? && b.StrKey? {
      StrLeqAntisymmetric(a.s, b.s);
    }
  }

  /** Each element may stand before its successor. */
  ghost predicate SortedBy<T>(s: seq<T>, key: T -> Key, o: Order) {
    forall i :: 0 < i < |s| ==> InOrder(key(s[i - 1]), key(s[i]), o)
  }

  /** x goes before the first element it may stand before; equal keys keep x first. */
  function Insert<T>(x: T, s: seq<T>, key: T -> Key, o: Order): (r: seq<T>)
    ensures multiset(r) == multiset(s) + multiset{x}
    ensures |r| == |s| + 1
    ensures r[0] == x || (|s| > 0 && r[0] == s[0])
  {
    if s == [] then [x]
    else if InOrder(key(x), key(s[0]), o) then [x] + s
    else
      assert s == [s[0]] + s[1..];
      [s[0]] + Insert(x, s[1..], key, o)
  }

  /** A stable insertion sort on the key, in direction o. */
  function Sort<T>(s: seq<T>, key: T -> Key, o: Order): (r: seq<T>)
    ensures multiset(r) == multiset(s)
    ensures |r| == |s|
  {
    if s == [] then []
    else
      assert s == [s[0]] + s[1..];
      Insert(s[0], Sort(s[1..], key, o), key, o)
  }

  lemma {:induction false} InsertSorted<T>(x: T, s: seq<T>, key: T -> Key, o: Order)
    requires SortedBy(s, key, o)
    ensures SortedBy(Insert(x, s, key, o), key, o)
    decreases |s|
  {
    if s != [] && !InOrder(key(x), key(s[0]), o) {
      KeyLeqTotal(key(x), key(s[0]));
      InsertSorted(x, s[1..], key, o);
    }
  }

  /** The sort puts every adjacent pair in order. */
  lemma {:induction false} SortSorted<T>(s: seq<T>, key: T -> Key, o: Order)
    ensures SortedBy(Sort(s, key, o), key, o)
    decreases |s|
  {
    if s != [] {
      SortSorted(s[1..], key, o);
      InsertSorted(s[0], Sort(s[1..], key, o), key, o);
    }
  }

  /** Adjacent order extends to every pair, since the key order is transitive. */
  lemma {:induction false} SortedAllPairs<T>(s: seq<T>, key: T -> Key, o: Order, i: nat, j: nat)
    requires SortedBy(s, key, o)
    requires i <= j < |s|
    ensures InOrder(key(s[i]), key(s[j]), o)
    decreases j - i
  {
    if i == j {
      KeyLeqTotal(key(s[i]), key(s[i]));
    } else {
      SortedAllPairs(s, key, o, i, j - 1);
      if o == Asc {
        KeyLeqTransitive(key(s[i]), key(s[j - 1]), key(s[j]));
      } else {
        KeyLeqTransitive(key(s[j]), key(s[j - 1]), key(s[i]));
      }
    }
  }

  /** The elements of s that satisfy p, in their original order. */
  function Filter<T>(s: seq<T>, p: T -> bool): (r: seq<T>)
    ensures |r| <= |s|
    ensures forall i :: 0 <= i < |r| ==> p(r[i]) && r[i] in s
    ensures forall i :: 0 <= i < |s| && p(s[i]) ==> s[i] in r
    ensures multiset(r) <= multiset(s)
  {
    if s == [] then []
    else
      assert s == [s[0]] + s[1..];
      (if p(s[0]) then [s[0]] else []) + Filter(s[1..], p)
  }

  /** Filtering keeps everything when every element passes. */
  lemma {:induction false} FilterAll<T>(s: seq<T>, p: T -> bool)
    requires forall i :: 0 <= i < |s| ==> p(s[i])
    ensures Filter(s, p) == s
    decreases |s|
  {
    if s != [] {
      FilterAll(s[1..], p);
      assert s == [s[0]] + s[1..];
      assert Filter(s, p) == [s[0]] + Filter(s[1..], p);
    }
  }

  /** Filtering distributes over concatenation. */
  lemma {:induction false} FilterConcat<T>(a: seq<T>, b: seq<T>, p: T -> bool)
    ensures Filter(a + b, p) == Filter(a, p) + Filter(b, p)
    decreases |a|
  {
    if a == [] {
      assert a + b == b;
    } else {
      var ab := a + b;
      assert ab != [] && ab[0] == a[0] && ab[1..] == a[1..] + b;
      FilterConcat(a[1..], b, p);
      if p(a[0]) {
        calc {
          Filter(ab, p);
          [a[0]] + Filter(a[1..] + b, p);
          [a[0]] + (Filter(a[1..], p) + Filter(b, p));
          ([a[0]] + Filter(a[1..], p)) + Filter(b, p);
        }
      } else {
        calc {
          Filter(ab, p);
          [] + Filter(a[1..] + b, p);
          Filter(a[1..], p) + Filter(b, p);
        }
      }
    }
  }

  /** Every element of the sorted sequence comes from the input. */
  lemma SortedMember<T>(s: seq<T>, key: T -> Key, o: Order, k: nat)
    requires k < |Sort(s, key, o)|
    ensures Sort(s, key, o)[k] in s
  {
    var r := Sort(s, key, o);
    assert r[k] in multiset(r);
  }

  /** Sorting the elements that pass a filter keeps exactly those elements. */
  lemma SortFilterMembers<T>(s: seq<T>, p: T -> bool, key: T -> Key, o: Order, x: T)
    ensures x in Sort(Filter(s, p), key, o) <==> x in s && p(x)
  {
    var f := Filter(s, p);
    assert x in Sort(f, key, o) <==> x in multiset(Sort(f, key, o));
    assert x in f <==> x in multiset(f);
  }

  /** The number of elements of s that satisfy p (`s.filter(p).length`). */
  function Count<T>(s: seq<T>, p: T -> bool): (n: nat)
    ensures n <= |s|
  {
    |Filter(s, p)|
  }

  /** Counting two disjoint properties counts at most every element once. */
  lemma {:induction false} CountDisjoint<T>(s: seq<T>, p: T -> bool, q: T -> bool)
    requires forall i :: 0 <= i < |s| ==> !(p(s[i]) && q(s[i]))
    ensures Count(s, p) + Count(s, q) <= |s|
    decreases |s|
  {
    if s != [] {
      CountDisjoint(s[1..], p, q);
      assert s == [s[0]] + s[1..];
    }
  }

  /** `s.map(f)`. */
  function Map<T, U>(s: seq<T>, f: T -> U): (r: seq<U>)
    ensures |r| == |s|
    ensures forall i :: 0 <= i < |s| ==> r[i] == f(s[i])
  {
    seq(|s|, i requires 0 <= i < |s| => f(s[i]))
  }

  lemma MapConcat<T, U>(a: seq<T>, b: seq<T>, f: T -> U)
    ensures Map(a + b, f) == Map(a, f) + Map(b, f)
  {
  }

  /** Removing the element at k removes one occurrence of it. */
  lemma RemoveAt<T>(b: seq<T>, k: nat)
    requires k < |b|
    ensures multiset(b[..k] + b[k + 1..]) == multiset(b) - multiset{b[k]}
  {
    assert b == b[..k] + [b[k]] + b[k + 1..];
  }

  /** Mapping a sequence with one element taken out. */
  lemma MapRemoveAt<T, U>(b: seq<T>, k: nat, f: T -> U)
    requires k < |b|
    ensures multiset(Map(b, f)) == multiset(Map(b[..k] + b[k + 1..], f)) + multiset{f(b[k])}
  {
    var l, m, r := b[..k], [b[k]], b[k + 1..];
    assert b == l + (m + r);
    MapConcat(l, m + r, f);
    MapConcat(m, r, f);
    MapConcat(l, r, f);
    var ml, mm, mr := Map(l, f), Map(m, f), Map(r, f);
    assert mm == [f(b[k])];
    calc {
      multiset(Map(b, f));
      multiset(ml + (mm + mr));
      multiset(ml) + multiset(mm) + multiset(mr);
      multiset(ml + mr) + multiset{f(b[k])};
    }
  }

  /** Mapping two arrangements of the same elements gives two arrangements of the same images. */
  lemma {:induction false} MapPermutation<T, U>(a: seq<T>, b: seq<T>, f: T -> U)
    requires multiset(a) == multiset(b)
    ensures multiset(Map(a, f)) == multiset(Map(b, f))
    decreases |a|
  {
    if a == [] {
      assert |b| == |multiset(b)| == 0;
    } else {
      var x := a[0];
      assert x in multiset(b);
      var k :| 0 <= k < |b| && b[k] == x;
      var a', b' := a[1..], b[..k] + b[k + 1..];
      assert a[..0] + a[1..] == a';
      RemoveAt(b, k);
      RemoveAt(a, 0);
      MapPermutation(a', b', f);
      MapPermutationStep(a, b, f, k);
    }
  }

  /** Putting back the element taken from both sides keeps the images' multisets equal. */
  lemma MapPermutationStep<T, U>(a: seq<T>, b: seq<T>, f: T -> U, k: nat)
    requires a != [] && k < |b| && b[k] == a[0]
    requires multiset(Map(a[1..], f)) == multiset(Map(b[..k] + b[k + 1..], f))
    ensures multiset(Map(a, f)) == multiset(Map(b, f))
  {
    MapRemoveFirst(a, f);
    MapRemoveAt(b, k, f);
    assert f(b[k]) == f(a[0]);
  }

  /** Mapping a non-empty sequence maps its head and then its tail. */
  lemma MapRemoveFirst<T, U>(a: seq<T>, f: T -> U)
    requires a != []
    ensures multiset(Map(a, f)) == multiset(Map(a[1..], f)) + multiset{f(a[0])}
  {
    assert a == [a[0]] + a[1..];
    MapConcat([a[0]], a[1..], f);
    assert Map([a[0]], f) == [f(a[0])];
  }
}
