/**
 * The two list shapes every portal page is built from: `Array.prototype.filter`
 * and a comparator `sort`, which JavaScript engines run stably.
 */
module Seqs {

  /** `a` can be obtained from `b` by deleting elements: order is preserved. */
  predicate IsSubseq<T(==)>(a: seq<T>, b: seq<T>)
    decreases |b|
  {
    a == [] || (b != [] && ((a[0] == b[0] && IsSubseq(a[1..], b[1..])) || IsSubseq(a, b[1..])))
  }

  lemma {:induction false} IsSubseqRefl<T>(s: seq<T>)
    ensures IsSubseq(s, s)
  {
    if s != [] { IsSubseqRefl(s[1..]); }
  }

  /** `s.filter(p)`. */
  function Filter<T(==)>(s: seq<T>, p: T -> bool): (r: seq<T>)
    ensures |r| <= |s|
  {
    if s == [] then []
    else if p(s[0]) then [s[0]] + Filter(s[1..], p)
    else Filter(s[1..], p)
  }

  /**
   * The filter keeps exactly the elements that pass, each as often as it occurs,
   * in their original order.
   */
  lemma {:induction false} FilterSpec<T(!new)>(s: seq<T>, p: T -> bool)
    ensures IsSubseq(Filter(s, p), s)
    ensures forall x :: x in Filter(s, p) <==> x in s && p(x)
    ensures forall x :: multiset(Filter(s, p))[x] == if p(x) then multiset(s)[x] else 0
  {
    if s != [] {
      FilterSpec(s[1..], p);
      var rest := Filter(s[1..], p);
      assert s == [s[0]] + s[1..];
      if p(s[0]) {
        assert ([s[0]] + rest)[1..] == rest;
      }
    }
  }

  /** The filter keeps everything exactly when every element passes. */
  lemma {:induction false} FilterKeepsAll<T(!new)>(s: seq<T>, p: T -> bool)
    ensures Filter(s, p) == s <==> forall i :: 0 <= i < |s| ==> p(s[i])
  {
    if s != [] {
      FilterKeepsAll(s[1..], p);
      if !p(s[0]) {
        assert |Filter(s, p)| < |s|;
      }
      if forall i :: 0 <= i < |s| ==> p(s[i]) {
        assert forall i :: 0 <= i < |s[1..]| ==> p(s[1..][i]) by {
          forall i | 0 <= i < |s[1..]| ensures p(s[1..][i]) {
            assert s[1..][i] == s[i + 1];
          }
        }
      }
    }
  }

  /** An element that fails the test makes the result strictly shorter. */
  lemma {:induction false} FilterShrinks<T>(s: seq<T>, p: T -> bool, i: nat)
    requires i < |s| && !p(s[i])
    ensures |Filter(s, p)| < |s|
  {
    if i > 0 {
      assert s[1..][i - 1] == s[i];
      FilterShrinks(s[1..], p, i - 1);
    }
  }

  predicate SortedBy<T>(s: seq<T>, key: T -> int) {
    forall i, j :: 0 <= i < j < |s| ==> key(s[i]) <= key(s[j])
  }

  /** The elements whose key is `k`. */
  function HasKey<T>(key: T -> int, k: int): T -> bool {
    x => key(x) == k
  }

  /** Places `x` before the first element whose key is not smaller than its own. */
  function Insert<T(==)>(x: T, t: seq<T>, key: T -> int): (r: seq<T>)
    ensures |r| == |t| + 1
    ensures multiset(r) == multiset(t) + multiset{x}
    ensures SortedBy(t, key) ==> SortedBy(r, key)
  {
    if t == [] then [x]
    else if key(x) <= key(t[0]) then [x] + t
    else
      var rest := Insert(x, t[1..], key);
      var r := [t[0]] + rest;
      assert t == [t[0]] + t[1..];
      assert SortedBy(t, key) ==> SortedBy(r, key) by {
        if SortedBy(t, key) {
          forall j | 0 < j < |r| ensures key(r[0]) <= key(r[j]) {
            var y := r[j];
            assert y in multiset(rest);
            assert y == x || y in multiset(t[1..]);
            if y != x {
              var m :| 0 <= m < |t[1..]| && t[1..][m] == y;
              assert t[1..][m] == t[m + 1];
            }
          }
        }
      }
      r
  }

  /** Inserting `x` puts it ahead of every element that shares its key. */
  lemma {:induction false} InsertStable<T(!new)>(x: T, t: seq<T>, key: T -> int, k: int)
    ensures Filter(Insert(x, t, key), HasKey(key, k))
            == (if key(x) == k then [x] else []) + Filter(t, HasKey(key, k))
  {
    var p := HasKey(key, k);
    if t == [] {
      assert [x][1..] == [];
    } else if key(x) <= key(t[0]) {
      assert ([x] + t)[1..] == t;
    } else {
      InsertStable(x, t[1..], key, k);
      assert ([t[0]] + Insert(x, t[1..], key))[1..] == Insert(x, t[1..], key);
    }
  }

  /** A stable sort by ascending key: a sorted permutation of its input. */
  function StableSort<T(==)>(s: seq<T>, key: T -> int): (r: seq<T>)
    ensures multiset(r) == multiset(s)
    ensures |r| == |s|
    ensures SortedBy(r, key)
  {
    if s == [] then []
    else
      assert s == [s[0]] + s[1..];
      Insert(s[0], StableSort(s[1..], key), key)
  }

  /** Elements that share a key keep their original relative order. */
  lemma {:induction false} StableSortStable<T(!new)>(s: seq<T>, key: T -> int, k: int)
    ensures Filter(StableSort(s, key), HasKey(key, k)) == Filter(s, HasKey(key, k))
  {
    if s != [] {
      StableSortStable(s[1..], key, k);
      InsertStable(s[0], StableSort(s[1..], key), key, k);
    }
  }

  /** Sorting an already sorted list leaves it as it is. */
  lemma {:induction false} StableSortOfSorted<T(!new)>(s: seq<T>, key: T -> int)
    requires SortedBy(s, key)
    ensures StableSort(s, key) == s
  {
    if s != [] {
      assert SortedBy(s[1..], key);
      StableSortOfSorted(s[1..], key);
      assert s == [s[0]] + s[1..];
    }
  }
}
