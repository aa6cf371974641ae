/** Python's `sorted(xs, key=k, reverse=True)` (and `list.sort` with the same
    arguments): a stable sort into non-increasing key order. An ascending
    stable sort by `k` is the same as this sort by `-k`. */
module Sorting {

  ghost predicate SortedDesc<T>(s: seq<T>, key: T -> real) {
    forall i, j :: 0 <= i < j < |s| ==> key(s[i]) >= key(s[j])
  }

  /** The elements of `s` whose key is `c`, in the order of `s`. */
  function WithKey<T>(s: seq<T>, key: T -> real, c: real): seq<T> {
    if s == [] then [] else (if key(s[0]) == c then [s[0]] else []) + WithKey(s[1..], key, c)
  }

  /** Places `x` in front of the first element whose key is not above its own. */
  function Insert<T>(x: T, s: seq<T>, key: T -> real): (r: seq<T>)
    ensures |r| == |s| + 1
  {
    if s == [] || key(s[0]) <= key(x) then [x] + s else [s[0]] + Insert(x, s[1..], key)
  }

  function SortDesc<T>(s: seq<T>, key: T -> real): (r: seq<T>)
    ensures |r| == |s|
  {
    if s == [] then [] else Insert(s[0], SortDesc(s[1..], key), key)
  }

  lemma {:induction false} InsertPermutes<T>(x: T, s: seq<T>, key: T -> real)
    ensures multiset(Insert(x, s, key)) == multiset([x] + s)
  {
    if s != [] && key(s[0]) > key(x) {
      InsertPermutes(x, s[1..], key);
      assert s == [s[0]] + s[1..];
    }
  }

  lemma {:induction false} InsertSorted<T>(x: T, s: seq<T>, key: T -> real)
    requires SortedDesc(s, key)
    ensures SortedDesc(Insert(x, s, key), key)
  {
    if s != [] && key(s[0]) > key(x) {
      var rest := Insert(x, s[1..], key);
      InsertSorted(x, s[1..], key);
      InsertPermutes(x, s[1..], key);
      forall j | 0 <= j < |rest| ensures key(s[0]) >= key(rest[j]) {
        assert rest[j] in multiset(rest);
        assert rest[j] in multiset([x] + s[1..]);
        if rest[j] != x {
          assert rest[j] in s[1..];
        }
      }
    }
  }

  lemma {:induction false} InsertStable<T>(x: T, s: seq<T>, key: T -> real, c: real)
    ensures WithKey(Insert(x, s, key), key, c) == WithKey([x] + s, key, c)
  {
    if s != [] && key(s[0]) > key(x) {
      InsertStable(x, s[1..], key, c);
      var r := Insert(x, s, key);
      assert r[1..] == Insert(x, s[1..], key);
      assert ([x] + s)[1..] == s;
      assert ([x] + s[1..])[1..] == s[1..];
    } else {
      assert ([x] + s)[1..] == s;
    }
  }

  /** The sort is a permutation of its input, in non-increasing key order, and
      keeps the input order among elements with equal keys. */
  lemma {:induction false} SortDescCorrect<T>(s: seq<T>, key: T -> real)
    ensures SortedDesc(SortDesc(s, key), key)
    ensures multiset(SortDesc(s, key)) == multiset(s)
    ensures forall c :: WithKey(SortDesc(s, key), key, c) == WithKey(s, key, c)
  {
    if s != [] {
      var t := SortDesc(s[1..], key);
      SortDescCorrect(s[1..], key);
      InsertSorted(s[0], t, key);
      InsertPermutes(s[0], t, key);
      assert s == [s[0]] + s[1..];
      forall c ensures WithKey(SortDesc(s, key), key, c) == WithKey(s, key, c) {
        InsertStable(s[0], t, key, c);
        assert ([s[0]] + t)[1..] == t;
      }
    }
  }

  /** The sum of `f` over `s`. */
  function SumOf<T>(s: seq<T>, f: T -> nat): nat {
    if s == [] then 0 else f(s[0]) + SumOf(s[1..], f)
  }

  lemma {:induction false} SumOfAppend<T>(a: seq<T>, b: seq<T>, f: T -> nat)
    ensures SumOf(a + b, f) == SumOf(a, f) + SumOf(b, f)
  {
    if a != [] {
      assert (a + b)[1..] == a[1..] + b;
      SumOfAppend(a[1..], b, f);
    } else {
      assert a + b == b;
    }
  }

  lemma {:induction false} InsertSum<T>(x: T, s: seq<T>, key: T -> real, f: T -> nat)
    ensures SumOf(Insert(x, s, key), f) == f(x) + SumOf(s, f)
  {
    if s != [] && key(s[0]) > key(x) {
      InsertSum(x, s[1..], key, f);
      assert ([s[0]] + Insert(x, s[1..], key))[1..] == Insert(x, s[1..], key);
    } else {
      assert ([x] + s)[1..] == s;
    }
  }

  /** Sorting changes no sum over the elements. */
  lemma {:induction false} SortDescSum<T>(s: seq<T>, key: T -> real, f: T -> nat)
    ensures SumOf(SortDesc(s, key), f) == SumOf(s, f)
  {
    if s != [] {
      SortDescSum(s[1..], key, f);
      InsertSum(s[0], SortDesc(s[1..], key), key, f);
    }
  }

  /** A prefix of a sorted sequence is sorted, and nothing after it has a
      larger key than anything in it. */
  lemma PrefixOfSorted<T>(t: seq<T>, key: T -> real, k: nat)
    requires SortedDesc(t, key) && k <= |t|
    ensures SortedDesc(t[..k], key)
    ensures multiset(t) == multiset(t[..k]) + multiset(t[k..])
    ensures forall x, y :: x in t[..k] && y in t[k..] ==> key(y) <= key(x)
  {
    assert t == t[..k] + t[k..];
    forall x, y | x in t[..k] && y in t[k..] ensures key(y) <= key(x) {
      var i :| 0 <= i < k && t[..k][i] == x;
      var j :| 0 <= j < |t| - k && t[k..][j] == y;
      assert t[i] == x && t[k + j] == y;
    }
  }

  /** The first `k` elements of the sort are `k` of the input's elements, in
      order, and nothing left out has a larger key than anything kept. */
  lemma {:induction false} TopOf<T>(s: seq<T>, key: T -> real, k: nat)
    requires k <= |s|
    ensures SortedDesc(SortDesc(s, key)[..k], key)
    ensures multiset(SortDesc(s, key)[..k]) <= multiset(s)
    ensures forall x, y :: x in SortDesc(s, key)[..k] && y in multiset(s) - multiset(SortDesc(s, key)[..k]) ==>
      key(y) <= key(x)
  {
    var sorted := SortDesc(s, key);
    SortDescCorrect(s, key);
    PrefixOfSorted(sorted, key, k);
    var t := sorted[..k];
    assert multiset(s) - multiset(t) == multiset(sorted[k..]);
    forall x, y | x in t && y in multiset(s) - multiset(t) ensures key(y) <= key(x) {
      assert y in sorted[k..];
    }
  }
}
