/** Python dictionaries used as counters (`d[k] = d.get(k, 0) + 1`). A
    dictionary keeps its keys in insertion order, so a counter is a sequence of
    (key, count) entries with distinct keys; a new key goes at the end. */
module Tallies {
  import opened Sorting

  type Counts = seq<(string, nat)>

  function CountOf(e: (string, nat)): nat { e.1 }

  /** The sum of the counts. */
  function Total(d: Counts): nat { SumOf(d, CountOf) }

  predicate DistinctKeys(d: Counts) {
    forall i, j :: 0 <= i < j < |d| ==> d[i].0 != d[j].0
  }

  predicate HasKey(d: Counts, k: string) {
    exists i :: 0 <= i < |d| && d[i].0 == k
  }

  /** The position of the first entry at or after `from` whose key is `k`, or `|d|`. */
  function FindFrom(d: Counts, k: string, from: nat): (r: nat)
    requires from <= |d|
    ensures from <= r <= |d|
    ensures r < |d| ==> d[r].0 == k
    decreases |d| - from
  {
    if from == |d| || d[from].0 == k then from else FindFrom(d, k, from + 1)
  }

  lemma {:induction false} FindFromFirst(d: Counts, k: string, from: nat)
    requires from <= |d|
    ensures forall i :: from <= i < FindFrom(d, k, from) ==> d[i].0 != k
    decreases |d| - from
  {
    if from < |d| && d[from].0 != k {
      FindFromFirst(d, k, from + 1);
    }
  }

  function Find(d: Counts, k: string): (r: nat)
    ensures r <= |d| && (r < |d| ==> d[r].0 == k)
  {
    FindFrom(d, k, 0)
  }

  /** `k` is missing exactly when the search runs off the end. */
  lemma FindMissing(d: Counts, k: string)
    ensures Find(d, k) == |d| <==> !HasKey(d, k)
  {
    FindFromFirst(d, k, 0);
  }

  /** With distinct keys, the search finds the one entry holding `k`. */
  lemma FindUnique(d: Counts, k: string, i: nat)
    requires DistinctKeys(d) && i < |d| && d[i].0 == k
    ensures Find(d, k) == i
  {
    FindFromFirst(d, k, 0);
  }

  /** `d.get(k, 0)` */
  function Get(d: Counts, k: string): nat {
    var i := Find(d, k);
    if i < |d| then d[i].1 else 0
  }

  /** `d[k] = d.get(k, 0) + 1` */
  function Bump(d: Counts, k: string): Counts {
    var i := Find(d, k);
    if i < |d| then d[i := (k, d[i].1 + 1)] else d + [(k, 1)]
  }

  /** The counter `d` after counting each of `ks`, left to right. */
  function TallyFrom(d: Counts, ks: seq<string>): Counts
    decreases |ks|
  {
    if ks == [] then d else Bump(TallyFrom(d, ks[..|ks| - 1]), ks[|ks| - 1])
  }

  /** Counting a key keeps every existing entry's key in place, and adds an
      entry at the end exactly when the key is new. */
  lemma BumpKeys(d: Counts, k: string)
    ensures |Bump(d, k)| == if HasKey(d, k) then |d| else |d| + 1
    ensures forall i :: 0 <= i < |d| ==> Bump(d, k)[i].0 == d[i].0
    ensures !HasKey(d, k) ==> Bump(d, k)[|d|] == (k, 1)
    ensures DistinctKeys(d) ==> DistinctKeys(Bump(d, k))
  {
    FindMissing(d, k);
  }

  lemma BumpGet(d: Counts, k: string, k': string)
    requires DistinctKeys(d)
    ensures Get(Bump(d, k), k') == Get(d, k') + (if k' == k then 1 else 0)
  {
    var b := Bump(d, k);
    BumpKeys(d, k);
    var j := Find(d, k');
    FindMissing(d, k');
    if k' == k {
      if j < |d| {
        FindUnique(b, k, j);
      } else {
        FindUnique(b, k, |d|);
      }
    } else if j < |d| {
      assert b[j] == d[j];
      FindUnique(b, k', j);
    } else {
      assert !HasKey(b, k') by {
        forall i | 0 <= i < |b| ensures b[i].0 != k' {
          if i < |d| {
            assert b[i].0 == d[i].0;
          }
        }
      }
      FindMissing(b, k');
    }
  }

  lemma {:induction false} SumOfUpdate(d: Counts, i: nat, e: (string, nat))
    requires i < |d|
    ensures SumOf(d[i := e], CountOf) + d[i].1 == SumOf(d, CountOf) + e.1
  {
    var u := d[i := e];
    assert d == d[..i] + [d[i]] + d[i + 1..];
    assert u == d[..i] + [e] + d[i + 1..];
    SumOfAppend(d[..i] + [d[i]], d[i + 1..], CountOf);
    SumOfAppend(d[..i], [d[i]], CountOf);
    SumOfAppend(d[..i] + [e], d[i + 1..], CountOf);
    SumOfAppend(d[..i], [e], CountOf);
  }

  lemma BumpTotal(d: Counts, k: string)
    ensures Total(Bump(d, k)) == Total(d) + 1
  {
    var i := Find(d, k);
    if i < |d| {
      SumOfUpdate(d, i, (k, d[i].1 + 1));
    } else {
      SumOfAppend(d, [(k, 1)], CountOf);
    }
  }

  lemma TallyStep(d: Counts, ks: seq<string>, k: string)
    ensures TallyFrom(d, ks + [k]) == Bump(TallyFrom(d, ks), k)
  {
    assert (ks + [k])[..|ks|] == ks;
  }

  /** Counting `a` and then `b` is counting `a + b`. */
  lemma {:induction false} TallyAppend(d: Counts, a: seq<string>, b: seq<string>)
    ensures TallyFrom(TallyFrom(d, a), b) == TallyFrom(d, a + b)
    decreases |b|
  {
    if b == [] {
      assert a + b == a;
    } else {
      var n := |b| - 1;
      TallyAppend(d, a, b[..n]);
      assert (a + b)[..|a + b| - 1] == a + b[..n];
    }
  }

  /** What counting does: keys stay distinct and in place, every key counted
      is present, each count grows by the key's number of occurrences, and the
      total grows by the number of keys counted. */
  lemma {:induction false} TallyCorrect(d: Counts, ks: seq<string>)
    requires DistinctKeys(d)
    ensures DistinctKeys(TallyFrom(d, ks))
    ensures |d| <= |TallyFrom(d, ks)|
    ensures forall i :: 0 <= i < |d| ==> TallyFrom(d, ks)[i].0 == d[i].0
    ensures forall k :: HasKey(TallyFrom(d, ks), k) <==> HasKey(d, k) || k in ks
    ensures forall k :: Get(TallyFrom(d, ks), k) == Get(d, k) + multiset(ks)[k]
    ensures Total(TallyFrom(d, ks)) == Total(d) + |ks|
    decreases |ks|
  {
    if ks != [] {
      var n := |ks| - 1;
      var t := TallyFrom(d, ks[..n]);
      TallyCorrect(d, ks[..n]);
      BumpKeys(t, ks[n]);
      BumpTotal(t, ks[n]);
      assert ks == ks[..n] + [ks[n]];
      forall k ensures Get(Bump(t, ks[n]), k) == Get(d, k) + multiset(ks)[k] {
        BumpGet(t, ks[n], k);
      }
      forall k ensures HasKey(Bump(t, ks[n]), k) <==> HasKey(d, k) || k in ks {
        if HasKey(t, k) {
          var i :| 0 <= i < |t| && t[i].0 == k;
          assert Bump(t, ks[n])[i].0 == k;
        }
        if HasKey(Bump(t, ks[n]), k) {
          var i :| 0 <= i < |Bump(t, ks[n])| && Bump(t, ks[n])[i].0 == k;
          if i < |t| {
            assert t[i].0 == k;
          }
        }
      }
    }
  }
}
