/**
 * The counters built with `reduce` over an accumulator object, where each record adds one
 * to the entry of its label (an absent entry reading as 0), and the fact that counts over a complete list of
 * labels add up to the number of records.
 */
module Counts {
  import opened Seqs

  /** Tallies how often each key occurs, one key at a time, as the reduce does. */
  method Tally<K(==)>(keys: seq<K>) returns (counts: map<K, nat>)
    ensures forall k :: k in counts <==> k in keys
    ensures forall k :: CountOf(counts, k) == multiset(keys)[k]
  {
    counts := map[];
    var i := 0;
    while i < |keys|
      invariant 0 <= i <= |keys|
      invariant forall k :: k in counts <==> k in keys[..i]
      invariant forall k :: CountOf(counts, k) == multiset(keys[..i])[k]
    {
      var k := keys[i];
      counts := counts[k := CountOf(counts, k) + 1];
      assert keys[..i + 1] == keys[..i] + [k];
      i := i + 1;
    }
    assert keys[..i] == keys;
  }

  /** The count of a key; a key never seen reads as 0. */
  function CountOf<K>(counts: map<K, nat>, k: K): nat
  {
    if k in counts then counts[k] else 0
  }

  /** The label of each record, in order (`s.map(name)`). */
  function Names<T, K>(s: seq<T>, name: T -> K): (r: seq<K>)
    ensures |r| == |s|
    ensures forall i :: 0 <= i < |s| ==> r[i] == name(s[i])
  {
    seq(|s|, i requires 0 <= i < |s| => name(s[i]))
  }

  /** The number of records labelled `v` is the number that satisfy "label is `v`". */
  lemma {:induction false} NamesCount<T(!new), K>(s: seq<T>, name: T -> K, v: K, p: T -> bool)
    requires forall x :: p(x) == (name(x) == v)
    ensures multiset(Names(s, name))[v] == Count(s, p)
  {
    if s != [] {
      NamesCount(s[1..], name, v, p);
      assert Names(s, name) == [name(s[0])] + Names(s[1..], name);
    }
  }

  predicate NoDuplicates<K(==)>(labels: seq<K>)
  {
    forall i, j :: 0 <= i < j < |labels| ==> labels[i] != labels[j]
  }

  /** The counts of the given labels, added up. */
  function TotalCount<K>(m: multiset<K>, labels: seq<K>): nat
  {
    if labels == [] then 0 else m[labels[0]] + TotalCount(m, labels[1..])
  }

  lemma {:induction false} TotalCountAdd<K>(m: multiset<K>, k: K, labels: seq<K>)
    requires NoDuplicates(labels)
    ensures TotalCount(m + multiset{k}, labels) == TotalCount(m, labels) + (if k in labels then 1 else 0)
  {
    if labels != [] {
      TotalCountAdd(m, k, labels[1..]);
      if k == labels[0] {
        assert k !in labels[1..] by {
          forall j | 0 <= j < |labels[1..]| ensures labels[1..][j] != k {
            assert labels[1..][j] == labels[j + 1];
          }
        }
      }
    }
  }

  /** When every key is one of the distinct labels, the counts of the labels add up to the
      number of keys. */
  lemma {:induction false} CountsCoverAll<K>(keys: seq<K>, labels: seq<K>)
    requires NoDuplicates(labels)
    requires forall i :: 0 <= i < |keys| ==> keys[i] in labels
    ensures TotalCount(multiset(keys), labels) == |keys|
  {
    if keys == [] {
      TotalCountZero(labels);
    } else {
      var init, last := keys[..|keys| - 1], keys[|keys| - 1];
      assert keys == init + [last];
      CountsCoverAll(init, labels);
      TotalCountAdd(multiset(init), last, labels);
    }
  }

  lemma {:induction false} TotalCountZero<K>(labels: seq<K>)
    ensures TotalCount(multiset{}, labels) == 0
  {
    if labels != [] { TotalCountZero(labels[1..]); }
  }
}
