/**
 * A JavaScript plain object whose keys are strings that are not array
 * indices: an insertion-ordered dictionary. Assigning to an existing key
 * keeps the key's position and replaces its value; assigning to a new key
 * appends it.
 */
module AssocList {
  import opened Wrappers

  type Dict<V> = seq<(string, V)>

  /** `Object.keys(d)`, in insertion order. */
  function Keys<V>(d: Dict<V>): seq<string>
  {
    seq(|d|, i requires 0 <= i < |d| => d[i].0)
  }

  predicate NoDup(s: seq<string>)
  {
    forall i, j :: 0 <= i < j < |s| ==> s[i] != s[j]
  }

  lemma KeysTail<V>(d: Dict<V>)
    requires d != []
    ensures Keys(d) == [d[0].0] + Keys(d[1..])
  {
  }

  lemma KeysPrefix<V>(d: Dict<V>, n: nat)
    requires n <= |d|
    ensures Keys(d[..n]) == Keys(d)[..n]
  {
  }

  lemma KeyOfEntry<V>(d: Dict<V>, p: (string, V))
    requires p in d
    ensures p.0 in Keys(d)
  {
    var i :| 0 <= i < |d| && d[i] == p;
    assert Keys(d)[i] == p.0;
  }

  /** `d[k]`: the value stored under `k`, if any. */
  function Lookup<V>(d: Dict<V>, k: string): (r: Option<V>)
    ensures r.Some? <==> k in Keys(d)
    ensures r.Some? ==> (k, r.value) in d
  {
    if d == [] then None
    else
      KeysTail(d);
      if d[0].0 == k then Some(d[0].1) else Lookup(d[1..], k)
  }

  /** In a dictionary without repeated keys, every entry is what a lookup of its key finds. */
  lemma {:induction false} LookupEntry<V>(d: Dict<V>, i: nat)
    requires NoDup(Keys(d)) && i < |d|
    ensures Lookup(d, d[i].0) == Some(d[i].1)
  {
    if i > 0 {
      KeysTail(d);
      assert d[0].0 != d[i].0 by { assert Keys(d)[0] != Keys(d)[i]; }
      assert Keys(d[1..]) == Keys(d)[1..];
      LookupEntry(d[1..], i - 1);
    }
  }

  /** The assignment `d[k] = v`. */
  function Put<V>(d: Dict<V>, k: string, v: V): (r: Dict<V>)
    ensures Lookup(r, k) == Some(v)
  {
    if d == [] then [(k, v)]
    else if d[0].0 == k then [(k, v)] + d[1..]
    else [d[0]] + Put(d[1..], k, v)
  }

  /** Assigning `k` leaves every other key as it was. */
  lemma {:induction false} PutOther<V>(d: Dict<V>, k: string, v: V, other: string)
    requires other != k
    ensures Lookup(Put(d, k, v), other) == Lookup(d, other)
  {
    if d != [] && d[0].0 != k {
      PutOther(d[1..], k, v, other);
    }
  }

  /** An assigned key keeps its position; a new key goes last. */
  lemma {:induction false} PutKeys<V>(d: Dict<V>, k: string, v: V)
    ensures Keys(Put(d, k, v)) == if k in Keys(d) then Keys(d) else Keys(d) + [k]
  {
    if d != [] {
      KeysTail(d);
      if d[0].0 == k {
        KeysTail([(k, v)] + d[1..]);
      } else {
        PutKeys(d[1..], k, v);
        KeysTail([d[0]] + Put(d[1..], k, v));
      }
    }
  }

  lemma PutKeepsNoDup<V>(d: Dict<V>, k: string, v: V)
    requires NoDup(Keys(d))
    ensures NoDup(Keys(Put(d, k, v)))
  {
    PutKeys(d, k, v);
  }

  /** The keys of `s` in order of first occurrence, each once. */
  function Dedup(s: seq<string>): (r: seq<string>)
    ensures NoDup(r)
    ensures forall x :: x in r <==> x in s
    ensures |r| <= |s|
  {
    if s == [] then []
    else
      var n := |s| - 1;
      var r := Dedup(s[..n]);
      assert s == s[..n] + [s[n]];
      if s[n] in r then r else r + [s[n]]
  }

  /** A sequence without repeated elements is its own first-occurrence order. */
  lemma {:induction false} DedupOfNoDup(s: seq<string>)
    requires NoDup(s)
    ensures Dedup(s) == s
  {
    if s != [] {
      var n := |s| - 1;
      DedupOfNoDup(s[..n]);
      assert s[n] !in s[..n];
      assert s == s[..n] + [s[n]];
    }
  }

  /** Successive assignments `d[k] = v` for each pair, starting from `{}`. */
  function PutAll<V>(pairs: seq<(string, V)>): Dict<V>
  {
    if pairs == [] then []
    else
      var n := |pairs| - 1;
      Put(PutAll(pairs[..n]), pairs[n].0, pairs[n].1)
  }

  lemma PutAllSnoc<V>(pairs: seq<(string, V)>, k: string, v: V)
    ensures PutAll(pairs + [(k, v)]) == Put(PutAll(pairs), k, v)
  {
    assert (pairs + [(k, v)])[..|pairs|] == pairs;
  }

  /** The keys of the resulting object are the assigned keys in order of first assignment. */
  lemma {:induction false} PutAllKeys<V>(pairs: seq<(string, V)>)
    ensures Keys(PutAll(pairs)) == Dedup(Keys(pairs))
  {
    if pairs != [] {
      var n := |pairs| - 1;
      PutAllKeys(pairs[..n]);
      KeysPrefix(pairs, n);
      PutKeys(PutAll(pairs[..n]), pairs[n].0, pairs[n].1);
    }
  }

  /** `pairs[i]` is the last assignment to key `k`. */
  predicate IsLastAssignment<V>(pairs: seq<(string, V)>, i: int, k: string)
  {
    0 <= i < |pairs| && pairs[i].0 == k && forall j :: i < j < |pairs| ==> pairs[j].0 != k
  }

  /** The last assignment to `k` before the final pair is still the last one in the prefix. */
  lemma LastAssignmentPrefix<V>(pairs: seq<(string, V)>, i: nat, k: string)
    requires IsLastAssignment(pairs, i, k) && i < |pairs| - 1
    ensures pairs[|pairs| - 1].0 != k
    ensures IsLastAssignment(pairs[..|pairs| - 1], i, k)
  {
    var p := pairs[..|pairs| - 1];
    forall j | i < j < |p| ensures p[j].0 != k { assert p[j] == pairs[j]; }
  }

  /** The value stored under `k` is the value of the last assignment to `k`. */
  lemma {:induction false} PutAllLookup<V>(pairs: seq<(string, V)>, i: nat, k: string)
    requires IsLastAssignment(pairs, i, k)
    ensures Lookup(PutAll(pairs), k) == Some(pairs[i].1)
  {
    var n := |pairs| - 1;
    var p := pairs[..n];
    if i < n {
      LastAssignmentPrefix(pairs, i, k);
      PutAllLookup(p, i, k);
      PutOther(PutAll(p), pairs[n].0, pairs[n].1, k);
      assert p[i] == pairs[i];
    }
  }

  /** A sequence without repeated elements has as many elements as its set. */
  lemma {:induction false} NoDupCardinality(s: seq<string>)
    requires NoDup(s)
    ensures |set x | x in s| == |s|
  {
    if s != [] {
      var n := |s| - 1;
      NoDupCardinality(s[..n]);
      assert s == s[..n] + [s[n]];
      assert (set x | x in s) == (set x | x in s[..n]) + {s[n]};
      assert s[n] !in s[..n];
    }
  }

  /** The number of keys of the resulting object is the number of distinct assigned keys. */
  lemma PutAllSize<V>(pairs: seq<(string, V)>)
    ensures |PutAll(pairs)| == |set k | k in Keys(pairs)|
  {
    PutAllKeys(pairs);
    var d := Dedup(Keys(pairs));
    NoDupCardinality(d);
    assert (set x | x in d) == (set k | k in Keys(pairs));
  }

  /** `a` is `b` with some elements left out, the rest kept in order. */
  predicate IsSubsequence(a: seq<string>, b: seq<string>)
    decreases |b|
  {
    a == [] || (b != [] && ((a[0] == b[0] && IsSubsequence(a[1..], b[1..])) || IsSubsequence(a, b[1..])))
  }

  lemma {:induction false} SubsequenceLength(a: seq<string>, b: seq<string>)
    requires IsSubsequence(a, b)
    ensures |a| <= |b|
    decreases |b|
  {
    if a != [] {
      if a[0] == b[0] && IsSubsequence(a[1..], b[1..]) {
        SubsequenceLength(a[1..], b[1..]);
      } else {
        SubsequenceLength(a, b[1..]);
      }
    }
  }
}
