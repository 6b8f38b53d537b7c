/**
 * PHP arrays with string keys, as ordered sequences of (key, value) entries.
 * A PHP array remembers the order in which keys were first inserted; writing
 * to an existing key keeps its position, writing a new key appends it.
 */
module PhpArrays {
  import opened Wrappers

  type Pairs<V> = seq<(string, V)>

  /** `array_keys($a)`. */
  function Keys<V>(a: Pairs<V>): (ks: seq<string>)
    ensures |ks| == |a|
    ensures forall i :: 0 <= i < |a| ==> ks[i] == a[i].0
  {
    seq(|a|, i requires 0 <= i < |a| => a[i].0)
  }

  /** Every key occurs once, as in every array PHP can build. */
  predicate DistinctKeys<V>(a: Pairs<V>) {
    forall i, j :: 0 <= i < j < |a| ==> a[i].0 != a[j].0
  }

  /** Position of the first entry with key `k`, or -1. */
  function IndexOf<V>(a: Pairs<V>, k: string): (i: int)
    ensures -1 <= i < |a|
    ensures 0 <= i ==> a[i].0 == k && forall j :: 0 <= j < i ==> a[j].0 != k
    ensures i < 0 ==> forall j :: 0 <= j < |a| ==> a[j].0 != k
    decreases |a|
  {
    if |a| == 0 then -1
    else if a[0].0 == k then 0
    else
      var i := IndexOf(a[1..], k);
      if i < 0 then -1 else i + 1
  }

  /** `$a[$k]`, with `None` for a missing key. */
  function Lookup<V>(a: Pairs<V>, k: string): (r: Option<V>)
    ensures r.None? <==> k !in Keys(a)
    ensures DistinctKeys(a) ==> forall i :: 0 <= i < |a| && a[i].0 == k ==> r == Some(a[i].1)
  {
    var i := IndexOf(a, k);
    if i < 0 then None else Some(a[i].1)
  }

  /** Two arrays with the same keys in the same order find every key at the same position. */
  lemma IndexOfSameKeys<V, W>(a: Pairs<V>, b: Pairs<W>, k: string)
    requires Keys(a) == Keys(b)
    ensures IndexOf(a, k) == IndexOf(b, k)
  {
    var i, j := IndexOf(a, k), IndexOf(b, k);
    assert forall m :: 0 <= m < |a| ==> a[m].0 == Keys(a)[m] == Keys(b)[m] == b[m].0;
  }

  /** `$a[$k] = $v`: overwrite in place when the key is present, append otherwise. */
  function Put<V>(a: Pairs<V>, k: string, v: V): (r: Pairs<V>)
    ensures Lookup(r, k) == Some(v)
    ensures forall j :: j != k ==> Lookup(r, j) == Lookup(a, j)
    ensures k in Keys(a) ==> Keys(r) == Keys(a)
    ensures k !in Keys(a) ==> Keys(r) == Keys(a) + [k]
    ensures DistinctKeys(a) ==> DistinctKeys(r)
  {
    var i := IndexOf(a, k);
    if i < 0 then
      AppendLookups(a, (k, v));
      a + [(k, v)]
    else
      SameKeysSameLookups(a[i := (k, v)], a);
      a[i := (k, v)]
  }

  /** Appending an entry leaves the positions of the existing keys alone. */
  lemma AppendLookups<V>(a: Pairs<V>, e: (string, V))
    ensures forall j :: j in Keys(a) ==> IndexOf(a + [e], j) == IndexOf(a, j)
    ensures e.0 !in Keys(a) ==> IndexOf(a + [e], e.0) == |a|
  {
    forall j | j in Keys(a) ensures IndexOf(a + [e], j) == IndexOf(a, j) {
      var i, i' := IndexOf(a, j), IndexOf(a + [e], j);
      assert (a + [e])[i].0 == j;
    }
    if e.0 !in Keys(a) {
      assert (a + [e])[|a|].0 == e.0;
    }
  }

  /** Arrays with the same key order find every key at the same position. */
  lemma SameKeysSameLookups<V>(a: Pairs<V>, b: Pairs<V>)
    requires Keys(a) == Keys(b)
    ensures forall k :: IndexOf(a, k) == IndexOf(b, k)
  {
    forall k ensures IndexOf(a, k) == IndexOf(b, k) {
      IndexOfSameKeys(a, b, k);
    }
  }

  /** `unset($a[$k])`: drop the entry with key `k`, keeping the order of the others. */
  function Unset<V>(a: Pairs<V>, k: string): (r: Pairs<V>)
    ensures k !in Keys(a) ==> r == a
    ensures DistinctKeys(a) ==> Lookup(r, k) == None
    ensures DistinctKeys(a) ==> forall j :: j != k ==> Lookup(r, j) == Lookup(a, j)
    ensures DistinctKeys(a) ==> DistinctKeys(r)
  {
    var i := IndexOf(a, k);
    if i < 0 then a
    else
      RemoveLookups(a, i);
      a[..i] + a[i + 1..]
  }

  /** Removing the first entry with its key, at position `i`. */
  lemma RemoveLookups<V>(a: Pairs<V>, i: int)
    requires 0 <= i < |a| && IndexOf(a, a[i].0) == i
    ensures DistinctKeys(a) ==> DistinctKeys(a[..i] + a[i + 1..])
    ensures DistinctKeys(a) ==> Lookup(a[..i] + a[i + 1..], a[i].0) == None
    ensures forall j :: j != a[i].0 ==> Lookup(a[..i] + a[i + 1..], j) == Lookup(a, j)
  {
    if DistinctKeys(a) {
      RemoveDistinct(a, i);
    }
    forall j | j != a[i].0 {
      RemoveOther(a, i, j);
    }
  }

  lemma RemoveAt<V>(a: Pairs<V>, i: int)
    requires 0 <= i < |a|
    ensures |a[..i] + a[i + 1..]| == |a| - 1
    ensures forall m :: 0 <= m < |a| - 1 ==> (a[..i] + a[i + 1..])[m] == if m < i then a[m] else a[m + 1]
  {
  }

  lemma RemoveDistinct<V>(a: Pairs<V>, i: int)
    requires 0 <= i < |a| && DistinctKeys(a)
    ensures DistinctKeys(a[..i] + a[i + 1..])
    ensures a[i].0 !in Keys(a[..i] + a[i + 1..])
  {
    var r := a[..i] + a[i + 1..];
    RemoveAt(a, i);
    forall m, n | 0 <= m < n < |r| ensures r[m].0 != r[n].0 {
      var m', n' := if m < i then m else m + 1, if n < i then n else n + 1;
      assert r[m] == a[m'] && r[n] == a[n'];
    }
    forall m | 0 <= m < |r| ensures Keys(r)[m] != a[i].0 {
      var m' := if m < i then m else m + 1;
      assert r[m] == a[m'];
    }
  }

  lemma RemoveOther<V>(a: Pairs<V>, i: int, j: string)
    requires 0 <= i < |a| && IndexOf(a, a[i].0) == i && j != a[i].0
    ensures IndexOf(a[..i] + a[i + 1..], j) == (var p := IndexOf(a, j); if p < i then p else p - 1)
    ensures Lookup(a[..i] + a[i + 1..], j) == Lookup(a, j)
  {
    var r := a[..i] + a[i + 1..];
    RemoveAt(a, i);
    var p := IndexOf(a, j);
    if p >= 0 {
      var p' := if p < i then p else p - 1;
      assert r[p'] == a[p];
    }
  }
}
