/** A plain JavaScript object used as a dictionary: its own properties as
    (key, value) pairs in insertion order, no key twice. The configuration
    store keeps `actualSync` and `plaidAccounts` in this shape, and
    `Object.entries` hands them out in this order. */
module Dict {
  import opened Wrappers
  import Seqs

  type Dict<V> = seq<(string, V)>

  /** `d || {}` for a dictionary that may be `undefined`: a missing one reads
      as empty. A stored dictionary is an object, truthy even when it has no
      entries, so it is read as it is. */
  function OrEmpty<V>(d: Option<Dict<V>>): (r: Dict<V>)
    ensures d.None? ==> r == []
    ensures d.Some? ==> r == d.value
    ensures |r| == 0 <==> d.None? || d.value == []
  {
    if d.Some? then d.value else []
  }

  /** `Object.keys(d)`. */
  function Keys<V>(d: Dict<V>): (ks: seq<string>)
    ensures |ks| == |d| && forall i :: 0 <= i < |d| ==> ks[i] == d[i].0
  {
    seq(|d|, i requires 0 <= i < |d| => d[i].0)
  }

  /** Every key occurs once. */
  ghost predicate Valid<V>(d: Dict<V>)
  {
    forall i, j :: 0 <= i < |d| && 0 <= j < |d| && i != j ==> d[i].0 != d[j].0
  }

  /** `d[k]`, with `None` for `undefined`. */
  function Get<V>(d: Dict<V>, k: string): (r: Option<V>)
    ensures r.None? <==> k !in Keys(d)
    ensures r.Some? ==> (k, r.value) in d
    ensures Valid(d) ==> forall i :: 0 <= i < |d| && d[i].0 == k ==> r == Some(d[i].1)
  {
    if d == [] then None
    else if d[0].0 == k then Some(d[0].1)
    else
      assert Keys(d) == [d[0].0] + Keys(d[1..]);
      Get(d[1..], k)
  }

  /** `d[k] = v`: an existing key keeps its position, a new key goes last. */
  function Set<V>(d: Dict<V>, k: string, v: V): (r: Dict<V>)
    requires Valid(d)
    ensures Valid(r)
    ensures Get(r, k) == Some(v)
    ensures forall k' :: k' != k ==> Get(r, k') == Get(d, k')
    ensures Keys(r) == if k in Keys(d) then Keys(d) else Keys(d) + [k]
  {
    if k in Keys(d) then Replace(d, k, v) else Append(d, k, v)
  }

  /** `Set` on a key that is present: the value changes in place. */
  function Replace<V>(d: Dict<V>, k: string, v: V): (r: Dict<V>)
    requires Valid(d) && k in Keys(d)
    ensures Valid(r) && Keys(r) == Keys(d)
    ensures Get(r, k) == Some(v)
    ensures forall k' :: k' != k ==> Get(r, k') == Get(d, k')
  {
    var r := seq(|d|, i requires 0 <= i < |d| => if d[i].0 == k then (k, v) else d[i]);
    assert Keys(r) == Keys(d);
    r
  }

  /** `Set` on a key that is absent: the entry goes last. */
  function Append<V>(d: Dict<V>, k: string, v: V): (r: Dict<V>)
    requires Valid(d) && k !in Keys(d)
    ensures Valid(r) && Keys(r) == Keys(d) + [k]
    ensures Get(r, k) == Some(v)
    ensures forall k' :: k' != k ==> Get(r, k') == Get(d, k')
  {
    var r := d + [(k, v)];
    assert Keys(r) == Keys(d) + [k];
    assert forall i :: 0 <= i < |d| ==> r[i] == d[i];
    assert Valid(r) by {
      forall i | 0 <= i < |d|
        ensures r[i].0 != k
      {
        assert Keys(d)[i] == d[i].0;
      }
    }
    assert r[|d|] == (k, v);
    forall k' | k' != k && k' in Keys(d)
      ensures Get(r, k') == Get(d, k')
    {
      var j :| 0 <= j < |d| && Keys(d)[j] == k';
      assert r[j] == d[j];
    }
    r
  }

  /** A selection of a dictionary's entries is again a dictionary. */
  lemma {:induction false} FilterValid<V(!new)>(d: Dict<V>, p: ((string, V)) -> bool)
    requires Valid(d)
    ensures Valid(Seqs.Filter(d, p))
  {
    if d != [] {
      FilterValid(d[1..], p);
      var rest := Seqs.Filter(d[1..], p);
      forall j | 0 <= j < |rest|
        ensures rest[j].0 != d[0].0
      {
        assert rest[j] in d[1..];
      }
    }
  }

  /** `delete d[k]`: removes the entry for `k`, if any, and nothing else. */
  function Remove<V(==,!new)>(d: Dict<V>, k: string): (r: Dict<V>)
    requires Valid(d)
    ensures Valid(r)
    ensures Seqs.SubsequenceOf(r, d)
    ensures Get(r, k) == None
    ensures forall k' :: k' != k ==> Get(r, k') == Get(d, k')
  {
    var r := Seqs.Filter(d, (e: (string, V)) => e.0 != k);
    FilterValid(d, (e: (string, V)) => e.0 != k);
    forall k' | k' != k
      ensures Get(r, k') == Get(d, k')
    {
      var g := Get(d, k');
      if g.Some? {
        assert (k', g.value) in r;
      }
    }
    r
  }
}
