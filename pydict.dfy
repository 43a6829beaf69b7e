/**
 * Python's built-in `dict`, as far as the proxy relies on it: a mapping whose
 * iteration order is the order in which keys were first inserted. Assigning
 * to a new key appends it; assigning to a key already present replaces its
 * value and leaves its position alone.
 */
module PyDict {
  type Key = string

  /** `keys` is the iteration order, `entries` the key/value mapping. */
  datatype Dict<V> = Dict(keys: seq<Key>, entries: map<Key, V>)

  /** Every key of `entries` is listed in `keys`, exactly once. */
  ghost predicate WellFormed<V>(d: Dict<V>)
  {
    && (forall i, j :: 0 <= i < j < |d.keys| ==> d.keys[i] != d.keys[j])
    && (forall k :: k in d.entries <==> k in d.keys)
  }

  /** `{}` */
  function Empty<V>(): (d: Dict<V>)
    ensures WellFormed(d) && d.entries == map[]
  {
    Dict([], map[])
  }

  /** `d[k] = v` */
  function Put<V>(d: Dict<V>, k: Key, v: V): (r: Dict<V>)
    ensures r.entries == d.entries[k := v]
    ensures WellFormed(d) ==> WellFormed(r)
    ensures WellFormed(d) && k in d.keys ==> r.keys == d.keys
    ensures WellFormed(d) && k !in d.keys ==> r.keys == d.keys + [k]
  {
    if k in d.entries then Dict(d.keys, d.entries[k := v])
    else Dict(d.keys + [k], d.entries[k := v])
  }

  /**
   * The iteration order of a dict that starts empty and receives the keys of
   * `s` one after the other: `s` with every repetition of a key dropped.
   */
  function FirstOccurrences(s: seq<Key>): (r: seq<Key>)
    ensures forall x :: x in r <==> x in s
    ensures forall i, j :: 0 <= i < j < |r| ==> r[i] != r[j]
  {
    if s == [] then []
    else
      var n := |s| - 1;
      var r := FirstOccurrences(s[..n]);
      assert s == s[..n] + [s[n]];
      if s[n] in r then r else r + [s[n]]
  }

  /** The position at which `x` first occurs in `s`. */
  function FirstIndex(s: seq<Key>, x: Key): (p: nat)
    requires x in s
    ensures p < |s| && s[p] == x && x !in s[..p]
  {
    if s[0] == x then 0
    else
      assert x in s[1..];
      var p := FirstIndex(s[1..], x);
      assert s[..p + 1] == [s[0]] + s[1..][..p];
      p + 1
  }

  /** Appending to `s` does not move the first occurrence of a key already in `s`. */
  lemma FirstIndexAppend(s: seq<Key>, t: seq<Key>, x: Key)
    requires x in s
    ensures FirstIndex(s + t, x) == FirstIndex(s, x)
  {
    var p, q := FirstIndex(s, x), FirstIndex(s + t, x);
    assert (s + t)[..p] == s[..p];
    assert q <= p by { assert (s + t)[p] == x; }
    assert p <= q by { if q < |s| { assert (s + t)[..q] == s[..q]; } }
  }

  /**
   * The keys of FirstOccurrences(s) are listed in the order in which they
   * first occur in `s`.
   */
  lemma {:induction false} FirstOccurrencesInOrder(s: seq<Key>, i: nat, j: nat)
    requires i < j < |FirstOccurrences(s)|
    ensures FirstIndex(s, FirstOccurrences(s)[i]) < FirstIndex(s, FirstOccurrences(s)[j])
  {
    var n := |s| - 1;
    var r := FirstOccurrences(s[..n]);
    assert s == s[..n] + [s[n]];
    var a, b := FirstOccurrences(s)[i], FirstOccurrences(s)[j];
    if s[n] in r || j < |r| {
      FirstOccurrencesInOrder(s[..n], i, j);
      FirstIndexAppend(s[..n], [s[n]], a);
      FirstIndexAppend(s[..n], [s[n]], b);
    } else {
      assert b == s[n] && b !in s[..n];
      FirstIndexAppend(s[..n], [s[n]], a);
    }
  }

  /** Inserting more keys never moves the keys already there: the old order is a prefix of the new one. */
  lemma {:induction false} FirstOccurrencesPrefix(s: seq<Key>, t: seq<Key>)
    ensures FirstOccurrences(s) <= FirstOccurrences(s + t)
  {
    if t != [] {
      var n := |t| - 1;
      FirstOccurrencesPrefix(s, t[..n]);
      assert (s + t)[..|s + t| - 1] == s + t[..n];
    } else {
      assert s + t == s;
    }
  }
}
