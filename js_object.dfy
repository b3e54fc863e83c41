/**
 * A plain JavaScript object with string keys, as the dashboard's React state
 * uses it: an insertion-ordered list of (key, value) entries. For the
 * non-numeric keys used here (child names) `Object.values` enumerates the
 * entries in that order, and the spread update
 * `{ ...prev, [k]: v }` overwrites an existing key where it stands or appends
 * a new key at the end.
 */
module JsObject {
  import opened JsValues

  type Entries<V> = seq<(string, V)>

  /** The keys present in the object. */
  function Keys<V>(e: Entries<V>): (ks: set<string>)
    ensures forall i :: 0 <= i < |e| ==> e[i].0 in ks
  {
    set i | 0 <= i < |e| :: e[i].0
  }

  lemma KeysCons<V>(x: (string, V), t: Entries<V>)
    ensures Keys([x] + t) == {x.0} + Keys(t)
  {
    var e := [x] + t;
    assert e[0] == x;
    forall key | key in Keys(e) ensures key in {x.0} + Keys(t) {
      var i :| 0 <= i < |e| && e[i].0 == key;
      if i > 0 { assert t[i - 1] == e[i]; }
    }
    forall key | key in Keys(t) ensures key in Keys(e) {
      var i :| 0 <= i < |t| && t[i].0 == key;
      assert e[i + 1] == t[i];
    }
  }

  /** A real object never holds one key twice. */
  predicate DistinctKeys<V>(e: Entries<V>)
  {
    forall i, j :: 0 <= i < j < |e| ==> e[i].0 != e[j].0
  }

  /** `obj[k]`: the value stored under `k`, or None for `undefined`. */
  function Get<V>(e: Entries<V>, k: string): (r: Option<V>)
    ensures r.None? <==> k !in Keys(e)
    ensures r.Some? ==> (k, r.value) in e
  {
    if e == [] then None
    else if e[0].0 == k then Some(e[0].1)
    else
      var r := Get(e[1..], k);
      KeysCons(e[0], e[1..]);
      r
  }

  lemma GetCons<V>(x: (string, V), t: Entries<V>, k: string)
    ensures Get([x] + t, k) == if x.0 == k then Some(x.1) else Get(t, k)
  {
    assert ([x] + t)[1..] == t;
  }

  /** `{ ...e, [k]: v }`. */
  function Put<V>(e: Entries<V>, k: string, v: V): (r: Entries<V>)
    ensures Get(r, k) == Some(v)
    ensures forall k' :: k' != k ==> Get(r, k') == Get(e, k')
    ensures Keys(r) == Keys(e) + {k}
    ensures k !in Keys(e) ==> r == e + [(k, v)]
    ensures k in Keys(e) ==> |r| == |e|
  {
    if e == [] then [(k, v)]
    else
      KeysCons(e[0], e[1..]);
      assert e == [e[0]] + e[1..];
      if e[0].0 == k then
        var r := [(k, v)] + e[1..];
        KeysCons((k, v), e[1..]);
        GetCons((k, v), e[1..], k);
        forall k' | k' != k ensures Get(r, k') == Get(e, k') {
          GetCons((k, v), e[1..], k');
          GetCons(e[0], e[1..], k');
        }
        r
      else
        var t := Put(e[1..], k, v);
        var r := [e[0]] + t;
        KeysCons(e[0], t);
        GetCons(e[0], t, k);
        forall k' | k' != k ensures Get(r, k') == Get(e, k') {
          GetCons(e[0], t, k');
          GetCons(e[0], e[1..], k');
        }
        r
  }

  /** One unfolding of `Put` at the head of a non-empty object. */
  lemma PutHead<V>(e: Entries<V>, k: string, v: V)
    requires e != []
    ensures e[0].0 == k ==> Put(e, k, v) == [(k, v)] + e[1..]
    ensures e[0].0 != k ==> Put(e, k, v) == [e[0]] + Put(e[1..], k, v)
  {
  }

  /** The index of the first entry whose key is `k`, for a key that is present. */
  function FirstIndex<V>(e: Entries<V>, k: string): (i: nat)
    requires k in Keys(e)
    ensures i < |e| && e[i].0 == k
    ensures forall j :: 0 <= j < i ==> e[j].0 != k
  {
    KeysCons(e[0], e[1..]);
    assert e == [e[0]] + e[1..];
    if e[0].0 == k then 0
    else
      var i := FirstIndex(e[1..], k);
      assert forall j :: 1 <= j <= i ==> e[j] == e[1..][j - 1];
      i + 1
  }

  /**
   * Overwriting a key that is present replaces its first entry where it
   * stands: every other entry keeps its position.
   */
  lemma {:induction false} PutKeepsPosition<V>(e: Entries<V>, k: string, v: V)
    requires k in Keys(e)
    ensures Put(e, k, v) == e[FirstIndex(e, k) := (k, v)]
  {
    KeysCons(e[0], e[1..]);
    assert e == [e[0]] + e[1..];
    PutHead(e, k, v);
    if e[0].0 != k {
      PutKeepsPosition(e[1..], k, v);
      assert [e[0]] + e[1..][FirstIndex(e[1..], k) := (k, v)] == e[FirstIndex(e, k) := (k, v)];
    }
  }

  /** Writing a key keeps the keys distinct. */
  lemma {:induction false} PutKeepsDistinct<V>(e: Entries<V>, k: string, v: V)
    requires DistinctKeys(e)
    ensures DistinctKeys(Put(e, k, v))
  {
    if e != [] {
      KeysCons(e[0], e[1..]);
      if e[0].0 != k {
        PutKeepsDistinct(e[1..], k, v);
        var t := Put(e[1..], k, v);
        assert e[0].0 !in Keys(e[1..]);
        assert e[0].0 !in Keys(t);
      }
    }
  }

  /** The object with key `k` deleted (the order of the others is kept). */
  function Without<V>(e: Entries<V>, k: string): (r: Entries<V>)
    ensures Get(r, k) == None
    ensures forall k' :: k' != k ==> Get(r, k') == Get(e, k')
    ensures Keys(r) == Keys(e) - {k}
    ensures DistinctKeys(e) ==> DistinctKeys(r)
  {
    if e == [] then []
    else
      var t := Without(e[1..], k);
      KeysCons(e[0], e[1..]);
      assert e == [e[0]] + e[1..];
      assert DistinctKeys(e) ==> DistinctKeys(e[1..]) && e[0].0 !in Keys(e[1..]) by {
        if DistinctKeys(e) {
          forall i | 0 <= i < |e[1..]| ensures e[1..][i].0 != e[0].0 {
            assert e[1..][i] == e[i + 1];
          }
        }
      }
      if e[0].0 == k then
        forall k' | k' != k ensures Get(t, k') == Get(e, k') {
          GetCons(e[0], e[1..], k');
        }
        t
      else
        var r := [e[0]] + t;
        KeysCons(e[0], t);
        GetCons(e[0], t, k);
        forall k' | k' != k ensures Get(r, k') == Get(e, k') {
          GetCons(e[0], t, k');
          GetCons(e[0], e[1..], k');
        }
        assert DistinctKeys(e) ==> DistinctKeys(r) by {
          if DistinctKeys(e) {
            forall i, j | 0 <= i < j < |r| ensures r[i].0 != r[j].0 {
              assert r[j] == t[j - 1];
              if i > 0 { assert r[i] == t[i - 1]; }
            }
          }
        }
        r
  }

  /** Writing the same key and value twice is the same as writing it once. */
  lemma {:induction false} PutIdempotent<V>(e: Entries<V>, k: string, v: V)
    ensures Put(Put(e, k, v), k, v) == Put(e, k, v)
  {
    if e != [] && e[0].0 != k {
      PutIdempotent(e[1..], k, v);
      assert Put(e, k, v)[1..] == Put(e[1..], k, v);
    }
  }

  /** The last of two writes to the same key wins. */
  lemma {:induction false} PutLastWins<V>(e: Entries<V>, k: string, v1: V, v2: V)
    ensures Put(Put(e, k, v1), k, v2) == Put(e, k, v2)
  {
    if e != [] && e[0].0 != k {
      PutLastWins(e[1..], k, v1, v2);
      assert Put(e, k, v1)[1..] == Put(e[1..], k, v1);
    }
  }
}
