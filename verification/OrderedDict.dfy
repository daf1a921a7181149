/** Python's insertion-ordered dict of reals, with the sums and counts taken over its values. */
module OrderedDict {
  import opened Common

  datatype Entry<K> = Entry(key: K, value: real)

  type Dict<K> = seq<Entry<K>>

  function Get<K(==)>(d: Dict<K>, k: K): Option<real> {
    if d == [] then None
    else if d[|d| - 1].key == k then Some(d[|d| - 1].value)
    else Get(d[..|d| - 1], k)
  }

  function GetOr<K(==)>(d: Dict<K>, k: K, default: real): real {
    match Get(d, k) case Some(v) => v case None => default
  }

  /** Overwrite in place, or append. */
  function Put<K(==)>(d: Dict<K>, k: K, v: real): Dict<K> {
    if d == [] then [Entry(k, v)]
    else
      var n := |d| - 1;
      if d[n].key == k then d[n := Entry(k, v)]
      else if Get(d[..n], k).None? then d + [Entry(k, v)]
      else Put(d[..n], k, v) + [d[n]]
  }

  function Total<K>(d: Dict<K>): real {
    if d == [] then 0.0 else Total(d[..|d| - 1]) + d[|d| - 1].value
  }

  function Positives<K>(d: Dict<K>): nat {
    if d == [] then 0 else Positives(d[..|d| - 1]) + if d[|d| - 1].value > 0.0 then 1 else 0
  }

  ghost predicate Keyed<K(!new)>(d: Dict<K>) {
    forall i, j :: 0 <= i < j < |d| ==> d[i].key != d[j].key
  }

  lemma {:induction false} GetNone<K(!new)>(d: Dict<K>, k: K)
    ensures Get(d, k).None? <==> forall j :: 0 <= j < |d| ==> d[j].key != k
  {
    if d != [] { GetNone(d[..|d| - 1], k); }
  }

  lemma {:induction false} GetPush<K(!new)>(d: Dict<K>, e: Entry<K>, x: K)
    ensures Get(d + [e], x) == if e.key == x then Some(e.value) else Get(d, x)
  {
    assert (d + [e])[..|d|] == d;
  }

  lemma {:induction false} PutGet<K(!new)>(d: Dict<K>, k: K, v: real, x: K)
    ensures Get(Put(d, k, v), x) == if x == k then Some(v) else Get(d, x)
    ensures |Put(d, k, v)| == |d| + if Get(d, k).None? then 1 else 0
  {
    if d == [] {
      GetPush([], Entry(k, v), x);
      assert [] + [Entry(k, v)] == [Entry(k, v)];
    } else {
      var init, last := d[..|d| - 1], d[|d| - 1];
      assert d == init + [last];
      GetPush(init, last, x);
      GetPush(init, last, k);
      if last.key == k {
        assert Put(d, k, v) == init + [Entry(k, v)];
        GetPush(init, Entry(k, v), x);
      } else if Get(init, k).None? {
        GetPush(d, Entry(k, v), x);
      } else {
        PutGet(init, k, v, x);
        GetPush(Put(init, k, v), last, x);
      }
    }
  }

  lemma {:induction false} PutPlaces<K(!new)>(d: Dict<K>, k: K, v: real)
    ensures forall j :: 0 <= j < |Put(d, k, v)| ==>
      Put(d, k, v)[j].key == k || (j < |d| && Put(d, k, v)[j].key == d[j].key)
  {
    if d != [] {
      var n := |d| - 1;
      PutPlaces(d[..n], k, v);
      if d[n].key != k && Get(d[..n], k).Some? { PutGet(d[..n], k, v, k); }
    }
  }

  lemma {:induction false} KeyedPush<K(!new)>(d: Dict<K>, e: Entry<K>)
    requires Keyed(d) && Get(d, e.key).None?
    ensures Keyed(d + [e])
  {
    GetNone(d, e.key);
  }

  lemma {:induction false} PutKeyed<K(!new)>(d: Dict<K>, k: K, v: real)
    requires Keyed(d)
    ensures Keyed(Put(d, k, v))
  {
    if d != [] {
      var init, last := d[..|d| - 1], d[|d| - 1];
      GetNone(init, last.key);
      PutKeyed(init, k, v);
      if last.key == k {
        assert Put(d, k, v) == init + [Entry(k, v)];
        KeyedPush(init, Entry(k, v));
      } else if Get(init, k).None? {
        GetPush(init, last, k);
        assert d == init + [last];
        KeyedPush(d, Entry(k, v));
      } else {
        PutGet(init, k, v, last.key);
        KeyedPush(Put(init, k, v), last);
      }
    }
  }

  lemma {:induction false} PutKeys<K(!new)>(d: Dict<K>, k: K, v: real)
    requires Keyed(d)
    ensures Keyed(Put(d, k, v))
    ensures forall x :: Get(Put(d, k, v), x) == if x == k then Some(v) else Get(d, x)
    ensures |Put(d, k, v)| == |d| + if Get(d, k).None? then 1 else 0
    ensures forall j :: 0 <= j < |Put(d, k, v)| ==>
      Put(d, k, v)[j].key == k || (j < |d| && Put(d, k, v)[j].key == d[j].key)
  {
    PutKeyed(d, k, v);
    PutPlaces(d, k, v);
    PutGet(d, k, v, k);
    forall x ensures Get(Put(d, k, v), x) == if x == k then Some(v) else Get(d, x) { PutGet(d, k, v, x); }
  }

  /** Writing one key moves the total by the change of that key's value. */
  lemma {:induction false} PutTotal<K(!new)>(d: Dict<K>, k: K, v: real)
    ensures Total(Put(d, k, v)) == Total(d) - GetOr(d, k, 0.0) + v
    ensures Positives(Put(d, k, v)) ==
      Positives(d) - (if GetOr(d, k, 0.0) > 0.0 then 1 else 0) + (if v > 0.0 then 1 else 0)
  {
    if d == [] {
      assert [Entry(k, v)][..0] == [];
    } else {
      var n := |d| - 1;
      if d[n].key == k {
        assert d[n := Entry(k, v)][..n] == d[..n];
      } else if Get(d[..n], k).None? {
        assert (d + [Entry(k, v)])[..|d|] == d;
      } else {
        PutTotal(d[..n], k, v);
        var p := Put(d[..n], k, v);
        assert (p + [d[n]])[..|p|] == p;
      }
    }
  }
}
