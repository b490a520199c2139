// A Python dict with string keys as the list of its (key, value) pairs in insertion
// order: assignment overwrites in place or appends, lookup finds the key's value.

module Dict {
  import opened Wrappers

  type Dict<V> = seq<(string, V)>

  function Keys<V>(d: Dict<V>): set<string> {
    set i | 0 <= i < |d| :: d[i].0
  }

  predicate UniqueKeys<V>(d: Dict<V>) {
    forall i, j :: 0 <= i < j < |d| ==> d[i].0 != d[j].0
  }

  lemma KeysCons<V>(p: (string, V), rest: Dict<V>)
    ensures Keys([p] + rest) == {p.0} + Keys(rest)
  {
    var d := [p] + rest;
    forall x | x in Keys(d) ensures x in {p.0} + Keys(rest) {
      var i :| 0 <= i < |d| && d[i].0 == x;
      if i > 0 {
        assert d[i] == rest[i - 1];
      }
    }
    forall x | x in {p.0} + Keys(rest) ensures x in Keys(d) {
      if x == p.0 {
        assert d[0].0 == x;
      } else {
        var i :| 0 <= i < |rest| && rest[i].0 == x;
        assert d[i + 1] == rest[i];
      }
    }
  }

  /** d[k] = v on a dict: overwrite in place when k is present, else append. */
  function Put<V>(d: Dict<V>, k: string, v: V): Dict<V>
  {
    if d == [] then [(k, v)]
    else if d[0].0 == k then [(k, v)] + d[1..]
    else [d[0]] + Put(d[1..], k, v)
  }

  /** The keys gain k; the length grows only for a new key. */
  lemma {:induction false} PutKeys<V>(d: Dict<V>, k: string, v: V)
    ensures Keys(Put(d, k, v)) == Keys(d) + {k}
    ensures |Put(d, k, v)| == if k in Keys(d) then |d| else |d| + 1
  {
    if d == [] {
      assert Put(d, k, v)[0].0 == k;
    } else {
      KeysCons(d[0], d[1..]);
      assert d == [d[0]] + d[1..];
      if d[0].0 == k {
        KeysCons((k, v), d[1..]);
      } else {
        PutKeys(d[1..], k, v);
        KeysCons(d[0], Put(d[1..], k, v));
      }
    }
  }

  lemma TailUnique<V>(d: Dict<V>)
    requires d != [] && UniqueKeys(d)
    ensures d[0].0 !in Keys(d[1..]) && UniqueKeys(d[1..])
  {
    assert forall i :: 0 <= i < |d| - 1 ==> d[1..][i] == d[i + 1];
  }

  /** On a dict with distinct keys, the keys stay distinct and k now holds v. */
  lemma {:induction false} PutUnique<V>(d: Dict<V>, k: string, v: V)
    requires UniqueKeys(d)
    ensures UniqueKeys(Put(d, k, v)) && (k, v) in Put(d, k, v)
  {
    if d != [] {
      TailUnique(d);
      if d[0].0 == k {
        PutUniqueHere(d, k, v);
      } else {
        PutUnique(d[1..], k, v);
        PutKeys(d[1..], k, v);
        ConsUnique(d[0], Put(d[1..], k, v));
        assert Put(d, k, v) == [d[0]] + Put(d[1..], k, v);
      }
    }
  }

  lemma PutUniqueHere<V>(d: Dict<V>, k: string, v: V)
    requires d != [] && d[0].0 == k && UniqueKeys(d)
    ensures UniqueKeys(Put(d, k, v)) && (k, v) in Put(d, k, v)
  {
    var r := Put(d, k, v);
    assert r[0] == (k, v);
    forall i, j | 0 <= i < j < |r| ensures r[i].0 != r[j].0 {
      assert r[j] == d[j];
      if i > 0 {
        assert r[i] == d[i];
      }
    }
  }

  /** Prepending a pair whose key is new keeps keys distinct and keeps every pair. */
  lemma ConsUnique<V>(p: (string, V), rest: Dict<V>)
    requires UniqueKeys(rest) && p.0 !in Keys(rest)
    ensures UniqueKeys([p] + rest)
    ensures forall q :: q in rest ==> q in [p] + rest
  {
    var r := [p] + rest;
    forall i, j | 0 <= i < j < |r| ensures r[i].0 != r[j].0 {
      assert r[j] == rest[j - 1];
      if i == 0 {
        assert r[j].0 in Keys(rest);
      } else {
        assert r[i] == rest[i - 1];
      }
    }
  }

  /** Whatever the value, a put adds its key and keeps distinct keys distinct. */
  lemma PutAnyValue<V>(d: Dict<V>, k: string)
    ensures forall v :: Keys(Put(d, k, v)) == Keys(d) + {k}
    ensures UniqueKeys(d) ==> forall v :: UniqueKeys(Put(d, k, v))
  {
    forall v ensures Keys(Put(d, k, v)) == Keys(d) + {k} && (UniqueKeys(d) ==> UniqueKeys(Put(d, k, v))) {
      PutKeys(d, k, v);
      if UniqueKeys(d) {
        PutUnique(d, k, v);
      }
    }
  }

  /** Assigning a new key appends it. */
  lemma {:induction false} PutNew<V>(d: Dict<V>, k: string, v: V)
    requires k !in Keys(d)
    ensures Put(d, k, v) == d + [(k, v)]
  {
    if d != [] {
      assert d[0].0 in Keys(d);
      assert Keys(d[1..]) <= Keys(d) by {
        forall x | x in Keys(d[1..]) ensures x in Keys(d) {
          var i :| 0 <= i < |d[1..]| && d[1..][i].0 == x;
          assert d[i + 1].0 == x;
        }
      }
      PutNew(d[1..], k, v);
      assert d == [d[0]] + d[1..];
    }
  }

  /** d.get(k): the value stored under k, if any. */
  function Get<V>(d: Dict<V>, k: string): (r: Option<V>)
    ensures r.Some? ==> (k, r.value) in d
  {
    if d == [] then None
    else if d[0].0 == k then Some(d[0].1)
    else Get(d[1..], k)
  }

  /** After d[k] = v, k holds v and every other key holds what it held. */
  lemma {:induction false} PutGet<V>(d: Dict<V>, k: string, v: V, other: string)
    ensures Get(Put(d, k, v), other) == if other == k then Some(v) else Get(d, other)
  {
    if d != [] && d[0].0 != k {
      PutGet(d[1..], k, v, other);
      assert Put(d, k, v)[1..] == Put(d[1..], k, v);
    }
  }

  /** A key has a value exactly when it is one of the keys. */
  lemma {:induction false} GetKeys<V>(d: Dict<V>, k: string)
    ensures Get(d, k).Some? <==> k in Keys(d)
  {
    if d != [] {
      GetKeys(d[1..], k);
      KeysCons(d[0], d[1..]);
      assert d == [d[0]] + d[1..];
    }
  }

  /** d.update(e): the pairs of e assigned one at a time, in e's order. */
  function Update<V>(d: Dict<V>, e: Dict<V>): Dict<V>
    decreases |e|
  {
    if e == [] then d else Update(Put(d, e[0].0, e[0].1), e[1..])
  }

  /** After d.update(e), a key of e holds e's value and any other key what it held in d. */
  lemma {:induction false} UpdateGet<V>(d: Dict<V>, e: Dict<V>, k: string)
    requires UniqueKeys(e)
    ensures Get(Update(d, e), k) == if k in Keys(e) then Get(e, k) else Get(d, k)
    decreases |e|
  {
    if e != [] {
      TailUnique(e);
      KeysCons(e[0], e[1..]);
      assert e == [e[0]] + e[1..];
      UpdateGet(Put(d, e[0].0, e[0].1), e[1..], k);
      PutGet(d, e[0].0, e[0].1, k);
    }
  }

  /** d.update(e) has the keys of both, each once when d's were distinct. */
  lemma {:induction false} UpdateKeys<V>(d: Dict<V>, e: Dict<V>)
    ensures Keys(Update(d, e)) == Keys(d) + Keys(e)
    ensures UniqueKeys(d) ==> UniqueKeys(Update(d, e))
    decreases |e|
  {
    if e != [] {
      KeysCons(e[0], e[1..]);
      assert e == [e[0]] + e[1..];
      PutKeys(d, e[0].0, e[0].1);
      if UniqueKeys(d) {
        PutUnique(d, e[0].0, e[0].1);
      }
      UpdateKeys(Put(d, e[0].0, e[0].1), e[1..]);
    }
  }

  /** Updating with one more pair is one more assignment at the end. */
  lemma {:induction false} UpdateSnoc<V>(d: Dict<V>, e: Dict<V>, p: (string, V))
    ensures Update(d, e + [p]) == Put(Update(d, e), p.0, p.1)
    decreases |e|
  {
    if e == [] {
      assert e + [p] == [p];
    } else {
      assert (e + [p])[0] == e[0] && (e + [p])[1..] == e[1..] + [p];
      UpdateSnoc(Put(d, e[0].0, e[0].1), e[1..], p);
    }
  }
}
