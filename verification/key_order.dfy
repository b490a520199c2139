// Python's ordering of strings (code point by code point, a proper prefix first)
// and `sorted(d.items(), key=lambda x: x[0])` on a dict with string keys.

module KeyOrder {
  import opened Dict

  /** a <= b for Python strings. */
  predicate StrLeq(a: string, b: string) {
    if a == [] then true
    else if b == [] then false
    else if a[0] != b[0] then a[0] < b[0]
    else StrLeq(a[1..], b[1..])
  }

  lemma {:induction false} StrLeqTotal(a: string, b: string)
    ensures StrLeq(a, b) || StrLeq(b, a)
  {
    if a != [] && b != [] && a[0] == b[0] {
      StrLeqTotal(a[1..], b[1..]);
    }
  }

  lemma {:induction false} StrLeqTrans(a: string, b: string, c: string)
    requires StrLeq(a, b) && StrLeq(b, c)
    ensures StrLeq(a, c)
  {
    if a != [] && b != [] && c != [] && a[0] == b[0] && b[0] == c[0] {
      StrLeqTrans(a[1..], b[1..], c[1..]);
    }
  }

  lemma {:induction false} StrLeqAntisym(a: string, b: string)
    requires StrLeq(a, b) && StrLeq(b, a)
    ensures a == b
  {
    if a != [] && b != [] {
      StrLeqAntisym(a[1..], b[1..]);
      assert a == [a[0]] + a[1..] && b == [b[0]] + b[1..];
    }
  }

  /** Keys in ascending order. */
  predicate SortedByKey<V>(s: Dict<V>) {
    forall i, j :: 0 <= i < j < |s| ==> StrLeq(s[i].0, s[j].0)
  }

  function Insert<V>(p: (string, V), s: Dict<V>): (r: Dict<V>)
    ensures multiset(r) == multiset(s) + multiset{p}
    ensures |r| == |s| + 1
  {
    if s == [] then [p]
    else if StrLeq(p.0, s[0].0) then [p] + s
    else
      assert s == [s[0]] + s[1..];
      [s[0]] + Insert(p, s[1..])
  }

  lemma {:induction false} InsertSorted<V>(p: (string, V), s: Dict<V>)
    requires SortedByKey(s)
    ensures SortedByKey(Insert(p, s))
  {
    if s == [] {
    } else if StrLeq(p.0, s[0].0) {
      var r := [p] + s;
      forall i, j | 0 <= i < j < |r| ensures StrLeq(r[i].0, r[j].0) {
        if i == 0 && j > 1 {
          StrLeqTrans(p.0, s[0].0, s[j - 1].0);
        }
      }
    } else {
      var tail := s[1..];
      assert SortedByKey(tail) by {
        forall i, j | 0 <= i < j < |tail| ensures StrLeq(tail[i].0, tail[j].0) {
          assert tail[i] == s[i + 1] && tail[j] == s[j + 1];
        }
      }
      InsertSorted(p, tail);
      StrLeqTotal(p.0, s[0].0);
      HeadBelowInsert(p, s);
      ConsSorted(s[0], Insert(p, tail));
    }
  }

  /** The head of a sorted list is at most every key of the rest with a larger key inserted. */
  lemma HeadBelowInsert<V>(p: (string, V), s: Dict<V>)
    requires s != [] && SortedByKey(s) && StrLeq(s[0].0, p.0)
    ensures forall k :: 0 <= k < |Insert(p, s[1..])| ==> StrLeq(s[0].0, Insert(p, s[1..])[k].0)
  {
    var rest := Insert(p, s[1..]);
    forall k | 0 <= k < |rest| ensures StrLeq(s[0].0, rest[k].0) {
      var x := rest[k];
      assert x in multiset(rest);
      if x != p {
        assert x in multiset(s[1..]);
        var m :| 0 <= m < |s[1..]| && s[1..][m] == x;
        assert s[m + 1] == x;
      }
    }
  }

  lemma ConsSorted<V>(h: (string, V), rest: Dict<V>)
    requires SortedByKey(rest) && forall k :: 0 <= k < |rest| ==> StrLeq(h.0, rest[k].0)
    ensures SortedByKey([h] + rest)
  {
    var r := [h] + rest;
    forall i, j | 0 <= i < j < |r| ensures StrLeq(r[i].0, r[j].0) {
      assert r[j] == rest[j - 1];
      if i > 0 {
        assert r[i] == rest[i - 1];
      }
    }
  }

  /** sorted() by key: an insertion sort, stable as Python's is. */
  function SortByKey<V>(d: Dict<V>): (r: Dict<V>)
    ensures multiset(r) == multiset(d) && |r| == |d|
  {
    if d == [] then []
    else
      assert d == [d[0]] + d[1..];
      Insert(d[0], SortByKey(d[1..]))
  }

  /** The result of sorting is in ascending key order. */
  lemma {:induction false} SortByKeySorted<V>(d: Dict<V>)
    ensures SortedByKey(SortByKey(d))
  {
    if d != [] {
      SortByKeySorted(d[1..]);
      InsertSorted(d[0], SortByKey(d[1..]));
    }
  }

  /** Sorting keeps exactly the pairs, hence the keys and their distinctness; distinct keys come out strictly ascending. */
  lemma SortByKeyKeys<V>(d: Dict<V>)
    requires UniqueKeys(d)
    ensures Keys(SortByKey(d)) == Keys(d)
    ensures UniqueKeys(SortByKey(d))
    ensures forall i, j :: 0 <= i < j < |SortByKey(d)| ==>
      StrLeq(SortByKey(d)[i].0, SortByKey(d)[j].0) && SortByKey(d)[i].0 != SortByKey(d)[j].0
  {
    var r := SortByKey(d);
    SortByKeySorted(d);
    forall x | x in Keys(r) ensures x in Keys(d) {
      var i :| 0 <= i < |r| && r[i].0 == x;
      assert r[i] in multiset(d);
    }
    forall x | x in Keys(d) ensures x in Keys(r) {
      var i :| 0 <= i < |d| && d[i].0 == x;
      assert d[i] in multiset(r);
    }
    forall i, j | 0 <= i < j < |r| ensures r[i].0 != r[j].0 {
      assert r[i] in multiset(d) && r[j] in multiset(d);
      if r[i] == r[j] {
        TwiceInSeq(r, i, j);
        OnceInUnique(d, r[i]);
        assert false;
      }
      var a :| 0 <= a < |d| && d[a] == r[i];
      var b :| 0 <= b < |d| && d[b] == r[j];
    }
  }

  lemma TwiceInSeq<V>(r: Dict<V>, i: nat, j: nat)
    requires i < j < |r| && r[i] == r[j]
    ensures multiset(r)[r[i]] >= 2
  {
    var x := r[i];
    assert r == r[..i] + [x] + r[i + 1..j] + [x] + r[j + 1..];
  }

  /** A pair of a dict with distinct keys occurs in it once. */
  lemma {:induction false} OnceInUnique<V>(d: Dict<V>, x: (string, V))
    requires UniqueKeys(d) && x in d
    ensures multiset(d)[x] == 1
  {
    TailUnique(d);
    assert d == [d[0]] + d[1..];
    if d[0] == x {
      forall m | 0 <= m < |d[1..]| ensures d[1..][m] != x {
        assert d[1..][m].0 in Keys(d[1..]);
      }
      assert x !in d[1..];
    } else {
      OnceInUnique(d[1..], x);
    }
  }
}
