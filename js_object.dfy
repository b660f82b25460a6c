/** A plain JavaScript object used as a dictionary with string keys, as an association
    list in key-insertion order: `{ ...o, [k]: v }` overwrites an existing key in place
    and appends a new one at the end. */
module JsObject {
  import opened Js

  datatype Entry<V> = Entry(key: string, value: V)

  /** Position of key `k`, or `|o|` when it is absent. */
  function Find<V>(o: seq<Entry<V>>, k: string): (i: nat)
    ensures i <= |o|
    ensures i < |o| ==> o[i].key == k
    ensures forall j :: 0 <= j < i ==> o[j].key != k
  {
    if o == [] then 0 else if o[0].key == k then 0 else 1 + Find(o[1..], k)
  }

  /** The three facts above determine the position. */
  lemma FindIs<V>(o: seq<Entry<V>>, k: string, i: nat)
    requires i <= |o| && (i < |o| ==> o[i].key == k)
    requires forall j :: 0 <= j < i ==> o[j].key != k
    ensures Find(o, k) == i
  {
  }

  /** `o[k]` */
  function Get<V>(o: seq<Entry<V>>, k: string): Option<V> {
    var i := Find(o, k);
    if i < |o| then Some(o[i].value) else None
  }

  /** `{ ...o, [k]: v }` */
  function Put<V>(o: seq<Entry<V>>, k: string, v: V): seq<Entry<V>> {
    var i := Find(o, k);
    if i < |o| then o[i := Entry(k, v)] else o + [Entry(k, v)]
  }

  /** Writing a key the object does not have appends it. */
  lemma PutAbsent<V>(o: seq<Entry<V>>, k: string, v: V)
    requires forall i :: 0 <= i < |o| ==> o[i].key != k
    ensures Put(o, k, v) == o + [Entry(k, v)]
  {
    FindIs(o, k, |o|);
  }

  /** Appending an entry only adds its key, and only when the key was absent. */
  lemma GetSnoc<V>(o: seq<Entry<V>>, k: string, v: V)
    ensures forall k' :: Get(o + [Entry(k, v)], k') ==
              if Get(o, k').Some? then Get(o, k') else if k' == k then Some(v) else None
  {
    var r := o + [Entry(k, v)];
    forall k' ensures Get(r, k') == if Get(o, k').Some? then Get(o, k') else if k' == k then Some(v) else None {
      var i := Find(o, k');
      if i < |o| {
        FindIs(r, k', i);
      } else if k' == k {
        FindIs(r, k', |o|);
      } else {
        FindIs(r, k', |r|);
      }
    }
  }

  ghost function Keys<V>(o: seq<Entry<V>>): set<string> {
    set i | 0 <= i < |o| :: o[i].key
  }

  /** Each key appears once, as in a real object. */
  ghost predicate UniqueKeys<V>(o: seq<Entry<V>>) {
    forall i, j :: 0 <= i < j < |o| ==> o[i].key != o[j].key
  }

  /** The key just written reads back the value just written. */
  lemma PutGet<V>(o: seq<Entry<V>>, k: string, v: V)
    ensures Get(Put(o, k, v), k) == Some(v)
  {
    var i := Find(o, k);
    var r := Put(o, k, v);
    FindIs(r, k, i);
  }

  /** Every other key keeps its value (or stays absent). */
  lemma PutOther<V>(o: seq<Entry<V>>, k: string, v: V, k': string)
    requires k' != k
    ensures Get(Put(o, k, v), k') == Get(o, k')
  {
    var i, i' := Find(o, k), Find(o, k');
    var r := Put(o, k, v);
    assert forall j :: 0 <= j < |o| ==> r[j].key == o[j].key || j == i;
    if i' < |o| {
      FindIs(r, k', i');
    } else {
      FindIs(r, k', |r|);
    }
  }

  /** Writing adds the key to the key set and nothing else; the keys stay unique and
      the object grows by one exactly when the key is new. */
  lemma PutKeys<V>(o: seq<Entry<V>>, k: string, v: V)
    requires UniqueKeys(o)
    ensures Keys(Put(o, k, v)) == Keys(o) + {k}
    ensures UniqueKeys(Put(o, k, v))
    ensures |Put(o, k, v)| == if k in Keys(o) then |o| else |o| + 1
  {
    var i := Find(o, k);
    var r := Put(o, k, v);
    forall x | x in Keys(r) ensures x in Keys(o) + {k} {
      var j :| 0 <= j < |r| && r[j].key == x;
      if j < |o| && j != i { assert o[j].key == x; }
    }
    forall x | x in Keys(o) + {k} ensures x in Keys(r) {
      if x == k {
        assert r[if i < |o| then i else |o|].key == k;
      } else {
        var j :| 0 <= j < |o| && o[j].key == x;
        assert r[j].key == x;
      }
    }
    if i == |o| {
      assert k !in Keys(o);
    } else {
      assert k in Keys(o);
    }
  }

  /** `Object.keys(o).length` */
  lemma KeyCount<V>(o: seq<Entry<V>>)
    requires UniqueKeys(o)
    ensures |Keys(o)| == |o|
    decreases |o|
  {
    if o != [] {
      var init := o[..|o| - 1];
      KeyCount(init);
      assert Keys(o) == Keys(init) + {o[|o| - 1].key} by {
        forall x | x in Keys(o) ensures x in Keys(init) + {o[|o| - 1].key} {
          var j :| 0 <= j < |o| && o[j].key == x;
          if j < |init| { assert init[j].key == x; }
        }
      }
      assert o[|o| - 1].key !in Keys(init);
    }
  }

  /** The sum of `w` over the values, in key order (a `for…in` accumulation). */
  function SumValues<V>(o: seq<Entry<V>>, w: V -> int): int
    decreases |o|
  {
    if o == [] then 0 else SumValues(o[..|o| - 1], w) + w(o[|o| - 1].value)
  }

  lemma {:induction false} SumValuesUpdate<V>(o: seq<Entry<V>>, i: nat, e: Entry<V>, w: V -> int)
    requires i < |o|
    ensures SumValues(o[i := e], w) == SumValues(o, w) - w(o[i].value) + w(e.value)
    decreases |o|
  {
    var n := |o| - 1;
    if i < n {
      assert o[i := e][..n] == o[..n][i := e];
      SumValuesUpdate(o[..n], i, e, w);
    } else {
      assert o[i := e][..n] == o[..n];
    }
  }

  /** Writing `k` changes the sum by exactly the difference between the new value and
      the old one (absent counting as 0). */
  lemma PutSum<V>(o: seq<Entry<V>>, k: string, v: V, w: V -> int)
    ensures SumValues(Put(o, k, v), w) ==
            SumValues(o, w) - (if Get(o, k).Some? then w(Get(o, k).value) else 0) + w(v)
  {
    var i := Find(o, k);
    if i < |o| {
      SumValuesUpdate(o, i, Entry(k, v), w);
    } else {
      assert (o + [Entry(k, v)])[..|o|] == o;
    }
  }
}
