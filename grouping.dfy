/** The group-by-seller `reduce` that the cart store and the cart and checkout pages all
    perform: `acc[k] ??= { nama_toko, items: [] }; acc[k].items.push(item)`.

    The accumulator object is modelled as a sequence of buckets in the order their keys
    were first met; each bucket holds its key, the display name taken from the item that
    created it, and its items. */
module Grouping {

  datatype Bucket<T> = Bucket(key: string, name: string, items: seq<T>)

  /** Position of the bucket with key `k`, or `|bs|` when there is none (`!acc[k]`). */
  function IndexOf<T>(bs: seq<Bucket<T>>, k: string): (i: nat)
    ensures i <= |bs|
    ensures i < |bs| ==> bs[i].key == k
    ensures forall j :: 0 <= j < i ==> bs[j].key != k
  {
    if bs == [] then 0 else if bs[0].key == k then 0 else 1 + IndexOf(bs[1..], k)
  }

  /** One step of the reduce: create the bucket for `key(x)` if it is missing, named
      after `x`, then push `x` onto it. */
  function Push<T>(bs: seq<Bucket<T>>, x: T, key: T -> string, name: T -> string): seq<Bucket<T>> {
    var i := IndexOf(bs, key(x));
    if i < |bs| then bs[i := bs[i].(items := bs[i].items + [x])]
    else bs + [Bucket(key(x), name(x), [x])]
  }

  /** The whole reduce, left to right over `items`, starting from `{}`. */
  function Group<T>(items: seq<T>, key: T -> string, name: T -> string): seq<Bucket<T>>
    decreases |items|
  {
    if items == [] then [] else Push(Group(items[..|items| - 1], key, name), items[|items| - 1], key, name)
  }

  /** Reference definition of a bucket's contents: the items with key `k`, in their
      original order. */
  function Filter<T>(items: seq<T>, key: T -> string, k: string): seq<T>
    decreases |items|
  {
    if items == [] then []
    else Filter(items[..|items| - 1], key, k) + (if key(items[|items| - 1]) == k then [items[|items| - 1]] else [])
  }

  /** Index of the first item with key `k`, or `|items|` when there is none. */
  function FirstIndex<T>(items: seq<T>, key: T -> string, k: string): (f: nat)
    ensures f <= |items|
    ensures f < |items| ==> key(items[f]) == k
    ensures forall j :: 0 <= j < f ==> key(items[j]) != k
    decreases |items|
  {
    if items == [] then 0
    else
      var f := FirstIndex(items[..|items| - 1], key, k);
      if f < |items| - 1 then f else if key(items[|items| - 1]) == k then |items| - 1 else |items|
  }

  /** The distinct keys of the items. */
  ghost function KeySet<T>(items: seq<T>, key: T -> string): set<string> {
    set x | x in items :: key(x)
  }

  /** The keys of the buckets. */
  ghost function KeysOf<T>(bs: seq<Bucket<T>>): set<string> {
    set i | 0 <= i < |bs| :: bs[i].key
  }

  ghost predicate DistinctKeys<T>(bs: seq<Bucket<T>>) {
    forall i, j :: 0 <= i < j < |bs| ==> bs[i].key != bs[j].key
  }

  /** Sum of the bucket sizes. */
  function TotalSize<T>(bs: seq<Bucket<T>>): nat
    decreases |bs|
  {
    if bs == [] then 0 else TotalSize(bs[..|bs| - 1]) + |bs[|bs| - 1].items|
  }

  lemma KeySetSnoc<T>(items: seq<T>, x: T, key: T -> string)
    ensures KeySet(items + [x], key) == KeySet(items, key) + {key(x)}
  {
    assert forall y :: y in items + [x] <==> y in items || y == x;
  }

  /** The reduce keeps one bucket per distinct key, and no other buckets. */
  lemma {:induction false} GroupKeys<T>(items: seq<T>, key: T -> string, name: T -> string)
    ensures DistinctKeys(Group(items, key, name))
    ensures KeysOf(Group(items, key, name)) == KeySet(items, key)
    decreases |items|
  {
    if items != [] {
      var init, x := items[..|items| - 1], items[|items| - 1];
      assert items == init + [x];
      GroupKeys(init, key, name);
      KeySetSnoc(init, x, key);
      var bs := Group(init, key, name);
      var g := Group(items, key, name);
      var i := IndexOf(bs, key(x));
      if i < |bs| {
        assert forall j :: 0 <= j < |g| ==> g[j].key == bs[j].key;
        assert KeysOf(g) == KeysOf(bs);
      } else {
        assert g == bs + [Bucket(key(x), name(x), [x])];
        assert KeysOf(g) == KeysOf(bs) + {key(x)} by {
          forall k | k in KeysOf(g) ensures k in KeysOf(bs) + {key(x)} {
            var j :| 0 <= j < |g| && g[j].key == k;
            if j < |bs| { assert bs[j].key == k; }
          }
          forall k | k in KeysOf(bs) + {key(x)} ensures k in KeysOf(g) {
            if k == key(x) {
              assert g[|bs|].key == k;
            } else {
              var j :| 0 <= j < |bs| && bs[j].key == k;
              assert g[j].key == k;
            }
          }
        }
      }
    }
  }

  lemma {:induction false} FilterAbsent<T>(items: seq<T>, key: T -> string, k: string)
    requires k !in KeySet(items, key)
    ensures Filter(items, key, k) == []
    decreases |items|
  {
    if items != [] {
      var init, x := items[..|items| - 1], items[|items| - 1];
      assert items == init + [x];
      KeySetSnoc(init, x, key);
      FilterAbsent(init, key, k);
    }
  }

  /** Every bucket holds exactly the items with its key, in their original order. */
  lemma {:induction false} GroupFilter<T>(items: seq<T>, key: T -> string, name: T -> string)
    ensures var g := Group(items, key, name);
            forall i :: 0 <= i < |g| ==> g[i].items == Filter(items, key, g[i].key)
    decreases |items|
  {
    if items != [] {
      var init, x := items[..|items| - 1], items[|items| - 1];
      assert items == init + [x];
      GroupFilter(init, key, name);
      GroupKeys(init, key, name);
      var bs := Group(init, key, name);
      var g := Group(items, key, name);
      var i := IndexOf(bs, key(x));
      if i >= |bs| {
        assert key(x) !in KeysOf(bs);
        FilterAbsent(init, key, key(x));
      }
    }
  }

  /** Every bucket is named after the first item with its key. */
  lemma {:induction false} GroupNames<T>(items: seq<T>, key: T -> string, name: T -> string)
    ensures var g := Group(items, key, name);
            forall i :: 0 <= i < |g| ==>
              FirstIndex(items, key, g[i].key) < |items| &&
              g[i].name == name(items[FirstIndex(items, key, g[i].key)])
    decreases |items|
  {
    if items != [] {
      var init, x := items[..|items| - 1], items[|items| - 1];
      assert items == init + [x];
      GroupNames(init, key, name);
      GroupKeys(init, key, name);
      var bs := Group(init, key, name);
      var i := IndexOf(bs, key(x));
      if i >= |bs| {
        assert key(x) !in KeysOf(bs);
        if FirstIndex(init, key, key(x)) < |init| {
          assert init[FirstIndex(init, key, key(x))] in init;
        }
      }
    }
  }

  lemma {:induction false} TotalSizeUpdate<T>(bs: seq<Bucket<T>>, i: nat, b: Bucket<T>)
    requires i < |bs|
    ensures TotalSize(bs[i := b]) == TotalSize(bs) - |bs[i].items| + |b.items|
    decreases |bs|
  {
    var n := |bs| - 1;
    if i < n {
      assert bs[i := b][..n] == bs[..n][i := b];
      TotalSizeUpdate(bs[..n], i, b);
    } else {
      assert bs[i := b][..n] == bs[..n];
    }
  }

  /** The bucket sizes add up to the number of items: no item is dropped or doubled. */
  lemma {:induction false} GroupSize<T>(items: seq<T>, key: T -> string, name: T -> string)
    ensures TotalSize(Group(items, key, name)) == |items|
    decreases |items|
  {
    if items != [] {
      var init, x := items[..|items| - 1], items[|items| - 1];
      GroupSize(init, key, name);
      var bs := Group(init, key, name);
      var i := IndexOf(bs, key(x));
      if i < |bs| {
        TotalSizeUpdate(bs, i, bs[i].(items := bs[i].items + [x]));
      } else {
        assert (bs + [Bucket(key(x), name(x), [x])])[..|bs|] == bs;
      }
    }
  }

  lemma {:induction false} DistinctKeysCount<T>(bs: seq<Bucket<T>>)
    requires DistinctKeys(bs)
    ensures |KeysOf(bs)| == |bs|
    decreases |bs|
  {
    if bs != [] {
      var init := bs[..|bs| - 1];
      DistinctKeysCount(init);
      assert KeysOf(bs) == KeysOf(init) + {bs[|bs| - 1].key} by {
        forall k | k in KeysOf(bs) ensures k in KeysOf(init) + {bs[|bs| - 1].key} {
          var j :| 0 <= j < |bs| && bs[j].key == k;
          if j < |init| { assert init[j].key == k; }
        }
      }
      assert bs[|bs| - 1].key !in KeysOf(init);
    }
  }

  /** The group-by reduce partitions the items: there is exactly one bucket per distinct
      key, every item sits in the bucket of its key, in original order within it, each
      bucket is named after the first item with its key, and the sizes add up. */
  lemma GroupPartition<T>(items: seq<T>, key: T -> string, name: T -> string)
    ensures var g := Group(items, key, name);
            && DistinctKeys(g)
            && |g| == |KeySet(items, key)|
            && TotalSize(g) == |items|
            && (forall x :: x in items ==> exists i :: 0 <= i < |g| && g[i].key == key(x) && x in g[i].items)
            && (forall i :: 0 <= i < |g| ==> g[i].items == Filter(items, key, g[i].key))
            && (forall i :: 0 <= i < |g| ==>
                  FirstIndex(items, key, g[i].key) < |items| &&
                  g[i].name == name(items[FirstIndex(items, key, g[i].key)]))
  {
    var g := Group(items, key, name);
    GroupKeys(items, key, name);
    GroupFilter(items, key, name);
    GroupNames(items, key, name);
    GroupSize(items, key, name);
    DistinctKeysCount(g);
    forall x | x in items ensures exists i :: 0 <= i < |g| && g[i].key == key(x) && x in g[i].items {
      assert key(x) in KeysOf(g);
      var i :| 0 <= i < |g| && g[i].key == key(x);
      FilterHas(items, key, x);
    }
  }

  lemma {:induction false} FilterHas<T>(items: seq<T>, key: T -> string, x: T)
    requires x in items
    ensures x in Filter(items, key, key(x))
    decreases |items|
  {
    var init, y := items[..|items| - 1], items[|items| - 1];
    assert items == init + [y];
    if x != y {
      FilterHas(init, key, x);
    }
  }

  /** Filtering is an order-preserving selection: only items with the key, each taken
      from the original sequence. */
  lemma {:induction false} FilterMembers<T>(items: seq<T>, key: T -> string, k: string)
    ensures forall x :: x in Filter(items, key, k) ==> x in items && key(x) == k
    decreases |items|
  {
    if items != [] {
      var init := items[..|items| - 1];
      FilterMembers(init, key, k);
      assert forall x :: x in init ==> x in items;
    }
  }

  /** Items that all share one key end up in a single bucket, named after the first. */
  lemma {:induction false} GroupOneKey<T>(items: seq<T>, key: T -> string, name: T -> string, k: string)
    requires |items| > 0
    requires forall i :: 0 <= i < |items| ==> key(items[i]) == k
    ensures Group(items, key, name) == [Bucket(k, name(items[0]), items)]
    decreases |items|
  {
    var init, x := items[..|items| - 1], items[|items| - 1];
    if |init| > 0 {
      GroupOneKey(init, key, name, k);
      var bs := [Bucket(k, name(init[0]), init)];
      assert IndexOf(bs, key(x)) == 0;
      assert init[0] == items[0];
      assert init + [x] == items;
    } else {
      assert items == [x];
    }
  }

  /** The sum of a weight over items, accumulated left to right. */
  function Sum<T>(items: seq<T>, w: T -> int): int
    decreases |items|
  {
    if items == [] then 0 else Sum(items[..|items| - 1], w) + w(items[|items| - 1])
  }

  /** The sum of the weight over every bucket's items. */
  function BucketSum<T>(bs: seq<Bucket<T>>, w: T -> int): int
    decreases |bs|
  {
    if bs == [] then 0 else BucketSum(bs[..|bs| - 1], w) + Sum(bs[|bs| - 1].items, w)
  }

  lemma {:induction false} BucketSumUpdate<T>(bs: seq<Bucket<T>>, i: nat, b: Bucket<T>, w: T -> int)
    requires i < |bs|
    ensures BucketSum(bs[i := b], w) == BucketSum(bs, w) - Sum(bs[i].items, w) + Sum(b.items, w)
    decreases |bs|
  {
    var n := |bs| - 1;
    if i < n {
      assert bs[i := b][..n] == bs[..n][i := b];
      BucketSumUpdate(bs[..n], i, b, w);
    } else {
      assert bs[i := b][..n] == bs[..n];
    }
  }

  /** One push adds the item's weight to the bucket sums. */
  lemma PushSum<T>(bs: seq<Bucket<T>>, x: T, key: T -> string, name: T -> string, w: T -> int)
    ensures BucketSum(Push(bs, x, key, name), w) == BucketSum(bs, w) + w(x)
  {
    var i := IndexOf(bs, key(x));
    if i < |bs| {
      var b := bs[i].(items := bs[i].items + [x]);
      BucketSumUpdate(bs, i, b, w);
      assert b.items[..|b.items| - 1] == bs[i].items;
    } else {
      var nb := Bucket(key(x), name(x), [x]);
      var r := bs + [nb];
      assert r[..|r| - 1] == bs && r[|r| - 1] == nb;
      assert nb.items[..0] == [];
      assert Sum(nb.items, w) == w(x);
    }
  }

  /** Grouping conserves any additive quantity: the per-bucket sums add up to the sum
      over all items (no price or quantity is lost or counted twice). */
  lemma {:induction false} GroupSum<T>(items: seq<T>, key: T -> string, name: T -> string, w: T -> int)
    ensures BucketSum(Group(items, key, name), w) == Sum(items, w)
    decreases |items|
  {
    if items != [] {
      var init, x := items[..|items| - 1], items[|items| - 1];
      GroupSum(init, key, name, w);
      PushSum(Group(init, key, name), x, key, name, w);
    }
  }

  /** The imperative step of the reduce: look the key up in the accumulator, create the
      bucket when it is missing, then push the item onto it. */
  method PushInto<T>(acc: seq<Bucket<T>>, x: T, key: T -> string, name: T -> string)
    returns (r: seq<Bucket<T>>)
    ensures r == Push(acc, x, key, name)
  {
    var k := key(x);
    var i := 0;
    while i < |acc| && acc[i].key != k
      invariant 0 <= i <= |acc|
      invariant forall j :: 0 <= j < i ==> acc[j].key != k
    {
      i := i + 1;
    }
    assert i == IndexOf(acc, k);
    r := acc;
    if i == |acc| {
      r := r + [Bucket(k, name(x), [])];
    }
    var b := r[i];
    r := r[i := b.(items := b.items + [x])];
    if i == |acc| {
      assert b.items + [x] == [x];
      assert r[..|acc|] == acc;
    }
  }
}
