/** The two generic steps of the statistics query: the store's `$group`
    stage, which turns a list of keys into one bucket per distinct key with
    the number of times it occurs, and the `reduce` that folds a list of
    buckets into a key-to-count object. */
module Aggregation {

  /** One output document of `$group`: a key (`_id`) and its `count`. */
  datatype Bucket<K> = Bucket(key: K, count: nat)

  /** The keys that have a bucket. */
  ghost function KeySet<K>(g: seq<Bucket<K>>): set<K>
  {
    set i | 0 <= i < |g| :: g[i].key
  }

  lemma KeySetSnoc<K>(g: seq<Bucket<K>>, b: Bucket<K>)
    ensures KeySet(g + [b]) == KeySet(g) + {b.key}
  {
    var h := g + [b];
    assert h[|g|] == b;
    forall x | x in KeySet(g) ensures x in KeySet(h) {
      var i :| 0 <= i < |g| && g[i].key == x;
      assert h[i] == g[i];
    }
  }

  /** No key has two buckets. */
  ghost predicate DistinctKeys<K>(g: seq<Bucket<K>>)
  {
    forall i, j :: 0 <= i < j < |g| ==> g[i].key != g[j].key
  }

  /** What `$group` produces: distinct keys, each with a positive count. */
  ghost predicate WellFormed<K>(g: seq<Bucket<K>>)
  {
    && DistinctKeys(g)
    && forall i :: 0 <= i < |g| ==> g[i].count > 0
  }

  /** The count recorded for `k`, 0 if `k` has no bucket. When a key has
      several buckets the last one wins, as in `acc[title] = count`. */
  function CountOf<K(==)>(g: seq<Bucket<K>>, k: K): nat
  {
    if g == [] then 0
    else if g[|g| - 1].key == k then g[|g| - 1].count
    else CountOf(g[..|g| - 1], k)
  }

  /** Count one more occurrence of `k`: its bucket grows by one, or a new
      bucket with count 1 is added. */
  function Bump<K(==,!new)>(g: seq<Bucket<K>>, k: K): (r: seq<Bucket<K>>)
    requires WellFormed(g)
    ensures WellFormed(r)
    ensures KeySet(r) == KeySet(g) + {k}
    ensures forall x :: CountOf(r, x) == CountOf(g, x) + (if x == k then 1 else 0)
  {
    if g == [] then
      KeySetSnoc([], Bucket(k, 1));
      [Bucket(k, 1)]
    else
      var front, last := g[..|g| - 1], g[|g| - 1];
      KeySetSnoc(front, last);
      assert front + [last] == g;
      if last.key == k then
        var r := front + [Bucket(k, last.count + 1)];
        KeySetSnoc(front, Bucket(k, last.count + 1));
        assert forall x :: CountOf(r, x) == CountOf(g, x) + (if x == k then 1 else 0) by {
          assert r[..|r| - 1] == front;
        }
        r
      else
        var b := Bump(front, k);
        var r := b + [last];
        assert r[..|r| - 1] == b;
        KeySetSnoc(b, last);
        assert last.key !in KeySet(front);
        r
  }

  /** The `$group` stage with `count: { $sum: 1 }`: one bucket per distinct
      key of `ks`, whose count is the number of occurrences of that key. The
      order of the buckets is not specified by the store; this one puts a new
      key in front of the keys seen before it. */
  function Group<K(==,!new)>(ks: seq<K>): (r: seq<Bucket<K>>)
    ensures WellFormed(r)
    ensures KeySet(r) == set x | x in ks
    ensures forall x :: CountOf(r, x) == multiset(ks)[x]
  {
    if ks == [] then []
    else
      var front, last := ks[..|ks| - 1], ks[|ks| - 1];
      assert ks == front + [last];
      assert (set x | x in ks) == (set x | x in front) + {last};
      Bump(Group(front), last)
  }

  /** The `reduce` into an object: each bucket writes `acc[key] = count`, in
      order. The object has exactly the grouped keys, each with its count. */
  function Tally<K>(g: seq<Bucket<K>>): (m: map<K, nat>)
    ensures m.Keys == KeySet(g)
    ensures forall x :: x in m ==> m[x] == CountOf(g, x)
  {
    if g == [] then map[]
    else
      var front, last := g[..|g| - 1], g[|g| - 1];
      KeySetSnoc(front, last);
      assert front + [last] == g;
      Tally(front)[last.key := last.count]
  }

  /** With distinct keys, a bucket's own count is what CountOf reports. */
  lemma {:induction false} CountOfAt<K>(g: seq<Bucket<K>>, i: nat)
    requires DistinctKeys(g) && i < |g|
    ensures CountOf(g, g[i].key) == g[i].count
  {
    if i < |g| - 1 {
      var front := g[..|g| - 1];
      assert front[i] == g[i];
      CountOfAt(front, i);
    }
  }
}
