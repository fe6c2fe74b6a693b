/**
 Emptying the object buckets before a product is destroyed
 (scripts/takos-product-materializer.ts).
 */
module Purge {
  import opened Wrappers
  import opened Collections

  const DELETE_CONCURRENCY := 16
  const PAGE_LIMIT := 1000

  datatype Object = Object(bucket: string, key: string)

  function InBucket(objects: set<Object>, bucket: string): set<Object> {
    set o | o in objects && o.bucket == bucket
  }

  function Outside(objects: set<Object>, buckets: seq<string>): set<Object> {
    set o | o in objects && o.bucket !in buckets
  }

  /** A page of a bucket: some of its keys, and none only when it is empty. */
  predicate IsPage(objects: set<Object>, bucket: string, keys: seq<string>) {
    && |keys| <= PAGE_LIMIT && Distinct(keys)
    && (forall key | key in keys :: Object(bucket, key) in objects)
    && (keys == [] ==> InBucket(objects, bucket) == {})
  }

  class ObjectStore {
    const refuses: nat -> bool
    var calls: nat
    var objects: set<Object>
    var deletes: seq<Object>

    constructor (objects: set<Object>, refuses: nat -> bool)
      ensures this.objects == objects && this.refuses == refuses && deletes == []
    {
      this.objects, this.refuses, calls, deletes := objects, refuses, 0, [];
    }

    /** No exchange is refused. */
    ghost predicate Willing() {
      forall n: nat :: !refuses(n)
    }

    method List(bucket: string) returns (keys: Option<seq<string>>)
      modifies this`calls
      ensures keys.Some? ==> IsPage(objects, bucket, keys.value)
      ensures Willing() ==> keys.Some?
    {
      calls := calls + 1;
      if refuses(calls) {
        return None;
      }
      assert exists keys :: IsPage(objects, bucket, keys) by {
        assert IsPage(objects, bucket, []) || InBucket(objects, bucket) != {};
        if o :| o in InBucket(objects, bucket) {
          assert Object(bucket, o.key) == o;
          assert IsPage(objects, bucket, [o.key]);
        }
      }
      var page :| IsPage(objects, bucket, page);
      keys := Some(page);
    }

    /** An acknowledged delete has removed the object; a refused one may have. */
    method Delete(bucket: string, key: string) returns (ok: bool)
      modifies this
      ensures ok ==> objects == old(objects) - {Object(bucket, key)} && deletes == old(deletes) + [Object(bucket, key)]
      ensures !ok ==> deletes == old(deletes) && old(objects) - {Object(bucket, key)} <= objects <= old(objects)
      ensures Willing() ==> ok
    {
      calls := calls + 1;
      ok := !refuses(calls);
      if ok {
        objects, deletes := objects - {Object(bucket, key)}, deletes + [Object(bucket, key)];
      }
    }
  }

  /** The deletes so far took each of `before`'s missing objects exactly once. */
  predicate Accounts(before: set<Object>, after: set<Object>, deletes: seq<Object>) {
    Distinct(deletes) && ToSet(deletes) !! after && ToSet(deletes) + after == before
  }

  lemma {:induction false} AccountsStep(before: set<Object>, after: set<Object>, deletes: seq<Object>, o: Object)
    requires Accounts(before, after, deletes) && o in after
    ensures Accounts(before, after - {o}, deletes + [o])
  {
  }

  /** The number of deletes is the number of objects gone. */
  lemma {:induction false} AccountsCount(before: set<Object>, after: set<Object>, deletes: seq<Object>)
    requires Accounts(before, after, deletes)
    ensures |deletes| == |before| - |after|
  {
    SetSizeDistinct(deletes);
    assert |ToSet(deletes) + after| == |ToSet(deletes)| + |after|;
  }

  /** Terminates, deletes every object of the buckets exactly once, leaves the
      other buckets alone, and returns how many objects there were. */
  method PurgeBackingObjects(store: ObjectStore, bucketNames: seq<string>) returns (removed: Option<nat>)
    modifies store
    ensures store.objects <= old(store.objects)
    ensures Outside(store.objects, bucketNames) == Outside(old(store.objects), bucketNames)
    ensures removed.Some? ==>
              && store.objects == Outside(old(store.objects), bucketNames)
              && |store.deletes| == |old(store.deletes)| + removed.value
              && removed.value == |old(store.objects)| - |store.objects|
              && old(store.deletes) <= store.deletes
              && Accounts(old(store.objects), store.objects, store.deletes[|old(store.deletes)|..])
    ensures store.Willing() ==> removed.Some?
  {
    hide Outside, InBucket;
    var count: nat := 0;
    ghost var gone: seq<Object> := [];
    AccountsStart(store.objects);
    OutsideNone(store.objects);
    for i := 0 to |bucketNames|
      invariant store.deletes == old(store.deletes) + gone && count == |gone|
      invariant Accounts(old(store.objects), store.objects, gone)
      invariant store.objects == Outside(old(store.objects), bucketNames[..i])
    {
      var one: Option<nat>;
      ghost var before := store.objects;
      one, gone := EmptyBucket(store, bucketNames[i], old(store.objects), gone, old(store.deletes));
      OutsideStep(old(store.objects), before, store.objects, bucketNames, i);
      if one.None? {
        return None;
      }
      count := count + one.value;
    }
    AccountsCount(old(store.objects), store.objects, gone);
    assert bucketNames[..|bucketNames|] == bucketNames;
    OutsideTwice(old(store.objects), bucketNames);
    assert store.deletes[|old(store.deletes)|..] == gone;
    removed := Some(count);
  }

  lemma {:induction false} AccountsStart(objects: set<Object>)
    ensures Accounts(objects, objects, [])
  {
  }

  lemma {:induction false} OutsideNone(objects: set<Object>)
    ensures forall buckets: seq<string> :: Outside(objects, buckets[..0]) == objects
  {
  }

  lemma {:induction false} OutsideTwice(objects: set<Object>, buckets: seq<string>)
    ensures Outside(Outside(objects, buckets), buckets) == Outside(objects, buckets)
  {
  }

  /** What emptying, or starting to empty, one more bucket leaves outside. */
  lemma {:induction false} OutsideStep(start: set<Object>, before: set<Object>, after: set<Object>,
          buckets: seq<string>, i: nat)
    requires i < |buckets| && before == Outside(start, buckets[..i]) && after <= before
    requires forall o | o in before && o.bucket != buckets[i] :: o in after
    ensures Outside(after, buckets) == Outside(start, buckets)
    ensures InBucket(after, buckets[i]) == {} ==> after == Outside(start, buckets[..i + 1])
  {
    assert forall o | o in start && o.bucket !in buckets :: o in before && o.bucket != buckets[i];
    assert forall o | o in before :: o in start;
    if InBucket(after, buckets[i]) == {} {
      assert forall o | o in after :: o.bucket != buckets[i] by {
        forall o | o in after ensures o.bucket != buckets[i] {
          assert o !in InBucket(after, buckets[i]);
        }
      }
      assert buckets[..i + 1] == buckets[..i] + [buckets[i]];
    }
  }

  /** Lists and deletes pages until the bucket is empty. */
  method EmptyBucket(store: ObjectStore, bucket: string, ghost start: set<Object>, ghost gone: seq<Object>,
          ghost earlier: seq<Object>)
    returns (removed: Option<nat>, ghost allGone: seq<Object>)
    requires Accounts(start, store.objects, gone) && store.deletes == earlier + gone
    modifies store
    ensures store.objects <= old(store.objects)
    ensures forall o | o in old(store.objects) && o.bucket != bucket :: o in store.objects
    ensures removed.Some? ==>
              && InBucket(store.objects, bucket) == {}
              && Accounts(start, store.objects, allGone) && store.deletes == earlier + allGone
              && |allGone| == |gone| + removed.value
    ensures store.Willing() ==> removed.Some?
  {
    hide InBucket, Accounts;
    var count: nat := 0;
    allGone := gone;
    while true
      invariant Accounts(start, store.objects, allGone) && store.deletes == earlier + allGone
      invariant |allGone| == |gone| + count
      invariant store.objects <= old(store.objects)
      invariant forall o | o in old(store.objects) && o.bucket != bucket :: o in store.objects
      decreases |store.objects|
    {
      var keys := store.List(bucket);
      if keys.None? {
        return None, allGone;
      }
      if keys.value == [] {
        break;
      }
      var ok;
      ok, allGone := DeletePage(store, bucket, keys.value, start, allGone, earlier);
      if !ok {
        return None, allGone;
      }
      count := count + |keys.value|;
    }
    removed := Some(count);
  }

  /** Deletes one page in batches of at most sixteen. */
  method DeletePage(store: ObjectStore, bucket: string, keys: seq<string>, ghost start: set<Object>,
          ghost gone: seq<Object>, ghost earlier: seq<Object>)
    returns (ok: bool, ghost allGone: seq<Object>)
    requires IsPage(store.objects, bucket, keys) && keys != []
    requires Accounts(start, store.objects, gone) && store.deletes == earlier + gone
    modifies store
    ensures store.objects <= old(store.objects)
    ensures forall o | o in old(store.objects) && o.bucket != bucket :: o in store.objects
    ensures ok ==> Accounts(start, store.objects, allGone) && store.deletes == earlier + allGone
    ensures ok ==> |allGone| == |gone| + |keys| && |store.objects| < |old(store.objects)|
    ensures store.Willing() ==> ok
  {
    allGone := gone;
    var offset := 0;
    while offset < |keys|
      invariant 0 <= offset <= |keys|
      invariant Accounts(start, store.objects, allGone) && store.deletes == earlier + allGone
      invariant |allGone| == |gone| + offset
      invariant forall i | offset <= i < |keys| :: Object(bucket, keys[i]) in store.objects
      invariant store.objects <= old(store.objects)
      invariant forall o | o in old(store.objects) && o.bucket != bucket :: o in store.objects
    {
      var end := if offset + DELETE_CONCURRENCY < |keys| then offset + DELETE_CONCURRENCY else |keys|;
      ghost var first := offset;
      while offset < end
        invariant first <= offset <= end <= |keys|
        invariant Accounts(start, store.objects, allGone) && store.deletes == earlier + allGone
        invariant |allGone| == |gone| + offset
        invariant forall i | offset <= i < |keys| :: Object(bucket, keys[i]) in store.objects
        invariant store.objects <= old(store.objects)
        invariant forall o | o in old(store.objects) && o.bucket != bucket :: o in store.objects
      {
        ghost var o := Object(bucket, keys[offset]);
        AccountsStep(start, store.objects, allGone, o);
        ok := store.Delete(bucket, keys[offset]);
        if !ok {
          return;
        }
        allGone := allGone + [o];
        offset := offset + 1;
      }
    }
    AccountsCount(start, old(store.objects), gone);
    AccountsCount(start, store.objects, allGone);
    ok := true;
  }
}
