/** The evidence bucket as the collector uses it: objects stored under keys,
    written with `put`, and listed by key prefix in ascending key order (the
    order the object store's listing returns, over all pages).  Object bodies
    are the JSON documents written; serialising and reading them back is
    taken to give the same document. */
module EvidenceStore {
  import opened JsonValue
  import opened StringOrder

  /** The keys under `prefix`, in listing order. */
  ghost function Listing(objects: map<string, Json>, prefix: string): seq<string> {
    SortedSet(set k | k in objects && prefix <= k)
  }

  /** A listed key exists and has the prefix; every such key is listed once,
      in strictly ascending order. */
  lemma ListingSpec(objects: map<string, Json>, prefix: string)
    ensures forall k :: k in Listing(objects, prefix) <==> k in objects && prefix <= k
    ensures StrictlyAscending(Listing(objects, prefix))
    ensures |Listing(objects, prefix)| == |set k | k in objects && prefix <= k|
  {
    SortedSetSpec(set k | k in objects && prefix <= k);
  }

  /** Two stores that hold the same objects under `prefix` list the same keys. */
  lemma ListingLocal(o1: map<string, Json>, o2: map<string, Json>, prefix: string)
    requires forall k :: prefix <= k ==> (k in o1 <==> k in o2)
    ensures Listing(o1, prefix) == Listing(o2, prefix)
  {
    assert (set k | k in o1 && prefix <= k) == (set k | k in o2 && prefix <= k);
  }

  /** The objects a sequence of writes leaves behind, applied in order. */
  function ApplyWrites(objects: map<string, Json>, writes: seq<(string, Json)>): map<string, Json>
    decreases |writes|
  {
    if writes == [] then objects
    else ApplyWrites(objects, writes[..|writes| - 1])[writes[|writes| - 1].0 := writes[|writes| - 1].1]
  }

  /** One more write lands on top of the earlier ones. */
  lemma ApplyWritesAppend(objects: map<string, Json>, writes: seq<(string, Json)>, k: string, v: Json)
    ensures ApplyWrites(objects, writes + [(k, v)]) == ApplyWrites(objects, writes)[k := v]
  {
    assert (writes + [(k, v)])[..|writes|] == writes;
  }

  /** Some write in `writes` targets `k`. */
  predicate Written(writes: seq<(string, Json)>, k: string) {
    exists i :: 0 <= i < |writes| && writes[i].0 == k
  }

  /** Writes add or replace keys and never remove one. */
  lemma {:induction false} ApplyWritesDomain(objects: map<string, Json>, writes: seq<(string, Json)>)
    ensures forall k :: k in ApplyWrites(objects, writes) <==> k in objects || Written(writes, k)
    decreases |writes|
  {
    if writes != [] {
      var n := |writes| - 1;
      ApplyWritesDomain(objects, writes[..n]);
      forall k
        ensures Written(writes, k) <==> Written(writes[..n], k) || k == writes[n].0
      {
        if Written(writes, k) && k != writes[n].0 {
          var i :| 0 <= i < |writes| && writes[i].0 == k;
          assert writes[..n][i].0 == k;
        }
        if Written(writes[..n], k) {
          var i :| 0 <= i < n && writes[..n][i].0 == k;
          assert writes[i].0 == k;
        }
      }
    }
  }

  /** A written key holds the value of its last write. */
  lemma {:induction false} ApplyWritesLast(objects: map<string, Json>, writes: seq<(string, Json)>, i: nat)
    requires i < |writes|
    requires forall j :: i < j < |writes| ==> writes[j].0 != writes[i].0
    ensures writes[i].0 in ApplyWrites(objects, writes) && ApplyWrites(objects, writes)[writes[i].0] == writes[i].1
    decreases |writes|
  {
    var n := |writes| - 1;
    if i < n {
      ApplyWritesLast(objects, writes[..n], i);
    }
  }

  /** A key no write targets keeps its value. */
  lemma {:induction false} ApplyWritesUntouched(objects: map<string, Json>, writes: seq<(string, Json)>, k: string)
    requires k in objects && !Written(writes, k)
    ensures k in ApplyWrites(objects, writes) && ApplyWrites(objects, writes)[k] == objects[k]
    decreases |writes|
  {
    if writes != [] {
      var n := |writes| - 1;
      assert writes[n].0 != k;
      forall i | 0 <= i < n
        ensures writes[..n][i].0 != k
      {
        assert writes[..n][i] == writes[i];
      }
      ApplyWritesUntouched(objects, writes[..n], k);
    }
  }

  /** Repeating the same writes changes nothing more: a redelivered batch of
      lines overwrites the same keys with the same envelopes. */
  lemma {:induction false} ApplyWritesIdempotent(objects: map<string, Json>, writes: seq<(string, Json)>)
    ensures ApplyWrites(ApplyWrites(objects, writes), writes) == ApplyWrites(objects, writes)
  {
    var once := ApplyWrites(objects, writes);
    var twice := ApplyWrites(once, writes);
    ApplyWritesDomain(objects, writes);
    ApplyWritesDomain(once, writes);
    forall k | k in once
      ensures k in twice && twice[k] == once[k]
    {
      if Written(writes, k) {
        var i := LastWrite(writes, k);
        ApplyWritesLast(objects, writes, i);
        ApplyWritesLast(once, writes, i);
      } else {
        ApplyWritesUntouched(once, writes, k);
      }
    }
    assert forall k :: k in twice ==> k in once;
  }

  /** Writes whose every key a later sequence of writes targets again leave
      no trace: the later writes alone decide the store. */
  lemma {:induction false} ApplyWritesOverwrite(objects: map<string, Json>, w1: seq<(string, Json)>,
                                                w2: seq<(string, Json)>)
    requires forall k :: Written(w1, k) ==> Written(w2, k)
    ensures ApplyWrites(ApplyWrites(objects, w1), w2) == ApplyWrites(objects, w2)
  {
    var first := ApplyWrites(objects, w1);
    var both := ApplyWrites(first, w2);
    var only := ApplyWrites(objects, w2);
    ApplyWritesDomain(objects, w1);
    ApplyWritesDomain(first, w2);
    ApplyWritesDomain(objects, w2);
    forall k | k in only
      ensures k in both && both[k] == only[k]
    {
      if Written(w2, k) {
        var i := LastWrite(w2, k);
        ApplyWritesLast(first, w2, i);
        ApplyWritesLast(objects, w2, i);
      } else {
        ApplyWritesUntouched(first, w2, k);
        ApplyWritesUntouched(objects, w1, k);
        ApplyWritesUntouched(objects, w2, k);
      }
    }
    assert forall k :: k in both ==> k in only;
  }

  /** The index of the last write to `k`. */
  lemma LastWrite(writes: seq<(string, Json)>, k: string) returns (i: nat)
    requires Written(writes, k)
    ensures i < |writes| && writes[i].0 == k
    ensures forall j :: i < j < |writes| ==> writes[j].0 != k
  {
    i :| 0 <= i < |writes| && writes[i].0 == k;
    while exists j :: i < j < |writes| && writes[j].0 == k
      invariant i < |writes| && writes[i].0 == k
      decreases |writes| - i
    {
      var j :| i < j < |writes| && writes[j].0 == k;
      i := j;
    }
  }

  /** The bucket: a mutable map from keys to stored documents. */
  class Store {
    var objects: map<string, Json>

    constructor (initial: map<string, Json>)
      ensures objects == initial
    {
      objects := initial;
    }

    /** `put_object(Key=key, Body=json.dumps(body))` */
    method Put(key: string, body: Json)
      modifies this
      ensures objects == old(objects)[key := body]
    {
      objects := objects[key := body];
    }

    /** All keys under `prefix`, every page of the listing concatenated. */
    method List(prefix: string) returns (keys: seq<string>)
      ensures keys == Listing(objects, prefix)
    {
      keys := SortedList(set k | k in objects && prefix <= k);
    }
  }
}
