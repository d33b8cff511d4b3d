/** The manager's two bookkeeping objects: the HEAD/TAIL buckets and the completion counter. */
module ProcessState {
  import opened Wrappers
  import opened Protocol

  /** PairBuckets: pieces waiting for their partner, by pair key. */
  class PairBuckets<T> {
    var buckets: map<string, seq<T>>

    constructor ()
      ensures buckets == map[]
    {
      buckets := map[];
    }

    method Put(key: string, item: T) returns (paired: Option<seq<T>>)
      modifies this
      ensures buckets == PutBuckets(old(buckets), key, item)
      ensures paired == PutResult(old(buckets), key, item)
    {
      var bucket := if key in buckets then buckets[key] else [];
      bucket := bucket + [item];
      if |bucket| >= 2 {
        buckets := buckets - {key};
        return Some(bucket);
      }
      buckets := buckets[key := bucket];
      return None;
    }

    /** The remaining buckets, in some order of their keys. */
    method PopAllRemaining() returns (remaining: seq<seq<T>>, ghost order: seq<string>)
      modifies this
      ensures buckets == map[]
      ensures Lists(order, old(buckets).Keys) && |remaining| == |order|
      ensures forall i :: 0 <= i < |order| ==> order[i] in old(buckets) && remaining[i] == old(buckets)[order[i]]
    {
      remaining, order := [], [];
      var left := buckets.Keys;
      while left != {}
        invariant left <= buckets.Keys && buckets == old(buckets) && |remaining| == |order|
        invariant forall i, j :: 0 <= i < j < |order| ==> order[i] != order[j]
        invariant forall k :: k in order <==> k in buckets.Keys - left
        invariant forall i :: 0 <= i < |order| ==> order[i] !in left && order[i] in buckets && remaining[i] == buckets[order[i]]
        decreases left
      {
        var k :| k in left;
        remaining := remaining + [buckets[k]];
        order := order + [k];
        left := left - {k};
      }
      buckets := map[];
    }
  }

  /** JobProgressTracker */
  class JobProgressTracker {
    var remaining: int
    var success: nat
    var failure: nat

    function Value(): Progress
      reads this
    {
      Progress(remaining, success, failure)
    }

    constructor ()
      ensures Value() == Progress(0, 0, 0)
    {
      remaining, success, failure := 0, 0, 0;
    }

    method BeginCycle(total: int)
      modifies this
      ensures Value() == Progress(total, 0, 0)
    {
      remaining := total;
      success := 0;
      failure := 0;
    }

    method MarkOneDone(ok: bool)
      modifies this
      ensures Value() == Protocol.MarkOneDone(old(Value()), ok)
    {
      remaining := remaining - 1;
      if ok {
        success := success + 1;
      } else {
        failure := failure + 1;
      }
    }

    predicate IsDone()
      reads this
    {
      remaining <= 0
    }
  }

  // ---------- the pairing law ----------

  datatype Put<T> = Put(key: string, item: T)

  /** Buckets and emitted pairs after a sequence of puts. */
  datatype PutState<T> = PutState(buckets: map<string, seq<T>>, emitted: seq<(string, seq<T>)>)

  function PutAll<T>(puts: seq<Put<T>>): PutState<T> {
    if puts == [] then PutState(map[], [])
    else
      var n := |puts| - 1;
      var before := PutAll(puts[..n]);
      var result := PutResult(before.buckets, puts[n].key, puts[n].item);
      PutState(PutBuckets(before.buckets, puts[n].key, puts[n].item),
               if result.Some? then before.emitted + [(puts[n].key, result.value)] else before.emitted)
  }

  /** The items put under a key, in arrival order. */
  function Arrivals<T>(puts: seq<Put<T>>, key: string): seq<T> {
    if puts == [] then []
    else
      var n := |puts| - 1;
      Arrivals(puts[..n], key) + (if puts[n].key == key then [puts[n].item] else [])
  }

  /** First with second, third with fourth, and so on. */
  function Pairs<T>(xs: seq<T>): seq<seq<T>> {
    if |xs| < 2 then [] else [[xs[0], xs[1]]] + Pairs(xs[2..])
  }

  function EmittedFor<T>(emitted: seq<(string, seq<T>)>, key: string): seq<seq<T>> {
    if emitted == [] then []
    else
      var n := |emitted| - 1;
      EmittedFor(emitted[..n], key) + (if emitted[n].0 == key then [emitted[n].1] else [])
  }

  lemma {:induction false} PairsSnoc<T>(xs: seq<T>, x: T)
    ensures |xs| % 2 == 0 ==> Pairs(xs + [x]) == Pairs(xs)
    ensures |xs| % 2 == 1 ==> Pairs(xs + [x]) == Pairs(xs) + [[xs[|xs| - 1], x]]
  {
    if |xs| >= 2 {
      PairsSnoc(xs[2..], x);
      assert (xs + [x])[2..] == xs[2..] + [x];
    } else if |xs| == 1 {
      assert (xs + [x])[2..] == [];
    }
  }

  lemma EmittedSnoc<T>(emitted: seq<(string, seq<T>)>, e: (string, seq<T>), key: string)
    ensures EmittedFor(emitted + [e], key) == EmittedFor(emitted, key) + (if e.0 == key then [e.1] else [])
  {
    assert (emitted + [e])[..|emitted|] == emitted;
  }

  /** For each key the emitted pairs are the arrivals two by two, and a bucket is left exactly when their
      number is odd: it holds one item, the last that arrived. */
  lemma {:induction false} PairingLaw<T>(puts: seq<Put<T>>, key: string)
    ensures EmittedFor(PutAll(puts).emitted, key) == Pairs(Arrivals(puts, key))
    ensures key in PutAll(puts).buckets <==> |Arrivals(puts, key)| % 2 == 1
    ensures key in PutAll(puts).buckets ==> PutAll(puts).buckets[key] == [Arrivals(puts, key)[|Arrivals(puts, key)| - 1]]
  {
    if puts != [] {
      var n := |puts| - 1;
      var put := puts[n];
      PairingLaw(puts[..n], key);
      if put.key == key {
        PutOwnKey(puts[..n], put);
      } else {
        PutOtherKey(puts[..n], put, key);
      }
      assert puts == puts[..n] + [put];
    }
  }

  lemma PutOtherKey<T>(puts: seq<Put<T>>, put: Put<T>, key: string)
    requires put.key != key
    ensures Arrivals(puts + [put], key) == Arrivals(puts, key)
    ensures EmittedFor(PutAll(puts + [put]).emitted, key) == EmittedFor(PutAll(puts).emitted, key)
    ensures key in PutAll(puts + [put]).buckets <==> key in PutAll(puts).buckets
    ensures key in PutAll(puts).buckets ==> PutAll(puts + [put]).buckets[key] == PutAll(puts).buckets[key]
  {
    assert (puts + [put])[..|puts|] == puts;
    var before := PutAll(puts);
    var result := PutResult(before.buckets, put.key, put.item);
    if result.Some? { EmittedSnoc(before.emitted, (put.key, result.value), key); }
  }

  lemma PutOwnKey<T>(puts: seq<Put<T>>, put: Put<T>)
    requires put.key in PutAll(puts).buckets <==> |Arrivals(puts, put.key)| % 2 == 1
    requires put.key in PutAll(puts).buckets ==>
               PutAll(puts).buckets[put.key] == [Arrivals(puts, put.key)[|Arrivals(puts, put.key)| - 1]]
    requires EmittedFor(PutAll(puts).emitted, put.key) == Pairs(Arrivals(puts, put.key))
    ensures var after, xs := PutAll(puts + [put]), Arrivals(puts + [put], put.key);
            && EmittedFor(after.emitted, put.key) == Pairs(xs)
            && (put.key in after.buckets <==> |xs| % 2 == 1)
            && (put.key in after.buckets ==> after.buckets[put.key] == [xs[|xs| - 1]])
  {
    assert (puts + [put])[..|puts|] == puts;
    var before, xs := PutAll(puts), Arrivals(puts, put.key);
    PairsSnoc(xs, put.item);
    if put.key in before.buckets {
      var pair := [xs[|xs| - 1], put.item];
      assert before.buckets[put.key] + [put.item] == pair;
      EmittedSnoc(before.emitted, (put.key, pair), put.key);
    } else {
      assert [] + [put.item] == [put.item];
    }
  }

  /** Nothing is lost: every put is in an emitted pair or in a bucket. */
  lemma {:induction false} PutsAddUp<T>(puts: seq<Put<T>>)
    ensures |puts| == 2 * |PutAll(puts).emitted| + |PutAll(puts).buckets|
  {
    if puts != [] {
      var n := |puts| - 1;
      PutsAddUp(puts[..n]);
      var before := PutAll(puts[..n]);
      PairingLaw(puts[..n], puts[n].key);
      if puts[n].key in before.buckets {
        assert |before.buckets - {puts[n].key}| == |before.buckets| - 1 by {
          assert (before.buckets - {puts[n].key})[puts[n].key := before.buckets[puts[n].key]] == before.buckets;
        }
      }
    }
  }
}
