/**
 * `batched(ids, size)`: the in-order split of the repository ids into
 * chunks of at most `size`, which the resolver walks one request at a time.
 */
module Batching {
  import opened GoInts
  import opened Collections

  /** A batch size the batcher can split with. */
  type PositiveSize = n: nat | 0 < n witness 1

  /** The batch size used when the client's `BatchSize` is zero. */
  const DefaultBatchSize: nat := 10_000

  /** The batch size a client with `BatchSize == configured` requests with. */
  function EffectiveBatchSize(configured: nat): (r: PositiveSize)
    ensures configured > 0 ==> r == configured
    ensures configured == 0 ==> r == DefaultBatchSize
  {
    if configured == 0 then DefaultBatchSize else configured
  }

  /** The chunks, in order: all full except possibly the last, none empty. */
  function Batched(ids: seq<Uint32>, size: nat): (r: seq<seq<Uint32>>)
    requires size > 0
    ensures Flatten(r) == ids
    ensures forall i :: 0 <= i < |r| ==> 0 < |r[i]| <= size
    ensures forall i :: 0 <= i < |r| - 1 ==> |r[i]| == size
    decreases |ids|
  {
    if ids == [] then []
    else if |ids| <= size then [ids]
    else [ids[..size]] + Batched(ids[size..], size)
  }

  /** There are exactly ceil(|ids| / size) batches: the fewest that can hold every id. */
  lemma {:induction false} BatchCount(ids: seq<Uint32>, size: nat)
    requires size > 0
    ensures ids == [] ==> Batched(ids, size) == []
    ensures ids != [] ==> (|Batched(ids, size)| - 1) * size < |ids| <= |Batched(ids, size)| * size
    decreases |ids|
  {
    if |ids| > size {
      var k := |Batched(ids[size..], size)|;
      BatchCount(ids[size..], size);
      assert (k + 1) * size == k * size + size;
      assert (k - 1) * size + size == k * size;
    }
  }

  /** 25 000 ids in batches of 10 000: sizes 10 000, 10 000 and 5 000, in the original order. */
  lemma {:induction false} BatchingExample(ids: seq<Uint32>)
    requires |ids| == 25_000
    ensures Batched(ids, 10_000) == [ids[..10_000], ids[10_000..20_000], ids[20_000..]]
  {
    var rest := ids[10_000..];
    assert rest[..10_000] == ids[10_000..20_000];
    assert rest[10_000..] == ids[20_000..];
    assert Batched(rest[10_000..], 10_000) == [ids[20_000..]];
  }
}
