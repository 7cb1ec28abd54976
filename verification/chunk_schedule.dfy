/**
 * The schedule of `MapBase.yieldingLoop`: the indices `0 .. count-1` are
 * handed to the callback in chunks; each chunk is one run of the inner
 * `chunk()` function, and a new run is scheduled until every index is done.
 */
module ChunkSchedule {

  /** What the loop does, in order: call the callback with an index, or call `finished`. */
  datatype Event = Callback(index: nat) | Finished

  /** The indices processed by the chunks, in the order they ran. */
  function Flatten(chunks: seq<seq<nat>>): seq<nat>
  {
    if chunks == [] then [] else Flatten(chunks[..|chunks| - 1]) + chunks[|chunks| - 1]
  }

  /** `xs` is `0, 1, .., n-1`. */
  predicate IsRange(xs: seq<nat>, n: nat)
  {
    |xs| == n && forall k :: 0 <= k < n ==> xs[k] == k
  }

  /**
   * Every chunk but the last has exactly `size` indices, the last one at most
   * `size` and at least one, and together they are `0 .. count-1` in order.
   */
  predicate FullChunks(chunks: seq<seq<nat>>, count: nat, size: nat)
  {
    && |chunks| >= 1
    && IsRange(Flatten(chunks), count)
    && (forall k :: 0 <= k < |chunks| - 1 ==> |chunks[k]| == size)
    && 1 <= |chunks[|chunks| - 1]| <= size
  }

  /** The callback calls for the given indices, in order. */
  function Calls(xs: seq<nat>): (r: seq<Event>)
    ensures |r| == |xs|
    ensures forall k :: 0 <= k < |xs| ==> r[k] == Callback(xs[k])
  {
    if xs == [] then [] else Calls(xs[..|xs| - 1]) + [Callback(xs[|xs| - 1])]
  }

  /** Appending a chunk appends its indices. */
  lemma FlattenSnoc(chunks: seq<seq<nat>>, batch: seq<nat>)
    ensures Flatten(chunks + [batch]) == Flatten(chunks) + batch
  {
  }

  /** The calls for two runs of indices are the calls for each, one after the other. */
  lemma CallsAppend(a: seq<nat>, b: seq<nat>)
    ensures Calls(a + b) == Calls(a) + Calls(b)
  {
  }

  /** Extending `0 .. i-1` by `i .. j-1` gives `0 .. j-1`. */
  lemma RangeExtend(xs: seq<nat>, batch: seq<nat>, i: nat)
    requires IsRange(xs, i)
    requires forall k :: 0 <= k < |batch| ==> batch[k] == i + k
    ensures IsRange(xs + batch, i + |batch|)
  {
  }

  /**
   * One run of the inner `chunk()` function: from the shared counter `start`,
   * call the callback for each index below `Math.min(start + size, count)`.
   */
  method RunChunk(start: nat, size: int, count: nat, before: seq<Event>) returns (i: nat, batch: seq<nat>, trace: seq<Event>)
    requires start <= count
    ensures i == if start < start + size < count then start + size else if start + size <= start then start else count
    ensures |batch| == i - start && forall k :: 0 <= k < |batch| ==> batch[k] == start + k
    ensures trace == before + Calls(batch)
  {
    var end := if start + size < count then start + size else count;
    i, batch, trace := start, [], before;
    while i < end
      invariant start <= i <= count
      invariant i <= end || i == start
      invariant |batch| == i - start && forall k :: 0 <= k < |batch| ==> batch[k] == start + k
      invariant trace == before + Calls(batch)
    {
      trace := trace + [Callback(i)];
      batch := batch + [i];
      i := i + 1;
    }
  }

  /** The flattened chunks are as long as the chunks put together. */
  lemma {:induction false} FlattenLength(chunks: seq<seq<nat>>, size: nat)
    requires forall k :: 0 <= k < |chunks| ==> |chunks[k]| == size
    ensures |Flatten(chunks)| == |chunks| * size
  {
    if chunks != [] {
      var n := |chunks|;
      FlattenLength(chunks[..n - 1], size);
      assert |Flatten(chunks)| == (n - 1) * size + size;
      assert (n - 1) * size + size == n * size;
    }
  }

  /** A full schedule has `ceil(count / size)` chunks: the fewest chunks of `size` that hold `count`. */
  lemma ChunkCount(chunks: seq<seq<nat>>, count: nat, size: nat)
    requires FullChunks(chunks, count, size)
    ensures size > 0 && count > 0
    ensures (|chunks| - 1) * size < count <= |chunks| * size
  {
    var n := |chunks|;
    var init := chunks[..n - 1];
    FlattenLength(init, size);
    assert chunks == init + [chunks[n - 1]];
    assert count == (n - 1) * size + |chunks[n - 1]|;
    assert n * size == (n - 1) * size + size;
  }
}
