/** Prefetched byte ranges and the reader that splits them again, scripts/download_qwen_image21.py. */
module ShardRanges {
  import opened Utf8
  import opened Wrappers

  /** The remote file, and which exact range requests fail for good. */
  datatype Remote = Remote(bytes: Bytes, fails: (int, int) -> bool)

  predicate Fetchable(r: Remote, start: int, count: int) {
    0 <= start && 0 < count && start + count <= |r.bytes| && !r.fails(start, count)
  }

  function Fetch(r: Remote, start: int, count: int): Option<Bytes> {
    if Fetchable(r, start, count) then Some(r.bytes[start..start + count]) else None
  }

  /** No request fails for good. */
  ghost predicate Reliable(r: Remote) {
    forall start: int, count: int {:trigger r.fails(start, count)} :: !r.fails(start, count)
  }

  /** The queued ranges, each `chunk` bytes or what is left, cover [from, mid) of a span that ends at `to`. */
  ghost predicate Tiles(ranges: seq<(int, int)>, from: int, mid: int, to: int, chunk: nat)
    decreases |ranges|
  {
    if ranges == [] then from == mid
    else ranges[0] == (from, if chunk < to - from then chunk else to - from) && ranges[0].1 > 0
         && Tiles(ranges[1..], from + ranges[0].1, mid, to, chunk)
  }

  /** Submitting the next range behind a queue of full ones. */
  lemma {:induction false} TilesAppend(ranges: seq<(int, int)>, from: int, mid: int, to: int, chunk: nat)
    requires chunk > 0 && mid < to && Tiles(ranges, from, mid, to, chunk)
    ensures var n := if chunk < to - mid then chunk else to - mid;
            Tiles(ranges + [(mid, n)], from, mid + n, to, chunk)
    decreases |ranges|
  {
    var n := if chunk < to - mid then chunk else to - mid;
    if ranges == [] {
      assert (ranges + [(mid, n)])[1..] == [];
    } else {
      TilesAppend(ranges[1..], from + ranges[0].1, mid, to, chunk);
      assert (ranges + [(mid, n)])[1..] == ranges[1..] + [(mid, n)];
    }
  }

  lemma {:induction false} TilesForward(ranges: seq<(int, int)>, from: int, mid: int, to: int, chunk: nat)
    requires Tiles(ranges, from, mid, to, chunk)
    ensures from <= mid && (ranges == [] <==> from == mid)
    decreases |ranges|
  {
    if ranges != [] {
      TilesForward(ranges[1..], from + ranges[0].1, mid, to, chunk);
    }
  }

  /** The generator range_chunks: its local variables between two yields. */
  class RangeChunks {
    const remote: Remote
    const end: int
    const workers: nat
    const chunk: nat
    var position: int
    var pending: seq<(int, int)>
    ghost var consumed: int

    ghost predicate Valid()
      reads this
    {
      && 0 < chunk && 1 <= workers && 0 <= consumed <= position <= end
      && |pending| <= workers
      && Tiles(pending, consumed, position, end, chunk)
    }

    constructor (remote: Remote, begin: int, end: int, workers: nat, chunk: nat)
      requires 0 <= begin <= end && 0 < chunk && 1 <= workers
      ensures Valid() && consumed == begin && position == begin && this.remote == remote && this.end == end
      ensures this.workers == workers && this.chunk == chunk
    {
      this.remote, this.end, this.workers, this.chunk := remote, end, workers, chunk;
      position, pending, consumed := begin, [], begin;
    }

    /** Submits ranges until `workers` of them are pending or the span is covered. */
    method Prefetch()
      requires Valid()
      modifies `position, `pending
      ensures Valid() && position >= old(position)
      ensures |pending| == workers || position == end
    {
      while position < end && |pending| < workers
        invariant Valid() && position >= old(position)
      {
        var count := if chunk < end - position then chunk else end - position;
        TilesAppend(pending, consumed, position, end, chunk);
        pending := pending + [(position, count)];
        position := position + count;
      }
    }

    /** The next yield: the oldest pending range, or the failure of its request. */
    method Next() returns (r: Option<Bytes>)
      requires Valid() && consumed < end
      modifies this
      ensures Valid() && consumed > old(consumed)
      ensures consumed - old(consumed) == if chunk < end - old(consumed) then chunk else end - old(consumed)
      ensures r == Fetch(remote, old(consumed), consumed - old(consumed))
    {
      Prefetch();
      TilesForward(pending, consumed, position, end, chunk);
      var first := pending[0];
      pending := pending[1..];
      r := Fetch(remote, first.0, first.1);
      consumed := consumed + first.1;
      TilesForward(pending, consumed, position, end, chunk);
    }
  }

  class RangeReader {
    const chunks: RangeChunks
    var buffer: Bytes

    ghost predicate Valid()
      reads this, chunks
    {
      && chunks.Valid() && |buffer| <= chunks.chunk && |buffer| <= chunks.consumed
      && (buffer != [] ==>
            && chunks.consumed <= |chunks.remote.bytes|
            && buffer == chunks.remote.bytes[chunks.consumed - |buffer|..chunks.consumed])
    }

    /** The source offset of the next byte a read returns. */
    ghost function At(): int
      reads this, chunks
    {
      chunks.consumed - |buffer|
    }

    constructor (chunks: RangeChunks)
      requires chunks.Valid()
      ensures Valid() && this.chunks == chunks && At() == chunks.consumed
    {
      this.chunks, buffer := chunks, [];
    }

    method Refill() returns (ok: bool)
      requires Valid() && buffer == [] && chunks.consumed < chunks.end
      modifies this, chunks
      ensures ok ==> Valid() && At() == old(At()) && buffer != []
      ensures Reliable(chunks.remote) && chunks.end <= |chunks.remote.bytes| ==> ok
      ensures chunks.consumed > old(chunks.consumed)
    {
      var next := chunks.Next();
      if next.None? {
        return false;
      }
      buffer := next.value;
      ok := true;
    }

    /** The first n buffered bytes. */
    method Split(n: nat) returns (r: Bytes)
      requires Valid() && 0 < n <= |buffer|
      modifies `buffer
      ensures Valid() && At() == old(At()) + n
      ensures 0 <= old(At()) <= At() <= |chunks.remote.bytes| && r == chunks.remote.bytes[old(At())..At()]
    {
      r := buffer[..n];
      buffer := buffer[n..];
    }

    /** Exactly the next `count` source bytes, or the failure of a range they need; nothing else fails. */
    method Read(count: nat) returns (r: Option<Bytes>)
      requires Valid() && 0 < count <= chunks.end - At()
      modifies this, chunks
      ensures r.Some? ==>
                && Valid() && At() == old(At()) + count && 0 <= old(At()) < At() <= |chunks.remote.bytes|
                && r.value == chunks.remote.bytes[old(At())..At()]
      ensures Reliable(chunks.remote) && chunks.end <= |chunks.remote.bytes| ==> r.Some?
    {
      if |buffer| == 0 {
        var ok := Refill();
        if !ok {
          return None;
        }
      }
      if |buffer| >= count {
        var part := Split(count);
        return Some(part);
      }
      r := ReadAcross(count);
    }

    /** A read that needs more than what is buffered. */
    method ReadAcross(count: nat) returns (r: Option<Bytes>)
      requires Valid() && 0 < count <= chunks.end - At()
      modifies this, chunks
      ensures r.Some? ==>
                && Valid() && At() == old(At()) + count && 0 <= old(At()) < At() <= |chunks.remote.bytes|
                && r.value == chunks.remote.bytes[old(At())..At()]
      ensures Reliable(chunks.remote) && chunks.end <= |chunks.remote.bytes| ==> r.Some?
    {
      ghost var start := At();
      ghost var bytes := chunks.remote.bytes;
      var result: Bytes := [];
      while |result| < count
        invariant Valid() && start + |result| == At()
        invariant |result| <= count <= chunks.end - start
        invariant result != [] ==> At() <= |bytes| && result == bytes[start..At()]
        decreases count - |result|
      {
        if |buffer| == 0 {
          var ok := Refill();
          if !ok {
            return None;
          }
        }
        ghost var before := At();
        var n := if count - |result| < |buffer| then count - |result| else |buffer|;
        var part := Split(n);
        assert bytes[start..At()] == bytes[start..before] + bytes[before..At()];
        result := result + part;
      }
      r := Some(result);
    }
  }
}
