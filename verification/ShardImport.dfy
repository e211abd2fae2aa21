/**
 The resumable conversion of scripts/download_qwen_image21.py: resuming a partial
 file at a tensor boundary, copying tensors from prefetched ranges, and runs
 that are interrupted at any byte.
 */
module ShardImport {
  import opened Lists
  import opened ShardLayout
  import opened ShardRanges
  import opened ShardTarget
  import opened Utf8
  import opened Wrappers

  datatype Failure = HeaderDiffers | TooLong | NoSpace | InvalidSpan | Interrupted | FetchFailed | NotFinite | WrongSize

  const MARGIN := 0x2000_0000

  // The partial file

  function Overwrite(bytes: Bytes, at: nat, data: Bytes): Bytes
    requires at <= |bytes|
  {
    bytes[..at] + data + if at + |data| < |bytes| then bytes[at + |data|..] else []
  }

  /** A file that survives until `budget` more bytes have been written to it. */
  class Part {
    var bytes: Bytes
    var pos: nat
    var budget: nat

    constructor (bytes: Bytes, budget: nat)
      ensures this.bytes == bytes && this.budget == budget && pos == 0
    {
      this.bytes, this.budget, pos := bytes, budget, 0;
    }

    method Write(data: Bytes) returns (ok: bool)
      requires pos <= |bytes|
      modifies this
      ensures var n := if |data| <= old(budget) then |data| else old(budget);
              bytes == Overwrite(old(bytes), old(pos), data[..n]) && pos == old(pos) + n && (ok <==> n == |data|)
              && budget == old(budget) - n
      ensures pos <= |bytes|
    {
      var n := if |data| <= budget then |data| else budget;
      bytes := Overwrite(bytes, pos, data[..n]);
      pos, budget := pos + n, budget - n;
      ok := n == |data|;
    }

    /** A write at the end of the file appends the data, or a prefix of it when the run is interrupted. */
    method Append(data: Bytes) returns (ok: bool)
      requires pos == |bytes|
      modifies this
      ensures pos == |bytes|
      ensures old(bytes) <= bytes <= old(bytes) + data
      ensures ok ==> bytes == old(bytes) + data
      ensures budget + |bytes| == old(budget) + |old(bytes)| && (|data| <= old(budget) ==> ok)
    {
      ok := Write(data);
      assert data[..|data|] == data;
      assert forall n: nat | n <= |data| :: old(bytes) + data[..n] <= old(bytes) + data;
    }

    method Truncate(n: nat)
      requires n <= |bytes|
      modifies `bytes
      ensures bytes == old(bytes)[..n]
    {
      bytes := bytes[..n];
    }
  }

  // Resuming

  /** How many leading tensors the file holds completely. */
  function Completed(header: Bytes, plan: seq<Item>, size: nat): (n: nat)
    ensures n <= |plan|
  {
    if plan == [] then 0
    else
      var rest := Completed(header, plan[..|plan| - 1], size);
      if rest == |plan| - 1 && |header| + End(plan) <= size then |plan| else rest
  }

  /** What checked_resume keeps of a file: the header and the complete tensors. */
  function Kept(header: Bytes, plan: seq<Item>, file: Bytes): Bytes {
    CutTo(header, file, |header| + End(plan[..Completed(header, plan, |file|)]))
  }

  /** The header and what the file has behind it up to `end`, if it has all of that. */
  function CutTo(header: Bytes, file: Bytes, end: nat): Bytes {
    if |header| <= end <= |file| then header + file[|header|..end] else header
  }

  predicate Resumable(header: Bytes, plan: seq<Item>, file: Bytes) {
    && (if |file| < |header| then file <= header else header <= file)
    && |file| <= |header| + End(plan)
  }

  lemma {:induction false} CompletedFits(header: Bytes, plan: seq<Item>, size: nat)
    ensures var n := Completed(header, plan, size);
            && (n > 0 ==> |header| + End(plan[..n]) <= size)
            && (n < |plan| ==> |header| + End(plan[..n + 1]) > size)
  {
    if plan != [] {
      var init := plan[..|plan| - 1];
      CompletedFits(header, init, size);
      assert plan[..|plan|] == plan;
      var n := Completed(header, init, size);
      assert n <= |init| ==> plan[..n] == init[..n];
      assert n < |init| ==> plan[..n + 1] == init[..n + 1];
    }
  }

  method CountComplete(header: Bytes, plan: seq<Item>, size: nat) returns (count: nat, position: nat)
    ensures count == Completed(header, plan, size) && position == End(plan[..count])
  {
    count, position := 0, 0;
    while count < |plan|
      invariant count <= |plan| && Completed(header, plan[..count], size) == count && position == End(plan[..count])
    {
      var item := plan[count];
      assert plan[..count + 1][..count] == plan[..count];
      if |header| + item.begin + item.size > size {
        CompletedStops(header, plan, size, count, |plan|);
        assert plan[..|plan|] == plan;
        return;
      }
      count := count + 1;
      position := item.begin + item.size;
    }
    assert plan[..|plan|] == plan;
  }

  lemma {:induction false} CompletedStops(header: Bytes, plan: seq<Item>, size: nat, n: nat, m: nat)
    requires n < m <= |plan| && Completed(header, plan[..n], size) == n
    requires |header| + End(plan[..n + 1]) > size
    ensures Completed(header, plan[..m], size) == n
    decreases m
  {
    assert plan[..m][..m - 1] == plan[..m - 1];
    if n < m - 1 {
      CompletedStops(header, plan, size, n, m - 1);
    }
  }

  /** What resuming writes: a header that is not complete is written anew. */
  function HeaderCost(header: Bytes, file: Bytes): nat {
    if |file| < |header| then |header| else 0
  }

  lemma ResumableTests(header: Bytes, plan: seq<Item>, file: Bytes)
    requires plan != []
    ensures var n := if |file| < |header| then |file| else |header|;
            Resumable(header, plan, file) <==>
              file[..n] == header[..n] && |file| <= |header| + plan[|plan| - 1].begin + plan[|plan| - 1].size
  {
    if |file| < |header| {
      assert file[..|file|] == file;
    } else {
      assert header[..|header|] == header;
    }
  }

  lemma NoneKept(header: Bytes, plan: seq<Item>, size: nat)
    requires Completed(header, plan, size) == 0 || |header| + End(plan[..Completed(header, plan, size)]) <= size
    ensures size <= |header| ==> End(plan[..Completed(header, plan, size)]) == 0
    ensures |header| + End(plan[..Completed(header, plan, size)]) <= if size < |header| then |header| else size
  {
  }

  lemma HeaderFirst(header: Bytes, plan: seq<Item>, file: Bytes)
    requires Resumable(header, plan, file) && |file| >= |header|
    ensures header <= file
  {
  }

  /** What is left after the header was written anew, or found, and the rest cut. */
  lemma KeptIs(header: Bytes, plan: seq<Item>, file: Bytes, bytes: Bytes)
    requires Resumable(header, plan, file)
    requires if |file| < |header| then bytes == header else bytes == file
    ensures var end := |header| + End(plan[..Completed(header, plan, |file|)]);
            end <= |bytes| && bytes[..end] == Kept(header, plan, file)
  {
    CompletedFits(header, plan, |file|);
    if |file| >= |header| {
      HeaderFirst(header, plan, file);
    }
    NoneKept(header, plan, |file|);
    hide Resumable, Completed, End;
    var end := |header| + End(plan[..Completed(header, plan, |file|)]);
    if |file| >= |header| {
      assert file[..end] == header + file[|header|..end];
    } else {
      assert header[..|header|] == header;
    }
  }

  /** A header written over a shorter start of it. */
  lemma HeaderOver(header: Bytes, file: Bytes, n: nat)
    requires file <= header && n <= |header|
    ensures Overwrite(file, 0, header[..n]) <= header
    ensures n == |header| ==> Overwrite(file, 0, header[..n]) == header
  {
    assert file[..0] == [];
  }

  /** checked_resume: rejects a foreign or oversized file, else cuts it back to a tensor boundary. */
  method CheckedResume(out: Part, header: Bytes, plan: seq<Item>) returns (r: Result<(nat, nat, Bytes), Failure>)
    requires plan != []
    modifies out
    ensures r.Err? ==> out.bytes == old(out.bytes) || (r.error == Interrupted && out.bytes <= header)
    ensures Resumable(header, plan, old(out.bytes)) <==> r.Ok? || r == Err(Interrupted)
    ensures r != Err(WrongSize)
    ensures r.Ok? ==>
              var (count, position, digest) := r.value;
              && count == Completed(header, plan, |old(out.bytes)|) && position == End(plan[..count])
              && out.bytes == Kept(header, plan, old(out.bytes)) && digest == out.bytes && out.pos == |out.bytes|
              && |out.bytes| == |header| + position
              && out.budget == old(out.budget) - HeaderCost(header, old(out.bytes))
    ensures Resumable(header, plan, old(out.bytes)) && HeaderCost(header, old(out.bytes)) <= old(out.budget) ==> r.Ok?
  {
    hide *;
    ghost var file := out.bytes;
    var size := |out.bytes|;
    var n := if size < |header| then size else |header|;
    ResumableTests(header, plan, file);
    if out.bytes[..n] != header[..n] {
      return Err(HeaderDiffers);
    }
    if size > |header| + plan[|plan| - 1].begin + plan[|plan| - 1].size {
      return Err(TooLong);
    }
    var count, position := CountComplete(header, plan, size);
    HeaderCostIs(header, file);
    if size < |header| {
      ResumableStart(header, plan, file);
      out.pos := 0;
      var ok := out.Write(header);
      HeaderOver(header, file, out.pos);
      if !ok {
        return Err(Interrupted);
      }
    }
    KeptIs(header, plan, file, out.bytes);
    out.Truncate(|header| + position);
    out.pos := |out.bytes|;
    r := Ok((count, position, out.bytes));
  }

  lemma HeaderCostIs(header: Bytes, file: Bytes)
    ensures HeaderCost(header, file) == if |file| < |header| then |header| else 0
  {
  }

  lemma ResumableStart(header: Bytes, plan: seq<Item>, file: Bytes)
    requires Resumable(header, plan, file) && |file| < |header|
    ensures file <= header
  {
  }

  // Copying one tensor

  /** Converting piecewise at block boundaries is converting as a whole. */
  lemma ConvertSplit(job: Job, item: Item, raw: Bytes, d: nat, n: nat)
    requires d + n <= |raw| && item.tensor.dtype != OtherType
    requires BlockEnd(item, d)
    ensures Convert(job, item, raw[..d + n]) == Join(Convert(job, item, raw[..d]), Convert(job, item, raw[d..d + n]))
  {
    assert raw[..d + n] == raw[..d] + raw[d..d + n];
    if item.quantize {
      Q8Split(job.encode, item.tensor.dtype, raw[..d], raw[d..d + n]);
    }
  }

  /** A convertible tensor's first blocks convert to the start of its body. */
  lemma ConvertPrefix(job: Job, item: Item, raw: Bytes, d: nat)
    requires d <= |raw| && item.tensor.dtype != OtherType && Convert(job, item, raw).Some?
    requires BlockEnd(item, d)
    ensures Convert(job, item, raw[..d]).Some? && Convert(job, item, raw[..d]).value <= Convert(job, item, raw).value
  {
    ConvertSplit(job, item, raw, d, |raw| - d);
    assert raw[..|raw|] == raw;
  }

  lemma PieceBoundary(q: nat, chunk: nat, w: nat)
    requires chunk % 128 == 0 && (w == 64 || w == 128)
    ensures q * chunk % w == 0 && (q + 1) * chunk == q * chunk + chunk
  {
    var c := chunk / 128;
    assert q * chunk == 128 * (q * c) by {
      assert chunk == 128 * c;
    }
  }

  /** The first d source bytes of a tensor have been converted, written and digested. */
  ghost predicate Copied(job: Job, item: Item, d: nat, start: Bytes, digest0: Bytes, bytes: Bytes, digest: Bytes, written: nat)
    requires 0 <= item.tensor.begin <= item.tensor.end && d <= |Raw(job, item)|
  {
    var c := Convert(job, item, Raw(job, item)[..d]);
    c.Some? && bytes == start + c.value && digest == digest0 + c.value && written == |c.value|
  }

  /** One more piece after d bytes. */
  lemma CopiedNext(job: Job, item: Item, d: nat, n: nat, start: Bytes, digest0: Bytes,
                   bytes: Bytes, digest: Bytes, written: nat, data: Option<Bytes>)
    requires 0 <= item.tensor.begin <= item.tensor.end && item.tensor.dtype != OtherType && d + n <= |Raw(job, item)|
    requires BlockEnd(item, d)
    requires Copied(job, item, d, start, digest0, bytes, digest, written)
    requires data == Convert(job, item, Raw(job, item)[d..d + n])
    ensures data.Some? ==>
              Copied(job, item, d + n, start, digest0, bytes + data.value, digest + data.value, written + |data.value|)
  {
    hide Convert, Raw;
    ConvertSplit(job, item, Raw(job, item), d, n);
  }

  /** A convertible tensor converts at every block end, and only ever leaves a prefix of its body. */
  lemma NextIfConvertible(job: Job, item: Item, d: nat, n: nat, start: Bytes, digest0: Bytes, bytes: Bytes, digest: Bytes, written: nat)
    requires 0 <= item.tensor.begin <= item.tensor.end && item.tensor.dtype != OtherType && d + n <= |Raw(job, item)|
    requires BlockEnd(item, d) && (BlockEnd(item, d + n) || d + n == |Raw(job, item)|)
    requires Copied(job, item, d, start, digest0, bytes, digest, written) && Convertible(job, item)
    ensures bytes <= start + Body(job, item)
    ensures var data := Convert(job, item, Raw(job, item)[d..d + n]);
            data.Some? && bytes + data.value <= start + Body(job, item)
  {
    var raw := Raw(job, item);
    hide Convert, Raw;
    ConvertPrefix(job, item, raw, d);
    ConvertSplit(job, item, raw, d, n);
    if d + n == |raw| {
      assert raw[..d + n] == raw;
    } else {
      ConvertPrefix(job, item, raw, d + n);
    }
    var a, b := Convert(job, item, raw[..d]).value, Convert(job, item, raw[d..d + n]).value;
    assert start + (a + b) == start + a + b;
  }

  predicate BlockEnd(item: Item, d: nat) {
    item.quantize && item.tensor.dtype != OtherType ==> d % (32 * Width(item.tensor.dtype)) == 0
  }

  /** No request fails, and the source has everything the reader was asked for. */
  ghost predicate Smooth(job: Job, reader: RangeReader) {
    Reliable(job.remote) && reader.chunks.end <= |job.remote.bytes|
  }

  /** One piece: read, converted, written, digested. */
  method CopyPiece(out: Part, job: Job, item: Item, reader: RangeReader, ghost d: nat, n: nat,
                   ghost start: Bytes, ghost digest0: Bytes, digest: Bytes, written: nat)
    returns (r: Result<(Bytes, nat), Failure>)
    requires reader.Valid() && out.pos == |out.bytes| && reader.chunks.remote == job.remote
    requires 0 <= item.tensor.begin <= item.tensor.end && item.tensor.dtype != OtherType
    requires d <= |Raw(job, item)| && 0 < n && item.tensor.begin + d + n <= item.tensor.end
    requires reader.At() == job.base + item.tensor.begin + d && job.base + item.tensor.end <= reader.chunks.end
    requires BlockEnd(item, d) && (BlockEnd(item, d + n) || item.tensor.begin + d + n == item.tensor.end)
    requires Copied(job, item, d, start, digest0, out.bytes, digest, written)
    modifies out, reader, reader.chunks
    ensures out.pos == |out.bytes| && old(out.bytes) <= out.bytes
    ensures r.Ok? ==>
              && d + n <= |Raw(job, item)| && reader.Valid() && reader.At() == job.base + item.tensor.begin + d + n
              && Copied(job, item, d + n, start, digest0, out.bytes, r.value.0, r.value.1)
    ensures Convertible(job, item) ==> out.bytes <= start + Body(job, item)
    ensures r != Err(WrongSize)
    ensures out.budget + |out.bytes| == old(out.budget) + |old(out.bytes)|
    ensures Smooth(job, reader) && Convertible(job, item) && |Body(job, item)| - written <= old(out.budget) ==> r.Ok?
  {
    assert Smooth(job, reader) ==> Reliable(job.remote) && reader.chunks.end <= |job.remote.bytes|;
    hide *;
    ghost var raw := Raw(job, item);
    if Convertible(job, item) {
      RawWhole(job, item);
      NextIfConvertible(job, item, d, n, start, digest0, out.bytes, digest, written);
    }
    var piece := reader.Read(n);
    if piece.None? {
      return Err(FetchFailed);
    }
    PieceOfRaw(job, item, d, n, piece.value);
    CopiedNext(job, item, d, n, start, digest0, out.bytes, digest, written, Convert(job, item, raw[d..d + n]));
    var data := Convert(job, item, piece.value);
    if data.None? {
      return Err(NotFinite);
    }
    var ok := out.Append(data.value);
    if !ok {
      return Err(Interrupted);
    }
    r := Ok((digest + data.value, written + |data.value|));
  }

  lemma RawWhole(job: Job, item: Item)
    requires 0 <= item.tensor.begin <= item.tensor.end && Convertible(job, item)
    ensures |Raw(job, item)| == item.tensor.end - item.tensor.begin
  {
  }

  lemma PieceOfRaw(job: Job, item: Item, d: nat, n: nat, piece: Bytes)
    requires 0 <= item.tensor.begin && item.tensor.begin + d + n <= item.tensor.end
    requires var at := job.base + item.tensor.begin + d;
             at + n <= |job.remote.bytes| && piece == job.remote.bytes[at..at + n]
    ensures d + n <= |Raw(job, item)| && piece == Raw(job, item)[d..d + n]
  {
    var from := job.base + item.tensor.begin;
    var bytes, raw := job.remote.bytes, Raw(job, item);
    assert |raw| >= d + n && forall i | 0 <= i < |raw| :: raw[i] == bytes[from + i];
    hide Raw, Clip;
    assert piece == raw[d..d + n];
  }

  lemma PieceEnds(item: Item, q: nat, chunk: nat)
    requires chunk % 128 == 0
    ensures BlockEnd(item, q * chunk) && BlockEnd(item, q * chunk + chunk) && (q + 1) * chunk == q * chunk + chunk
  {
    if item.tensor.dtype != OtherType {
      PieceBoundary(q, chunk, 32 * Width(item.tensor.dtype));
      PieceBoundary(q + 1, chunk, 32 * Width(item.tensor.dtype));
    }
  }

  /** The loop over reader.take: every piece converted and written. */
  method CopyData(out: Part, job: Job, item: Item, reader: RangeReader, chunk: nat, digest0: Bytes)
    returns (r: Result<Bytes, Failure>, written: nat)
    requires reader.Valid() && out.pos == |out.bytes| && reader.chunks.remote == job.remote
    requires 0 <= item.tensor.begin < item.tensor.end && item.tensor.dtype != OtherType
    requires reader.At() == job.base + item.tensor.begin && job.base + item.tensor.end <= reader.chunks.end
    requires chunk > 0 && chunk % 128 == 0
    modifies out, reader, reader.chunks
    ensures out.pos == |out.bytes| && old(out.bytes) <= out.bytes
    ensures r.Ok? ==>
              && Convertible(job, item) && out.bytes == old(out.bytes) + Body(job, item)
              && r.value == digest0 + Body(job, item) && written == |Body(job, item)|
              && reader.Valid() && reader.At() == job.base + item.tensor.end
    ensures Convertible(job, item) ==> out.bytes <= old(out.bytes) + Body(job, item)
    ensures r != Err(WrongSize)
    ensures out.budget + |out.bytes| == old(out.budget) + |old(out.bytes)|
    ensures Smooth(job, reader) && Convertible(job, item) && |Body(job, item)| <= old(out.budget) ==> r.Ok?
  {
    var digest := digest0;
    written := 0;
    var d := 0;
    ghost var q := 0;
    var total := item.tensor.end - item.tensor.begin;
    hide *;
    while d < total
      invariant d <= total && d <= |Raw(job, item)| && (d < total ==> d == q * chunk)
      invariant reader.Valid() && reader.At() == job.base + item.tensor.begin + d
      invariant out.pos == |out.bytes| && old(out.bytes) <= out.bytes
      invariant Copied(job, item, d, old(out.bytes), digest0, out.bytes, digest, written)
      invariant out.budget + |out.bytes| == old(out.budget) + |old(out.bytes)| && out.budget + written == old(out.budget)
    {
      var n := if chunk < total - d then chunk else total - d;
      PieceEnds(item, q, chunk);
      var piece := CopyPiece(out, job, item, reader, d, n, old(out.bytes), digest0, digest, written);
      if piece.Err? {
        return Err(piece.error), written;
      }
      digest, written := piece.value.0, piece.value.1;
      d, q := d + n, q + 1;
    }
    AllCopied(job, item, old(out.bytes), digest0, out.bytes, digest, written);
    r := Ok(digest);
  }

  lemma AllCopied(job: Job, item: Item, start: Bytes, digest0: Bytes, bytes: Bytes, digest: Bytes, written: nat)
    requires 0 <= item.tensor.begin < item.tensor.end && item.tensor.end - item.tensor.begin <= |Raw(job, item)|
    requires Copied(job, item, item.tensor.end - item.tensor.begin, start, digest0, bytes, digest, written)
    ensures Convertible(job, item)
    ensures bytes == start + Body(job, item) && digest == digest0 + Body(job, item) && written == |Body(job, item)|
  {
    var raw := Raw(job, item);
    assert InSource(job, item);
    assert raw[..|raw|] == raw;
  }

  // Copying all tensors that are left

  /** Everything up to item m is written behind the kept bytes, and digested. */
  ghost predicate Written(job: Job, k: nat, m: nat, kept: Bytes, bytes: Bytes)
    requires k <= m <= |job.plan|
  {
    ConvertibleFrom(job, k, m) && bytes == kept + Section(job, k, m)
  }

  /** What an interrupted run may leave: a prefix of what it would have written. */
  ghost predicate Started(job: Job, k: nat, kept: Bytes, bytes: Bytes)
    requires k <= |job.plan|
  {
    kept <= bytes && (ConvertibleFrom(job, k, |job.plan|) ==> bytes <= kept + Section(job, k, |job.plan|))
  }

  lemma LongerPrefix(more: Bytes, a: Bytes, b: Bytes)
    requires more <= a
    ensures more <= a + b
  {
  }

  lemma Regroup(a: Bytes, b: Bytes, c: Bytes, d: Bytes)
    ensures a + ((b + c) + d) == (a + b) + c + d
  {
  }

  lemma WrittenStarted(job: Job, k: nat, m: nat, kept: Bytes, bytes: Bytes, more: Bytes)
    requires k <= m < |job.plan| && Written(job, k, m, kept, bytes) && bytes <= more
    requires Convertible(job, job.plan[m]) ==> more <= bytes + Stretch(job, m)
    ensures Started(job, k, kept, more)
  {
    assert kept <= more;
    if ConvertibleFrom(job, k, |job.plan|) {
      SectionSplit(job, k, m + 1, |job.plan|);
      assert Section(job, k, m + 1) == Section(job, k, m) + Stretch(job, m);
      var a, b, c := Section(job, k, m), Stretch(job, m), Section(job, m + 1, |job.plan|);
      hide Section, Stretch, Convertible;
      LongerPrefix(more, bytes + b, c);
      Regroup(kept, a, b, c);
    }
  }

  lemma WrittenIsStart(job: Job, k: nat, m: nat, kept: Bytes, bytes: Bytes)
    requires k <= m <= |job.plan| && Written(job, k, m, kept, bytes)
    ensures Started(job, k, kept, bytes)
  {
    assert kept <= bytes;
    if ConvertibleFrom(job, k, |job.plan|) {
      SectionSplit(job, k, m, |job.plan|);
      Within(job, k, m, |job.plan|);
      var a, b := Section(job, k, m), Section(job, m, |job.plan|);
      hide Section, ConvertibleFrom;
      assert kept + (a + b) == bytes + b;
    }
  }

  lemma WrittenNext(job: Job, k: nat, m: nat, kept: Bytes, bytes: Bytes)
    requires k <= m < |job.plan| && Written(job, k, m, kept, bytes) && Convertible(job, job.plan[m])
    ensures Written(job, k, m + 1, kept, bytes + Stretch(job, m))
  {
    assert Section(job, k, m + 1) == Section(job, k, m) + Stretch(job, m);
  }

  lemma StretchParts(job: Job, m: nat, vae: bool)
    requires m < |job.plan| && GoodJob(job, vae)
    ensures var item := job.plan[m];
            && 0 <= item.tensor.begin < item.tensor.end && item.tensor.dtype != OtherType
            && End(job.plan[..m]) <= item.begin
            && (Convertible(job, item) ==>
                  && |Body(job, item)| == item.size
                  && forall bytes: Bytes {:trigger bytes + Stretch(job, m)} ::
                       bytes + Stretch(job, m) == bytes + Zeros(item.begin - End(job.plan[..m])) + Body(job, item))
  {
    var item := job.plan[m];
    assert ItemAt(job.plan, m, vae);
    AlignUpLeast(End(job.plan[..m]));
    SizePositive(item.tensor, vae);
    if Convertible(job, item) {
      BodySize(job, vae, m);
      var a, b := Zeros(item.begin - End(job.plan[..m])), Body(job, item);
      forall bytes: Bytes ensures bytes + Stretch(job, m) == bytes + a + b {
        assert bytes + (a + b) == bytes + a + b;
      }
    }
  }

  /** One tensor: padding, data, and the size test, which never fails. */
  method CopyItem(out: Part, job: Job, m: nat, position: nat, reader: RangeReader, chunk: nat, digest0: Bytes, ghost vae: bool)
    returns (r: Result<Bytes, Failure>)
    requires m < |job.plan| && GoodJob(job, vae) && position == End(job.plan[..m])
    requires reader.Valid() && out.pos == |out.bytes| && reader.chunks.remote == job.remote
    requires reader.At() == job.base + job.plan[m].tensor.begin && job.base + job.plan[m].tensor.end <= reader.chunks.end
    requires chunk > 0 && chunk % 128 == 0
    modifies out, reader, reader.chunks
    ensures out.pos == |out.bytes| && old(out.bytes) <= out.bytes
    ensures r.Ok? ==>
              && Convertible(job, job.plan[m])
              && out.bytes == old(out.bytes) + Stretch(job, m)
              && r.value == digest0 + Stretch(job, m)
              && reader.Valid() && reader.At() == job.base + job.plan[m].tensor.end
    ensures Convertible(job, job.plan[m]) ==>
              out.bytes <= old(out.bytes) + Stretch(job, m)
    ensures r != Err(WrongSize)
    ensures out.budget + |out.bytes| == old(out.budget) + |old(out.bytes)|
    ensures Smooth(job, reader) && Convertible(job, job.plan[m]) && |Stretch(job, m)| <= old(out.budget) ==> r.Ok?
  {
    var item := job.plan[m];
    StretchParts(job, m, vae);
    hide *;
    var padding := Zeros(item.begin - position);
    assert Convertible(job, item) ==> old(out.bytes) + Stretch(job, m) == old(out.bytes) + padding + Body(job, item);
    var ok := out.Append(padding);
    if !ok {
      if Convertible(job, item) {
        LongerPrefix(out.bytes, old(out.bytes) + padding, Body(job, item));
      }
      return Err(Interrupted);
    }
    var data, written := CopyData(out, job, item, reader, chunk, digest0 + padding);
    if data.Err? {
      return data;
    }
    if written != item.size {
      return Err(WrongSize);
    }
    r := data;
  }

  /** Within a run the source range only moves forward, without gaps. */
  lemma {:induction false} RunForward(job: Job, vae: bool, m: nat, i: nat, n: nat)
    requires m <= i < n <= |job.plan| && GoodJob(job, vae) && Contiguous(job.plan[m..n])
    ensures 0 <= job.plan[i].tensor.begin < job.plan[i].tensor.end <= job.plan[n - 1].tensor.end
    ensures i + 1 < n ==> job.plan[i].tensor.end == job.plan[i + 1].tensor.begin
    ensures End(job.plan[..i + 1]) == job.plan[i].begin + job.plan[i].size
    decreases n - i
  {
    StretchParts(job, i, vae);
    if i + 1 < n {
      var span := job.plan[m..n];
      var k := i - m;
      assert span[k] == job.plan[i] && span[k + 1] == job.plan[i + 1];
      assert span[k].tensor.end == span[k + 1].tensor.begin;
      RunForward(job, vae, m, i + 1, n);
    }
  }

  /** The bytes that the tensors m to n - 1 take with their padding. */
  function Cost(job: Job, m: nat, n: nat): int
    requires m <= n <= |job.plan|
  {
    End(job.plan[..n]) - End(job.plan[..m])
  }

  /** Part of a convertible stretch. */
  lemma Within(job: Job, m: nat, i: nat, n: nat)
    requires m <= i <= n <= |job.plan| && ConvertibleFrom(job, m, n)
    ensures ConvertibleFrom(job, i, n) && (i < n ==> Convertible(job, job.plan[i]))
  {
    hide Convertible;
  }

  lemma WithinStart(job: Job, m: nat, i: nat, n: nat)
    requires m <= i <= n <= |job.plan| && ConvertibleFrom(job, m, n)
    ensures ConvertibleFrom(job, m, i)
  {
    hide Convertible;
  }

  lemma CostAdds(job: Job, vae: bool, m: nat, i: nat, n: nat)
    requires GoodJob(job, vae) && m <= i <= n <= |job.plan|
    ensures Cost(job, m, n) == Cost(job, m, i) + Cost(job, i, n) && Cost(job, m, i) >= 0 && Cost(job, i, n) >= 0
  {
    EndRises(job.plan, vae, m, i);
    EndRises(job.plan, vae, i, n);
  }

  lemma CostNext(job: Job, vae: bool, m: nat, i: nat, j: nat, n: nat)
    requires GoodJob(job, vae) && m <= i <= j <= n <= |job.plan|
    ensures Cost(job, m, j) == Cost(job, m, i) + Cost(job, i, j) <= Cost(job, m, n)
  {
    CostAdds(job, vae, m, i, j);
    CostAdds(job, vae, m, j, n);
  }

  lemma {:induction false} EndRises(plan: seq<Item>, vae: bool, m: nat, n: nat)
    requires Planned(plan, vae) && m <= n <= |plan|
    ensures End(plan[..m]) <= End(plan[..n])
    decreases n
  {
    if m < n {
      EndRises(plan, vae, m, n - 1);
      assert ItemAt(plan, n - 1, vae);
      AlignUpLeast(End(plan[..n - 1]));
    }
  }

  lemma StretchCost(job: Job, vae: bool, i: nat)
    requires GoodJob(job, vae) && i < |job.plan| && Convertible(job, job.plan[i])
    ensures |Stretch(job, i)| == Cost(job, i, i + 1)
  {
    StretchParts(job, i, vae);
    assert |[] + Stretch(job, i)| == |[] + Zeros(job.plan[i].begin - End(job.plan[..i])) + Body(job, job.plan[i])|;
    assert job.plan[..i + 1][..i] == job.plan[..i];
  }

  /** The next tensor of a span, behind everything written so far. */
  method CopyNext(out: Part, job: Job, ghost k: nat, i: nat, position: nat, reader: RangeReader, chunk: nat, digest: Bytes,
                  ghost kept: Bytes, ghost vae: bool)
    returns (r: Result<Bytes, Failure>)
    requires k <= i < |job.plan| && GoodJob(job, vae) && position == End(job.plan[..i])
    requires reader.Valid() && out.pos == |out.bytes| && reader.chunks.remote == job.remote
    requires reader.At() == job.base + job.plan[i].tensor.begin && job.base + job.plan[i].tensor.end <= reader.chunks.end
    requires chunk > 0 && chunk % 128 == 0
    requires Written(job, k, i, kept, out.bytes) && digest == out.bytes
    modifies out, reader, reader.chunks
    ensures out.pos == |out.bytes|
    ensures r.Ok? ==>
              && Written(job, k, i + 1, kept, out.bytes) && r.value == out.bytes
              && reader.Valid() && reader.At() == job.base + job.plan[i].tensor.end
    ensures r.Err? ==> Started(job, k, kept, out.bytes) && r.error != WrongSize
    ensures out.budget + |out.bytes| == old(out.budget) + |old(out.bytes)|
    ensures r.Ok? ==> |out.bytes| - |old(out.bytes)| == Cost(job, i, i + 1)
    ensures Smooth(job, reader) && Convertible(job, job.plan[i]) && Cost(job, i, i + 1) <= old(out.budget) ==> r.Ok?
  {
    hide *;
    ghost var before := out.bytes;
    if Convertible(job, job.plan[i]) {
      StretchCost(job, vae, i);
    }
    r := CopyItem(out, job, i, position, reader, chunk, digest, vae);
    if r.Err? {
      WrittenStarted(job, k, i, kept, before, out.bytes);
    } else {
      WrittenNext(job, k, i, kept, before);
    }
  }

  /** One contiguous span: its source range is fetched ahead and split tensor by tensor. */
  method CopySpan(out: Part, job: Job, ghost k: nat, m: nat, n: nat, position0: nat, workers: nat, chunk: nat, digest0: Bytes, ghost kept: Bytes, ghost vae: bool)
    returns (r: Result<Bytes, Failure>)
    requires k <= m < n <= |job.plan| && GoodJob(job, vae) && Contiguous(job.plan[m..n])
    requires out.pos == |out.bytes| && Written(job, k, m, kept, out.bytes) && digest0 == out.bytes
    requires position0 == End(job.plan[..m])
    requires 1 <= workers && chunk > 0 && chunk % 128 == 0
    modifies out
    ensures out.pos == |out.bytes| && Started(job, k, kept, out.bytes)
    ensures r.Ok? ==> Written(job, k, n, kept, out.bytes) && r.value == out.bytes
    ensures r != Err(WrongSize)
    ensures out.budget + |out.bytes| == old(out.budget) + |old(out.bytes)|
    ensures r.Ok? ==> |out.bytes| - |old(out.bytes)| == Cost(job, m, n)
    ensures Reliable(job.remote) && ConvertibleFrom(job, m, n) && Cost(job, m, n) <= old(out.budget) ==> r.Ok?
  {
    assert ConvertibleFrom(job, m, n) ==> Convertible(job, job.plan[n - 1]) && job.base + job.plan[n - 1].tensor.end <= |job.remote.bytes|;
    RunForward(job, vae, m, m, n);
    hide *;
    var chunks := new RangeChunks(job.remote, job.base + job.plan[m].tensor.begin, job.base + job.plan[n - 1].tensor.end, workers, chunk);
    var reader := new RangeReader(chunks);
    r := CopyRun(out, job, k, m, n, position0, reader, chunk, digest0, kept, vae);
  }

  /** The tensors of a span, one after another. */
  method CopyRun(out: Part, job: Job, ghost k: nat, m: nat, n: nat, position0: nat, reader: RangeReader, chunk: nat, digest0: Bytes,
                 ghost kept: Bytes, ghost vae: bool)
    returns (r: Result<Bytes, Failure>)
    requires k <= m < n <= |job.plan| && GoodJob(job, vae) && Contiguous(job.plan[m..n])
    requires out.pos == |out.bytes| && Written(job, k, m, kept, out.bytes) && digest0 == out.bytes
    requires position0 == End(job.plan[..m]) && chunk > 0 && chunk % 128 == 0
    requires reader.Valid() && reader.chunks.remote == job.remote
    requires reader.At() == job.base + job.plan[m].tensor.begin && reader.chunks.end == job.base + job.plan[n - 1].tensor.end
    modifies out, reader, reader.chunks
    ensures out.pos == |out.bytes| && Started(job, k, kept, out.bytes)
    ensures r.Ok? ==> Written(job, k, n, kept, out.bytes) && r.value == out.bytes
    ensures r != Err(WrongSize)
    ensures out.budget + |out.bytes| == old(out.budget) + |old(out.bytes)|
    ensures r.Ok? ==> |out.bytes| - |old(out.bytes)| == Cost(job, m, n)
    ensures Smooth(job, reader) && ConvertibleFrom(job, m, n) && Cost(job, m, n) <= old(out.budget) ==> r.Ok?
  {
    hide *;
    ghost var budget, size := out.budget, |out.bytes|;
    ghost var fine := Smooth(job, reader) && ConvertibleFrom(job, m, n) && Cost(job, m, n) <= budget;
    CostNext(job, vae, m, m, m, n);
    var digest, position := digest0, position0;
    var i := m;
    while i < n
      invariant m <= i <= n && reader.Valid() && out.pos == |out.bytes|
      invariant i < n ==> reader.At() == job.base + job.plan[i].tensor.begin
      invariant position == End(job.plan[..i])
      invariant Written(job, k, i, kept, out.bytes) && digest == out.bytes
      invariant out.budget + |out.bytes| == budget + size && |out.bytes| - size == Cost(job, m, i)
    {
      RunForward(job, vae, m, i, n);
      CostNext(job, vae, m, i, i + 1, n);
      if fine {
        Within(job, m, i, n);
      }
      var item := CopyNext(out, job, k, i, position, reader, chunk, digest, kept, vae);
      if item.Err? {
        return item;
      }
      digest := item.value;
      position := job.plan[i].begin + job.plan[i].size;
      i := i + 1;
    }
    WrittenIsStart(job, k, n, kept, out.bytes);
    r := Ok(digest);
  }

  // The whole import

  /** The run writes the kept bytes and the tensors behind them, or stops part-way. */
  method CopyRest(out: Part, job: Job, k: nat, workers: nat, chunk: nat, digest0: Bytes, ghost vae: bool)
    returns (r: Result<Bytes, Failure>)
    requires k <= |job.plan| && GoodJob(job, vae)
    requires out.pos == |out.bytes| && digest0 == out.bytes
    requires 1 <= workers && chunk > 0 && chunk % 128 == 0
    modifies out
    ensures Started(job, k, old(out.bytes), out.bytes)
    ensures r.Ok? ==> Written(job, k, |job.plan|, old(out.bytes), out.bytes) && r.value == out.bytes
    ensures r != Err(WrongSize)
    ensures out.budget + |out.bytes| == old(out.budget) + |old(out.bytes)|
    ensures r.Ok? ==> |out.bytes| - |old(out.bytes)| == Cost(job, k, |job.plan|)
    ensures Reliable(job.remote) && ConvertibleFrom(job, k, |job.plan|) && Cost(job, k, |job.plan|) <= old(out.budget) ==> r.Ok?
  {
    var spans := TensorSpans(job.plan[k..]);
    hide *;
    r := CopySpans(out, job, k, spans, workers, chunk, digest0, vae);
  }

  method CopySpans(out: Part, job: Job, k: nat, spans: seq<seq<Item>>, workers: nat, chunk: nat, digest0: Bytes, ghost vae: bool)
    returns (r: Result<Bytes, Failure>)
    requires k <= |job.plan| && GoodJob(job, vae) && Runs(spans) && Concat(spans) == job.plan[k..]
    requires out.pos == |out.bytes| && digest0 == out.bytes
    requires 1 <= workers && chunk > 0 && chunk % 128 == 0
    modifies out
    ensures Started(job, k, old(out.bytes), out.bytes)
    ensures r.Ok? ==> Written(job, k, |job.plan|, old(out.bytes), out.bytes) && r.value == out.bytes
    ensures r != Err(WrongSize)
    ensures out.budget + |out.bytes| == old(out.budget) + |old(out.bytes)|
    ensures r.Ok? ==> |out.bytes| - |old(out.bytes)| == Cost(job, k, |job.plan|)
    ensures Reliable(job.remote) && ConvertibleFrom(job, k, |job.plan|) && Cost(job, k, |job.plan|) <= old(out.budget) ==> r.Ok?
  {
    NothingYet(job, k, out.bytes);
    hide *;
    ghost var kept, budget, end := out.bytes, out.budget, |job.plan|;
    ghost var fine := Reliable(job.remote) && ConvertibleFrom(job, k, end) && Cost(job, k, end) <= budget;
    CostNext(job, vae, k, k, k, end);
    var digest, m := digest0, k;
    for s := 0 to |spans|
      invariant k <= m <= end && Concat(spans[..s]) == job.plan[k..m]
      invariant out.pos == |out.bytes| && digest == out.bytes && Written(job, k, m, kept, out.bytes)
      invariant out.budget + |out.bytes| == budget + |kept| && |out.bytes| - |kept| == Cost(job, k, m)
    {
      NextSpan(job.plan, spans, s, k, m);
      var n := m + |spans[s]|;
      CostNext(job, vae, k, m, n, end);
      if fine {
        WithinStart(job, k, n, end);
        Within(job, k, m, n);
      }
      var span := CopySpan(out, job, k, m, n, End(job.plan[..m]), workers, chunk, digest, kept, vae);
      if span.Err? {
        return span;
      }
      digest, m := span.value, n;
    }
    AllSpans(job.plan, spans, k, m);
    WrittenIsStart(job, k, m, kept, out.bytes);
    r := Ok(digest);
  }

  lemma NothingYet(job: Job, k: nat, bytes: Bytes)
    requires k <= |job.plan|
    ensures Written(job, k, k, bytes, bytes) && Concat<Item>([]) == job.plan[k..k]
  {
  }

  lemma AllSpans(plan: seq<Item>, spans: seq<seq<Item>>, k: nat, m: nat)
    requires k <= m <= |plan| && Concat(spans) == plan[k..] && Concat(spans[..|spans|]) == plan[k..m]
    ensures m == |plan|
  {
    assert spans[..|spans|] == spans;
    assert |plan[k..m]| == |plan[k..]|;
  }

  lemma {:induction false} ConcatPrefix<T>(parts: seq<seq<T>>, s: nat)
    requires s <= |parts|
    ensures Concat(parts[..s]) <= Concat(parts)
    decreases |parts| - s
  {
    if s < |parts| {
      ConcatPrefix(parts, s + 1);
      assert parts[..s + 1][..s] == parts[..s];
    } else {
      assert parts[..s] == parts;
    }
  }

  lemma NextSpan(plan: seq<Item>, spans: seq<seq<Item>>, s: nat, k: nat, m: nat)
    requires k <= m <= |plan| && s < |spans| && Runs(spans)
    requires Concat(spans) == plan[k..] && Concat(spans[..s]) == plan[k..m]
    ensures var n := m + |spans[s]|;
            && m < n <= |plan| && Contiguous(plan[m..n]) && Concat(spans[..s + 1]) == plan[k..n]
  {
    ConcatPrefix(spans, s + 1);
    assert spans[..s + 1][..s] == spans[..s];
    assert Concat(spans[..s + 1]) == plan[k..m] + spans[s];
    assert Joint(spans, s);
    hide Concat, Runs, Run, Contiguous;
    var n := m + |spans[s]|;
    assert plan[k..m] + spans[s] == plan[k..][..n - k] == plan[k..n];
    assert plan[m..n] == spans[s];
  }

  function Header(body: Bytes): Bytes {
    body + Zeros(-|body| % 32)
  }

  /** The padded header keeps tensor offsets aligned in the file itself. */
  lemma HeaderAligned(body: Bytes, plan: seq<Item>, vae: bool, i: nat)
    requires Planned(plan, vae) && i < |plan|
    ensures |Header(body)| % 32 == 0 && (|Header(body)| + plan[i].begin) % 32 == 0
  {
    PlanDisjoint(plan, vae, i, i);
  }

  lemma KeptShape(job: Job, file: Bytes)
    ensures var k := Completed(job.header, job.plan, |file|); var end := |job.header| + End(job.plan[..k]);
            && (k > 0 ==> |job.header| <= end <= |file|)
            && Kept(job.header, job.plan, file) == CutTo(job.header, file, end)
            && |CutTo(job.header, file, end)| == end
  {
    hide Completed;
    CompletedFits(job.header, job.plan, |file|);
    var k := Completed(job.header, job.plan, |file|);
    assert k == 0 ==> End(job.plan[..k]) == 0;
    hide End;
  }

  lemma TargetAt(job: Job, vae: bool, k: nat)
    requires GoodJob(job, vae) && k <= |job.plan| && ConvertibleFrom(job, 0, |job.plan|)
    ensures ConvertibleFrom(job, 0, k) && ConvertibleFrom(job, k, |job.plan|)
    ensures Target(job) == job.header + (Section(job, 0, k) + Section(job, k, |job.plan|))
    ensures |Section(job, 0, k)| == End(job.plan[..k]) && (k == 0 ==> Section(job, 0, k) == [])
  {
    SectionSplit(job, 0, k, |job.plan|);
    SectionSize(job, vae, 0, k);
  }

  /** What is kept of a file that is a prefix of the target is a prefix of the target. */
  lemma PrefixKept(job: Job, vae: bool, file: Bytes)
    requires GoodJob(job, vae) && ConvertibleFrom(job, 0, |job.plan|) && file <= Target(job)
    ensures var k := Completed(job.header, job.plan, |file|);
            && ConvertibleFrom(job, 0, k) && ConvertibleFrom(job, k, |job.plan|)
            && Kept(job.header, job.plan, file) == job.header + Section(job, 0, k)
            && Kept(job.header, job.plan, file) + Section(job, k, |job.plan|) == Target(job)
  {
    hide *;
    var k, n := Completed(job.header, job.plan, |file|), |job.plan|;
    KeptShape(job, file);
    TargetAt(job, vae, k);
    var a, b := Section(job, 0, k), Section(job, k, n);
    KeptStart(job.header, a, b, file, Kept(job.header, job.plan, file));
  }

  lemma KeptStart(header: Bytes, a: Bytes, b: Bytes, file: Bytes, kept: Bytes)
    requires file <= header + (a + b)
    requires kept == CutTo(header, file, |header| + |a|)
    requires |file| < |header| + |a| ==> a == []
    ensures kept == header + a && kept + b == header + (a + b)
  {
    var end := |header| + |a|;
    if end <= |file| {
      assert file[|header|..end] == (header + (a + b))[|header|..end] == a;
    } else {
      assert header + [] == header;
    }
  }

  lemma PrefixResumable(job: Job, vae: bool, file: Bytes)
    requires GoodJob(job, vae) && ConvertibleFrom(job, 0, |job.plan|) && file <= Target(job)
    ensures Resumable(job.header, job.plan, file)
  {
    SectionSize(job, vae, 0, |job.plan|);
    assert job.plan[..|job.plan|] == job.plan;
  }

  /**
   A resumable file, whatever it holds, completes to the target exactly when
   the header and the whole tensors it already had are those of the target.
   */
  lemma ResumeExact(job: Job, vae: bool, file: Bytes)
    requires GoodJob(job, vae) && ConvertibleFrom(job, 0, |job.plan|)
    ensures var k := Completed(job.header, job.plan, |file|);
            Kept(job.header, job.plan, file) + Section(job, k, |job.plan|) == Target(job)
            <==> Kept(job.header, job.plan, file) <= Target(job)
  {
    hide *;
    var k, n := Completed(job.header, job.plan, |file|), |job.plan|;
    var kept := Kept(job.header, job.plan, file);
    KeptShape(job, file);
    TargetAt(job, vae, k);
    SameTail(kept, job.header, Section(job, 0, k), Section(job, k, n));
  }

  lemma SameTail(kept: Bytes, header: Bytes, a: Bytes, b: Bytes)
    requires |kept| == |header| + |a|
    ensures kept + b == header + (a + b) <==> kept <= header + (a + b)
  {
    assert header + (a + b) == (header + a) + b;
    var t := header + (a + b);
    if kept <= t {
      assert kept == t[..|kept|] == header + a;
    }
    if kept + b == t {
      assert kept == (kept + b)[..|kept|];
    }
  }

  /** A completed run: what was kept, the tensors behind it, and a checksum over all of it. */
  ghost predicate Complete(job: Job, before: Bytes, after: Bytes, digest: Bytes) {
    var k := Completed(job.header, job.plan, |before|);
    && ConvertibleFrom(job, k, |job.plan|)
    && after == Kept(job.header, job.plan, before) + Section(job, k, |job.plan|)
    && digest == after
  }

  lemma CompleteConverts(job: Job, before: Bytes, after: Bytes, digest: Bytes)
    requires Complete(job, before, after, digest)
    ensures ConvertibleFrom(job, Completed(job.header, job.plan, |before|), |job.plan|)
  {
  }

  /** A run never turns a prefix of the target into anything else. */
  ghost predicate KeepsPrefix(job: Job, before: Bytes, after: Bytes) {
    ConvertibleFrom(job, 0, |job.plan|) && before <= Target(job) ==> after <= Target(job)
  }

  lemma HeaderStart(job: Job, before: Bytes, after: Bytes)
    requires after == before || after <= job.header
    ensures KeepsPrefix(job, before, after)
  {
  }

  lemma RunKeepsPrefix(job: Job, vae: bool, before: Bytes, after: Bytes)
    requires GoodJob(job, vae)
    requires var k := Completed(job.header, job.plan, |before|); Started(job, k, Kept(job.header, job.plan, before), after)
    ensures KeepsPrefix(job, before, after)
  {
    if ConvertibleFrom(job, 0, |job.plan|) && before <= Target(job) {
      PrefixKept(job, vae, before);
    }
  }

  lemma RunCompletes(job: Job, before: Bytes, after: Bytes)
    requires var k := Completed(job.header, job.plan, |before|);
             Written(job, k, |job.plan|, Kept(job.header, job.plan, before), after)
    ensures Complete(job, before, after, after)
  {
  }

  /**
   What a run needs to complete: a file it can resume, tensors that convert,
   free space, a legal number of workers if there is work, and no interruption
   before everything that is missing is written.
   */
  ghost predicate Enough(job: Job, file: Bytes, budget: nat, free: nat, workers: int) {
    var k := Completed(job.header, job.plan, |file|);
    && Resumable(job.header, job.plan, file)
    && ConvertibleFrom(job, k, |job.plan|)
    && free >= Cost(job, k, |job.plan|) + MARGIN
    && (k < |job.plan| ==> 1 <= workers <= 16)
    && HeaderCost(job.header, file) + Cost(job, k, |job.plan|) <= budget
  }

  lemma EnoughMeans(job: Job, file: Bytes, budget: nat, free: nat, workers: int)
    ensures var k := Completed(job.header, job.plan, |file|);
            && Cost(job, k, |job.plan|) == End(job.plan) - End(job.plan[..k])
            && (Enough(job, file, budget, free, workers) <==>
                  && Resumable(job.header, job.plan, file) && ConvertibleFrom(job, k, |job.plan|)
                  && free >= Cost(job, k, |job.plan|) + MARGIN && (k < |job.plan| ==> 1 <= workers <= 16)
                  && HeaderCost(job.header, file) + Cost(job, k, |job.plan|) <= budget)
  {
    assert job.plan[..|job.plan|] == job.plan;
    hide ConvertibleFrom, Completed, End;
  }

  /** One call of import_shard on the partial file; without failing requests it completes exactly when it can. */
  method Import(out: Part, job: Job, workers: int, chunk: nat, free: nat, ghost vae: bool) returns (r: Result<Bytes, Failure>)
    requires job.plan != [] && GoodJob(job, vae) && chunk > 0 && chunk % 128 == 0
    modifies out
    ensures r.Ok? ==> Complete(job, old(out.bytes), out.bytes, r.value)
    ensures KeepsPrefix(job, old(out.bytes), out.bytes)
    ensures !Resumable(job.header, job.plan, old(out.bytes)) ==> r.Err? && out.bytes == old(out.bytes)
    ensures r != Err(WrongSize)
    ensures r.Ok? ==> Enough(job, old(out.bytes), old(out.budget), free, workers)
    ensures Reliable(job.remote) && Enough(job, old(out.bytes), old(out.budget), free, workers) ==> r.Ok?
  {
    hide *;
    ghost var before := out.bytes;
    EnoughMeans(job, before, out.budget, free, workers);
    CostAdds(job, vae, Completed(job.header, job.plan, |before|), |job.plan|, |job.plan|);
    var resumed := CheckedResume(out, job.header, job.plan);
    if resumed.Err? {
      HeaderStart(job, before, out.bytes);
      return Err(resumed.error);
    }
    var (completed, position, digest) := resumed.value;
    RunKeepsPrefix(job, vae, before, out.bytes);
    if free < End(job.plan) - position + MARGIN {
      return Err(NoSpace);
    }
    if completed < |job.plan| && !(1 <= workers <= 16) {
      return Err(InvalidSpan);
    }
    r := CopyRest(out, job, completed, if workers < 1 then 1 else workers, chunk, digest, vae);
    RunKeepsPrefix(job, vae, before, out.bytes);
    if r.Ok? {
      RunCompletes(job, before, out.bytes);
      assert ConvertibleFrom(job, completed, |job.plan|) by { CompleteConverts(job, before, out.bytes, out.bytes); }
    }
  }

  // Series of interrupted runs

  /** One attempt: how many bytes it survives, the free space, and which requests fail. */
  datatype Attempt = Attempt(budget: nat, free: nat, fails: (int, int) -> bool)

  function On(job: Job, a: Attempt): Job {
    job.(remote := Remote(job.remote.bytes, a.fails))
  }

  lemma SameBody(job: Job, a: Attempt, item: Item)
    ensures Convertible(On(job, a), item) == Convertible(job, item)
    ensures Convertible(job, item) ==> Body(On(job, a), item) == Body(job, item)
  {
  }

  lemma SameStretch(job: Job, a: Attempt, i: nat)
    requires i < |job.plan| && Convertible(job, job.plan[i])
    ensures Convertible(On(job, a), job.plan[i]) && Stretch(On(job, a), i) == Stretch(job, i)
  {
    SameBody(job, a, job.plan[i]);
    hide Convertible, Body;
  }

  lemma {:induction false} SameTarget(job: Job, a: Attempt, n: nat, m: nat)
    requires n <= m <= |job.plan| && ConvertibleFrom(job, n, m)
    ensures ConvertibleFrom(On(job, a), n, m) && Section(On(job, a), n, m) == Section(job, n, m)
    decreases m
  {
    hide Convertible, Stretch;
    if n < m {
      SameTarget(job, a, n, m - 1);
      SameStretch(job, a, m - 1);
    }
  }

  /** Room for everything, in the file's life and on the disk, and no failing request. */
  ghost predicate Suffices(job: Job, a: Attempt) {
    && |job.header| + End(job.plan) <= a.budget && End(job.plan) + MARGIN <= a.free
    && forall start: int, count: int {:trigger a.fails(start, count)} :: !a.fails(start, count)
  }

  lemma OnSame(job: Job, a: Attempt, vae: bool)
    requires GoodJob(job, vae) && ConvertibleFrom(job, 0, |job.plan|)
    ensures var run := On(job, a);
            run.plan == job.plan && run.header == job.header && GoodJob(run, vae)
            && ConvertibleFrom(run, 0, |job.plan|) && Target(run) == Target(job)
  {
    SameTarget(job, a, 0, |job.plan|);
  }

  lemma StaysPrefix(job: Job, vae: bool, before: Bytes, after: Bytes)
    requires ConvertibleFrom(job, 0, |job.plan|) && before <= Target(job) && KeepsPrefix(job, before, after)
    ensures after <= Target(job)
  {
  }

  lemma CompletesTarget(job: Job, vae: bool, before: Bytes, after: Bytes, digest: Bytes)
    requires GoodJob(job, vae) && ConvertibleFrom(job, 0, |job.plan|) && before <= Target(job)
    requires Complete(job, before, after, digest)
    ensures after == Target(job) && digest == Target(job)
  {
    PrefixKept(job, vae, before);
  }

  lemma SufficesEnough(job: Job, a: Attempt, file: Bytes, workers: int, vae: bool)
    requires GoodJob(job, vae) && job.plan != [] && ConvertibleFrom(job, 0, |job.plan|) && file <= Target(job)
    requires On(job, a).plan == job.plan && GoodJob(On(job, a), vae)
    ensures Suffices(job, a) && 1 <= workers <= 16 ==>
              Reliable(On(job, a).remote) && Enough(On(job, a), file, a.budget, a.free, workers)
  {
    var k, n := Completed(job.header, job.plan, |file|), |job.plan|;
    PrefixResumable(job, vae, file);
    PrefixKept(job, vae, file);
    SameTarget(job, a, k, n);
    assert job.plan[..n] == job.plan;
    EndRises(job.plan, vae, 0, k);
  }

  /**
   However often the conversion is interrupted, and wherever, the attempt that
   completes leaves exactly the bytes of one uninterrupted conversion, and its
   checksum has consumed exactly those bytes. An attempt with enough room and
   without failing requests completes.
   */
  method Converge(out: Part, job: Job, workers: int, chunk: nat, attempts: seq<Attempt>, ghost vae: bool)
    returns (digest: Option<Bytes>)
    requires job.plan != [] && GoodJob(job, vae) && chunk > 0 && chunk % 128 == 0
    requires ConvertibleFrom(job, 0, |job.plan|) && out.bytes <= Target(job)
    modifies out
    ensures out.bytes <= Target(job)
    ensures digest.Some? ==> out.bytes == Target(job) && digest.value == Target(job)
    ensures 1 <= workers <= 16 && (exists i :: 0 <= i < |attempts| && Suffices(job, attempts[i])) ==> digest.Some?
  {
    hide *;
    for i := 0 to |attempts|
      invariant out.bytes <= Target(job)
      invariant 1 <= workers <= 16 ==> forall k | 0 <= k < i :: !Suffices(job, attempts[k])
    {
      out.budget, out.pos := attempts[i].budget, 0;
      var run := On(job, attempts[i]);
      SameTarget(job, attempts[i], 0, |job.plan|);
      ghost var before := out.bytes;
      OnSame(job, attempts[i], vae);
      var r := Import(out, run, workers, chunk, attempts[i].free, vae);
      SufficesEnough(job, attempts[i], before, workers, vae);
      StaysPrefix(run, vae, before, out.bytes);
      if r.Ok? {
        CompletesTarget(run, vae, before, out.bytes, r.value);
        return Some(r.value);
      }
    }
    digest := None;
  }
}
