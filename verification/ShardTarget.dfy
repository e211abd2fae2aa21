/** The bytes a conversion should produce, scripts/download_qwen_image21.py: blockwise quantization and the whole shard. */
module ShardTarget {
  import opened ShardLayout
  import opened ShardRanges
  import opened Utf8
  import opened Wrappers

  /** Encodes one block of 32 elements into a 2-byte scale and 32 bytes; none when a value is not finite. */
  type Codec = (Dtype, Bytes) -> Option<Bytes>

  const BLOCK := 34

  ghost predicate GoodCodec(encode: Codec) {
    forall d: Dtype, block: Bytes :: encode(d, block).Some? ==> |encode(d, block).value| == BLOCK
  }

  function Join(a: Option<Bytes>, b: Option<Bytes>): Option<Bytes> {
    if a.Some? && b.Some? then Some(a.value + b.value) else None
  }

  /** q8_blocks: the blocks one after another. */
  function Q8(encode: Codec, d: Dtype, raw: Bytes): Option<Bytes> {
    var w := 32 * Width(d);
    if w == 0 || |raw| < w then Some([])
    else Join(encode(d, raw[..w]), Q8(encode, d, raw[w..]))
  }

  lemma {:induction false} Q8Split(encode: Codec, d: Dtype, a: Bytes, b: Bytes)
    requires d != OtherType && |a| % (32 * Width(d)) == 0
    ensures Q8(encode, d, a + b) == Join(Q8(encode, d, a), Q8(encode, d, b))
    decreases |a|
  {
    var w := 32 * Width(d);
    assert w == 64 || w == 128;
    if |a| < w {
      var z := Q8(encode, d, b);
      assert a == [] && a + b == b;
      assert z.Some? ==> [] + z.value == z.value;
    } else {
      assert (a + b)[..w] == a[..w] && (a + b)[w..] == a[w..] + b;
      Q8Split(encode, d, a[w..], b);
      var x, y, z := encode(d, a[..w]), Q8(encode, d, a[w..]), Q8(encode, d, b);
      assert Join(x, Join(y, z)) == Join(Join(x, y), z) by {
        if x.Some? && y.Some? && z.Some? {
          assert x.value + (y.value + z.value) == x.value + y.value + z.value;
        }
      }
    }
  }

  lemma {:induction false} Q8Size(encode: Codec, d: Dtype, raw: Bytes)
    requires GoodCodec(encode) && d != OtherType && Q8(encode, d, raw).Some?
    ensures |Q8(encode, d, raw).value| == |raw| / (32 * Width(d)) * BLOCK
    decreases |raw|
  {
    var w := 32 * Width(d);
    assert w == 64 || w == 128;
    if |raw| >= w {
      Q8Size(encode, d, raw[w..]);
      OneBlock(|raw|, w);
    }
  }

  lemma OneBlock(n: nat, w: nat)
    requires (w == 64 || w == 128) && n >= w
    ensures (n - w) / w + 1 == n / w
  {
  }

  // One tensor

  datatype Job = Job(remote: Remote, base: nat, header: Bytes, plan: seq<Item>, encode: Codec)

  function Zeros(n: nat): (z: Bytes)
    ensures |z| == n && forall b | b in z :: b == 0
  {
    seq(n, _ => 0)
  }

  function Convert(job: Job, item: Item, raw: Bytes): Option<Bytes> {
    if item.quantize then Q8(job.encode, item.tensor.dtype, raw) else Some(raw)
  }

  predicate InSource(job: Job, item: Item) {
    0 <= item.tensor.begin <= item.tensor.end && job.base + item.tensor.end <= |job.remote.bytes|
  }

  function Clip(bytes: Bytes, from: nat, to: nat): Bytes {
    if to <= |bytes| then if from <= to then bytes[from..to] else []
    else if from <= |bytes| then bytes[from..] else []
  }

  /** The tensor's source bytes, as far as the source has them. */
  function Raw(job: Job, item: Item): Bytes
    requires 0 <= item.tensor.begin <= item.tensor.end
  {
    Clip(job.remote.bytes, job.base + item.tensor.begin, job.base + item.tensor.end)
  }

  predicate Convertible(job: Job, item: Item) {
    InSource(job, item) && Convert(job, item, Raw(job, item)).Some?
  }

  function Body(job: Job, item: Item): Bytes
    requires Convertible(job, item)
  {
    Convert(job, item, Raw(job, item)).value
  }

  // The whole shard

  predicate ConvertibleFrom(job: Job, n: nat, m: nat)
    requires n <= m <= |job.plan|
  {
    forall i | n <= i < m :: Convertible(job, job.plan[i])
  }

  /** Items n to m - 1 with the padding before each. */
  function Section(job: Job, n: nat, m: nat): Bytes
    requires n <= m <= |job.plan| && ConvertibleFrom(job, n, m)
  {
    if n == m then []
    else
      Section(job, n, m - 1) + Stretch(job, m - 1)
  }

  /** Item i behind its padding. */
  function Stretch(job: Job, i: nat): Bytes
    requires i < |job.plan| && Convertible(job, job.plan[i])
  {
    Zeros(Gap(job.plan, i)) + Body(job, job.plan[i])
  }

  function Gap(plan: seq<Item>, i: nat): nat
    requires i < |plan|
  {
    if plan[i].begin < End(plan[..i]) then 0 else plan[i].begin - End(plan[..i])
  }

  function Target(job: Job): Bytes
    requires ConvertibleFrom(job, 0, |job.plan|)
  {
    job.header + Section(job, 0, |job.plan|)
  }

  ghost predicate GoodJob(job: Job, vae: bool) {
    Planned(job.plan, vae) && GoodCodec(job.encode)
  }

  /** A converted tensor has the size the plan gives it, so the size test of the import never fires. */
  lemma BodySize(job: Job, vae: bool, i: nat)
    requires GoodJob(job, vae) && i < |job.plan| && Convertible(job, job.plan[i])
    ensures |Body(job, job.plan[i])| == job.plan[i].size
  {
    var item := job.plan[i];
    assert ItemAt(job.plan, i, vae);
    if item.quantize {
      WholeBlocks(item.tensor, vae);
      Q8Size(job.encode, item.tensor.dtype, Raw(job, item));
    }
  }

  lemma {:induction false} SectionSize(job: Job, vae: bool, n: nat, m: nat)
    requires GoodJob(job, vae) && n <= m <= |job.plan| && ConvertibleFrom(job, n, m)
    ensures End(job.plan[..n]) <= End(job.plan[..m])
    ensures |Section(job, n, m)| == End(job.plan[..m]) - End(job.plan[..n])
    decreases m
  {
    if n < m {
      hide AlignUp, Convertible, Body, Supported, Stored, ConvertedSize, Quantized;
      SectionSize(job, vae, n, m - 1);
      BodySize(job, vae, m - 1);
      assert ItemAt(job.plan, m - 1, vae);
      AlignUpLeast(End(job.plan[..m - 1]));
      assert job.plan[..m][m - 1] == job.plan[m - 1];
    }
  }

  lemma {:induction false} SectionSplit(job: Job, n: nat, k: nat, m: nat)
    requires n <= k <= m <= |job.plan| && ConvertibleFrom(job, n, m)
    ensures Section(job, n, m) == Section(job, n, k) + Section(job, k, m)
    decreases m
  {
    hide Stretch, Convertible;
    if k < m {
      SectionSplit(job, n, k, m - 1);
      assert Section(job, n, m) == Section(job, n, m - 1) + Stretch(job, m - 1);
      assert Section(job, k, m) == Section(job, k, m - 1) + Stretch(job, m - 1);
    }
  }

  lemma SectionAround(job: Job, i: nat)
    requires i < |job.plan| && ConvertibleFrom(job, 0, |job.plan|)
    ensures Section(job, 0, |job.plan|) ==
            (Section(job, 0, i) + Stretch(job, i)) + Section(job, i + 1, |job.plan|)
  {
    SectionSplit(job, 0, i + 1, |job.plan|);
  }

  /** Every tensor sits at its planned offset behind the header. */
  lemma TargetHolds(job: Job, vae: bool, i: nat)
    requires GoodJob(job, vae) && i < |job.plan| && ConvertibleFrom(job, 0, |job.plan|)
    ensures var at := |job.header| + job.plan[i].begin;
            at + job.plan[i].size <= |Target(job)| && Target(job)[at..at + job.plan[i].size] == Body(job, job.plan[i])
    ensures |Target(job)| == |job.header| + End(job.plan)
  {
    hide *;
    SectionAround(job, i);
    ItemPlace(job, vae, i);
    TargetIs(job, vae);
    SectionLength(job, vae, i);
    RestConvertible(job, i);
    BodySize(job, vae, i);
    var z := Zeros(Gap(job.plan, i));
    Middle(job.header, Section(job, 0, i), z, Body(job, job.plan[i]), Section(job, i + 1, |job.plan|));
  }

  lemma RestConvertible(job: Job, i: nat)
    requires i < |job.plan| && ConvertibleFrom(job, 0, |job.plan|)
    ensures ConvertibleFrom(job, i + 1, |job.plan|)
  {
    hide Convertible;
  }

  lemma ItemPlace(job: Job, vae: bool, i: nat)
    requires GoodJob(job, vae) && i < |job.plan| && ConvertibleFrom(job, 0, |job.plan|)
    ensures Convertible(job, job.plan[i]) && Stretch(job, i) == Zeros(Gap(job.plan, i)) + Body(job, job.plan[i])
    ensures End(job.plan[..i]) + Gap(job.plan, i) == job.plan[i].begin
  {
    assert ItemAt(job.plan, i, vae);
    AlignUpLeast(End(job.plan[..i]));
    hide Body, Supported, Stored, ConvertedSize, Quantized, AlignUp;
  }

  lemma TargetIs(job: Job, vae: bool)
    requires GoodJob(job, vae) && ConvertibleFrom(job, 0, |job.plan|)
    ensures Target(job) == job.header + Section(job, 0, |job.plan|) && |Target(job)| == |job.header| + End(job.plan)
  {
    hide Section, ConvertibleFrom, GoodJob;
    SectionSize(job, vae, 0, |job.plan|);
    assert job.plan[..|job.plan|] == job.plan && job.plan[..0] == [];
  }

  lemma SectionLength(job: Job, vae: bool, i: nat)
    requires GoodJob(job, vae) && i <= |job.plan| && ConvertibleFrom(job, 0, |job.plan|)
    ensures ConvertibleFrom(job, 0, i) && |Section(job, 0, i)| == End(job.plan[..i])
  {
    hide Section, GoodJob, Convertible;
    SectionSize(job, vae, 0, i);
    assert job.plan[..0] == [];
  }

  lemma Middle(h: Bytes, a: Bytes, z: Bytes, b: Bytes, c: Bytes)
    ensures var all := h + ((a + (z + b)) + c); var at := |h| + (|a| + |z|);
            at + |b| <= |all| && all[at..at + |b|] == b
  {
  }

  /** Block k of a quantized tensor is the encoding of its 32 elements. */
  lemma {:induction false} Q8Block(encode: Codec, d: Dtype, raw: Bytes, k: nat)
    requires GoodCodec(encode) && d != OtherType && Q8(encode, d, raw).Some?
    requires var w := if d == F32 then 128 else 64; k * w + w <= |raw|
    ensures var w := if d == F32 then 128 else 64;
            && 34 * k + 34 <= |Q8(encode, d, raw).value|
            && encode(d, raw[k * w..k * w + w]) == Some(Q8(encode, d, raw).value[34 * k..34 * k + 34])
  {
    var w := if d == F32 then 128 else 64;
    assert w == 32 * Width(d);
    var q, rest := Q8(encode, d, raw).value, Q8(encode, d, raw[w..]).value;
    assert q == encode(d, raw[..w]).value + rest;
    if k > 0 {
      Q8Block(encode, d, raw[w..], k - 1);
      assert raw[w..][(k - 1) * w..(k - 1) * w + w] == raw[k * w..k * w + w];
      assert rest[34 * (k - 1)..34 * (k - 1) + 34] == q[34 * k..34 * k + 34];
    }
  }

  predicate Matrix(t: Tensor) {
    |t.shape| == 2 && t.shape[1] % 32 == 0
  }

  /**
   What a converted shard holds, by component, shape and source bytes: of the
   VAE, and of tensors that are not matrices with full rows, the source's own
   bytes; of all others, block by block, the encoding of 32 elements in 34 bytes.
   */
  lemma TargetSpelled(job: Job, vae: bool, i: nat, k: nat)
    requires GoodJob(job, vae) && i < |job.plan| && ConvertibleFrom(job, 0, |job.plan|)
    ensures var item, t, source := job.plan[i], job.plan[i].tensor, job.remote.bytes;
            var at, from := |job.header| + item.begin, job.base + t.begin;
            && 0 <= t.begin < t.end && job.base + t.end <= |source| && at + item.size <= |Target(job)|
            && (if vae || !Matrix(t) then
                  item.size == t.end - t.begin && Target(job)[at..at + item.size] == source[from..job.base + t.end]
                else
                  var w := if t.dtype == F32 then 128 else 64;
                  && item.size * 32 == t.shape[0] * t.shape[1] * 34 && item.size * w == (t.end - t.begin) * 34
                  && (k * w + w <= t.end - t.begin ==>
                        && 34 * k + 34 <= item.size
                        && job.encode(t.dtype, source[from + k * w..from + k * w + w]) ==
                             Some(Target(job)[at + 34 * k..at + 34 * k + 34])))
  {
    hide *;
    ItemPlace(job, vae, i);
    TargetHolds(job, vae, i);
    ItemSpelled(job, vae, i, k);
    var item := job.plan[i];
    var at := |job.header| + item.begin;
    var w := if item.tensor.dtype == F32 then 128 else 64;
    if !vae && Matrix(item.tensor) && k * w + w <= item.tensor.end - item.tensor.begin {
      SliceInside(Target(job), at, at + item.size, 34 * k, 34);
    }
  }

  lemma RawIs(job: Job, item: Item)
    requires Convertible(job, item)
    ensures 0 <= item.tensor.begin <= item.tensor.end && job.base + item.tensor.end <= |job.remote.bytes|
    ensures Raw(job, item) == job.remote.bytes[job.base + item.tensor.begin..job.base + item.tensor.end]
  {
  }

  lemma PlannedItem(job: Job, vae: bool, i: nat)
    requires GoodJob(job, vae) && i < |job.plan|
    ensures var t := job.plan[i].tensor;
            && Supported(t) && Stored(t) && t.dtype != OtherType && GoodCodec(job.encode)
            && job.plan[i].quantize == (!vae && Matrix(t)) && job.plan[i].size == ConvertedSize(t, vae)
  {
    assert ItemAt(job.plan, i, vae);
  }

  lemma BodyIs(job: Job, item: Item)
    requires Convertible(job, item)
    ensures item.quantize ==> Q8(job.encode, item.tensor.dtype, Raw(job, item)) == Some(Body(job, item))
    ensures !item.quantize ==> Body(job, item) == Raw(job, item)
  {
    hide Q8;
  }

  lemma QuantizedSize(t: Tensor, vae: bool)
    requires Supported(t) && Stored(t) && Matrix(t) && !vae
    ensures ConvertedSize(t, vae) * 32 == t.shape[0] * t.shape[1] * 34
    ensures ConvertedSize(t, vae) * (if t.dtype == F32 then 128 else 64) == (t.end - t.begin) * 34
  {
    SizeExact(t, vae);
  }

  lemma StoredSize(t: Tensor, vae: bool)
    requires Supported(t) && Stored(t)
    ensures t.begin < t.end && (vae || !Matrix(t) ==> ConvertedSize(t, vae) == t.end - t.begin)
  {
    SizeExact(t, vae);
  }

  lemma SliceInside(bytes: Bytes, from: nat, to: nat, at: nat, w: nat)
    requires from <= to <= |bytes| && from + at + w <= to
    ensures bytes[from..to][at..at + w] == bytes[from + at..from + at + w]
  {
    var a, b := bytes[from..to][at..at + w], bytes[from + at..from + at + w];
    forall i | 0 <= i < w ensures a[i] == b[i] {
      assert bytes[from..to][at + i] == bytes[from + at + i];
    }
  }

  lemma BlockSpelled(job: Job, item: Item, k: nat)
    requires GoodCodec(job.encode) && item.quantize && item.tensor.dtype != OtherType && Convertible(job, item)
    requires var w := if item.tensor.dtype == F32 then 128 else 64; k * w + w <= item.tensor.end - item.tensor.begin
    ensures 0 <= item.tensor.begin <= item.tensor.end && job.base + item.tensor.end <= |job.remote.bytes|
    ensures var w := if item.tensor.dtype == F32 then 128 else 64; var from := job.base + item.tensor.begin;
            && 34 * k + 34 <= |Body(job, item)|
            && job.encode(item.tensor.dtype, job.remote.bytes[from + k * w..from + k * w + w]) == Some(Body(job, item)[34 * k..34 * k + 34])
  {
    hide *;
    RawIs(job, item);
    BodyIs(job, item);
    var w := if item.tensor.dtype == F32 then 128 else 64;
    var at, from := k * w, job.base + item.tensor.begin;
    Q8Block(job.encode, item.tensor.dtype, Raw(job, item), k);
    SliceInside(job.remote.bytes, from, job.base + item.tensor.end, at, w);
  }

  lemma ItemSpelled(job: Job, vae: bool, i: nat, k: nat)
    requires GoodJob(job, vae) && i < |job.plan| && Convertible(job, job.plan[i])
    ensures var item, t, source := job.plan[i], job.plan[i].tensor, job.remote.bytes;
            var from := job.base + t.begin;
            && 0 <= t.begin < t.end && job.base + t.end <= |source| && |Body(job, item)| == item.size
            && (if vae || !Matrix(t) then
                  item.size == t.end - t.begin && Body(job, item) == source[from..job.base + t.end]
                else
                  var w := if t.dtype == F32 then 128 else 64;
                  && item.size * 32 == t.shape[0] * t.shape[1] * 34 && item.size * w == (t.end - t.begin) * 34
                  && (k * w + w <= t.end - t.begin ==>
                        && 34 * k + 34 <= item.size
                        && job.encode(t.dtype, source[from + k * w..from + k * w + w]) == Some(Body(job, item)[34 * k..34 * k + 34])))
  {
    hide GoodJob, Convertible, Body, GoodCodec, Supported, Stored, ConvertedSize;
    var item, t := job.plan[i], job.plan[i].tensor;
    PlannedItem(job, vae, i);
    BodySize(job, vae, i);
    RawIs(job, item);
    BodyIs(job, item);
    StoredSize(t, vae);
    if !vae && Matrix(t) {
      QuantizedSize(t, vae);
      var w := if t.dtype == F32 then 128 else 64;
      if k * w + w <= t.end - t.begin {
        BlockSpelled(job, item, k);
      }
    }
  }
}
