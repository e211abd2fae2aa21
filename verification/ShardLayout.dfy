/** The layout of one converted shard, scripts/download_qwen_image21.py: header, aligned tensors, contiguous source spans. */
module ShardLayout {
  import opened Lists
  import opened Wrappers

  datatype Dtype = F32 | F16 | BF16 | OtherType

  /** A safetensors entry, in name order; `included` is the caller's choice, `metadata` the reserved entry. */
  datatype Tensor = Tensor(name: string, metadata: bool, included: bool, shape: seq<int>, dtype: Dtype, begin: int, end: int)

  datatype Item = Item(tensor: Tensor, begin: nat, size: nat, quantize: bool)

  datatype PlanError = Unsupported(name: string) | BadStorage(name: string)

  const MAX_DIM := 0x100_0000

  function Width(d: Dtype): nat {
    match d
    case F32 => 4
    case F16 => 2
    case BF16 => 2
    case OtherType => 0
  }

  function Product(shape: seq<int>): int {
    if shape == [] then 1 else Product(shape[..|shape| - 1]) * shape[|shape| - 1]
  }

  predicate Wanted(t: Tensor) {
    !t.metadata && t.included
  }

  predicate Supported(t: Tensor) {
    0 < |t.shape| <= 5 && (forall i | 0 <= i < |t.shape| :: 0 < t.shape[i] <= MAX_DIM) && t.dtype != OtherType
  }

  predicate Stored(t: Tensor) {
    t.begin >= 0 && t.end - t.begin == Product(t.shape) * Width(t.dtype)
  }

  predicate Quantized(t: Tensor, vae: bool) {
    !vae && |t.shape| == 2 && t.shape[1] % 32 == 0
  }

  function ConvertedSize(t: Tensor, vae: bool): int {
    if Quantized(t, vae) then Product(t.shape) / 32 * 34 else t.end - t.begin
  }

  function AlignUp(n: nat): nat {
    (n + 31) / 32 * 32
  }

  lemma AlignUpLeast(n: nat)
    ensures AlignUp(n) % 32 == 0 && n <= AlignUp(n) < n + 32
  {
  }

  lemma {:induction false} ProductPositive(shape: seq<int>)
    requires forall i | 0 <= i < |shape| :: shape[i] > 0
    ensures Product(shape) > 0
  {
    if shape != [] {
      ProductPositive(shape[..|shape| - 1]);
      assert Product(shape[..|shape| - 1]) * shape[|shape| - 1] > 0;
    }
  }

  lemma MultipleOf32(a: int, b: int)
    requires b % 32 == 0
    ensures (a * b) % 32 == 0
  {
    assert a * b == (a * (b / 32)) * 32 by {
      assert b == b / 32 * 32;
    }
  }

  lemma BlockMath(blocks: nat, width: nat)
    requires width == 2 || width == 4
    ensures (blocks * 32 * width) % (32 * width) == 0 && (blocks * 32 * width) / (32 * width) == blocks
  {
    if width == 2 {
      assert blocks * 32 * 2 / 64 == blocks;
    } else {
      assert blocks * 32 * 4 / 128 == blocks;
    }
  }

  /** A quantized tensor is made of whole blocks of 32 elements. */
  lemma WholeBlocks(t: Tensor, vae: bool)
    requires Supported(t) && Stored(t) && Quantized(t, vae)
    ensures Product(t.shape) % 32 == 0 && Product(t.shape) > 0
    ensures (t.end - t.begin) % (32 * Width(t.dtype)) == 0
    ensures ConvertedSize(t, vae) == (t.end - t.begin) / (32 * Width(t.dtype)) * 34
  {
    ProductPositive(t.shape);
    assert Product(t.shape) == Product(t.shape[..1]) * t.shape[1];
    MultipleOf32(Product(t.shape[..1]), t.shape[1]);
    BlockMath(Product(t.shape) / 32, Width(t.dtype));
  }

  lemma SizePositive(t: Tensor, vae: bool)
    requires Supported(t) && Stored(t)
    ensures t.begin < t.end && ConvertedSize(t, vae) > 0
  {
    ProductPositive(t.shape);
    assert Product(t.shape) * Width(t.dtype) > 0;
    if Quantized(t, vae) {
      WholeBlocks(t, vae);
    }
  }

  /** The planned size of a tensor, by component and shape: 34 bytes for every 32 elements of a matrix with full rows, else as stored. */
  lemma SizeExact(t: Tensor, vae: bool)
    requires Supported(t) && Stored(t)
    ensures vae ==> ConvertedSize(t, vae) == t.end - t.begin
    ensures ConvertedSize(t, vae) * 32 == Product(t.shape) * 34 <==> !vae && |t.shape| == 2 && t.shape[1] % 32 == 0
    ensures ConvertedSize(t, vae) * 32 != Product(t.shape) * 34 ==> ConvertedSize(t, vae) == t.end - t.begin
    ensures |t.shape| == 2 ==> Product(t.shape) == t.shape[0] * t.shape[1]
    ensures t.end - t.begin == Product(t.shape) * (if t.dtype == F32 then 4 else 2) > 0
  {
    ProductPositive(t.shape);
    if |t.shape| == 2 {
      assert t.shape[..1][..0] == [];
      assert Product(t.shape[..1]) == t.shape[0];
    }
    if Quantized(t, vae) {
      WholeBlocks(t, vae);
    }
  }

  // The plan

  function End(plan: seq<Item>): nat {
    if plan == [] then 0 else plan[|plan| - 1].begin + plan[|plan| - 1].size
  }

  /** Item i of a plan: a wanted, sound tensor, laid out at the first aligned offset after item i - 1. */
  predicate ItemAt(plan: seq<Item>, i: nat, vae: bool)
    requires i < |plan|
  {
    var item := plan[i];
    && Wanted(item.tensor) && Supported(item.tensor) && Stored(item.tensor)
    && item.quantize == Quantized(item.tensor, vae)
    && item.size == ConvertedSize(item.tensor, vae) && item.size > 0
    && item.begin == AlignUp(End(plan[..i]))
  }

  predicate Planned(plan: seq<Item>, vae: bool) {
    forall i: nat {:trigger ItemAt(plan, i, vae)} | i < |plan| :: ItemAt(plan, i, vae)
  }

  function WantedOf(source: seq<Tensor>): seq<Tensor> {
    if source == [] then []
    else
      var last := source[|source| - 1];
      WantedOf(source[..|source| - 1]) + if Wanted(last) then [last] else []
  }

  predicate Fault(t: Tensor) {
    Wanted(t) && !(Supported(t) && Stored(t))
  }

  /** Wanted, but of no shape or more than five dimensions, with a dimension outside 1..2^24, an unknown type, or the wrong storage. */
  predicate Refused(t: Tensor) {
    && !t.metadata && t.included
    && (|t.shape| == 0 || |t.shape| > 5 || (exists n :: n in t.shape && (n <= 0 || n > 16777216)) || t.dtype == OtherType
        || t.begin < 0 || t.end - t.begin != Product(t.shape) * (if t.dtype == F32 then 4 else 2))
  }

  lemma RefusedIsFault(t: Tensor)
    ensures Refused(t) <==> Fault(t)
  {
    if !Supported(t) && 0 < |t.shape| <= 5 && t.dtype != OtherType {
      var i :| 0 <= i < |t.shape| && !(0 < t.shape[i] <= MAX_DIM);
      assert t.shape[i] in t.shape;
    }
    assert Supported(t) ==> forall n | n in t.shape :: 0 < n <= MAX_DIM;
  }

  /** The planning loop of import_shard: it fails on the first faulty tensor, and otherwise lays out every wanted one. */
  method MakePlan(source: seq<Tensor>, vae: bool) returns (r: Result<seq<Item>, PlanError>)
    ensures r.Err? <==> exists t :: t in source && Refused(t)
    ensures r.Err? ==> exists i ::
              && 0 <= i < |source| && Fault(source[i]) && (forall j | 0 <= j < i :: !Fault(source[j]))
              && r.error == if Supported(source[i]) then BadStorage(source[i].name) else Unsupported(source[i].name)
    ensures r.Ok? ==> Planned(r.value, vae)
    ensures r.Ok? ==> |r.value| == |WantedOf(source)| && forall i | 0 <= i < |r.value| :: r.value[i].tensor == WantedOf(source)[i]
  {
    forall t ensures Refused(t) <==> Fault(t) {
      RefusedIsFault(t);
    }
    hide Refused;
    var plan: seq<Item> := [];
    var offset := 0;
    for n := 0 to |source|
      invariant forall j | 0 <= j < n :: !Fault(source[j])
      invariant Planned(plan, vae) && offset == End(plan)
      invariant |plan| == |WantedOf(source[..n])|
      invariant forall i | 0 <= i < |plan| :: plan[i].tensor == WantedOf(source[..n])[i]
    {
      var t := source[n];
      assert source[..n + 1][..n] == source[..n];
      if !Wanted(t) {
        continue;
      }
      assert Fault(source[n]) <==> !(Supported(t) && Stored(t));
      if !Supported(t) {
        return Err(Unsupported(t.name));
      }
      if !Stored(t) {
        return Err(BadStorage(t.name));
      }
      SizePositive(t, vae);
      var size := ConvertedSize(t, vae);
      offset := AlignUp(offset);
      var next := plan + [Item(t, offset, size, Quantized(t, vae))];
      PlanAppend(plan, next[|plan|], vae);
      plan := next;
      offset := offset + size;
    }
    assert source[..|source|] == source;
    r := Ok(plan);
  }

  lemma PlanAppend(plan: seq<Item>, item: Item, vae: bool)
    requires Planned(plan, vae)
    requires Wanted(item.tensor) && Supported(item.tensor) && Stored(item.tensor) && item.quantize == Quantized(item.tensor, vae)
    requires item.size == ConvertedSize(item.tensor, vae) && item.size > 0 && item.begin == AlignUp(End(plan))
    ensures Planned(plan + [item], vae)
  {
    hide Supported, Stored, Quantized, ConvertedSize, AlignUp;
    var next := plan + [item];
    forall i: nat | i < |next| ensures ItemAt(next, i, vae) {
      assert next[..i] == if i < |plan| then plan[..i] else plan;
      if i < |plan| {
        assert ItemAt(plan, i, vae);
      }
    }
  }

  /** Planned tensors are aligned, do not overlap, and leave less than 32 bytes between neighbours. */
  lemma {:induction false} PlanDisjoint(plan: seq<Item>, vae: bool, i: nat, j: nat)
    requires Planned(plan, vae) && i <= j < |plan|
    ensures plan[j].begin % 32 == 0
    ensures i < j ==> plan[i].begin + plan[i].size <= plan[j].begin
    ensures i + 1 == j ==> plan[j].begin < plan[i].begin + plan[i].size + 32
    ensures plan[i].begin + plan[i].size <= plan[j].begin + plan[j].size <= End(plan)
    decreases |plan| - i
  {
    assert ItemAt(plan, j, vae) && ItemAt(plan, i, vae);
    AlignUpLeast(End(plan[..j]));
    hide Supported, Stored, Quantized, ConvertedSize, AlignUp;
    if i < j {
      assert ItemAt(plan, i + 1, vae);
      AlignUpLeast(End(plan[..i + 1]));
      PlanDisjoint(plan, vae, i + 1, j);
    } else if j < |plan| - 1 {
      assert ItemAt(plan, j + 1, vae);
      AlignUpLeast(End(plan[..j + 1]));
      PlanDisjoint(plan, vae, j + 1, |plan| - 1);
    }
  }

  // Contiguous spans

  predicate Contiguous(span: seq<Item>) {
    forall i, k | 0 <= i < |span| && 0 <= k < |span| && k == i + 1 :: span[i].tensor.end == span[k].tensor.begin
  }

  predicate Run(span: seq<Item>) {
    span != [] && Contiguous(span)
  }

  /** The second run starts where the first does not end. */
  predicate Apart(a: seq<Item>, b: seq<Item>) {
    a != [] && b != [] ==> a[|a| - 1].tensor.end != b[0].tensor.begin
  }

  predicate Joint(spans: seq<seq<Item>>, k: nat)
    requires k < |spans|
  {
    Run(spans[k]) && (k > 0 ==> Apart(spans[k - 1], spans[k]))
  }

  predicate Runs(spans: seq<seq<Item>>) {
    forall k: nat {:trigger Joint(spans, k)} | k < |spans| :: Joint(spans, k)
  }

  lemma RunsAppend(spans: seq<seq<Item>>, span: seq<Item>)
    requires Runs(spans) && Run(span) && (spans != [] ==> Apart(spans[|spans| - 1], span))
    ensures Runs(spans + [span]) && Concat(spans + [span]) == Concat(spans) + span
  {
    ConcatAppend(spans, span);
    hide Run, Apart, Concat;
    var next := spans + [span];
    forall k: nat | k < |next| ensures Joint(next, k) {
      if k < |spans| {
        assert Joint(spans, k);
      }
    }
  }

  /** A run goes on with an item that starts where it ends. */
  lemma RunMore(span: seq<Item>, item: Item)
    requires span == [] || (Run(span) && span[|span| - 1].tensor.end == item.tensor.begin)
    ensures Run(span + [item])
  {
  }

  lemma ApartMore(a: seq<Item>, span: seq<Item>, item: Item)
    requires if span == [] then a != [] && a[|a| - 1].tensor.end != item.tensor.begin else Apart(a, span)
    ensures Apart(a, span + [item])
  {
  }

  lemma RunSome(span: seq<Item>)
    requires Run(span)
    ensures span != []
  {
  }

  lemma NoRuns()
    ensures Runs([]) && Concat<Item>([]) == []
  {
  }

  /** The spans are the maximal contiguous runs of the plan, in order. */
  method TensorSpans(plan: seq<Item>) returns (spans: seq<seq<Item>>)
    ensures Concat(spans) == plan && Runs(spans)
  {
    hide *;
    spans := [];
    var span: seq<Item> := [];
    NoRuns();
    for n := 0 to |plan|
      invariant Concat(spans) + span == plan[..n]
      invariant Runs(spans)
      invariant if n == 0 then spans == [] && span == [] else Run(span)
      invariant spans != [] ==> Apart(spans[|spans| - 1], span)
    {
      var item := plan[n];
      assert plan[..n + 1] == plan[..n] + [item];
      if |span| > 0 && span[|span| - 1].tensor.end != item.tensor.begin {
        RunsAppend(spans, span);
        spans := spans + [span];
        span := [];
      } else if n > 0 {
        RunSome(span);
      }
      if |spans| > 0 {
        ApartMore(spans[|spans| - 1], span, item);
      }
      RunMore(span, item);
      span := span + [item];
    }
    assert plan[..|plan|] == plan;
    if |span| > 0 {
      RunsAppend(spans, span);
      spans := spans + [span];
    }
  }
}
