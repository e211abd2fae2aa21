/**
 The fixed-batch embedder of coreml/embedding.go over exact reals: reusable
 input and output arrays, a partial last batch, and results in their own slabs.
 */
module Embedder {
  import opened Reals
  import opened Wrappers
  import Lists

  const MAX_TOKEN := 0x7fff_ffff
  const MAX_VALUES := 0x10_0000

  datatype Info = Info(batch: nat, sequence: nat, dimension: nat)

  datatype Error = Closed | Cancelled | TokenCount(item: nat) | BigToken(item: nat) | PredictFailed(start: nat) | ZeroNorm(item: nat)

  /** The model and what it is used with. */
  datatype Model = Model(
    info: Info,
    pad: int,
    encode: string -> seq<nat>,
    predict: (seq<int>, seq<int>) -> Option<Vec>,
    row: (seq<int>, seq<int>) -> Vec,
    sqrt: real -> real)

  predicate GoodShape(i: Info) {
    1 <= i.batch <= 8 && i.sequence > 0 && i.dimension > 0
    && i.sequence <= MAX_VALUES / i.batch && i.dimension <= MAX_VALUES / i.batch
  }

  // Rows of flat arrays

  function Row<T>(a: seq<T>, r: nat, width: nat): seq<T>
    requires r * width + width <= |a|
  {
    a[r * width..r * width + width]
  }

  lemma RowFits(r: nat, rows: nat, width: nat)
    requires r < rows
    ensures r * width + width <= rows * width
  {
    assert (rows - r - 1) * width >= 0;
    assert rows * width == (r + 1) * width + (rows - r - 1) * width;
  }

  lemma RowsApart(r: nat, q: nat, width: nat)
    requires r < q
    ensures r * width + width <= q * width
  {
    RowFits(r, q, width);
  }

  /** The predictor treats the rows of a batch independently. */
  ghost predicate RowWise(m: Model) {
    forall ids: seq<int>, mask: seq<int> {:trigger m.predict(ids, mask)} ::
      |ids| == m.info.batch * m.info.sequence == |mask| && m.predict(ids, mask).Some? ==>
        RowsOf(m, ids, mask, m.predict(ids, mask).value)
  }

  ghost predicate RowsOf(m: Model, ids: seq<int>, mask: seq<int>, out: Vec) {
    && |out| == m.info.batch * m.info.dimension
    && forall r: nat {:trigger RowOf(m, ids, mask, out, r)} | r < m.info.batch :: RowOf(m, ids, mask, out, r)
  }

  ghost predicate RowOf(m: Model, ids: seq<int>, mask: seq<int>, out: Vec, r: nat) {
    && r * m.info.dimension + m.info.dimension <= |out|
    && r * m.info.sequence + m.info.sequence <= |ids| && r * m.info.sequence + m.info.sequence <= |mask|
    && Row(out, r, m.info.dimension) == m.row(Row(ids, r, m.info.sequence), Row(mask, r, m.info.sequence))
  }

  ghost predicate SquareRoot(sqrt: real -> real) {
    forall x: real {:trigger sqrt(x)} :: x > 0.0 ==> sqrt(x) > 0.0 && sqrt(x) * sqrt(x) == x
  }

  ghost predicate GoodModel(m: Model) {
    GoodShape(m.info) && RowWise(m) && SquareRoot(m.sqrt)
  }

  // What one text should give

  predicate Fits(m: Model, tokens: seq<nat>) {
    0 < |tokens| <= m.info.sequence && forall j | 0 <= j < |tokens| :: tokens[j] <= MAX_TOKEN
  }

  /** What the two token tests say of one text. */
  function TextFault(m: Model, tokens: seq<nat>, item: nat): (e: Option<Error>)
    ensures e.None? <==> Fits(m, tokens)
  {
    if |tokens| == 0 || |tokens| > m.info.sequence then Some(TokenCount(item))
    else if exists j | 0 <= j < |tokens| :: tokens[j] > MAX_TOKEN then Some(BigToken(item))
    else None
  }

  function Padded(m: Model, tokens: seq<nat>): (r: seq<int>)
    ensures |r| == m.info.sequence
  {
    seq(m.info.sequence, j requires 0 <= j < m.info.sequence => if j < |tokens| then tokens[j] else m.pad)
  }

  function Masked(m: Model, n: nat): (r: seq<int>)
    ensures |r| == m.info.sequence
  {
    seq(m.info.sequence, j requires 0 <= j < m.info.sequence => if j < n then 1 else 0)
  }

  function Times(x: real, k: real): real {
    x * k
  }

  function Square(x: real): real {
    x * x
  }

  function SumSquares(v: Vec): real {
    if v == [] then 0.0 else SumSquares(v[..|v| - 1]) + Square(v[|v| - 1])
  }

  function Scaled(v: Vec, k: real): (r: Vec)
    ensures |r| == |v|
  {
    seq(|v|, j requires 0 <= j < |v| => Times(v[j], k))
  }

  /** The model's own vector for a text, in a batch of its own making. */
  function Raw(m: Model, text: string): Vec {
    m.row(Padded(m, m.encode(text)), Masked(m, |m.encode(text)|))
  }

  function Norm(m: Model, v: Vec): real
    requires m.sqrt(SumSquares(v)) != 0.0
  {
    Inverse(m.sqrt(SumSquares(v)))
  }

  function Inverse(x: real): real
    requires x != 0.0
  {
    1.0 / x
  }

  lemma {:induction false} SumSquaresSign(v: Vec)
    ensures SumSquares(v) >= 0.0
  {
    if v != [] {
      SumSquaresSign(v[..|v| - 1]);
      SquareSign(v[|v| - 1]);
    }
  }

  lemma RootPositive(m: Model, v: Vec)
    requires GoodModel(m) && SumSquares(v) != 0.0
    ensures m.sqrt(SumSquares(v)) > 0.0
  {
    SumSquaresSign(v);
  }

  lemma SquareSign(x: real)
    ensures Square(x) >= 0.0
  {
  }

  lemma SquareOf(a: real, k: real)
    ensures Square(Times(a, k)) == Times(Square(a), Square(k))
  {
    var p := a * k;
    assert p * p == p * a * k;
    assert p * a == (a * a) * k;
  }

  lemma ScaledLast(v: Vec, k: real)
    requires v != []
    ensures Scaled(v, k)[|v| - 1] == Times(v[|v| - 1], k)
  {
  }

  lemma ScaledInit(v: Vec, k: real)
    requires v != []
    ensures Scaled(v, k)[..|v| - 1] == Scaled(v[..|v| - 1], k)
  {
    hide Times;
    var a, b, init := Scaled(v, k)[..|v| - 1], Scaled(v[..|v| - 1], k), v[..|v| - 1];
    assert forall j | 0 <= j < |init| :: a[j] == Times(init[j], k) == b[j];
  }

  lemma {:induction false} SumSquaresScaled(v: Vec, k: real)
    ensures SumSquares(Scaled(v, k)) == Times(SumSquares(v), Square(k))
  {
    if v != [] {
      hide Times, Square, Scaled;
      var init, last := v[..|v| - 1], v[|v| - 1];
      SumSquaresScaled(init, k);
      ScaledInit(v, k);
      ScaledLast(v, k);
      SquareOf(last, k);
    }
  }

  /** Every returned vector has norm one. */
  lemma UnitNorm(m: Model, v: Vec)
    requires SquareRoot(m.sqrt) && SumSquares(v) > 0.0
    ensures SumSquares(Scaled(v, Norm(m, v))) == 1.0
  {
    var q := m.sqrt(SumSquares(v));
    assert q > 0.0 && q * q == SumSquares(v);
    SumSquaresScaled(v, Norm(m, v));
  }

  // The reusable arrays

  /** Row r of the array holds v. */
  ghost predicate RowIs(a: seq<int>, r: nat, width: nat, v: seq<int>) {
    r * width + width <= |a| && Row(a, r, width) == v
  }

  /** Writing inside one row leaves every other row as it was. */
  lemma OtherRow<T>(a: seq<T>, b: seq<T>, q: nat, r: nat, width: nat)
    requires |a| == |b| && q != r && r * width + width <= |a|
    requires forall i | 0 <= i < |a| && !(q * width <= i < q * width + width) :: a[i] == b[i]
    ensures Row(a, r, width) == Row(b, r, width)
  {
    if q < r {
      RowsApart(q, r, width);
    } else {
      RowsApart(r, q, width);
    }
  }

  lemma CopiedRow(a: seq<int>, b: seq<int>, r: nat, width: nat, v: seq<int>)
    requires RowIs(a, 0, width, v) && |a| == |b| && r * width + width <= |b|
    requires var base := r * width; forall i | base <= i < base + width :: b[i] == a[i - base]
    ensures RowIs(b, r, width, v)
  {
    var base := r * width;
    assert forall j | 0 <= j < width :: Row(b, r, width)[j] == b[base + j] == a[j] == v[j];
  }

  /** Row r of the predictor's inputs is that of the text. */
  ghost predicate Holds(m: Model, ids: seq<int>, mask: seq<int>, r: nat, text: string) {
    && RowIs(ids, r, m.info.sequence, Padded(m, m.encode(text)))
    && RowIs(mask, r, m.info.sequence, Masked(m, |m.encode(text)|))
  }

  /** Another row was written; this one still holds its text. */
  lemma StillHolds(m: Model, ids: seq<int>, mask: seq<int>, ids': seq<int>, mask': seq<int>, q: nat, r: nat, text: string)
    requires Holds(m, ids, mask, r, text) && q != r && |ids| == |mask| == |ids'| == |mask'|
    requires var base := q * m.info.sequence;
             forall i | 0 <= i < |ids| && !(base <= i < base + m.info.sequence) :: ids[i] == ids'[i] && mask[i] == mask'[i]
    ensures Holds(m, ids', mask', r, text)
  {
    hide Padded, Masked;
    OtherRow(ids, ids', q, r, m.info.sequence);
    OtherRow(mask, mask', q, r, m.info.sequence);
  }

  ghost predicate Ready(m: Model, ids: seq<int>, mask: seq<int>, counts: seq<nat>, part: seq<string>, r: nat)
    requires r < |part|
  {
    Holds(m, ids, mask, r, part[r]) && r < |counts| && counts[r] == |m.encode(part[r])|
  }

  ghost predicate Filled(m: Model, ids: seq<int>, mask: seq<int>, counts: seq<nat>, part: seq<string>, n: nat)
    requires n <= |part|
  {
    forall r: nat {:trigger Ready(m, ids, mask, counts, part, r)} | r < n :: Ready(m, ids, mask, counts, part, r)
  }

  lemma FilledNone(m: Model, ids: seq<int>, mask: seq<int>, counts: seq<nat>, part: seq<string>)
    ensures Filled(m, ids, mask, counts, part, 0)
  {
  }

  lemma NextBase(row: nat, width: nat)
    ensures (row + 1) * width == row * width + width
  {
  }

  lemma FilledNext(m: Model, ids: seq<int>, mask: seq<int>, counts: seq<nat>,
                   ids': seq<int>, mask': seq<int>, counts': seq<nat>, part: seq<string>, q: nat)
    requires q < |part| && Filled(m, ids, mask, counts, part, q) && |ids| == |mask| == |ids'| == |mask'| && q < |counts| == |counts'|
    requires var base := q * m.info.sequence;
             forall i | 0 <= i < |ids| && !(base <= i < base + m.info.sequence) :: ids[i] == ids'[i] && mask[i] == mask'[i]
    requires forall r | 0 <= r < |counts| && r != q :: counts[r] == counts'[r]
    requires Holds(m, ids', mask', q, part[q]) && counts'[q] == |m.encode(part[q])|
    ensures Filled(m, ids', mask', counts', part, q + 1)
  {
    hide Holds;
    forall r: nat | r < q + 1 ensures Ready(m, ids', mask', counts', part, r) {
      if r < q {
        assert Ready(m, ids, mask, counts, part, r);
        StillHolds(m, ids, mask, ids', mask', q, r, part[r]);
      }
    }
  }

  /** The texts the rows of a batch stand for. */
  function Whole(m: Model, part: seq<string>): (r: seq<string>)
    requires 0 < |part|
    ensures |r| == m.info.batch
    ensures forall i | 0 <= i < |part| && i < m.info.batch :: r[i] == part[i]
  {
    seq(m.info.batch, i requires 0 <= i < m.info.batch => if i < |part| then part[i] else part[0])
  }

  /** What the predictor says to a batch: its texts in order, the first one repeated in unused rows. */
  ghost function Answer(m: Model, part: seq<string>): Option<Vec>
    requires 0 < |part|
  {
    m.predict(Lists.Concat(Lists.Map(Whole(m, part), t => Padded(m, m.encode(t)))),
              Lists.Concat(Lists.Map(Whole(m, part), t => Masked(m, |m.encode(t)|))))
  }

  lemma {:induction false} ConcatRows<T>(a: seq<T>, rows: seq<seq<T>>, width: nat)
    requires |a| == |rows| * width
    requires forall r | 0 <= r < |rows| :: r * width + width <= |a| && Row(a, r, width) == rows[r]
    ensures a == Lists.Concat(rows)
  {
    if rows != [] {
      var n := |rows| - 1;
      NextBase(n, width);
      var init := a[..n * width];
      forall r | 0 <= r < n ensures r * width + width <= |init| && Row(init, r, width) == rows[..n][r] {
        RowFits(r, n, width);
        assert Row(init, r, width) == Row(a, r, width);
      }
      ConcatRows(init, rows[..n], width);
      assert a == init + Row(a, n, width);
    }
  }

  /** Arrays whose rows hold the texts of a batch are the inputs of that batch. */
  lemma InputsOf(m: Model, ids: seq<int>, mask: seq<int>, part: seq<string>)
    requires 0 < |part| && |ids| == |mask| == m.info.batch * m.info.sequence
    requires forall r: nat {:trigger Holds(m, ids, mask, r, Whole(m, part)[r])} | r < m.info.batch ::
               Holds(m, ids, mask, r, Whole(m, part)[r])
    ensures m.predict(ids, mask) == Answer(m, part)
  {
    hide Padded, Masked, Row, Whole;
    var whole := Whole(m, part);
    var rows, ones := Lists.Map(whole, t => Padded(m, m.encode(t))), Lists.Map(whole, t => Masked(m, |m.encode(t)|));
    forall r: nat | r < |whole|
      ensures r * m.info.sequence + m.info.sequence <= |ids|
      ensures Row(ids, r, m.info.sequence) == rows[r] && Row(mask, r, m.info.sequence) == ones[r]
    {
      assert Holds(m, ids, mask, r, whole[r]);
    }
    ConcatRows(ids, rows, m.info.sequence);
    ConcatRows(mask, ones, m.info.sequence);
  }

  // When a request fails, and with what

  predicate ZeroVector(m: Model, text: string) {
    SumSquares(Raw(m, text)) == 0.0
  }

  function FaultAt(m: Model, part: seq<string>, start: nat, r: nat): (e: Option<Error>)
    requires r < |part|
    ensures e.None? <==> Fits(m, m.encode(part[r]))
  {
    TextFault(m, m.encode(part[r]), start + r)
  }

  /** The error of the first text that fails its token tests. */
  ghost predicate FirstFault(m: Model, part: seq<string>, start: nat, e: Error) {
    exists r: nat {:trigger FaultAt(m, part, start, r)} ::
      r < |part| && FaultAt(m, part, start, r) == Some(e) && forall q: nat | q < r :: FaultAt(m, part, start, q).None?
  }

  /** The error of the first text whose vector is zero. */
  ghost predicate FirstZero(m: Model, part: seq<string>, start: nat, e: Error) {
    exists r: nat {:trigger ZeroVector(m, part[r])} ::
      r < |part| && ZeroVector(m, part[r]) && e == ZeroNorm(start + r) && forall q | 0 <= q < r :: !ZeroVector(m, part[q])
  }

  lemma FirstFaultAt(m: Model, part: seq<string>, start: nat, r: nat)
    requires r < |part| && FaultAt(m, part, start, r).Some? && forall q | 0 <= q < r :: Fits(m, m.encode(part[q]))
    ensures FirstFault(m, part, start, FaultAt(m, part, start, r).value)
  {
  }

  lemma FirstZeroAt(m: Model, part: seq<string>, start: nat, r: nat)
    requires r < |part| && ZeroVector(m, part[r]) && forall q | 0 <= q < r :: !ZeroVector(m, part[q])
    ensures FirstZero(m, part, start, ZeroNorm(start + r))
  {
    hide ZeroVector;
  }

  /** A batch works: its texts pass, the model answers, no vector is zero, and no poll between sees a cancellation. */
  ghost predicate BatchWorks(m: Model, part: seq<string>, cancelled: nat -> bool, tick: nat)
    requires 0 < |part|
  {
    && (forall r | 0 <= r < |part| :: Fits(m, m.encode(part[r])) && !ZeroVector(m, part[r]))
    && Answer(m, part).Some? && !cancelled(tick) && !cancelled(tick + 1)
  }

  /** The error a batch ends with: token faults first, then cancellation before the prediction, its failure, and zero vectors. */
  ghost predicate BatchFails(m: Model, part: seq<string>, start: nat, cancelled: nat -> bool, tick: nat, e: Error)
    requires 0 < |part|
  {
    if exists r | 0 <= r < |part| :: !Fits(m, m.encode(part[r])) then FirstFault(m, part, start, e)
    else if cancelled(tick) then e == Cancelled
    else if cancelled(tick + 1) then e == Cancelled
    else if Answer(m, part).None? then e == PredictFailed(start)
    else FirstZero(m, part, start, e)
  }

  /** Where batch k begins among n texts. */
  function Start(m: Model, n: nat, k: nat): (r: nat)
    ensures r <= n
  {
    if k * m.info.batch < n then k * m.info.batch else n
  }

  lemma StartNext(m: Model, n: nat, k: nat)
    requires Start(m, n, k) < n && m.info.batch > 0
    ensures Start(m, n, k + 1) == if Start(m, n, k) + m.info.batch < n then Start(m, n, k) + m.info.batch else n
  {
    NextBase(k, m.info.batch);
  }

  lemma StartOrder(m: Model, n: nat, j: nat, k: nat)
    requires j <= k && Start(m, n, k) < n
    ensures Start(m, n, j) < n
  {
    assert (k - j) * m.info.batch >= 0;
    assert k * m.info.batch == j * m.info.batch + (k - j) * m.info.batch;
  }

  /** The texts of batch k. */
  function Part(m: Model, texts: seq<string>, k: nat): (part: seq<string>)
    requires Start(m, |texts|, k) < |texts| && m.info.batch > 0
    ensures 0 < |part| <= m.info.batch
  {
    StartNext(m, |texts|, k);
    texts[Start(m, |texts|, k)..Start(m, |texts|, k + 1)]
  }

  /** The polls of batch k are the three from this one. */
  function PollOf(k: nat): nat {
    1 + 3 * k
  }

  ghost predicate PartWorks(m: Model, texts: seq<string>, cancelled: nat -> bool, k: nat)
    requires Start(m, |texts|, k) < |texts| && m.info.batch > 0
  {
    !cancelled(PollOf(k)) && BatchWorks(m, Part(m, texts, k), cancelled, PollOf(k) + 1)
  }

  ghost predicate PartFails(m: Model, texts: seq<string>, cancelled: nat -> bool, k: nat, e: Error)
    requires Start(m, |texts|, k) < |texts| && m.info.batch > 0
  {
    if cancelled(PollOf(k)) then e == Cancelled
    else BatchFails(m, Part(m, texts, k), Start(m, |texts|, k), cancelled, PollOf(k) + 1, e)
  }

  ghost predicate WorksTo(m: Model, texts: seq<string>, cancelled: nat -> bool, n: nat)
    requires m.info.batch > 0
  {
    forall k: nat {:trigger PartWorks(m, texts, cancelled, k)} | k < n :: Start(m, |texts|, k) < |texts| ==> PartWorks(m, texts, cancelled, k)
  }

  /** Every batch works. */
  ghost predicate Succeeds(m: Model, texts: seq<string>, cancelled: nat -> bool)
    requires m.info.batch > 0
  {
    forall k: nat {:trigger PartWorks(m, texts, cancelled, k)} :: Start(m, |texts|, k) < |texts| ==> PartWorks(m, texts, cancelled, k)
  }

  /** The first batch that does not work fails with this error. */
  ghost predicate FailsWith(m: Model, texts: seq<string>, cancelled: nat -> bool, e: Error)
    requires m.info.batch > 0
  {
    exists k: nat {:trigger PartFails(m, texts, cancelled, k, e)} ::
      Start(m, |texts|, k) < |texts| && WorksTo(m, texts, cancelled, k) && PartFails(m, texts, cancelled, k, e)
  }

  lemma WorksNext(m: Model, texts: seq<string>, cancelled: nat -> bool, k: nat)
    requires m.info.batch > 0 && WorksTo(m, texts, cancelled, k) && Start(m, |texts|, k) < |texts| && PartWorks(m, texts, cancelled, k)
    ensures WorksTo(m, texts, cancelled, k + 1)
  {
    hide PartWorks, Start;
  }

  lemma FirstFails(m: Model, texts: seq<string>, cancelled: nat -> bool, k: nat, e: Error)
    requires m.info.batch > 0 && Start(m, |texts|, k) < |texts| && WorksTo(m, texts, cancelled, k) && PartFails(m, texts, cancelled, k, e)
    ensures FailsWith(m, texts, cancelled, e) && !Succeeds(m, texts, cancelled)
  {
    hide WorksTo, PartFails, PartWorks, Start;
    WorkingDoesNotFail(m, texts, cancelled, k, e);
  }

  /** No batch begins behind the end. */
  lemma AllWork(m: Model, texts: seq<string>, cancelled: nat -> bool, n: nat)
    requires m.info.batch > 0 && WorksTo(m, texts, cancelled, n) && Start(m, |texts|, n) == |texts|
    ensures Succeeds(m, texts, cancelled)
  {
    hide PartWorks, Start;
    forall k: nat | Start(m, |texts|, k) < |texts| ensures PartWorks(m, texts, cancelled, k) {
      if k >= n {
        StartOrder(m, |texts|, n, k);
      }
    }
  }

  lemma WorkingDoesNotFail(m: Model, texts: seq<string>, cancelled: nat -> bool, k: nat, e: Error)
    requires m.info.batch > 0 && Start(m, |texts|, k) < |texts| && PartFails(m, texts, cancelled, k, e)
    ensures !PartWorks(m, texts, cancelled, k)
  {
    hide Part, Answer, Fits, ZeroVector;
  }

  lemma FirstFaultIsOne(m: Model, part: seq<string>, start: nat, e: Error, e': Error)
    requires FirstFault(m, part, start, e) && FirstFault(m, part, start, e')
    ensures e == e'
  {
    var r: nat :| r < |part| && FaultAt(m, part, start, r) == Some(e) && forall q: nat | q < r :: FaultAt(m, part, start, q).None?;
    var r': nat :| r' < |part| && FaultAt(m, part, start, r') == Some(e') && forall q: nat | q < r' :: FaultAt(m, part, start, q).None?;
    assert r == r';
  }

  lemma FirstZeroIsOne(m: Model, part: seq<string>, start: nat, e: Error, e': Error)
    requires FirstZero(m, part, start, e) && FirstZero(m, part, start, e')
    ensures e == e'
  {
    hide ZeroVector;
    var r: nat :| r < |part| && ZeroVector(m, part[r]) && e == ZeroNorm(start + r) && forall q | 0 <= q < r :: !ZeroVector(m, part[q]);
    var r': nat :| r' < |part| && ZeroVector(m, part[r']) && e' == ZeroNorm(start + r') && forall q | 0 <= q < r' :: !ZeroVector(m, part[q]);
    assert r == r';
  }

  lemma FailureIsOne(m: Model, texts: seq<string>, cancelled: nat -> bool, k: nat, e: Error, e': Error)
    requires m.info.batch > 0 && Start(m, |texts|, k) < |texts|
    requires PartFails(m, texts, cancelled, k, e) && PartFails(m, texts, cancelled, k, e')
    ensures e == e'
  {
    hide FirstFault, FirstZero, Part, Answer, Fits, Start;
    var part, start := Part(m, texts, k), Start(m, |texts|, k);
    if FirstFault(m, part, start, e) && FirstFault(m, part, start, e') {
      FirstFaultIsOne(m, part, start, e, e');
    }
    if FirstZero(m, part, start, e) && FirstZero(m, part, start, e') {
      FirstZeroIsOne(m, part, start, e, e');
    }
  }

  /** A request that fails has one error to fail with, and one that succeeds has none. */
  lemma ErrorUnique(m: Model, texts: seq<string>, cancelled: nat -> bool, e: Error, e': Error)
    requires m.info.batch > 0 && FailsWith(m, texts, cancelled, e)
    ensures !Succeeds(m, texts, cancelled)
    ensures FailsWith(m, texts, cancelled, e') ==> e == e'
  {
    hide PartWorks, PartFails, Start;
    var k: nat :| Start(m, |texts|, k) < |texts| && WorksTo(m, texts, cancelled, k) && PartFails(m, texts, cancelled, k, e);
    WorkingDoesNotFail(m, texts, cancelled, k, e);
    if FailsWith(m, texts, cancelled, e') {
      var l: nat :| Start(m, |texts|, l) < |texts| && WorksTo(m, texts, cancelled, l) && PartFails(m, texts, cancelled, l, e');
      WorkingDoesNotFail(m, texts, cancelled, l, e');
      if k == l {
        FailureIsOne(m, texts, cancelled, k, e, e');
      }
    }
  }

  class Embedder {
    const m: Model
    const ids: array<int>
    const mask: array<int>
    const output: array<real>
    const counts: array<nat>
    var closed: bool
    var gate: bool
    var modelCloses: nat

    ghost predicate Valid()
      reads this
    {
      && GoodModel(m) && modelCloses == (if closed then 1 else 0)
      && ids.Length == mask.Length == m.info.batch * m.info.sequence
      && output.Length == m.info.batch * m.info.dimension && counts.Length == m.info.batch
      && ids != mask
    }

    ghost function Scratch(): set<object> {
      {this, ids, mask, output, counts}
    }

    constructor (m: Model)
      requires GoodModel(m)
      ensures Valid() && !closed && gate && this.m == m && fresh(Scratch())
    {
      this.m := m;
      ids := new int[m.info.batch * m.info.sequence];
      mask := new int[m.info.batch * m.info.sequence];
      output := new real[m.info.batch * m.info.dimension];
      counts := new nat[m.info.batch];
      closed, gate, modelCloses := false, true, 0;
    }

    /** Writes one text's tokens over a blank row. */
    method FillRow(row: nat, tokens: seq<nat>, ghost text: string)
      requires Valid() && row < m.info.batch && Fits(m, tokens) && tokens == m.encode(text)
      requires var base := row * m.info.sequence;
               forall i | base <= i < base + m.info.sequence && i < ids.Length :: ids[i] == m.pad && mask[i] == 0
      modifies ids, mask, counts
      ensures Holds(m, ids[..], mask[..], row, text)
      ensures counts[row] == |tokens| && forall r | 0 <= r < counts.Length && r != row :: counts[r] == old(counts[r])
      ensures var base := row * m.info.sequence;
              forall i | 0 <= i < ids.Length && !(base <= i < base + m.info.sequence) ::
                ids[i] == old(ids[i]) && mask[i] == old(mask[i])
    {
      RowFits(row, m.info.batch, m.info.sequence);
      hide GoodModel;
      counts[row] := |tokens|;
      WriteTokens(row * m.info.sequence, tokens);
      assert Row(ids[..], row, m.info.sequence) == Padded(m, tokens);
      assert Row(mask[..], row, m.info.sequence) == Masked(m, |tokens|);
    }

    method WriteTokens(base: nat, tokens: seq<nat>)
      requires ids.Length == mask.Length && ids != mask && base + |tokens| <= ids.Length
      modifies ids, mask
      ensures forall i | base <= i < base + |tokens| :: ids[i] == tokens[i - base] && mask[i] == 1
      ensures forall i | 0 <= i < ids.Length && !(base <= i < base + |tokens|) ::
                ids[i] == old(ids[i]) && mask[i] == old(mask[i])
    {
      for j := 0 to |tokens|
        invariant forall i | base <= i < base + j :: ids[i] == tokens[i - base] && mask[i] == 1
        invariant forall i | 0 <= i < ids.Length && !(base <= i < base + j) ::
                    ids[i] == old(ids[i]) && mask[i] == old(mask[i])
      {
        ids[base + j], mask[base + j] := tokens[j], 1;
      }
    }

    /** Every row is blank. */
    method Reset()
      requires Valid()
      modifies ids, mask
      ensures forall i | 0 <= i < ids.Length :: ids[i] == m.pad && mask[i] == 0
    {
      for j := 0 to ids.Length
        invariant forall i | 0 <= i < j :: ids[i] == m.pad && mask[i] == 0
      {
        ids[j], mask[j] := m.pad, 0;
      }
    }

    /** The texts of one batch, each in its row, over freshly blanked arrays. */
    method FillTexts(part: seq<string>, start: nat) returns (e: Option<Error>)
      requires Valid() && |part| <= m.info.batch
      modifies ids, mask, counts
      ensures e.None? <==> forall r | 0 <= r < |part| :: Fits(m, m.encode(part[r]))
      ensures e.Some? ==> FirstFault(m, part, start, e.value)
      ensures e.None? ==> Filled(m, ids[..], mask[..], counts[..], part, |part|)
    {
      hide Ready, Filled, Holds, Fits, GoodModel, Padded, Masked, Row, FirstFault;
      Reset();
      FilledNone(m, ids[..], mask[..], counts[..], part);
      var base := 0;
      for row := 0 to |part|
        invariant base == row * m.info.sequence
        invariant forall r | 0 <= r < row :: Fits(m, m.encode(part[r]))
        invariant Filled(m, ids[..], mask[..], counts[..], part, row)
        invariant forall i | base <= i < ids.Length :: ids[i] == m.pad && mask[i] == 0
      {
        var tokens := m.encode(part[row]);
        var fault := Faulty(tokens, start + row);
        if fault.Some? {
          FirstFaultAt(m, part, start, row);
          return fault;
        }
        ghost var ids', mask', counts' := ids[..], mask[..], counts[..];
        FillRow(row, tokens, part[row]);
        FilledNext(m, ids', mask', counts', ids[..], mask[..], counts[..], part, row);
        NextBase(row, m.info.sequence);
        base := base + m.info.sequence;
      }
      e := None;
    }

    /** The two token tests of one text. */
    method Faulty(tokens: seq<nat>, item: nat) returns (e: Option<Error>)
      ensures e == TextFault(m, tokens, item)
    {
      if |tokens| == 0 || |tokens| > m.info.sequence {
        return Some(TokenCount(item));
      }
      for j := 0 to |tokens|
        invariant forall k | 0 <= k < j :: tokens[k] <= MAX_TOKEN
      {
        if tokens[j] > MAX_TOKEN {
          return Some(BigToken(item));
        }
      }
      e := None;
    }

    /** Unused rows repeat the first text. */
    method FillRest(part: seq<string>)
      requires Valid() && 0 < |part| <= m.info.batch && Filled(m, ids[..], mask[..], counts[..], part, |part|)
      modifies ids, mask
      ensures forall r: nat {:trigger Holds(m, ids[..], mask[..], r, Whole(m, part)[r])} | r < m.info.batch ::
                Holds(m, ids[..], mask[..], r, Whole(m, part)[r])
    {
      hide Holds;
      forall r: nat | r < |part| ensures Holds(m, ids[..], mask[..], r, Whole(m, part)[r]) {
        assert Ready(m, ids[..], mask[..], counts[..], part, r);
      }
      hide Filled, Ready;
      for row := |part| to m.info.batch
        invariant forall r: nat {:trigger Holds(m, ids[..], mask[..], r, Whole(m, part)[r])} | r < row ::
                    Holds(m, ids[..], mask[..], r, Whole(m, part)[r])
      {
        ghost var ids', mask' := ids[..], mask[..];
        assert Holds(m, ids', mask', 0, Whole(m, part)[0]);
        CopyFirst(row, part[0]);
        forall r: nat | r < row ensures Holds(m, ids[..], mask[..], r, Whole(m, part)[r]) {
          StillHolds(m, ids', mask', ids[..], mask[..], row, r, Whole(m, part)[r]);
        }
      }
    }

    method CopyFirst(row: nat, ghost text: string)
      requires Valid() && 0 < row < m.info.batch && Holds(m, ids[..], mask[..], 0, text)
      modifies ids, mask
      ensures Holds(m, ids[..], mask[..], row, text)
      ensures var base := row * m.info.sequence;
              forall i | 0 <= i < ids.Length && !(base <= i < base + m.info.sequence) ::
                ids[i] == old(ids[i]) && mask[i] == old(mask[i])
    {
      RowFits(row, m.info.batch, m.info.sequence);
      RowsApart(0, row, m.info.sequence);
      hide GoodModel, Padded, Masked, RowIs;
      ghost var ids', mask' := ids[..], mask[..];
      CopyCells(row * m.info.sequence, m.info.sequence);
      CopiedRow(ids', ids[..], row, m.info.sequence, Padded(m, m.encode(text)));
      CopiedRow(mask', mask[..], row, m.info.sequence, Masked(m, |m.encode(text)|));
    }

    method CopyCells(base: nat, n: nat)
      requires ids.Length == mask.Length && ids != mask && n <= base && base + n <= ids.Length
      modifies ids, mask
      ensures forall i | base <= i < base + n :: ids[i] == old(ids[i - base]) && mask[i] == old(mask[i - base])
      ensures forall i | 0 <= i < ids.Length && !(base <= i < base + n) :: ids[i] == old(ids[i]) && mask[i] == old(mask[i])
    {
      for j := 0 to n
        invariant forall i | base <= i < base + j :: ids[i] == old(ids[i - base]) && mask[i] == old(mask[i - base])
        invariant forall i | 0 <= i < ids.Length && !(base <= i < base + j) ::
                    ids[i] == old(ids[i]) && mask[i] == old(mask[i])
      {
        ids[base + j], mask[base + j] := ids[j], mask[j];
      }
    }

    /** One prediction, copied into the output array. */
    method Predict(part: seq<string>) returns (ok: bool)
      requires Valid() && 0 < |part| <= m.info.batch
      requires forall r: nat {:trigger Holds(m, ids[..], mask[..], r, Whole(m, part)[r])} | r < m.info.batch ::
                 Holds(m, ids[..], mask[..], r, Whole(m, part)[r])
      modifies output
      ensures ok <==> Answer(m, part).Some?
      ensures ok ==> Predicted(m, output[..], part)
    {
      var out := m.predict(ids[..], mask[..]);
      InputsOf(m, ids[..], mask[..], part);
      if out.None? {
        return false;
      }
      assert RowsOf(m, ids[..], mask[..], out.value);
      hide GoodModel, Holds, RowOf, Answer;
      for j := 0 to output.Length
        invariant forall i | 0 <= i < j :: output[i] == out.value[i]
      {
        output[j] := out.value[j];
      }
      assert output[..] == out.value;
      forall r: nat | r < |part| ensures PredictedRow(m, output[..], part, r) {
        assert RowOf(m, ids[..], mask[..], out.value, r);
        assert Holds(m, ids[..], mask[..], r, Whole(m, part)[r]);
        RowIsRaw(m, ids[..], mask[..], out.value, r, part[r]);
      }
      ok := true;
    }

    /** One vector: its norm, and the scaled copy in the slab. */
    method Normalize(base: nat, slab: array<real>, ghost v: Vec) returns (ok: bool)
      requires Valid() && slab != output
      requires base + m.info.dimension <= output.Length && base + m.info.dimension <= slab.Length
      requires output[base..base + m.info.dimension] == v
      modifies slab
      ensures ok <==> SumSquares(v) != 0.0
      ensures ok ==> m.sqrt(SumSquares(v)) != 0.0 && slab[base..base + m.info.dimension] == Scaled(v, Norm(m, v))
      ensures forall i | 0 <= i < slab.Length && !(base <= i < base + m.info.dimension) :: slab[i] == old(slab[i])
    {
      hide GoodModel, SumSquares, Scaled, SquareRoot, Inverse;
      var sum := SumRow(base, v);
      if sum == 0.0 {
        return false;
      }
      RootPositive(m, v);
      ScaleInto(base, slab, Inverse(m.sqrt(sum)), v);
      ok := true;
    }

    method SumRow(base: nat, ghost v: Vec) returns (sum: real)
      requires base + m.info.dimension <= output.Length && output[base..base + m.info.dimension] == v
      ensures sum == SumSquares(v)
    {
      hide Square;
      sum := 0.0;
      for j := 0 to m.info.dimension
        invariant sum == SumSquares(v[..j])
      {
        assert v[..j + 1][..j] == v[..j];
        assert output[base + j] == v[j];
        sum := sum + Square(output[base + j]);
      }
      assert v[..m.info.dimension] == v;
    }

    method ScaleInto(base: nat, slab: array<real>, scale: real, ghost v: Vec)
      requires slab != output && base + |v| <= output.Length && base + |v| <= slab.Length && |v| == m.info.dimension
      requires output[base..base + |v|] == v
      modifies slab
      ensures slab[base..base + |v|] == Scaled(v, scale)
      ensures forall i | 0 <= i < slab.Length && !(base <= i < base + |v|) :: slab[i] == old(slab[i])
    {
      var n := m.info.dimension;
      hide Times;
      for j := 0 to n
        invariant forall i | base <= i < base + j :: slab[i] == Times(v[i - base], scale)
        invariant forall i | 0 <= i < slab.Length && !(base <= i < base + j) :: slab[i] == old(slab[i])
      {
        assert output[base..base + n][j] == v[j];
        slab[base + j] := Times(output[base + j], scale);
      }
      ghost var copy := slab[base..base + n];
      assert forall j | 0 <= j < n :: copy[j] == slab[base + j] == Scaled(v, scale)[j];
    }

    /** The vectors of one batch in a slab of their own. */
    method Emit(part: seq<string>, start: nat) returns (e: Option<Error>, slab: array<real>)
      requires Valid() && 0 < |part| <= m.info.batch && Predicted(m, output[..], part)
      ensures fresh(slab)
      ensures e.None? ==> EmittedTo(m, slab[..], part, |part|)
      ensures e.None? <==> forall r | 0 <= r < |part| :: !ZeroVector(m, part[r])
      ensures e.Some? ==> FirstZero(m, part, start, e.value)
    {
      hide *;
      slab := new real[|part| * m.info.dimension];
      EmittedNone(m, slab[..], part);
      for row := 0 to |part|
        invariant forall r | 0 <= r < row :: !ZeroVector(m, part[r])
        invariant EmittedTo(m, slab[..], part, row)
      {
        var ok := EmitRow(part, row, slab);
        if !ok {
          FirstZeroAt(m, part, start, row);
          return Some(ZeroNorm(start + row)), slab;
        }
      }
      e := None;
    }

    method EmitRow(part: seq<string>, row: nat, slab: array<real>) returns (ok: bool)
      requires Valid() && row < |part| <= m.info.batch && Predicted(m, output[..], part)
      requires slab != output && slab.Length == |part| * m.info.dimension && EmittedTo(m, slab[..], part, row)
      modifies slab
      ensures ok <==> !ZeroVector(m, part[row])
      ensures ok ==> EmittedTo(m, slab[..], part, row + 1)
    {
      hide GoodModel, EmittedTo, Emitted, SumSquares, Raw, Scaled, Norm, Predicted, PredictedRow;
      RowFits(row, |part|, m.info.dimension);
      PredictedAt(m, output[..], part, row);
      ghost var before := slab[..];
      var base := row * m.info.dimension;
      ok := Normalize(base, slab, Raw(m, part[row]));
      if ok {
        EmittedRow(m, slab[..], part, row);
        EmittedNext(m, before, slab[..], part, row);
      }
    }

    /** One physical batch, from texts to slices of a fresh slab. */
    method Batch(part: seq<string>, start: nat, cancelled: nat -> bool, tick: nat) returns (r: Result<seq<Slice>, Error>)
      requires Valid() && 0 < |part| <= m.info.batch
      modifies ids, mask, output, counts
      ensures r.Ok? ==> |r.value| == |part| && AllGood(m, r.value, part) && Disjoint(m, r.value)
      ensures r.Ok? ==> forall i | 0 <= i < |r.value| :: fresh(r.value[i].slab)
      ensures r.Ok? <==> BatchWorks(m, part, cancelled, tick)
      ensures r.Err? ==> BatchFails(m, part, start, cancelled, tick, r.error)
    {
      hide GoodModel, AllGood, Fits, ZeroVector, FirstFault, FirstZero, Answer, Holds;
      var fault := FillTexts(part, start);
      if fault.Some? {
        return Err(fault.value);
      }
      forall i | 0 <= i < |part| ensures counts[i] == |m.encode(part[i])| {
        assert Ready(m, ids[..], mask[..], counts[..], part, i);
      }
      FillRest(part);
      if cancelled(tick) {
        return Err(Cancelled);
      }
      var ok := Predict(part);
      if !ok {
        return Err(if cancelled(tick + 1) then Cancelled else PredictFailed(start));
      }
      if cancelled(tick + 1) {
        return Err(Cancelled);
      }
      var e, slab := Emit(part, start);
      if e.Some? {
        return Err(e.value);
      }
      var slices := seq(|part|, i requires 0 <= i < |part| && i < counts.Length reads counts => Slice(slab, i * m.info.dimension, counts[i]));
      SlicesGood(m, slab, slices, part);
      r := Ok(slices);
    }

    /**
     EmbedBatch: exactly the per-text normalized vectors in input order with
     their token counts, in pairwise disjoint fresh storage, or an error.
     */
    method EmbedBatch(texts: seq<string>, cancelled: nat -> bool) returns (r: Result<seq<Slice>, Error>)
      requires Valid() && gate
      modifies ids, mask, output, counts, `gate
      ensures Valid() && gate && closed == old(closed)
      ensures r.Ok? ==> !closed && AllGood(m, r.value, texts) && Disjoint(m, r.value)
      ensures r.Ok? ==> forall i | 0 <= i < |r.value| :: fresh(r.value[i].slab)
      ensures r.Ok? <==> !cancelled(0) && !closed && Succeeds(m, texts, cancelled)
      ensures r.Err? ==> if cancelled(0) then r.error == Cancelled else if closed then r.error == Closed
                         else FailsWith(m, texts, cancelled, r.error)
      ensures !closed && Unhindered(m, cancelled, texts) ==> r.Ok?
    {
      hide Succeeds, FailsWith;
      UnhinderedSucceeds(m, texts, cancelled);
      gate := false;
      if cancelled(0) {
        gate := true;
        return Err(Cancelled);
      }
      if closed {
        gate := true;
        return Err(Closed);
      }
      r := EmbedAll(texts, cancelled);
      gate := true;
    }

    lemma Batches()
      requires Valid()
      ensures m.info.batch > 0
    {
    }

    method EmbedAll(texts: seq<string>, cancelled: nat -> bool) returns (r: Result<seq<Slice>, Error>)
      requires Valid()
      modifies ids, mask, output, counts
      ensures r.Ok? ==> AllGood(m, r.value, texts) && Disjoint(m, r.value)
      ensures r.Ok? ==> forall i | 0 <= i < |r.value| :: fresh(r.value[i].slab)
      ensures r.Ok? <==> Succeeds(m, texts, cancelled)
      ensures r.Err? ==> FailsWith(m, texts, cancelled, r.error)
    {
      hide GoodModel, AllGood, Disjoint, WorksTo, PartWorks, PartFails, Succeeds, FailsWith, Start, Embedder.Valid;
      Batches();
      var results: seq<Slice> := [];
      var start, tick := 0, 1;
      ghost var k := 0;
      NothingYet(m, texts, cancelled);
      while start < |texts|
        invariant start == Start(m, |texts|, k) && tick == PollOf(k) && WorksTo(m, texts, cancelled, k)
        invariant start <= |texts| && |results| == start && AllGood(m, results, texts[..start]) && Disjoint(m, results)
        invariant forall i | 0 <= i < |results| :: fresh(results[i].slab)
        decreases |texts| - start
      {
        var end := if start + m.info.batch < |texts| then start + m.info.batch else |texts|;
        StartNext(m, |texts|, k);
        var more := EmbedPart(texts, start, end, results, cancelled, tick, k);
        if more.Err? {
          FirstFails(m, texts, cancelled, k, more.error);
          return more;
        }
        results := more.value;
        WorksNext(m, texts, cancelled, k);
        start, tick, k := end, tick + 3, k + 1;
      }
      AllWork(m, texts, cancelled, k);
      assert texts[..start] == texts;
      r := Ok(results);
    }

    /** The results so far and those of the next batch. */
    method EmbedPart(texts: seq<string>, start: nat, end: nat, results: seq<Slice>, cancelled: nat -> bool, tick: nat,
                     ghost k: nat)
      returns (r: Result<seq<Slice>, Error>)
      requires Valid() && start < end <= |texts| && end - start <= m.info.batch && |results| == start
      requires m.info.batch > 0 && start == Start(m, |texts|, k) && end == Start(m, |texts|, k + 1) && tick == PollOf(k)
      requires AllGood(m, results, texts[..start]) && Disjoint(m, results)
      requires forall i | 0 <= i < |results| :: results[i].slab != output
      modifies ids, mask, output, counts
      ensures r.Ok? ==> |r.value| == end && AllGood(m, r.value, texts[..end]) && Disjoint(m, r.value)
      ensures r.Ok? ==> forall i | 0 <= i < |r.value| :: (i < start && r.value[i] == results[i]) || fresh(r.value[i].slab)
      ensures r.Ok? <==> PartWorks(m, texts, cancelled, k)
      ensures r.Err? ==> PartFails(m, texts, cancelled, k, r.error)
    {
      hide GoodModel, AllGood, Disjoint, BatchWorks, BatchFails, Start, Embedder.Valid;
      if cancelled(tick) {
        return Err(Cancelled);
      }
      var batch := Batch(texts[start..end], start, cancelled, tick + 1);
      if batch.Err? {
        return batch;
      }
      SlicesAppend(m, results, batch.value, texts[..start], texts[start..end]);
      assert texts[..end] == texts[..start] + texts[start..end];
      r := Ok(results + batch.value);
    }

    /** Waits for the gate; closes the model once, however often it is called. */
    method Close()
      requires Valid() && gate
      modifies `closed, `modelCloses, `gate
      ensures Valid() && gate && closed && modelCloses == 1
    {
      gate := false;
      if !closed {
        closed, modelCloses := true, modelCloses + 1;
      }
      gate := true;
    }
  }

  /** A result: a stretch of a slab, and the token count. */
  datatype Slice = Slice(slab: array<real>, from: nat, tokens: nat)

  ghost predicate GoodSlice(m: Model, s: Slice, text: string)
    reads s.slab
  {
    && s.from + m.info.dimension <= s.slab.Length
    && IsVectorOf(m, s.slab[s.from..s.from + m.info.dimension], text)
    && s.tokens == |m.encode(text)|
  }

  ghost predicate AllGood(m: Model, slices: seq<Slice>, texts: seq<string>)
    reads set i | 0 <= i < |slices| :: slices[i].slab
  {
    |slices| == |texts| && forall i | 0 <= i < |slices| :: GoodSlice(m, slices[i], texts[i])
  }

  /** No two results share a cell. */
  ghost predicate Disjoint(m: Model, slices: seq<Slice>) {
    forall i, j | 0 <= i < j < |slices| && slices[i].slab == slices[j].slab ::
      slices[i].from + m.info.dimension <= slices[j].from
  }

  /** Nothing stands in the way of a result: no cancellation, sound texts, a predictor that answers. */
  ghost predicate Unhindered(m: Model, cancelled: nat -> bool, texts: seq<string>) {
    && (forall t: nat :: !cancelled(t))
    && (forall i | 0 <= i < |texts| :: Fits(m, m.encode(texts[i])) && SumSquares(Raw(m, texts[i])) != 0.0)
    && (forall ids: seq<int>, mask: seq<int> {:trigger m.predict(ids, mask)} :: m.predict(ids, mask).Some?)
  }

  lemma UnhinderedSucceeds(m: Model, texts: seq<string>, cancelled: nat -> bool)
    requires m.info.batch > 0
    ensures Unhindered(m, cancelled, texts) ==> Succeeds(m, texts, cancelled)
  {
    hide Fits, Raw, SumSquares;
    if Unhindered(m, cancelled, texts) {
      forall k: nat | Start(m, |texts|, k) < |texts| ensures PartWorks(m, texts, cancelled, k) {
        var part := Part(m, texts, k);
        assert forall r | 0 <= r < |part| :: part[r] == texts[Start(m, |texts|, k) + r];
      }
    }
  }

  lemma NothingYet(m: Model, texts: seq<string>, cancelled: nat -> bool)
    requires m.info.batch > 0
    ensures AllGood(m, [], texts[..0]) && Disjoint(m, []) && Start(m, |texts|, 0) == 0 && WorksTo(m, texts, cancelled, 0)
  {
  }

  /** Results in other slabs can follow. */
  lemma SlicesAppend(m: Model, a: seq<Slice>, b: seq<Slice>, ta: seq<string>, tb: seq<string>)
    requires AllGood(m, a, ta) && AllGood(m, b, tb) && Disjoint(m, a) && Disjoint(m, b)
    requires forall i, j | 0 <= i < |a| && 0 <= j < |b| :: a[i].slab != b[j].slab
    ensures AllGood(m, a + b, ta + tb) && Disjoint(m, a + b)
  {
    hide GoodSlice;
  }

  lemma SlicesGood(m: Model, slab: array<real>, slices: seq<Slice>, part: seq<string>)
    requires |slices| == |part|
    requires EmittedTo(m, slab[..], part, |part|)
    requires forall i | 0 <= i < |part| ::
               slices[i].slab == slab && slices[i].from == i * m.info.dimension && slices[i].tokens == |m.encode(part[i])|
    ensures AllGood(m, slices, part) && Disjoint(m, slices)
  {
    hide IsVectorOf;
    forall i | 0 <= i < |part| ensures GoodSlice(m, slices[i], part[i]) {
      assert Emitted(m, slab[..], part, i);
      assert Row(slab[..], i, m.info.dimension) == slab[i * m.info.dimension..i * m.info.dimension + m.info.dimension];
    }
    forall i, j | 0 <= i < j < |slices| ensures slices[i].from + m.info.dimension <= slices[j].from {
      RowsApart(i, j, m.info.dimension);
    }
  }

  /** The first n rows of the slab are done. */
  ghost predicate EmittedTo(m: Model, slab: Vec, part: seq<string>, n: nat)
    requires n <= |part|
  {
    forall r: nat {:trigger Emitted(m, slab, part, r)} | r < n :: Emitted(m, slab, part, r)
  }

  lemma PredictedAt(m: Model, output: Vec, part: seq<string>, r: nat)
    requires Predicted(m, output, part) && r < |part|
    ensures r * m.info.dimension + m.info.dimension <= |output| && Row(output, r, m.info.dimension) == Raw(m, part[r])
  {
    hide Raw;
    assert PredictedRow(m, output, part, r);
  }

  lemma EmittedNone(m: Model, slab: Vec, part: seq<string>)
    ensures EmittedTo(m, slab, part, 0)
  {
  }

  lemma EmittedNext(m: Model, slab: Vec, slab': Vec, part: seq<string>, q: nat)
    requires q < |part| && EmittedTo(m, slab, part, q) && Emitted(m, slab', part, q) && |slab| == |slab'|
    requires var base := q * m.info.dimension;
             forall i | 0 <= i < |slab| && !(base <= i < base + m.info.dimension) :: slab[i] == slab'[i]
    ensures EmittedTo(m, slab', part, q + 1)
  {
    hide Emitted;
    forall r: nat | r < q + 1 ensures Emitted(m, slab', part, r) {
      if r < q {
        assert Emitted(m, slab, part, r);
        StillEmitted(m, slab, slab', part, q, r);
      }
    }
  }

  /** Row r of the slab is the text's normalized vector. */
  ghost predicate Emitted(m: Model, slab: Vec, part: seq<string>, r: nat)
    requires r < |part|
  {
    && r * m.info.dimension + m.info.dimension <= |slab|
    && IsVectorOf(m, Row(slab, r, m.info.dimension), part[r])
  }

  /** What a caller should get for one text. */
  ghost predicate IsVectorOf(m: Model, v: Vec, text: string) {
    var raw := Raw(m, text);
    SumSquares(raw) != 0.0 && m.sqrt(SumSquares(raw)) != 0.0 && v == Scaled(raw, Norm(m, raw))
  }

  lemma EmittedRow(m: Model, slab: Vec, part: seq<string>, r: nat)
    requires r < |part| && r * m.info.dimension + m.info.dimension <= |slab|
    requires var raw := Raw(m, part[r]);
             SumSquares(raw) != 0.0 && m.sqrt(SumSquares(raw)) != 0.0
             && Row(slab, r, m.info.dimension) == Scaled(raw, Norm(m, raw))
    ensures Emitted(m, slab, part, r)
  {
  }

  lemma StillEmitted(m: Model, slab: Vec, slab': Vec, part: seq<string>, q: nat, r: nat)
    requires r < |part| && q != r && Emitted(m, slab, part, r) && |slab| == |slab'|
    requires var base := q * m.info.dimension;
             forall i | 0 <= i < |slab| && !(base <= i < base + m.info.dimension) :: slab[i] == slab'[i]
    ensures Emitted(m, slab', part, r)
  {
    hide IsVectorOf;
    OtherRow(slab, slab', q, r, m.info.dimension);
  }

  ghost predicate PredictedRow(m: Model, output: Vec, part: seq<string>, r: nat)
    requires r < |part|
  {
    r * m.info.dimension + m.info.dimension <= |output| && Row(output, r, m.info.dimension) == Raw(m, part[r])
  }

  /** The output rows are the texts' own vectors. */
  ghost predicate Predicted(m: Model, output: Vec, part: seq<string>) {
    forall r: nat {:trigger PredictedRow(m, output, part, r)} | r < |part| :: PredictedRow(m, output, part, r)
  }

  /** The predictor's output for a filled row is the text's own vector, whatever else is in the batch. */
  lemma RowIsRaw(m: Model, ids: seq<int>, mask: seq<int>, out: Vec, r: nat, text: string)
    requires RowOf(m, ids, mask, out, r) && Holds(m, ids, mask, r, text)
    ensures r * m.info.dimension + m.info.dimension <= |out| && Row(out, r, m.info.dimension) == Raw(m, text)
  {
  }
}
