/**
 The feed-forward graph that scripts/export_coreml_ffn.py builds, over exact
 reals, for one token: scaled projections, hidden chunks, and the final unscale.
 */
module SwiGlu {
  import opened Reals

  type Matrix = seq<Vec>

  /** An exponential, by the two facts the construction rests on. */
  type Exponential = f: real -> real | IsExponential(f) witness (x: real) => 1.0

  ghost predicate IsExponential(f: real -> real) {
    (forall x: real :: f(x) > 0.0) && (forall x: real {:trigger Reciprocal(f, x)} :: Reciprocal(f, x))
  }

  ghost predicate Reciprocal(f: real -> real, x: real) {
    f(x) * f(-x) == 1.0
  }

  // The activation

  function Silu(exp: Exponential, x: real): real {
    x / (1.0 + exp(-x))
  }

  function Exponent(x: real, scale: real): real
    requires scale > 0.0
  {
    Abs(x) * (-1.0 / scale)
  }

  /** stable_silu: the exponent is never positive, so the exponential never exceeds one. */
  function StableSilu(exp: Exponential, x: real, scale: real): real
    requires scale > 0.0
  {
    var e := exp(Exponent(x, scale));
    (if x >= 0.0 then x else x * e) / (e + 1.0)
  }

  lemma Associates(a: real, b: real, c: real)
    ensures (a * b) * c == a * (b * c) && (a * b) * c == b * (a * c)
  {
  }

  lemma Unscale(s: real, g: real)
    requires s > 0.0
    ensures Exponent(s * g, s) == -Abs(g)
    ensures s * g >= 0.0 <==> g >= 0.0
  {
    var q := -1.0 / s;
    assert s * q == -1.0;
    if g >= 0.0 {
      Associates(s, g, q);
    } else {
      assert s * g < 0.0;
      Associates(s, -g, q);
      assert -(s * g) == s * -g;
    }
  }

  /** For either sign, the stable form of a scaled argument is the scaled SiLU. */
  lemma StableSiluScales(exp: Exponential, g: real, s: real)
    requires s > 0.0
    ensures StableSilu(exp, s * g, s) == s * Silu(exp, g)
  {
    Unscale(s, g);
    var e, x := exp(-Abs(g)), s * g;
    var a, b := Exponent(x, s), -Abs(g);
    assert a == b && exp(a) == e;
    assert b == if g >= 0.0 then -g else g;
    hide Exponent, Abs;
    if g >= 0.0 {
      assert b == -g;
      assert StableSilu(exp, x, s) == x / (e + 1.0) && Silu(exp, g) == g / (1.0 + e);
    } else {
      assert Reciprocal(exp, g) && b == g && e == exp(g);
      assert StableSilu(exp, x, s) == (x * e) / (e + 1.0);
    }
  }

  /** The exponential it takes lies between zero and one for every increasing exp. */
  lemma ExponentBounded(exp: Exponential, x: real, s: real)
    requires s > 0.0
    requires forall a: real, b: real {:trigger exp(a), exp(b)} :: a <= b ==> exp(a) <= exp(b)
    ensures 0.0 < exp(Exponent(x, s)) <= 1.0
  {
    var q, zero := 1.0 / s, 0.0;
    assert q > 0.0 && -1.0 / s == -q;
    assert Abs(x) * q >= 0.0;
    assert Abs(x) * -q == -(Abs(x) * q);
    assert Reciprocal(exp, zero) && -zero == zero;
  }

  // Projections

  function Scale(s: real, w: Vec): (r: Vec)
    ensures |r| == |w|
  {
    seq(|w|, i requires 0 <= i < |w| => w[i] * s)
  }

  lemma ScaleTail(s: real, w: Vec)
    requires w != []
    ensures Scale(s, w)[1..] == Scale(s, w[1..])
  {
    forall i | 0 <= i < |w| - 1 ensures Scale(s, w)[1..][i] == Scale(s, w[1..])[i] {
      assert w[1..][i] == w[i + 1];
    }
  }

  lemma {:induction false} DotScale(s: real, w: Vec, x: Vec)
    ensures Dot(Scale(s, w), x) == s * Dot(w, x)
  {
    if w != [] && x != [] {
      DotScale(s, w[1..], x[1..]);
      ScaleTail(s, w);
      Associates(w[0], s, x[0]);
    }
  }

  // The exact layer

  datatype Layer = Layer(exp: Exponential, gate: Matrix, up: Matrix, down: Matrix)

  ghost predicate Shaped(l: Layer, hidden: nat) {
    && |l.gate| == |l.up| == hidden
    && forall r | 0 <= r < |l.down| :: |l.down[r]| == hidden
  }

  /** silu(gate * x) . (up * x), unit h. */
  function Unit(l: Layer, x: Vec, h: nat): real
    requires h < |l.gate| && h < |l.up|
  {
    Silu(l.exp, Dot(l.gate[h], x)) * Dot(l.up[h], x)
  }

  function Weigh(w: real, y: real): real {
    w * y
  }

  /** Row r of down * (silu(gate * x) . (up * x)), over units a to b - 1. */
  ghost function Exact(l: Layer, x: Vec, hidden: nat, r: nat, a: nat, b: nat): real
    requires Shaped(l, hidden) && r < |l.down| && a <= b <= hidden
  {
    if a == b then 0.0 else Exact(l, x, hidden, r, a, b - 1) + Weigh(l.down[r][b - 1], Unit(l, x, b - 1))
  }

  lemma {:induction false} ExactSplit(l: Layer, x: Vec, hidden: nat, r: nat, a: nat, b: nat, c: nat)
    requires Shaped(l, hidden) && r < |l.down| && a <= b <= c <= hidden
    ensures Exact(l, x, hidden, r, a, c) == Exact(l, x, hidden, r, a, b) + Exact(l, x, hidden, r, b, c)
    decreases c
  {
    hide Shaped, Unit;
    if b < c {
      ExactSplit(l, x, hidden, r, a, b, c - 1);
    }
  }

  // The exported program

  /** One activated unit of the graph, from its scaled projections. */
  function Activated(exp: Exponential, gated: real, projected: real, s: real): real
    requires s > 0.0
  {
    StableSilu(exp, gated, s) * projected
  }

  function Rescale(s: real, unit: real): real {
    s * s * unit
  }

  /** One projection buffer: an array of owned rows. */
  method ScaleInPlace(rows: array<Vec>, s: real)
    modifies rows
    ensures forall h | 0 <= h < rows.Length :: rows[h] == Scale(s, old(rows[h]))
  {
    var begin := 0;
    while begin < rows.Length
      invariant begin % 128 == 0
      invariant forall h | 0 <= h < rows.Length :: rows[h] == if h < begin then Scale(s, old(rows[h])) else old(rows[h])
    {
      var end := if begin + 128 < rows.Length then begin + 128 else rows.Length;
      for h := begin to end
        invariant forall k | 0 <= k < rows.Length :: rows[k] == if k < h then Scale(s, old(rows[k])) else old(rows[k])
      {
        rows[h] := Scale(s, rows[h]);
      }
      begin := begin + 128;
    }
  }

  /** The activated hidden units of one chunk, as the graph computes them from the scaled buffers. */
  method Activate(exp: Exponential, gate: array<Vec>, up: array<Vec>, x: Vec, s: real, begin: nat, end: nat, ghost l: Layer)
    returns (activated: Vec)
    requires begin <= end <= gate.Length == up.Length && s > 0.0 && l.exp == exp && Shaped(l, gate.Length)
    requires forall h | 0 <= h < gate.Length :: gate[h] == Scale(s, l.gate[h]) && up[h] == Scale(s, l.up[h])
    ensures |activated| == end - begin
    ensures forall h | begin <= h < end :: activated[h - begin] == Rescale(s, Unit(l, x, h))
  {
    activated := [];
    hide StableSilu, Dot, Scale, Unit, Activated, Rescale;
    for h := begin to end
      invariant |activated| == h - begin
      invariant forall k | begin <= k < h :: activated[k - begin] == Rescale(s, Unit(l, x, k))
    {
      UnitFromScaled(l, x, h, s, gate.Length);
      var gated, projected := Dot(gate[h], x), Dot(up[h], x);
      activated := activated + [Activated(exp, gated, projected, s)];
    }
  }

  /** A hidden unit computed from scaled rows is the exact unit times the scale squared. */
  lemma UnitFromScaled(l: Layer, x: Vec, h: nat, s: real, hidden: nat)
    requires Shaped(l, hidden) && h < hidden && s > 0.0
    ensures Activated(l.exp, Dot(Scale(s, l.gate[h]), x), Dot(Scale(s, l.up[h]), x), s) == Rescale(s, Unit(l, x, h))
  {
    var g, u := Dot(l.gate[h], x), Dot(l.up[h], x);
    var gs, us := Dot(Scale(s, l.gate[h]), x), Dot(Scale(s, l.up[h]), x);
    assert Unit(l, x, h) == Silu(l.exp, g) * u;
    DotScale(s, l.gate[h], x);
    DotScale(s, l.up[h], x);
    hide *;
    ScaledUnit(l.exp, g, u, s, gs, us, Unit(l, x, h));
  }

  lemma ScaledUnit(exp: Exponential, g: real, u: real, s: real, gs: real, us: real, unit: real)
    requires s > 0.0 && gs == s * g && us == s * u && unit == Silu(exp, g) * u
    ensures Activated(exp, gs, us, s) == Rescale(s, unit)
  {
    StableSiluScales(exp, g, s);
    hide StableSilu, Silu;
  }

  /** The down projection of a chunk, row r: the partial sum the graph adds up. */
  function Partial(down: Vec, activated: Vec, begin: nat, n: nat): real
    requires n <= |activated| && begin + n <= |down|
  {
    if n == 0 then 0.0 else Partial(down, activated, begin, n - 1) + Weigh(down[begin + n - 1], activated[n - 1])
  }

  lemma RescaleTerm(s: real, w: real, unit: real)
    ensures Weigh(w, Rescale(s, unit)) == Rescale(s, Weigh(w, unit))
  {
    Associates(w, s * s, unit);
  }

  lemma RescaleSum(s: real, a: real, b: real)
    ensures Rescale(s, a) + Rescale(s, b) == Rescale(s, a + b)
  {
  }

  /** A partial down projection is the exact partial sum times the scale squared. */
  lemma {:induction false} PartialScales(l: Layer, x: Vec, hidden: nat, r: nat, s: real, activated: Vec, begin: nat, n: nat)
    requires Shaped(l, hidden) && r < |l.down| && n <= |activated| && begin + n <= hidden
    requires forall h | begin <= h < begin + n :: activated[h - begin] == Rescale(s, Unit(l, x, h))
    ensures Partial(l.down[r], activated, begin, n) == Rescale(s, Exact(l, x, hidden, r, begin, begin + n))
  {
    if n == 0 {
      assert Rescale(s, 0.0) == 0.0;
    } else {
      PartialScales(l, x, hidden, r, s, activated, begin, n - 1);
      var w, unit := l.down[r][begin + n - 1], Unit(l, x, begin + n - 1);
      var sum := Exact(l, x, hidden, r, begin, begin + n - 1);
      assert activated[begin + n - 1 - begin] == Rescale(s, unit);
      hide Unit, Weigh, Rescale;
      assert Exact(l, x, hidden, r, begin, begin + n) == sum + Weigh(w, unit);
      RescaleTerm(s, w, unit);
      RescaleSum(s, sum, Weigh(w, unit));
    }
  }

  lemma UnscaleFinal(s: real, y: real)
    requires s > 0.0
    ensures Rescale(s, y) * (1.0 / (s * s)) == y
  {
    var q := s * s;
    assert q > 0.0;
    assert q * (1.0 / q) == 1.0;
    Associates(q, y, 1.0 / q);
  }

  /** Adding up the chunks. */
  method Accumulate(exp: Exponential, gate: array<Vec>, up: array<Vec>, down: Matrix, x: Vec, chunk: nat, s: real, ghost l: Layer)
    returns (result: Vec)
    requires gate.Length == up.Length && chunk > 0 && s > 0.0
    requires l.exp == exp && l.down == down && Shaped(l, gate.Length)
    requires forall h | 0 <= h < gate.Length :: gate[h] == Scale(s, l.gate[h]) && up[h] == Scale(s, l.up[h])
    ensures |result| == |down|
    ensures forall r | 0 <= r < |down| :: result[r] == Rescale(s, Exact(l, x, gate.Length, r, 0, gate.Length))
  {
    result := seq(|down|, _ => 0.0);
    NothingScaled(l, x, gate.Length, s);
    hide Unit, Rescale, Scale, Exact, Partial;
    var begin := 0;
    while begin < gate.Length
      invariant begin <= gate.Length && |result| == |down|
      invariant forall r | 0 <= r < |down| :: result[r] == Rescale(s, Exact(l, x, gate.Length, r, 0, begin))
    {
      var end := if begin + chunk < gate.Length then begin + chunk else gate.Length;
      var activated := Activate(exp, gate, up, x, s, begin, end, l);
      var before := result;
      result := seq(|down|, r requires 0 <= r < |down| => before[r] + Partial(down[r], activated, begin, end - begin));
      forall r | 0 <= r < |down| ensures result[r] == Rescale(s, Exact(l, x, gate.Length, r, 0, end)) {
        assert result[r] == before[r] + Partial(down[r], activated, begin, end - begin);
        PartialScales(l, x, gate.Length, r, s, activated, begin, end - begin);
        ExactSplit(l, x, gate.Length, r, 0, begin, end);
        RescaleSum(s, Exact(l, x, gate.Length, r, 0, begin), Exact(l, x, gate.Length, r, begin, end));
      }
      begin := end;
    }
  }

  lemma NothingScaled(l: Layer, x: Vec, hidden: nat, s: real)
    requires Shaped(l, hidden)
    ensures forall r | 0 <= r < |l.down| :: 0.0 == Rescale(s, Exact(l, x, hidden, r, 0, 0))
  {
  }

  /**
   The exported graph computes down * (silu(gate * x) . (up * x)) exactly, for
   every positive scale and every chunk size, zero meaning one chunk.
   */
  method Program(exp: Exponential, gate: array<Vec>, up: array<Vec>, down: Matrix, x: Vec, hiddenChunk: nat, s: real)
    returns (output: Vec)
    requires gate.Length == up.Length > 0 && gate != up && s > 0.0
    requires forall r | 0 <= r < |down| :: |down[r]| == gate.Length
    modifies gate, up
    ensures |output| == |down|
    ensures var l := Layer(exp, old(gate[..]), old(up[..]), down);
            forall r | 0 <= r < |down| :: output[r] == Exact(l, x, gate.Length, r, 0, gate.Length)
  {
    hide Exact, Rescale, Scale;
    ghost var l := Layer(exp, gate[..], up[..], down);
    ScaleInPlace(gate, s);
    ScaleInPlace(up, s);
    var chunk := if hiddenChunk != 0 then hiddenChunk else gate.Length;
    var result := Accumulate(exp, gate, up, down, x, chunk, s, l);
    output := seq(|down|, r requires 0 <= r < |down| => result[r] * (1.0 / (s * s)));
    forall r | 0 <= r < |down| ensures output[r] == Exact(l, x, gate.Length, r, 0, gate.Length) {
      UnscaleFinal(s, Exact(l, x, gate.Length, r, 0, gate.Length));
    }
  }
}
