/** The streaming resampler of voiceweb/audio-worklet.js over exact reals. */
module Resampler {
  import opened Lists
  import opened Reals

  const EPS := 0.00000001
  const BLOCK := 3200
  const LEVEL := 800

  // Sample values

  function Clamp(x: real): real {
    if x < -1.0 then -1.0 else if x > 1.0 then 1.0 else x
  }

  /** No sample in range is nearer. */
  lemma ClampNearest(x: real, y: real)
    requires -1.0 <= y <= 1.0
    ensures -1.0 <= Clamp(x) <= 1.0 && Abs(x - Clamp(x)) <= Abs(x - y)
  {
  }

  /** Math.round, which rounds halves up. */
  function Round(x: real): int {
    (x + 0.5).Floor
  }

  function Quantize(sample: real): int {
    Round(sample * (if sample < 0.0 then 32768.0 else 32767.0))
  }

  /** The 16-bit value is the nearest one to 32767 times a sample from 0 up, and to 32768 times one below. */
  lemma QuantizeNearest(sample: real)
    ensures sample >= 0.0 ==> Abs(Quantize(sample) as real - 32767.0 * sample) <= 0.5
    ensures sample < 0.0 ==> Abs(Quantize(sample) as real - 32768.0 * sample) <= 0.5
    ensures -1.0 <= sample <= 1.0 ==> -32768 <= Quantize(sample) <= 32767
    ensures Quantize(0.0) == 0 && Quantize(1.0) == 32767 && Quantize(-1.0) == -32768
  {
  }

  // One frame, as a function

  datatype Post = Block(samples: seq<int>) | Level(peak: real) | Stopped

  /** The processor between two turns of its inner loop. */
  datatype State = State(weight: real, sum: real, block: seq<int>, peak: real, level: nat)

  const START := State(0.0, 0.0, [], 0.0, 0)

  ghost predicate Ready(s: State, ratio: real) {
    0.0 <= s.weight < ratio - EPS && |s.block| < BLOCK && s.level < LEVEL
  }

  /** Emitting one sample: the level meter, the sample, and the block when it is full. */
  function Emit(s: State, ratio: real): (State, seq<Post>)
    requires ratio > 0.0
  {
    var sample := Clamp(s.sum / ratio);
    var peak := if s.peak > Abs(sample) then s.peak else Abs(sample);
    var block := s.block + [Quantize(sample)];
    var full := s.level + 1 >= LEVEL;
    (State(0.0, 0.0, if |block| == BLOCK then [] else block, if full then 0.0 else peak, if full then 0 else s.level + 1),
     (if full then [Level(peak)] else []) + if |block| == BLOCK then [Block(block)] else [])
  }

  function Take(left: real, room: real): real {
    if left < room then left else room
  }

  /** Adding a share of the frame to the sample being filled. */
  function Fill(s: State, value: real, take: real): State {
    s.(sum := s.sum + value * take, weight := s.weight + take)
  }

  function Turns(left: real): nat {
    if left <= 0.0 then 0 else (left / EPS).Floor
  }

  /** Each turn of the inner loop uses up more than EPS of the frame, or ends it. */
  lemma TurnsFall(left: real, take: real)
    requires left > EPS && (take == left || take > EPS) && take <= left
    ensures Turns(left - take) < Turns(left)
  {
    assert left / EPS > 1.0;
    if take != left {
      assert (left - take) / EPS == left / EPS - take / EPS;
      assert take / EPS > 1.0;
    }
  }

  /** What is left of one frame of the given value; yields the samples it completes. */
  function Frame(s: State, ratio: real, value: real, left: real): (r: (State, seq<Post>, nat))
    requires Ready(s, ratio) && 0.0 <= left <= 1.0
    ensures Ready(r.0, ratio)
    decreases Turns(left)
  {
    if left <= EPS then (s, [], 0)
    else
      var take := Take(left, ratio - s.weight);
      TurnsFall(left, take);
      var next := Fill(s, value, take);
      if next.weight >= ratio - EPS then
        var (emitted, posts) := Emit(next, ratio);
        var (last, more, n) := Frame(emitted, ratio, value, left - take);
        (last, posts + more, n + 1)
      else
        Frame(next, ratio, value, left - take)
  }

  /** A run of frames. */
  function Run(s: State, ratio: real, frames: seq<real>): (r: (State, seq<Post>, nat))
    requires Ready(s, ratio)
    ensures Ready(r.0, ratio)
  {
    if frames == [] then (s, [], 0)
    else
      var (before, posts, n) := Run(s, ratio, frames[..|frames| - 1]);
      var (after, more, m) := Frame(before, ratio, frames[|frames| - 1], 1.0);
      (after, posts + more, n + m)
  }

  lemma RunNext(s: State, ratio: real, frames: seq<real>, value: real)
    requires Ready(s, ratio)
    ensures var before := Run(s, ratio, frames); var after := Frame(before.0, ratio, value, 1.0);
            Run(s, ratio, frames + [value]) == (after.0, before.1 + after.1, before.2 + after.2)
  {
    hide Frame, Emit;
    assert (frames + [value])[..|frames|] == frames;
  }

  lemma RunNone(s: State, ratio: real)
    requires Ready(s, ratio)
    ensures Run(s, ratio, []) == (s, [], 0)
  {
  }

  /** Splitting a run of frames anywhere changes nothing. */
  lemma {:induction false} RunSplit(s: State, ratio: real, a: seq<real>, b: seq<real>)
    requires Ready(s, ratio)
    ensures var first := Run(s, ratio, a); var rest := Run(first.0, ratio, b);
            Run(s, ratio, a + b) == (rest.0, first.1 + rest.1, first.2 + rest.2)
  {
    hide *;
    var first := Run(s, ratio, a);
    if b == [] {
      RunNone(first.0, ratio);
      assert a + b == a && first.1 + [] == first.1;
    } else {
      var init, value := b[..|b| - 1], b[|b| - 1];
      RunSplit(s, ratio, a, init);
      assert b == init + [value] && a + b == (a + init) + [value];
      RunNext(s, ratio, a + init, value);
      RunNext(first.0, ratio, init, value);
      var late := Run(first.0, ratio, init);
      var last := Frame(late.0, ratio, value, 1.0);
      assert (first.1 + late.1) + last.1 == first.1 + (late.1 + last.1);
    }
  }

  function RunGroups(s: State, ratio: real, groups: seq<seq<real>>): (r: (State, seq<Post>, nat))
    requires Ready(s, ratio)
    ensures Ready(r.0, ratio)
  {
    if groups == [] then (s, [], 0)
    else
      var (before, posts, n) := RunGroups(s, ratio, groups[..|groups| - 1]);
      var (after, more, m) := Run(before, ratio, groups[|groups| - 1]);
      (after, posts + more, n + m)
  }

  lemma {:induction false} GroupsAreOneRun(s: State, ratio: real, groups: seq<seq<real>>)
    requires Ready(s, ratio)
    ensures RunGroups(s, ratio, groups) == Run(s, ratio, Concat(groups))
  {
    hide Run, Ready;
    if groups == [] {
      RunNone(s, ratio);
    } else {
      var init, last := groups[..|groups| - 1], groups[|groups| - 1];
      GroupsAreOneRun(s, ratio, init);
      RunSplit(s, ratio, Concat(init), last);
    }
  }

  /** However the same frames are cut into calls, the same blocks and levels come out. */
  lemma GroupingIrrelevant(ratio: real, a: seq<seq<real>>, b: seq<seq<real>>)
    requires ratio > EPS && Concat(a) == Concat(b)
    ensures RunGroups(START, ratio, a) == RunGroups(START, ratio, b)
  {
    GroupsAreOneRun(START, ratio, a);
    GroupsAreOneRun(START, ratio, b);
  }

  // How much is emitted

  lemma OneMore(n: nat, m: nat, x: real)
    ensures (n + m) as real * x == n as real * x + m as real * x
  {
  }

  /** n samples and the weight left over account for `used` of the input, give or take `lost`. */
  ghost predicate Accounts(n: nat, ratio: real, weight: real, used: real, lost: real) {
    n as real * (ratio - EPS) + weight <= used && used - lost <= n as real * ratio + weight
  }

  lemma AccountsMore(n: nat, m: nat, ratio: real, w: real, used: real, lost: real, w': real, more: real, lost': real)
    requires Accounts(n, ratio, w, used, lost) && Accounts(m, ratio, w', w + more, lost')
    ensures Accounts(n + m, ratio, w', used + more, lost + lost')
  {
    OneMore(n, m, ratio - EPS);
    OneMore(n, m, ratio);
  }

  /** One frame uses between 1 - EPS and 1 of weight, each sample between ratio - EPS and ratio. */
  lemma {:induction false} FrameBounds(s: State, ratio: real, value: real, left: real)
    requires Ready(s, ratio) && 0.0 <= left <= 1.0
    ensures var last := Frame(s, ratio, value, left); Accounts(last.2, ratio, last.0.weight, s.weight + left, EPS)
    decreases Turns(left)
  {
    if left <= EPS {
      assert Accounts(0, ratio, s.weight, s.weight + left, EPS);
    } else {
      var take := Take(left, ratio - s.weight);
      TurnsFall(left, take);
      var next := Fill(s, value, take);
      if next.weight >= ratio - EPS {
        var emitted := Emit(next, ratio).0;
        FrameBounds(emitted, ratio, value, left - take);
        var rest := Frame(emitted, ratio, value, left - take);
        assert Frame(s, ratio, value, left).2 == 1 + rest.2 && Frame(s, ratio, value, left).0 == rest.0;
        assert Accounts(1, ratio, 0.0, s.weight + take, 0.0);
        assert emitted.weight == 0.0;
        hide *;
        AccountsMore(1, rest.2, ratio, 0.0, s.weight + take, 0.0, rest.0.weight, left - take, EPS);
      } else {
        FrameBounds(next, ratio, value, left - take);
      }
    }
  }

  lemma AccountsNone(ratio: real, weight: real)
    ensures Accounts(0, ratio, weight, weight, 0.0)
  {
  }

  lemma {:induction false} RunBounds(s: State, ratio: real, frames: seq<real>, lost: real)
    requires Ready(s, ratio) && lost == |frames| as real * EPS
    ensures var last := Run(s, ratio, frames);
            Accounts(last.2, ratio, last.0.weight, s.weight + |frames| as real, lost)
  {
    hide *;
    if frames == [] {
      RunNone(s, ratio);
      AccountsNone(ratio, s.weight);
    } else {
      var init, value := frames[..|frames| - 1], frames[|frames| - 1];
      OneMore(|init|, 1, EPS);
      RunBounds(s, ratio, init, lost - EPS);
      RunNext(s, ratio, init, value);
      assert frames == init + [value];
      var before := Run(s, ratio, init);
      FrameBounds(before.0, ratio, value, 1.0);
      var after := Frame(before.0, ratio, value, 1.0);
      AccountsMore(before.2, after.2, ratio, before.0.weight, s.weight + |init| as real, lost - EPS,
                   after.0.weight, 1.0, EPS);
    }
  }

  /** After N frames and n samples: n * (ratio - EPS) <= N and N * (1 - EPS) < (n + 1) * ratio - EPS. */
  lemma RateHolds(ratio: real, frames: seq<real>)
    requires ratio > EPS
    ensures var N, n := |frames| as real, Run(START, ratio, frames).2 as real;
            n * (ratio - EPS) <= N && N * (1.0 - EPS) < (n + 1.0) * ratio - EPS
  {
    RunBounds(START, ratio, frames, |frames| as real * EPS);
    assert |frames| as real * (1.0 - EPS) == |frames| as real - |frames| as real * EPS;
    var n := Run(START, ratio, frames).2 as real;
    assert (n + 1.0) * ratio == n * ratio + ratio;
  }

  // Nothing is lost between the sampler and the port

  function Samples(posts: seq<Post>): seq<int> {
    if posts == [] then []
    else Samples(posts[..|posts| - 1]) + if posts[|posts| - 1].Block? then posts[|posts| - 1].samples else []
  }

  ghost predicate FullBlocks(posts: seq<Post>) {
    forall p | p in posts && p.Block? :: |p.samples| == BLOCK
  }

  lemma {:induction false} SamplesSplit(a: seq<Post>, b: seq<Post>)
    ensures Samples(a + b) == Samples(a) + Samples(b)
  {
    if b == [] {
      assert a + b == a;
    } else {
      assert (a + b)[..|a + b| - 1] == a + b[..|b| - 1];
      SamplesSplit(a, b[..|b| - 1]);
    }
  }

  /** From an open block, `made` samples went out in full posted blocks and a new open block, in order. */
  ghost predicate Kept(block: seq<int>, posts: seq<Post>, block': seq<int>, made: seq<int>) {
    && FullBlocks(posts) && Samples(posts) + block' == block + made
    && forall x | x in made :: -32768 <= x <= 32767
  }

  lemma KeptMore(b0: seq<int>, p1: seq<Post>, b1: seq<int>, m1: seq<int>, p2: seq<Post>, b2: seq<int>, m2: seq<int>)
    requires Kept(b0, p1, b1, m1) && Kept(b1, p2, b2, m2)
    ensures Kept(b0, p1 + p2, b2, m1 + m2)
  {
    SamplesSplit(p1, p2);
    hide Samples;
    assert Samples(p1) + Samples(p2) + b2 == Samples(p1) + (b1 + m2) == b0 + m1 + m2;
  }

  /** An emitted sample is within the 16-bit range. */
  lemma EmitKeeps(s: State, ratio: real)
    requires ratio > 0.0 && |s.block| < BLOCK
    ensures var e := Emit(s, ratio); Kept(s.block, e.1, e.0.block, [Quantize(Clamp(s.sum / ratio))])
  {
    var full := s.block + [Quantize(Clamp(s.sum / ratio))];
    var posts := Emit(s, ratio).1;
    hide Quantize, Clamp, Abs;
    if |full| == BLOCK {
      assert posts[|posts| - 1] == Block(full);
      assert Samples(posts[..|posts| - 1]) == [];
      assert Samples(posts) == [] + full;
    } else {
      assert Samples(posts) == [];
    }
  }

  /** One turn of the inner loop. */
  lemma FrameTurn(s: State, ratio: real, value: real, left: real)
    requires Ready(s, ratio) && EPS < left <= 1.0
    ensures var take := Take(left, ratio - s.weight); var next := Fill(s, value, take);
            && 0.0 <= left - take && Turns(left - take) < Turns(left)
            && next.block == s.block && next.level == s.level && next.peak == s.peak
            && if next.weight >= ratio - EPS then
                 var e := Emit(next, ratio);
                 && Ready(e.0, ratio)
                 && var rest := Frame(e.0, ratio, value, left - take);
                    Frame(s, ratio, value, left) == (rest.0, e.1 + rest.1, rest.2 + 1)
               else
                 Ready(next, ratio) && Frame(s, ratio, value, left) == Frame(next, ratio, value, left - take)
  {
    TurnsFall(left, Take(left, ratio - s.weight));
  }

  lemma FrameDone(s: State, ratio: real, value: real, left: real)
    requires Ready(s, ratio) && 0.0 <= left <= EPS
    ensures Frame(s, ratio, value, left) == (s, [], 0)
  {
  }

  // The level meter

  function Levels(posts: seq<Post>): seq<real> {
    if posts == [] then []
    else Levels(posts[..|posts| - 1]) + if posts[|posts| - 1].Level? then [posts[|posts| - 1].peak] else []
  }

  lemma {:induction false} LevelsSplit(a: seq<Post>, b: seq<Post>)
    ensures Levels(a + b) == Levels(a) + Levels(b)
  {
    if b == [] {
      assert a + b == a;
    } else {
      assert (a + b)[..|a + b| - 1] == a + b[..|b| - 1];
      LevelsSplit(a, b[..|b| - 1]);
    }
  }

  /** The largest magnitude of the samples; zero of none. */
  ghost predicate IsPeak(p: real, samples: seq<real>) {
    (forall x | x in samples :: Abs(x) <= p) && if samples == [] then p == 0.0 else exists x :: x in samples && Abs(x) == p
  }

  /** The samples since the last level post. */
  ghost predicate Pending(s: State, q: seq<real>) {
    s.level == |q| && IsPeak(s.peak, q)
  }

  /** The samples fall into groups of 800, each posted with its peak, and what is pending after them. */
  ghost predicate Grouped(q: seq<real>, posts: seq<Post>, q': seq<real>, made: seq<real>, groups: seq<seq<real>>) {
    && (forall g | g in groups :: |g| == LEVEL) && Concat(groups) + q' == q + made
    && |Levels(posts)| == |groups| && forall k | 0 <= k < |groups| :: IsPeak(Levels(posts)[k], groups[k])
  }

  ghost predicate Metered(s: State, posts: seq<Post>, s': State, made: seq<real>) {
    forall q {:trigger Pending(s, q)} | Pending(s, q) ::
      exists q', groups {:trigger Grouped(q, posts, q', made, groups)} :: Pending(s', q') && Grouped(q, posts, q', made, groups)
  }

  lemma GroupedMore(q: seq<real>, p1: seq<Post>, q1: seq<real>, m1: seq<real>, g1: seq<seq<real>>, p2: seq<Post>, q2: seq<real>, m2: seq<real>,
                    g2: seq<seq<real>>)
    requires Grouped(q, p1, q1, m1, g1) && Grouped(q1, p2, q2, m2, g2)
    ensures Grouped(q, p1 + p2, q2, m1 + m2, g1 + g2)
  {
    LevelsSplit(p1, p2);
    ConcatTwo(g1, g2);
    hide Concat, Levels, IsPeak;
    assert Concat(g1) + Concat(g2) + q2 == Concat(g1) + (q1 + m2) == q + m1 + m2;
  }

  lemma MeteredMore(s: State, p1: seq<Post>, s1: State, m1: seq<real>, p2: seq<Post>, s2: State, m2: seq<real>)
    requires Metered(s, p1, s1, m1) && Metered(s1, p2, s2, m2)
    ensures Metered(s, p1 + p2, s2, m1 + m2)
  {
    hide Grouped, Pending;
    forall q | Pending(s, q)
      ensures exists q', groups {:trigger Grouped(q, p1 + p2, q', m1 + m2, groups)} :: Pending(s2, q') && Grouped(q, p1 + p2, q', m1 + m2, groups)
    {
      var q1, g1 :| Pending(s1, q1) && Grouped(q, p1, q1, m1, g1);
      var q2, g2 :| Pending(s2, q2) && Grouped(q1, p2, q2, m2, g2);
      GroupedMore(q, p1, q1, m1, g1, p2, q2, m2, g2);
    }
  }

  lemma MeteredNone(s: State, s': State)
    requires s.level == s'.level && s.peak == s'.peak
    ensures Metered(s, [], s', [])
  {
    forall q | Pending(s, q) ensures Pending(s', q) && Grouped(q, [], q, [], []) {
      assert Concat<real>([]) + q == q + [];
    }
  }

  /** Only the meter's own state matters. */
  lemma MeteredSame(s: State, s0: State, posts: seq<Post>, s': State, made: seq<real>)
    requires s.level == s0.level && s.peak == s0.peak && Metered(s0, posts, s', made)
    ensures Metered(s, posts, s', made)
  {
    hide Grouped;
    forall q | Pending(s, q)
      ensures exists q', groups {:trigger Grouped(q, posts, q', made, groups)} :: Pending(s', q') && Grouped(q, posts, q', made, groups)
    {
      assert Pending(s0, q);
    }
  }

  lemma PeakMore(p: real, q: seq<real>, x: real)
    requires IsPeak(p, q)
    ensures IsPeak(if p > Abs(x) then p else Abs(x), q + [x])
  {
    var all := q + [x];
    assert x in all;
    if p > Abs(x) {
      var y :| y in q && Abs(y) == p;
      assert y in all;
    }
  }

  lemma EmitMetered(s: State, ratio: real)
    requires ratio > 0.0 && s.level < LEVEL
    ensures Metered(s, Emit(s, ratio).1, Emit(s, ratio).0, [Clamp(s.sum / ratio)])
  {
    var x, e := Clamp(s.sum / ratio), Emit(s, ratio);
    var peak := if s.peak > Abs(x) then s.peak else Abs(x);
    EmitLevels(s, ratio);
    hide Emit, Clamp, Abs, Levels, Grouped, IsPeak;
    forall q | Pending(s, q)
      ensures exists q', groups {:trigger Grouped(q, e.1, q', [x], groups)} :: Pending(e.0, q') && Grouped(q, e.1, q', [x], groups)
    {
      PeakMore(s.peak, q, x);
      if s.level + 1 >= LEVEL {
        NoPeak();
        OneGroup(q, e.1, x, peak);
        assert Pending(e.0, []);
      } else {
        NoGroup(q, e.1, x);
        assert Pending(e.0, q + [x]);
      }
    }
  }

  lemma OneGroup(q: seq<real>, posts: seq<Post>, x: real, peak: real)
    requires |q| + 1 == LEVEL && IsPeak(peak, q + [x]) && Levels(posts) == [peak]
    ensures Grouped(q, posts, [], [x], [q + [x]])
  {
    hide IsPeak, Levels;
    ConcatAppend([], q + [x]);
    assert [] + [q + [x]] == [q + [x]];
    assert Concat([q + [x]]) == q + [x];
    hide Concat;
  }

  lemma NoGroup(q: seq<real>, posts: seq<Post>, x: real)
    requires Levels(posts) == []
    ensures Grouped(q, posts, q + [x], [x], [])
  {
    hide IsPeak, Levels;
    assert Concat<real>([]) + (q + [x]) == q + [x];
  }

  lemma LevelsOne(p: Post)
    ensures Levels([p]) == if p.Level? then [p.peak] else []
  {
    assert [p][..0] == [];
  }

  lemma EmitLevels(s: State, ratio: real)
    requires ratio > 0.0
    ensures var x, e := Clamp(s.sum / ratio), Emit(s, ratio);
            var peak := if s.peak > Abs(x) then s.peak else Abs(x);
            && Levels(e.1) == (if s.level + 1 >= LEVEL then [peak] else [])
            && e.0.level == (if s.level + 1 >= LEVEL then 0 else s.level + 1)
            && e.0.peak == (if s.level + 1 >= LEVEL then 0.0 else peak)
  {
    hide Quantize, Clamp, Abs;
    var posts := Emit(s, ratio).1;
    if |posts| == 2 {
      LevelsSplit([posts[0]], [posts[1]]);
      assert posts == [posts[0]] + [posts[1]];
      LevelsOne(posts[1]);
    }
    if |posts| > 0 {
      LevelsOne(posts[0]);
      assert |posts| == 1 ==> posts == [posts[0]];
    }
    hide Levels;
  }

  // What a sample is made of

  /** A piece of one frame of the input that went into a sample. */
  datatype Piece = Piece(frame: nat, take: real)

  function Total(w: seq<Piece>): real {
    if w == [] then 0.0 else Total(w[..|w| - 1]) + w[|w| - 1].take
  }

  /** The input over these pieces, each weighed by its share. */
  function Weighed(w: seq<Piece>, frames: seq<real>): real {
    if w == [] then 0.0
    else
      var last := w[|w| - 1];
      Weighed(w[..|w| - 1], frames) + (if last.frame < |frames| then frames[last.frame] * last.take else 0.0)
  }

  function Sample(w: seq<Piece>, frames: seq<real>, ratio: real): int
    requires ratio > 0.0
  {
    Quantize(Mean(w, frames, ratio))
  }

  /** The mean of a window, within the range of a sample. */
  function Mean(w: seq<Piece>, frames: seq<real>, ratio: real): real
    requires ratio > 0.0
  {
    Clamp(Weighed(w, frames) / ratio)
  }

  function Means(windows: seq<seq<Piece>>, frames: seq<real>, ratio: real): (made: seq<real>)
    requires ratio > 0.0
    ensures |made| == |windows| && forall k | 0 <= k < |windows| :: made[k] == Mean(windows[k], frames, ratio)
  {
    seq(|windows|, k requires 0 <= k < |windows| => Mean(windows[k], frames, ratio))
  }

  function Sampled(windows: seq<seq<Piece>>, frames: seq<real>, ratio: real): (made: seq<int>)
    requires ratio > 0.0
    ensures |made| == |windows| && forall k | 0 <= k < |windows| :: made[k] == Sample(windows[k], frames, ratio)
  {
    seq(|windows|, k requires 0 <= k < |windows| => Sample(windows[k], frames, ratio))
  }

  /** The pieces are those of the first n frames in order, all of each frame but at most EPS. */
  ghost predicate Covers(pieces: seq<Piece>, n: nat)
    decreases n
  {
    if n == 0 then pieces == []
    else exists k {:trigger pieces[..k]} :: 0 <= k <= |pieces| && Covers(pieces[..k], n - 1) && AllOf(pieces[k..], n - 1, 1.0)
  }

  /** Pieces of one frame that use up `left` of it, but at most EPS. */
  ghost predicate AllOf(pieces: seq<Piece>, frame: nat, left: real) {
    (forall p | p in pieces :: p.frame == frame && p.take > 0.0) && left - EPS <= Total(pieces) <= left
  }

  /** A window is full: its pieces weigh the ratio, but at most EPS less. */
  ghost predicate Full(windows: seq<seq<Piece>>, ratio: real) {
    forall w | w in windows :: ratio - EPS <= Total(w) <= ratio
  }

  /** The state has gathered exactly the open pieces. */
  ghost predicate Gathered(s: State, open: seq<Piece>, frames: seq<real>) {
    s.sum == Weighed(open, frames) && s.weight == Total(open)
  }

  lemma GatherMore(s: State, open: seq<Piece>, frames: seq<real>, i: nat, take: real)
    requires Gathered(s, open, frames) && i < |frames|
    ensures Gathered(Fill(s, frames[i], take), open + [Piece(i, take)], frames)
  {
    assert (open + [Piece(i, take)])[..|open|] == open;
  }

  lemma {:induction false} TotalFirst(p: Piece, rest: seq<Piece>)
    ensures Total([p] + rest) == p.take + Total(rest)
  {
    if rest == [] {
      assert [p] + rest == [p] && [p][..0] == [];
    } else {
      var n := |rest| - 1;
      assert ([p] + rest)[..n + 1] == [p] + rest[..n];
      TotalFirst(p, rest[..n]);
    }
  }

  lemma AllOfFirst(p: Piece, rest: seq<Piece>, left: real)
    requires p.take > 0.0 && AllOf(rest, p.frame, left - p.take)
    ensures AllOf([p] + rest, p.frame, left)
  {
    TotalFirst(p, rest);
    hide Total;
  }

  /** What one frame adds: the windows it completes, the open one, and its own pieces. */
  ghost predicate FrameMade(s: State, r: (State, seq<Post>, nat), ratio: real, frames: seq<real>, i: nat, left: real,
                            open: seq<Piece>, windows: seq<seq<Piece>>, open': seq<Piece>, pieces: seq<Piece>)
  {
    && ratio > 0.0 && |windows| == r.2 && Full(windows, ratio)
    && Kept(s.block, r.1, r.0.block, Sampled(windows, frames, ratio))
    && Metered(s, r.1, r.0, Means(windows, frames, ratio))
    && Gathered(r.0, open', frames)
    && Concat(windows) + open' == open + pieces && AllOf(pieces, i, left)
  }

  lemma {:induction false} FrameWindows(s: State, ratio: real, frames: seq<real>, i: nat, left: real, open: seq<Piece>)
    returns (windows: seq<seq<Piece>>, open': seq<Piece>, pieces: seq<Piece>)
    requires Ready(s, ratio) && 0.0 <= left <= 1.0 && i < |frames| && Gathered(s, open, frames)
    ensures FrameMade(s, Frame(s, ratio, frames[i], left), ratio, frames, i, left, open, windows, open', pieces)
    decreases Turns(left)
  {
    hide *;
    var value := frames[i];
    Positive(s, ratio);
    if left <= EPS {
      windows, open', pieces := [], open, [];
      FrameDone(s, ratio, value, left);
      NothingMade(s, ratio, frames, i, left, open);
    } else {
      var take := Take(left, ratio - s.weight);
      var next, p := Fill(s, value, take), Piece(i, take);
      TakeFits(s, ratio, value, left);
      FrameTurn(s, ratio, value, left);
      GatherMore(s, open, frames, i, take);
      if next.weight >= ratio - EPS {
        var e := Emit(next, ratio);
        EmitEmpty(next, ratio, frames);
        windows, open', pieces := FrameWindows(e.0, ratio, frames, i, left - take, []);
        var r := Frame(e.0, ratio, value, left - take);
        EmitMade(next, ratio, frames, p, left, open, r, windows, open', pieces);
        windows, pieces := [open + [p]] + windows, [p] + pieces;
        SameBlock(s, next, (r.0, e.1 + r.1, r.2 + 1), ratio, frames, i, left, open, windows, open', pieces);
      } else {
        windows, open', pieces := FrameWindows(next, ratio, frames, i, left - take, open + [p]);
        var r := Frame(next, ratio, value, left - take);
        OneMorePiece(next, r, ratio, frames, p, left, open, windows, open', pieces);
        pieces := [p] + pieces;
        SameBlock(s, next, r, ratio, frames, i, left, open, windows, open', pieces);
      }
    }
  }

  lemma Positive(s: State, ratio: real)
    requires Ready(s, ratio)
    ensures ratio > EPS && |s.block| < BLOCK && s.level < LEVEL
  {
  }

  lemma TakeFits(s: State, ratio: real, value: real, left: real)
    requires Ready(s, ratio) && EPS < left
    ensures var take := Take(left, ratio - s.weight); var next := Fill(s, value, take);
            && 0.0 < take <= left && s.weight + take <= ratio
            && next.weight == s.weight + take && next.block == s.block && next.level == s.level && next.peak == s.peak
  {
  }

  lemma SameBlock(s: State, s': State, r: (State, seq<Post>, nat), ratio: real, frames: seq<real>, i: nat, left: real,
                  open: seq<Piece>, windows: seq<seq<Piece>>, open': seq<Piece>, pieces: seq<Piece>)
    requires s.block == s'.block && s.level == s'.level && s.peak == s'.peak && FrameMade(s', r, ratio, frames, i, left, open, windows, open', pieces)
    ensures FrameMade(s, r, ratio, frames, i, left, open, windows, open', pieces)
  {
    hide Kept, Sampled, Full, Gathered, AllOf, Metered, Means;
    MeteredSame(s, s', r.1, r.0, Means(windows, frames, ratio));
  }

  lemma NothingMade(s: State, ratio: real, frames: seq<real>, i: nat, left: real, open: seq<Piece>)
    requires ratio > 0.0 && 0.0 <= left <= EPS && Gathered(s, open, frames)
    ensures FrameMade(s, (s, [], 0), ratio, frames, i, left, open, [], open, [])
  {
    assert [] + open == open == open + [];
    assert Concat<Piece>([]) == [];
    assert s.block + [] == [] + s.block;
    MeteredNone(s, s);
    assert Means([], frames, ratio) == [];
    hide Metered;
  }

  lemma EmitEmpty(s: State, ratio: real, frames: seq<real>)
    requires ratio > 0.0
    ensures Gathered(Emit(s, ratio).0, [], frames)
  {
  }

  lemma OneMorePiece(s: State, r: (State, seq<Post>, nat), ratio: real, frames: seq<real>, p: Piece, left: real,
                     open: seq<Piece>, windows: seq<seq<Piece>>, open': seq<Piece>, pieces: seq<Piece>)
    requires p.take > 0.0 && FrameMade(s, r, ratio, frames, p.frame, left - p.take, open + [p], windows, open', pieces)
    ensures FrameMade(s, r, ratio, frames, p.frame, left, open, windows, open', [p] + pieces)
  {
    AllOfFirst(p, pieces, left);
    hide Kept, Sampled, Full, Gathered, AllOf, Concat, Metered, Means;
    assert (open + [p]) + pieces == open + ([p] + pieces);
  }

  /** The window that is complete, in front of what the rest of the frame makes. */
  lemma EmitMade(s: State, ratio: real, frames: seq<real>, p: Piece, left: real, open: seq<Piece>, r: (State, seq<Post>, nat),
                 windows: seq<seq<Piece>>, open': seq<Piece>, pieces: seq<Piece>)
    requires ratio > 0.0 && |s.block| < BLOCK && s.level < LEVEL && p.take > 0.0
    requires Gathered(s, open + [p], frames) && ratio - EPS <= s.weight <= ratio
    requires FrameMade(Emit(s, ratio).0, r, ratio, frames, p.frame, left - p.take, [], windows, open', pieces)
    ensures FrameMade(s, (r.0, Emit(s, ratio).1 + r.1, r.2 + 1), ratio, frames, p.frame, left, open,
                      [open + [p]] + windows, open', [p] + pieces)
  {
    var w, e := open + [p], Emit(s, ratio);
    EmitKeeps(s, ratio);
    assert Total(w) == s.weight && Weighed(w, frames) == s.sum;
    assert Sampled([w] + windows, frames, ratio) == [Quantize(Clamp(s.sum / ratio))] + Sampled(windows, frames, ratio);
    KeptMore(s.block, e.1, e.0.block, [Quantize(Clamp(s.sum / ratio))], r.1, r.0.block, Sampled(windows, frames, ratio));
    EmitMetered(s, ratio);
    assert Means([w] + windows, frames, ratio) == [Clamp(s.sum / ratio)] + Means(windows, frames, ratio);
    MeteredMore(s, e.1, e.0, [Clamp(s.sum / ratio)], r.1, r.0, Means(windows, frames, ratio));
    ConcatFirst(w, windows);
    AllOfFirst(p, pieces, left);
    hide Kept, Sampled, Gathered, AllOf, Concat, Emit, Total, Metered, Means;
    assert w + Concat(windows) + open' == w + (Concat(windows) + open') == w + ([] + pieces) == open + ([p] + pieces);
  }

  /** What a run of frames has made. */
  ghost predicate RunMade(r: (State, seq<Post>, nat), ratio: real, frames: seq<real>, n: nat, windows: seq<seq<Piece>>, open: seq<Piece>) {
    && ratio > 0.0 && |windows| == r.2 && Full(windows, ratio)
    && Kept([], r.1, r.0.block, Sampled(windows, frames, ratio))
    && Metered(START, r.1, r.0, Means(windows, frames, ratio))
    && Gathered(r.0, open, frames)
    && Covers(Concat(windows) + open, n)
  }

  /**
   Every sample is the mean of its window: the windows cut the input into
   consecutive pieces that leave out at most EPS of a frame, each window weighs
   the ratio up to EPS, and the full blocks and the open one hold the samples
   of exactly these windows, in order.
   */
  lemma SamplesAreMeans(ratio: real, frames: seq<real>) returns (windows: seq<seq<Piece>>, open: seq<Piece>)
    requires ratio > EPS
    ensures RunMade(Run(START, ratio, frames), ratio, frames, |frames|, windows, open)
  {
    windows, open := PrefixMade(ratio, frames, frames);
  }

  lemma {:induction false} PrefixMade(ratio: real, frames: seq<real>, done: seq<real>)
    returns (windows: seq<seq<Piece>>, open: seq<Piece>)
    requires ratio > EPS && done <= frames
    ensures RunMade(Run(START, ratio, done), ratio, frames, |done|, windows, open)
    decreases |done|
  {
    assert Ready(START, ratio);
    hide *;
    if done == [] {
      windows, open := [], [];
      RunNone(START, ratio);
      NothingRun(ratio, frames);
    } else {
      var init, value := done[..|done| - 1], done[|done| - 1];
      assert done == init + [value];
      var before, gathered := PrefixMade(ratio, frames, init);
      windows, open := NextMade(ratio, frames, init, value, before, gathered);
    }
  }

  lemma NextMade(ratio: real, frames: seq<real>, done: seq<real>, value: real, before: seq<seq<Piece>>, gathered: seq<Piece>)
    returns (windows: seq<seq<Piece>>, open: seq<Piece>)
    requires ratio > EPS && done + [value] <= frames && Ready(START, ratio)
    requires RunMade(Run(START, ratio, done), ratio, frames, |done|, before, gathered)
    ensures RunMade(Run(START, ratio, done + [value]), ratio, frames, |done| + 1, windows, open)
  {
    hide *;
    var n := |done|;
    assert value == frames[n] by { assert (done + [value])[n] == value; }
    RunNext(START, ratio, done, value);
    var a := Run(START, ratio, done);
    GatheredOf(a, ratio, frames, n, before, gathered);
    var more, pieces;
    more, open, pieces := FrameWindows(a.0, ratio, frames, n, 1.0, gathered);
    windows := before + more;
    RunMore(a, Frame(a.0, ratio, value, 1.0), ratio, frames, n, before, gathered, more, open, pieces);
  }

  lemma NothingRun(ratio: real, frames: seq<real>)
    requires ratio > EPS
    ensures RunMade((START, [], 0), ratio, frames, 0, [], [])
  {
    MeteredNone(START, START);
    assert Means([], frames, ratio) == [];
    hide Metered;
    assert Concat<Piece>([]) == [];
  }

  lemma GatheredOf(r: (State, seq<Post>, nat), ratio: real, frames: seq<real>, n: nat, windows: seq<seq<Piece>>, open: seq<Piece>)
    requires RunMade(r, ratio, frames, n, windows, open)
    ensures Gathered(r.0, open, frames)
  {
  }

  lemma RunMore(a: (State, seq<Post>, nat), b: (State, seq<Post>, nat), ratio: real, frames: seq<real>, n: nat,
                before: seq<seq<Piece>>, gathered: seq<Piece>, more: seq<seq<Piece>>, open: seq<Piece>, pieces: seq<Piece>)
    requires RunMade(a, ratio, frames, n, before, gathered)
    requires FrameMade(a.0, b, ratio, frames, n, 1.0, gathered, more, open, pieces)
    ensures RunMade((b.0, a.1 + b.1, a.2 + b.2), ratio, frames, n + 1, before + more, open)
  {
    hide Sampled, Gathered, AllOf, Total, Covers, Metered, Means, Kept, Concat;
    SampledTwo(before, more, frames, ratio);
    MeteredMore(START, a.1, a.0, Means(before, frames, ratio), b.1, b.0, Means(more, frames, ratio));
    KeptMore([], a.1, a.0.block, Sampled(before, frames, ratio), b.1, b.0.block, Sampled(more, frames, ratio));
    ConcatTwo(before, more);
    var old', all := Concat(before) + gathered, Concat(before + more) + open;
    assert all == Concat(before) + (Concat(more) + open) == Concat(before) + (gathered + pieces) == old' + pieces;
    CoversMore(old', pieces, n);
  }

  lemma SampledTwo(a: seq<seq<Piece>>, b: seq<seq<Piece>>, frames: seq<real>, ratio: real)
    requires ratio > 0.0
    ensures Sampled(a + b, frames, ratio) == Sampled(a, frames, ratio) + Sampled(b, frames, ratio)
    ensures Means(a + b, frames, ratio) == Means(a, frames, ratio) + Means(b, frames, ratio)
  {
    hide Sample, Mean;
  }

  /**
   Every level post is the largest magnitude among its 800 samples: the means
   of the windows fall into groups of 800, one for each post in order, and
   fewer than 800 that are pending.
   */
  lemma LevelsArePeaks(r: (State, seq<Post>, nat), ratio: real, frames: seq<real>, windows: seq<seq<Piece>>, open: seq<Piece>)
    returns (groups: seq<seq<real>>, pending: seq<real>)
    requires RunMade(r, ratio, frames, |frames|, windows, open) && r.0.level < LEVEL
    ensures Concat(groups) + pending == Means(windows, frames, ratio) && |pending| < LEVEL && |groups| == |Levels(r.1)|
    ensures forall k | 0 <= k < |groups| :: |groups[k]| == LEVEL && IsPeak(Levels(r.1)[k], groups[k])
  {
    hide IsPeak, Concat, Means, Levels, Kept, Gathered, Covers, Full;
    assert Pending(START, []) by {
      NoPeak();
    }
    pending, groups :| Pending(r.0, pending) && Grouped([], r.1, pending, Means(windows, frames, ratio), groups);
    assert [] + Means(windows, frames, ratio) == Means(windows, frames, ratio);
  }

  lemma NoPeak()
    ensures IsPeak(0.0, [])
  {
  }

  lemma CoversMore(pieces: seq<Piece>, more: seq<Piece>, n: nat)
    requires Covers(pieces, n) && AllOf(more, n, 1.0)
    ensures Covers(pieces + more, n + 1)
  {
    var all := pieces + more;
    hide AllOf;
    assert all[..|pieces|] == pieces && all[|pieces|..] == more;
  }

  lemma {:induction false} CoversFrames(pieces: seq<Piece>, n: nat, p: Piece)
    requires Covers(pieces, n) && p in pieces
    ensures p.frame < n
    decreases n
  {
    if n > 0 {
      var k :| 0 <= k <= |pieces| && Covers(pieces[..k], n - 1) && AllOf(pieces[k..], n - 1, 1.0);
      if p !in pieces[k..] {
        CoversFrames(pieces[..k], n - 1, p);
      }
    }
  }

  /** The sample of the window is c, scaled by a share between 1 - EPS / ratio and 1. */
  ghost predicate NearConstant(w: seq<Piece>, frames: seq<real>, ratio: real, c: real)
    requires ratio > 0.0
  {
    1.0 - EPS / ratio <= Total(w) / ratio <= 1.0 && Sample(w, frames, ratio) == Quantize(Clamp(c * (Total(w) / ratio)))
  }

  /** A constant input gives that constant in every sample, but for a share of EPS in the ratio. */
  lemma ConstantInput(ratio: real, frames: seq<real>, c: real) returns (windows: seq<seq<Piece>>, open: seq<Piece>)
    requires ratio > EPS && forall x | x in frames :: x == c
    ensures RunMade(Run(START, ratio, frames), ratio, frames, |frames|, windows, open)
    ensures forall w | w in windows :: NearConstant(w, frames, ratio, c)
  {
    hide Run, RunMade, Quantize, Clamp, Weighed, Total;
    windows, open := SamplesAreMeans(ratio, frames);
    forall w | w in windows ensures NearConstant(w, frames, ratio, c) {
      WindowFull(Run(START, ratio, frames), ratio, frames, |frames|, windows, open, w);
      ConstantStays(w, frames, ratio, c);
      assert Sample(w, frames, ratio) == Quantize(Clamp(c * (Total(w) / ratio)));
    }
  }

  /** A completed window weighs the ratio and consists of pieces of the run's frames. */
  lemma WindowFull(r: (State, seq<Post>, nat), ratio: real, frames: seq<real>, n: nat, windows: seq<seq<Piece>>, open: seq<Piece>,
                   w: seq<Piece>)
    requires RunMade(r, ratio, frames, n, windows, open) && w in windows
    ensures ratio - EPS <= Total(w) <= ratio && forall p | p in w :: p.frame < n
  {
    hide Kept, Sampled, Gathered, Covers, Total;
    forall p | p in w ensures p.frame < n {
      ConcatHas(windows, w, p);
      CoversFrames(Concat(windows) + open, n, p);
    }
  }

  lemma ConstantStays(w: seq<Piece>, frames: seq<real>, ratio: real, c: real)
    requires ratio > EPS && ratio - EPS <= Total(w) <= ratio
    requires (forall p | p in w :: p.frame < |frames|) && forall x | x in frames :: x == c
    ensures Weighed(w, frames) / ratio == c * (Total(w) / ratio) && 1.0 - EPS / ratio <= Total(w) / ratio <= 1.0
  {
    ConstantSum(w, frames, c);
    hide *;
    Shares(Total(w), ratio, c);
  }

  lemma Shares(t: real, ratio: real, c: real)
    requires ratio > EPS && ratio - EPS <= t <= ratio
    ensures (c * t) / ratio == c * (t / ratio) && 1.0 - EPS / ratio <= t / ratio <= 1.0
  {
    var share, slack := t / ratio, EPS / ratio;
    assert share * ratio == t && slack * ratio == EPS;
    assert (c * t) / ratio == c * share;
    NotNegative(1.0 - share, ratio, ratio - t);
    NotNegative(share - 1.0 + slack, ratio, t - ratio + EPS);
  }

  lemma NotNegative(x: real, ratio: real, y: real)
    requires ratio > 0.0 && y >= 0.0 && x * ratio == y
    ensures x >= 0.0
  {
  }

  lemma {:induction false} ConstantSum(w: seq<Piece>, frames: seq<real>, c: real)
    requires (forall p | p in w :: p.frame < |frames|) && forall x | x in frames :: x == c
    ensures Weighed(w, frames) == c * Total(w)
  {
    if w != [] {
      var init, last := w[..|w| - 1], w[|w| - 1];
      ConstantSum(init, frames, c);
      assert last in w && frames[last.frame] in frames;
    }
  }

  // The processor

  function Sum(xs: seq<real>): real {
    if xs == [] then 0.0 else Sum(xs[..|xs| - 1]) + xs[|xs| - 1]
  }

  function Column(channels: seq<seq<real>>, i: nat): seq<real>
    requires forall c | 0 <= c < |channels| :: i < |channels[c]|
  {
    seq(|channels|, c requires 0 <= c < |channels| => channels[c][i])
  }

  /** The frames of one call: the mean over the channels. */
  function Frames(channels: seq<seq<real>>): (r: seq<real>)
    requires channels != [] && forall c | 0 <= c < |channels| :: |channels[c]| == |channels[0]|
    ensures |r| == |channels[0]|
  {
    seq(|channels[0]|, i requires 0 <= i < |channels[0]| => Sum(Column(channels, i)) / |channels| as real)
  }

  /** What one turn leaves of the frame and adds to the posts, taken together, is unchanged. */
  lemma Advanced(s: State, ratio: real, value: real, left: real, s': State, was: seq<Post>, posted: seq<Post>)
    requires Ready(s, ratio) && EPS < left <= 1.0
    requires var next := Fill(s, value, Take(left, ratio - s.weight));
             if next.weight >= ratio - EPS
             then ratio > 0.0 && s' == Emit(next, ratio).0 && posted == was + Emit(next, ratio).1
             else s' == next && posted == was
    ensures var rest := left - Take(left, ratio - s.weight);
            && 0.0 <= rest <= left && Turns(rest) < Turns(left) && Ready(s', ratio)
            && Frame(s, ratio, value, left).0 == Frame(s', ratio, value, rest).0
            && was + Frame(s, ratio, value, left).1 == posted + Frame(s', ratio, value, rest).1
  {
    var take := Take(left, ratio - s.weight);
    assert 0.0 <= take;
    FrameTurn(s, ratio, value, left);
    hide *;
    var next := Fill(s, value, take);
  }

  class Processor {
    const ratio: real
    var weight: real
    var sum: real
    var buffer: array<int>
    var count: nat
    var stopped: bool
    var peak: real
    var levelSamples: nat
    var posted: seq<Post>

    ghost predicate Valid()
      reads this, buffer
    {
      && ratio > EPS && buffer.Length == BLOCK && count < BLOCK
      && Ready(Now(), ratio)
    }

    ghost function Now(): State
      reads this, buffer
    {
      State(weight, sum, if count <= buffer.Length then buffer[..count] else [], peak, levelSamples)
    }

    constructor (ratio: real)
      requires ratio > EPS
      ensures Valid() && Now() == START && !stopped && posted == [] && this.ratio == ratio && fresh(buffer)
    {
      this.ratio := ratio;
      weight, sum, count, stopped, peak, levelSamples, posted := 0.0, 0.0, 0, false, 0.0, 0, [];
      buffer := new int[BLOCK];
    }

    /** The sample, the level meter, and the hand-over of a full buffer. */
    method EmitSample()
      requires ratio > 0.0 && buffer.Length == BLOCK && count < BLOCK && levelSamples < LEVEL
      modifies this, buffer
      ensures buffer.Length == BLOCK && count < BLOCK && (fresh(buffer) || buffer == old(buffer)) && stopped == old(stopped)
      ensures var e := Emit(old(Now()), ratio); Now() == e.0 && posted == old(posted) + e.1
    {
      ghost var before, was := Now(), posted;
      var sample := Clamp(sum / ratio);
      peak := if peak > Abs(sample) then peak else Abs(sample);
      levelSamples := levelSamples + 1;
      hide Clamp, Abs;
      ghost var level: seq<Post> := [];
      if levelSamples >= LEVEL {
        level := [Level(peak)];
        posted := posted + [Level(peak)];
        peak, levelSamples := 0.0, 0;
      }
      AppendSample(Quantize(sample));
      hide Quantize;
      weight, sum := 0.0, 0.0;
      assert posted == was + (level + posted[|was| + |level|..]);
    }

    /** One sample into the buffer; a full buffer is handed over. */
    method AppendSample(q: int)
      requires buffer.Length == BLOCK && count < BLOCK
      modifies `buffer, `count, `posted, buffer
      ensures buffer.Length == BLOCK && count < BLOCK && (fresh(buffer) || buffer == old(buffer))
      ensures var block := old(buffer[..count]) + [q];
              && buffer[..count] == (if |block| == BLOCK then [] else block)
              && posted == old(posted) + if |block| == BLOCK then [Block(block)] else []
    {
      ghost var block := buffer[..count];
      buffer[count] := q;
      count := count + 1;
      assert buffer[..count] == block + [q];
      if count == BLOCK {
        assert buffer[..] == buffer[..count];
        posted := posted + [Block(buffer[..])];
        buffer, count := new int[BLOCK], 0;
      }
    }

    /** Fill the sample, and emit it when it is complete. */
    method Advance(value: real, take: real)
      requires Valid()
      modifies this, buffer
      ensures buffer.Length == BLOCK && count < BLOCK && (fresh(buffer) || buffer == old(buffer)) && stopped == old(stopped)
      ensures var next := Fill(old(Now()), value, take);
              if next.weight >= ratio - EPS
              then Now() == Emit(next, ratio).0 && posted == old(posted) + Emit(next, ratio).1
              else Now() == next && posted == old(posted)
    {
      assert levelSamples < LEVEL;
      hide Emit;
      sum, weight := sum + value * take, weight + take;
      if weight >= ratio - EPS {
        EmitSample();
      }
    }

    /** One turn of the inner loop. */
    method Turn(value: real, left: real) returns (rest: real)
      requires Valid() && EPS < left <= 1.0
      modifies this, buffer
      ensures Valid() && (fresh(buffer) || buffer == old(buffer)) && stopped == old(stopped)
      ensures 0.0 <= rest && Turns(rest) < Turns(left) && rest <= left
      ensures Frame(old(Now()), ratio, value, left).0 == Frame(Now(), ratio, value, rest).0
      ensures old(posted) + Frame(old(Now()), ratio, value, left).1 == posted + Frame(Now(), ratio, value, rest).1
    {
      var take := Take(left, ratio - weight);
      rest := left - take;
      ghost var before, was := Now(), posted;
      assert before.weight == weight && Ready(before, ratio) && ratio > EPS;
      hide *;
      Advance(value, take);
      Advanced(before, ratio, value, left, Now(), was, posted);
      assert Valid() by { MakeValid(); }
    }

    lemma MakeValid()
      requires ratio > EPS && buffer.Length == BLOCK && count < BLOCK && Ready(Now(), ratio)
      ensures Valid()
    {
    }

    /** The inner loop for one frame. */
    method PushFrame(value: real)
      requires Valid()
      modifies this, buffer
      ensures Valid() && (fresh(buffer) || buffer == old(buffer)) && stopped == old(stopped)
      ensures var r := Frame(old(Now()), ratio, value, 1.0); Now() == r.0 && posted == old(posted) + r.1
    {
      hide Frame, Emit, Ready, Run, Frames, Fill, Turns, Now;
      var left := 1.0;
      while left > EPS
        invariant 0.0 <= left <= 1.0 && Valid() && (fresh(buffer) || buffer == old(buffer)) && stopped == old(stopped)
        invariant Frame(Now(), ratio, value, left).0 == Frame(old(Now()), ratio, value, 1.0).0
        invariant posted + Frame(Now(), ratio, value, left).1 == old(posted) + Frame(old(Now()), ratio, value, 1.0).1
        decreases Turns(left)
      {
        left := Turn(value, left);
      }
      FrameDone(Now(), ratio, value, left);
      assert posted + [] == posted;
    }

    /** One call with the channels of the first input, none when the input is unconnected. */
    method Process(channels: seq<seq<real>>) returns (alive: bool)
      requires Valid() && forall c | 0 <= c < |channels| :: |channels[c]| == |channels[0]|
      modifies this, buffer
      ensures Valid() && stopped == old(stopped) && alive == !stopped
      ensures old(stopped) || channels == [] ==> Now() == old(Now()) && posted == old(posted)
      ensures !old(stopped) && channels != [] ==>
                var r := Run(old(Now()), ratio, Frames(channels)); Now() == r.0 && posted == old(posted) + r.1
    {
      if stopped {
        return false;
      }
      if |channels| == 0 {
        return true;
      }
      PushFrames(channels);
      alive := true;
    }

    /** The outer loop: every frame of the call. */
    method PushFrames(channels: seq<seq<real>>)
      requires Valid() && channels != [] && forall c | 0 <= c < |channels| :: |channels[c]| == |channels[0]|
      modifies this, buffer
      ensures Valid() && stopped == old(stopped)
      ensures var r := Run(old(Now()), ratio, Frames(channels)); Now() == r.0 && posted == old(posted) + r.1
    {
      hide Frame, Emit, Ready, Run, Frames, Fill, Turns, Now;
      ghost var frames := Frames(channels);
      RunNone(Now(), ratio);
      assert posted + [] == posted && frames[..0] == [];
      for i := 0 to |channels[0]|
        invariant Valid() && stopped == old(stopped) && (fresh(buffer) || buffer == old(buffer))
        invariant Now() == Run(old(Now()), ratio, frames[..i]).0
        invariant posted == old(posted) + Run(old(Now()), ratio, frames[..i]).1
      {
        var value := MeanAt(channels, i);
        assert frames[..i + 1] == frames[..i] + [frames[i]];
        RunNext(old(Now()), ratio, frames[..i], value);
        ghost var now, was, made := Now(), posted, Run(old(Now()), ratio, frames[..i]).1;
        PushFrame(value);
        assert (old(posted) + made) + Frame(now, ratio, value, 1.0).1 == old(posted) + (made + Frame(now, ratio, value, 1.0).1);
      }
      assert frames[..|channels[0]|] == frames;
    }

    /** The stop message: the open block goes out short, then the confirmation. */
    method Stop()
      requires Valid()
      modifies this
      ensures Valid() && stopped && Now() == old(Now())
      ensures posted == old(posted) + (if old(Now()).block != [] then [Block(old(Now()).block)] else []) + [Stopped]
    {
      stopped := true;
      if count > 0 {
        posted := posted + [Block(buffer[..count])];
      }
      posted := posted + [Stopped];
    }
  }

  /** The mean of one frame over the channels, accumulated term by term. */
  method MeanAt(channels: seq<seq<real>>, i: nat) returns (value: real)
    requires channels != [] && forall c | 0 <= c < |channels| :: |channels[c]| == |channels[0]|
    requires i < |channels[0]|
    ensures value == Frames(channels)[i]
  {
    value := 0.0;
    var n := |channels| as real;
    ghost var column := Column(channels, i);
    for c := 0 to |channels|
      invariant value * n == Sum(column[..c])
    {
      assert column[..c + 1][..c] == column[..c];
      Share(value, channels[c][i], n);
      value := value + channels[c][i] / n;
    }
    assert column[..|channels|] == column;
  }

  lemma Share(value: real, x: real, n: real)
    requires n > 0.0
    ensures (value + x / n) * n == value * n + x
  {
    var q := x / n;
    assert q * n == x;
  }
}
