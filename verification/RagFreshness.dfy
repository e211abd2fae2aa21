/**
 The score bar and recency. A chunk without a keyword match is documented to
 be measured without its recency, so that it cannot pass on freshness alone
 (rag/index.go:143-147). The code subtracts the recency term from a score that
 was already multiplied by the kind factor; this module says what that does.
 */
module RagFreshness {
  import opened Bm25
  import opened RagContent
  import opened RagSearch
  import opened RagTypes
  import opened Reals
  import Bm25Scores

  /** The same search in which nothing is fresh. */
  function Timeless(c: Context): Context {
    c.(recency := _ => 0.0)
  }

  /** A candidate that would be none if it were not fresh. */
  ghost predicate OnFreshnessAlone(c: Context, key: Key, e: ChunkEntry, doc: Doc) {
    Evaluate(c, key, e, doc).Some? && Evaluate(Timeless(c), key, e, doc).None?
  }

  /** The opposite: a chunk that would be a candidate if it were not fresh. */
  ghost predicate DroppedForFreshness(c: Context, key: Key, e: ChunkEntry, doc: Doc) {
    Evaluate(c, key, e, doc).None? && Evaluate(Timeless(c), key, e, doc).Some?
  }

  /** The filters before the score bar let the chunk through. */
  predicate Considered(c: Context, key: Key, e: ChunkEntry, doc: Doc) {
    c.query.filter(doc) && !(c.embedder && Similarity(c, e) < c.query.minVector && RawKeyword(c, key) <= 0.0)
  }

  /** The score of the vector signal by itself. */
  function Stripped(c: Context, e: ChunkEntry): real {
    BlendWeights(c.ranking, c.embedder).vector * ((Similarity(c, e) + 1.0) / 2.0) * KindFactor(c.ranking, e.kind)
  }

  /** What is left of recency in the number that is held against the bar. */
  function Residue(c: Context, e: ChunkEntry): real {
    BlendWeights(c.ranking, c.embedder).recency * c.recency(e.time) * (KindFactor(c.ranking, e.kind) - 1.0)
  }

  lemma Measured(c: Context, e: ChunkEntry)
    ensures var w, vec, kind := BlendWeights(c.ranking, c.embedder), (Similarity(c, e) + 1.0) / 2.0, KindFactor(c.ranking, e.kind);
            && Threshold(w, vec, 0.0, c.recency(e.time), kind) == Stripped(c, e) + Residue(c, e)
            && Threshold(w, vec, 0.0, 0.0, kind) == Stripped(c, e)
  {
    var w, vec, kind := BlendWeights(c.ranking, c.embedder), (Similarity(c, e) + 1.0) / 2.0, KindFactor(c.ranking, e.kind);
    hide BlendWeights, KindFactor, Similarity;
    var x, y := w.vector * vec, w.recency * c.recency(e.time);
    assert w.keyword * 0.0 == 0.0 && w.recency * 0.0 == 0.0;
    assert (x + 0.0 + y) * kind == x * kind + y * kind;
  }

  /** For any chunk without a keyword match: recency decides exactly where the residue crosses the bar. */
  lemma FreshnessDecides(c: Context, key: Key, e: ChunkEntry, doc: Doc)
    requires key !in c.keywords
    ensures Evaluate(c, key, e, doc).Some? <==> Considered(c, key, e, doc) && c.query.MinScore() <= Stripped(c, e) + Residue(c, e)
    ensures OnFreshnessAlone(c, key, e, doc) <==>
            Considered(c, key, e, doc) && Stripped(c, e) < c.query.MinScore() <= Stripped(c, e) + Residue(c, e)
    ensures DroppedForFreshness(c, key, e, doc) <==>
            Considered(c, key, e, doc) && Stripped(c, e) + Residue(c, e) < c.query.MinScore() <= Stripped(c, e)
  {
    assert Similarity(Timeless(c), e) == Similarity(c, e);
    hide Threshold, BlendWeights, KindFactor, Blend, Similarity, Stripped, Residue;
    Measured(c, e);
  }

  lemma ProductSign(x: real, y: real)
    requires x >= 0.0
    ensures y <= 0.0 ==> x * y <= 0.0
    ensures y >= 0.0 ==> x * y >= 0.0
  {
  }

  /** The documented promise holds for every kind factor up to 1; above 1 nothing is dropped for being fresh. */
  lemma FactorDecides(c: Context, key: Key, e: ChunkEntry, doc: Doc)
    requires key !in c.keywords && BlendWeights(c.ranking, c.embedder).recency * c.recency(e.time) >= 0.0
    ensures KindFactor(c.ranking, e.kind) <= 1.0 ==> !OnFreshnessAlone(c, key, e, doc)
    ensures KindFactor(c.ranking, e.kind) >= 1.0 ==> !DroppedForFreshness(c, key, e, doc)
  {
    hide Evaluate, OnFreshnessAlone, DroppedForFreshness, BlendWeights, KindFactor, Considered, Stripped;
    FreshnessDecides(c, key, e, doc);
    ProductSign(BlendWeights(c.ranking, c.embedder).recency * c.recency(e.time), KindFactor(c.ranking, e.kind) - 1.0);
  }

  /** Without an embedder a chunk that matches no keyword has nothing but recency, and passes when its residue reaches the bar. */
  lemma NothingButRecency(c: Context, key: Key, e: ChunkEntry, doc: Doc)
    requires key !in c.keywords && !c.embedder && c.query.MinScore() > 0.0
    ensures Evaluate(c, key, e, doc).Some? <==> c.query.filter(doc) && Residue(c, e) >= c.query.MinScore()
    ensures Evaluate(c, key, e, doc).Some? <==> OnFreshnessAlone(c, key, e, doc)
  {
    FreshnessDecides(c, key, e, doc);
    assert BlendWeights(c.ranking, c.embedder).vector == 0.0;
    hide OnFreshnessAlone, Evaluate;
  }

  // Which configurations keep the promise

  /** Signals the index produces: recency and similarity of unit vectors. */
  predicate InRange(c: Context, e: ChunkEntry) {
    0.0 <= c.recency(e.time) <= 1.0 && -1.0 <= Similarity(c, e) <= 1.0
  }

  ghost predicate BarHolds(r: Ranking, embedder: bool, minScore: real, minVector: real) {
    forall c: Context, key: Key, e: ChunkEntry, doc: Doc {:trigger OnFreshnessAlone(c, key, e, doc)}
      | c.ranking == r && c.embedder == embedder && c.query.MinScore() == minScore && c.query.minVector == minVector
        && InRange(c, e) && key !in c.keywords ::
      !OnFreshnessAlone(c, key, e, doc)
  }

  /** The lowest score of the vector signal that the minimal similarity lets through. */
  function Lowest(w: Weights, minVector: real, kind: real): real {
    w.vector * (if minVector > -1.0 then (minVector + 1.0) / 2.0 else 0.0) * kind
  }

  /** The highest score of the vector signal. */
  function Highest(w: Weights, kind: real): real {
    w.vector * kind
  }

  /** The residue of a chunk dated now. */
  function Rise(w: Weights, kind: real): real {
    w.recency * (kind - 1.0)
  }

  /** For chunks of a kind with this factor. */
  predicate Safe(w: Weights, embedder: bool, minScore: real, minVector: real, kind: real) {
    || Rise(w, kind) <= 0.0
    || minScore <= Lowest(w, minVector, kind)
    || Highest(w, kind) + Rise(w, kind) < minScore
    || (embedder && minVector > 1.0)
  }

  /**
   The documented promise holds for every chunk of every index if and only if
   no configured kind has a factor above 1 that lifts a full recency over the bar.
   */
  lemma BarExact(r: Ranking, embedder: bool, minScore: real, minVector: real)
    requires var w := BlendWeights(r, embedder); w.vector >= 0.0 && w.recency >= 0.0
    requires forall kind | kind in r.kindWeight :: r.kindWeight[kind] >= 0.0
    requires minScore != 0.0
    ensures BarHolds(r, embedder, minScore, minVector) <==>
            forall kind | kind in r.kindWeight && kind != "" ::
              Safe(BlendWeights(r, embedder), embedder, minScore, minVector, r.kindWeight[kind])
  {
    var w := BlendWeights(r, embedder);
    if forall kind | kind in r.kindWeight && kind != "" :: Safe(w, embedder, minScore, minVector, r.kindWeight[kind]) {
      forall c: Context, key: Key, e: ChunkEntry, doc: Doc | c.ranking == r && c.embedder == embedder && c.query.MinScore() == minScore
                              && c.query.minVector == minVector && InRange(c, e) && key !in c.keywords
        ensures !OnFreshnessAlone(c, key, e, doc)
      {
        hide OnFreshnessAlone, BlendWeights, InRange, Safe, Keyword;
        SafeHolds(c, key, e, doc);
      }
    }
    if kind :| kind in r.kindWeight && kind != "" && !Safe(w, embedder, minScore, minVector, r.kindWeight[kind]) {
      var c, e := Unsafe(r, embedder, minScore, minVector, kind);
    }
  }

  lemma SafeHolds(c: Context, key: Key, e: ChunkEntry, doc: Doc)
    requires var w := BlendWeights(c.ranking, c.embedder); w.vector >= 0.0 && w.recency >= 0.0
    requires InRange(c, e) && key !in c.keywords && KindFactor(c.ranking, e.kind) >= 0.0
    requires var kind := KindFactor(c.ranking, e.kind);
             kind == 1.0 || Safe(BlendWeights(c.ranking, c.embedder), c.embedder, c.query.MinScore(), c.query.minVector, kind)
    ensures !OnFreshnessAlone(c, key, e, doc)
  {
    var w, kind := BlendWeights(c.ranking, c.embedder), KindFactor(c.ranking, e.kind);
    assert RawKeyword(c, key) == 0.0;
    hide OnFreshnessAlone, Evaluate, BlendWeights, KindFactor, Stripped, Residue, Lowest, Highest, Rise, Keyword, RawKeyword, InRange, Similarity;
    FreshnessDecides(c, key, e, doc);
    if Considered(c, key, e, doc) {
      assert c.embedder ==> c.query.minVector <= 1.0 by { assert InRange(c, e) ==> Similarity(c, e) <= 1.0; }
      ResidueBound(c, e, w, kind);
      VectorBounds(c, e, w, kind);
      hide Considered;
      NoCrossing(Stripped(c, e), Residue(c, e), Highest(w, kind), Lowest(w, c.query.minVector, kind), Rise(w, kind), c.query.MinScore());
    }
  }

  lemma NoCrossing(stripped: real, residue: real, top: real, low: real, rise: real, min: real)
    requires low <= stripped <= top && (if rise <= 0.0 then residue <= 0.0 else residue <= rise)
    requires rise <= 0.0 || min <= low || top + rise < min
    ensures !(stripped < min <= stripped + residue)
  {
  }

  /** The residue lies below what the configuration allows. */
  lemma ResidueBound(c: Context, e: ChunkEntry, w: Weights, kind: real)
    requires w == BlendWeights(c.ranking, c.embedder) && kind == KindFactor(c.ranking, e.kind)
    requires w.recency >= 0.0 && InRange(c, e)
    ensures if Rise(w, kind) <= 0.0 then Residue(c, e) <= 0.0 else Residue(c, e) <= Rise(w, kind)
  {
    var rec, rise := c.recency(e.time), Rise(w, kind);
    hide BlendWeights, KindFactor, Similarity;
    assert Residue(c, e) == rise * rec;
    hide *;
    if rise >= 0.0 {
      Monotone(rise, rec, 1.0);
    } else {
      ProductSign(rec, rise);
    }
  }

  /** The vector score lies between what the configuration allows. */
  lemma VectorBounds(c: Context, e: ChunkEntry, w: Weights, kind: real)
    requires w == BlendWeights(c.ranking, c.embedder) && kind == KindFactor(c.ranking, e.kind)
    requires w.vector >= 0.0 && kind >= 0.0 && InRange(c, e)
    requires c.embedder ==> c.query.minVector <= Similarity(c, e)
    ensures Lowest(w, c.query.minVector, kind) <= Stripped(c, e) <= Highest(w, kind)
  {
    assert c.embedder || w.vector == 0.0;
    var vec := (Similarity(c, e) + 1.0) / 2.0;
    var low := if c.query.minVector > -1.0 then (c.query.minVector + 1.0) / 2.0 else 0.0;
    hide BlendWeights, KindFactor, Similarity;
    assert 0.0 <= vec <= 1.0 && (c.embedder ==> low <= vec);
    assert Stripped(c, e) == kind * (w.vector * vec) && Lowest(w, c.query.minVector, kind) == kind * (w.vector * low);
    assert Highest(w, kind) == kind * w.vector;
    hide *;
    Monotone(w.vector, vec, 1.0);
    Monotone(kind, w.vector * vec, w.vector);
    if c.embedder {
      Monotone(w.vector, low, vec);
    } else {
      assert w.vector * low == 0.0 * low && w.vector * vec == 0.0 * vec;
    }
    Monotone(kind, w.vector * low, w.vector * vec);
  }

  lemma Monotone(x: real, y: real, z: real)
    requires x >= 0.0 && y <= z
    ensures x * y <= x * z
  {
    ProductSign(x, z - y);
  }

  lemma Unsafe(r: Ranking, embedder: bool, minScore: real, minVector: real, kind: string) returns (c: Context, e: ChunkEntry)
    requires var w := BlendWeights(r, embedder); w.vector >= 0.0 && w.recency >= 0.0
    requires kind in r.kindWeight && kind != "" && r.kindWeight[kind] >= 0.0 && minScore != 0.0
    requires !Safe(BlendWeights(r, embedder), embedder, minScore, minVector, r.kindWeight[kind])
    ensures c.ranking == r && c.embedder == embedder && c.query.MinScore() == minScore && c.query.minVector == minVector
    ensures InRange(c, e) && exists key, doc :: key !in c.keywords && OnFreshnessAlone(c, key, e, doc)
  {
    var w, factor := BlendWeights(r, embedder), r.kindWeight[kind];
    var vec := Position(w, embedder, minScore, minVector, factor);
    c := Context(r, embedder, Query(5, minScore, minVector, 2, 0, 0, _ => true, Bm25Scores.Any), [2.0 * vec - 1.0], 0.0, map[], _ => 1.0);
    e := ChunkEntry(Chunk("", 0, [], 0, 0), "", "", kind, 0, [1.0]);
    var key, doc := Key(""), Doc("", "", "", [], kind, 0, map[]);
    assert Dot(c.vector, e.vector) == 2.0 * vec - 1.0;
    assert Similarity(c, e) == if embedder then 2.0 * vec - 1.0 else 0.0;
    assert Stripped(c, e) == w.vector * vec * factor;
    FreshnessDecides(c, key, e, doc);
    assert OnFreshnessAlone(c, key, e, doc);
  }

  /** A place in the range of the vector signal from which a full recency crosses the bar. */
  lemma Position(w: Weights, embedder: bool, minScore: real, minVector: real, kind: real) returns (vec: real)
    requires w.vector >= 0.0 && w.recency >= 0.0 && kind >= 0.0 && (embedder || w.vector == 0.0)
    requires !Safe(w, embedder, minScore, minVector, kind)
    ensures 0.0 <= vec <= 1.0 && (embedder ==> minVector <= 2.0 * vec - 1.0)
    ensures w.vector * vec * kind < minScore <= w.vector * vec * kind + Rise(w, kind)
  {
    if !embedder {
      return 1.0;
    }
    var top, rise := w.vector * kind, w.recency * (kind - 1.0);
    var low := if minVector > -1.0 then (minVector + 1.0) / 2.0 else 0.0;
    assert Lowest(w, minVector, kind) == low * top;
    ProductSign(w.vector, kind);
    hide *;
    vec := Between(top, low, rise, minScore);
    assert w.vector * vec * kind == vec * top;
  }

  lemma Between(top: real, low: real, rise: real, min: real) returns (at: real)
    requires top >= 0.0 && 0.0 <= low <= 1.0 && low * top < min <= top + rise && rise > 0.0
    ensures low <= at <= 1.0 && at * top < min <= at * top + rise
  {
    if top < min {
      return 1.0;
    }
    ProductSign(low, top);
    var x := if low * top > min - rise then low * top else min - rise;
    at := x / top;
    assert at * top == x;
    Cancel(top, low, at);
    Cancel(top, at, 1.0);
  }

  lemma Cancel(x: real, y: real, z: real)
    requires x > 0.0 && y * x <= z * x
    ensures y <= z
  {
    assert (z * x - y * x) / x == z - y;
  }

  /** With default weights, no embedder and a kind factor of 3, a note dated now passes although it matches nothing. */
  lemma FreshnessAlonePasses() returns (c: Context, key: Key, e: ChunkEntry, doc: Doc)
    ensures c.ranking.vector == c.ranking.keyword == c.ranking.recency == 0.0 && c.query.minScore == 0.0 && !c.embedder
    ensures e.kind in c.ranking.kindWeight && key !in c.keywords && InRange(c, e)
    ensures OnFreshnessAlone(c, key, e, doc)
  {
    var example := Example("note");
    c, key, e, doc := example.0, example.1, example.2, example.3;
    assert KindFactor(c.ranking, e.kind) == 3.0;
    assert 0.2 + 0.1 == 0.3 && 0.1 / 0.3 * 2.0 >= 0.25;
    FreshnessDecides(c, key, e, doc);
  }

  /** With a factor of 0.9 a chunk whose vector alone passes is dropped because it is dated now. */
  lemma FreshnessDrops() returns (c: Context, key: Key, e: ChunkEntry, doc: Doc)
    ensures key !in c.keywords && InRange(c, e) && DroppedForFreshness(c, key, e, doc)
  {
    var example := Example("log");
    c, key, e, doc := example.0, example.1, example.2, example.3;
    c, e := c.(embedder := true, vector := [1.0]), e.(vector := [-0.2]);
    assert KindFactor(c.ranking, e.kind) == 0.9;
    assert Dot(c.vector, e.vector) == -0.2;
    FreshnessDecides(c, key, e, doc);
  }

  function Example(kind: string): (Context, Key, ChunkEntry, Doc) {
    (Context(Ranking(0.0, 0.0, 0.0, map["note" := 3.0, "log" := 0.9]), false,
             Query(0, 0.0, -1.0, 0, 0, 0, _ => true, Bm25Scores.Any), [], 0.0, map[], _ => 1.0),
     Key(""), ChunkEntry(Chunk("", 0, [], 0, 0), "", "", kind, 0, []), Doc("", "", "", [], kind, 0, map[]))
  }

  // The filter by similarity

  /** The same search with a minimal similarity that the chunk has. */
  function Unfiltered(c: Context, e: ChunkEntry): Context {
    c.(query := c.query.(minVector := Similarity(c, e)))
  }

  /** The filter alone costs the chunk its place: without it the chunk would be a candidate. */
  ghost predicate DroppedByFilter(c: Context, key: Key, e: ChunkEntry, doc: Doc) {
    Evaluate(c, key, e, doc).None? && Evaluate(Unfiltered(c, e), key, e, doc).Some?
  }

  /**
   MinVector zero is documented to disable the filter (rag/index.go:150-152).
   A chunk is dropped by it nevertheless if and only if it matches no keyword,
   its similarity is negative, and its signals reach the bar.
   */
  lemma MinVectorZeroFilters(c: Context, key: Key, e: ChunkEntry, doc: Doc)
    requires c.query.minVector == 0.0 && (key in c.keywords ==> c.keywords[key] > 0.0)
    ensures DroppedByFilter(c, key, e, doc) <==>
            && c.embedder && key !in c.keywords && Similarity(c, e) < 0.0
            && c.query.filter(doc) && c.query.MinScore() <= Stripped(c, e) + Residue(c, e)
    ensures Evaluate(c, key, e, doc).Some? ==> Evaluate(Unfiltered(c, e), key, e, doc).Some?
  {
    assert Similarity(Unfiltered(c, e), e) == Similarity(c, e);
    if key !in c.keywords {
      FreshnessDecides(c, key, e, doc);
      FreshnessDecides(Unfiltered(c, e), key, e, doc);
      SameSignals(c, e);
      hide Evaluate, Stripped, Residue, Similarity;
    } else {
      hide Threshold, BlendWeights, KindFactor, Similarity;
    }
  }

  lemma SameSignals(c: Context, e: ChunkEntry)
    ensures Stripped(Unfiltered(c, e), e) == Stripped(c, e) && Residue(Unfiltered(c, e), e) == Residue(c, e)
  {
    assert Similarity(Unfiltered(c, e), e) == Similarity(c, e);
    hide BlendWeights, KindFactor, Similarity;
  }

  /** Zero does disable the filter for every chunk without keyword match. */
  ghost predicate ZeroDisables(r: Ranking, embedder: bool, minScore: real) {
    forall c: Context, key: Key, e: ChunkEntry, doc: Doc {:trigger DroppedByFilter(c, key, e, doc)}
      | c.ranking == r && c.embedder == embedder && c.query.MinScore() == minScore && c.query.minVector == 0.0
        && InRange(c, e) && key !in c.keywords ::
      !DroppedByFilter(c, key, e, doc)
  }

  /** The most that recency can add for a kind with this factor. */
  function Lift(w: Weights, kind: real): real {
    if Rise(w, kind) > 0.0 then Rise(w, kind) else 0.0
  }

  /** Nothing below similarity zero reaches the bar. */
  predicate OutOfReach(w: Weights, minScore: real, kind: real) {
    if Highest(w, kind) > 0.0 then Highest(w, kind) / 2.0 + Lift(w, kind) <= minScore else Lift(w, kind) < minScore
  }

  /**
   A configuration keeps the documented promise about zero if and only if it
   has no embedder, or for factor 1 and every configured factor no chunk that
   is dissimilar to the query can reach the bar.
   */
  lemma ZeroExact(r: Ranking, embedder: bool, minScore: real)
    requires var w := BlendWeights(r, embedder); w.vector >= 0.0 && w.recency >= 0.0
    requires forall kind | kind in r.kindWeight :: r.kindWeight[kind] >= 0.0
    requires minScore != 0.0
    ensures ZeroDisables(r, embedder, minScore) <==>
            || !embedder
            || (OutOfReach(BlendWeights(r, embedder), minScore, 1.0)
                && forall kind | kind in r.kindWeight && kind != "" ::
                     OutOfReach(BlendWeights(r, embedder), minScore, r.kindWeight[kind]))
  {
    var w := BlendWeights(r, embedder);
    if !embedder || (OutOfReach(w, minScore, 1.0)
                     && forall kind | kind in r.kindWeight && kind != "" :: OutOfReach(w, minScore, r.kindWeight[kind])) {
      forall c: Context, key: Key, e: ChunkEntry, doc: Doc
        | c.ranking == r && c.embedder == embedder && c.query.MinScore() == minScore && c.query.minVector == 0.0
          && InRange(c, e) && key !in c.keywords
        ensures !DroppedByFilter(c, key, e, doc)
      {
        hide DroppedByFilter, BlendWeights, InRange, OutOfReach;
        OutOfReachHolds(c, key, e, doc);
      }
    } else {
      var kind :| (kind == "" || kind in r.kindWeight) && !OutOfReach(w, minScore, if kind == "" then 1.0 else r.kindWeight[kind]);
      hide DroppedByFilter, BlendWeights, InRange, OutOfReach;
      var c, key, e, doc := InReach(r, minScore, kind);
      assert !ZeroDisables(r, embedder, minScore);
    }
  }

  lemma OutOfReachHolds(c: Context, key: Key, e: ChunkEntry, doc: Doc)
    requires var w := BlendWeights(c.ranking, c.embedder); w.vector >= 0.0 && w.recency >= 0.0
    requires c.query.minVector == 0.0 && InRange(c, e) && key !in c.keywords && KindFactor(c.ranking, e.kind) >= 0.0
    requires !c.embedder
             || OutOfReach(BlendWeights(c.ranking, c.embedder), c.query.MinScore(), KindFactor(c.ranking, e.kind))
    ensures !DroppedByFilter(c, key, e, doc)
  {
    var w, kind := BlendWeights(c.ranking, c.embedder), KindFactor(c.ranking, e.kind);
    var vec := (Similarity(c, e) + 1.0) / 2.0;
    hide DroppedByFilter, BlendWeights, KindFactor, Stripped, Residue, Highest, Rise, InRange, Similarity;
    MinVectorZeroFilters(c, key, e, doc);
    StrippedIs(c, e);
    ResidueBound(c, e, w, kind);
    HighestSign(w, kind);
    if vec < 1.0 / 2.0 {
      Half(Highest(w, kind), vec);
    }
  }

  lemma StrippedIs(c: Context, e: ChunkEntry)
    ensures Stripped(c, e) ==
            Highest(BlendWeights(c.ranking, c.embedder), KindFactor(c.ranking, e.kind)) * ((Similarity(c, e) + 1.0) / 2.0)
  {
    hide BlendWeights, KindFactor, Similarity;
  }

  lemma HighestSign(w: Weights, kind: real)
    requires w.vector >= 0.0 && kind >= 0.0
    ensures Highest(w, kind) >= 0.0
  {
    ProductSign(w.vector, kind);
  }

  lemma Half(top: real, vec: real)
    requires top >= 0.0 && vec < 1.0 / 2.0
    ensures if top > 0.0 then top * vec < top / 2.0 else top * vec == 0.0
  {
    if top > 0.0 {
      assert top * (1.0 / 2.0 - vec) == top / 2.0 - top * vec;
      ProductSign(top, 1.0 / 2.0 - vec);
      assert top * (1.0 / 2.0 - vec) != 0.0;
    }
  }

  lemma InReach(r: Ranking, minScore: real, kind: string) returns (c: Context, key: Key, e: ChunkEntry, doc: Doc)
    requires var w := BlendWeights(r, true); w.vector >= 0.0 && w.recency >= 0.0
    requires (kind == "" || kind in r.kindWeight) && minScore != 0.0
    requires var factor := if kind == "" then 1.0 else r.kindWeight[kind];
             factor >= 0.0 && !OutOfReach(BlendWeights(r, true), minScore, factor)
    ensures c.ranking == r && c.embedder && c.query.MinScore() == minScore && c.query.minVector == 0.0
    ensures InRange(c, e) && key !in c.keywords && DroppedByFilter(c, key, e, doc)
  {
    var w, factor := BlendWeights(r, true), if kind == "" then 1.0 else r.kindWeight[kind];
    HighestSign(w, factor);
    var vec := BelowHalf(Highest(w, factor), Lift(w, factor), minScore);
    var rec := if Rise(w, factor) > 0.0 then 1.0 else 0.0;
    c := Context(r, true, Query(5, minScore, 0.0, 2, 0, 0, _ => true, Bm25Scores.Any), [2.0 * vec - 1.0], 0.0, map[], _ => rec);
    e := ChunkEntry(Chunk("", 0, [], 0, 0), "", "", kind, 0, [1.0]);
    key, doc := Key(""), Doc("", "", "", [], kind, 0, map[]);
    assert Similarity(c, e) == 2.0 * vec - 1.0 by { assert Dot(c.vector, e.vector) == 2.0 * vec - 1.0; }
    assert KindFactor(r, kind) == factor;
    hide Stripped, Residue, Similarity, BlendWeights, KindFactor, DroppedByFilter, Highest, Lift, Rise;
    StrippedIs(c, e);
    ResidueIs(c, e, w, factor);
    MinVectorZeroFilters(c, key, e, doc);
  }

  /** With full recency where that helps and none elsewhere, the residue is the lift. */
  lemma ResidueIs(c: Context, e: ChunkEntry, w: Weights, kind: real)
    requires w == BlendWeights(c.ranking, c.embedder) && kind == KindFactor(c.ranking, e.kind)
    requires c.recency(e.time) == if Rise(w, kind) > 0.0 then 1.0 else 0.0
    ensures Residue(c, e) == Lift(w, kind)
  {
    hide BlendWeights, KindFactor;
    assert w.recency * 1.0 == w.recency && w.recency * 0.0 * (kind - 1.0) == 0.0;
  }

  /** A place below one half from which the lift reaches the bar. */
  lemma BelowHalf(top: real, lift: real, min: real) returns (vec: real)
    requires top >= 0.0 && (if top > 0.0 then min < top / 2.0 + lift else min <= lift)
    ensures 0.0 <= vec < 1.0 / 2.0 && min <= top * vec + lift
  {
    if min <= lift {
      return 0.0;
    }
    vec := (min - lift) / top;
    assert vec * top == min - lift && top * vec == vec * top;
    Cancel(top, 0.0, vec);
    assert vec != 1.0 / 2.0;
    Cancel(top, vec, 1.0 / 2.0);
  }

  /** With default weights, a chunk at similarity -0.2 is dropped by that filter alone. */
  lemma MinVectorZeroDrops() returns (c: Context, key: Key, e: ChunkEntry, doc: Doc)
    ensures c.query.minVector == 0.0 && InRange(c, e)
    ensures DroppedByFilter(c, key, e, doc)
  {
    var example := Example("");
    c, key, e, doc := example.0, example.1, example.2, example.3;
    c, e := c.(embedder := true, vector := [1.0], query := c.query.(minVector := 0.0)), e.(vector := [-0.2]);
    assert Dot(c.vector, e.vector) == -0.2;
    assert Threshold(BlendWeights(c.ranking, true), 0.4, 0.0, 1.0, 1.0) == 0.7 * 0.4;
  }
}
