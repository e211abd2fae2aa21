/**
 The number a chunk is ranked by (rag/index.go:463-517), for every chunk,
 matched or not: which shares it has, when it makes a candidate, and what a
 keyword match is worth.
 */
module RagBlend {
  import opened Bm25
  import opened RagContent
  import opened RagRanking
  import opened RagSearch
  import opened RagTypes
  import opened Reals

  /** No weight is configured. */
  predicate Unset(r: Ranking) {
    r.vector == 0.0 && r.keyword == 0.0 && r.recency == 0.0
  }

  /**
   With an embedder the configured weights, 0.7, 0.2 and 0.1 by default; without
   one, keyword and recency share the whole weight in the same proportion.
   */
  lemma WeightsShared(r: Ranking, embedder: bool)
    ensures var w := BlendWeights(r, embedder);
            && (embedder && Unset(r) ==> 10.0 * w.vector == 7.0 && 10.0 * w.keyword == 2.0 && 10.0 * w.recency == 1.0)
            && (embedder && !Unset(r) ==> w.vector == r.vector && w.keyword == r.keyword && w.recency == r.recency)
            && (!embedder ==> w.vector == 0.0 && w.keyword + w.recency == 1.0)
            && (!embedder && Unset(r) ==> w.keyword == 2.0 * w.recency)
            && (!embedder && !Unset(r) && r.keyword + r.recency > 0.0 ==> w.keyword * r.recency == w.recency * r.keyword)
            && (!embedder && !Unset(r) && r.keyword + r.recency <= 0.0 ==> w.keyword == 1.0)
  {
    var e := EffectiveWeights(r);
    if !embedder && e.keyword + e.recency > 0.0 {
      Fractions(e.keyword, e.recency);
    }
  }

  lemma Fractions(x: real, y: real)
    requires x + y > 0.0
    ensures x / (x + y) + y / (x + y) == 1.0 && x / (x + y) * y == y / (x + y) * x
    ensures x == 2.0 * y ==> x / (x + y) == 2.0 * (y / (x + y))
  {
    var p, q := x / (x + y), y / (x + y);
    assert p * (x + y) == x && q * (x + y) == y;
    assert (p + q) * (x + y) == x + y;
    assert (p * y - q * x) * (x + y) == 0.0;
  }

  /** What a query asks for that leaves its numbers at zero. */
  lemma QueryDefaults(q: Query)
    ensures q.topK <= 0 ==> q.Caps().topK == 5
    ensures q.topK > 0 ==> q.Caps().topK == q.topK
    ensures q.maxChunksPerDoc == 0 ==> q.Caps().perDoc == 2
    ensures q.maxChunksPerDoc != 0 ==> q.Caps().perDoc == q.maxChunksPerDoc
    ensures q.Caps().maxDocs == q.maxDocs
    ensures q.minScore == 0.0 ==> 4.0 * q.MinScore() == 1.0
    ensures q.minScore != 0.0 ==> q.MinScore() == q.minScore
  {
  }

  // The score of any chunk

  /** The three shares under these weights, times the factor of the kind. */
  function ScoreOf(w: Weights, similarity: real, keyword: real, recency: real, factor: real): real {
    factor * (w.vector * (similarity + 1.0) / 2.0 + w.keyword * keyword + w.recency * recency)
  }

  lemma BlendSpelled(w: Weights, similarity: real, keyword: real, recency: real, factor: real)
    ensures Blend(w, (similarity + 1.0) / 2.0, keyword, recency, factor) == ScoreOf(w, similarity, keyword, recency, factor)
  {
    assert w.vector * ((similarity + 1.0) / 2.0) == w.vector * (similarity + 1.0) / 2.0;
  }

  /**
   A chunk is a candidate if and only if the filter accepts it, it is not
   dropped for its similarity, and its score, without recency when it matches
   no keyword, reaches the bar; and that score is what it is ranked by.
   */
  lemma EvaluateSpelled(c: Context, key: Key, e: ChunkEntry, doc: Doc)
    ensures var r := c.ranking;
            var factor := if e.kind != "" && e.kind in r.kindWeight then r.kindWeight[e.kind] else 1.0;
            var similarity := if c.embedder && c.vector != [] && e.vector != [] then Dot(c.vector, e.vector) else 0.0;
            var raw := if key in c.keywords then c.keywords[key] else 0.0;
            var share := if c.maxKeyword > 0.0 then raw / c.maxKeyword else 0.0;
            var w, recency := BlendWeights(r, c.embedder), c.recency(e.time);
            var score := ScoreOf(w, similarity, share, recency, factor);
            var bar := if c.query.minScore == 0.0 then 0.25 else c.query.minScore;
            && (Evaluate(c, key, e, doc).Some? <==>
                  && c.query.filter(doc)
                  && (c.embedder ==> raw > 0.0 || similarity >= c.query.minVector)
                  && (if share == 0.0 then score - w.recency * recency >= bar else score >= bar))
            && (Evaluate(c, key, e, doc).Some? ==>
                  Evaluate(c, key, e, doc).value ==
                    Scored(key, e.chunk.docId, e.chunk.index, similarity, share, recency, score, c.embedder && similarity < c.query.minVector))
  {
    hide BlendWeights;
    BlendSpelled(BlendWeights(c.ranking, c.embedder), Similarity(c, e), Keyword(c, key), c.recency(e.time), KindFactor(c.ranking, e.kind));
    hide ScoreOf, Blend, Dot;
  }

  // What a keyword match is worth

  lemma MoreTimes(x: real, y: real, z: real)
    requires x <= y && z >= 0.0
    ensures z * x <= z * y
  {
  }

  lemma MoreKeyword(w: Weights, similarity: real, share: real, share': real, recency: real, factor: real)
    requires w.keyword >= 0.0 && factor >= 0.0 && share <= share'
    ensures ScoreOf(w, similarity, share, recency, factor) <= ScoreOf(w, similarity, share', recency, factor)
  {
    MoreTimes(share, share', w.keyword);
    var x, y := w.vector * (similarity + 1.0) / 2.0, w.recency * recency;
    MoreTimes(x + w.keyword * share + y, x + w.keyword * share' + y, factor);
  }

  lemma ShareOrder(c: Context, key: Key, other: Key)
    requires RawKeyword(c, key) <= RawKeyword(c, other)
    ensures Keyword(c, key) <= Keyword(c, other)
  {
    if c.maxKeyword > 0.0 {
      var p, q := Keyword(c, key), Keyword(c, other);
      assert p * c.maxKeyword == RawKeyword(c, key) && q * c.maxKeyword == RawKeyword(c, other);
    }
  }

  /** Of two chunks alike but for the keyword score, the better match is a candidate if the other is, and ranks no lower. */
  lemma KeywordRaises(c: Context, key: Key, other: Key, e: ChunkEntry, doc: Doc)
    requires 0.0 <= RawKeyword(c, key) <= RawKeyword(c, other)
    requires BlendWeights(c.ranking, c.embedder).keyword >= 0.0 && KindFactor(c.ranking, e.kind) >= 0.0
    requires BlendWeights(c.ranking, c.embedder).recency * c.recency(e.time) >= 0.0
    ensures Evaluate(c, key, e, doc).Some? ==>
              && Evaluate(c, other, e, doc).Some?
              && Evaluate(c, key, e, doc).value.score <= Evaluate(c, other, e, doc).value.score
  {
    var w, factor := BlendWeights(c.ranking, c.embedder), KindFactor(c.ranking, e.kind);
    EvaluateSpelled(c, key, e, doc);
    EvaluateSpelled(c, other, e, doc);
    ShareOrder(c, key, other);
    NoShare(c, key);
    hide BlendWeights, Evaluate, ScoreOf, Dot;
    MoreKeyword(w, Similarity(c, e), Keyword(c, key), Keyword(c, other), c.recency(e.time), factor);
  }

  lemma NoShare(c: Context, key: Key)
    requires RawKeyword(c, key) >= 0.0
    ensures Keyword(c, key) >= 0.0
  {
    if c.maxKeyword > 0.0 {
      var p := Keyword(c, key);
      assert p * c.maxKeyword == RawKeyword(c, key);
    }
  }

  /** A keyword search with nothing configured finds its best match, at two thirds or more. */
  lemma BestMatchFound(c: Context, key: Key, e: ChunkEntry, doc: Doc)
    requires !c.embedder && Unset(c.ranking) && c.query.minScore == 0.0 && c.query.filter(doc)
    requires key in c.keywords && c.keywords[key] == c.maxKeyword > 0.0 && e.kind !in c.ranking.kindWeight && c.recency(e.time) >= 0.0
    ensures Evaluate(c, key, e, doc).Some? && 3.0 * Evaluate(c, key, e, doc).value.score >= 2.0
  {
    EvaluateSpelled(c, key, e, doc);
    WeightsShared(c.ranking, false);
    hide BlendWeights, Evaluate, Dot;
    var w, recency := BlendWeights(c.ranking, false), c.recency(e.time);
    assert Keyword(c, key) == 1.0;
    MoreTimes(0.0, recency, w.recency);
    assert ScoreOf(w, 0.0, 1.0, recency, 1.0) == w.keyword + w.recency * recency;
  }

  /** And so does the search itself: the best match of a mode is among the ranked chunks of every run. */
  lemma BestMatchRanked(v: View, c: Context, ranked: seq<Scored>, picked: set<nat>, hits: seq<Hit>, i: nat)
    requires Outcome(v, c, ranked, picked, hits) && i < |v.order| && Listed(v, v.order[i])
    requires !c.embedder && Unset(c.ranking) && c.query.minScore == 0.0
    requires c.query.filter(v.docs[v.chunks[v.order[i]].chunk.docId].doc)
    requires v.order[i] in c.keywords && c.keywords[v.order[i]] == c.maxKeyword > 0.0
    requires v.chunks[v.order[i]].kind !in c.ranking.kindWeight && c.recency(v.chunks[v.order[i]].time) >= 0.0
    ensures exists s :: s in ranked && s.key == v.order[i] && 3.0 * s.score >= 2.0
  {
    var key, e := v.order[i], v.chunks[v.order[i]];
    BestMatchFound(c, key, e, v.docs[e.chunk.docId].doc);
    EvaluateSpelled(c, key, e, v.docs[e.chunk.docId].doc);
    hide Evaluate, Ranked, Greedy, Allowed, HitsFor;
    InCandidates(v, c, |v.order|, i);
    var s := EvaluateKey(v, c, key).value;
    assert s in multiset(Candidates(v, c, |v.order|));
    assert s in multiset(ranked);
  }

  lemma {:induction false} InCandidates(v: View, c: Context, n: nat, i: nat)
    requires i < n <= |v.order| && (forall j | 0 <= j < |v.order| :: Listed(v, v.order[j])) && EvaluateKey(v, c, v.order[i]).Some?
    ensures EvaluateKey(v, c, v.order[i]).value in Candidates(v, c, n)
  {
    hide EvaluateKey;
    if i < n - 1 {
      InCandidates(v, c, n - 1, i);
    }
  }
}
