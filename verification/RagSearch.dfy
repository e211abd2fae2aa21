/** Search of rag/index.go: blending the signals, the score bar, ranking, caps and neighbour widening. */
module RagSearch {
  import opened Bm25
  import opened Bm25Index
  import opened ChunkKeys
  import opened Lists
  import opened RagContent
  import opened RagRanking
  import opened RagTypes
  import opened Reals
  import opened Wrappers
  import Bm25Scores
  import RagIndex
  import RagPersist

  type View = RagIndex.View

  datatype Ranking = Ranking(vector: real, keyword: real, recency: real, kindWeight: map<string, real>)

  datatype Weights = Weights(vector: real, keyword: real, recency: real)

  datatype Query = Query(
    topK: int, minScore: real, minVector: real, maxChunksPerDoc: int, maxDocs: int, neighbours: int,
    filter: Doc -> bool, mode: Bm25Scores.Mode)
  {
    function Caps(): Caps {
      RagRanking.Caps(if topK > 0 then topK else 5, if maxChunksPerDoc != 0 then maxChunksPerDoc else 2, maxDocs)
    }

    function MinScore(): real {
      if minScore != 0.0 then minScore else 0.25
    }
  }

  // The blend

  function EffectiveWeights(r: Ranking): Weights {
    if r.vector == 0.0 && r.keyword == 0.0 && r.recency == 0.0 then Weights(0.7, 0.2, 0.1)
    else Weights(r.vector, r.keyword, r.recency)
  }

  /** Without an embedder the other two signals share the whole weight. */
  function BlendWeights(r: Ranking, embedder: bool): Weights {
    var w := EffectiveWeights(r);
    if embedder then w
    else if w.keyword + w.recency > 0.0 then
      Weights(0.0, w.keyword / (w.keyword + w.recency), w.recency / (w.keyword + w.recency))
    else Weights(0.0, 1.0, 0.0)
  }

  function KindFactor(r: Ranking, kind: string): real {
    if kind != "" && kind in r.kindWeight then r.kindWeight[kind] else 1.0
  }

  function Blend(w: Weights, vec: real, kw: real, rec: real, kind: real): real {
    (w.vector * vec + w.keyword * kw + w.recency * rec) * kind
  }

  /** What is held against MinScore. */
  function Threshold(w: Weights, vec: real, kw: real, rec: real, kind: real): real {
    Blend(w, vec, kw, rec, kind) - if kw == 0.0 then w.recency * rec else 0.0
  }

  // One candidate

  datatype Context = Context(
    ranking: Ranking, embedder: bool, query: Query, vector: Vector, maxKeyword: real, keywords: map<Key, real>, recency: int -> real)

  function Similarity(c: Context, e: ChunkEntry): real {
    if c.embedder && c.vector != [] && e.vector != []
    then Dot(c.vector, e.vector)
    else 0.0
  }

  function RawKeyword(c: Context, key: Key): real {
    if key in c.keywords then c.keywords[key] else 0.0
  }

  function Keyword(c: Context, key: Key): real {
    if c.maxKeyword > 0.0 then RawKeyword(c, key) / c.maxKeyword else 0.0
  }

  function Evaluate(c: Context, key: Key, e: ChunkEntry, doc: Doc): Option<Scored> {
    var vec, raw, kw, rec := Similarity(c, e), RawKeyword(c, key), Keyword(c, key), c.recency(e.time);
    var w, kind := BlendWeights(c.ranking, c.embedder), KindFactor(c.ranking, e.kind);
    if !c.query.filter(doc) then None
    else if c.embedder && vec < c.query.minVector && raw <= 0.0 then None
    else if Threshold(w, (vec + 1.0) / 2.0, kw, rec, kind) < c.query.MinScore() then None
    else
      Some(Scored(key, e.chunk.docId, e.chunk.index, vec, kw, rec, Blend(w, (vec + 1.0) / 2.0, kw, rec, kind),
                  c.embedder && vec < c.query.minVector && raw > 0.0))
  }

  predicate Listed(v: View, key: Key) {
    key in v.chunks && v.chunks[key].chunk.docId in v.docs
  }

  function EvaluateKey(v: View, c: Context, key: Key): Option<Scored>
    requires Listed(v, key)
  {
    Evaluate(c, key, v.chunks[key], v.docs[v.chunks[key].chunk.docId].doc)
  }

  /** The candidates among the first n keys of the order. */
  function Candidates(v: View, c: Context, n: nat): seq<Scored>
    requires n <= |v.order| && forall i | 0 <= i < n :: Listed(v, v.order[i])
  {
    if n == 0 then []
    else
      Candidates(v, c, n - 1) +
      match EvaluateKey(v, c, v.order[n - 1])
      case None => []
      case Some(s) => [s]
  }

  lemma OrderListed(v: View, content: seq<Source>, o: RagIndex.Options)
    requires RagIndex.Holds(v, content, o)
    ensures forall i | 0 <= i < |v.order| :: Listed(v, v.order[i])
    ensures NoDup(v.order)
  {
    RagPersist.OrderNoDup(content);
    TableOrder(content);
    forall i | 0 <= i < |v.order| ensures Listed(v, v.order[i]) {
      assert v.order[i] in KeySet(v.order);
      RagPersist.EveryLinked(v, content, o, v.order[i]);
    }
  }

  /** Candidates carry the key of their chunk, each at most once. */
  lemma {:induction false} CandidateKeys(v: View, content: seq<Source>, o: RagIndex.Options, c: Context, n: nat)
    requires RagIndex.Holds(v, content, o) && n <= |v.order|
    requires (forall i | 0 <= i < |v.order| :: Listed(v, v.order[i])) && NoDup(v.order)
    ensures forall s | s in Candidates(v, c, n) ::
              s.key == ChunkKey(s.docId, s.index) && s.key in v.order[..n] && EvaluateKey(v, c, s.key) == Some(s)
    ensures forall i | 0 <= i < n && EvaluateKey(v, c, v.order[i]).Some? ::
              EvaluateKey(v, c, v.order[i]).value in Candidates(v, c, n)
    ensures DifferentChunks(Candidates(v, c, n))
  {
    hide RagIndex.Holds, Evaluate, ChunkKey;
    if n > 0 {
      var key := v.order[n - 1];
      CandidateKeys(v, content, o, c, n - 1);
      assert v.order[..n] == v.order[..n - 1] + [key];
      CandidateAt(v, content, o, c, key);
      var init, last := Candidates(v, c, n - 1), EvaluateKey(v, c, key);
      forall i | 0 <= i < |init| && last.Some? ensures !SameChunk(init[i], last.value) {
        assert init[i] in init;
      }
    }
  }

  lemma CandidateAt(v: View, content: seq<Source>, o: RagIndex.Options, c: Context, key: Key)
    requires RagIndex.Holds(v, content, o) && Listed(v, key)
    ensures EvaluateKey(v, c, key).Some? ==>
              var s := EvaluateKey(v, c, key).value;
              s.key == key == ChunkKey(s.docId, s.index)
  {
    RagPersist.EveryLinked(v, content, o, key);
  }

  // Widening a hit

  /** The document of the chunk lists it and bounds every stretch from one of its chunks to a later one. */
  ghost predicate MayWiden(v: View, chunk: Chunk) {
    && chunk.docId in v.docs && chunk.index < |v.docs[chunk.docId].keys|
    && forall i, j | 0 <= i <= j < |v.docs[chunk.docId].keys| :: Stretch(v, v.docs[chunk.docId], i, j)
  }

  ghost predicate Stretch(v: View, entry: Entry, i: nat, j: nat)
    requires i <= j < |entry.keys|
  {
    && entry.keys[i] in v.chunks && entry.keys[j] in v.chunks
    && v.chunks[entry.keys[i]].chunk.start <= v.chunks[entry.keys[j]].chunk.end <= |entry.doc.text|
  }

  /** The neighbours' chunk range, cut out of the document's own text. */
  function Widen(v: View, chunk: Chunk, neighbours: nat): Chunk
    requires MayWiden(v, chunk)
  {
    var entry := v.docs[chunk.docId];
    var lo := if chunk.index <= neighbours then 0 else chunk.index - neighbours;
    var hi := if |entry.keys| - 1 <= chunk.index + neighbours then |entry.keys| - 1 else chunk.index + neighbours;
    if lo == chunk.index && hi == chunk.index then chunk
    else
      assert Stretch(v, entry, lo, hi);
      var first, last := v.chunks[entry.keys[lo]].chunk, v.chunks[entry.keys[hi]].chunk;
      Chunk(chunk.docId, chunk.index, entry.doc.text[first.start..last.end], first.start, last.end)
  }

  lemma DocChunks(v: View, content: seq<Source>, o: RagIndex.Options, id: string) returns (at: nat)
    requires RagIndex.Holds(v, content, o) && id in v.docs
    ensures at < |content| && content[at].doc == v.docs[id].doc && Keys(content[at]) == v.docs[id].keys
    ensures content[at].doc.id == id && ChunksOf(content[at].doc, content[at].chunks)
    ensures forall j | 0 <= j < |v.docs[id].keys| ::
              v.docs[id].keys[j] in v.chunks && v.chunks[v.docs[id].keys[j]].chunk == content[at].chunks[j]
  {
    DocsAt(content, id);
    at :| 0 <= at < |content| && content[at].doc.id == id;
    TableOrder(content);
    RagPersist.OrderHas(content, at);
    assert Content(content);
    assert RagContent.Sound(content[at]);
    var ks := Keys(content[at]);
    hide ChunksOf, ChunkKey, Docs, Table, Order, RagContent.Sound, TermTable, Describes;
    forall j | 0 <= j < |ks| ensures ks[j] in v.chunks && v.chunks[ks[j]].chunk == content[at].chunks[j] {
      assert ks[j] in KeySet(ks);
      var i', j' := RagPersist.TableEntry(content, ks[j]);
      ChunkKeyInjective(content[i'].doc.id, j', id, j);
    }
  }

  /** The matched chunk and its neighbours, as one contiguous stretch of the text. */
  ghost predicate Widened(v: View, chunk: Chunk, neighbours: nat, wide: Chunk)
    requires chunk.docId in v.docs
  {
    var entry := v.docs[chunk.docId];
    && wide.docId == chunk.docId && wide.index == chunk.index
    && wide.start <= chunk.start && chunk.end <= wide.end <= |entry.doc.text| && wide.start < wide.end
    && wide.text == entry.doc.text[wide.start..wide.end]
    && (forall j | 0 <= j < |entry.keys| && chunk.index - neighbours <= j <= chunk.index + neighbours ::
          && entry.keys[j] in v.chunks
          && wide.start <= v.chunks[entry.keys[j]].chunk.start && v.chunks[entry.keys[j]].chunk.end <= wide.end)
    && (exists lo, hi | 0 <= lo <= hi < |entry.keys| && chunk.index - neighbours <= lo && hi <= chunk.index + neighbours ::
          && entry.keys[lo] in v.chunks && entry.keys[hi] in v.chunks
          && wide.start == v.chunks[entry.keys[lo]].chunk.start && wide.end == v.chunks[entry.keys[hi]].chunk.end)
  }

  lemma CanWiden(v: View, content: seq<Source>, o: RagIndex.Options, key: Key)
    requires RagIndex.Holds(v, content, o) && Listed(v, key)
    ensures var chunk := v.chunks[key].chunk;
            MayWiden(v, chunk) && v.docs[chunk.docId].keys[chunk.index] == key
  {
    var i, j := RagPersist.TableEntry(content, key);
    var chunk := v.chunks[key].chunk;
    assert ChunksOf(content[i].doc, content[i].chunks);
    assert chunk == content[i].chunks[j] && chunk.index == j && chunk.docId == content[i].doc.id;
    var at := DocChunks(v, content, o, chunk.docId);
    hide RagIndex.Holds, ChunkKey, Docs, Table, Order;
    assert at == i;
    Rising(content[at].doc, content[at].chunks);
  }

  lemma Rising(doc: Doc, chunks: seq<Chunk>)
    requires ChunksOf(doc, chunks)
    ensures forall i, j | 0 <= i <= j < |chunks| ::
              chunks[i].start <= chunks[j].start < chunks[j].end <= |doc.text| && chunks[i].end <= chunks[j].end
  {
  }

  /** Widening stays inside the document, contains the hit and every neighbour, and nothing beyond them. */
  lemma WidenHolds(v: View, content: seq<Source>, o: RagIndex.Options, key: Key, neighbours: nat)
    requires RagIndex.Holds(v, content, o) && Listed(v, key) && MayWiden(v, v.chunks[key].chunk)
    ensures Widened(v, v.chunks[key].chunk, neighbours, Widen(v, v.chunks[key].chunk, neighbours))
  {
    var chunk := v.chunks[key].chunk;
    CanWiden(v, content, o, key);
    var at := DocChunks(v, content, o, chunk.docId);
    hide RagIndex.Holds, ChunkKey, Docs, Table, Order;
    Rising(content[at].doc, content[at].chunks);
    assert chunk == content[at].chunks[chunk.index];
    assert chunk.text == content[at].doc.text[chunk.start..chunk.end];
  }

  // Search

  datatype Hit = Hit(chunk: Chunk, title: string, path: string, kind: string, time: int, scored: Scored)

  datatype SearchError = Cancelled | EmbedFailed

  /** The hit for a selected candidate: its own chunk, or that chunk widened. */
  ghost predicate HitFor(v: View, neighbours: int, s: Scored, h: Hit) {
    Listed(v, s.key) && h.scored == s
    && var e := v.chunks[s.key];
       && h.title == e.title && h.path == e.path && h.kind == e.kind && h.time == e.time
       && if neighbours > 0 then Widened(v, e.chunk, neighbours, h.chunk) else h.chunk == e.chunk
  }

  ghost predicate HitsFor(v: View, neighbours: int, selected: seq<Scored>, hits: seq<Hit>) {
    |hits| == |selected| && forall i | 0 <= i < |hits| :: HitFor(v, neighbours, selected[i], hits[i])
  }

  method Maximum(scores: map<Key, real>) returns (m: real)
    ensures m >= 0.0 && (forall k | k in scores :: scores[k] <= m)
    ensures m == 0.0 || exists k :: k in scores && scores[k] == m
  {
    m := 0.0;
    var todo := scores.Keys;
    while todo != {}
      invariant todo <= scores.Keys && m >= 0.0
      invariant forall k | k in scores && k !in todo :: scores[k] <= m
      invariant m == 0.0 || exists k :: k in scores && scores[k] == m
      decreases |todo|
    {
      var k :| k in todo;
      if scores[k] > m {
        m := scores[k];
      }
      todo := todo - {k};
    }
  }

  method Collect(ix: RagIndex.Index, c: Context) returns (cands: seq<Scored>)
    requires ix.Valid() && forall i | 0 <= i < |ix.order| :: Listed(ix.State(), ix.order[i])
    ensures cands == Candidates(ix.State(), c, |ix.order|)
  {
    hide RagIndex.Holds, Evaluate;
    cands := [];
    for i := 0 to |ix.order|
      invariant cands == Candidates(ix.State(), c, i)
    {
      var e := ix.chunks[ix.order[i]];
      match Evaluate(c, ix.order[i], e, ix.docs[e.chunk.docId].doc)
      case None =>
      case Some(s) => cands := cands + [s];
    }
  }

  method MakeHits(ix: RagIndex.Index, selected: seq<Scored>, neighbours: int) returns (hits: seq<Hit>)
    requires ix.Valid() && forall i | 0 <= i < |selected| :: Listed(ix.State(), selected[i].key)
    ensures HitsFor(ix.State(), neighbours, selected, hits)
  {
    hide RagIndex.Holds, Widen, Widened;
    hits := [];
    for i := 0 to |selected|
      invariant |hits| == i
      invariant forall k | 0 <= k < i :: HitFor(ix.State(), neighbours, selected[k], hits[k])
    {
      var e := ix.chunks[selected[i].key];
      var chunk := e.chunk;
      if neighbours > 0 {
        CanWiden(ix.State(), ix.content, ix.o, selected[i].key);
        WidenHolds(ix.State(), ix.content, ix.o, selected[i].key, neighbours);
        chunk := Widen(RagIndex.View(ix.docs, ix.chunks, ix.order, Stats(ix.bm25.postings, ix.bm25.df, ix.bm25.length, ix.bm25.totalLength)), chunk, neighbours);
      }
      hits := hits + [Hit(chunk, e.title, e.path, e.kind, e.time, selected[i])];
    }
  }

  lemma {:induction false} PickedSorted(ranked: seq<Scored>, picked: set<nat>, n: nat)
    requires n <= |ranked| && Ranked(ranked)
    ensures Ranked(PickedFrom(ranked, picked, n))
    ensures forall s | s in PickedFrom(ranked, picked, n) :: s in ranked[..n]
  {
    hide Before;
    if n > 0 {
      PickedSorted(ranked, picked, n - 1);
      assert ranked[..n] == ranked[..n - 1] + [ranked[n - 1]];
      var init := PickedFrom(ranked, picked, n - 1);
      forall i | 0 <= i < |init| ensures Before(init[i], ranked[n - 1]) {
        assert init[i] in ranked[..n - 1];
      }
    }
  }

  /** The keyword scores are those of BM25 over the index's corpus, and the maximum is theirs. */
  ghost predicate KeywordsOf(chunks: map<Key, ChunkEntry>, o: RagIndex.Options, ln: real -> real, tokens: seq<Term>,
                              mode: Bm25Scores.Mode, scores: map<Key, real>, m: real) {
    && (forall k {:trigger Bm25Scores.Result(TermTable(chunks, o.terms, o.stopwords), ln, Bm25Scores.Distinct(Kept(tokens, o.stopwords)), mode, scores, k)} ::
          Bm25Scores.Result(TermTable(chunks, o.terms, o.stopwords), ln,
                            Bm25Scores.Distinct(Kept(tokens, o.stopwords)), mode, scores, k))
    && (forall k | k in scores :: 0.0 < scores[k] <= m)
    && (scores != map[] ==> exists k :: k in scores && scores[k] == m)
  }

  lemma KeywordsHold(chunks: map<Key, ChunkEntry>, o: RagIndex.Options, ln: real -> real, tokens: seq<Term>,
                     mode: Bm25Scores.Mode, scores: map<Key, real>, m: real)
    requires forall k {:trigger Bm25Scores.Result(TermTable(chunks, o.terms, o.stopwords), ln, Bm25Scores.Distinct(Kept(tokens, o.stopwords)), mode, scores, k)} ::
               Bm25Scores.Result(TermTable(chunks, o.terms, o.stopwords), ln, Bm25Scores.Distinct(Kept(tokens, o.stopwords)), mode, scores, k)
    requires (forall k | k in scores :: scores[k] <= m) && (m == 0.0 || exists k :: k in scores && scores[k] == m)
    ensures KeywordsOf(chunks, o, ln, tokens, mode, scores, m)
  {
    hide TermTable, Kept, Bm25Scores.Distinct, Bm25Scores.Wanted, Bm25Scores.Score;
    forall k | k in scores ensures 0.0 < scores[k] {
      assert Bm25Scores.Result(TermTable(chunks, o.terms, o.stopwords), ln, Bm25Scores.Distinct(Kept(tokens, o.stopwords)), mode, scores, k);
    }
    hide Bm25Scores.Result;
    if scores != map[] {
      var k :| k in scores;
      assert scores[k] <= m;
    }
  }

  /**
   The hits are the greedy choice, within the caps, from the strict ranking of
   exactly the chunks that pass the filters and the score bar.
   */
  ghost predicate Outcome(v: View, c: Context, ranked: seq<Scored>, picked: set<nat>, hits: seq<Hit>) {
    && (forall i | 0 <= i < |v.order| :: Listed(v, v.order[i]))
    && Ranked(ranked)
    && multiset(ranked) == multiset(Candidates(v, c, |v.order|))
    && Greedy(ranked, c.query.Caps(), picked, |ranked|)
    && Ranked(PickedFrom(ranked, picked, |ranked|))
    && Allowed(PickedFrom(ranked, picked, |ranked|), c.query.Caps())
    && HitsFor(v, c.query.neighbours, PickedFrom(ranked, picked, |ranked|), hits)
  }

  method Pick(ix: RagIndex.Index, c: Context) returns (hits: seq<Hit>)
    requires ix.Valid()
    ensures exists ranked, picked :: Outcome(ix.State(), c, ranked, picked, hits)
  {
    var v := RagIndex.View(ix.docs, ix.chunks, ix.order, Stats(ix.bm25.postings, ix.bm25.df, ix.bm25.length, ix.bm25.totalLength));
    OrderListed(v, ix.content, ix.o);
    CandidateKeys(v, ix.content, ix.o, c, |v.order|);
    hide RagIndex.Holds, Evaluate, EvaluateKey, Candidates, Allowed, Greedy, NoDup;
    var cands := Collect(ix, c);
    var sorted := Sort(cands);
    forall s | s in sorted ensures Listed(v, s.key) {
      assert s in multiset(cands);
      assert s.key in v.order[..|v.order|];
    }
    var selected, picked := Select(sorted, c.query.Caps());
    PickedSorted(sorted, picked, |sorted|);
    forall i | 0 <= i < |selected| ensures Listed(v, selected[i].key) {
      assert selected[i] in sorted[..|sorted|];
    }
    hits := MakeHits(ix, selected, c.query.neighbours);
    assert Outcome(ix.State(), c, sorted, picked, hits);
  }

  method Keywords(ix: RagIndex.Index, tokens: seq<Term>, mode: Bm25Scores.Mode, ln: real -> real) returns (scores: map<Key, real>, m: real)
    requires ix.Valid() && Bm25Scores.Logarithm(ln)
    ensures KeywordsOf(ix.chunks, ix.o, ln, tokens, mode, scores, m)
  {
    ghost var corpus := TermTable(ix.chunks, ix.o.terms, ix.o.stopwords);
    assert Describes(ix.bm25.State(), corpus) && ix.bm25.stopwords == ix.o.stopwords;
    hide *;
    scores := Bm25Scores.Scores(ix.bm25, corpus, ln, tokens, mode);
    m := Maximum(scores);
    KeywordsHold(ix.chunks, ix.o, ln, tokens, mode, scores, m);
  }

  method Search(ix: RagIndex.Index, tokens: seq<Term>, q: Query, ranking: Ranking, ln: real -> real, recency: int -> real,
                cancelled: bool, answer: Option<seq<Vector>>)
    returns (r: Result<seq<Hit>, SearchError>, ghost c: Context, ghost ranked: seq<Scored>, ghost picked: set<nat>)
    requires ix.Valid() && Bm25Scores.Logarithm(ln)
    ensures r.Err? <==> cancelled || (ix.chunks != map[] && ix.o.embedder && answer.None?)
    ensures r.Ok? ==> c.ranking == ranking && c.embedder == ix.o.embedder && c.query == q && c.recency == recency
    ensures r.Ok? && ix.chunks != map[] ==>
              && c.vector == (if ix.o.embedder && |answer.value| == 1 then answer.value[0] else [])
              && KeywordsOf(ix.chunks, ix.o, ln, tokens, q.mode, c.keywords, c.maxKeyword)
    ensures r.Ok? ==> Outcome(ix.State(), c, ranked, picked, r.value)
  {
    hide RagIndex.Holds, Outcome, KeywordsOf, Bm25Scores.Logarithm;
    c, ranked, picked := Context(ranking, ix.o.embedder, q, [], 0.0, map[], recency), [], {};
    if cancelled {
      return Err(Cancelled), c, ranked, picked;
    }
    if |ix.chunks| == 0 {
      NothingIndexed(ix.State(), ix.content, ix.o, c);
      return Ok([]), c, ranked, picked;
    }
    var keywords, maxKeyword := Keywords(ix, tokens, q.mode, ln);
    var vector: Vector := [];
    if ix.o.embedder {
      if answer.None? {
        return Err(EmbedFailed), c, ranked, picked;
      }
      if |answer.value| == 1 {
        vector := answer.value[0];
      }
    }
    var context := Context(ranking, ix.o.embedder, q, vector, maxKeyword, keywords, recency);
    c := context;
    var hits := Pick(ix, context);
    ranked, picked :| Outcome(ix.State(), c, ranked, picked, hits);
    r := Ok(hits);
  }

  lemma NothingIndexed(v: View, content: seq<Source>, o: RagIndex.Options, c: Context)
    requires RagIndex.Holds(v, content, o) && v.chunks == map[]
    ensures Outcome(v, c, [], {}, [])
  {
    OrderListed(v, content, o);
    assert |v.order| > 0 ==> Listed(v, v.order[0]);
  }
}
