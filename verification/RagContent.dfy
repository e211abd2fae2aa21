/**
 What the hybrid index of rag/index.go should hold. The content of an index is
 the sequence of surviving documents, each with its chunks and their vectors,
 in the order they were last added; every field of the index is a function of it.
 */
module RagContent {
  import opened Bm25
  import opened Bm25Index
  import opened ChunkKeys
  import opened RagTypes
  import opened Reals

  type Vector = Vec

  datatype Entry = Entry(doc: Doc, keys: seq<Key>)

  datatype ChunkEntry = ChunkEntry(chunk: Chunk, title: string, path: string, kind: string, time: int, vector: Vector)

  /** A document as it was added: `vectors[j]` is the embedding of `chunks[j]`, empty without an embedder. */
  datatype Source = Source(doc: Doc, chunks: seq<Chunk>, vectors: seq<Vector>)

  ghost predicate Sound(src: Source) {
    ChunksOf(src.doc, src.chunks) && |src.vectors| == |src.chunks|
  }

  function Keys(src: Source): (ks: seq<Key>)
    ensures |ks| == |src.chunks|
    ensures forall j | 0 <= j < |ks| :: ks[j] == ChunkKey(src.doc.id, j)
  {
    seq(|src.chunks|, j requires 0 <= j => ChunkKey(src.doc.id, j))
  }

  function KeySet(ks: seq<Key>): set<Key> {
    set k | k in ks
  }

  function EntryOf(src: Source, j: nat): ChunkEntry
    requires j < |src.chunks| == |src.vectors|
  {
    ChunkEntry(src.chunks[j], src.doc.title, src.doc.path, src.doc.kind, src.doc.time, src.vectors[j])
  }

  /** The chunk table of the first n chunks of one document. */
  function Pieces(src: Source, n: nat): map<Key, ChunkEntry>
    requires n <= |src.chunks| == |src.vectors|
  {
    if n == 0 then map[] else Pieces(src, n - 1)[ChunkKey(src.doc.id, n - 1) := EntryOf(src, n - 1)]
  }

  ghost predicate DistinctIds(content: seq<Source>) {
    forall i, j | 0 <= i < j < |content| :: content[i].doc.id != content[j].doc.id
  }

  predicate Paired(content: seq<Source>) {
    forall i | 0 <= i < |content| :: |content[i].vectors| == |content[i].chunks|
  }

  ghost predicate Content(content: seq<Source>) {
    && Paired(content)
    && DistinctIds(content)
    && forall i | 0 <= i < |content| :: Sound(content[i])
  }

  // The fields of an index with this content

  function Table(content: seq<Source>): map<Key, ChunkEntry>
    requires Paired(content)
  {
    if content == [] then map[]
    else
      var last := content[|content| - 1];
      Table(content[..|content| - 1]) + Pieces(last, |last.chunks|)
  }

  function Order(content: seq<Source>): seq<Key> {
    if content == [] then [] else Order(content[..|content| - 1]) + Keys(content[|content| - 1])
  }

  function Docs(content: seq<Source>): map<string, Entry> {
    if content == [] then map[]
    else
      var last := content[|content| - 1];
      Docs(content[..|content| - 1])[last.doc.id := Entry(last.doc, Keys(last))]
  }

  /** The terms BM25 indexes for each chunk: those of its title and text. */
  function TermTable(chunks: map<Key, ChunkEntry>, terms: (string, Text) -> seq<Term>, stopwords: set<Term>): Corpus {
    map k | k in chunks :: Kept(terms(chunks[k].title, chunks[k].chunk.text), stopwords)
  }

  function Without(content: seq<Source>, id: string): seq<Source> {
    if content == [] then []
    else
      var last := content[|content| - 1];
      Without(content[..|content| - 1], id) + if last.doc.id == id then [] else [last]
  }

  function Filter(order: seq<Key>, drop: set<Key>): seq<Key> {
    if order == [] then []
    else
      var last := order[|order| - 1];
      Filter(order[..|order| - 1], drop) + if last in drop then [] else [last]
  }

  // Keys of different documents are different

  lemma OwnKeys(src: Source)
    ensures forall i, j | 0 <= i < j < |Keys(src)| :: Keys(src)[i] != Keys(src)[j]
  {
    forall i, j | 0 <= i < j < |Keys(src)| ensures Keys(src)[i] != Keys(src)[j] {
      if Keys(src)[i] == Keys(src)[j] {
        ChunkKeyInjective(src.doc.id, i, src.doc.id, j);
      }
    }
  }

  lemma ForeignKeys(a: Source, b: Source)
    requires a.doc.id != b.doc.id
    ensures KeySet(Keys(a)) !! KeySet(Keys(b))
  {
    forall k | k in Keys(a) && k in Keys(b) ensures false {
      var i :| 0 <= i < |Keys(a)| && Keys(a)[i] == k;
      var j :| 0 <= j < |Keys(b)| && Keys(b)[j] == k;
      ChunkKeyInjective(a.doc.id, i, b.doc.id, j);
    }
  }

  lemma {:induction false} PiecesKeys(src: Source, n: nat)
    requires n <= |src.chunks| == |src.vectors|
    ensures forall k :: k in Pieces(src, n) <==> k in Keys(src)[..n]
    ensures forall j | 0 <= j < n :: ChunkKey(src.doc.id, j) in Pieces(src, n)
    ensures forall j | 0 <= j < n :: Pieces(src, n)[ChunkKey(src.doc.id, j)] == EntryOf(src, j)
  {
    if n > 0 {
      PiecesKeys(src, n - 1);
      assert Keys(src)[..n] == Keys(src)[..n - 1] + [ChunkKey(src.doc.id, n - 1)];
      forall j | 0 <= j < n
        ensures ChunkKey(src.doc.id, j) in Pieces(src, n) && Pieces(src, n)[ChunkKey(src.doc.id, j)] == EntryOf(src, j)
      {
        if j < n - 1 && ChunkKey(src.doc.id, j) == ChunkKey(src.doc.id, n - 1) {
          ChunkKeyInjective(src.doc.id, j, src.doc.id, n - 1);
        }
      }
    }
  }

  lemma PiecesAll(src: Source)
    requires |src.chunks| == |src.vectors|
    ensures Pieces(src, |src.chunks|).Keys == KeySet(Keys(src))
  {
    PiecesKeys(src, |src.chunks|);
    assert Keys(src)[..|src.chunks|] == Keys(src);
  }

  lemma {:induction false} ForeignTable(content: seq<Source>, src: Source)
    requires Paired(content)
    requires forall i | 0 <= i < |content| :: content[i].doc.id != src.doc.id
    ensures Table(content).Keys !! KeySet(Keys(src))
  {
    if content != [] {
      var last := content[|content| - 1];
      ForeignTable(content[..|content| - 1], src);
      ForeignKeys(last, src);
      PiecesAll(last);
    }
  }

  lemma {:induction false} TableOrder(content: seq<Source>)
    requires Paired(content)
    ensures Table(content).Keys == KeySet(Order(content))
  {
    if content != [] {
      TableOrder(content[..|content| - 1]);
      PiecesAll(content[|content| - 1]);
    }
  }

  // Dropping one document

  lemma {:induction false} WithoutIds(content: seq<Source>, id: string)
    ensures forall src :: src in Without(content, id) <==> src in content && src.doc.id != id
  {
    if content != [] {
      WithoutIds(content[..|content| - 1], id);
      assert content == content[..|content| - 1] + [content[|content| - 1]];
    }
  }

  lemma {:induction false} WithoutContent(content: seq<Source>, id: string)
    requires Content(content)
    ensures Content(Without(content, id))
    ensures forall i | 0 <= i < |Without(content, id)| :: Without(content, id)[i].doc.id != id
  {
    if content != [] {
      var init, last := content[..|content| - 1], content[|content| - 1];
      WithoutContent(init, id);
      WithoutIds(init, id);
      var w := Without(init, id);
      forall i | 0 <= i < |w| ensures w[i].doc.id != last.doc.id {
        assert w[i] in init;
      }
    }
  }

  lemma {:induction false} WithoutNothing(content: seq<Source>, id: string)
    requires forall i | 0 <= i < |content| :: content[i].doc.id != id
    ensures Without(content, id) == content
  {
    if content != [] {
      WithoutNothing(content[..|content| - 1], id);
    }
  }

  lemma {:induction false} FilterSplit(a: seq<Key>, b: seq<Key>, drop: set<Key>)
    ensures Filter(a + b, drop) == Filter(a, drop) + Filter(b, drop)
  {
    if b == [] {
      assert a + b == a;
    } else {
      assert (a + b)[..|a + b| - 1] == a + b[..|b| - 1];
      FilterSplit(a, b[..|b| - 1], drop);
    }
  }

  lemma {:induction false} FilterNone(a: seq<Key>, drop: set<Key>)
    requires KeySet(a) !! drop
    ensures Filter(a, drop) == a
  {
    if a != [] {
      FilterNone(a[..|a| - 1], drop);
      assert a == a[..|a| - 1] + [a[|a| - 1]];
    }
  }

  lemma {:induction false} FilterEvery(a: seq<Key>, drop: set<Key>)
    requires KeySet(a) <= drop
    ensures Filter(a, drop) == []
  {
    if a != [] {
      FilterEvery(a[..|a| - 1], drop);
      assert a[|a| - 1] in KeySet(a);
    }
  }

  lemma {:induction false} OrderForeign(content: seq<Source>, src: Source)
    requires forall i | 0 <= i < |content| :: content[i].doc.id != src.doc.id
    ensures KeySet(Order(content)) !! KeySet(Keys(src))
  {
    if content != [] {
      OrderForeign(content[..|content| - 1], src);
      ForeignKeys(content[|content| - 1], src);
    }
  }

  lemma Append(init: seq<Source>, last: Source)
    requires Paired(init)
    requires |last.vectors| == |last.chunks|
    ensures Table(init + [last]) == Table(init) + Pieces(last, |last.chunks|)
    ensures Order(init + [last]) == Order(init) + Keys(last)
    ensures Docs(init + [last]) == Docs(init)[last.doc.id := Entry(last.doc, Keys(last))]
  {
    assert (init + [last])[..|init|] == init;
  }

  lemma WithoutAppend(init: seq<Source>, last: Source, id: string)
    ensures Without(init + [last], id) == Without(init, id) + if last.doc.id == id then [] else [last]
  {
    assert (init + [last])[..|init|] == init;
  }

  lemma MinusForeign<V>(m: map<Key, V>, n: map<Key, V>, drop: set<Key>)
    requires n.Keys !! drop
    ensures (m + n) - drop == (m - drop) + n
  {
  }

  lemma MinusOwn<V>(m: map<Key, V>, n: map<Key, V>, drop: set<Key>)
    requires n.Keys == drop && m.Keys !! drop
    ensures (m + n) - drop == m
  {
  }

  lemma InitOf(content: seq<Source>)
    requires Paired(content) && DistinctIds(content) && content != []
    ensures var init, last := content[..|content| - 1], content[|content| - 1];
            && content == init + [last] && Paired(init) && DistinctIds(init) && |last.vectors| == |last.chunks|
            && (forall i | 0 <= i < |init| :: init[i].doc.id != last.doc.id)
  {
  }

  /** Deleting a document's keys leaves the chunk table of the other documents. */
  lemma {:induction false} DropTable(content: seq<Source>, at: nat)
    requires Paired(content) && DistinctIds(content) && at < |content|
    ensures Paired(Without(content, content[at].doc.id))
    ensures Table(content) - KeySet(Keys(content[at])) == Table(Without(content, content[at].doc.id))
  {
    var init, last, src := content[..|content| - 1], content[|content| - 1], content[at];
    var drop, pieces := KeySet(Keys(src)), Pieces(last, |last.chunks|);
    InitOf(content);
    hide Table, Without, Pieces, KeySet, Keys, DistinctIds, ChunkKey;
    Append(init, last);
    WithoutAppend(init, last, src.doc.id);
    PiecesAll(last);
    if at == |init| {
      ForeignTable(init, last);
      MinusOwn(Table(init), pieces, drop);
      WithoutNothing(init, src.doc.id);
      assert init + [] == init;
    } else {
      DropTable(init, at);
      ForeignKeys(last, src);
      MinusForeign(Table(init), pieces, drop);
      Append(Without(init, src.doc.id), last);
    }
  }

  /** Filtering a document's keys out of the order leaves the order of the other documents. */
  lemma {:induction false} DropOrder(content: seq<Source>, at: nat)
    requires Paired(content) && DistinctIds(content) && at < |content|
    ensures Filter(Order(content), KeySet(Keys(content[at]))) == Order(Without(content, content[at].doc.id))
  {
    var init, last, src := content[..|content| - 1], content[|content| - 1], content[at];
    var drop := KeySet(Keys(src));
    assert content == init + [last];
    Append(init, last);
    WithoutAppend(init, last, src.doc.id);
    FilterSplit(Order(init), Keys(last), drop);
    if at == |init| {
      OrderForeign(init, last);
      FilterNone(Order(init), drop);
      FilterEvery(Keys(last), drop);
      WithoutNothing(init, src.doc.id);
      assert init + [] == init && Order(init) + [] == Order(init);
    } else {
      DropOrder(init, at);
      ForeignKeys(last, src);
      FilterNone(Keys(last), drop);
      DropTable(init, at);
      Append(Without(init, src.doc.id), last);
    }
  }

  lemma {:induction false} DocsAt(content: seq<Source>, id: string)
    requires DistinctIds(content)
    ensures id in Docs(content) <==> exists i :: 0 <= i < |content| && content[i].doc.id == id
    ensures forall i | 0 <= i < |content| && content[i].doc.id == id ::
              id in Docs(content) && Docs(content)[id] == Entry(content[i].doc, Keys(content[i]))
  {
    if content != [] {
      DocsAt(content[..|content| - 1], id);
    }
  }

  lemma {:induction false} DocsWithout(content: seq<Source>, id: string)
    ensures Docs(content) - {id} == Docs(Without(content, id))
  {
    if content != [] {
      var init, last := content[..|content| - 1], content[|content| - 1];
      DocsWithout(init, id);
      var rest := Without(init, id);
      if last.doc.id == id {
        assert Without(content, id) == rest;
      } else {
        assert (rest + [last])[..|rest|] == rest;
        assert Docs(content) - {id} == (Docs(init) - {id})[last.doc.id := Entry(last.doc, Keys(last))];
      }
    }
  }
}
