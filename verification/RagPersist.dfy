/** Snapshots of the hybrid index, rag/persist.go: Save, Load and their round trip. */
module RagPersist {
  import opened Bm25
  import opened ChunkKeys
  import opened Lists
  import opened RagContent
  import opened RagTypes
  import opened Wrappers
  import opened RagIndex
  import Bm25Index

  const VERSION := 1

  datatype SavedChunk = SavedChunk(docId: string, index: nat, start: int, end: int, vector: Vector)

  datatype Snapshot = Snapshot(version: int, embedderId: string, docs: seq<Doc>, chunks: seq<SavedChunk>)

  /** `OutOfRange` is the run-time panic of slicing a text outside its bounds. */
  datatype LoadError = WrongVersion | WrongEmbedder | UnknownDoc | OutOfRange

  // Save

  function SaveChunk(e: ChunkEntry): SavedChunk {
    SavedChunk(e.chunk.docId, e.chunk.index, e.chunk.start, e.chunk.end, e.vector)
  }

  /** A snapshot of the view: its documents in some order without repeats, its chunks in order. */
  ghost predicate Saved(v: View, o: Options, snap: Snapshot) {
    && snap.version == VERSION && snap.embedderId == o.embedderId
    && (forall i | 0 <= i < |snap.docs| :: snap.docs[i].id in v.docs && v.docs[snap.docs[i].id].doc == snap.docs[i])
    && (forall id | id in v.docs :: v.docs[id].doc in snap.docs)
    && (forall i, j | 0 <= i < j < |snap.docs| :: snap.docs[i].id != snap.docs[j].id)
    && |snap.chunks| == |v.order|
    && forall i | 0 <= i < |v.order| :: v.order[i] in v.chunks && snap.chunks[i] == SaveChunk(v.chunks[v.order[i]])
  }

  lemma DocIds(ix: Index)
    requires ix.Valid()
    ensures forall id | id in ix.docs :: ix.docs[id].doc.id == id
  {
    forall id | id in ix.docs ensures ix.docs[id].doc.id == id {
      DocsAt(ix.content, id);
    }
  }

  method SaveDocs(ix: Index) returns (docs: seq<Doc>)
    requires ix.Valid()
    ensures forall i | 0 <= i < |docs| :: docs[i].id in ix.docs && ix.docs[docs[i].id].doc == docs[i]
    ensures forall id | id in ix.docs :: ix.docs[id].doc in docs
    ensures forall i, j | 0 <= i < j < |docs| :: docs[i].id != docs[j].id
  {
    DocIds(ix);
    docs := [];
    var todo := ix.docs.Keys;
    while todo != {}
      invariant todo <= ix.docs.Keys
      invariant forall i | 0 <= i < |docs| ::
                  docs[i].id in ix.docs && docs[i].id !in todo && ix.docs[docs[i].id].doc == docs[i]
      invariant forall id | id in ix.docs && id !in todo :: ix.docs[id].doc in docs
      invariant forall i, j | 0 <= i < j < |docs| :: docs[i].id != docs[j].id
      decreases |todo|
    {
      var id :| id in todo;
      docs := docs + [ix.docs[id].doc];
      todo := todo - {id};
    }
  }

  method Save(ix: Index) returns (snap: Snapshot)
    requires ix.Valid()
    ensures Saved(ix.State(), ix.o, snap)
  {
    hide Holds, TermTable, Describes, ChunksOf, ChunkKey, Table, Order, Docs;
    var docs := SaveDocs(ix);
    var chunks: seq<SavedChunk> := [];
    OrderListed(ix);
    for i := 0 to |ix.order|
      invariant |chunks| == i
      invariant forall k | 0 <= k < i :: chunks[k] == SaveChunk(ix.chunks[ix.order[k]])
    {
      chunks := chunks + [SaveChunk(ix.chunks[ix.order[i]])];
    }
    snap := Snapshot(VERSION, ix.o.embedderId, docs, chunks);
  }

  lemma OrderListed(ix: Index)
    requires ix.Valid()
    ensures forall i | 0 <= i < |ix.order| :: ix.order[i] in ix.chunks
  {
    TableOrder(ix.content);
    assert forall i | 0 <= i < |ix.order| :: ix.order[i] in KeySet(ix.order);
  }

  // Load

  datatype Fields = Fields(docs: map<string, Entry>, chunks: map<Key, ChunkEntry>, order: seq<Key>)

  function ById(docs: seq<Doc>): map<string, Entry> {
    if docs == [] then map[] else ById(docs[..|docs| - 1])[docs[|docs| - 1].id := Entry(docs[|docs| - 1], [])]
  }

  predicate InBounds(doc: Doc, c: SavedChunk) {
    0 <= c.start <= c.end <= |doc.text|
  }

  /** The entry rebuilt from the document's text and the saved offsets. */
  function Restore(doc: Doc, c: SavedChunk): ChunkEntry
    requires InBounds(doc, c)
  {
    ChunkEntry(Chunk(c.docId, c.index, doc.text[c.start..c.end], c.start, c.end),
               doc.title, doc.path, doc.kind, doc.time, c.vector)
  }

  function LoadChunk(f: Fields, c: SavedChunk): Result<Fields, LoadError> {
    if c.docId !in f.docs then Err(UnknownDoc)
    else
      var entry := f.docs[c.docId];
      if !InBounds(entry.doc, c) then Err(OutOfRange)
      else
        var key := ChunkKey(c.docId, c.index);
        Ok(Fields(f.docs[c.docId := Entry(entry.doc, entry.keys + [key])],
                  f.chunks[key := Restore(entry.doc, c)],
                  f.order + [key]))
  }

  function LoadChunks(docs: seq<Doc>, chunks: seq<SavedChunk>): Result<Fields, LoadError> {
    if chunks == [] then Ok(Fields(ById(docs), map[], []))
    else
      match LoadChunks(docs, chunks[..|chunks| - 1])
      case Err(e) => Err(e)
      case Ok(f) => LoadChunk(f, chunks[|chunks| - 1])
  }

  function LoadSnapshot(snap: Snapshot, o: Options): Result<Fields, LoadError> {
    if snap.version != VERSION then Err(WrongVersion)
    else if snap.embedderId != o.embedderId then Err(WrongEmbedder)
    else LoadChunks(snap.docs, snap.chunks)
  }

  lemma {:induction false} FailsForGood(docs: seq<Doc>, chunks: seq<SavedChunk>, n: nat)
    requires n <= |chunks| && LoadChunks(docs, chunks[..n]).Err?
    ensures LoadChunks(docs, chunks) == LoadChunks(docs, chunks[..n])
    decreases |chunks| - n
  {
    if n < |chunks| {
      assert chunks[..n + 1][..n] == chunks[..n];
      FailsForGood(docs, chunks, n + 1);
    } else {
      assert chunks[..n] == chunks;
    }
  }

  lemma {:induction false} LoadedKeys(docs: seq<Doc>, chunks: seq<SavedChunk>)
    requires LoadChunks(docs, chunks).Ok?
    ensures LoadChunks(docs, chunks).value.chunks.Keys == KeySet(LoadChunks(docs, chunks).value.order)
  {
    if chunks != [] {
      LoadedKeys(docs, chunks[..|chunks| - 1]);
    }
  }

  method LoadDocs(docs: seq<Doc>) returns (m: map<string, Entry>)
    ensures m == ById(docs)
  {
    m := map[];
    for i := 0 to |docs|
      invariant m == ById(docs[..i])
    {
      assert docs[..i + 1][..i] == docs[..i];
      m := m[docs[i].id := Entry(docs[i], [])];
    }
    assert docs[..|docs|] == docs;
  }

  /** One chunk of the loop of Load. BM25 is added to without a remove. */
  method LoadOne(ix: Index, c: SavedChunk) returns (r: Result<(), LoadError>)
    requires ix.bm25.stopwords == ix.o.stopwords
    modifies ix, ix.bm25
    ensures match LoadChunk(Fields(old(ix.docs), old(ix.chunks), old(ix.order)), c)
            case Err(e) => r == Err(e)
            case Ok(f) => r.Ok? && ix.docs == f.docs && ix.chunks == f.chunks && ix.order == f.order
    ensures old(ix.Indexed()) && r.Ok? && ChunkKey(c.docId, c.index) !in old(ix.chunks) ==> ix.Indexed()
  {
    if c.docId !in ix.docs {
      return Err(UnknownDoc);
    }
    var entry := ix.docs[c.docId];
    if !InBounds(entry.doc, c) {
      return Err(OutOfRange);
    }
    var key := ChunkKey(c.docId, c.index);
    var e := Restore(entry.doc, c);
    ghost var s, corpus := ix.bm25.State(), TermTable(ix.chunks, ix.o.terms, ix.o.stopwords);
    ix.bm25.Add(key, ix.o.terms(e.title, e.chunk.text));
    if old(ix.Indexed()) && key !in ix.chunks {
      AddFresh(s, corpus, key, Bm25Index.Kept(ix.o.terms(e.title, e.chunk.text), ix.o.stopwords), ix.bm25.State());
      CorpusPlus(ix.chunks, key, e, ix.o);
    }
    ix.chunks := ix.chunks[key := e];
    ix.order := ix.order + [key];
    ix.docs := ix.docs[c.docId := Entry(entry.doc, entry.keys + [key])];
    r := Ok(());
  }

  /** The loop of Load over the saved chunks. */
  method LoadInto(ix: Index, docs: seq<Doc>, chunks: seq<SavedChunk>) returns (r: Result<(), LoadError>)
    requires ix.Indexed() && ix.docs == ById(docs) && ix.chunks == map[] && ix.order == []
    modifies ix, ix.bm25
    ensures match LoadChunks(docs, chunks)
            case Err(e) => r == Err(e)
            case Ok(f) => r.Ok? && ix.docs == f.docs && ix.chunks == f.chunks && ix.order == f.order
    ensures r.Ok? && NoDup(ix.order) ==> ix.Indexed()
  {
    assert chunks[..0] == [];
    assert NoDup<Key>([]);
    hide Describes, TermTable, ChunkKey, Restore, ById, NoDup, KeySet, InBounds;
    for i := 0 to |chunks|
      invariant LoadChunks(docs, chunks[..i]) == Ok(Fields(ix.docs, ix.chunks, ix.order))
      invariant ix.bm25.stopwords == ix.o.stopwords
      invariant NoDup(ix.order) ==> ix.Indexed()
    {
      assert chunks[..i + 1][..i] == chunks[..i];
      LoadedKeys(docs, chunks[..i]);
      ghost var order := ix.order;
      var one := LoadOne(ix, chunks[i]);
      if one.Err? {
        FailsForGood(docs, chunks, i + 1);
        return Err(one.error);
      }
      NoDupInit(order, ix.order[|order|]);
    }
    assert chunks[..|chunks|] == chunks;
    r := Ok(());
  }

  /**
   Load returns the fields the snapshot spells out, or the first fault; the
   BM25 statistics are those of its chunks when no chunk is saved twice.
   */
  method Load(snap: Snapshot, o: Options) returns (r: Result<Index, LoadError>)
    requires Usable(o)
    ensures match LoadSnapshot(snap, o)
            case Err(e) => r == Err(e)
            case Ok(f) =>
              && r.Ok? && fresh(r.value) && fresh(r.value.bm25) && r.value.o == o
              && r.value.docs == f.docs && r.value.chunks == f.chunks && r.value.order == f.order
              && (NoDup(f.order) ==> r.value.Indexed())
  {
    if snap.version != VERSION {
      return Err(WrongVersion);
    }
    if snap.embedderId != o.embedderId {
      return Err(WrongEmbedder);
    }
    var ix := new Index(o);
    ix.docs := LoadDocs(snap.docs);
    var loaded := LoadInto(ix, snap.docs, snap.chunks);
    if loaded.Err? {
      return Err(loaded.error);
    }
    r := Ok(ix);
  }

  lemma NoDupInit(order: seq<Key>, key: Key)
    ensures NoDup(order + [key]) <==> NoDup(order) && key !in KeySet(order)
  {
    if NoDup(order + [key]) {
      forall i, j | 0 <= i < j < |order| ensures order[i] != order[j] {
        assert (order + [key])[i] != (order + [key])[j];
      }
      forall i | 0 <= i < |order| ensures order[i] != key {
        assert (order + [key])[i] != (order + [key])[|order|];
      }
    }
  }

  // The round trip

  /** What the snapshot of one chunk must say for Load to rebuild it. */
  ghost predicate Linked(v: View, key: Key) {
    key in v.chunks && v.chunks[key].chunk.docId in v.docs
    && var e := v.chunks[key];
       var doc := v.docs[e.chunk.docId].doc;
       && key == ChunkKey(e.chunk.docId, e.chunk.index)
       && InBounds(doc, SaveChunk(e)) && e == Restore(doc, SaveChunk(e))
  }

  lemma {:induction false} TableEntry(content: seq<Source>, key: Key) returns (i: nat, j: nat)
    requires Content(content) && key in Table(content)
    ensures i < |content| && j < |content[i].chunks| == |content[i].vectors|
    ensures key == ChunkKey(content[i].doc.id, j) && Table(content)[key] == EntryOf(content[i], j)
  {
    hide ChunkKey, ChunksOf;
    var init, last := content[..|content| - 1], content[|content| - 1];
    PiecesKeys(last, |last.chunks|);
    if key in Pieces(last, |last.chunks|) {
      i := |init|;
      j :| 0 <= j < |Keys(last)| && Keys(last)[j] == key;
    } else {
      i, j := TableEntry(init, key);
    }
  }

  lemma EveryLinked(v: View, content: seq<Source>, o: Options, key: Key)
    requires Holds(v, content, o) && key in v.chunks
    ensures Linked(v, key)
  {
    var i, j := TableEntry(content, key);
    assert Sound(content[i]);
    DocsAt(content, content[i].doc.id);
    hide ChunkKey, Table, Docs;
    assert v.chunks[key].chunk == content[i].chunks[j];
  }

  /** The keys of the other documents. */
  ghost function Others(v: View, id: string): set<Key>
    requires id in v.docs
  {
    v.chunks.Keys - KeySet(v.docs[id].keys)
  }

  /** A chunk belongs to the document that lists its key, and to no other. */
  lemma OwnedBy(v: View, content: seq<Source>, o: Options, key: Key, id: string)
    requires Holds(v, content, o) && key in v.chunks && id in v.docs
    ensures key in Others(v, id) <==> v.chunks[key].chunk.docId != id
  {
    var i, j := TableEntry(content, key);
    assert Sound(content[i]);
    DocsAt(content, id);
    hide ChunkKey, Table, Docs;
    var m :| 0 <= m < |content| && content[m].doc.id == id;
    assert v.chunks[key].chunk == content[i].chunks[j];
    assert Keys(content[i])[j] == key;
    if m != i {
      ForeignKeys(content[i], content[m]);
    }
  }

  ghost predicate RebuiltDoc(v: View, seen: seq<Key>, f: Fields, id: string) {
    && (id in f.docs <==> id in v.docs)
    && (id in v.docs ==> f.docs[id] == Entry(v.docs[id].doc, Filter(seen, Others(v, id))))
  }

  ghost predicate RebuiltChunk(v: View, seen: seq<Key>, f: Fields, key: Key) {
    && (key in f.chunks <==> key in seen)
    && (key in f.chunks ==> key in v.chunks && f.chunks[key] == v.chunks[key])
  }

  /** The fields Load has rebuilt once it has seen these keys. */
  ghost predicate Rebuilt(v: View, seen: seq<Key>, f: Fields) {
    && f.order == seen
    && (forall id {:trigger RebuiltDoc(v, seen, f, id)} :: RebuiltDoc(v, seen, f, id))
    && (forall key {:trigger RebuiltChunk(v, seen, f, key)} :: RebuiltChunk(v, seen, f, key))
  }

  lemma {:induction false} ByIdAt(docs: seq<Doc>, id: string)
    requires forall i, j | 0 <= i < j < |docs| :: docs[i].id != docs[j].id
    ensures id in ById(docs) <==> exists i :: 0 <= i < |docs| && docs[i].id == id
    ensures forall i | 0 <= i < |docs| && docs[i].id == id :: id in ById(docs) && ById(docs)[id] == Entry(docs[i], [])
  {
    if docs != [] {
      ByIdAt(docs[..|docs| - 1], id);
    }
  }

  lemma DocsRestored(v: View, content: seq<Source>, o: Options, snap: Snapshot, id: string)
    requires Holds(v, content, o) && Saved(v, o, snap)
    ensures id in ById(snap.docs) <==> id in v.docs
    ensures id in v.docs ==> ById(snap.docs)[id] == Entry(v.docs[id].doc, [])
  {
    ByIdAt(snap.docs, id);
    DocsAt(content, id);
    hide Holds, Docs, Table, Order, ById;
    if id in v.docs {
      var i :| 0 <= i < |snap.docs| && snap.docs[i] == v.docs[id].doc;
      assert snap.docs[i].id == id;
    }
  }

  lemma DocNext(v: View, content: seq<Source>, o: Options, seen: seq<Key>, key: Key, f: Fields, id: string)
    requires Holds(v, content, o) && key in v.chunks && v.chunks[key].chunk.docId in f.docs
    requires RebuiltDoc(v, seen, f, id)
    ensures var own := v.chunks[key].chunk.docId;
            RebuiltDoc(v, seen + [key],
                       f.(docs := f.docs[own := Entry(f.docs[own].doc, f.docs[own].keys + [key])]), id)
  {
    if id in v.docs {
      hide Holds, Others, Filter;
      OwnedBy(v, content, o, key, id);
    }
  }

  /** One saved chunk takes Load one key further. */
  lemma RebuiltNext(v: View, content: seq<Source>, o: Options, seen: seq<Key>, key: Key, f: Fields)
    requires Holds(v, content, o) && key in v.chunks && Rebuilt(v, seen, f)
    ensures LoadChunk(f, SaveChunk(v.chunks[key])).Ok?
    ensures Rebuilt(v, seen + [key], LoadChunk(f, SaveChunk(v.chunks[key])).value)
  {
    var own := v.chunks[key].chunk.docId;
    EveryLinked(v, content, o, key);
    assert RebuiltDoc(v, seen, f, own);
    hide Holds, Linked, LoadChunk, SaveChunk, Others, Filter;
    var keys := seen + [key];
    var next := Fields(f.docs[own := Entry(f.docs[own].doc, f.docs[own].keys + [key])], f.chunks[key := v.chunks[key]], f.order + [key]);
    forall id ensures RebuiltDoc(v, keys, next, id) {
      assert RebuiltDoc(v, seen, f, id);
      DocNext(v, content, o, seen, key, f, id);
    }
    forall k ensures RebuiltChunk(v, keys, next, k) {
      assert RebuiltChunk(v, seen, f, k);
    }
  }

  lemma RebuiltNone(v: View, content: seq<Source>, o: Options, snap: Snapshot)
    requires Holds(v, content, o) && Saved(v, o, snap)
    ensures LoadChunks(snap.docs, []).Ok? && Rebuilt(v, [], LoadChunks(snap.docs, []).value)
  {
    forall id ensures RebuiltDoc(v, [], LoadChunks(snap.docs, []).value, id) {
      DocsRestored(v, content, o, snap, id);
    }
  }

  lemma LoadNext(docs: seq<Doc>, chunks: seq<SavedChunk>, n: nat)
    requires 0 < n <= |chunks| && LoadChunks(docs, chunks[..n - 1]).Ok?
    ensures LoadChunks(docs, chunks[..n]) == LoadChunk(LoadChunks(docs, chunks[..n - 1]).value, chunks[n - 1])
  {
    assert chunks[..n][..n - 1] == chunks[..n - 1];
  }

  lemma SavedAt(v: View, o: Options, snap: Snapshot, n: nat)
    requires Saved(v, o, snap) && n < |v.order|
    ensures |snap.chunks| == |v.order| && v.order[n] in v.chunks && snap.chunks[n] == SaveChunk(v.chunks[v.order[n]])
  {
  }

  lemma {:induction false} RebuiltAll(v: View, content: seq<Source>, o: Options, snap: Snapshot, n: nat)
    requires Holds(v, content, o) && Saved(v, o, snap) && n <= |v.order| == |snap.chunks|
    ensures LoadChunks(snap.docs, snap.chunks[..n]).Ok?
    ensures Rebuilt(v, v.order[..n], LoadChunks(snap.docs, snap.chunks[..n]).value)
  {
    hide *;
    if n == 0 {
      assert snap.chunks[..0] == [] && v.order[..0] == [];
      RebuiltNone(v, content, o, snap);
    } else {
      var last := v.order[n - 1];
      RebuiltAll(v, content, o, snap, n - 1);
      SavedAt(v, o, snap, n - 1);
      LoadNext(snap.docs, snap.chunks, n);
      RebuiltNext(v, content, o, v.order[..n - 1], last, LoadChunks(snap.docs, snap.chunks[..n - 1]).value);
      assert v.order[..n] == v.order[..n - 1] + [last];
    }
  }

  /** The order lists a document's keys consecutively and in chunk order. */
  lemma {:induction false} KeepOwn(content: seq<Source>, at: nat, drop: set<Key>)
    requires DistinctIds(content) && at < |content| && drop !! KeySet(Keys(content[at]))
    requires forall m | 0 <= m < |content| && m != at :: KeySet(Keys(content[m])) <= drop
    ensures Filter(Order(content), drop) == Keys(content[at])
  {
    hide ChunkKey, Keys;
    var init, last := content[..|content| - 1], content[|content| - 1];
    FilterSplit(Order(init), Keys(last), drop);
    if at == |init| {
      DropsAll(init, drop);
      FilterNone(Keys(last), drop);
    } else {
      KeepOwn(init, at, drop);
      FilterEvery(Keys(last), drop);
    }
  }

  lemma {:induction false} DropsAll(content: seq<Source>, drop: set<Key>)
    requires forall m | 0 <= m < |content| :: KeySet(Keys(content[m])) <= drop
    ensures Filter(Order(content), drop) == []
  {
    if content != [] {
      hide ChunkKey, Keys;
      var init, last := content[..|content| - 1], content[|content| - 1];
      DropsAll(init, drop);
      FilterSplit(Order(init), Keys(last), drop);
      FilterEvery(Keys(last), drop);
    }
  }

  lemma KeysRestored(v: View, content: seq<Source>, o: Options, id: string)
    requires Holds(v, content, o) && id in v.docs
    ensures Filter(v.order, Others(v, id)) == v.docs[id].keys
  {
    DocsAt(content, id);
    TableOrder(content);
    hide ChunkKey, Table, Docs, ChunksOf, TermTable, Describes;
    var at :| 0 <= at < |content| && content[at].doc.id == id;
    var own := KeySet(Keys(content[at]));
    forall m | 0 <= m < |content| && m != at ensures KeySet(Keys(content[m])) <= Others(v, id) {
      ForeignKeys(content[m], content[at]);
      OrderHas(content, m);
    }
    KeepOwn(content, at, Others(v, id));
  }

  lemma {:induction false} OrderHas(content: seq<Source>, m: nat)
    requires m < |content|
    ensures KeySet(Keys(content[m])) <= KeySet(Order(content))
  {
    hide ChunkKey, Keys;
    if m < |content| - 1 {
      OrderHas(content[..|content| - 1], m);
    }
  }

  lemma {:induction false} OrderNoDup(content: seq<Source>)
    requires Paired(content) && DistinctIds(content)
    ensures NoDup(Order(content))
  {
    if content != [] {
      var init, last := content[..|content| - 1], content[|content| - 1];
      OrderNoDup(init);
      OwnKeys(last);
      OrderForeign(init, last);
      hide ChunkKey, Keys;
      var order := Order(init) + Keys(last);
      forall i, j | 0 <= i < j < |order| ensures order[i] != order[j] {
        assert order[i] in KeySet(Order(init)) || order[i] in KeySet(Keys(last));
        assert j >= |Order(init)| ==> order[j] in KeySet(Keys(last));
      }
    }
  }

  lemma RebuiltWhole(v: View, content: seq<Source>, o: Options, f: Fields)
    requires Holds(v, content, o) && Rebuilt(v, v.order, f)
    ensures f == Fields(v.docs, v.chunks, v.order)
  {
    TableOrder(content);
    forall id ensures id in f.docs <==> id in v.docs
      ensures id in v.docs ==> f.docs[id] == v.docs[id]
    {
      assert RebuiltDoc(v, v.order, f, id);
      if id in v.docs {
        KeysRestored(v, content, o, id);
        DocsAt(content, id);
      }
    }
    forall k ensures k in f.chunks <==> k in v.chunks
      ensures k in v.chunks ==> f.chunks[k] == v.chunks[k]
    {
      assert RebuiltChunk(v, v.order, f, k);
      assert k in v.order <==> k in KeySet(v.order);
    }
    hide *;
    assert f.docs == v.docs;
    assert f.chunks == v.chunks;
  }

  /** A snapshot of a sound index loads into exactly the fields that were saved. */
  lemma SaveLoads(v: View, content: seq<Source>, o: Options, snap: Snapshot)
    requires Holds(v, content, o) && Saved(v, o, snap)
    ensures LoadSnapshot(snap, o) == Ok(Fields(v.docs, v.chunks, v.order))
    ensures NoDup(v.order)
  {
    var n := |v.order|;
    RebuiltAll(v, content, o, snap, n);
    assert snap.chunks[..n] == snap.chunks && v.order[..n] == v.order;
    RebuiltWhole(v, content, o, LoadChunks(snap.docs, snap.chunks).value);
    OrderNoDup(content);
  }

  /** Saving an index and loading it under the same options gives an equal, separate index. */
  method RoundTrip(ix: Index) returns (r: Result<Index, LoadError>)
    requires ix.Valid()
    ensures r.Ok? && fresh(r.value) && r.value.Valid()
    ensures r.value.State() == ix.State() && r.value.content == ix.content
  {
    var snap := Save(ix);
    SaveLoads(ix.State(), ix.content, ix.o, snap);
    r := Load(snap, ix.o);
    hide NoDup, Saved, LoadSnapshot;
    var copy := r.value;
    copy.content := ix.content;
    HoldsUnique(copy.State(), ix.State(), ix.content, ix.o);
  }
}
