/**
 The hybrid index of rag/index.go: Add, re-Add and Remove keep every field equal
 to what a fresh index built from the surviving documents would hold.
 */
module RagIndex {
  import opened Bm25
  import opened ChunkKeys
  import opened RagContent
  import opened RagTypes
  import opened Wrappers
  import Bm25Index

  /** One text handed to the embedder: prefix, title when it is put in front, chunk text. */
  datatype EmbedInput = EmbedInput(prefix: string, title: Option<string>, text: Text)

  datatype Options = Options(
    embedder: bool, embedderId: string, docPrefix: string, titlePrefix: bool, stopwords: set<Term>,
    split: Doc -> seq<Chunk>, terms: (string, Text) -> seq<Term>)

  datatype AddError = Cancelled | EmbedFailed | WrongCount

  /** The chunker gives slices of its document, as proved of `Chunker.Split`. */
  ghost predicate Usable(o: Options) {
    forall doc :: ChunksOf(doc, o.split(doc))
  }

  /** Everything the index holds, except `dim`, which nothing reads. */
  datatype View = View(docs: map<string, Entry>, chunks: map<Key, ChunkEntry>, order: seq<Key>, stats: Stats)

  ghost predicate Holds(v: View, content: seq<Source>, o: Options) {
    && Content(content)
    && v.chunks == Table(content) && v.order == Order(content) && v.docs == Docs(content)
    && Describes(v.stats, TermTable(v.chunks, o.terms, o.stopwords))
  }

  /** The content decides every field. */
  lemma HoldsUnique(v: View, v': View, content: seq<Source>, o: Options)
    requires Holds(v, content, o) && Holds(v', content, o)
    ensures v == v'
  {
    DescribesUnique(v.stats, v'.stats, TermTable(v.chunks, o.terms, o.stopwords));
  }

  // What Add does to the content

  function DocInputs(doc: Doc, o: Options): (r: seq<EmbedInput>)
    ensures |r| == |o.split(doc)|
  {
    var title := if o.titlePrefix && doc.title != "" then Some(doc.title) else None;
    seq(|o.split(doc)|, j requires 0 <= j < |o.split(doc)| => EmbedInput(o.docPrefix, title, o.split(doc)[j].text))
  }

  function Inputs(docs: seq<Doc>, o: Options): seq<EmbedInput> {
    if docs == [] then [] else Inputs(docs[..|docs| - 1], o) + DocInputs(docs[|docs| - 1], o)
  }

  /** Each document gets its chunks and its own stretch of the vectors. */
  function Plan(docs: seq<Doc>, vectors: seq<Vector>, o: Options): (plan: seq<Source>)
    requires |vectors| == |Inputs(docs, o)|
    ensures |plan| == |docs|
  {
    if docs == [] then []
    else
      var init, last := docs[..|docs| - 1], docs[|docs| - 1];
      var n := |Inputs(init, o)|;
      Plan(init, vectors[..n], o) + [Source(last, o.split(last), vectors[n..])]
  }

  function AfterAdd(content: seq<Source>, plan: seq<Source>): seq<Source> {
    if plan == [] then content
    else
      var last := plan[|plan| - 1];
      Without(AfterAdd(content, plan[..|plan| - 1]), last.doc.id) + [last]
  }

  function AfterRemove(content: seq<Source>, ids: seq<string>): seq<Source> {
    if ids == [] then content else Without(AfterRemove(content, ids[..|ids| - 1]), ids[|ids| - 1])
  }

  lemma {:induction false} PlanSound(docs: seq<Doc>, vectors: seq<Vector>, o: Options)
    requires |vectors| == |Inputs(docs, o)| && Usable(o)
    ensures forall i | 0 <= i < |docs| :: Sound(Plan(docs, vectors, o)[i])
    ensures forall i | 0 <= i < |docs| :: Plan(docs, vectors, o)[i].doc == docs[i]
    ensures forall i | 0 <= i < |docs| :: Plan(docs, vectors, o)[i].chunks == o.split(docs[i])
  {
    if docs != [] {
      var n := |docs| - 1;
      var m := |Inputs(docs[..n], o)|;
      PlanSound(docs[..n], vectors[..m], o);
      assert ChunksOf(docs[n], o.split(docs[n]));
    }
  }

  /** The vectors of the plan, laid end to end, are the embedder's answer in order. */
  lemma {:induction false} PlanVectors(docs: seq<Doc>, vectors: seq<Vector>, o: Options)
    requires |vectors| == |Inputs(docs, o)|
    ensures VectorsOf(Plan(docs, vectors, o)) == vectors
  {
    if docs != [] {
      var n := |Inputs(docs[..|docs| - 1], o)|;
      PlanVectors(docs[..|docs| - 1], vectors[..n], o);
      var plan := Plan(docs, vectors, o);
      assert plan[..|plan| - 1] == Plan(docs[..|docs| - 1], vectors[..n], o);
      assert vectors == vectors[..n] + vectors[n..];
    }
  }

  function VectorsOf(plan: seq<Source>): seq<Vector> {
    if plan == [] then [] else VectorsOf(plan[..|plan| - 1]) + plan[|plan| - 1].vectors
  }

  lemma AppendContent(content: seq<Source>, src: Source)
    requires Content(content) && Sound(src) && forall i | 0 <= i < |content| :: content[i].doc.id != src.doc.id
    ensures Content(content + [src])
  {
  }

  lemma {:induction false} AfterAddContent(content: seq<Source>, plan: seq<Source>)
    requires Content(content) && forall i | 0 <= i < |plan| :: Sound(plan[i])
    ensures Content(AfterAdd(content, plan))
  {
    if plan != [] {
      var last, before := plan[|plan| - 1], AfterAdd(content, plan[..|plan| - 1]);
      AfterAddContent(content, plan[..|plan| - 1]);
      WithoutContent(before, last.doc.id);
      AppendContent(Without(before, last.doc.id), last);
    }
  }

  /** Adding documents with distinct IDs to a fresh index gives exactly those documents, in that order. */
  lemma {:induction false} FreshAdd(plan: seq<Source>)
    requires DistinctIds(plan)
    ensures AfterAdd([], plan) == plan
  {
    if plan != [] {
      var init, last := plan[..|plan| - 1], plan[|plan| - 1];
      FreshAdd(init);
      WithoutNothing(init, last.doc.id);
      assert plan == init + [last];
    }
  }

  // One chunk in or out of the table, seen from the corpus

  lemma CorpusPlus(chunks: map<Key, ChunkEntry>, key: Key, e: ChunkEntry, o: Options)
    ensures TermTable(chunks[key := e], o.terms, o.stopwords) ==
            TermTable(chunks, o.terms, o.stopwords)[key := Bm25Index.Kept(o.terms(e.title, e.chunk.text), o.stopwords)]
  {
  }

  lemma CorpusMinus(chunks: map<Key, ChunkEntry>, key: Key, o: Options)
    ensures TermTable(chunks - {key}, o.terms, o.stopwords) == TermTable(chunks, o.terms, o.stopwords) - {key}
  {
  }

  lemma SameKeys(s: Stats, c: Corpus)
    requires Describes(s, c)
    ensures s.df.Keys == s.postings.Keys
  {
    forall t ensures t in s.df <==> t in s.postings {
      assert DescribesTerm(s, c, t);
    }
  }

  lemma NoPieces(chunks: map<Key, ChunkEntry>, src: Source)
    requires Sound(src)
    ensures |src.vectors| == |src.chunks| && chunks == chunks + Pieces(src, 0)
  {
  }

  lemma PieceIndex(src: Source, j: nat)
    requires Sound(src) && j < |src.chunks|
    ensures src.chunks[j].index == j && |src.chunks| == |src.vectors| == |Keys(src)|
    ensures Keys(src)[j] == ChunkKey(src.doc.id, j)
  {
    hide ChunkKey;
  }

  lemma PieceFresh(chunks: map<Key, ChunkEntry>, src: Source, j: nat)
    requires |src.chunks| == |src.vectors| && chunks.Keys !! KeySet(Keys(src)) && j < |src.chunks|
    ensures Keys(src)[j] !in chunks + Pieces(src, j)
  {
    hide ChunkKey, Keys, Pieces;
    var ks := Keys(src);
    OwnKeys(src);
    PiecesKeys(src, j);
    assert ks[j] in KeySet(ks);
    assert ks[j] !in ks[..j];
  }

  lemma NextPiece(chunks: map<Key, ChunkEntry>, src: Source, j: nat)
    requires Sound(src) && chunks.Keys !! KeySet(Keys(src)) && j < |src.chunks|
    ensures src.chunks[j].index == j && |src.chunks| == |src.vectors|
    ensures ChunkKey(src.doc.id, j) !in chunks + Pieces(src, j)
    ensures chunks + Pieces(src, j + 1) == (chunks + Pieces(src, j))[ChunkKey(src.doc.id, j) := EntryOf(src, j)]
    ensures Keys(src)[..j + 1] == Keys(src)[..j] + [ChunkKey(src.doc.id, j)]
  {
    hide ChunksOf, Sound, ChunkKey, Keys, EntryOf, KeySet;
    PieceIndex(src, j);
    PieceFresh(chunks, src, j);
    var key := ChunkKey(src.doc.id, j);
    assert Pieces(src, j + 1) == Pieces(src, j)[key := EntryOf(src, j)];
    hide Pieces;
    assert Keys(src)[..j + 1] == Keys(src)[..j] + [key];
  }

  method RemoveAll(order: seq<Key>, remove: seq<Key>) returns (out: seq<Key>)
    ensures out == Filter(order, KeySet(remove))
  {
    if |remove| == 0 {
      FilterNone(order, KeySet(remove));
      out := order;
      return;
    }
    var drop: set<Key> := {};
    for i := 0 to |remove|
      invariant drop == KeySet(remove[..i])
    {
      drop := drop + {remove[i]};
      assert remove[..i + 1] == remove[..i] + [remove[i]];
    }
    assert remove[..|remove|] == remove;
    out := [];
    for i := 0 to |order|
      invariant out == Filter(order[..i], drop)
    {
      assert order[..i + 1][..i] == order[..i];
      if order[i] !in drop {
        out := out + [order[i]];
      }
    }
    assert order[..|order|] == order;
  }

  class Index {
    const o: Options
    const bm25: Bm25Index.Index
    var docs: map<string, Entry>
    var chunks: map<Key, ChunkEntry>
    var order: seq<Key>
    ghost var content: seq<Source>

    ghost function State(): View
      reads this, bm25
    {
      View(docs, chunks, order, bm25.State())
    }

    ghost predicate Valid()
      reads this, bm25
    {
      && Usable(o) && bm25.stopwords == o.stopwords
      && Holds(State(), content, o)
    }

    ghost predicate Indexed()
      reads this, bm25
    {
      bm25.stopwords == o.stopwords && Describes(bm25.State(), TermTable(chunks, o.terms, o.stopwords))
    }

    constructor (o: Options)
      requires Usable(o)
      ensures Valid() && content == [] && this.o == o && fresh(bm25)
    {
      this.o := o;
      bm25 := new Bm25Index.Index(o.stopwords);
      docs, chunks, order, content := map[], map[], [], [];
      new;
      assert TermTable(map[], o.terms, o.stopwords) == map[];
    }

    method DropChunk(key: Key)
      requires Indexed()
      modifies `chunks, bm25
      ensures Indexed() && chunks == old(chunks) - {key}
    {
      ghost var s := bm25.State();
      SameKeys(s, TermTable(chunks, o.terms, o.stopwords));
      bm25.Remove(key);
      RemoveAny(s, TermTable(chunks, o.terms, o.stopwords), key, bm25.State());
      CorpusMinus(chunks, key, o);
      chunks := chunks - {key};
    }

    /** The loop that unindexes the chunks of one document. */
    method DropChunks(keys: seq<Key>)
      requires Indexed()
      modifies `chunks, bm25
      ensures Indexed() && chunks == old(chunks) - KeySet(keys)
    {
      for i := 0 to |keys|
        invariant Indexed() && chunks == old(chunks) - KeySet(keys[..i])
      {
        DropChunk(keys[i]);
        assert keys[..i + 1] == keys[..i] + [keys[i]];
      }
      assert keys[..|keys|] == keys;
    }

    method AddChunk(key: Key, e: ChunkEntry)
      requires Indexed() && key !in chunks
      modifies `chunks, bm25
      ensures Indexed() && chunks == old(chunks)[key := e]
    {
      ghost var s := bm25.State();
      bm25.Add(key, o.terms(e.title, e.chunk.text));
      AddFresh(s, TermTable(chunks, o.terms, o.stopwords), key,
               Bm25Index.Kept(o.terms(e.title, e.chunk.text), o.stopwords), bm25.State());
      CorpusPlus(chunks, key, e, o);
      chunks := chunks[key := e];
    }

    /** Takes a document's chunks and order entries out; the caller deals with `docs`. */
    method DropDocument(id: string)
      requires Valid() && id in docs
      modifies `chunks, `order, bm25
      ensures Indexed()
      ensures Content(Without(content, id))
      ensures chunks == Table(Without(content, id)) && order == Order(Without(content, id))
    {
      hide Pieces, ChunkKey, TermTable, Describes, Table, Order, Without, Docs, Filter, ChunksOf;
      DocsAt(content, id);
      ghost var at :| 0 <= at < |content| && content[at].doc.id == id;
      DropTable(content, at);
      DropOrder(content, at);
      WithoutContent(content, id);
      var keys := docs[id].keys;
      DropChunks(keys);
      order := RemoveAll(order, keys);
    }

    /** The loop that indexes the chunks of one document. */
    method AddChunks(src: Source) returns (keys: seq<Key>)
      requires Indexed() && Sound(src)
      requires chunks.Keys !! KeySet(Keys(src))
      modifies `chunks, `order, bm25
      ensures Indexed() && keys == Keys(src)
      ensures chunks == old(chunks) + Pieces(src, |src.chunks|)
      ensures order == old(order) + Keys(src)
    {
      hide ChunkKey, TermTable, Describes, ChunksOf, Sound, Keys, KeySet, Pieces;
      keys := [];
      NoPieces(chunks, src);
      for j := 0 to |src.chunks|
        invariant Indexed() && keys == Keys(src)[..j]
        invariant chunks == old(chunks) + Pieces(src, j)
        invariant order == old(order) + keys
      {
        NextPiece(old(chunks), src, j);
        var key := ChunkKey(src.doc.id, src.chunks[j].index);
        AddChunk(key, EntryOf(src, j));
        order := order + [key];
        keys := keys + [key];
      }
      assert Keys(src)[..|src.chunks|] == Keys(src);
    }

    /** One document of the final loop of `Add`. */
    method AddDocument(src: Source)
      requires Valid() && Sound(src)
      modifies this, bm25
      ensures Valid() && content == Without(old(content), src.doc.id) + [src]
    {
      hide Pieces, ChunkKey, TermTable, Describes, Table, Order, Without, Docs, Keys, KeySet, ChunksOf;
      var id := src.doc.id;
      ghost var rest := Without(content, id);
      DocsAt(content, id);
      if id in docs {
        DropDocument(id);
      } else {
        WithoutNothing(content, id);
      }
      WithoutContent(content, id);
      DocsWithout(content, id);
      ForeignTable(rest, src);
      var keys := AddChunks(src);
      Append(rest, src);
      AppendContent(rest, src);
      assert docs[id := Entry(src.doc, keys)] == (docs - {id})[id := Entry(src.doc, keys)];
      docs := docs[id := Entry(src.doc, keys)];
      content := rest + [src];
    }

    method Add(batch: seq<Doc>, cancelled: bool, embed: seq<EmbedInput> -> Option<seq<Vector>>) returns (r: Result<(), AddError>)
      requires Valid()
      modifies this, bm25
      ensures Valid()
      ensures r.Err? ==> State() == old(State()) && content == old(content)
      ensures r.Ok? ==> exists vectors: seq<Vector> {:trigger Vectors(batch, embed, vectors, o)} ::
                          Vectors(batch, embed, vectors, o) && content == AfterAdd(old(content), Plan(batch, vectors, o))
      ensures r.Err? <==> batch != [] && (cancelled || EmbedFault(batch, embed, o).Some?)
    {
      hide Pieces, ChunkKey, TermTable, Describes, Table, Order, Without, Docs, Keys, KeySet, ChunksOf, Plan;
      if |batch| == 0 {
        assert Vectors(batch, embed, [], o);
        return Ok(());
      }
      if cancelled {
        return Err(Cancelled);
      }
      var texts := Inputs(batch, o);
      var vectors: seq<Vector> := seq(|texts|, _ => []);
      if o.embedder && |texts| > 0 {
        match embed(texts)
        case None => return Err(EmbedFailed);
        case Some(results) =>
          if |results| != |texts| {
            return Err(WrongCount);
          }
          vectors := results;
      }
      assert Vectors(batch, embed, vectors, o);
      var plan := Plan(batch, vectors, o);
      PlanSound(batch, vectors, o);
      for i := 0 to |plan|
        invariant Valid() && content == AfterAdd(old(content), plan[..i])
      {
        AddDocument(plan[i]);
        assert plan[..i + 1][..i] == plan[..i];
      }
      assert plan[..|plan|] == plan;
      r := Ok(());
    }

    method Remove(ids: seq<string>) returns (removed: nat)
      requires Valid()
      modifies this, bm25
      ensures Valid() && content == AfterRemove(old(content), ids)
      ensures removed == |old(content)| - |content|
    {
      hide Pieces, ChunkKey, TermTable, Describes, Table, Order, Without, Docs, Keys, KeySet, ChunksOf;
      removed := 0;
      for i := 0 to |ids|
        invariant Valid() && content == AfterRemove(old(content), ids[..i])
        invariant removed == |old(content)| - |content|
      {
        assert ids[..i + 1][..i] == ids[..i];
        ghost var rest := Without(content, ids[i]);
        DocsAt(content, ids[i]);
        if ids[i] in docs {
          DocsWithout(content, ids[i]);
          WithoutSize(content, ids[i]);
          DropDocument(ids[i]);
          docs := docs - {ids[i]};
          content := rest;
          removed := removed + 1;
        } else {
          WithoutNothing(content, ids[i]);
        }
      }
      assert ids[..|ids|] == ids;
    }
  }

  /** The vectors Add hands out: the embedder's answer, or none for every chunk. */
  ghost predicate Vectors(batch: seq<Doc>, embed: seq<EmbedInput> -> Option<seq<Vector>>, vectors: seq<Vector>, o: Options) {
    && |vectors| == |Inputs(batch, o)|
    && if o.embedder && vectors != [] then embed(Inputs(batch, o)) == Some(vectors)
       else forall i | 0 <= i < |vectors| :: vectors[i] == []
  }

  function EmbedFault(batch: seq<Doc>, embed: seq<EmbedInput> -> Option<seq<Vector>>, o: Options): Option<AddError> {
    if !o.embedder || Inputs(batch, o) == [] then None
    else
      match embed(Inputs(batch, o))
      case None => Some(EmbedFailed)
      case Some(vectors) => if |vectors| == |Inputs(batch, o)| then None else Some(WrongCount)
  }

  lemma {:induction false} WithoutSize(content: seq<Source>, id: string)
    requires DistinctIds(content) && exists i :: 0 <= i < |content| && content[i].doc.id == id
    ensures |Without(content, id)| == |content| - 1
  {
    var init, last := content[..|content| - 1], content[|content| - 1];
    if last.doc.id == id {
      WithoutNothing(init, id);
    } else {
      var i :| 0 <= i < |content| && content[i].doc.id == id;
      assert init[i].doc.id == id;
      WithoutSize(init, id);
    }
  }

  // Whole runs

  datatype Command = AddDocs(plan: seq<Source>) | RemoveIds(ids: seq<string>)

  function Run(commands: seq<Command>): seq<Source> {
    if commands == [] then []
    else
      var before := Run(commands[..|commands| - 1]);
      match commands[|commands| - 1]
      case AddDocs(plan) => AfterAdd(before, plan)
      case RemoveIds(ids) => AfterRemove(before, ids)
  }

  lemma {:induction false} AfterRemoveContent(content: seq<Source>, ids: seq<string>)
    requires Content(content)
    ensures Content(AfterRemove(content, ids))
    ensures forall src :: src in AfterRemove(content, ids) <==> src in content && src.doc.id !in ids
  {
    if ids != [] {
      var rest := ids[..|ids| - 1];
      assert ids == rest + [ids[|ids| - 1]];
      AfterRemoveContent(content, rest);
      WithoutContent(AfterRemove(content, rest), ids[|ids| - 1]);
      WithoutIds(AfterRemove(content, rest), ids[|ids| - 1]);
    }
  }

  lemma {:induction false} RunContent(commands: seq<Command>)
    requires forall c | c in commands && c.AddDocs? :: forall i | 0 <= i < |c.plan| :: Sound(c.plan[i])
    ensures Content(Run(commands))
  {
    if commands != [] {
      var init, last := commands[..|commands| - 1], commands[|commands| - 1];
      RunContent(init);
      match last
      case AddDocs(plan) =>
        assert last in commands;
        AfterAddContent(Run(init), plan);
      case RemoveIds(ids) =>
        AfterRemoveContent(Run(init), ids);
    }
  }

  /**
   After any run of Add, re-Add and Remove, an index agrees in every field with
   a rebuilt one to which the surviving documents were added once, in order.
   */
  lemma RunIsRebuild(commands: seq<Command>, v: View, rebuilt: View, o: Options)
    requires forall c | c in commands && c.AddDocs? :: forall i | 0 <= i < |c.plan| :: Sound(c.plan[i])
    requires Holds(v, Run(commands), o) && Holds(rebuilt, AfterAdd([], Run(commands)), o)
    ensures v == rebuilt
  {
    RunContent(commands);
    FreshAdd(Run(commands));
    HoldsUnique(v, rebuilt, Run(commands), o);
  }

  /** Re-adding a document moves it to the end and changes nothing else of the content. */
  lemma ReAddMoves(content: seq<Source>, src: Source)
    requires Content(content) && Sound(src)
    ensures AfterAdd(content, [src]) == Without(content, src.doc.id) + [src]
    ensures AfterAdd(AfterAdd(content, [src]), [src]) == AfterAdd(content, [src])
  {
    assert [src][..0] == [];
    var rest := Without(content, src.doc.id);
    assert AfterAdd(content, []) == content;
    WithoutContent(content, src.doc.id);
    WithoutNothing(rest, src.doc.id);
    WithoutAppend(rest, src, src.doc.id);
    assert rest + [] == rest;
    assert AfterAdd(rest + [src], []) == rest + [src];
  }
}
