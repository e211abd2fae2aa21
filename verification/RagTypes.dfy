/** Documents and chunks, as rag/rag.go declares them. */
module RagTypes {
  import opened Utf8

  type Text = Bytes

  /** The stretch from start up to end of a text. */
  datatype Span = Span(start: nat, end: nat)

  datatype Doc = Doc(id: string, title: string, path: string, text: Text, kind: string, time: int, meta: map<string, string>)

  datatype Chunk = Chunk(docId: string, index: nat, text: Text, start: nat, end: nat)

  /** What Split promises of its chunks: slices of the document, numbered, with rising starts and ends. */
  ghost predicate ChunksOf(doc: Doc, chunks: seq<Chunk>) {
    && (forall k | 0 <= k < |chunks| ::
          && chunks[k].docId == doc.id && chunks[k].index == k
          && chunks[k].start < chunks[k].end <= |doc.text|
          && chunks[k].text == doc.text[chunks[k].start..chunks[k].end])
    && (forall k, k' | 0 <= k < k' < |chunks| ::
          chunks[k].start < chunks[k'].start && chunks[k].end < chunks[k'].end)
  }
}
