/**
 What the packing of rag/chunk.go should give, without its loops: which pieces
 share a window, where the next window starts, and when the last two are merged.
 */
module ChunkRules {
  import opened ChunkSplitters
  import opened RagTypes
  import Lists

  /** The size of a stretch of the text, in runes or tokens. */
  ghost function Size(c: Config, t: Text, from: nat, to: nat): nat {
    if from <= to <= |t| then c.UnitLen(t[from..to]) else 0
  }

  ghost predicate Oversized(c: Config, t: Text, p: Span) {
    Size(c, t, p.start, p.end) > c.MaxSize()
  }

  // The overlap

  /** From word n of the window on, every word starts a tail within the units; the word before does not. */
  ghost predicate LongestTail(c: Config, t: Text, prev: Span, words: seq<Span>, units: nat, n: nat) {
    && n <= |words|
    && (forall k | n <= k < |words| :: Size(c, t, words[k].start, prev.end) <= units)
    && (n > 0 ==> Size(c, t, words[n - 1].start, prev.end) > units)
  }

  /** Where the tail of a window that may be repeated starts: at its earliest word within the units. */
  ghost predicate TailAt(c: Config, t: Text, prev: Span, units: nat, at: nat) {
    In(t, prev)
    && if units == 0 then at == prev.end
       else if Wordless(t, prev) then at == prev.start
       else exists words: seq<Span>, n: nat ::
         WordsOf(t, prev, words) && LongestTail(c, t, prev, words, units, n) && at == if n == |words| then prev.end else words[n].start
  }

  /** The window behind prev that takes up this piece starts with the tail of prev if both fit together, else with the piece. */
  ghost predicate OpensAt(c: Config, t: Text, prev: Span, piece: Span, start: nat) {
    exists tail: nat :: TailAt(c, t, prev, c.EffectiveOverlap(), tail)
                   && start == if tail < prev.end && Size(c, t, tail, piece.end) <= c.MaxSize() then tail else piece.start
  }

  // Packing

  /** The pieces from..to - 1, and the windows they became. */
  datatype Part = Part(from: nat, to: nat, windows: seq<Span>)

  /** The pieces share one window, each of them fitted behind the ones before. */
  ghost predicate Shares(c: Config, t: Text, pieces: seq<Span>, part: Part)
    requires part.from < part.to <= |pieces|
  {
    && |part.windows| == 1 && part.windows[0].end == pieces[part.to - 1].end
    && forall k: nat {:trigger Oversized(c, t, pieces[k])} | part.from <= k < part.to ::
         !Oversized(c, t, pieces[k]) && Size(c, t, part.windows[0].start, pieces[k].end) <= c.MaxSize()
  }

  /** A window starts with its first piece, unless one comes right before it: then that had no room, and may lend its tail. */
  ghost predicate Opens(c: Config, t: Text, pieces: seq<Span>, prev: Part, part: Part)
    requires prev.from < |pieces| && part.from < |pieces| && |part.windows| == 1
  {
    var piece, start := pieces[part.from], part.windows[0].start;
    if Oversized(c, t, pieces[prev.from]) || |prev.windows| != 1 then start == piece.start
    else Size(c, t, prev.windows[0].start, piece.end) > c.MaxSize() && OpensAt(c, t, prev.windows[0], piece, start)
  }

  ghost predicate PartAt(c: Config, t: Text, pieces: seq<Span>, parts: seq<Part>, i: nat, depth: nat)
    requires i < |parts|
    decreases depth, 1
  {
    var part := parts[i];
    && part.from < part.to <= |pieces| && part.from == (if i == 0 then 0 else parts[i - 1].to)
    && (if Oversized(c, t, pieces[part.from]) then
          part.to == part.from + 1 && Refined(c, t, pieces[part.from], part.windows, depth)
        else
          && Shares(c, t, pieces, part)
          && (if i == 0 then part.windows[0].start == pieces[0].start
              else parts[i - 1].from < |pieces| && Opens(c, t, pieces, parts[i - 1], part)))
  }

  /** A piece over budget is split and its parts are packed; one that cannot be split is kept. */
  ghost predicate Refined(c: Config, t: Text, piece: Span, windows: seq<Span>, depth: nat)
    decreases depth, 0
  {
    exists sub: seq<Span> :: SplitOf(c, t, piece, sub)
                  && if sub == [piece] then windows == [piece] else depth > 0 && Packing(c, t, sub, windows, depth - 1)
  }

  ghost predicate Parts(c: Config, t: Text, pieces: seq<Span>, parts: seq<Part>, n: nat, depth: nat)
    decreases depth, 2
  {
    && n == (if parts == [] then 0 else parts[|parts| - 1].to)
    && forall i: nat {:trigger PartAt(c, t, pieces, parts, i, depth)} | i < |parts| :: PartAt(c, t, pieces, parts, i, depth)
  }

  function WindowsIn(parts: seq<Part>): seq<Span> {
    if parts == [] then [] else WindowsIn(parts[..|parts| - 1]) + parts[|parts| - 1].windows
  }

  /** The windows of a list of pieces. */
  ghost predicate Packing(c: Config, t: Text, pieces: seq<Span>, windows: seq<Span>, depth: nat)
    decreases depth, 3
  {
    exists parts: seq<Part> :: Parts(c, t, pieces, parts, |pieces|, depth) && windows == WindowsIn(parts)
  }

  // The document

  /** A paragraph that fits is one window; of any other the sentences are packed. */
  ghost predicate UnitOf(c: Config, t: Text, p: Span, windows: seq<Span>) {
    In(t, p)
    && if !Oversized(c, t, p) then windows == [p]
       else exists sentences: seq<Span> :: SentencesOf(t, p, sentences) && Packing(c, t, sentences, windows, p.end - p.start)
  }

  /** The last window joins the one before it if it is short and there is room. */
  ghost predicate Merged(c: Config, t: Text, ws: seq<Span>, r: seq<Span>) {
    var n := |ws|;
    r == if n >= 2 && Size(c, t, ws[n - 1].start, ws[n - 1].end) < c.MinSize()
            && Size(c, t, ws[n - 2].start, ws[n - 1].end) <= c.MaxSize()
         then ws[..n - 2] + [Span(ws[n - 2].start, ws[n - 1].end)] else ws
  }

  ghost predicate Units(c: Config, t: Text, paragraphs: seq<Span>, units: seq<seq<Span>>) {
    |units| == |paragraphs| && forall k: nat {:trigger UnitOf(c, t, paragraphs[k], units[k])} | k < |units| :: UnitOf(c, t, paragraphs[k], units[k])
  }

  /** The windows of a text. */
  ghost predicate Chunking(c: Config, t: Text, ws: seq<Span>) {
    exists paragraphs: seq<Span>, units: seq<seq<Span>> ::
      ParagraphsOf(t, paragraphs) && Units(c, t, paragraphs, units) && Merged(c, t, Lists.Concat(units), ws)
  }

  // Growing a packing

  /** The windows once the pending one is flushed. */
  function Flush(out: seq<Span>, cur: Span, curLen: nat): seq<Span> {
    if curLen > 0 then out + [cur] else out
  }

  /** After k pieces: the pending window, if any, is that of the last part. */
  ghost predicate Grouped(c: Config, t: Text, pieces: seq<Span>, k: nat, parts: seq<Part>, out: seq<Span>, cur: Span, curLen: nat, depth: nat)
    requires k <= |pieces|
  {
    && Parts(c, t, pieces, parts, k, depth) && WindowsIn(parts) == Flush(out, cur, curLen)
    && (if curLen > 0 then parts != [] && Pending(c, t, pieces, parts[|parts| - 1], cur) else parts == [] || Settled(c, t, pieces, parts[|parts| - 1]))
  }

  ghost predicate Pending(c: Config, t: Text, pieces: seq<Span>, part: Part, cur: Span) {
    part.from < |pieces| && !Oversized(c, t, pieces[part.from]) && part.windows == [cur]
  }

  ghost predicate Settled(c: Config, t: Text, pieces: seq<Span>, part: Part) {
    part.from < |pieces| && Oversized(c, t, pieces[part.from])
  }

  lemma WindowsMore(parts: seq<Part>, part: Part)
    ensures WindowsIn(parts + [part]) == WindowsIn(parts) + part.windows
  {
    assert (parts + [part])[..|parts|] == parts;
  }

  lemma PartsMore(c: Config, t: Text, pieces: seq<Span>, parts: seq<Part>, n: nat, part: Part, depth: nat)
    requires Parts(c, t, pieces, parts, n, depth) && PartAt(c, t, pieces, parts + [part], |parts|, depth)
    ensures Parts(c, t, pieces, parts + [part], part.to, depth)
  {
    hide Oversized, Shares, Opens, Refined;
    var more := parts + [part];
    forall i: nat | i < |more| ensures PartAt(c, t, pieces, more, i, depth) {
      if i < |parts| {
        assert PartAt(c, t, pieces, parts, i, depth);
      }
    }
  }

  lemma GroupedNone(c: Config, t: Text, pieces: seq<Span>, depth: nat)
    ensures Grouped(c, t, pieces, 0, [], [], Span(0, 0), 0, depth)
  {
  }

  /** A piece within the budget opens a window. */
  lemma GroupOpens(c: Config, t: Text, pieces: seq<Span>, k: nat, parts: seq<Part>, out: seq<Span>, cur: Span, curLen: nat,
                   w: Span, len: nat, depth: nat)
    requires k < |pieces| && Grouped(c, t, pieces, k, parts, out, cur, curLen, depth)
    requires !Oversized(c, t, pieces[k]) && w.end == pieces[k].end && Size(c, t, w.start, w.end) <= c.MaxSize() && len > 0
    requires if curLen == 0 then w.start == pieces[k].start
             else Size(c, t, cur.start, pieces[k].end) > c.MaxSize() && OpensAt(c, t, cur, pieces[k], w.start)
    ensures Grouped(c, t, pieces, k + 1, parts + [Part(k, k + 1, [w])], Flush(out, cur, curLen), w, len, depth)
  {
    hide Oversized, OpensAt, Size, Refined;
    var part := Part(k, k + 1, [w]);
    WindowsMore(parts, part);
    OpensPart(c, t, pieces, k, parts, cur, curLen, w, depth);
    hide PartAt;
    PartsMore(c, t, pieces, parts, k, part, depth);
  }

  lemma OpensPart(c: Config, t: Text, pieces: seq<Span>, k: nat, parts: seq<Part>, cur: Span, curLen: nat, w: Span, depth: nat)
    requires k < |pieces| && k == (if parts == [] then 0 else parts[|parts| - 1].to)
    requires if curLen > 0 then parts != [] && Pending(c, t, pieces, parts[|parts| - 1], cur)
             else parts == [] || Settled(c, t, pieces, parts[|parts| - 1])
    requires !Oversized(c, t, pieces[k]) && w.end == pieces[k].end && Size(c, t, w.start, w.end) <= c.MaxSize()
    requires if curLen == 0 then w.start == pieces[k].start
             else Size(c, t, cur.start, pieces[k].end) > c.MaxSize() && OpensAt(c, t, cur, pieces[k], w.start)
    ensures PartAt(c, t, pieces, parts + [Part(k, k + 1, [w])], |parts|, depth)
  {
    hide Oversized, OpensAt, Size, Refined;
    var part := Part(k, k + 1, [w]);
    var more := parts + [part];
    assert more[|parts|] == part && Shares(c, t, pieces, part);
    if parts != [] {
      assert more[|parts| - 1] == parts[|parts| - 1];
      assert Opens(c, t, pieces, parts[|parts| - 1], part);
    }
    hide Shares, Opens;
  }

  lemma PartGrows(c: Config, t: Text, pieces: seq<Span>, parts: seq<Part>, k: nat, w: Span, depth: nat)
    requires parts != [] && k < |pieces| && PartAt(c, t, pieces, parts, |parts| - 1, depth)
    requires var last := parts[|parts| - 1];
             last.to == k && !Oversized(c, t, pieces[last.from]) && |last.windows| == 1 && w == last.windows[0].(end := pieces[k].end)
    requires !Oversized(c, t, pieces[k]) && Size(c, t, w.start, pieces[k].end) <= c.MaxSize()
    ensures var n := |parts| - 1; PartAt(c, t, pieces, parts[..n] + [Part(parts[n].from, k + 1, [w])], n, depth)
  {
    hide Oversized, OpensAt, Size, Refined, Opens;
    var n := |parts| - 1;
    var more := parts[..n] + [Part(parts[n].from, k + 1, [w])];
    SharesMore(c, t, pieces, parts[n], k, w);
    assert n > 0 ==> more[n - 1] == parts[n - 1];
    assert |more| == n + 1 && more[n].windows[0].start == parts[n].windows[0].start;
    if n > 0 {
      OpensMore(c, t, pieces, parts[n - 1], parts[n], more[n]);
    }
    hide Shares;
  }

  lemma SharesMore(c: Config, t: Text, pieces: seq<Span>, part: Part, k: nat, w: Span)
    requires part.from < part.to == k < |pieces| && Shares(c, t, pieces, part) && w == part.windows[0].(end := pieces[k].end)
    requires !Oversized(c, t, pieces[k]) && Size(c, t, w.start, pieces[k].end) <= c.MaxSize()
    ensures Shares(c, t, pieces, Part(part.from, k + 1, [w]))
  {
    hide Oversized, Size;
    assert part.windows == [part.windows[0]];
  }

  /** Only the start of a window says how it opens. */
  lemma OpensMore(c: Config, t: Text, pieces: seq<Span>, prev: Part, a: Part, b: Part)
    requires prev.from < |pieces| && a.from == b.from < |pieces| && |a.windows| == 1 == |b.windows|
    requires a.windows[0].start == b.windows[0].start && Opens(c, t, pieces, prev, a)
    ensures Opens(c, t, pieces, prev, b)
  {
    hide Oversized, Size, OpensAt;
  }

  /** A piece joins the pending window. */
  lemma GroupJoins(c: Config, t: Text, pieces: seq<Span>, k: nat, parts: seq<Part>, out: seq<Span>, cur: Span, curLen: nat,
                   len: nat, depth: nat)
    requires k < |pieces| && curLen > 0 && Grouped(c, t, pieces, k, parts, out, cur, curLen, depth)
    requires !Oversized(c, t, pieces[k]) && Size(c, t, cur.start, pieces[k].end) <= c.MaxSize() && len > 0
    ensures parts != []
    ensures var last := parts[|parts| - 1]; var w := cur.(end := pieces[k].end);
            Grouped(c, t, pieces, k + 1, parts[..|parts| - 1] + [Part(last.from, k + 1, [w])], out, w, len, depth)
  {
    hide Oversized, OpensAt, Size, Refined;
    var n := |parts| - 1;
    var init, last, w := parts[..n], parts[n], cur.(end := pieces[k].end);
    var part := Part(last.from, k + 1, [w]);
    assert WindowsIn(init) == out by {
      assert (WindowsIn(init) + [cur])[..|WindowsIn(init)|] == WindowsIn(init) && (out + [cur])[..|out|] == out;
    }
    WindowsMore(init, part);
    PartsInit(c, t, pieces, parts, k, depth);
    assert PartAt(c, t, pieces, parts, n, depth);
    PartGrows(c, t, pieces, parts, k, w, depth);
    hide PartAt;
    PartsMore(c, t, pieces, init, last.from, part, depth);
  }

  lemma PartsInit(c: Config, t: Text, pieces: seq<Span>, parts: seq<Part>, n: nat, depth: nat)
    requires Parts(c, t, pieces, parts, n, depth) && parts != []
    ensures Parts(c, t, pieces, parts[..|parts| - 1], parts[|parts| - 1].from, depth)
  {
    hide Oversized, Shares, Opens, Refined;
    var init := parts[..|parts| - 1];
    assert PartAt(c, t, pieces, parts, |parts| - 1, depth);
    forall i: nat | i < |init| ensures PartAt(c, t, pieces, init, i, depth) {
      assert PartAt(c, t, pieces, parts, i, depth);
    }
  }

  /** A piece over budget has its own windows. */
  lemma GroupRefines(c: Config, t: Text, pieces: seq<Span>, k: nat, parts: seq<Part>, out: seq<Span>, cur: Span, curLen: nat,
                     more: seq<Span>, depth: nat)
    requires k < |pieces| && Grouped(c, t, pieces, k, parts, out, cur, curLen, depth)
    requires Oversized(c, t, pieces[k]) && Refined(c, t, pieces[k], more, depth)
    ensures Grouped(c, t, pieces, k + 1, parts + [Part(k, k + 1, more)], Flush(out, cur, curLen) + more, Span(0, 0), 0, depth)
  {
    hide Oversized, OpensAt, Size, Refined;
    var part := Part(k, k + 1, more);
    WindowsMore(parts, part);
    assert PartAt(c, t, pieces, parts + [part], |parts|, depth);
    PartsMore(c, t, pieces, parts, k, part, depth);
  }
}
