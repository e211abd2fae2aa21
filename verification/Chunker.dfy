/**
 The document chunker of rag/chunk.go: the pieces of each paragraph packed
 greedily into windows that fit a budget.
 */
module Chunker {
  import opened Wrappers
  import opened Utf8
  import opened RagTypes
  import opened ChunkSplitters
  import opened ChunkRules
  import Lists

  // Packing

  /** The next window starts and ends later, and repeats no more than the overlap. */
  predicate Chain(c: Config, t: Text, prev: Span, next: Span) {
    && prev.start < next.start <= |t| && prev.end < next.end && prev.end <= |t|
    && (next.start < prev.end ==> c.UnitLen(t[next.start..prev.end]) <= c.EffectiveOverlap())
  }

  ghost predicate Windows(c: Config, t: Text, ws: seq<Span>, lo: nat, hi: nat) {
    && hi <= |t|
    && (forall k | 0 <= k < |ws| :: lo <= ws[k].start < ws[k].end <= hi && Fits(c, t, ws[k]))
    && (forall k | 0 < k < |ws| :: Chain(c, t, ws[k - 1], ws[k]))
  }

  ghost predicate CoversPieces(t: Text, pieces: seq<Span>, ws: seq<Span>) {
    forall i | 0 <= i < |t| && Hit(pieces, i) && !IsUnicodeSpace(t[i]) :: Hit(ws, i)
  }

  method OverlapPoint(c: Config, t: Text, prev: Span, units: nat) returns (start: nat)
    requires In(t, prev)
    ensures prev.start <= start <= prev.end
    ensures start < prev.end ==> start == prev.start || c.UnitLen(t[start..prev.end]) <= units
    ensures start < prev.end ==> WordStart(t, prev.start, start)
    ensures TailAt(c, t, prev, units, start)
  {
    hide WordsOf, Covers, TailAt, Wordless, IsSpace, IsUnicodeSpace;
    if units == 0 {
      NoTail(c, t, prev);
      return prev.end;
    }
    var words := SplitWhitespace(t, prev);
    WordsHold(t, prev, words);
    WordsOrdered(t, prev, words);
    if |words| == 0 {
      NoWords(c, t, prev, units);
      return prev.start;
    }
    start := prev.end;
    var i := |words| - 1;
    while i >= 0
      invariant -1 <= i < |words|
      invariant start == (if i == |words| - 1 then prev.end else words[i + 1].start) && prev.start <= start <= prev.end
      invariant start < prev.end ==> c.UnitLen(t[start..prev.end]) <= units && WordStart(t, prev.start, start)
      invariant forall k | i < k < |words| :: Size(c, t, words[k].start, prev.end) <= units
    {
      var candidate := words[i].start;
      if c.UnitLen(t[candidate..prev.end]) > units { break; }
      start := candidate;
      i := i - 1;
    }
    TailFound(c, t, prev, words, units, i + 1);
  }

  lemma NoTail(c: Config, t: Text, prev: Span)
    requires In(t, prev)
    ensures TailAt(c, t, prev, 0, prev.end)
  {
  }

  lemma NoWords(c: Config, t: Text, prev: Span, units: nat)
    requires In(t, prev) && WordsOf(t, prev, []) && units > 0
    ensures TailAt(c, t, prev, units, prev.start)
  {
    WordsHold(t, prev, []);
    hide WordsOf;
  }

  lemma TailFound(c: Config, t: Text, prev: Span, words: seq<Span>, units: nat, n: nat)
    requires In(t, prev) && WordsOf(t, prev, words) && words != [] && units > 0 && LongestTail(c, t, prev, words, units, n)
    ensures TailAt(c, t, prev, units, if n == |words| then prev.end else words[n].start)
  {
    assert WordAt(t, prev, words, 0) && !IsSpace(t[words[0].start]);
    hide WordsOf, LongestTail;
  }

  lemma WindowsConcat(c: Config, t: Text, ws: seq<Span>, more: seq<Span>, lo: nat, mid: nat, hi: nat)
    requires lo <= mid <= hi && Windows(c, t, ws, lo, mid) && Windows(c, t, more, mid, hi)
    ensures Windows(c, t, ws + more, lo, hi)
  {
    var all := ws + more;
    forall k | 0 < k < |all| ensures Chain(c, t, all[k - 1], all[k]) {
      if k < |ws| {
        assert Chain(c, t, ws[k - 1], ws[k]);
      } else if k > |ws| {
        assert Chain(c, t, more[k - |ws| - 1], more[k - |ws|]);
      }
    }
  }

  lemma WindowsAppend(c: Config, t: Text, ws: seq<Span>, w: Span, lo: nat, mid: nat, hi: nat)
    requires Windows(c, t, ws, lo, mid) && lo <= mid <= hi <= |t| && lo <= w.start < w.end <= hi && Fits(c, t, w)
    requires ws != [] ==> Chain(c, t, ws[|ws| - 1], w)
    ensures Windows(c, t, ws + [w], lo, hi)
  {
    var all := ws + [w];
    forall k | 0 < k < |all| ensures Chain(c, t, all[k - 1], all[k]) {
      if k < |ws| { assert Chain(c, t, ws[k - 1], ws[k]); }
    }
  }

  /** The last window grown to the right. */
  lemma WindowsExtend(c: Config, t: Text, out: seq<Span>, cur: Span, lo: nat, mid: nat, end: nat)
    requires Windows(c, t, out + [cur], lo, mid) && mid <= end <= |t| && cur.start <= cur.end <= end && lo <= mid
    requires Fits(c, t, cur.(end := end))
    ensures Windows(c, t, out + [cur.(end := end)], lo, end)
  {
    var all := out + [cur];
    assert Windows(c, t, out, lo, mid) by {
      assert forall k | 0 <= k < |out| :: all[k] == out[k];
      forall k | 0 < k < |out| ensures Chain(c, t, out[k - 1], out[k]) { assert Chain(c, t, all[k - 1], all[k]); }
    }
    assert all[|out|] == cur;
    assert out != [] ==> Chain(c, t, all[|out| - 1], all[|out|]);
    WindowsAppend(c, t, out, cur.(end := end), lo, mid, end);
  }

  lemma CoverMore(t: Text, pieces: seq<Span>, k: nat, ws: seq<Span>, ws': seq<Span>)
    requires k < |pieces| && CoversPieces(t, pieces[..k], ws)
    requires forall i | 0 <= i < |t| && Hit(ws, i) :: Hit(ws', i)
    requires forall i | 0 <= i < |t| && pieces[k].start <= i < pieces[k].end && !IsUnicodeSpace(t[i]) :: Hit(ws', i)
    ensures CoversPieces(t, pieces[..k + 1], ws')
  {
    assert pieces[..k + 1] == pieces[..k] + [pieces[k]];
    forall i | 0 <= i < |t| && Hit(pieces[..k + 1], i) && !IsUnicodeSpace(t[i]) ensures Hit(ws', i) {
      HitAppend(pieces[..k], [pieces[k]], i);
    }
  }

  /** What packing has achieved after k pieces. */
  ghost predicate Packed(c: Config, t: Text, pieces: seq<Span>, k: nat, lo: nat, out: seq<Span>, cur: Span, curLen: nat)
    requires k <= |pieces|
  {
    var end := if k == 0 then lo else pieces[k - 1].end;
    && Windows(c, t, Flush(out, cur, curLen), lo, end)
    && CoversPieces(t, pieces[..k], Flush(out, cur, curLen))
    && (curLen > 0 ==> In(t, cur) && cur.start < cur.end && curLen == c.UnitLen(Slice(t, cur)) <= c.MaxSize())
  }

  /** Adding a fresh window for the next piece. */
  lemma PackFresh(c: Config, t: Text, pieces: seq<Span>, k: nat, lo: nat, hi: nat, all: seq<Span>, w: Span)
    requires k < |pieces| && hi <= |t| && Ordered(pieces, lo, hi)
    requires Packed(c, t, pieces, k, lo, all, w, 0)
    requires lo <= w.start <= pieces[k].start && w.end == pieces[k].end && Fits(c, t, w)
    requires all != [] ==> Chain(c, t, all[|all| - 1], w)
    ensures Windows(c, t, all + [w], lo, pieces[k].end)
    ensures CoversPieces(t, pieces[..k + 1], all + [w])
  {
    var end := if k == 0 then lo else pieces[k - 1].end;
    WindowsAppend(c, t, all, w, lo, end, pieces[k].end);
    forall i | 0 <= i < |t| && (Hit(all, i) || w.start <= i < w.end) ensures Hit(all + [w], i) {
      HitAppend(all, [w], i);
      if w.start <= i < w.end { assert [w][0] == w; }
    }
    CoverMore(t, pieces, k, all, all + [w]);
  }

  /** A piece as its own window follows everything before it. */
  lemma PieceFollows(c: Config, t: Text, pieces: seq<Span>, k: nat, lo: nat, hi: nat, all: seq<Span>)
    requires k < |pieces| && hi <= |t| && Ordered(pieces, lo, hi)
    requires Windows(c, t, all, lo, if k == 0 then lo else pieces[k - 1].end)
    ensures all != [] ==> Chain(c, t, all[|all| - 1], pieces[k])
  {
    if k > 0 { assert pieces[k - 1].end <= pieces[k].start; }
  }

  /** Adding the windows of a piece that was split further. */
  lemma PackSplit(c: Config, t: Text, pieces: seq<Span>, k: nat, lo: nat, hi: nat, all: seq<Span>, more: seq<Span>)
    requires k < |pieces| && hi <= |t| && Ordered(pieces, lo, hi)
    requires Packed(c, t, pieces, k, lo, all, pieces[k], 0)
    requires Windows(c, t, more, pieces[k].start, pieces[k].end) && Covers(t, more, pieces[k].start, pieces[k].end)
    ensures Windows(c, t, all + more, lo, pieces[k].end)
    ensures CoversPieces(t, pieces[..k + 1], all + more)
  {
    var end := if k == 0 then lo else pieces[k - 1].end;
    assert end <= pieces[k].start;
    WidenWindows(c, t, all, lo, end, pieces[k].start);
    WindowsConcat(c, t, all, more, lo, pieces[k].start, pieces[k].end);
    forall i | 0 <= i < |t| && (Hit(all, i) || Hit(more, i)) ensures Hit(all + more, i) { HitAppend(all, more, i); }
    CoverMore(t, pieces, k, all, all + more);
  }

  lemma WidenWindows(c: Config, t: Text, ws: seq<Span>, lo: nat, mid: nat, hi: nat)
    requires Windows(c, t, ws, lo, mid) && mid <= hi <= |t|
    ensures Windows(c, t, ws, lo, hi)
  {
  }

  /** Growing the pending window over the next piece. */
  lemma PackJoin(c: Config, t: Text, pieces: seq<Span>, k: nat, lo: nat, hi: nat, out: seq<Span>, cur: Span, curLen: nat)
    requires k < |pieces| && hi <= |t| && Ordered(pieces, lo, hi) && curLen > 0
    requires Packed(c, t, pieces, k, lo, out, cur, curLen)
    requires cur.end <= pieces[k].end && Fits(c, t, cur.(end := pieces[k].end))
    ensures Windows(c, t, out + [cur.(end := pieces[k].end)], lo, pieces[k].end)
    ensures CoversPieces(t, pieces[..k + 1], out + [cur.(end := pieces[k].end)])
  {
    var end, grown := if k == 0 then lo else pieces[k - 1].end, cur.(end := pieces[k].end);
    WindowsExtend(c, t, out, cur, lo, end, pieces[k].end);
    assert cur.start <= pieces[k].start by {
      assert (out + [cur])[|out|] == cur;
      if k > 0 { assert pieces[k - 1].end <= pieces[k].start; }
    }
    forall i | 0 <= i < |t| && (Hit(out + [cur], i) || grown.start <= i < grown.end) ensures Hit(out + [grown], i) {
      HitAppend(out, [cur], i);
      HitAppend(out, [grown], i);
      if Hit([cur], i) || grown.start <= i < grown.end { assert [grown][0] == grown; }
    }
    CoverMore(t, pieces, k, out + [cur], out + [grown]);
  }

  /** packPieces: `depth` bounds the length of a piece and shows that the recursion ends. */
  method PackPieces(c: Config, t: Text, pieces: seq<Span>, ghost lo: nat, ghost hi: nat, ghost depth: nat)
    returns (out: seq<Span>)
    requires c.Positive() && lo <= hi <= |t| && Ordered(pieces, lo, hi)
    requires forall k | 0 <= k < |pieces| :: pieces[k].end - pieces[k].start <= depth
    ensures Windows(c, t, out, lo, hi) && CoversPieces(t, pieces, out)
    ensures Packing(c, t, pieces, out, depth)
    decreases depth, 2
  {
    out := [];
    var cur, curLen := Span(0, 0), 0;
    ghost var parts: seq<Part> := [];
    hide *;
    NothingPacked(c, t, pieces, lo, hi);
    GroupedNone(c, t, pieces, depth);
    for k := 0 to |pieces|
      invariant Packed(c, t, pieces, k, lo, out, cur, curLen)
      invariant Grouped(c, t, pieces, k, parts, out, cur, curLen, depth)
    {
      PieceIn(t, pieces, lo, hi, k);
      out, cur, curLen, parts := PackNext(c, t, pieces, k, lo, hi, out, cur, curLen, parts, depth);
    }
    PackedAll(c, t, pieces, lo, hi, out, cur, curLen);
    GroupedAll(c, t, pieces, parts, out, cur, curLen, depth);
    out := Flush(out, cur, curLen);
  }

  lemma NothingPacked(c: Config, t: Text, pieces: seq<Span>, lo: nat, hi: nat)
    requires lo <= hi <= |t| && Ordered(pieces, lo, hi)
    ensures Packed(c, t, pieces, 0, lo, [], Span(0, 0), 0)
  {
  }

  lemma PieceIn(t: Text, pieces: seq<Span>, lo: nat, hi: nat, k: nat)
    requires lo <= hi <= |t| && Ordered(pieces, lo, hi) && k < |pieces|
    ensures In(t, pieces[k]) && Slice(t, pieces[k]) != []
  {
  }

  /** One turn of the loop: an oversized piece is split on its own, any other joins or starts a window. */
  method PackNext(c: Config, t: Text, pieces: seq<Span>, k: nat, ghost lo: nat, ghost hi: nat,
                  out: seq<Span>, cur: Span, curLen: nat, ghost parts: seq<Part>, ghost depth: nat)
    returns (out': seq<Span>, cur': Span, curLen': nat, ghost parts': seq<Part>)
    requires c.Positive() && lo <= hi <= |t| && Ordered(pieces, lo, hi) && k < |pieces|
    requires In(t, pieces[k]) && Slice(t, pieces[k]) != [] && pieces[k].end - pieces[k].start <= depth
    requires Packed(c, t, pieces, k, lo, out, cur, curLen) && Grouped(c, t, pieces, k, parts, out, cur, curLen, depth)
    ensures Packed(c, t, pieces, k + 1, lo, out', cur', curLen') && Grouped(c, t, pieces, k + 1, parts', out', cur', curLen', depth)
    decreases depth, 1
  {
    hide *;
    var pieceLen := c.UnitLen(Slice(t, pieces[k]));
    OversizedIs(c, t, pieces[k]);
    if pieceLen > c.MaxSize() {
      FlushPacked(c, t, pieces, k, lo, out, cur, curLen);
      out', cur', curLen' := Flush(out, cur, curLen), Span(0, 0), 0;
      ghost var more;
      out', more := PackOversized(c, t, pieces, k, lo, hi, out', depth);
      GroupRefines(c, t, pieces, k, parts, out, cur, curLen, more, depth);
      parts' := parts + [Part(k, k + 1, more)];
    } else {
      out', cur', curLen', parts' := PackOne(c, t, pieces, k, lo, hi, out, cur, curLen, parts, depth);
    }
  }

  lemma OversizedIs(c: Config, t: Text, p: Span)
    requires In(t, p)
    ensures Oversized(c, t, p) <==> c.UnitLen(Slice(t, p)) > c.MaxSize()
  {
  }

  lemma GroupedAll(c: Config, t: Text, pieces: seq<Span>, parts: seq<Part>, out: seq<Span>, cur: Span, curLen: nat, depth: nat)
    requires Grouped(c, t, pieces, |pieces|, parts, out, cur, curLen, depth)
    ensures Packing(c, t, pieces, Flush(out, cur, curLen), depth)
  {
    hide Parts;
  }

  lemma FlushPacked(c: Config, t: Text, pieces: seq<Span>, k: nat, lo: nat, out: seq<Span>, cur: Span, curLen: nat)
    requires k <= |pieces| && Packed(c, t, pieces, k, lo, out, cur, curLen)
    ensures Packed(c, t, pieces, k, lo, Flush(out, cur, curLen), Span(0, 0), 0)
  {
    hide Windows, CoversPieces;
  }

  lemma PackedAll(c: Config, t: Text, pieces: seq<Span>, lo: nat, hi: nat, out: seq<Span>, cur: Span, curLen: nat)
    requires lo <= hi <= |t| && Ordered(pieces, lo, hi) && Packed(c, t, pieces, |pieces|, lo, out, cur, curLen)
    ensures Windows(c, t, Flush(out, cur, curLen), lo, hi) && CoversPieces(t, pieces, Flush(out, cur, curLen))
  {
    assert pieces[..|pieces|] == pieces;
    hide Windows, CoversPieces;
    WidenWindows(c, t, Flush(out, cur, curLen), lo, if |pieces| == 0 then lo else pieces[|pieces| - 1].end, hi);
  }

  lemma PackedIs(c: Config, t: Text, pieces: seq<Span>, k: nat, lo: nat, out: seq<Span>)
    requires k < |pieces| && Windows(c, t, out, lo, pieces[k].end) && CoversPieces(t, pieces[..k + 1], out)
    ensures Packed(c, t, pieces, k + 1, lo, out, Span(0, 0), 0)
  {
    hide Windows, CoversPieces;
  }

  /** A piece over budget: split further and packed on its own, or kept whole when it is a single rune. */
  method PackOversized(c: Config, t: Text, pieces: seq<Span>, k: nat, ghost lo: nat, ghost hi: nat, out: seq<Span>, ghost depth: nat)
    returns (out': seq<Span>, ghost more: seq<Span>)
    requires c.Positive() && lo <= hi <= |t| && Ordered(pieces, lo, hi) && k < |pieces|
    requires pieces[k].end - pieces[k].start <= depth
    requires Packed(c, t, pieces, k, lo, out, Span(0, 0), 0)
    ensures Packed(c, t, pieces, k + 1, lo, out', Span(0, 0), 0)
    ensures out' == out + more && Refined(c, t, pieces[k], more, depth)
    decreases depth, 0
  {
    hide Packed, Windows, CoversPieces, Covers, Fits, AllFit, SplitOf, Packing, Refined, Slice, Config.Positive;
    var piece := pieces[k];
    var sub := SplitOversizedPiece(c, t, piece);
    OneFits(c, t, sub, piece);
    PackedHolds(c, t, pieces, k, lo, out);
    PackedAnyCur(c, t, pieces, k, lo, out, piece);
    if sub == [piece] {
      RefinedWhole(c, t, piece, depth);
      more := [piece];
      PieceFollows(c, t, pieces, k, lo, hi, out);
      PackFresh(c, t, pieces, k, lo, hi, out, piece);
      out' := out + [piece];
    } else {
      SubShorter(sub, piece);
      var windows := PackPieces(c, t, sub, piece.start, piece.end, depth - 1);
      more := windows;
      RefinedSplit(c, t, piece, sub, more, depth);
      SubCovers(t, sub, more, piece);
      PackSplit(c, t, pieces, k, lo, hi, out, more);
      out' := out + windows;
    }
    PackedIs(c, t, pieces, k, lo, out');
  }

  lemma OneFits(c: Config, t: Text, sub: seq<Span>, piece: Span)
    requires AllFit(c, t, sub)
    ensures sub == [piece] ==> In(t, piece) && Fits(c, t, piece)
  {
    assert sub == [piece] ==> In(t, sub[0]) && Fits(c, t, sub[0]);
  }

  lemma PackedHolds(c: Config, t: Text, pieces: seq<Span>, k: nat, lo: nat, out: seq<Span>)
    requires k <= |pieces| && Packed(c, t, pieces, k, lo, out, Span(0, 0), 0)
    ensures Windows(c, t, out, lo, if k == 0 then lo else pieces[k - 1].end) && CoversPieces(t, pieces[..k], out)
  {
    hide Windows, CoversPieces;
  }

  lemma RefinedWhole(c: Config, t: Text, piece: Span, depth: nat)
    requires SplitOf(c, t, piece, [piece])
    ensures Refined(c, t, piece, [piece], depth)
  {
    hide SplitOf, Packing;
  }

  lemma RefinedSplit(c: Config, t: Text, piece: Span, sub: seq<Span>, windows: seq<Span>, depth: nat)
    requires SplitOf(c, t, piece, sub) && sub != [piece] && depth > 0 && Packing(c, t, sub, windows, depth - 1)
    ensures Refined(c, t, piece, windows, depth)
  {
    hide SplitOf, Packing;
  }

  lemma PackedAnyCur(c: Config, t: Text, pieces: seq<Span>, k: nat, lo: nat, out: seq<Span>, cur: Span)
    requires k <= |pieces| && Packed(c, t, pieces, k, lo, out, Span(0, 0), 0)
    ensures Packed(c, t, pieces, k, lo, out, cur, 0)
  {
    hide Windows, CoversPieces;
  }

  /** Windows that cover the pieces of a piece cover the piece. */
  lemma SubCovers(t: Text, sub: seq<Span>, more: seq<Span>, piece: Span)
    requires piece.end <= |t| && Covers(t, sub, piece.start, piece.end) && CoversPieces(t, sub, more)
    ensures Covers(t, more, piece.start, piece.end)
  {
    hide Hit;
  }

  /** The pieces of an oversized piece are all shorter than it, unless it could not be split. */
  lemma SubShorter(sub: seq<Span>, piece: Span)
    requires sub != [] && Ordered(sub, piece.start, piece.end) && sub != [piece]
    ensures forall k | 0 <= k < |sub| :: sub[k].end - sub[k].start < piece.end - piece.start
  {
    forall k | 0 <= k < |sub| ensures sub[k].end - sub[k].start < piece.end - piece.start {
      if |sub| == 1 {
        assert sub == [sub[0]];
      } else {
        var other := if k == 0 then 1 else 0;
        assert if k == 0 then sub[k].end <= sub[other].start else sub[other].end <= sub[k].start;
      }
    }
  }

  /** A piece within the budget joins the pending window or starts the next, with an overlap where that fits. */
  method PackOne(c: Config, t: Text, pieces: seq<Span>, k: nat, ghost lo: nat, ghost hi: nat,
                 out: seq<Span>, cur: Span, curLen: nat, ghost parts: seq<Part>, ghost depth: nat)
    returns (out': seq<Span>, cur': Span, curLen': nat, ghost parts': seq<Part>)
    requires c.Positive() && lo <= hi <= |t| && Ordered(pieces, lo, hi) && k < |pieces|
    requires c.UnitLen(Slice(t, pieces[k])) <= c.MaxSize()
    requires Packed(c, t, pieces, k, lo, out, cur, curLen) && Grouped(c, t, pieces, k, parts, out, cur, curLen, depth)
    ensures Packed(c, t, pieces, k + 1, lo, out', cur', curLen') && Grouped(c, t, pieces, k + 1, parts', out', cur', curLen', depth)
  {
    var piece := pieces[k];
    assert Slice(t, piece) != [];
    hide Grouped, Oversized, OpensAt, TailAt;
    OversizedIs(c, t, piece);
    var pieceLen := c.UnitLen(Slice(t, piece));
    out', cur', curLen' := out, cur, curLen;
    var joinedLen := pieceLen;
    if curLen > 0 {
      PendingBefore(c, t, pieces, k, lo, hi, out, cur, curLen);
      joinedLen := c.UnitLen(t[cur.start..piece.end]);
      assert Slice(t, cur.(end := piece.end)) == t[cur.start..piece.end];
    }
    if curLen > 0 && joinedLen > c.MaxSize() {
      out', cur', curLen' := out + [cur], Span(0, 0), 0;
      var overlap := OverlapPoint(c, t, cur, c.EffectiveOverlap());
      TailOpens(c, t, cur, piece, overlap);
      if overlap < cur.end {
        var combined := c.UnitLen(t[overlap..piece.end]);
        if combined <= c.MaxSize() {
          cur', curLen' := Span(overlap, piece.end), combined;
          assert Slice(t, cur') == t[overlap..piece.end] != [];
          PackFresh(c, t, pieces, k, lo, hi, out', cur');
          GroupOpens(c, t, pieces, k, parts, out, cur, curLen, cur', curLen', depth);
          parts' := parts + [Part(k, k + 1, [cur'])];
          return;
        }
      }
    }
    if curLen' == 0 {
      PieceFollows(c, t, pieces, k, lo, hi, out');
      PackFresh(c, t, pieces, k, lo, hi, out', piece);
      GroupOpens(c, t, pieces, k, parts, out, cur, curLen, piece, pieceLen, depth);
      cur', curLen', parts' := piece, pieceLen, parts + [Part(k, k + 1, [piece])];
    } else {
      PackJoin(c, t, pieces, k, lo, hi, out, cur, curLen);
      GroupJoins(c, t, pieces, k, parts, out, cur, curLen, joinedLen, depth);
      cur', curLen' := cur.(end := piece.end), joinedLen;
      parts' := parts[..|parts| - 1] + [Part(parts[|parts| - 1].from, k + 1, [cur'])];
      assert Slice(t, cur') != [];
    }
  }

  lemma TailOpens(c: Config, t: Text, prev: Span, piece: Span, tail: nat)
    requires TailAt(c, t, prev, c.EffectiveOverlap(), tail)
    ensures OpensAt(c, t, prev, piece, if tail < prev.end && Size(c, t, tail, piece.end) <= c.MaxSize() then tail else piece.start)
  {
    hide TailAt;
  }

  lemma PendingBefore(c: Config, t: Text, pieces: seq<Span>, k: nat, lo: nat, hi: nat, out: seq<Span>, cur: Span, curLen: nat)
    requires hi <= |t| && Ordered(pieces, lo, hi) && k < |pieces| && curLen > 0
    requires Packed(c, t, pieces, k, lo, out, cur, curLen)
    ensures lo <= cur.start < cur.end <= pieces[k].start
  {
    assert (out + [cur])[|out|] == cur;
    if k > 0 { assert pieces[k - 1].end <= pieces[k].start; }
  }

  // The document

  method PackUnit(c: Config, t: Text, p: Span) returns (out: seq<Span>)
    requires c.Positive() && In(t, p) && p.start < p.end
    ensures Windows(c, t, out, p.start, p.end) && Covers(t, out, p.start, p.end)
    ensures UnitOf(c, t, p, out)
  {
    hide Packing;
    if c.UnitLen(Slice(t, p)) <= c.MaxSize() {
      CoversOne(t, p, p.start, p.end);
      return [p];
    }
    var sentences := SplitSentences(t, p);
    out := PackPieces(c, t, sentences, p.start, p.end, p.end - p.start);
    forall i | p.start <= i < p.end && !IsUnicodeSpace(t[i]) ensures Hit(out, i) {
      PartitionHits(sentences, p.start, p.end, i);
    }
  }

  method MergeShortTrailing(c: Config, t: Text, windows: seq<Span>) returns (r: seq<Span>)
    requires Windows(c, t, windows, 0, |t|) && Covers(t, windows, 0, |t|)
    ensures Windows(c, t, r, 0, |t|) && Covers(t, r, 0, |t|)
    ensures Merged(c, t, windows, r)
  {
    var n := |windows|;
    if n < 2 { return windows; }
    var last := windows[n - 1];
    if c.UnitLen(Slice(t, last)) >= c.MinSize() { return windows; }
    var prev := windows[n - 2];
    assert Chain(c, t, prev, last);
    var combined := Span(prev.start, last.end);
    if c.UnitLen(Slice(t, combined)) > c.MaxSize() { return windows; }
    r := windows[..n - 2] + [combined];
    MergeKeeps(c, t, windows, combined);
  }

  lemma WindowsInit(c: Config, t: Text, ws: seq<Span>, n: nat, lo: nat, hi: nat)
    requires n <= |ws| && Windows(c, t, ws, lo, hi)
    ensures Windows(c, t, ws[..n], lo, hi)
  {
    hide Fits, Chain;
    var head := ws[..n];
    forall k | 0 < k < n ensures Chain(c, t, head[k - 1], head[k]) {
      assert Chain(c, t, ws[k - 1], ws[k]);
    }
  }

  /** Joining the last two windows into one keeps the chain with the one before them. */
  lemma MergeChains(c: Config, t: Text, ws: seq<Span>, lo: nat, hi: nat)
    requires |ws| >= 2 && Windows(c, t, ws, lo, hi)
    ensures var n := |ws|; var combined := Span(ws[n - 2].start, ws[n - 1].end);
            && ws[n - 2].start <= ws[n - 1].start && ws[n - 2].end <= ws[n - 1].end
            && lo <= combined.start < combined.end <= hi
            && (n > 2 ==> Chain(c, t, ws[n - 3], combined))
  {
    var n := |ws|;
    assert Chain(c, t, ws[n - 2], ws[n - 1]);
    assert n > 2 ==> Chain(c, t, ws[n - 3], ws[n - 2]);
    hide Fits;
  }

  lemma MergeKeeps(c: Config, t: Text, windows: seq<Span>, combined: Span)
    requires |windows| >= 2 && Windows(c, t, windows, 0, |t|) && Covers(t, windows, 0, |t|)
    requires combined == Span(windows[|windows| - 2].start, windows[|windows| - 1].end)
    requires combined.end <= |t| && combined.start < combined.end && Fits(c, t, combined)
    ensures var r := windows[..|windows| - 2] + [combined];
      Windows(c, t, r, 0, |t|) && Covers(t, r, 0, |t|)
  {
    var n := |windows|;
    var head := windows[..n - 2];
    hide Windows, Fits, Chain, Hit, IsUnicodeSpace;
    WindowsInit(c, t, windows, n - 2, 0, |t|);
    MergeChains(c, t, windows, 0, |t|);
    WindowsAppend(c, t, head, combined, 0, |t|, |t|);
    forall i | 0 <= i < |t| && Hit(windows, i) ensures Hit(head + [combined], i) { MergeHits(windows, i); }
  }

  lemma MergeHits(windows: seq<Span>, i: nat)
    requires |windows| >= 2 && Hit(windows, i)
    requires windows[|windows| - 2].start <= windows[|windows| - 1].start && windows[|windows| - 2].end <= windows[|windows| - 1].end
    ensures Hit(windows[..|windows| - 2] + [Span(windows[|windows| - 2].start, windows[|windows| - 1].end)], i)
  {
    var n := |windows|;
    var combined := Span(windows[n - 2].start, windows[n - 1].end);
    var k :| 0 <= k < n && windows[k].start <= i < windows[k].end;
    HitAppend(windows[..n - 2], [combined], i);
    if k < n - 2 {
      assert windows[..n - 2][k] == windows[k];
    } else {
      assert [combined][0].start <= i < [combined][0].end;
    }
  }

  lemma {:induction false} RisingWindows(c: Config, t: Text, ws: seq<Span>, k: nat, k': nat)
    requires Windows(c, t, ws, 0, |t|) && k < k' < |ws|
    ensures ws[k].start < ws[k'].start && ws[k].end < ws[k'].end
    decreases k' - k
  {
    assert Chain(c, t, ws[k' - 1], ws[k']);
    if k < k' - 1 { RisingWindows(c, t, ws, k, k' - 1); }
  }

  /** A chunk seen as the window it was cut from. */
  function WindowOf(ch: Chunk): Span {
    Span(ch.start, ch.end)
  }

  function WindowsOf(chunks: seq<Chunk>): (r: seq<Span>)
    ensures |r| == |chunks| && forall k | 0 <= k < |chunks| :: r[k] == WindowOf(chunks[k])
  {
    seq(|chunks|, k requires 0 <= k < |chunks| => WindowOf(chunks[k]))
  }

  /** The windows of all paragraphs. */
  method PackParagraphs(c: Config, t: Text)
    returns (windows: seq<Span>, ghost paragraphs: seq<Span>, ghost units: seq<seq<Span>>)
    requires c.Positive() && t != []
    ensures Windows(c, t, windows, 0, |t|) && Covers(t, windows, 0, |t|)
    ensures ParagraphsOf(t, paragraphs) && Units(c, t, paragraphs, units) && windows == Lists.Concat(units)
  {
    hide UnitOf, Separated, Trimmed, Packing;
    var ps := SplitParagraphs(t);
    paragraphs := ps;
    windows, units := [], [];
    ghost var done := 0;
    for k := 0 to |ps|
      invariant done == (if k == 0 then 0 else ps[k - 1].end) <= |t|
      invariant Windows(c, t, windows, 0, done) && CoversPieces(t, ps[..k], windows)
      invariant Units(c, t, ps[..k], units) && windows == Lists.Concat(units)
    {
      hide Units, Windows, CoversPieces, Hit;
      var p := ps[k];
      var more := PackUnit(c, t, p);
      WidenWindows(c, t, windows, 0, done, p.start);
      WindowsConcat(c, t, windows, more, 0, p.start, p.end);
      forall i | 0 <= i < |t| && (Hit(windows, i) || Hit(more, i)) ensures Hit(windows + more, i) {
        HitAppend(windows, more, i);
      }
      CoverMore(t, ps, k, windows, windows + more);
      UnitsMore(c, t, ps[..k], units, p, more);
      assert ps[..k + 1] == ps[..k] + [p];
      windows, units := windows + more, units + [more];
      done := p.end;
    }
    assert ps[..|ps|] == ps;
    WidenWindows(c, t, windows, 0, done, |t|);
  }

  lemma UnitsMore(c: Config, t: Text, ps: seq<Span>, units: seq<seq<Span>>, p: Span, more: seq<Span>)
    requires Units(c, t, ps, units) && UnitOf(c, t, p, more)
    ensures Units(c, t, ps + [p], units + [more]) && Lists.Concat(units + [more]) == Lists.Concat(units) + more
  {
    hide UnitOf;
    Lists.ConcatAppend(units, more);
  }

  lemma NoChunks(c: Config)
    ensures Chunking(c, [], [])
  {
    assert ParagraphsOf([], []) && Units(c, [], [], []) && Merged(c, [], Lists.Concat<Span>([]), []);
  }

  /**
   Chunks are numbered slices with rising starts and ends; each is within the
   budget or a single rune; neighbours share at most the overlap; and no byte
   other than space is lost.
   */
  method Split(c: Config, doc: Doc) returns (chunks: seq<Chunk>)
    requires c.Positive()
    ensures ChunksOf(doc, chunks)
    ensures Windows(c, doc.text, WindowsOf(chunks), 0, |doc.text|)
    ensures Covers(doc.text, WindowsOf(chunks), 0, |doc.text|)
    ensures c.tokens.None? ==> forall k | 0 <= k < |chunks| :: c.UnitLen(chunks[k].text) <= c.MaxSize()
    ensures Chunking(c, doc.text, WindowsOf(chunks))
  {
    var t := doc.text;
    if t == [] {
      NoChunks(c);
      return [];
    }
    hide Chunking, ParagraphsOf, Units, Merged;
    ghost var paragraphs, units;
    var windows;
    windows, paragraphs, units := PackParagraphs(c, t);
    windows := MergeShortTrailing(c, t, windows);
    ChunkingIs(c, t, paragraphs, units, windows);
    chunks := CutChunks(doc, windows);
    CutHolds(c, doc, windows, chunks);
  }

  lemma ChunkingIs(c: Config, t: Text, paragraphs: seq<Span>, units: seq<seq<Span>>, ws: seq<Span>)
    requires ParagraphsOf(t, paragraphs) && Units(c, t, paragraphs, units) && Merged(c, t, Lists.Concat(units), ws)
    ensures Chunking(c, t, ws)
  {
    hide ParagraphsOf, Units, Merged;
  }

  /** The chunks cut out along the windows, in order. */
  ghost predicate CutAlong(doc: Doc, windows: seq<Span>, chunks: seq<Chunk>)
    requires forall k | 0 <= k < |windows| :: In(doc.text, windows[k])
  {
    |chunks| == |windows| && forall k | 0 <= k < |chunks| ::
      chunks[k] == Chunk(doc.id, k, Slice(doc.text, windows[k]), windows[k].start, windows[k].end)
  }

  method CutChunks(doc: Doc, windows: seq<Span>) returns (chunks: seq<Chunk>)
    requires forall k | 0 <= k < |windows| :: In(doc.text, windows[k])
    ensures CutAlong(doc, windows, chunks)
  {
    chunks := [];
    for k := 0 to |windows|
      invariant |chunks| == k
      invariant forall j | 0 <= j < k ::
        chunks[j] == Chunk(doc.id, j, Slice(doc.text, windows[j]), windows[j].start, windows[j].end)
    {
      chunks := chunks + [Chunk(doc.id, k, Slice(doc.text, windows[k]), windows[k].start, windows[k].end)];
    }
  }

  lemma CutHolds(c: Config, doc: Doc, windows: seq<Span>, chunks: seq<Chunk>)
    requires Windows(c, doc.text, windows, 0, |doc.text|) && CutAlong(doc, windows, chunks)
    ensures ChunksOf(doc, chunks) && WindowsOf(chunks) == windows
    ensures c.tokens.None? ==> forall k | 0 <= k < |chunks| :: c.UnitLen(chunks[k].text) <= c.MaxSize()
  {
    hide Chain;
    assert WindowsOf(chunks) == windows;
    forall k, k' | 0 <= k < k' < |chunks| ensures chunks[k].start < chunks[k'].start && chunks[k].end < chunks[k'].end {
      RisingWindows(c, doc.text, windows, k, k');
    }
  }
}
