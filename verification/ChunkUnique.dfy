/**
 Chunking is deterministic, as rag/chunk.go promises: the rules of splitting,
 packing, overlapping and merging leave one list of windows for each text.
 */
module ChunkUnique {
  import opened ChunkRules
  import opened ChunkSplitters
  import opened RagTypes
  import opened Utf8
  import Lists

  // Lists of spans

  lemma LastSame(a: seq<Span>, b: seq<Span>, lo: nat, hi: nat)
    requires Ordered(a, lo, hi) && Ordered(b, lo, hi) && a != [] && b != []
    requires a[|a| - 1] in b && b[|b| - 1] in a
    ensures a[|a| - 1] == b[|b| - 1]
  {
    var j :| 0 <= j < |b| && b[j] == a[|a| - 1];
    var i :| 0 <= i < |a| && a[i] == b[|b| - 1];
    EndsRise(b, lo, hi, j, |b| - 1);
    EndsRise(a, lo, hi, i, |a| - 1);
    OneHolder(b, lo, hi, j, |b| - 1, b[|b| - 1].end - 1);
  }

  lemma InitIn(a: seq<Span>, b: seq<Span>, lo: nat, hi: nat, k: nat)
    requires Ordered(a, lo, hi) && Ordered(b, lo, hi) && k < |a| - 1 && b != [] && a[k] in b && a[|a| - 1] == b[|b| - 1]
    ensures a[k] in b[..|b| - 1]
  {
    var j :| 0 <= j < |b| && b[j] == a[k];
    assert a[k].end <= a[|a| - 1].start;
    assert b[..|b| - 1][j] == a[k];
  }

  lemma InitOrdered(a: seq<Span>, lo: nat, hi: nat)
    requires Ordered(a, lo, hi) && a != []
    ensures Ordered(a[..|a| - 1], lo, hi)
  {
  }

  /** Ordered lists with the same spans are the same list. */
  lemma {:induction false} SameSpans(a: seq<Span>, b: seq<Span>, lo: nat, hi: nat)
    requires Ordered(a, lo, hi) && Ordered(b, lo, hi)
    requires (forall k: nat | k < |a| :: a[k] in b) && (forall k: nat | k < |b| :: b[k] in a)
    ensures a == b
    decreases |a|
  {
    hide Ordered;
    assert a != [] ==> a[0] in b;
    assert b != [] ==> b[0] in a;
    if a != [] {
      var m, n := |a| - 1, |b| - 1;
      LastSame(a, b, lo, hi);
      forall k: nat | k < m ensures a[k] in b[..n] { InitIn(a, b, lo, hi, k); }
      forall k: nat | k < n ensures b[k] in a[..m] { InitIn(b, a, lo, hi, k); }
      InitOrdered(a, lo, hi);
      InitOrdered(b, lo, hi);
      SameSpans(a[..m], b[..n], lo, hi);
      assert a == a[..m] + [a[m]] && b == b[..n] + [b[n]];
    }
  }

  // Words, sentences, paragraphs

  lemma WordIn(t: Text, p: Span, a: seq<Span>, b: seq<Span>, k: nat)
    requires In(t, p) && WordsOf(t, p, a) && WordsOf(t, p, b) && k < |a|
    ensures a[k] in b
  {
    var w := a[k];
    assert WordAt(t, p, a, k) && !IsSpace(t[w.start]) && Hit(b, w.start);
    var j: nat :| j < |b| && b[j].start <= w.start < b[j].end;
    assert WordAt(t, p, b, j);
    hide IsSpace;
    assert b[j].start == w.start;
    assert b[j].end == w.end;
  }

  lemma WordsUnique(t: Text, p: Span, a: seq<Span>, b: seq<Span>)
    requires In(t, p) && WordsOf(t, p, a) && WordsOf(t, p, b)
    ensures a == b
  {
    forall k: nat | k < |a| ensures a[k] in b { WordIn(t, p, a, b, k); }
    forall k: nat | k < |b| ensures b[k] in a { WordIn(t, p, b, a, k); }
    SameSpans(a, b, p.start, p.end);
  }

  lemma SentenceStart(t: Text, p: Span, a: seq<Span>, b: seq<Span>, k: nat) returns (j: nat)
    requires SentencesOf(t, p, a) && SentencesOf(t, p, b) && p.start < p.end && k < |a|
    ensures j < |b| && b[j].start == a[k].start
  {
    if k == 0 {
      j := 0;
    } else {
      assert StartsOne(a, a[k].start) && StartsOne(b, a[k].start);
      j :| 0 < j < |b| && b[j].start == a[k].start;
    }
  }

  /** A sentence of one list that starts like one of the other does not end later. */
  lemma SentenceEnd(t: Text, p: Span, a: seq<Span>, b: seq<Span>, k: nat, j: nat)
    requires SentencesOf(t, p, a) && SentencesOf(t, p, b) && p.start < p.end && k < |a| && j < |b| && a[k].start == b[j].start
    ensures a[k].end <= b[j].end
  {
    if b[j].end < a[k].end {
      assert j + 1 < |b| && b[j + 1].start == b[j].end;
      var i := SentenceStart(t, p, b, a, j + 1);
    }
  }

  lemma SentencesUnique(t: Text, p: Span, a: seq<Span>, b: seq<Span>)
    requires SentencesOf(t, p, a) && SentencesOf(t, p, b) && p.start < p.end
    ensures a == b
  {
    forall k: nat | k < |a| ensures a[k] in b {
      var j := SentenceStart(t, p, a, b, k);
      SentenceEnd(t, p, a, b, k, j);
      SentenceEnd(t, p, b, a, j, k);
    }
    forall k: nat | k < |b| ensures b[k] in a {
      var j := SentenceStart(t, p, b, a, k);
      SentenceEnd(t, p, b, a, k, j);
      SentenceEnd(t, p, a, b, j, k);
    }
    SameSpans(a, b, p.start, p.end);
  }

  lemma EndsRise(a: seq<Span>, lo: nat, hi: nat, i: nat, k: nat)
    requires Ordered(a, lo, hi) && i <= k < |a|
    ensures a[i].end <= a[k].end
  {
    assert i < k ==> a[i].end <= a[k].start;
  }

  /** Between two paragraphs there is a blank line. */
  lemma BlankBetween(t: Text, a: seq<Span>, i: nat, k: nat)
    requires Ordered(a, 0, |t|) && Separated(t, a) && i < k < |a|
    ensures BlankIn(t, a[i].end, a[k].start)
  {
    hide BlankIn, Ordered;
    assert BlankIn(t, a[k - 1].end, a[k].start);
    EndsRise(a, 0, |t|, i, k - 1);
    hide Separated;
    BlankWider(t, a[k - 1].end, a[k].start, a[i].end, a[k].start);
  }

  lemma ParagraphAt(t: Text, a: seq<Span>, x: nat) returns (k: nat)
    requires Covers(t, a, 0, |t|) && x < |t| && !IsUnicodeSpace(t[x])
    ensures k < |a| && a[k].start <= x < a[k].end
  {
    assert Hit(a, x);
    k :| k < |a| && a[k].start <= x < a[k].end;
  }

  lemma NotSplit(t: Text, a: seq<Span>, b: seq<Span>, j: nat, k: nat, l: nat)
    requires Ordered(a, 0, |t|) && Separated(t, a) && Separated(t, b) && j < |b| && k < |a| && l < |a|
    requires b[j].start <= a[k].end && a[l].start <= b[j].end
    ensures k >= l
  {
    hide BlankIn, Ordered;
    if k < l {
      BlankBetween(t, a, k, l);
      BlankWider(t, a[k].end, a[l].start, b[j].start, b[j].end);
    }
  }

  /** Two bytes of one paragraph of b are in one paragraph of a. */
  lemma Together(t: Text, a: seq<Span>, b: seq<Span>, j: nat, x: nat, y: nat) returns (k: nat)
    requires ParagraphsOf(t, a) && ParagraphsOf(t, b) && j < |b| && b[j].start <= x <= y < b[j].end <= |t|
    requires !IsUnicodeSpace(t[x]) && !IsUnicodeSpace(t[y])
    ensures k < |a| && a[k].start <= x && y < a[k].end
  {
    hide IsUnicodeSpace, BlankIn, Ordered, Separated, Covers, Trimmed;
    k := ParagraphAt(t, a, x);
    var l := ParagraphAt(t, a, y);
    NotSplit(t, a, b, j, k, l);
    EndsRise(a, 0, |t|, l, k);
  }

  lemma TrimmedAt(t: Text, a: seq<Span>, k: nat)
    requires Trimmed(t, a) && k < |a|
    ensures a[k].start < a[k].end <= |t| && !IsUnicodeSpace(t[a[k].start]) && !IsUnicodeSpace(t[a[k].end - 1])
  {
  }

  lemma OneHolder(a: seq<Span>, lo: nat, hi: nat, i: nat, k: nat, x: nat)
    requires Ordered(a, lo, hi) && i < |a| && k < |a| && a[i].start <= x < a[i].end && a[k].start <= x < a[k].end
    ensures i == k
  {
  }

  lemma ParagraphIn(t: Text, a: seq<Span>, b: seq<Span>, k: nat)
    requires ParagraphsOf(t, a) && ParagraphsOf(t, b) && k < |a|
    ensures a[k] in b
  {
    hide IsUnicodeSpace, Ordered, Trimmed, Covers, Separated;
    TrimmedAt(t, a, k);
    var j := Together(t, b, a, k, a[k].start, a[k].end - 1);
    TrimmedAt(t, b, j);
    var i := Together(t, a, b, j, b[j].start, b[j].end - 1);
    OneHolder(a, 0, |t|, i, k, a[k].start);
    assert a[k] == b[j];
  }

  lemma ParagraphsUnique(t: Text, a: seq<Span>, b: seq<Span>)
    requires ParagraphsOf(t, a) && ParagraphsOf(t, b)
    ensures a == b
  {
    hide Ordered, Trimmed, Covers, Separated;
    forall k: nat | k < |a| ensures a[k] in b { ParagraphIn(t, a, b, k); }
    forall k: nat | k < |b| ensures b[k] in a { ParagraphIn(t, b, a, k); }
    SameSpans(a, b, 0, |t|);
  }

  // Cuts

  lemma {:induction false} BoundariesUnique(s: seq<byte>, a: seq<nat>, b: seq<nat>, n: nat)
    requires Boundaries(s, a) && Boundaries(s, b) && n <= |a|
    ensures n <= |b| && a[..n] == b[..n]
    ensures n == |a| ==> a == b
  {
    if n > 0 {
      BoundariesUnique(s, a, b, n - 1);
      if n > 1 {
        Ascending(a, s, n - 2, |a| - 1);
        Ascending(b, s, n - 2, |b| - 1);
        assert a[..n - 1][n - 2] == b[..n - 1][n - 2];
        assert a[n - 2] < |s|;
        assert n - 2 < |b| - 1;
      }
      assert a[..n] == a[..n - 1] + [a[n - 1]];
      assert b[..n] == b[..n - 1] + [b[n - 1]];
    }
  }

  lemma CutNoShorter(c: Config, text: Text, offsets: seq<nat>, x: nat, y: nat, z: nat)
    requires LongestCut(c, text, offsets, x, y) && LongestCut(c, text, offsets, x, z)
    ensures y >= z
  {
    hide Runes;
    var last, next := Runes(c, text, offsets, x, y), Runes(c, text, offsets, x, y + 1);
  }

  lemma CutEndUnique(c: Config, text: Text, offsets: seq<nat>, x: nat, y: nat, z: nat)
    requires LongestCut(c, text, offsets, x, y) && LongestCut(c, text, offsets, x, z)
    ensures y == z
  {
    CutNoShorter(c, text, offsets, x, y, z);
    CutNoShorter(c, text, offsets, x, z, y);
  }

  lemma {:induction false} MarksUnique(c: Config, t: Text, p: Span, a: seq<Span>, b: seq<Span>, offsets: seq<nat>, ma: seq<nat>, mb: seq<nat>, n: nat)
    requires In(t, p) && CutsTo(c, t, p, a, offsets, ma) && CutsTo(c, t, p, b, offsets, mb)
    requires ma[|a|] == |offsets| - 1 == mb[|b|] && n <= |a|
    ensures n <= |b| && ma[..n + 1] == mb[..n + 1] && a[..n] == b[..n]
    ensures n == |a| ==> |a| == |b|
  {
    hide LongestCut, Boundaries;
    if n > 0 {
      MarksUnique(c, t, p, a, b, offsets, ma, mb, n - 1);
      assert CutAt(c, t, p, a, offsets, ma, n - 1);
      assert ma[..n][n - 1] == mb[..n][n - 1];
      LongestWithin(c, Slice(t, p), offsets, ma[n - 1], ma[n]);
      assert CutAt(c, t, p, b, offsets, mb, n - 1);
      CutEndUnique(c, Slice(t, p), offsets, ma[n - 1], ma[n], mb[n]);
      assert ma[..n + 1] == ma[..n] + [ma[n]] && mb[..n + 1] == mb[..n] + [mb[n]];
      assert a[..n] == a[..n - 1] + [a[n - 1]] && b[..n] == b[..n - 1] + [b[n - 1]];
    }
    if n == |a| && n < |b| {
      assert ma[..n + 1][n] == mb[..n + 1][n];
      assert CutAt(c, t, p, b, offsets, mb, n);
      LongestWithin(c, Slice(t, p), offsets, mb[n], mb[n + 1]);
    }
  }

  lemma CutsUnique(c: Config, t: Text, p: Span, a: seq<Span>, b: seq<Span>)
    requires In(t, p) && CutsOf(c, t, p, a) && CutsOf(c, t, p, b)
    ensures a == b
  {
    var oa, ma :| CutsTo(c, t, p, a, oa, ma) && ma[|a|] == |oa| - 1;
    var ob, mb :| CutsTo(c, t, p, b, ob, mb) && mb[|b|] == |ob| - 1;
    BoundariesUnique(Slice(t, p), oa, ob, |oa|);
    hide CutsTo;
    MarksUnique(c, t, p, a, b, oa, ma, mb, |a|);
    assert a[..|a|] == a && b[..|b|] == b;
  }

  lemma SplitUnique(c: Config, t: Text, p: Span, a: seq<Span>, b: seq<Span>)
    requires SplitOf(c, t, p, a) && SplitOf(c, t, p, b)
    ensures a == b
  {
    hide WordsOf, CutsOf, Wordless;
    if Wordless(t, p) {
      CutsUnique(c, t, p, a, b);
    } else {
      var wa, ca :| wa != [] && WordsOf(t, p, wa) && WordsCut(c, t, wa, ca, a);
      var wb, cb :| wb != [] && WordsOf(t, p, wb) && WordsCut(c, t, wb, cb, b);
      WordsUnique(t, p, wa, wb);
      forall k: nat | k < |ca| ensures ca[k] == cb[k] {
        assert WordCut(c, t, wa[k], ca[k]) && WordCut(c, t, wb[k], cb[k]);
        if c.UnitLen(Slice(t, wa[k])) > c.MaxSize() {
          CutsUnique(c, t, wa[k], ca[k], cb[k]);
        }
      }
      assert ca == cb;
    }
  }

  // Overlap

  lemma TailNoLater(c: Config, t: Text, prev: Span, words: seq<Span>, units: nat, m: nat, n: nat)
    requires LongestTail(c, t, prev, words, units, m) && LongestTail(c, t, prev, words, units, n)
    ensures m >= n
  {
    hide Size;
    if n > 0 {
      var word := words[n - 1];
    }
  }

  lemma TailUnique(c: Config, t: Text, prev: Span, units: nat, a: nat, b: nat)
    requires TailAt(c, t, prev, units, a) && TailAt(c, t, prev, units, b)
    ensures a == b
  {
    hide WordsOf, Wordless, Size;
    if units > 0 && !Wordless(t, prev) {
      var wa: seq<Span>, na: nat :|
        WordsOf(t, prev, wa) && LongestTail(c, t, prev, wa, units, na) && a == if na == |wa| then prev.end else wa[na].start;
      var wb: seq<Span>, nb: nat :|
        WordsOf(t, prev, wb) && LongestTail(c, t, prev, wb, units, nb) && b == if nb == |wb| then prev.end else wb[nb].start;
      WordsUnique(t, prev, wa, wb);
      TailNoLater(c, t, prev, wa, units, na, nb);
      TailNoLater(c, t, prev, wa, units, nb, na);
    }
  }

  lemma OpensUnique(c: Config, t: Text, prev: Span, piece: Span, a: nat, b: nat)
    requires OpensAt(c, t, prev, piece, a) && OpensAt(c, t, prev, piece, b)
    ensures a == b
  {
    hide TailAt, Size;
    var x: nat :| TailAt(c, t, prev, c.EffectiveOverlap(), x)
                  && a == if x < prev.end && Size(c, t, x, piece.end) <= c.MaxSize() then x else piece.start;
    var y: nat :| TailAt(c, t, prev, c.EffectiveOverlap(), y)
                  && b == if y < prev.end && Size(c, t, y, piece.end) <= c.MaxSize() then y else piece.start;
    TailUnique(c, t, prev, c.EffectiveOverlap(), x, y);
  }

  // Packing

  /** Two parts that begin alike behind the same part open with the same window start. */
  lemma SameOpening(c: Config, t: Text, pieces: seq<Span>, a: seq<Part>, b: seq<Part>, i: nat, depth: nat)
    requires i < |a| && i < |b| && PartAt(c, t, pieces, a, i, depth) && PartAt(c, t, pieces, b, i, depth) && a[i].from == b[i].from
    requires !Oversized(c, t, pieces[a[i].from]) && (i > 0 ==> a[i - 1] == b[i - 1])
    ensures |a[i].windows| == 1 == |b[i].windows| && a[i].windows[0].start == b[i].windows[0].start
  {
    hide Oversized, Refined, OpensAt, Size;
    if i > 0 && !Oversized(c, t, pieces[a[i - 1].from]) && |a[i - 1].windows| == 1 {
      OpensUnique(c, t, a[i - 1].windows[0], pieces[a[i].from], a[i].windows[0].start, b[i].windows[0].start);
    }
  }

  lemma NextPart(c: Config, t: Text, pieces: seq<Span>, a: seq<Part>, i: nat, depth: nat)
    requires Parts(c, t, pieces, a, |pieces|, depth) && i < |a| && a[i].to < |pieces|
    ensures i + 1 < |a| && PartAt(c, t, pieces, a, i + 1, depth)
  {
    hide PartAt;
  }

  /** A window takes up every piece it has room for. */
  lemma SameLength(c: Config, t: Text, pieces: seq<Span>, a: seq<Part>, b: seq<Part>, i: nat, depth: nat)
    requires Parts(c, t, pieces, a, |pieces|, depth) && i < |a| && i < |b| && PartAt(c, t, pieces, b, i, depth)
    requires a[i].from == b[i].from < |pieces| && !Oversized(c, t, pieces[a[i].from])
    requires |a[i].windows| == 1 == |b[i].windows| && a[i].windows[0].start == b[i].windows[0].start
    ensures a[i].to >= b[i].to
  {
    hide Oversized, Refined, OpensAt, Size;
    assert PartAt(c, t, pieces, a, i, depth);
    var k := a[i].to;
    if k < |pieces| {
      assert k < b[i].to ==> !Oversized(c, t, pieces[k]) && Size(c, t, b[i].windows[0].start, pieces[k].end) <= c.MaxSize();
      NextPart(c, t, pieces, a, i, depth);
    }
  }

  lemma SamePart(c: Config, t: Text, pieces: seq<Span>, a: seq<Part>, b: seq<Part>, i: nat, depth: nat)
    requires Parts(c, t, pieces, a, |pieces|, depth) && Parts(c, t, pieces, b, |pieces|, depth)
    requires i < |a| && i < |b| && (i > 0 ==> a[i - 1] == b[i - 1])
    ensures a[i] == b[i]
    decreases depth, 1
  {
    hide *;
    ThisPart(c, t, pieces, a, i, depth);
    ThisPart(c, t, pieces, b, i, depth);
    if Oversized(c, t, pieces[a[i].from]) {
      RefinedUnique(c, t, pieces[a[i].from], a[i].windows, b[i].windows, depth);
    } else {
      SameOpening(c, t, pieces, a, b, i, depth);
      SameLength(c, t, pieces, a, b, i, depth);
      SameLength(c, t, pieces, b, a, i, depth);
      assert a[i].windows == [a[i].windows[0]] && b[i].windows == [b[i].windows[0]];
    }
  }

  /** What is known of one part. */
  lemma ThisPart(c: Config, t: Text, pieces: seq<Span>, a: seq<Part>, i: nat, depth: nat)
    requires Parts(c, t, pieces, a, |pieces|, depth) && i < |a|
    ensures PartAt(c, t, pieces, a, i, depth)
    ensures a[i].from < a[i].to <= |pieces| && a[i].from == (if i == 0 then 0 else a[i - 1].to)
    ensures if Oversized(c, t, pieces[a[i].from]) then a[i].to == a[i].from + 1 && Refined(c, t, pieces[a[i].from], a[i].windows, depth)
            else |a[i].windows| == 1 && a[i].windows[0].end == pieces[a[i].to - 1].end
  {
    assert PartAt(c, t, pieces, a, i, depth);
    hide Parts, Oversized, Refined, Opens, Size;
  }

  lemma RefinedUnique(c: Config, t: Text, piece: Span, a: seq<Span>, b: seq<Span>, depth: nat)
    requires Refined(c, t, piece, a, depth) && Refined(c, t, piece, b, depth)
    ensures a == b
    decreases depth, 0
  {
    hide SplitOf, Packing;
    var sa: seq<Span> :| SplitOf(c, t, piece, sa) && if sa == [piece] then a == [piece] else depth > 0 && Packing(c, t, sa, a, depth - 1);
    var sb: seq<Span> :| SplitOf(c, t, piece, sb) && if sb == [piece] then b == [piece] else depth > 0 && Packing(c, t, sb, b, depth - 1);
    SplitUnique(c, t, piece, sa, sb);
    if sa != [piece] {
      PackingUnique(c, t, sa, a, b, depth - 1);
    }
  }

  lemma {:induction false} PartsUnique(c: Config, t: Text, pieces: seq<Span>, a: seq<Part>, b: seq<Part>, n: nat, depth: nat)
    requires Parts(c, t, pieces, a, |pieces|, depth) && Parts(c, t, pieces, b, |pieces|, depth) && n <= |a|
    ensures n <= |b| && a[..n] == b[..n]
    ensures n == |a| ==> a == b
    decreases depth, 2, n
  {
    hide Oversized, Shares, Opens, Refined;
    if n > 0 {
      PartsUnique(c, t, pieces, a, b, n - 1, depth);
      assert n > 1 ==> a[..n - 1][n - 2] == b[..n - 1][n - 2];
      assert PartAt(c, t, pieces, a, n - 1, depth);
      if n - 1 < |b| {
        SamePart(c, t, pieces, a, b, n - 1, depth);
        assert a[..n] == a[..n - 1] + [a[n - 1]] && b[..n] == b[..n - 1] + [b[n - 1]];
      }
    }
    if n < |b| && a[..n] == b[..n] {
      assert PartAt(c, t, pieces, b, n, depth);
      assert n > 0 ==> a[..n][n - 1] == b[..n][n - 1];
    }
  }

  lemma PackingUnique(c: Config, t: Text, pieces: seq<Span>, a: seq<Span>, b: seq<Span>, depth: nat)
    requires Packing(c, t, pieces, a, depth) && Packing(c, t, pieces, b, depth)
    ensures a == b
    decreases depth, 3
  {
    hide Parts;
    var pa: seq<Part> :| Parts(c, t, pieces, pa, |pieces|, depth) && a == WindowsIn(pa);
    var pb: seq<Part> :| Parts(c, t, pieces, pb, |pieces|, depth) && b == WindowsIn(pb);
    PartsUnique(c, t, pieces, pa, pb, |pa|, depth);
  }

  // The document

  lemma UnitUnique(c: Config, t: Text, p: Span, a: seq<Span>, b: seq<Span>)
    requires p.start < p.end && UnitOf(c, t, p, a) && UnitOf(c, t, p, b)
    ensures a == b
  {
    hide SentencesOf, Packing;
    if Oversized(c, t, p) {
      var sa: seq<Span> :| SentencesOf(t, p, sa) && Packing(c, t, sa, a, p.end - p.start);
      var sb: seq<Span> :| SentencesOf(t, p, sb) && Packing(c, t, sb, b, p.end - p.start);
      SentencesUnique(t, p, sa, sb);
      PackingUnique(c, t, sa, a, b, p.end - p.start);
    }
  }

  /** A text has one chunking. */
  lemma ChunkingUnique(c: Config, t: Text, a: seq<Span>, b: seq<Span>)
    requires Chunking(c, t, a) && Chunking(c, t, b)
    ensures a == b
  {
    hide UnitOf, ParagraphsOf;
    var pa: seq<Span>, ua: seq<seq<Span>> :| ParagraphsOf(t, pa) && Units(c, t, pa, ua) && Merged(c, t, Lists.Concat(ua), a);
    var pb: seq<Span>, ub: seq<seq<Span>> :| ParagraphsOf(t, pb) && Units(c, t, pb, ub) && Merged(c, t, Lists.Concat(ub), b);
    ParagraphsUnique(t, pa, pb);
    ParagraphsFilled(t, pa);
    forall k: nat | k < |ua| ensures ua[k] == ub[k] {
      assert UnitOf(c, t, pa[k], ua[k]) && UnitOf(c, t, pb[k], ub[k]);
      UnitUnique(c, t, pa[k], ua[k], ub[k]);
    }
    assert ua == ub;
  }

  lemma ParagraphsFilled(t: Text, ps: seq<Span>)
    requires ParagraphsOf(t, ps)
    ensures forall k | 0 <= k < |ps| :: ps[k].start < ps[k].end
  {
  }
}
