/** How rag/chunk.go takes a text apart: paragraphs, then sentences, then words, then a cut between runes. */
module ChunkSplitters {
  import opened Wrappers
  import opened Utf8
  import opened RagTypes
  import Lists

  /** `tokens` counts model tokens when a tokenizer is configured; otherwise sizes count runes. */
  datatype Config = Config(maxRunes: int, overlapRunes: int, minRunes: int, tokens: Option<Text -> nat>) {
    function MaxSize(): (r: nat)
      ensures r > 0
    {
      if maxRunes > 0 then maxRunes else 800
    }

    /** The configured overlap, capped at half a window. */
    function EffectiveOverlap(): nat {
      var o := if overlapRunes > 0 then overlapRunes else 120;
      if o <= MaxSize() / 2 then o else MaxSize() / 2
    }

    function MinSize(): nat {
      if minRunes > 0 then minRunes else 200
    }

    function UnitLen(s: Text): nat {
      match tokens
      case Some(count) => count(s)
      case None => RuneCount(s)
    }

    /** Some text is never worth zero units. */
    ghost predicate Positive() {
      forall s: Text :: s != [] ==> UnitLen(s) > 0
    }
  }

  /** Sizes left at zero are 800, 120 and 200; an overlap is taken as configured, or as half a window where it is more. */
  lemma Limits(c: Config)
    ensures c.maxRunes > 0 ==> c.MaxSize() == c.maxRunes
    ensures c.minRunes > 0 ==> c.MinSize() == c.minRunes
    ensures 2 * c.EffectiveOverlap() <= c.MaxSize()
    ensures c.overlapRunes > 0 && 2 * c.overlapRunes <= c.MaxSize() ==> c.EffectiveOverlap() == c.overlapRunes
    ensures c.overlapRunes > 0 && 2 * c.overlapRunes > c.MaxSize() ==> 2 * c.EffectiveOverlap() + 1 >= c.MaxSize()
    ensures c.maxRunes <= 0 && c.overlapRunes <= 0 && c.minRunes <= 0 ==>
              c.MaxSize() == 800 && c.EffectiveOverlap() == 120 && c.MinSize() == 200
  {
  }

  /** The bytes that part words, and those that end sentences. */
  lemma Separators(b: byte)
    ensures IsSpace(b) <==> b as char in " \t\n\r"
    ensures Ender(b) <==> b as char in ".?!"
    ensures IsSpace(b) ==> IsUnicodeSpace(b)
  {
    assert " \t\n\r"[0] == ' ' && " \t\n\r"[1] == '\t' && " \t\n\r"[2] == '\n' && " \t\n\r"[3] == '\r';
    assert ".?!"[0] == '.' && ".?!"[1] == '?' && ".?!"[2] == '!';
  }

  predicate IsSpace(b: byte) {
    b == 0x20 || b == 0x09 || b == 0x0A || b == 0x0D
  }

  /** unicode.IsSpace of the rune with this byte's value. */
  predicate IsUnicodeSpace(b: byte) {
    0x09 <= b <= 0x0D || b == 0x20 || b == 0x85 || b == 0xA0
  }

  predicate In(t: Text, w: Span) {
    w.start <= w.end <= |t|
  }

  function Slice(t: Text, w: Span): Text
    requires In(t, w)
  {
    t[w.start..w.end]
  }

  // Lists of spans

  /** Non-empty spans in order and without overlap, all within [lo, hi). */
  ghost predicate Ordered(ws: seq<Span>, lo: nat, hi: nat) {
    && (forall k | 0 <= k < |ws| :: lo <= ws[k].start < ws[k].end <= hi)
    && (forall k, k' | 0 <= k < k' < |ws| :: ws[k].end <= ws[k'].start)
  }

  ghost predicate Hit(ws: seq<Span>, i: nat) {
    exists k | 0 <= k < |ws| :: ws[k].start <= i < ws[k].end
  }

  /** Every byte of [lo, hi) that the code does not class as space lies in some span. */
  ghost predicate Covers(t: Text, ws: seq<Span>, lo: nat, hi: nat)
    requires hi <= |t|
  {
    forall i | lo <= i < hi && !IsUnicodeSpace(t[i]) :: Hit(ws, i)
  }

  lemma HitAppend(ws: seq<Span>, more: seq<Span>, i: nat)
    ensures Hit(ws + more, i) <==> Hit(ws, i) || Hit(more, i)
  {
    if Hit(ws, i) {
      var k :| 0 <= k < |ws| && ws[k].start <= i < ws[k].end;
      assert (ws + more)[k] == ws[k];
    }
    if Hit(more, i) {
      var k :| 0 <= k < |more| && more[k].start <= i < more[k].end;
      assert (ws + more)[|ws| + k] == more[k];
    }
  }

  lemma CoversAppend(t: Text, ws: seq<Span>, more: seq<Span>, lo: nat, mid: nat, hi: nat)
    requires lo <= mid <= hi <= |t| && Covers(t, ws, lo, mid) && Covers(t, more, mid, hi)
    ensures Covers(t, ws + more, lo, hi)
  {
    forall i | lo <= i < hi && !IsUnicodeSpace(t[i]) ensures Hit(ws + more, i) {
      HitAppend(ws, more, i);
    }
  }

  /** A single span, and the space on either side of it. */
  lemma CoversOne(t: Text, w: Span, lo: nat, hi: nat)
    requires lo <= w.start <= w.end <= hi <= |t|
    requires forall i | lo <= i < w.start || w.end <= i < hi :: IsUnicodeSpace(t[i])
    ensures Covers(t, [w], lo, hi)
  {
    forall i | lo <= i < hi && !IsUnicodeSpace(t[i]) ensures Hit([w], i) {
      assert [w][0].start <= i < [w][0].end;
    }
  }

  // Splitters

  method TrimSpan(t: Text, w: Span) returns (r: Span)
    requires In(t, w)
    ensures w.start <= r.start <= r.end <= w.end
    ensures forall i | w.start <= i < r.start || r.end <= i < w.end :: IsUnicodeSpace(t[i])
    ensures r.start < r.end ==> !IsUnicodeSpace(t[r.start]) && !IsUnicodeSpace(t[r.end - 1])
  {
    r := w;
    while r.start < r.end && IsUnicodeSpace(t[r.start])
      invariant w.start <= r.start <= r.end == w.end
      invariant forall i | w.start <= i < r.start :: IsUnicodeSpace(t[i])
    {
      r := r.(start := r.start + 1);
    }
    while r.end > r.start && IsUnicodeSpace(t[r.end - 1])
      invariant w.start <= r.start <= r.end <= w.end
      invariant forall i | w.start <= i < r.start || r.end <= i < w.end :: IsUnicodeSpace(t[i])
      invariant r.start < r.end ==> !IsUnicodeSpace(t[r.start])
    {
      r := r.(end := r.end - 1);
    }
  }

  predicate Breaking(b: byte) {
    b == 0x0A || b == 0x0D
  }

  /** A line feed at i and another at j with nothing but line breaks in between. */
  predicate BlankLine(t: Text, i: nat, j: nat) {
    i < j < |t| && t[i] == 0x0A && t[j] == 0x0A && forall x | i < x < j :: Breaking(t[x])
  }

  /** There is a blank line between lo and hi. */
  ghost predicate BlankIn(t: Text, lo: nat, hi: nat) {
    exists i: nat, j: nat :: lo <= i && j < hi && BlankLine(t, i, j)
  }

  /** The end of the run of line breaks at i, and how many line feeds it has. */
  method Breaks(t: Text, i: nat) returns (j: nat, feeds: nat)
    requires i < |t| && t[i] == 0x0A
    ensures i < j <= |t| && forall x | i <= x < j :: Breaking(t[x])
    ensures j == |t| || !Breaking(t[j])
    ensures feeds >= 2 <==> BlankIn(t, i, j)
  {
    j, feeds := i, 0;
    ghost var second := i;
    while j < |t| && (t[j] == 0x0A || t[j] == 0x0D)
      invariant i <= j <= |t| && (j == i ==> feeds == 0) && (j > i ==> feeds >= 1)
      invariant forall x | i <= x < j :: Breaking(t[x])
      invariant feeds <= 1 ==> forall x | i < x < j :: t[x] == 0x0D
      invariant feeds >= 2 ==> i < second < j && t[second] == 0x0A
    {
      if t[j] == 0x0A {
        feeds := feeds + 1;
        second := j;
      }
      j := j + 1;
    }
    assert feeds >= 2 ==> BlankLine(t, i, second);
  }

  /** No run of line breaks goes on across i. */
  ghost predicate Closed(t: Text, start: nat, i: nat) {
    forall a: nat, b: nat {:trigger BlankLine(t, a, b)} | start <= a < i <= b :: !BlankLine(t, a, b)
  }

  /** The paragraphs so far: no blank line inside one, a blank line between any two and behind the last. */
  ghost predicate Separated(t: Text, out: seq<Span>) {
    && (forall k | 0 <= k < |out| :: !BlankIn(t, out[k].start, out[k].end))
    && (forall k | 0 < k < |out| :: BlankIn(t, out[k - 1].end, out[k].start))
  }

  ghost predicate Trimmed(t: Text, ws: seq<Span>) {
    forall k | 0 <= k < |ws| :: ws[k].start < ws[k].end <= |t| && !IsUnicodeSpace(t[ws[k].start]) && !IsUnicodeSpace(t[ws[k].end - 1])
  }

  /** The paragraphs of a text: separated by blank lines, trimmed, and without losing a byte other than space. */
  ghost predicate ParagraphsOf(t: Text, ws: seq<Span>) {
    Ordered(ws, 0, |t|) && Covers(t, ws, 0, |t|) && Separated(t, ws) && Trimmed(t, ws)
  }

  method SplitParagraphs(t: Text) returns (out: seq<Span>)
    ensures ParagraphsOf(t, out)
  {
    hide *;
    out := [];
    var start, i := 0, 0;
    NoParagraphs(t);
    while i < |t|
      invariant start <= i <= |t|
      invariant Ordered(out, 0, start) && Covers(t, out, 0, start)
      invariant Separated(t, out) && (out != [] ==> BlankIn(t, out[|out| - 1].end, start)) && Trimmed(t, out)
      invariant !BlankIn(t, start, i) && Closed(t, start, i)
    {
      if t[i] == 0x0A {
        var j, feeds := Breaks(t, i);
        RunPassed(t, start, i, j);
        if feeds >= 2 {
          out := Paragraph(t, out, start, i, j);
          start := j;
        }
        i := j;
      } else {
        BytePassed(t, start, i);
        i := i + 1;
      }
    }
    out := Paragraph(t, out, start, |t|, |t|);
    AllParagraphs(t, out);
  }

  lemma NoParagraphs(t: Text)
    ensures Ordered([], 0, 0) && Covers(t, [], 0, 0) && Separated(t, []) && Trimmed(t, []) && !BlankIn(t, 0, 0) && Closed(t, 0, 0)
  {
  }

  lemma AllParagraphs(t: Text, ws: seq<Span>)
    requires Ordered(ws, 0, |t|) && Covers(t, ws, 0, |t|) && Separated(t, ws) && Trimmed(t, ws)
    ensures ParagraphsOf(t, ws)
  {
    hide Ordered, Covers, Separated, Trimmed;
  }

  lemma RunPassed(t: Text, start: nat, i: nat, j: nat)
    requires start <= i < j <= |t| && t[i] == 0x0A && (forall x | i <= x < j :: Breaking(t[x])) && (j == |t| || !Breaking(t[j]))
    requires !BlankIn(t, start, i) && Closed(t, start, i)
    ensures Closed(t, start, j) && Closed(t, j, j) && !BlankIn(t, j, j)
    ensures !BlankIn(t, i, j) ==> !BlankIn(t, start, j)
  {
  }

  lemma BytePassed(t: Text, start: nat, i: nat)
    requires start <= i < |t| && t[i] != 0x0A && !BlankIn(t, start, i) && Closed(t, start, i)
    ensures !BlankIn(t, start, i + 1) && Closed(t, start, i + 1)
  {
  }

  /** Appends the trimmed text from `start` to `end` unless it is blank; up to `next` there is only space. */
  method Paragraph(t: Text, out: seq<Span>, start: nat, end: nat, next: nat) returns (r: seq<Span>)
    requires start <= end <= next <= |t| && Ordered(out, 0, start) && Covers(t, out, 0, start)
    requires forall x | end <= x < next :: Breaking(t[x])
    requires Separated(t, out) && (out != [] ==> BlankIn(t, out[|out| - 1].end, start)) && !BlankIn(t, start, end) && Trimmed(t, out)
    ensures Trimmed(t, r)
    ensures Ordered(r, 0, next) && Covers(t, r, 0, next)
    ensures Separated(t, r) && (BlankIn(t, end, next) && r != [] ==> BlankIn(t, r[|r| - 1].end, next))
  {
    assert forall x | end <= x < next :: IsUnicodeSpace(t[x]);
    hide Separated, BlankIn, Breaking, Ordered, Covers;
    var trimmed := TrimSpan(t, Span(start, end));
    hide *;
    SeparatedMore(t, out, start, end, next, trimmed);
    TrimmedMore(t, out, trimmed);
    CoversMore(t, out, start, end, next, trimmed);
    r := if trimmed.end > trimmed.start then out + [trimmed] else out;
  }

  lemma TrimmedMore(t: Text, out: seq<Span>, w: Span)
    requires Trimmed(t, out) && w.end <= |t|
    requires w.start < w.end ==> !IsUnicodeSpace(t[w.start]) && !IsUnicodeSpace(t[w.end - 1])
    ensures w.start < w.end ==> Trimmed(t, out + [w])
  {
    hide IsUnicodeSpace;
  }

  lemma CoversMore(t: Text, out: seq<Span>, start: nat, end: nat, next: nat, w: Span)
    requires start <= w.start <= w.end <= end <= next <= |t| && Ordered(out, 0, start) && Covers(t, out, 0, start)
    requires forall x | start <= x < w.start || w.end <= x < next :: IsUnicodeSpace(t[x])
    ensures var r := if w.end > w.start then out + [w] else out; Ordered(r, 0, next) && Covers(t, r, 0, next)
  {
    if w.end > w.start {
      CoversOne(t, w, start, next);
      CoversAppend(t, out, [w], 0, start, next);
    } else {
      assert Covers(t, [], start, next);
      CoversAppend(t, out, [], 0, start, next);
      assert out + [] == out;
    }
    hide Covers, Hit;
  }

  lemma SeparatedMore(t: Text, out: seq<Span>, start: nat, end: nat, next: nat, w: Span)
    requires Separated(t, out) && (out != [] ==> BlankIn(t, out[|out| - 1].end, start)) && !BlankIn(t, start, end)
    requires start <= w.start <= w.end <= end <= next
    ensures Separated(t, out + [w])
    ensures BlankIn(t, end, next) ==> BlankIn(t, w.end, next) && (out != [] ==> BlankIn(t, out[|out| - 1].end, next))
  {
    if out != [] {
      BlankWider(t, out[|out| - 1].end, start, out[|out| - 1].end, w.start);
      BlankWider(t, out[|out| - 1].end, start, out[|out| - 1].end, next);
    }
    BlankWider(t, end, next, w.end, next);
    BlankWider(t, w.start, w.end, start, end);
    hide BlankIn;
  }

  lemma BlankWider(t: Text, lo: nat, hi: nat, lo': nat, hi': nat)
    requires lo' <= lo && hi <= hi'
    ensures BlankIn(t, lo, hi) ==> BlankIn(t, lo', hi')
  {
  }

  /** Consecutive non-empty spans that together are exactly [lo, hi). */
  ghost predicate Partition(ws: seq<Span>, lo: nat, hi: nat) {
    && Ordered(ws, lo, hi)
    && (lo < hi ==> ws != [] && ws[0].start == lo && ws[|ws| - 1].end == hi)
    && (forall k | 0 < k < |ws| :: ws[k - 1].end == ws[k].start)
  }

  lemma {:induction false} PartitionHits(ws: seq<Span>, lo: nat, hi: nat, i: nat)
    requires Partition(ws, lo, hi) && lo <= i < hi
    ensures Hit(ws, i)
  {
    var n := |ws| - 1;
    if i < ws[n].start {
      assert n > 0 && ws[n - 1].end == ws[n].start;
      assert Partition(ws[..n], lo, ws[n].start);
      PartitionHits(ws[..n], lo, ws[n].start, i);
      HitAppend(ws[..n], [ws[n]], i);
      assert ws == ws[..n] + [ws[n]];
    }
  }

  lemma PartitionAppend(ws: seq<Span>, lo: nat, mid: nat, hi: nat)
    requires Partition(ws, lo, mid) && lo <= mid < hi && (ws == [] ==> lo == mid)
    ensures Partition(ws + [Span(mid, hi)], lo, hi)
  {
  }

  lemma PartitionRoom(ws: seq<Span>, lo: nat, hi: nat)
    requires Partition(ws, lo, hi)
    ensures ws != [] ==> lo < hi
  {
    assert ws != [] ==> lo <= ws[0].start < ws[0].end <= hi;
  }

  method SkipSpace(t: Text, from: nat, end: nat) returns (j: nat)
    requires from <= end <= |t|
    ensures from <= j <= end && (j < end ==> !IsSpace(t[j])) && forall x | from <= x < j :: IsSpace(t[x])
  {
    j := from;
    while j < end && IsSpace(t[j])
      invariant from <= j <= end && forall x | from <= x < j :: IsSpace(t[x])
    {
      j := j + 1;
    }
  }

  predicate Ender(b: byte) {
    b == 0x2E || b == 0x3F || b == 0x21
  }

  /** A sentence begins at j: behind the ender at e come spaces up to j, at least one. */
  predicate BeginsAt(t: Text, e: nat, j: nat) {
    e + 1 < j < |t| && Ender(t[e]) && (forall x | e < x < j :: IsSpace(t[x])) && !IsSpace(t[j])
  }

  ghost predicate Begins(t: Text, lo: nat, j: nat) {
    exists e: nat :: lo <= e && BeginsAt(t, e, j)
  }

  ghost predicate StartsOne(out: seq<Span>, j: nat) {
    exists k :: 0 < k < |out| && out[k].start == j
  }

  /** The sentences partition the paragraph, and begin exactly behind an ender and the spaces after it. */
  ghost predicate SentencesOf(t: Text, p: Span, ws: seq<Span>) {
    Partition(ws, p.start, p.end) && forall j: nat | p.start < j < p.end :: StartsOne(ws, j) <==> Begins(t, p.start, j)
  }

  method SplitSentences(t: Text, p: Span) returns (out: seq<Span>)
    requires In(t, p) && p.start < p.end
    ensures SentencesOf(t, p, out)
  {
    out := [];
    var start, i := p.start, p.start;
    while i < p.end
      invariant p.start <= start <= i <= p.end
      invariant Partition(out, p.start, start) && (out == [] ==> start == p.start)
      invariant forall j: nat | p.start < j < p.end && StartsOne(out, j) :: Begins(t, p.start, j)
      invariant p.start < start < p.end ==> Begins(t, p.start, start)
      invariant forall e: nat, j: nat {:trigger BeginsAt(t, e, j)} | p.start <= e < i && j < p.end && BeginsAt(t, e, j) ::
                  j == start || StartsOne(out, j)
    {
      hide Partition, StartsOne, Begins;
      if t[i] == 0x2E || t[i] == 0x3F || t[i] == 0x21 {
        var j := SkipSpace(t, i + 1, p.end);
        if j > i + 1 || j == p.end {
          PartitionAppend(out, p.start, start, j);
          NextSentence(t, p, out, start, i, j);
          out := out + [Span(start, j)];
          start := j;
          i := j - 1;
        }
      }
      i := i + 1;
    }
    LastSentence(t, p, out, start);
    if start < p.end {
      PartitionAppend(out, p.start, start, p.end);
      out := out + [Span(start, p.end)];
    }
    if |out| == 0 {
      return [p];
    }
  }

  /** The cut behind the ender at i keeps what is known of the sentences so far. */
  lemma NextSentence(t: Text, p: Span, out: seq<Span>, start: nat, i: nat, j: nat)
    requires In(t, p) && p.start <= start <= i < j <= p.end && Ender(t[i]) && (j > i + 1 || j == p.end)
    requires Partition(out, p.start, start) && (out == [] ==> start == p.start)
    requires (forall x | i < x < j :: IsSpace(t[x])) && (j < p.end ==> !IsSpace(t[j]))
    requires forall j: nat | p.start < j < p.end && StartsOne(out, j) :: Begins(t, p.start, j)
    requires p.start < start < p.end ==> Begins(t, p.start, start)
    requires forall e: nat, b: nat {:trigger BeginsAt(t, e, b)} | p.start <= e < i && b < p.end && BeginsAt(t, e, b) ::
               b == start || StartsOne(out, b)
    ensures var more := out + [Span(start, j)];
            && (forall b: nat | p.start < b < p.end && StartsOne(more, b) :: Begins(t, p.start, b))
            && (p.start < j < p.end ==> Begins(t, p.start, j))
            && forall e: nat, b: nat {:trigger BeginsAt(t, e, b)} | p.start <= e < j && b < p.end && BeginsAt(t, e, b) ::
                 b == j || StartsOne(more, b)
  {
    var more := out + [Span(start, j)];
    assert p.start < j < p.end ==> BeginsAt(t, i, j);
    PartitionRoom(out, p.start, start);
    forall b ensures StartsOne(more, b) <==> StartsOne(out, b) || (out != [] && start == b) {
      StartsMore(out, Span(start, j), b);
    }
    hide StartsOne, Partition;
    forall e: nat, b: nat {:trigger BeginsAt(t, e, b)} | p.start <= e < j && b < p.end && BeginsAt(t, e, b)
      ensures b == j || StartsOne(more, b)
    {
      if e >= i {
        SameStartAfter(t, i, e, j, b);
      } else {
        assert b > p.start;
      }
    }
  }

  lemma StartsMore(out: seq<Span>, w: Span, b: nat)
    ensures StartsOne(out + [w], b) <==> StartsOne(out, b) || (out != [] && w.start == b)
  {
    var more := out + [w];
    if k :| 0 < k < |out| && out[k].start == b {
      assert more[k].start == b;
    }
    if out != [] && w.start == b {
      assert more[|out|].start == b;
    }
  }

  /** Between an ender and the end of the spaces behind it no other sentence begins. */
  lemma SameStartAfter(t: Text, i: nat, e: nat, j: nat, b: nat)
    requires i <= e < j <= |t| && BeginsAt(t, e, b) && (forall x | i < x < j :: IsSpace(t[x])) && (j < |t| ==> j > i)
    ensures e == i && (j < b ==> IsSpace(t[j])) && b >= j
  {
  }

  lemma LastSentence(t: Text, p: Span, out: seq<Span>, start: nat)
    requires In(t, p) && p.start <= start <= p.end && Partition(out, p.start, start) && (out == [] ==> start == p.start)
    requires forall j: nat | p.start < j < p.end && StartsOne(out, j) :: Begins(t, p.start, j)
    requires p.start < start < p.end ==> Begins(t, p.start, start)
    requires forall e: nat, j: nat {:trigger BeginsAt(t, e, j)} | p.start <= e < p.end && j < p.end && BeginsAt(t, e, j) ::
               j == start || StartsOne(out, j)
    ensures var all := if start < p.end then out + [Span(start, p.end)] else out;
            forall j: nat | p.start < j < p.end :: StartsOne(all, j) <==> Begins(t, p.start, j)
  {
    PartitionRoom(out, p.start, start);
    forall j ensures StartsOne(out + [Span(start, p.end)], j) <==> StartsOne(out, j) || (out != [] && start == j) {
      StartsMore(out, Span(start, p.end), j);
    }
    hide StartsOne, Partition;
    forall j: nat | p.start < j < p.end && Begins(t, p.start, j) ensures j == start || StartsOne(out, j) {
      var e: nat :| p.start <= e && BeginsAt(t, e, j);
    }
  }

  /** Not in the middle of a word of the text that starts at lo. */
  predicate WordStart(t: Text, lo: nat, i: nat)
    requires i <= |t|
  {
    i <= lo || IsSpace(t[i - 1])
  }

  /** Word k is a longest run without space inside p. */
  predicate WordAt(t: Text, p: Span, ws: seq<Span>, k: nat)
    requires k < |ws| && In(t, p) && p.start <= ws[k].start < ws[k].end <= p.end
  {
    && (forall i | ws[k].start <= i < ws[k].end :: !IsSpace(t[i]))
    && WordStart(t, p.start, ws[k].start) && (ws[k].end == p.end || IsSpace(t[ws[k].end]))
  }

  /** The words of p: its longest runs without space, all of them, in order. */
  ghost predicate WordsOf(t: Text, p: Span, ws: seq<Span>)
    requires In(t, p)
  {
    && Ordered(ws, p.start, p.end)
    && (forall k: nat {:trigger WordAt(t, p, ws, k)} | k < |ws| :: WordAt(t, p, ws, k))
    && Held(t, ws, p.start, p.end)
  }

  /** Every byte of the stretch that is no space lies in a word. */
  ghost predicate Held(t: Text, ws: seq<Span>, lo: nat, hi: nat)
    requires hi <= |t|
  {
    forall i | lo <= i < hi && !IsSpace(t[i]) :: Hit(ws, i)
  }

  lemma HeldMore(t: Text, ws: seq<Span>, lo: nat, start: nat, end: nat, hi: nat)
    requires lo <= start <= end <= hi <= |t| && Held(t, ws, lo, start)
    requires forall i | end <= i < hi :: IsSpace(t[i])
    ensures Held(t, ws + [Span(start, end)], lo, hi)
  {
    forall i | lo <= i < hi && !IsSpace(t[i]) ensures Hit(ws + [Span(start, end)], i) {
      HitAppend(ws, [Span(start, end)], i);
      assert [Span(start, end)][0].start == start;
    }
  }

  /** The words so far are complete: behind each comes a space. */
  ghost predicate WordsTo(t: Text, p: Span, ws: seq<Span>, at: nat)
    requires In(t, p) && p.start <= at <= p.end
  {
    && Ordered(ws, p.start, at) && Held(t, ws, p.start, at)
    && forall k: nat {:trigger WordAt(t, p, ws, k)} | k < |ws| :: WordAt(t, p, ws, k)
  }

  lemma WordMore(t: Text, p: Span, ws: seq<Span>, start: nat, end: nat)
    requires In(t, p) && p.start <= start < end <= p.end && WordsTo(t, p, ws, start) && WordStart(t, p.start, start)
    requires (forall i | start <= i < end :: !IsSpace(t[i])) && (end == p.end || IsSpace(t[end]))
    ensures WordsTo(t, p, ws + [Span(start, end)], end)
    ensures end < p.end ==> WordsTo(t, p, ws + [Span(start, end)], end + 1)
  {
    hide IsSpace, Hit;
    var more := ws + [Span(start, end)];
    HeldMore(t, ws, p.start, start, end, end);
    if end < p.end {
      HeldMore(t, ws, p.start, start, end, end + 1);
    }
    forall k: nat | k < |more| ensures WordAt(t, p, more, k) {
      assert k < |ws| ==> WordAt(t, p, ws, k);
    }
  }

  method SplitWhitespace(t: Text, p: Span) returns (out: seq<Span>)
    requires In(t, p)
    ensures WordsOf(t, p, out)
  {
    out := [];
    var start: int := -1;
    for i := p.start to p.end
      invariant start == -1 || p.start <= start < i
      invariant WordsTo(t, p, out, if start < 0 then i else start)
      invariant WordStart(t, p.start, if start < 0 then i else start)
      invariant start >= 0 ==> forall x | start <= x < i :: !IsSpace(t[x])
    {
      hide WordsTo;
      if IsSpace(t[i]) {
        if start >= 0 {
          WordMore(t, p, out, start, i);
          out := out + [Span(start, i)];
          start := -1;
        } else {
          SpaceAfter(t, p, out, i);
        }
      } else if start < 0 {
        start := i;
      }
    }
    if start >= 0 {
      WordMore(t, p, out, start, p.end);
      out := out + [Span(start, p.end)];
    }
  }

  lemma SpaceAfter(t: Text, p: Span, ws: seq<Span>, at: nat)
    requires In(t, p) && p.start <= at < p.end && WordsTo(t, p, ws, at) && IsSpace(t[at])
    ensures WordsTo(t, p, ws, at + 1)
  {
    hide IsSpace, WordAt;
  }

  /** What the words hold; the code's wider class of spaces is left out. */
  lemma WordsHold(t: Text, p: Span, ws: seq<Span>)
    requires In(t, p) && WordsOf(t, p, ws)
    ensures Covers(t, ws, p.start, p.end)
    ensures ws == [] ==> forall i | p.start <= i < p.end :: IsSpace(t[i])
    ensures forall k | 0 <= k < |ws| :: WordStart(t, p.start, ws[k].start)
  {
    forall k | 0 <= k < |ws| ensures WordStart(t, p.start, ws[k].start) {
      assert WordAt(t, p, ws, k);
    }
  }

  // Windows that fit

  /** The window is within the budget, or a single rune that cannot be split. */
  predicate Fits(c: Config, t: Text, w: Span)
    requires In(t, w)
  {
    c.UnitLen(Slice(t, w)) <= c.MaxSize() || RuneCount(Slice(t, w)) == 1
  }

  ghost predicate AllFit(c: Config, t: Text, ws: seq<Span>) {
    forall k | 0 <= k < |ws| :: In(t, ws[k]) && Fits(c, t, ws[k])
  }

  /** The size of the runes x to y - 1. */
  ghost function Runes(c: Config, text: Text, offsets: seq<nat>, x: nat, y: nat): nat {
    if x <= y < |offsets| && offsets[x] <= offsets[y] <= |text| then c.UnitLen(text[offsets[x]..offsets[y]]) else 0
  }

  /** From rune x the text is cut behind rune y - 1: every beginning fits and one rune more does not; a rune over budget stays whole. */
  ghost predicate LongestCut(c: Config, text: Text, offsets: seq<nat>, x: nat, y: nat) {
    && x < y < |offsets|
    && (y > x + 1 ==> forall z: nat {:trigger Runes(c, text, offsets, x, z)} | x < z <= y :: Runes(c, text, offsets, x, z) <= c.MaxSize())
    && (y < |offsets| - 1 ==>
          Runes(c, text, offsets, x, y + 1) > c.MaxSize() || (y == x + 1 && Runes(c, text, offsets, x, y) > c.MaxSize()))
  }

  lemma RunesIs(c: Config, text: Text, offsets: seq<nat>, x: nat, y: nat)
    requires Boundaries(text, offsets) && x <= y < |offsets|
    ensures offsets[x] <= offsets[y] <= |text| && Runes(c, text, offsets, x, y) == c.UnitLen(text[offsets[x]..offsets[y]])
    ensures RuneCount(text[offsets[x]..offsets[y]]) == y - x
  {
    SliceRunes(text, offsets, x, x, y);
  }

  /** Without a tokenizer: as many runes as the budget has. */
  lemma CutRunes(c: Config, text: Text, offsets: seq<nat>, x: nat, y: nat)
    requires c.tokens.None? && Boundaries(text, offsets) && x < |offsets| - 1
    requires y == if x + c.MaxSize() < |offsets| - 1 then x + c.MaxSize() else |offsets| - 1
    ensures LongestCut(c, text, offsets, x, y) && Runes(c, text, offsets, x, y) <= c.MaxSize()
  {
    forall z: nat | x < z < |offsets| ensures Runes(c, text, offsets, x, z) == z - x {
      RunesIs(c, text, offsets, x, z);
    }
    hide Runes;
  }

  /** With a tokenizer: rune by rune, while what is taken fits. */
  method CutTokens(c: Config, text: Text, offsets: seq<nat>, first: nat) returns (end: nat)
    requires Boundaries(text, offsets) && first < |offsets| - 1
    ensures first < end < |offsets| && LongestCut(c, text, offsets, first, end)
    ensures Runes(c, text, offsets, first, end) <= c.MaxSize() || end == first + 1
  {
    hide Boundaries, RuneCount, Runes, Config.UnitLen, Config.MaxSize;
    end := first + 1;
    RunesIs(c, text, offsets, first, end);
    if c.UnitLen(text[offsets[first]..offsets[end]]) <= c.MaxSize() {
      var candidate := end + 1;
      while candidate < |offsets|
        invariant first < end < |offsets| && candidate == end + 1
        invariant forall z: nat {:trigger Runes(c, text, offsets, first, z)} | first < z <= end :: Runes(c, text, offsets, first, z) <= c.MaxSize()
        decreases |offsets| - candidate
      {
        RunesIs(c, text, offsets, first, candidate);
        if c.UnitLen(text[offsets[first]..offsets[candidate]]) > c.MaxSize() {
          break;
        }
        end := candidate;
        candidate := candidate + 1;
      }
    }
  }

  /** The end of the window that starts at rune `first`. */
  method CutEnd(c: Config, t: Text, p: Span, offsets: seq<nat>, first: nat) returns (end: nat)
    requires In(t, p) && Boundaries(Slice(t, p), offsets) && first < |offsets| - 1
    ensures first < end < |offsets|
    ensures offsets[first] < offsets[end] <= p.end - p.start
    ensures Fits(c, t, Span(p.start + offsets[first], p.start + offsets[end]))
    ensures LongestCut(c, Slice(t, p), offsets, first, end)
  {
    var text, max, n := Slice(t, p), c.MaxSize(), |offsets| - 1;
    hide LongestCut, Runes, RuneCount, Config.UnitLen, Config.MaxSize;
    if c.tokens.None? {
      end := if first + max < n then first + max else n;
      CutRunes(c, text, offsets, first, end);
    } else {
      end := CutTokens(c, text, offsets, first);
    }
    RunesIs(c, text, offsets, first, end);
    Ascending(offsets, text, first, end);
    Ascending(offsets, text, end, n);
    SliceOfSlice(t, p, offsets[first], offsets[end]);
  }

  lemma SliceOfSlice(t: Text, p: Span, a: nat, b: nat)
    requires In(t, p) && a <= b <= p.end - p.start
    ensures Slice(t, p)[a..b] == Slice(t, Span(p.start + a, p.start + b))
  {
  }

  lemma AllFitAppend(c: Config, t: Text, ws: seq<Span>, more: seq<Span>)
    requires AllFit(c, t, ws) && AllFit(c, t, more)
    ensures AllFit(c, t, ws + more)
  {
  }

  /** Every cut lies between two runes of the text of p. */
  ghost predicate RuneAligned(t: Text, p: Span, ws: seq<Span>)
    requires In(t, p)
  {
    exists offsets | Boundaries(Slice(t, p), offsets) :: AlignedTo(p, ws, offsets)
  }

  predicate AlignedTo(p: Span, ws: seq<Span>, offsets: seq<nat>) {
    forall k | 0 <= k < |ws| :: ws[k].start - p.start in offsets && ws[k].end - p.start in offsets
  }

  lemma AlignedMore(p: Span, out: seq<Span>, offsets: seq<nat>, start: nat, end: nat)
    requires start < |offsets| && end < |offsets| && AlignedTo(p, out, offsets)
    ensures AlignedTo(p, out + [Span(p.start + offsets[start], p.start + offsets[end])], offsets)
  {
  }

  lemma CutStep(c: Config, t: Text, p: Span, offsets: seq<nat>, out: seq<Span>, start: nat, end: nat)
    requires In(t, p) && start < end < |offsets| && offsets[start] < offsets[end] && p.start + offsets[end] <= p.end
    requires Partition(out, p.start, p.start + offsets[start]) && AllFit(c, t, out) && AlignedTo(p, out, offsets)
    requires out == [] ==> offsets[start] == 0
    requires Fits(c, t, Span(p.start + offsets[start], p.start + offsets[end]))
    ensures var out' := out + [Span(p.start + offsets[start], p.start + offsets[end])];
      Partition(out', p.start, p.start + offsets[end]) && AllFit(c, t, out') && AlignedTo(p, out', offsets)
  {
    var w := Span(p.start + offsets[start], p.start + offsets[end]);
    assert AllFit(c, t, [w]) && p.start <= w.start < w.end;
    AlignedMore(p, out, offsets, start, end);
    hide *;
    AllFitAppend(c, t, out, [w]);
    PartitionAppend(out, p.start, w.start, w.end);
  }

  ghost predicate CutAt(c: Config, t: Text, p: Span, ws: seq<Span>, offsets: seq<nat>, marks: seq<nat>, k: nat)
    requires In(t, p) && k < |ws| && |marks| == |ws| + 1
  {
    && LongestCut(c, Slice(t, p), offsets, marks[k], marks[k + 1])
    && ws[k] == Span(p.start + offsets[marks[k]], p.start + offsets[marks[k + 1]])
  }

  /** The cuts so far, at these runes: each as long as it can be. */
  ghost predicate CutsTo(c: Config, t: Text, p: Span, ws: seq<Span>, offsets: seq<nat>, marks: seq<nat>)
    requires In(t, p)
  {
    && Boundaries(Slice(t, p), offsets) && |marks| == |ws| + 1 && marks[0] == 0
    && forall k: nat {:trigger CutAt(c, t, p, ws, offsets, marks, k)} | k < |ws| :: CutAt(c, t, p, ws, offsets, marks, k)
  }

  /** The hard cut of p: each piece is as long as the budget allows. */
  ghost predicate CutsOf(c: Config, t: Text, p: Span, ws: seq<Span>)
    requires In(t, p)
  {
    exists offsets, marks :: CutsTo(c, t, p, ws, offsets, marks) && marks[|ws|] == |offsets| - 1
  }

  lemma CutMore(c: Config, t: Text, p: Span, ws: seq<Span>, offsets: seq<nat>, marks: seq<nat>, y: nat)
    requires In(t, p) && CutsTo(c, t, p, ws, offsets, marks) && LongestCut(c, Slice(t, p), offsets, marks[|ws|], y)
    ensures CutsTo(c, t, p, ws + [Span(p.start + offsets[marks[|ws|]], p.start + offsets[y])], offsets, marks + [y])
  {
    hide LongestCut, Boundaries;
    assert LongestCut(c, Slice(t, p), offsets, marks[|ws|], y) ==> y < |offsets| && marks[|ws|] < |offsets| by {
      LongestWithin(c, Slice(t, p), offsets, marks[|ws|], y);
    }
    var more, marks' := ws + [Span(p.start + offsets[marks[|ws|]], p.start + offsets[y])], marks + [y];
    forall k: nat | k < |more| ensures CutAt(c, t, p, more, offsets, marks', k) {
      if k < |ws| {
        assert CutAt(c, t, p, ws, offsets, marks, k);
      }
    }
  }

  lemma LongestWithin(c: Config, text: Text, offsets: seq<nat>, x: nat, y: nat)
    requires LongestCut(c, text, offsets, x, y)
    ensures x < y < |offsets|
  {
  }

  /** Everything up to rune `start` is cut. */
  ghost predicate CutUpTo(c: Config, t: Text, p: Span, ws: seq<Span>, offsets: seq<nat>, marks: seq<nat>, start: nat)
    requires In(t, p)
  {
    && start < |offsets| && p.start + offsets[start] <= p.end
    && Partition(ws, p.start, p.start + offsets[start]) && AllFit(c, t, ws) && (ws == [] ==> start == 0)
    && AlignedTo(p, ws, offsets) && CutsTo(c, t, p, ws, offsets, marks) && marks[|ws|] == start
  }

  lemma CutNothing(c: Config, t: Text, p: Span, offsets: seq<nat>)
    requires In(t, p) && Boundaries(Slice(t, p), offsets)
    ensures CutUpTo(c, t, p, [], offsets, [0], 0)
  {
  }

  lemma CutOn(c: Config, t: Text, p: Span, ws: seq<Span>, offsets: seq<nat>, marks: seq<nat>, start: nat, end: nat)
    requires In(t, p) && CutUpTo(c, t, p, ws, offsets, marks, start)
    requires start < end < |offsets| && offsets[start] < offsets[end] <= p.end - p.start
    requires Fits(c, t, Span(p.start + offsets[start], p.start + offsets[end])) && LongestCut(c, Slice(t, p), offsets, start, end)
    ensures CutUpTo(c, t, p, ws + [Span(p.start + offsets[start], p.start + offsets[end])], offsets, marks + [end], end)
  {
    hide LongestCut, Boundaries, Partition, AllFit, AlignedTo, CutsTo, Fits, Slice;
    CutZero(c, t, p, ws, offsets, marks, start);
    CutStep(c, t, p, offsets, ws, start, end);
    CutMore(c, t, p, ws, offsets, marks, end);
    LastMark(c, t, p, ws, offsets, marks, end);
  }

  lemma CutZero(c: Config, t: Text, p: Span, ws: seq<Span>, offsets: seq<nat>, marks: seq<nat>, start: nat)
    requires In(t, p) && CutsTo(c, t, p, ws, offsets, marks)
    ensures |marks| == |ws| + 1 && |offsets| > 0 && offsets[0] == 0
  {
  }

  lemma LastMark(c: Config, t: Text, p: Span, ws: seq<Span>, offsets: seq<nat>, marks: seq<nat>, end: nat)
    requires In(t, p) && CutsTo(c, t, p, ws, offsets, marks)
    ensures (marks + [end])[|ws| + 1] == end
  {
  }

  lemma CutAll(c: Config, t: Text, p: Span, ws: seq<Span>, offsets: seq<nat>, marks: seq<nat>)
    requires In(t, p) && Boundaries(Slice(t, p), offsets) && CutUpTo(c, t, p, ws, offsets, marks, |offsets| - 1)
    ensures Partition(ws, p.start, p.end) && AllFit(c, t, ws) && RuneAligned(t, p, ws) && CutsOf(c, t, p, ws)
  {
    assert p.start + offsets[|offsets| - 1] == p.end;
    hide Partition, AllFit, AlignedTo, CutsTo, Boundaries;
  }

  /** Cuts p between runes. */
  method HardCut(c: Config, t: Text, p: Span) returns (out: seq<Span>)
    requires In(t, p)
    ensures Partition(out, p.start, p.end) && AllFit(c, t, out) && RuneAligned(t, p, out)
    ensures CutsOf(c, t, p, out)
  {
    hide CutUpTo, Boundaries, Partition, AllFit, RuneAligned, CutsOf, Slice, LongestCut, Fits;
    out := [];
    ghost var marks := [0];
    var offsets := RuneOffsets(Slice(t, p));
    var start, n := 0, |offsets| - 1;
    CutNothing(c, t, p, offsets);
    while start < n
      invariant start <= n && CutUpTo(c, t, p, out, offsets, marks, start)
    {
      var end := CutEnd(c, t, p, offsets, start);
      CutOn(c, t, p, out, offsets, marks, start, end);
      marks := marks + [end];
      out := out + [Span(p.start + offsets[start], p.start + offsets[end])];
      start := end;
    }
    CutAll(c, t, p, out, offsets, marks);
  }

  /** A word that fits stays whole, any other is cut. */
  ghost predicate WordCut(c: Config, t: Text, w: Span, cut: seq<Span>) {
    In(t, w) && if c.UnitLen(Slice(t, w)) <= c.MaxSize() then cut == [w] else CutsOf(c, t, w, cut)
  }

  /** The spans are the cuts of the words, one word after another. */
  ghost predicate WordsCut(c: Config, t: Text, words: seq<Span>, cuts: seq<seq<Span>>, out: seq<Span>) {
    && |cuts| == |words| && out == Lists.Concat(cuts)
    && forall k: nat {:trigger WordCut(c, t, words[k], cuts[k])} | k < |words| :: WordCut(c, t, words[k], cuts[k])
  }

  ghost predicate Wordless(t: Text, p: Span)
    requires In(t, p)
  {
    forall i | p.start <= i < p.end :: IsSpace(t[i])
  }

  /** What a piece over budget is split into: its words, each cut if need be; without words it is cut itself. */
  ghost predicate SplitOf(c: Config, t: Text, p: Span, out: seq<Span>) {
    && In(t, p)
    && (if Wordless(t, p) then CutsOf(c, t, p, out)
        else exists words, cuts :: words != [] && WordsOf(t, p, words) && WordsCut(c, t, words, cuts, out))
  }

  method CutWord(c: Config, t: Text, w: Span) returns (cut: seq<Span>)
    requires In(t, w) && w.start < w.end
    ensures Partition(cut, w.start, w.end) && AllFit(c, t, cut)
    ensures WordCut(c, t, w, cut)
  {
    if c.UnitLen(Slice(t, w)) <= c.MaxSize() {
      cut := [w];
    } else {
      cut := HardCut(c, t, w);
    }
  }

  /** The words, one by one; a word over budget is cut. */
  method CutWords(c: Config, t: Text, p: Span, words: seq<Span>) returns (out: seq<Span>, ghost cuts: seq<seq<Span>>)
    requires In(t, p) && Ordered(words, p.start, p.end)
    ensures WordsCut(c, t, words, cuts, out)
    ensures Ordered(out, p.start, p.end) && AllFit(c, t, out) && (out == [] <==> words == [])
    ensures forall i | p.start <= i < p.end && Hit(words, i) :: Hit(out, i)
  {
    out, cuts := [], [];
    ghost var done := p.start;
    for k := 0 to |words|
      invariant WordsCut(c, t, words[..k], cuts, out)
      invariant p.start <= done <= p.end && done == (if k == 0 then p.start else words[k - 1].end)
      invariant Ordered(out, p.start, done) && AllFit(c, t, out)
      invariant forall i | p.start <= i < done && Hit(words[..k], i) :: Hit(out, i)
      invariant k == 0 <==> out == []
    {
      var w := words[k];
      var cut := CutWord(c, t, w);
      hide WordsCut, AllFit, Ordered;
      WordsCutMore(c, t, words[..k], cuts, out, w, cut);
      assert words[..k + 1] == words[..k] + [w];
      cuts := cuts + [cut];
      AllFitAppend(c, t, out, cut);
      AppendWord(words, k, out, cut, p.start, done);
      out := out + cut;
      done := w.end;
    }
    assert words[..|words|] == words;
    NotBehind(words, done);
  }

  lemma WordsCutMore(c: Config, t: Text, words: seq<Span>, cuts: seq<seq<Span>>, out: seq<Span>, w: Span, cut: seq<Span>)
    requires WordsCut(c, t, words, cuts, out) && WordCut(c, t, w, cut)
    ensures WordsCut(c, t, words + [w], cuts + [cut], out + cut)
  {
    hide WordCut;
    Lists.ConcatAppend(cuts, cut);
  }

  lemma NotBehind(words: seq<Span>, done: nat)
    requires words != [] ==> done == words[|words| - 1].end && forall k, k' | 0 <= k < k' < |words| :: words[k].end <= words[k'].start < words[k'].end
    ensures forall i: nat | Hit(words, i) :: i < done || words == []
  {
  }

  lemma WordsOrdered(t: Text, p: Span, ws: seq<Span>)
    requires In(t, p) && WordsOf(t, p, ws)
    ensures Ordered(ws, p.start, p.end)
  {
  }

  lemma PartitionCovers(t: Text, p: Span, out: seq<Span>)
    requires In(t, p) && p.start < p.end && Partition(out, p.start, p.end)
    ensures out != [] && Ordered(out, p.start, p.end) && Covers(t, out, p.start, p.end)
  {
    forall i | p.start <= i < p.end ensures Hit(out, i) {
      PartitionHits(out, p.start, p.end, i);
    }
  }

  lemma SplitNoWords(c: Config, t: Text, p: Span, out: seq<Span>)
    requires In(t, p) && WordsOf(t, p, []) && CutsOf(c, t, p, out)
    ensures SplitOf(c, t, p, out)
  {
    WordsHold(t, p, []);
    hide WordsOf, CutsOf;
  }

  lemma SplitWords(c: Config, t: Text, p: Span, words: seq<Span>, cuts: seq<seq<Span>>, out: seq<Span>)
    requires In(t, p) && WordsOf(t, p, words) && words != [] && WordsCut(c, t, words, cuts, out)
    ensures SplitOf(c, t, p, out)
  {
    assert WordAt(t, p, words, 0) && !IsSpace(t[words[0].start]);
    hide WordsOf, WordsCut;
  }

  /** Words of the piece; a word over budget is cut, and so is a piece without words. */
  method SplitOversizedPiece(c: Config, t: Text, p: Span) returns (out: seq<Span>)
    requires In(t, p) && p.start < p.end
    ensures out != [] && Ordered(out, p.start, p.end) && Covers(t, out, p.start, p.end) && AllFit(c, t, out)
    ensures SplitOf(c, t, p, out)
  {
    hide AllFit, Covers, WordsOf, CutsOf, WordsCut, SplitOf, Partition, IsSpace;
    var words := SplitWhitespace(t, p);
    WordsHold(t, p, words);
    WordsOrdered(t, p, words);
    ghost var cuts;
    out, cuts := CutWords(c, t, p, words);
    if |out| == 0 {
      out := HardCut(c, t, p);
      PartitionCovers(t, p, out);
      SplitNoWords(c, t, p, out);
    } else {
      WordsCover(t, words, out, p.start, p.end);
      SplitWords(c, t, p, words, cuts, out);
    }
  }

  lemma AppendWord(words: seq<Span>, k: nat, out: seq<Span>, cut: seq<Span>, lo: nat, done: nat)
    requires k < |words|
    requires lo <= done <= words[k].start < words[k].end && Ordered(out, lo, done)
    requires Partition(cut, words[k].start, words[k].end)
    requires forall i | lo <= i < done && Hit(words[..k], i) :: Hit(out, i)
    requires forall x | 0 <= x < k :: words[x].end <= done
    ensures Ordered(out + cut, lo, words[k].end)
    ensures forall i | lo <= i < words[k].end && Hit(words[..k + 1], i) :: Hit(out + cut, i)
  {
    assert words[..k + 1] == words[..k] + [words[k]];
    forall i | lo <= i < words[k].end && Hit(words[..k + 1], i) ensures Hit(out + cut, i) {
      HitAppend(words[..k], [words[k]], i);
      HitAppend(out, cut, i);
      if words[k].start <= i { PartitionHits(cut, words[k].start, words[k].end, i); }
    }
  }

  lemma WordsCover(t: Text, words: seq<Span>, out: seq<Span>, lo: nat, hi: nat)
    requires hi <= |t| && Ordered(words, lo, hi) && Covers(t, words, lo, hi) && words != []
    requires forall i | lo <= i < words[|words| - 1].end && Hit(words, i) :: Hit(out, i)
    ensures Covers(t, out, lo, hi)
  {
    forall i | lo <= i < hi && !IsUnicodeSpace(t[i]) ensures Hit(out, i) {
      var k :| 0 <= k < |words| && words[k].start <= i < words[k].end;
      assert words[k].end <= words[|words| - 1].end;
    }
  }
}
