/**
 The BM25 tokenizer of rag/bm25.go on lower-cased runes: every maximal word run,
 and after a run the span that joins it to later runs over hyphens and the like.
 */
module Tokenizer {
  import opened RagTypes

  type Rune = int

  predicate Joiner(c: Rune) {
    c == 0x2D || c == 0x5F || c == 0x2E || c == 0x2F
  }

  /** Hyphen, underscore, full stop and slash. */
  lemma Joiners(c: Rune)
    ensures Joiner(c) <==> 0 <= c < 128 && c as char in "-_./"
  {
    assert "-_./"[0] == '-' && "-_./"[1] == '_' && "-_./"[2] == '.' && "-_./"[3] == '/';
  }

  ghost predicate AllWord(r: seq<Rune>, word: Rune -> bool, a: nat, b: nat) {
    a <= b <= |r| && forall i | a <= i < b :: word(r[i])
  }

  /** A non-empty run of word runes that cannot be extended on either side. */
  ghost predicate MaximalRun(r: seq<Rune>, word: Rune -> bool, s: Span) {
    && s.start < s.end && AllWord(r, word, s.start, s.end)
    && (s.start > 0 ==> !word(r[s.start - 1])) && (s.end < |r| ==> !word(r[s.end]))
  }

  /** The maximal runs, in order, that hold every word rune before n. */
  ghost predicate RunsUpTo(r: seq<Rune>, word: Rune -> bool, runs: seq<Span>, n: nat)
    requires n <= |r|
  {
    && (forall k | 0 <= k < |runs| :: MaximalRun(r, word, runs[k]) && runs[k].end <= n)
    && (forall k, m | 0 <= k < m < |runs| :: runs[k].end < runs[m].start)
    && (forall i | 0 <= i < n && word(r[i]) :: exists k :: 0 <= k < |runs| && runs[k].start <= i < runs[k].end)
  }

  /** How far joiners and word runes go on from i. */
  function Reach(r: seq<Rune>, word: Rune -> bool, i: nat): (j: nat)
    requires i <= |r|
    ensures i <= j <= |r|
    ensures forall k | i <= k < j :: Joiner(r[k]) || word(r[k])
    ensures j < |r| ==> !Joiner(r[j]) && !word(r[j])
    decreases |r| - i
  {
    if i < |r| && (Joiner(r[i]) || word(r[i])) then Reach(r, word, i + 1) else i
  }

  /** The joined span after a run ends in a word rune of a later run. */
  function Terms(r: seq<Rune>, word: Rune -> bool, s: Span): seq<Span>
    requires s.end <= |r|
  {
    var j := if s.end < |r| then Reach(r, word, s.end + 1) else s.end;
    if s.end < |r| && Joiner(r[s.end]) && j > s.end + 1 && word(r[j - 1]) then [s, Span(s.start, j)] else [s]
  }

  function AllTerms(r: seq<Rune>, word: Rune -> bool, runs: seq<Span>): seq<Span>
    requires forall k | 0 <= k < |runs| :: runs[k].end <= |r|
  {
    if runs == [] then [] else AllTerms(r, word, runs[..|runs| - 1]) + Terms(r, word, runs[|runs| - 1])
  }

  /**
   tokenize: the terms are those of the maximal word runs, in order, each run
   once as itself and followed by its joined span when it has one.
   */
  method Tokenize(r: seq<Rune>, word: Rune -> bool) returns (out: seq<Span>)
    ensures exists runs :: RunsUpTo(r, word, runs, |r|) && out == AllTerms(r, word, runs)
  {
    out := [];
    ghost var runs := [];
    var i := 0;
    while i < |r|
      invariant i <= |r| && RunsUpTo(r, word, runs, i) && out == AllTerms(r, word, runs)
      invariant i < |r| && word(r[i]) ==> i == 0 || !word(r[i - 1])
      decreases |r| - i
    {
      if !word(r[i]) {
        i := i + 1;
        continue;
      }
      var end := WordEnd(r, word, i);
      AddRun(r, word, runs, i, end);
      hide RunsUpTo, Terms, AllTerms;
      var terms := Emit(r, word, i, end);
      AllTermsMore(r, word, runs, Span(i, end));
      out, runs := out + terms, runs + [Span(i, end)];
      i := end;
    }
  }

  method WordEnd(r: seq<Rune>, word: Rune -> bool, start: nat) returns (end: nat)
    requires start < |r| && word(r[start])
    ensures start < end <= |r| && AllWord(r, word, start, end) && (end < |r| ==> !word(r[end]))
  {
    end := start;
    while end < |r| && word(r[end])
      invariant start <= end <= |r| && AllWord(r, word, start, end)
    {
      end := end + 1;
    }
  }

  /** The run itself, and the look-ahead over joiners. */
  method Emit(r: seq<Rune>, word: Rune -> bool, start: nat, end: nat) returns (out: seq<Span>)
    requires start < end <= |r|
    ensures out == Terms(r, word, Span(start, end))
  {
    out := [Span(start, end)];
    if end < |r| && Joiner(r[end]) {
      var j := end + 1;
      while j < |r| && (Joiner(r[j]) || word(r[j]))
        invariant end + 1 <= j <= |r| && Reach(r, word, end + 1) == Reach(r, word, j)
      {
        j := j + 1;
      }
      if j > end + 1 && word(r[j - 1]) {
        out := out + [Span(start, j)];
      }
    }
  }

  lemma AllTermsMore(r: seq<Rune>, word: Rune -> bool, runs: seq<Span>, s: Span)
    requires s.end <= |r| && forall k | 0 <= k < |runs| :: runs[k].end <= |r|
    ensures AllTerms(r, word, runs + [s]) == AllTerms(r, word, runs) + Terms(r, word, s)
  {
    assert (runs + [s])[..|runs|] == runs;
  }

  lemma AddRun(r: seq<Rune>, word: Rune -> bool, runs: seq<Span>, start: nat, end: nat)
    requires start < end <= |r| && RunsUpTo(r, word, runs, start) && AllWord(r, word, start, end)
    requires (start > 0 ==> !word(r[start - 1])) && (end < |r| ==> !word(r[end]))
    ensures RunsUpTo(r, word, runs + [Span(start, end)], end)
  {
    var next := runs + [Span(start, end)];
    forall k | 0 <= k < |runs| ensures runs[k].end < start {
      assert MaximalRun(r, word, runs[k]);
      assert word(r[runs[k].end - 1]);
    }
    forall i | 0 <= i < end && word(r[i]) ensures exists k :: 0 <= k < |next| && next[k].start <= i < next[k].end {
      if i < start {
        var k :| 0 <= k < |runs| && runs[k].start <= i < runs[k].end;
        assert next[k] == runs[k];
      } else {
        assert next[|runs|] == Span(start, end);
      }
    }
  }

  /** From the joiner at i the joiners and word runes go on up to j, which is the end or something else. */
  ghost predicate Stretch(r: seq<Rune>, word: Rune -> bool, i: nat, j: nat) {
    && i + 1 < j <= |r| && Joiner(r[i])
    && (forall k | i < k < j :: Joiner(r[k]) || word(r[k]))
    && (j < |r| ==> !Joiner(r[j]) && !word(r[j]))
  }

  lemma StretchLongest(r: seq<Rune>, word: Rune -> bool, i: nat, j: nat, e: nat)
    requires Stretch(r, word, i, j) && e <= |r| && forall k | i < k < e :: Joiner(r[k]) || word(r[k])
    ensures e <= j
  {
  }

  /** A run gets a joined term if and only if the stretch behind it ends in a word rune, and then all of that stretch. */
  lemma JoinedExact(r: seq<Rune>, word: Rune -> bool, s: Span)
    requires MaximalRun(r, word, s)
    ensures Terms(r, word, s) == [s] || exists j: nat :: Stretch(r, word, s.end, j) && word(r[j - 1])
    ensures forall j: nat | Stretch(r, word, s.end, j) && word(r[j - 1]) :: Terms(r, word, s) == [s, Span(s.start, j)]
  {
    if s.end < |r| && Joiner(r[s.end]) {
      var e := Reach(r, word, s.end + 1);
      if e > s.end + 1 {
        assert Stretch(r, word, s.end, e);
      }
      forall j: nat | Stretch(r, word, s.end, j) && word(r[j - 1]) ensures e == j {
        StretchLongest(r, word, s.end, j, e);
        StretchLongest(r, word, s.end, e, j);
      }
    }
  }

  lemma {:induction false} TermOfRun(r: seq<Rune>, word: Rune -> bool, runs: seq<Span>, t: Span)
    requires forall k | 0 <= k < |runs| :: runs[k].end <= |r|
    ensures t in AllTerms(r, word, runs) <==> exists k :: 0 <= k < |runs| && t in Terms(r, word, runs[k])
  {
    if runs != [] {
      var n := |runs| - 1;
      assert t in AllTerms(r, word, runs) <==> t in AllTerms(r, word, runs[..n]) || t in Terms(r, word, runs[n]);
      hide AllTerms, Terms;
      TermOfRun(r, word, runs[..n], t);
      if k :| 0 <= k < n && t in Terms(r, word, runs[..n][k]) {
        assert t in Terms(r, word, runs[k]);
      }
      if k :| 0 <= k < |runs| && t in Terms(r, word, runs[k]) {
        assert k == n || t in Terms(r, word, runs[..n][k]);
      }
    }
  }

  /** "gx-1180" */
  const IDENTIFIER: seq<Rune> := [0x67, 0x78, 0x2D, 0x31, 0x31, 0x38, 0x30]

  function Alphanumeric(c: Rune): bool {
    0x61 <= c <= 0x7A || 0x30 <= c <= 0x39
  }

  /**
   "GX-1180" is documented to index also as the whole identifier
   (rag/bm25.go:8-16). At the end of a sentence it does not: the full stop is
   a joiner, the stretch ends in it, and the identifier is no term.
   */
  lemma FullStopHidesIdentifier(runs: seq<Span>, stopped: seq<Span>)
    requires RunsUpTo(IDENTIFIER, Alphanumeric, runs, 7) && RunsUpTo(IDENTIFIER + [0x2E], Alphanumeric, stopped, 8)
    ensures Span(0, 7) in AllTerms(IDENTIFIER, Alphanumeric, runs)
    ensures Span(0, 7) !in AllTerms(IDENTIFIER + [0x2E], Alphanumeric, stopped)
  {
    var r := IDENTIFIER + [0x2E];
    assert r[2] == 0x2D && r[7] == 0x2E;
    IdentifierIndexed(runs);
    hide AllTerms, RunsUpTo;
    StopHides(r, Alphanumeric, stopped, 7);
  }

  /** A span that holds a joiner and stops before one is no term. */
  lemma StopHides(r: seq<Rune>, word: Rune -> bool, runs: seq<Span>, j: nat)
    requires RunsUpTo(r, word, runs, |r|) && j < |r| && Joiner(r[j]) && exists i :: 0 <= i < j && !word(r[i])
    ensures Span(0, j) !in AllTerms(r, word, runs)
  {
    TermOfRun(r, word, runs, Span(0, j));
    forall k | 0 <= k < |runs| ensures Span(0, j) !in Terms(r, word, runs[k]) {
      assert MaximalRun(r, word, runs[k]);
      hide Terms, AllTerms, RunsUpTo;
      JoinedExact(r, word, runs[k]);
    }
  }

  lemma IdentifierIndexed(runs: seq<Span>)
    requires RunsUpTo(IDENTIFIER, Alphanumeric, runs, 7)
    ensures Span(0, 7) in AllTerms(IDENTIFIER, Alphanumeric, runs)
  {
    var r, word := IDENTIFIER, Alphanumeric;
    assert word(r[0]) && !word(r[2]);
    var k :| 0 <= k < |runs| && runs[k].start <= 0 < runs[k].end;
    assert MaximalRun(r, word, runs[k]);
    hide Terms, RunsUpTo;
    assert word(r[1]) && runs[k].end <= 2;
    assert runs[k] == Span(0, 2);
    JoinedExact(r, word, runs[k]);
    assert Stretch(r, word, 2, 7) && word(r[6]);
    TermOfRun(r, word, runs, Span(0, 7));
  }

  /** The runs of a text are unique. */
  lemma RunsUnique(r: seq<Rune>, word: Rune -> bool, a: seq<Span>, b: seq<Span>)
    requires RunsUpTo(r, word, a, |r|) && RunsUpTo(r, word, b, |r|)
    ensures a == b
  {
    if |a| <= |b| {
      SameStart(r, word, a, b, |a|);
      NoneLeft(r, word, a, b);
    } else {
      SameStart(r, word, b, a, |b|);
      NoneLeft(r, word, b, a);
    }
  }

  lemma NoneLeft(r: seq<Rune>, word: Rune -> bool, a: seq<Span>, b: seq<Span>)
    requires |a| <= |b| && b[..|a|] == a && RunsUpTo(r, word, a, |r|) && RunsUpTo(r, word, b, |r|)
    ensures a == b
  {
    if |a| < |b| {
      forall m | 0 <= m < |a| ensures a[m].end < b[|a|].start {
        assert b[..|a|][m] == b[m];
      }
      NoRunBehind(r, word, a, b[|a|]);
    }
  }

  /** There is no run behind all the runs. */
  lemma NoRunBehind(r: seq<Rune>, word: Rune -> bool, runs: seq<Span>, s: Span)
    requires RunsUpTo(r, word, runs, |r|) && MaximalRun(r, word, s)
    ensures exists m :: 0 <= m < |runs| && runs[m].start <= s.start < runs[m].end
  {
    assert word(r[s.start]);
  }

  lemma {:induction false} SameStart(r: seq<Rune>, word: Rune -> bool, a: seq<Span>, b: seq<Span>, n: nat)
    requires n <= |a| && n <= |b| && RunsUpTo(r, word, a, |r|) && RunsUpTo(r, word, b, |r|)
    ensures a[..n] == b[..n]
  {
    if n > 0 {
      SameStart(r, word, a, b, n - 1);
      NotBefore(r, word, a, b, n - 1);
      NotBefore(r, word, b, a, n - 1);
      assert a[..n] == a[..n - 1] + [a[n - 1]] && b[..n] == b[..n - 1] + [b[n - 1]];
    }
  }

  lemma NotBefore(r: seq<Rune>, word: Rune -> bool, a: seq<Span>, b: seq<Span>, n: nat)
    requires n < |a| && n < |b| && a[..n] == b[..n] && RunsUpTo(r, word, a, |r|) && RunsUpTo(r, word, b, |r|)
    ensures b[n].start <= a[n].start
  {
    var i := a[n].start;
    assert MaximalRun(r, word, a[n]) && word(r[i]);
    forall k | 0 <= k < n ensures b[k].end < i {
      assert a[..n][k] == a[k] && b[..n][k] == b[k];
    }
    var k :| 0 <= k < |b| && b[k].start <= i < b[k].end;
    assert k >= n;
    if k > n {
      assert MaximalRun(r, word, b[n]) && b[n].end < b[k].start;
    }
  }
}
