/**
 Scoring in rag/bm25.go over exact reals: the accumulating loops of `scores`
 against the BM25 sum read directly off the corpus. `ln` is any function that
 is positive above one.
 */
module Bm25Scores {
  import opened Bm25
  import opened Bm25Index

  datatype Mode = Any | All

  const K1 := 1.2
  const B := 0.75

  // The formula

  ghost predicate Logarithm(ln: real -> real) {
    forall x: real :: x > 1.0 ==> ln(x) > 0.0
  }

  function Idf(ln: real -> real, n: int, df: int): real
    requires df >= 0
  {
    ln(1.0 + (n as real - df as real + 0.5) / (df as real + 0.5))
  }

  function Denominator(f: nat, dl: nat, avgdl: real): (r: real)
    requires avgdl > 0.0
    ensures r > 0.0
  {
    assert dl as real / avgdl >= 0.0;
    f as real + K1 * (1.0 - B + B * (dl as real / avgdl))
  }

  function TermScore(ln: real -> real, n: int, df: int, f: nat, dl: nat, avgdl: real): real
    requires df >= 0 && avgdl > 0.0
  {
    Idf(ln, n, df) * (f as real * (K1 + 1.0)) / Denominator(f, dl, avgdl)
  }

  lemma TermScorePositive(ln: real -> real, n: int, df: int, f: nat, dl: nat, avgdl: real)
    requires Logarithm(ln) && 0 <= df <= n && f > 0 && avgdl > 0.0
    ensures TermScore(ln, n, df, f, dl, avgdl) > 0.0
  {
    QuotientPositive(Idf(ln, n, df) * (f as real * (K1 + 1.0)), Denominator(f, dl, avgdl));
  }

  lemma QuotientPositive(x: real, y: real)
    requires x > 0.0 && y > 0.0
    ensures x / y > 0.0
  {
  }

  // The specification: BM25 over a corpus

  ghost function AverageLength(c: Corpus): real
    requires c != map[]
  {
    TotalLength(c) as real / |c| as real
  }

  lemma AverageLengthPositive(c: Corpus, k: Key)
    requires k in c && c[k] != []
    ensures AverageLength(c) > 0.0
  {
    TotalLengthWithout(c, k);
    QuotientPositive(TotalLength(c) as real, |c| as real);
  }

  ghost function Direct(c: Corpus, ln: real -> real, t: Term, k: Key): real
    requires k in c && t in c[k]
  {
    AverageLengthPositive(c, k);
    TermScore(ln, |c|, |Posting(c, t)|, multiset(c[k])[t], |c[k]|, AverageLength(c))
  }

  /** The BM25 score of a chunk: the sum over the query terms it contains. */
  ghost function Score(c: Corpus, ln: real -> real, terms: seq<Term>, k: Key): real
    requires k in c
  {
    if terms == [] then 0.0
    else
      var t := terms[|terms| - 1];
      Score(c, ln, terms[..|terms| - 1], k) + if t in c[k] then Direct(c, ln, t, k) else 0.0
  }

  ghost function Matched(c: Corpus, terms: seq<Term>, k: Key): nat
    requires k in c
  {
    if terms == [] then 0
    else Matched(c, terms[..|terms| - 1], k) + if terms[|terms| - 1] in c[k] then 1 else 0
  }

  lemma {:induction false} MatchedCounts(c: Corpus, terms: seq<Term>, k: Key)
    requires k in c
    ensures Matched(c, terms, k) <= |terms|
    ensures Matched(c, terms, k) == 0 <==> forall t | t in terms :: t !in c[k]
    ensures Matched(c, terms, k) == |terms| <==> forall t | t in terms :: t in c[k]
  {
    if terms != [] {
      var rest := terms[..|terms| - 1];
      MatchedCounts(c, rest, k);
      assert terms == rest + [terms[|terms| - 1]];
      assert forall t :: t in terms <==> t in rest || t == terms[|terms| - 1];
    }
  }

  lemma {:induction false} ScoreSign(c: Corpus, ln: real -> real, terms: seq<Term>, k: Key)
    requires k in c && Logarithm(ln)
    ensures if Matched(c, terms, k) == 0 then Score(c, ln, terms, k) == 0.0 else Score(c, ln, terms, k) > 0.0
  {
    if terms != [] {
      var t := terms[|terms| - 1];
      ScoreSign(c, ln, terms[..|terms| - 1], k);
      if t in c[k] {
        AverageLengthPositive(c, k);
        SubsetSize(Posting(c, t).Keys, c.Keys);
        TermScorePositive(ln, |c|, |Posting(c, t)|, multiset(c[k])[t], |c[k]|, AverageLength(c));
      }
    }
  }

  lemma {:induction false} ScoreSplit(c: Corpus, ln: real -> real, a: seq<Term>, b: seq<Term>, k: Key)
    requires k in c
    ensures Score(c, ln, a + b, k) == Score(c, ln, a, k) + Score(c, ln, b, k)
  {
    if b == [] {
      assert a + b == a;
    } else {
      assert (a + b)[..|a + b| - 1] == a + b[..|b| - 1];
      ScoreSplit(c, ln, a, b[..|b| - 1], k);
    }
  }

  lemma TakeOut(b: seq<Term>, i: nat)
    requires i < |b|
    ensures multiset(b[..i] + b[i + 1..]) == multiset(b) - multiset{b[i]}
  {
    assert b == b[..i] + [b[i]] + b[i + 1..];
  }

  lemma ScoreTakeOut(c: Corpus, ln: real -> real, b: seq<Term>, i: nat, k: Key)
    requires k in c && i < |b|
    ensures Score(c, ln, b, k) == Score(c, ln, b[..i] + b[i + 1..], k) + Score(c, ln, [b[i]], k)
  {
    assert b == b[..i] + ([b[i]] + b[i + 1..]);
    ScoreSplit(c, ln, b[..i], [b[i]] + b[i + 1..], k);
    ScoreSplit(c, ln, [b[i]], b[i + 1..], k);
    ScoreSplit(c, ln, b[..i], b[i + 1..], k);
  }

  /** The order in which the query names its terms does not matter. */
  lemma {:induction false} ScoreOrder(c: Corpus, ln: real -> real, a: seq<Term>, b: seq<Term>, k: Key)
    requires k in c && multiset(a) == multiset(b)
    ensures Score(c, ln, a, k) == Score(c, ln, b, k)
    decreases |a|
  {
    if a == [] {
      assert |multiset(b)| == 0;
    } else {
      var last := |a| - 1;
      assert a[last] in multiset(b);
      var i :| 0 <= i < |b| && b[i] == a[last];
      TakeOut(a, last);
      TakeOut(b, i);
      ScoreOrder(c, ln, a[..last] + a[last + 1..], b[..i] + b[i + 1..], k);
      ScoreTakeOut(c, ln, a, last, k);
      ScoreTakeOut(c, ln, b, i, k);
    }
  }

  /** The query's terms without repeats, in the order they first appear. */
  function Distinct(terms: seq<Term>): (r: seq<Term>)
    ensures forall t :: t in r <==> t in terms
    ensures forall i, j | 0 <= i < j < |r| :: r[i] != r[j]
  {
    if terms == [] then []
    else
      var rest := Distinct(terms[..|terms| - 1]);
      assert terms == terms[..|terms| - 1] + [terms[|terms| - 1]];
      if terms[|terms| - 1] in rest then rest else rest + [terms[|terms| - 1]]
  }

  // The loops of scores

  method QueryTerms(tokens: seq<Term>, stopwords: set<Term>) returns (terms: seq<Term>)
    ensures terms == Distinct(Kept(tokens, stopwords))
  {
    terms := [];
    var seen: set<Term> := {};
    for i := 0 to |tokens|
      invariant terms == Distinct(Kept(tokens[..i], stopwords))
      invariant forall t :: t in seen <==> t in terms
    {
      assert tokens[..i + 1][..i] == tokens[..i];
      if tokens[i] !in stopwords && tokens[i] !in seen {
        seen := seen + {tokens[i]};
        terms := terms + [tokens[i]];
      }
      ghost var kept := Kept(tokens[..i], stopwords);
      assert (kept + [tokens[i]])[..|kept|] == kept;
    }
    assert tokens[..|tokens|] == tokens;
  }

  /** What the two maps hold for one chunk once `terms` have been scored. */
  ghost predicate At(c: Corpus, ln: real -> real, terms: seq<Term>, out: map<Key, real>, matched: map<Key, nat>, k: Key) {
    && (k in out <==> k in c && Matched(c, terms, k) > 0)
    && (k in matched <==> k in out)
    && (k in out ==> out[k] == Score(c, ln, terms, k) && matched[k] == Matched(c, terms, k))
  }

  ghost predicate AllAt(c: Corpus, ln: real -> real, terms: seq<Term>, out: map<Key, real>, matched: map<Key, nat>) {
    forall k {:trigger At(c, ln, terms, out, matched, k)} :: At(c, ln, terms, out, matched, k)
  }

  lemma SkipTerm(c: Corpus, ln: real -> real, terms: seq<Term>, t: Term, out: map<Key, real>, matched: map<Key, nat>, k: Key)
    requires At(c, ln, terms, out, matched, k) && (k in c ==> t !in c[k])
    ensures At(c, ln, terms + [t], out, matched, k)
  {
    assert (terms + [t])[..|terms|] == terms;
  }

  lemma CountTerm(c: Corpus, ln: real -> real, terms: seq<Term>, t: Term,
                  out: map<Key, real>, matched: map<Key, nat>, k: Key, out': map<Key, real>, matched': map<Key, nat>)
    requires k in c && t in c[k] && Logarithm(ln) && At(c, ln, terms, out, matched, k)
    requires k in out' && out'[k] == (if k in out then out[k] else 0.0) + Direct(c, ln, t, k)
    requires k in matched' && matched'[k] == (if k in matched then matched[k] else 0) + 1
    ensures At(c, ln, terms + [t], out', matched', k)
  {
    assert (terms + [t])[..|terms|] == terms;
    ScoreSign(c, ln, terms, k);
  }

  lemma SameAt(c: Corpus, ln: real -> real, terms: seq<Term>, out: map<Key, real>, matched: map<Key, nat>, k: Key,
               out': map<Key, real>, matched': map<Key, nat>)
    requires At(c, ln, terms, out, matched, k)
    requires (k in out <==> k in out') && (k in out ==> out[k] == out'[k])
    requires (k in matched <==> k in matched') && (k in matched ==> matched[k] == matched'[k])
    ensures At(c, ln, terms, out', matched', k)
  {
  }

  /** The inner loop: one query term over the chunks that contain it. */
  method AddTermScores(b: Index, ghost c: Corpus, ln: real -> real, ghost terms: seq<Term>, term: Term,
                       out0: map<Key, real>, matched0: map<Key, nat>)
    returns (out: map<Key, real>, matched: map<Key, nat>)
    requires Describes(b.State(), c) && Logarithm(ln) && c != map[] && b.length != map[]
    requires term in b.postings && AllAt(c, ln, terms, out0, matched0)
    ensures AllAt(c, ln, terms + [term], out, matched)
  {
    out, matched := out0, matched0;
    DfBounds(b.State(), c, term);
    LengthKeys(b.State(), c);
    assert DescribesTerm(b.State(), c, term);
    var avgdl := b.totalLength as real / |b.length| as real;
    var chunks := b.postings[term];
    var df := b.df[term];
    var todo := chunks.Keys;
    while todo != {}
      invariant todo <= chunks.Keys
      invariant forall k {:trigger At(c, ln, terms, out, matched, k)} ::
                  k in todo || k !in chunks ==> At(c, ln, terms, out, matched, k)
      invariant forall k {:trigger At(c, ln, terms + [term], out, matched, k)} ::
                  k in chunks && k !in todo ==> At(c, ln, terms + [term], out, matched, k)
      decreases |todo|
    {
      var key :| key in todo;
      ghost var out', matched' := out, matched;
      assert At(c, ln, terms, out, matched, key);
      assert DescribesLength(b.State(), c, key);
      AverageLengthPositive(c, key);
      var s := TermScore(ln, |b.length|, df, chunks[key], b.length[key], avgdl);
      assert s == Direct(c, ln, term, key);
      out := out[key := (if key in out then out[key] else 0.0) + s];
      var m: nat := if key in matched then matched[key] else 0;
      matched := matched[key := m + 1];
      CountTerm(c, ln, terms, term, out', matched', key, out, matched);
      todo := todo - {key};
      forall k | k in todo || k !in chunks ensures At(c, ln, terms, out, matched, k) {
        SameAt(c, ln, terms, out', matched', k, out, matched);
      }
      forall k | k in chunks && k !in todo && k != key ensures At(c, ln, terms + [term], out, matched, k) {
        SameAt(c, ln, terms + [term], out', matched', k, out, matched);
      }
    }
    forall k ensures At(c, ln, terms + [term], out, matched, k) {
      if k !in chunks {
        SkipTerm(c, ln, terms, term, out, matched, k);
      }
    }
  }

  /** The keys the mode keeps. */
  ghost predicate Wanted(c: Corpus, terms: seq<Term>, mode: Mode, k: Key) {
    && k in c && terms != []
    && match mode
       case Any => exists t :: t in terms && t in c[k]
       case All => forall t | t in terms :: t in c[k]
  }

  /** What `scores` returns for one chunk. */
  ghost predicate Result(c: Corpus, ln: real -> real, terms: seq<Term>, mode: Mode, out: map<Key, real>, k: Key) {
    && (k in out <==> Wanted(c, terms, mode, k))
    && (k in out ==> out[k] == Score(c, ln, terms, k) && out[k] > 0.0)
  }

  lemma AnyResult(c: Corpus, ln: real -> real, terms: seq<Term>, out: map<Key, real>, matched: map<Key, nat>, k: Key)
    requires At(c, ln, terms, out, matched, k) && Logarithm(ln)
    ensures Result(c, ln, terms, Any, out, k)
  {
    if k in c {
      MatchedCounts(c, terms, k);
      ScoreSign(c, ln, terms, k);
    }
  }

  lemma AllResult(c: Corpus, ln: real -> real, terms: seq<Term>, out: map<Key, real>, matched: map<Key, nat>, k: Key, out': map<Key, real>)
    requires At(c, ln, terms, out, matched, k) && Logarithm(ln) && terms != []
    requires k in out' <==> k in out && matched[k] == |terms|
    requires k in out' ==> out'[k] == out[k]
    ensures Result(c, ln, terms, All, out', k)
  {
    if k in c {
      MatchedCounts(c, terms, k);
      ScoreSign(c, ln, terms, k);
    }
  }

  /** The outer loop: every query term in turn. */
  method AccumulateTerms(b: Index, ghost c: Corpus, ln: real -> real, terms: seq<Term>)
    returns (out: map<Key, real>, matched: map<Key, nat>)
    requires Describes(b.State(), c) && Logarithm(ln) && c != map[] && b.length != map[]
    ensures AllAt(c, ln, terms, out, matched)
  {
    out, matched := map[], map[];
    for i := 0 to |terms|
      invariant AllAt(c, ln, terms[..i], out, matched)
    {
      assert terms[..i + 1] == terms[..i] + [terms[i]];
      if terms[i] in b.postings {
        out, matched := AddTermScores(b, c, ln, terms[..i], terms[i], out, matched);
      } else {
        assert DescribesTerm(b.State(), c, terms[i]);
        ghost var next := terms[..i + 1];
        forall k ensures At(c, ln, next, out, matched, k) {
          assert At(c, ln, terms[..i], out, matched, k);
          assert k !in Posting(c, terms[i]);
          SkipTerm(c, ln, terms[..i], terms[i], out, matched, k);
        }
      }
    }
    assert terms[..|terms|] == terms;
  }

  /** The final loop for mode All: drop what did not match every term. */
  method KeepFullMatches(n: nat, out0: map<Key, real>, matched: map<Key, nat>) returns (out: map<Key, real>)
    requires out0.Keys == matched.Keys
    ensures forall k :: k in out <==> k in out0 && matched[k] >= n
    ensures forall k | k in out :: out[k] == out0[k]
  {
    out := out0;
    var todo := matched.Keys;
    while todo != {}
      invariant todo <= matched.Keys
      invariant forall k :: k in out <==> k in out0 && (k in todo || matched[k] >= n)
      invariant forall k | k in out :: out[k] == out0[k]
      decreases |todo|
    {
      var key :| key in todo;
      if matched[key] < n {
        out := out - {key};
      }
      todo := todo - {key};
    }
  }

  /**
   `scores` returns exactly the chunks that contain some (Any) or every (All)
   distinct query term that is no stopword, each with its BM25 sum.
   */
  method Scores(b: Index, ghost c: Corpus, ln: real -> real, query: seq<Term>, mode: Mode) returns (out: map<Key, real>)
    requires Describes(b.State(), c) && Logarithm(ln)
    ensures forall k {:trigger Result(c, ln, Distinct(Kept(query, b.stopwords)), mode, out, k)} ::
              Result(c, ln, Distinct(Kept(query, b.stopwords)), mode, out, k)
  {
    var terms := QueryTerms(query, b.stopwords);
    LengthKeys(b.State(), c);
    if |terms| == 0 || |b.length| == 0 {
      out := map[];
      return;
    }
    assert c != map[] && b.length != map[];
    var sums, matched := AccumulateTerms(b, c, ln, terms);
    forall k ensures k in sums <==> k in matched {
      assert At(c, ln, terms, sums, matched, k);
    }
    assert sums.Keys == matched.Keys;
    out := sums;
    if mode == All {
      out := KeepFullMatches(|terms|, sums, matched);
    }
    forall k ensures Result(c, ln, terms, mode, out, k) {
      assert At(c, ln, terms, sums, matched, k);
      if k in c {
        MatchedCounts(c, terms, k);
      }
      if mode == All {
        AllResult(c, ln, terms, sums, matched, k, out);
      } else {
        AnyResult(c, ln, terms, out, matched, k);
      }
    }
  }
}
