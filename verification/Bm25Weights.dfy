/**
 What a query term contributes to a score in rag/bm25.go, as a formula over
 counts of the corpus, and how it moves with each of them.
 */
module Bm25Weights {
  import opened Bm25
  import opened Bm25Scores

  /** How often the chunk has the term. */
  ghost function Often(c: Corpus, t: Term, k: Key): nat
    requires k in c
  {
    multiset(c[k])[t]
  }

  /** The chunks that have the term. */
  ghost function Holders(c: Corpus, t: Term): set<Key> {
    set k | k in c && t in c[k]
  }

  lemma HoldersCount(c: Corpus, t: Term)
    ensures |Holders(c, t)| == |Posting(c, t)|
  {
    assert Holders(c, t) == Posting(c, t).Keys;
  }

  lemma TotalPositive(c: Corpus, k: Key)
    requires k in c && c[k] != []
    ensures TotalLength(c) > 0 && |c| > 0
  {
    TotalLengthWithout(c, k);
  }

  // The formula

  lemma IdfSpelled(ln: real -> real, n: nat, df: nat)
    ensures Idf(ln, n, df) == ln((n as real + 1.0) / (df as real + 0.5))
  {
    var d := df as real + 0.5;
    assert n as real - df as real + 0.5 == n as real + 1.0 - d;
    var q := (n as real + 1.0) / d;
    assert q * d == n as real + 1.0;
    Quotient(n as real + 1.0 - d, d, q - 1.0);
  }

  lemma CancelTen(a: real, b: real)
    requires b != 0.0
    ensures a / b == (10.0 * a) / (10.0 * b)
  {
    var q := a / b;
    assert q * b == a;
    assert q * (10.0 * b) == 10.0 * a;
  }

  lemma Quotient(a: real, b: real, q: real)
    requires b != 0.0 && q * b == a
    ensures a / b == q
  {
  }

  lemma MulDiv(w: real, a: real, b: real)
    requires b != 0.0
    ensures w * a / b == w * (a / b)
  {
    Quotient(w * a, b, w * (a / b));
  }

  lemma TermSpelled(ln: real -> real, n: nat, df: nat, f: nat, dl: nat, avgdl: real)
    requires avgdl > 0.0
    ensures 10.0 * f as real + 3.0 + 9.0 * (dl as real / avgdl) > 0.0
    ensures TermScore(ln, n, df, f, dl, avgdl) ==
            ln((n as real + 1.0) / (df as real + 0.5)) * (22.0 * f as real / (10.0 * f as real + 3.0 + 9.0 * (dl as real / avgdl)))
  {
    IdfSpelled(ln, n, df);
    var idf, d := Idf(ln, n, df), Denominator(f, dl, avgdl);
    MulDiv(idf, f as real * (K1 + 1.0), d);
    CancelTen(f as real * (K1 + 1.0), d);
    var r := dl as real / avgdl;
    assert r >= 0.0;
    assert 10.0 * d == 10.0 * f as real + 3.0 + 9.0 * r;
  }

  /**
   One matched term adds ln((N + 1) / (df + 1/2)) times 22 f / (10 f + 3 + 9 dl / avgdl),
   for N chunks with an average of avgdl terms, df of them with the term, and f
   occurrences among the dl terms of this one.
   */
  lemma ContributionSpelled(c: Corpus, ln: real -> real, t: Term, k: Key)
    requires k in c && t in c[k]
    ensures TotalLength(c) > 0 && |c| > 0
    ensures var n, df, f, dl := |c| as real, |Holders(c, t)| as real, Often(c, t, k) as real, |c[k]| as real;
            var avgdl := TotalLength(c) as real / n;
            && avgdl > 0.0 && 10.0 * f + 3.0 + 9.0 * (dl / avgdl) > 0.0
            && Direct(c, ln, t, k) == ln((n + 1.0) / (df + 0.5)) * (22.0 * f / (10.0 * f + 3.0 + 9.0 * (dl / avgdl)))
  {
    hide TermScore, Idf, Denominator, TotalLength, Posting, Holders;
    TotalPositive(c, k);
    HoldersCount(c, t);
    AverageLengthPositive(c, k);
    TermSpelled(ln, |c|, |Posting(c, t)|, Often(c, t, k), |c[k]|, AverageLength(c));
  }

  // How it moves

  ghost predicate Rising(ln: real -> real) {
    forall x: real, y: real :: 0.0 < x < y ==> ln(x) < ln(y)
  }

  /** a / b < a' / b' by cross multiplication. */
  lemma LessByCross(a: real, b: real, a': real, b': real)
    requires b > 0.0 && b' > 0.0 && a * b' < a' * b
    ensures a / b < a' / b'
  {
    var q, q' := a / b, a' / b';
    assert q * b == a && q' * b' == a';
    assert q * b * b' == q * (b * b') && q' * b' * b == q' * (b * b');
    if q >= q' {
      MulLe(q', q, b * b');
    }
  }

  lemma MulLe(x: real, y: real, z: real)
    requires x <= y && z >= 0.0
    ensures x * z <= y * z
  {
  }

  lemma MulLess(x: real, y: real, z: real)
    requires x < y && z > 0.0
    ensures z * x < z * y
  {
  }

  /** The share of one term's occurrences, before its rarity. */
  function Share(f: nat, r: real): real
    requires r >= 0.0
  {
    22.0 * f as real / (10.0 * f as real + 3.0 + 9.0 * r)
  }

  lemma ShareRises(f: nat, f': nat, r: real)
    requires f < f' && r >= 0.0
    ensures Share(f, r) < Share(f', r)
  {
    var x, y, m := f as real, f' as real, 3.0 + 9.0 * r;
    assert 22.0 * x * (10.0 * y + m) < 22.0 * y * (10.0 * x + m) by {
      MulLess(x, y, 22.0 * m);
      assert 22.0 * x * (10.0 * y + m) == 220.0 * (x * y) + 22.0 * m * x;
      assert 22.0 * y * (10.0 * x + m) == 220.0 * (x * y) + 22.0 * m * y;
    }
    LessByCross(22.0 * x, 10.0 * x + m, 22.0 * y, 10.0 * y + m);
  }

  lemma ShareFalls(f: nat, r: real, r': real)
    requires f > 0 && 0.0 <= r < r'
    ensures Share(f, r') < Share(f, r)
  {
    var x := 22.0 * f as real;
    var b, b' := 10.0 * f as real + 3.0 + 9.0 * r, 10.0 * f as real + 3.0 + 9.0 * r';
    MulLess(b, b', x);
    LessByCross(x, b', x, b);
  }

  lemma SharePositive(f: nat, r: real)
    requires f > 0 && r >= 0.0
    ensures Share(f, r) > 0.0
  {
    QuotientPositive(22.0 * f as real, 10.0 * f as real + 3.0 + 9.0 * r);
  }

  lemma RatioOrder(x: nat, y: nat, avgdl: real)
    requires avgdl > 0.0
    ensures 0.0 <= x as real / avgdl && (x < y ==> x as real / avgdl < y as real / avgdl)
  {
    if x < y {
      MulLess(x as real, y as real, avgdl);
      LessByCross(x as real, avgdl, y as real, avgdl);
    }
  }

  ghost function Weight(c: Corpus, ln: real -> real, t: Term): real {
    ln((|c| as real + 1.0) / (|Holders(c, t)| as real + 0.5))
  }

  lemma WeightPositive(c: Corpus, ln: real -> real, t: Term)
    requires Logarithm(ln)
    ensures Weight(c, ln, t) > 0.0
  {
    SubsetSize(Holders(c, t), c.Keys);
    var n, d := |c| as real + 1.0, |Holders(c, t)| as real + 0.5;
    LessByCross(1.0, 1.0, n, d);
  }

  /** More occurrences in a chunk of the same length score higher. */
  lemma OftenRaises(c: Corpus, ln: real -> real, t: Term, k: Key, k': Key)
    requires Logarithm(ln) && k in c && k' in c && t in c[k] && t in c[k']
    requires |c[k]| == |c[k']| && Often(c, t, k) < Often(c, t, k')
    ensures Direct(c, ln, t, k) < Direct(c, ln, t, k')
  {
    ContributionSpelled(c, ln, t, k);
    ContributionSpelled(c, ln, t, k');
    WeightPositive(c, ln, t);
    var avgdl := TotalLength(c) as real / |c| as real;
    RatioOrder(|c[k]|, |c[k]|, avgdl);
    var r := |c[k]| as real / avgdl;
    ShareRises(Often(c, t, k), Often(c, t, k'), r);
    MulLess(Share(Often(c, t, k), r), Share(Often(c, t, k'), r), Weight(c, ln, t));
  }

  /** As many occurrences in a longer chunk score lower. */
  lemma LengthLowers(c: Corpus, ln: real -> real, t: Term, k: Key, k': Key)
    requires Logarithm(ln) && k in c && k' in c && t in c[k] && t in c[k']
    requires |c[k]| < |c[k']| && Often(c, t, k) == Often(c, t, k')
    ensures Direct(c, ln, t, k') < Direct(c, ln, t, k)
  {
    ContributionSpelled(c, ln, t, k);
    ContributionSpelled(c, ln, t, k');
    WeightPositive(c, ln, t);
    var avgdl := TotalLength(c) as real / |c| as real;
    RatioOrder(|c[k]|, |c[k']|, avgdl);
    var f, r, r' := Often(c, t, k), |c[k]| as real / avgdl, |c[k']| as real / avgdl;
    ShareFalls(f, r, r');
    MulLess(Share(f, r'), Share(f, r), Weight(c, ln, t));
  }

  /** The rarer of two terms scores higher, with as many occurrences in a chunk of the same length. */
  lemma RareRaises(c: Corpus, ln: real -> real, t: Term, u: Term, k: Key, k': Key)
    requires Rising(ln) && k in c && k' in c && t in c[k] && u in c[k']
    requires |c[k]| == |c[k']| && Often(c, t, k) == Often(c, u, k') && |Holders(c, t)| < |Holders(c, u)|
    ensures Direct(c, ln, u, k') < Direct(c, ln, t, k)
  {
    ContributionSpelled(c, ln, t, k);
    ContributionSpelled(c, ln, u, k');
    var avgdl := TotalLength(c) as real / |c| as real;
    RatioOrder(|c[k]|, |c[k]|, avgdl);
    var f, r := Often(c, t, k), |c[k]| as real / avgdl;
    SharePositive(f, r);
    var n, d, d' := |c| as real + 1.0, |Holders(c, t)| as real + 0.5, |Holders(c, u)| as real + 0.5;
    MulLess(d, d', n);
    LessByCross(n, d', n, d);
    QuotientPositive(n, d');
    MulLess(Weight(c, ln, u), Weight(c, ln, t), Share(f, r));
  }
}
