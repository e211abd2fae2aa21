/**
 The statistics of the inverted index in rag/bm25.go. `Stats` is the index's
 state and `Describes` says that it is the state a corpus should have; `Adds`
 and `Removes` say what one call does to any state, right or wrong.
 */
module Bm25 {
  datatype Key = Key(text: string)
  datatype Term = Term(text: string)

  /** The indexed chunks: for each key its terms in order, stopwords removed. */
  type Corpus = map<Key, seq<Term>>

  datatype Stats = Stats(
    postings: map<Term, map<Key, nat>>,
    df: map<Term, int>,
    length: map<Key, nat>,
    total: int)

  const EMPTY := Stats(map[], map[], map[], 0)

  function PostingIn(s: Stats, t: Term): map<Key, nat> {
    if t in s.postings then s.postings[t] else map[]
  }

  function DfIn(s: Stats, t: Term): int {
    if t in s.df then s.df[t] else 0
  }

  // The statistics of a corpus

  /** The chunks that contain the term, with its frequency in each. */
  ghost function Posting(c: Corpus, t: Term): map<Key, nat> {
    map k | k in c && t in c[k] :: multiset(c[k])[t]
  }

  ghost function TotalLength(c: Corpus): nat {
    if c == map[] then 0
    else
      var k :| k in c;
      |c[k]| + TotalLength(c - {k})
  }

  ghost predicate DescribesTerm(s: Stats, c: Corpus, t: Term) {
    && PostingIn(s, t) == Posting(c, t)
    && DfIn(s, t) == |Posting(c, t)|
    && (t in s.postings <==> Posting(c, t) != map[])
    && (t in s.df <==> t in s.postings)
  }

  ghost predicate DescribesLength(s: Stats, c: Corpus, k: Key) {
    && (k in s.length <==> k in c)
    && (k in c ==> s.length[k] == |c[k]|)
  }

  ghost predicate Describes(s: Stats, c: Corpus) {
    && (forall t {:trigger DescribesTerm(s, c, t)} :: DescribesTerm(s, c, t))
    && (forall k {:trigger DescribesLength(s, c, k)} :: DescribesLength(s, c, k))
    && s.total == TotalLength(c)
  }

  /** A corpus has one state: two indexes over it agree in every statistic. */
  lemma DescribesUnique(s: Stats, s': Stats, c: Corpus)
    requires Describes(s, c) && Describes(s', c)
    ensures s == s'
  {
    forall t ensures t in s.postings <==> t in s'.postings
      ensures t in s.postings ==> s.postings[t] == s'.postings[t]
      ensures t in s.df <==> t in s'.df
      ensures t in s.df ==> s.df[t] == s'.df[t]
    {
      assert DescribesTerm(s, c, t) && DescribesTerm(s', c, t);
    }
    forall k ensures k in s.length <==> k in s'.length
      ensures k in s.length ==> s.length[k] == s'.length[k]
    {
      assert DescribesLength(s, c, k) && DescribesLength(s', c, k);
    }
    assert s.postings == s'.postings;
    assert s.df == s'.df;
    assert s.length == s'.length;
  }

  lemma {:induction false} TotalLengthWithout(c: Corpus, k: Key)
    requires k in c
    ensures TotalLength(c) == |c[k]| + TotalLength(c - {k})
    decreases |c|
  {
    var p :| p in c && TotalLength(c) == |c[p]| + TotalLength(c - {p});
    if p != k {
      TotalLengthWithout(c - {p}, k);
      TotalLengthWithout(c - {k}, p);
      assert c - {p} - {k} == c - {k} - {p};
    }
  }

  lemma SubsetSize<T>(a: set<T>, b: set<T>)
    requires a <= b
    ensures |a| <= |b|
  {
    assert b == a + (b - a);
  }

  lemma LengthKeys(s: Stats, c: Corpus)
    requires Describes(s, c)
    ensures s.length.Keys == c.Keys && |s.length| == |c|
  {
    forall k ensures k in s.length <==> k in c {
      assert DescribesLength(s, c, k);
    }
    assert s.length.Keys == c.Keys;
  }

  /** A listed term occurs somewhere, and in no more chunks than there are. */
  lemma DfBounds(s: Stats, c: Corpus, t: Term)
    requires Describes(s, c) && t in s.postings
    ensures t in s.df && 0 < s.df[t] == |s.postings[t]| <= |s.length|
    ensures forall k | k in s.postings[t] :: k in s.length && 0 < s.postings[t][k] <= s.length[k]
  {
    assert DescribesTerm(s, c, t);
    LengthKeys(s, c);
    assert s.postings[t].Keys <= c.Keys;
    SubsetSize(s.postings[t].Keys, c.Keys);
    assert |s.postings[t].Keys| == |s.postings[t]| && s.postings[t] != map[];
    forall k | k in s.postings[t] ensures k in s.length && 0 < s.postings[t][k] <= s.length[k] {
      assert DescribesLength(s, c, k);
      assert multiset(c[k])[t] <= |multiset(c[k])|;
    }
  }

  // What add and remove do to the statistics, whatever these are

  ghost predicate AddsTerm(s: Stats, key: Key, terms: seq<Term>, s': Stats, t: Term) {
    if t in terms then
      && t in s'.postings && s'.postings[t] == PostingIn(s, t)[key := multiset(terms)[t]]
      && DfIn(s', t) == DfIn(s, t) + (if key in PostingIn(s, t) then 0 else 1)
      && (t in s'.df <==> t in s.df || key !in PostingIn(s, t))
    else
      SameTerm(s, s', t)
  }

  ghost predicate SameTerm(s: Stats, s': Stats, t: Term) {
    && (t in s'.postings <==> t in s.postings) && PostingIn(s', t) == PostingIn(s, t)
    && (t in s'.df <==> t in s.df) && DfIn(s', t) == DfIn(s, t)
  }

  ghost predicate Adds(s: Stats, key: Key, terms: seq<Term>, s': Stats) {
    && (forall t {:trigger AddsTerm(s, key, terms, s', t)} :: AddsTerm(s, key, terms, s', t))
    && s'.length == s.length[key := |terms|]
    && s'.total == s.total + |terms|
  }

  ghost predicate RemovesTerm(s: Stats, key: Key, s': Stats, t: Term) {
    if key in PostingIn(s, t) then
      && PostingIn(s', t) == PostingIn(s, t) - {key}
      && (t in s'.postings <==> PostingIn(s, t).Keys != {key})
      && (t in s'.df <==> t in s'.postings)
      && (t in s'.df ==> s'.df[t] == DfIn(s, t) - 1)
    else
      SameTerm(s, s', t)
  }

  ghost predicate Removes(s: Stats, key: Key, s': Stats) {
    if key !in s.length then s' == s
    else
      && (forall t {:trigger RemovesTerm(s, key, s', t)} :: RemovesTerm(s, key, s', t))
      && s'.length == s.length - {key}
      && s'.total == s.total - s.length[key]
  }

  lemma AddPosting(c: Corpus, key: Key, terms: seq<Term>, t: Term)
    requires key !in c || t !in c[key]
    ensures Posting(c[key := terms], t) ==
            if t in terms then Posting(c, t)[key := multiset(terms)[t]] else Posting(c, t)
    ensures key !in Posting(c, t)
  {
    if t in terms {
      assert Posting(c[key := terms], t) == Posting(c, t)[key := multiset(terms)[t]];
    } else {
      assert Posting(c[key := terms], t) == Posting(c, t);
    }
  }

  lemma AddTerm(s: Stats, c: Corpus, key: Key, terms: seq<Term>, s': Stats, t: Term)
    requires DescribesTerm(s, c, t) && AddsTerm(s, key, terms, s', t) && (key !in c || t !in c[key])
    ensures DescribesTerm(s', c[key := terms], t)
  {
    AddPosting(c, key, terms, t);
    if t in terms {
      assert key in s'.postings[t];
    }
  }

  lemma AddLength(c: Corpus, key: Key, terms: seq<Term>)
    ensures TotalLength(c[key := terms]) == TotalLength(c) + |terms| - if key in c then |c[key]| else 0
  {
    TotalLengthWithout(c[key := terms], key);
    if key in c {
      TotalLengthWithout(c, key);
      assert c[key := terms] - {key} == c - {key};
    } else {
      assert c[key := terms] - {key} == c;
    }
  }

  /** Adding a chunk under a new key, or over an empty chunk, gives the state of the new corpus. */
  lemma AddFresh(s: Stats, c: Corpus, key: Key, terms: seq<Term>, s': Stats)
    requires Describes(s, c) && Adds(s, key, terms, s') && (key !in c || c[key] == [])
    ensures Describes(s', c[key := terms])
  {
    var c' := c[key := terms];
    forall t ensures DescribesTerm(s', c', t) {
      assert DescribesTerm(s, c, t) && AddsTerm(s, key, terms, s', t);
      AddTerm(s, c, key, terms, s', t);
    }
    forall k ensures DescribesLength(s', c', k) {
      assert DescribesLength(s, c, k);
    }
    AddLength(c, key, terms);
  }

  /** `add` on its own replaces a chunk correctly exactly when the key is new or was empty. */
  lemma AddReplaces(s: Stats, c: Corpus, key: Key, terms: seq<Term>, s': Stats)
    requires Describes(s, c) && Adds(s, key, terms, s')
    ensures Describes(s', c[key := terms]) <==> key !in c || c[key] == []
  {
    AddLength(c, key, terms);
    if key !in c || c[key] == [] {
      AddFresh(s, c, key, terms, s');
    }
  }

  lemma RemovePosting(c: Corpus, key: Key, t: Term)
    requires key in Posting(c, t)
    ensures Posting(c - {key}, t) == Posting(c, t) - {key}
    ensures |Posting(c - {key}, t)| == |Posting(c, t)| - 1
    ensures Posting(c - {key}, t) == map[] <==> Posting(c, t).Keys == {key}
  {
    var p, p' := Posting(c, t), Posting(c - {key}, t);
    assert p' == p - {key};
    assert p == p'[key := p[key]];
    if p' == map[] {
      assert p.Keys == {key};
    }
  }

  lemma RemoveTerm(s: Stats, c: Corpus, key: Key, s': Stats, t: Term)
    requires DescribesTerm(s, c, t) && RemovesTerm(s, key, s', t)
    ensures DescribesTerm(s', c - {key}, t)
  {
    if key in Posting(c, t) {
      RemovePosting(c, key, t);
    }
  }

  /** Removing a chunk gives the state of the corpus without it; an unknown key changes nothing. */
  lemma RemoveAny(s: Stats, c: Corpus, key: Key, s': Stats)
    requires Describes(s, c) && Removes(s, key, s')
    ensures Describes(s', c - {key})
  {
    assert DescribesLength(s, c, key);
    var c' := c - {key};
    if key !in c {
      assert c' == c;
    } else {
      forall t ensures DescribesTerm(s', c', t) {
        assert DescribesTerm(s, c, t) && RemovesTerm(s, key, s', t);
        RemoveTerm(s, c, key, s', t);
      }
      forall k ensures DescribesLength(s', c', k) {
        assert DescribesLength(s, c, k);
      }
      TotalLengthWithout(c, key);
    }
  }

  /** Removing what was just added under a new key is as if nothing had happened. */
  lemma RemoveUndoesAdd(s: Stats, c: Corpus, key: Key, terms: seq<Term>, s': Stats, s'': Stats)
    requires Describes(s, c) && key !in c
    requires Adds(s, key, terms, s') && Removes(s', key, s'')
    ensures s'' == s
  {
    AddFresh(s, c, key, terms, s');
    RemoveAny(s', c[key := terms], key, s'');
    assert c[key := terms] - {key} == c;
    DescribesUnique(s, s'', c);
  }
}
