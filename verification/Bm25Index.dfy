/** The index object of rag/bm25.go: its fields, and the loops of add and remove. */
module Bm25Index {
  import opened Bm25

  /** A chunk's terms without the stopwords. */
  function Kept(tokens: seq<Term>, stopwords: set<Term>): seq<Term> {
    if tokens == [] then []
    else
      var rest := Kept(tokens[..|tokens| - 1], stopwords);
      if tokens[|tokens| - 1] in stopwords then rest else rest + [tokens[|tokens| - 1]]
  }

  /** Of the tokens a chunk keeps all occurrences of every term that is no stopword, and none of any stopword. */
  lemma {:induction false} KeptCounts(tokens: seq<Term>, stopwords: set<Term>, t: Term)
    ensures multiset(Kept(tokens, stopwords))[t] == if t in stopwords then 0 else multiset(tokens)[t]
  {
    if tokens != [] {
      var n := |tokens| - 1;
      KeptCounts(tokens[..n], stopwords, t);
      assert tokens == tokens[..n] + [tokens[n]];
    }
  }

  /** `done` of the terms have been handled; the others are as they were. */
  ghost predicate Adding(s: Stats, key: Key, terms: seq<Term>, s': Stats, done: set<Term>) {
    && (forall t {:trigger AddsTerm(s, key, terms, s', t)} | t in done :: AddsTerm(s, key, terms, s', t))
    && (forall t {:trigger SameTerm(s, s', t)} | t !in done :: SameTerm(s, s', t))
  }

  ghost predicate Removing(s: Stats, key: Key, s': Stats, done: set<Term>) {
    && (forall t {:trigger RemovesTerm(s, key, s', t)} | t in done :: RemovesTerm(s, key, s', t))
    && (forall t {:trigger SameTerm(s, s', t)} | t !in done :: SameTerm(s, s', t))
  }

  /** A step that touches one term only leaves every other where it was. */
  ghost predicate Touches(s': Stats, s'': Stats, t: Term) {
    forall u {:trigger SameTerm(s', s'', u)} | u != t :: SameTerm(s', s'', u)
  }

  lemma AddingStep(s: Stats, key: Key, terms: seq<Term>, s': Stats, done: set<Term>, t: Term, s'': Stats)
    requires Adding(s, key, terms, s', done)
    requires Touches(s', s'', t) && AddsTerm(s, key, terms, s'', t)
    ensures Adding(s, key, terms, s'', done + {t})
  {
    var done' := done + {t};
    forall u | u in done' ensures AddsTerm(s, key, terms, s'', u) {
      if u != t {
        assert SameTerm(s', s'', u) && AddsTerm(s, key, terms, s', u);
      }
    }
    forall u | u !in done' ensures SameTerm(s, s'', u) {
      assert SameTerm(s', s'', u) && SameTerm(s, s', u);
    }
  }

  lemma RemovingStep(s: Stats, key: Key, s': Stats, done: set<Term>, t: Term, s'': Stats)
    requires Removing(s, key, s', done)
    requires Touches(s', s'', t) && RemovesTerm(s, key, s'', t)
    ensures Removing(s, key, s'', done + {t})
  {
    var done' := done + {t};
    forall u | u in done' ensures RemovesTerm(s, key, s'', u) {
      if u != t {
        assert SameTerm(s', s'', u) && RemovesTerm(s, key, s', u);
      }
    }
    forall u | u !in done' ensures SameTerm(s, s'', u) {
      assert SameTerm(s', s'', u) && SameTerm(s, s', u);
    }
  }

  lemma AddingDone(s: Stats, key: Key, terms: seq<Term>, s': Stats, done: set<Term>, s'': Stats)
    requires Adding(s, key, terms, s', done) && (forall t :: t in done <==> t in terms)
    requires s''.postings == s'.postings && s''.df == s'.df
    ensures forall t {:trigger AddsTerm(s, key, terms, s'', t)} :: AddsTerm(s, key, terms, s'', t)
  {
    forall t ensures AddsTerm(s, key, terms, s'', t) {
      if t in done {
        assert AddsTerm(s, key, terms, s', t) && SameTerm(s', s'', t);
      } else {
        assert SameTerm(s, s', t);
      }
    }
  }

  lemma RemovingDone(s: Stats, key: Key, s': Stats, done: set<Term>, s'': Stats)
    requires Removing(s, key, s', done) && done == s.postings.Keys && s.df.Keys == s.postings.Keys
    requires s''.postings == s'.postings && s''.df == s'.df
    ensures forall t {:trigger RemovesTerm(s, key, s'', t)} :: RemovesTerm(s, key, s'', t)
    ensures s''.df.Keys == s''.postings.Keys
  {
    forall t ensures RemovesTerm(s, key, s'', t) && (t in s''.df <==> t in s''.postings) {
      if t in done {
        assert RemovesTerm(s, key, s', t) && SameTerm(s', s'', t);
      } else {
        assert SameTerm(s, s', t);
      }
    }
  }

  class Index {
    var postings: map<Term, map<Key, nat>>
    var df: map<Term, int>
    var length: map<Key, nat>
    var totalLength: int
    const stopwords: set<Term>

    ghost function State(): Stats
      reads this
    {
      Stats(postings, df, length, totalLength)
    }

    constructor (stopwords: set<Term>)
      ensures State() == EMPTY && this.stopwords == stopwords
      ensures Describes(State(), map[])
    {
      this.stopwords := stopwords;
      postings, df, length, totalLength := map[], map[], map[], 0;
      new;
      forall t ensures DescribesTerm(State(), map[], t) {
        assert Posting(map[], t) == map[];
      }
    }

    method Frequencies(tokens: seq<Term>) returns (freq: map<Term, nat>, total: nat)
      ensures total == |Kept(tokens, stopwords)|
      ensures forall t :: t in freq <==> t in Kept(tokens, stopwords)
      ensures forall t | t in freq :: freq[t] == multiset(Kept(tokens, stopwords))[t]
    {
      freq, total := map[], 0;
      for i := 0 to |tokens|
        invariant total == |Kept(tokens[..i], stopwords)|
        invariant forall t :: t in freq <==> t in Kept(tokens[..i], stopwords)
        invariant forall t | t in freq :: freq[t] == multiset(Kept(tokens[..i], stopwords))[t]
      {
        var term := tokens[i];
        assert tokens[..i + 1][..i] == tokens[..i];
        if term !in stopwords {
          assert Kept(tokens[..i + 1], stopwords) == Kept(tokens[..i], stopwords) + [term];
          var n: nat := if term in freq then freq[term] else 0;
          freq := freq[term := n + 1];
          total := total + 1;
        }
      }
      assert tokens[..|tokens|] == tokens;
    }

    /** One term of the second loop of `add`. */
    method AddPosting(key: Key, term: Term, f: nat, ghost terms: seq<Term>)
      requires term in terms && f == multiset(terms)[term]
      modifies `postings, `df
      ensures AddsTerm(old(State()), key, terms, State(), term)
      ensures Touches(old(State()), State(), term)
    {
      ghost var s := State();
      if term !in postings {
        var none: map<Key, nat> := map[];
        postings := postings[term := none];
      }
      if key !in postings[term] {
        df := df[term := (if term in df then df[term] else 0) + 1];
      }
      var chunks: map<Key, nat> := postings[term];
      postings := postings[term := chunks[key := f]];
    }

    method AddPostings(key: Key, freq: map<Term, nat>, ghost terms: seq<Term>)
      requires forall t :: t in freq <==> t in terms
      requires forall t | t in freq :: freq[t] == multiset(terms)[t]
      modifies `postings, `df
      ensures Adding(old(State()), key, terms, State(), freq.Keys)
    {
      var todo := freq.Keys;
      ghost var done := {};
      while todo != {}
        invariant todo + done == freq.Keys && todo !! done
        invariant Adding(old(State()), key, terms, State(), done)
        decreases |todo|
      {
        var term :| term in todo;
        ghost var s' := State();
        assert SameTerm(old(State()), s', term);
        AddPosting(key, term, freq[term], terms);
        AddingStep(old(State()), key, terms, s', done, term, State());
        todo, done := todo - {term}, done + {term};
      }
      assert done == freq.Keys;
    }

    method Add(key: Key, tokens: seq<Term>)
      modifies this
      ensures Adds(old(State()), key, Kept(tokens, stopwords), State())
    {
      var freq, total := Frequencies(tokens);
      AddPostings(key, freq, Kept(tokens, stopwords));
      ghost var s' := State();
      length := length[key := total];
      totalLength := totalLength + total;
      AddingDone(old(State()), key, Kept(tokens, stopwords), s', freq.Keys, State());
    }

    /** One term of the loop of `remove`. */
    method RemovePosting(key: Key, term: Term)
      requires term in postings && term in df
      modifies `postings, `df
      ensures RemovesTerm(old(State()), key, State(), term)
      ensures Touches(old(State()), State(), term)
    {
      if key !in postings[term] {
        return;
      }
      ghost var s := State();
      var chunks := postings[term] - {key};
      postings := postings[term := chunks];
      df := df[term := df[term] - 1];
      assert chunks.Keys == s.postings[term].Keys - {key};
      if chunks == map[] {
        postings := postings - {term};
        df := df - {term};
        assert chunks.Keys == {};
      } else {
        assert s.postings[term].Keys == {key} ==> chunks.Keys == {};
      }
    }

    method Remove(key: Key)
      requires df.Keys == postings.Keys
      modifies this
      ensures Removes(old(State()), key, State())
      ensures df.Keys == postings.Keys
    {
      if key !in length {
        return;
      }
      ghost var s := State();
      var todo := postings.Keys;
      ghost var done := {};
      while todo != {}
        invariant todo + done == s.postings.Keys && todo !! done
        invariant length == s.length && totalLength == s.total
        invariant Removing(s, key, State(), done)
        decreases |todo|
      {
        var term :| term in todo;
        ghost var s' := State();
        assert SameTerm(s, s', term);
        RemovePosting(key, term);
        RemovingStep(s, key, s', done, term, State());
        todo, done := todo - {term}, done + {term};
      }
      ghost var s' := State();
      var n := length[key];
      length := length - {key};
      totalLength := totalLength - n;
      RemovingDone(s, key, s', done, State());
    }
  }
}
