/**
 The search behind recall. A session indexes one document for each record and
 asks for 32 hits, one for each document (chatmemory/session.go:414); what the
 session assumes of its search is what the index guarantees.
 */
module ChatSearch {
  import opened Lists
  import opened RagContent
  import opened RagRanking
  import opened RagSearch
  import opened Wrappers
  import RagIndex

  const CAPS := Caps(32, 1, 0)

  lemma {:induction false} OncePerDocument(hits: seq<Scored>, i: nat)
    requires i < |hits|
    ensures CountDoc(hits, hits[i].docId) >= 1
    ensures forall j | 0 <= j < |hits| && j != i && hits[j].docId == hits[i].docId :: CountDoc(hits, hits[i].docId) >= 2
  {
    var n := |hits| - 1;
    if i < n {
      OncePerDocument(hits[..n], i);
    } else {
      forall j | 0 <= j < n && hits[j].docId == hits[i].docId ensures CountDoc(hits[..n], hits[i].docId) >= 1 {
        OncePerDocument(hits[..n], j);
      }
    }
  }

  /** At most 32 hits, of different documents, each of them in the index, best first. */
  lemma SearchIsGood(v: RagIndex.View, content: seq<Source>, o: RagIndex.Options, c: Context, ranked: seq<Scored>, picked: set<nat>, hits: seq<Hit>)
    requires RagIndex.Holds(v, content, o)
    requires Outcome(v, c, ranked, picked, hits) && c.query.Caps() == CAPS
    ensures |hits| <= 32
    ensures forall i | 0 <= i < |hits| :: hits[i].scored.docId in v.docs
    ensures forall i, j | 0 <= i < j < |hits| ::
              hits[i].scored.docId != hits[j].scored.docId && hits[i].scored.score >= hits[j].scored.score
  {
    var chosen := RagRanking.PickedFrom(ranked, picked, |ranked|);
    forall i | 0 <= i < |hits| ensures hits[i].scored == chosen[i] && chosen[i].docId in v.docs {
      assert HitFor(v, c.query.neighbours, chosen[i], hits[i]);
      OfDocument(v, content, o, c, ranked, picked, chosen[i]);
    }
    forall i, j | 0 <= i < j < |hits| ensures chosen[i].docId != chosen[j].docId && chosen[i].score >= chosen[j].score {
      OncePerDocument(chosen, i);
      assert Before(chosen[i], chosen[j]);
    }
  }

  lemma OfDocument(v: RagIndex.View, content: seq<Source>, o: RagIndex.Options, c: Context, ranked: seq<Scored>, picked: set<nat>, s: Scored)
    requires RagIndex.Holds(v, content, o) && Ranked(ranked) && s in RagRanking.PickedFrom(ranked, picked, |ranked|)
    requires (forall i | 0 <= i < |v.order| :: Listed(v, v.order[i])) && multiset(ranked) == multiset(Candidates(v, c, |v.order|))
    ensures s.docId in v.docs
  {
    OrderListed(v, content, o);
    CandidateKeys(v, content, o, c, |v.order|);
    hide RagIndex.Holds, Ranked, NoDup, Candidates;
    PickedSorted(ranked, picked, |ranked|);
    assert s in ranked && s in multiset(ranked) && s in multiset(Candidates(v, c, |v.order|));
    var key :| key in v.order && EvaluateKey(v, c, key) == Some(s);
    assert Listed(v, key);
  }
}
