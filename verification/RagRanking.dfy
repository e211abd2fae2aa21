/** How rag/index.go orders and picks search results: the final sort, the caps, and the blend of scores. */
module RagRanking {
  import opened Bm25

  datatype Scored = Scored(key: Key, docId: string, index: nat, vec: real, kw: real, rec: real, score: real, lexicalOnly: bool)

  // The sort order

  predicate Less(a: string, b: string) {
    b != [] && (a == [] || a[0] < b[0] || (a[0] == b[0] && Less(a[1..], b[1..])))
  }

  lemma {:induction false} LessTotal(a: string, b: string)
    ensures a == b || Less(a, b) || Less(b, a)
    ensures !(Less(a, b) && Less(b, a)) && !Less(a, a)
  {
    if a != [] && b != [] {
      LessTotal(a[1..], b[1..]);
      assert a == [a[0]] + a[1..] && b == [b[0]] + b[1..];
    }
    if a != [] {
      LessTotal(a[1..], a[1..]);
    }
  }

  /** The order of strings: a is a proper start of b, or smaller where they first differ. */
  lemma {:induction false} LessExact(a: string, b: string)
    ensures Less(a, b) <==>
            exists n: nat {:trigger a[..n]} :: n <= |a| && n < |b| && a[..n] == b[..n] && (n == |a| || a[n] < b[n])
  {
    if a != [] && b != [] && a[0] == b[0] {
      LessExact(a[1..], b[1..]);
      if n: nat {:trigger a[..n]} :| n <= |a| && n < |b| && a[..n] == b[..n] && (n == |a| || a[n] < b[n]) {
        assert a[1..][..n - 1] == a[..n][1..] == b[..n][1..] == b[1..][..n - 1];
      }
      if n: nat {:trigger a[1..][..n]} :| n <= |a[1..]| && n < |b[1..]| && a[1..][..n] == b[1..][..n] && (n == |a[1..]| || a[1..][n] < b[1..][n]) {
        assert a[..n + 1] == [a[0]] + a[1..][..n] && b[..n + 1] == [b[0]] + b[1..][..n];
      }
    } else if b != [] {
      assert a[..0] == b[..0];
    }
  }

  /** In a ranking scores never rise, and equal scores stand in the order of documents, then of chunks. */
  lemma RankedMeans(s: seq<Scored>, i: nat, j: nat)
    requires Ranked(s) && i < j < |s|
    ensures s[i].score >= s[j].score
    ensures s[i].score == s[j].score ==> Less(s[i].docId, s[j].docId) || (s[i].docId == s[j].docId && s[i].index < s[j].index)
  {
    assert Before(s[i], s[j]);
    hide Less;
  }

  lemma {:induction false} LessTransitive(a: string, b: string, c: string)
    requires Less(a, b) && Less(b, c)
    ensures Less(a, c)
  {
    if a != [] && a[0] == b[0] == c[0] {
      LessTransitive(a[1..], b[1..], c[1..]);
    }
  }

  /** Higher score first, then document ID, then chunk index. */
  predicate Before(a: Scored, b: Scored) {
    if a.score != b.score then a.score > b.score
    else if a.docId != b.docId then Less(a.docId, b.docId)
    else a.index < b.index
  }

  predicate SameChunk(a: Scored, b: Scored) {
    a.docId == b.docId && a.index == b.index
  }

  lemma BeforeTotal(a: Scored, b: Scored)
    requires !SameChunk(a, b)
    ensures Before(a, b) <==> !Before(b, a)
  {
    LessTotal(a.docId, b.docId);
  }

  lemma BeforeTransitive(a: Scored, b: Scored, c: Scored)
    requires Before(a, b) && Before(b, c)
    ensures Before(a, c)
  {
    LessTotal(a.docId, b.docId);
    LessTotal(b.docId, c.docId);
    if a.score == b.score == c.score && Less(a.docId, b.docId) && Less(b.docId, c.docId) {
      LessTransitive(a.docId, b.docId, c.docId);
      LessTotal(a.docId, c.docId);
    }
  }

  ghost predicate Ranked(s: seq<Scored>) {
    forall i, j | 0 <= i < j < |s| :: Before(s[i], s[j])
  }

  ghost predicate DifferentChunks(s: seq<Scored>) {
    forall i, j | 0 <= i < j < |s| :: !SameChunk(s[i], s[j])
  }

  lemma InsertRanked(s: seq<Scored>, p: nat, c: Scored)
    requires Ranked(s) && p <= |s|
    requires forall i | 0 <= i < p :: Before(s[i], c)
    requires p < |s| ==> Before(c, s[p])
    ensures Ranked(s[..p] + [c] + s[p..])
  {
    var t := s[..p] + [c] + s[p..];
    forall i | p < i < |s| ensures Before(c, s[i]) {
      BeforeTransitive(c, s[p], s[i]);
    }
    forall i, j | 0 <= i < j < |t| ensures Before(t[i], t[j]) {
      assert t[i] == if i < p then s[i] else if i == p then c else s[i - 1];
      assert t[j] == if j < p then s[j] else if j == p then c else s[j - 1];
    }
  }

  /** Puts one more candidate behind everything that comes before it. */
  method Insert(ranked: seq<Scored>, c: Scored) returns (r: seq<Scored>)
    requires Ranked(ranked) && forall x | x in ranked :: !SameChunk(x, c)
    ensures Ranked(r) && multiset(r) == multiset(ranked) + multiset{c}
  {
    var p := 0;
    while p < |ranked| && !Before(c, ranked[p])
      invariant p <= |ranked|
      invariant forall i | 0 <= i < p :: Before(ranked[i], c)
    {
      BeforeTotal(ranked[p], c);
      p := p + 1;
    }
    InsertRanked(ranked, p, c);
    assert ranked == ranked[..p] + ranked[p..];
    r := ranked[..p] + [c] + ranked[p..];
  }

  /** A stable sort by `Before`, as sort.SliceStable promises; different chunks come out in one strict order. */
  method Sort(cands: seq<Scored>) returns (ranked: seq<Scored>)
    requires DifferentChunks(cands)
    ensures Ranked(ranked) && multiset(ranked) == multiset(cands)
  {
    ranked := [];
    for n := 0 to |cands|
      invariant Ranked(ranked) && multiset(ranked) == multiset(cands[..n])
    {
      forall x | x in ranked ensures !SameChunk(x, cands[n]) {
        assert x in multiset(cands[..n]);
        var i :| 0 <= i < n && cands[i] == x;
      }
      ranked := Insert(ranked, cands[n]);
      assert cands[..n + 1] == cands[..n] + [cands[n]];
    }
    assert cands[..|cands|] == cands;
  }

  lemma HeadsEqual(a: seq<Scored>, b: seq<Scored>)
    requires Ranked(a) && Ranked(b) && multiset(a) == multiset(b) && a != [] && b != []
    ensures a[0] == b[0]
  {
    assert a[0] in multiset(b) && b[0] in multiset(a);
    var i :| 0 <= i < |b| && b[i] == a[0];
    var j :| 0 <= j < |a| && a[j] == b[0];
    LessTotal(a[0].docId, b[0].docId);
  }

  /** The ranking of a set of chunks is unique. */
  lemma {:induction false} RankedUnique(a: seq<Scored>, b: seq<Scored>)
    requires Ranked(a) && Ranked(b) && multiset(a) == multiset(b)
    ensures a == b
  {
    hide Before;
    assert |a| == |multiset(a)| == |multiset(b)| == |b|;
    if a != [] {
      HeadsEqual(a, b);
      assert a == [a[0]] + a[1..] && b == [b[0]] + b[1..];
      assert multiset(a[1..]) == multiset(a) - multiset{a[0]};
      assert multiset(b[1..]) == multiset(b) - multiset{b[0]};
      RankedUnique(a[1..], b[1..]);
    }
  }

  // The caps

  datatype Caps = Caps(topK: nat, perDoc: int, maxDocs: int)

  function CountDoc(hits: seq<Scored>, id: string): nat {
    if hits == [] then 0
    else CountDoc(hits[..|hits| - 1], id) + if hits[|hits| - 1].docId == id then 1 else 0
  }

  function DocIds(hits: seq<Scored>): set<string> {
    set h | h in hits :: h.docId
  }

  ghost predicate WithinPerDoc(hits: seq<Scored>, cap: int) {
    forall id :: CountDoc(hits, id) <= cap
  }

  /** A list of hits within every cap; a cap that is not positive does not bind. */
  ghost predicate Allowed(hits: seq<Scored>, caps: Caps) {
    && |hits| <= caps.topK
    && (caps.perDoc > 0 ==> WithinPerDoc(hits, caps.perDoc))
    && (caps.maxDocs > 0 ==> |DocIds(hits)| <= caps.maxDocs)
  }

  /** The hits picked among the first n ranked candidates. */
  function PickedFrom(ranked: seq<Scored>, picked: set<nat>, n: nat): seq<Scored>
    requires n <= |ranked|
  {
    if n == 0 then []
    else PickedFrom(ranked, picked, n - 1) + if n - 1 in picked then [ranked[n - 1]] else []
  }

  /** A candidate is picked exactly when the better ones that were picked leave room for it under the caps. */
  ghost predicate GreedyAt(ranked: seq<Scored>, caps: Caps, picked: set<nat>, i: nat)
    requires i < |ranked|
  {
    i in picked <==> Allowed(PickedFrom(ranked, picked, i) + [ranked[i]], caps)
  }

  ghost predicate Greedy(ranked: seq<Scored>, caps: Caps, picked: set<nat>, n: nat)
    requires n <= |ranked|
  {
    && (forall i | i in picked :: i < n)
    && forall i: nat {:trigger GreedyAt(ranked, caps, picked, i)} | i < n :: GreedyAt(ranked, caps, picked, i)
  }

  lemma {:induction false} PickedSame(ranked: seq<Scored>, picked: set<nat>, picked': set<nat>, n: nat)
    requires n <= |ranked| && forall i | 0 <= i < n :: i in picked <==> i in picked'
    ensures PickedFrom(ranked, picked, n) == PickedFrom(ranked, picked', n)
  {
    if n > 0 {
      PickedSame(ranked, picked, picked', n - 1);
    }
  }

  /** The rule has one outcome. */
  lemma GreedyUnique(ranked: seq<Scored>, caps: Caps, picked: set<nat>, picked': set<nat>)
    requires Greedy(ranked, caps, picked, |ranked|) && Greedy(ranked, caps, picked', |ranked|)
    ensures picked == picked'
  {
    GreedyAgree(ranked, caps, picked, picked', |ranked|);
  }

  lemma {:induction false} GreedyAgree(ranked: seq<Scored>, caps: Caps, picked: set<nat>, picked': set<nat>, n: nat)
    requires n <= |ranked|
    requires Greedy(ranked, caps, picked, |ranked|) && Greedy(ranked, caps, picked', |ranked|)
    ensures forall i | 0 <= i < n :: i in picked <==> i in picked'
  {
    if n > 0 {
      GreedyAgree(ranked, caps, picked, picked', n - 1);
      PickedSame(ranked, picked, picked', n - 1);
      assert GreedyAt(ranked, caps, picked, n - 1) && GreedyAt(ranked, caps, picked', n - 1);
    }
  }

  lemma DocIdsAppend(hits: seq<Scored>, c: Scored)
    ensures DocIds(hits + [c]) == DocIds(hits) + {c.docId}
  {
    forall h | h in hits + [c] ensures h.docId in DocIds(hits) + {c.docId} {
      assert h in hits || h == c;
    }
    forall id | id in DocIds(hits) + {c.docId} ensures id in DocIds(hits + [c]) {
      if id == c.docId {
        assert c in hits + [c];
      } else {
        var h :| h in hits && h.docId == id;
        assert h in hits + [c];
      }
    }
  }

  lemma CountAppend(hits: seq<Scored>, c: Scored, id: string)
    ensures CountDoc(hits + [c], id) == CountDoc(hits, id) + if c.docId == id then 1 else 0
  {
    assert (hits + [c])[..|hits|] == hits;
  }

  lemma PerDocRoom(hits: seq<Scored>, cap: int, c: Scored)
    requires WithinPerDoc(hits, cap)
    ensures WithinPerDoc(hits + [c], cap) <==> CountDoc(hits, c.docId) < cap
  {
    CountAppend(hits, c, c.docId);
    forall id ensures id != c.docId ==> CountDoc(hits + [c], id) <= cap {
      CountAppend(hits, c, id);
    }
  }

  /** The three tests of the selection loop decide whether one more hit is allowed. */
  lemma Room(hits: seq<Scored>, caps: Caps, c: Scored)
    requires Allowed(hits, caps)
    ensures Allowed(hits + [c], caps) <==>
            && |hits| < caps.topK
            && !(caps.perDoc > 0 && CountDoc(hits, c.docId) >= caps.perDoc)
            && !(caps.maxDocs > 0 && c.docId !in DocIds(hits) && |DocIds(hits)| >= caps.maxDocs)
  {
    if caps.perDoc > 0 {
      PerDocRoom(hits, caps.perDoc, c);
    }
    DocIdsAppend(hits, c);
    hide CountDoc, DocIds, WithinPerDoc;
    assert c.docId in DocIds(hits) ==> DocIds(hits) + {c.docId} == DocIds(hits);
  }

  /** No further candidate fits once the hits are full. */
  lemma {:induction false} StopFull(ranked: seq<Scored>, caps: Caps, picked: set<nat>, n: nat, m: nat)
    requires n <= m <= |ranked| && Greedy(ranked, caps, picked, n)
    requires |PickedFrom(ranked, picked, n)| >= caps.topK
    ensures Greedy(ranked, caps, picked, m) && PickedFrom(ranked, picked, m) == PickedFrom(ranked, picked, n)
    decreases m
  {
    if n < m {
      StopFull(ranked, caps, picked, n, m - 1);
      hide CountDoc, DocIds;
      assert GreedyAt(ranked, caps, picked, m - 1);
    }
  }

  method Select(ranked: seq<Scored>, caps: Caps) returns (hits: seq<Scored>, ghost picked: set<nat>)
    ensures Allowed(hits, caps)
    ensures Greedy(ranked, caps, picked, |ranked|) && hits == PickedFrom(ranked, picked, |ranked|)
  {
    var perDoc: map<string, nat> := map[];
    var docsUsed: set<string> := {};
    hits, picked := [], {};
    assert Allowed(hits, caps) && DocIds(hits) == {};
    hide Allowed, Greedy;
    assert Greedy(ranked, caps, picked, 0) by {
      NothingPicked(ranked, caps);
    }
    for n := 0 to |ranked|
      invariant Allowed(hits, caps)
      invariant Greedy(ranked, caps, picked, n) && hits == PickedFrom(ranked, picked, n)
      invariant forall i | i in picked :: i < n
      invariant docsUsed == DocIds(hits)
      invariant forall id :: (if id in perDoc then perDoc[id] else 0) == CountDoc(hits, id)
    {
      if |hits| >= caps.topK {
        StopFull(ranked, caps, picked, n, |ranked|);
        return;
      }
      var c := ranked[n];
      var used := if c.docId in perDoc then perDoc[c.docId] else 0;
      Room(hits, caps, c);
      if !(caps.perDoc > 0 && used >= caps.perDoc)
         && !(caps.maxDocs > 0 && c.docId !in docsUsed && |docsUsed| >= caps.maxDocs)
      {
        DocIdsAppend(hits, c);
        PickedSame(ranked, picked, picked + {n}, n);
        GreedyPick(ranked, caps, picked, n);
        forall id ensures CountDoc(hits + [c], id) == CountDoc(hits, id) + if c.docId == id then 1 else 0 {
          CountAppend(hits, c, id);
        }
        hits, picked := hits + [c], picked + {n};
        perDoc := perDoc[c.docId := used + 1];
        docsUsed := docsUsed + {c.docId};
      } else {
        GreedySkip(ranked, caps, picked, n);
      }
    }
  }

  lemma NothingPicked(ranked: seq<Scored>, caps: Caps)
    ensures Greedy(ranked, caps, {}, 0)
  {
  }

  lemma GreedyPick(ranked: seq<Scored>, caps: Caps, picked: set<nat>, n: nat)
    requires n < |ranked| && Greedy(ranked, caps, picked, n)
    requires Allowed(PickedFrom(ranked, picked, n) + [ranked[n]], caps)
    ensures Greedy(ranked, caps, picked + {n}, n + 1)
  {
    hide Allowed;
    var picked' := picked + {n};
    forall i: nat | i <= n ensures GreedyAt(ranked, caps, picked', i) {
      PickedSame(ranked, picked, picked', i);
      if i < n {
        assert GreedyAt(ranked, caps, picked, i);
      }
    }
  }

  lemma GreedySkip(ranked: seq<Scored>, caps: Caps, picked: set<nat>, n: nat)
    requires n < |ranked| && Greedy(ranked, caps, picked, n)
    requires !Allowed(PickedFrom(ranked, picked, n) + [ranked[n]], caps)
    ensures Greedy(ranked, caps, picked, n + 1)
  {
    hide Allowed;
    assert GreedyAt(ranked, caps, picked, n);
  }
}
