/**
 Reordering without validation. POST /generate converts its messages without
 checking them first (server/openai_requests.go:33-37), so apiMessages meets
 conversations that break the discipline; this module says exactly when it
 then loses a message.
 */
module ToolLoss {
  import opened Lists
  import opened ToolMessages
  import opened ToolOrder

  /** Messages k and l do not answer one ID in two ways. */
  predicate Agree(s: seq<ChatMessage>, k: nat, l: nat)
    requires k < |s| && l < |s|
  {
    s[k].callId == s[l].callId ==> s[k] == s[l]
  }

  /**
   The block after message i is one that reordering moves, and its messages are
   tool results that answer each call once, or the same way every time.
   */
  ghost predicate Fits(s: seq<ChatMessage>, i: nat)
    requires i < |s|
  {
    var n := |s[i].calls|;
    n >= 2 && i + n < |s| && Complete(s, i) ==>
      && (forall k | i < k <= i + n :: s[k].role.Tool?)
      && multiset(AnswerIds(Results(s, i))) == multiset(Ids(s[i].calls))
      && (forall k: nat, l: nat {:trigger Agree(s, k, l)} | i < k < l <= i + n :: Agree(s, k, l))
  }

  /** What is found under an ID is a tool result with that ID; with one answer per ID it is that answer. */
  lemma {:induction false} FoundById(s: seq<ChatMessage>, i: nat, k: nat)
    requires i + k < |s|
    ensures forall id | id in ById(s, i, k) ::
              ById(s, i, k)[id].callId == id && ById(s, i, k)[id].role.Tool? && ById(s, i, k)[id] in s[i + 1..i + 1 + k]
    ensures forall j | i < j <= i + k && s[j].role.Tool? :: s[j].callId in ById(s, i, k)
  {
    if k > 0 {
      FoundById(s, i, k - 1);
      assert s[i + 1..i + 1 + k] == s[i + 1..i + k] + [s[i + k]];
    }
  }

  /** One pass loses nothing if and only if the block fits. */
  lemma PassExact(s: seq<ChatMessage>, i: nat)
    requires i < |s|
    ensures multiset(ReorderAt(s, i)) == multiset(s) <==> Fits(s, i)
  {
    var n := |s[i].calls|;
    if n >= 2 && i + n < |s| && Complete(s, i) {
      var head, tail := s[..i + 1], s[i + 1 + n..];
      assert s == head + Results(s, i) + tail;
      Cancel(head, Results(s, i), Sorted(s, i), tail);
      hide ReorderAt, Complete, Sorted;
      FoundById(s, i, n);
      if multiset(Sorted(s, i)) == multiset(Results(s, i)) {
        LosslessFits(s, i);
      }
      if Fits(s, i) {
        FitsLossless(s, i);
      }
    }
  }

  lemma Cancel(head: seq<ChatMessage>, a: seq<ChatMessage>, b: seq<ChatMessage>, tail: seq<ChatMessage>)
    ensures multiset(head + b + tail) == multiset(head + a + tail) <==> multiset(b) == multiset(a)
  {
    var h, t := multiset(head), multiset(tail);
    assert multiset(head + b + tail) == h + multiset(b) + t && multiset(head + a + tail) == h + multiset(a) + t;
    if h + multiset(b) + t == h + multiset(a) + t {
      forall m ensures multiset(b)[m] == multiset(a)[m] {
        assert (h + multiset(b) + t)[m] == (h + multiset(a) + t)[m];
      }
    }
  }

  lemma LosslessFits(s: seq<ChatMessage>, i: nat)
    requires i < |s| && |s[i].calls| >= 2 && i + |s[i].calls| < |s| && Complete(s, i)
    requires multiset(Sorted(s, i)) == multiset(Results(s, i))
    ensures Fits(s, i)
  {
    var n, sorted, rs, ids := |s[i].calls|, Sorted(s, i), Results(s, i), Ids(s[i].calls);
    FoundById(s, i, n);
    forall k | i < k <= i + n ensures s[k].callId in ById(s, i, n) && s[k] == ById(s, i, n)[s[k].callId] && s[k].role.Tool? {
      assert rs[k - i - 1] == s[k] && s[k] in multiset(sorted);
      var a :| 0 <= a < n && sorted[a] == s[k];
      assert sorted[a] == ById(s, i, n)[s[i].calls[a].id];
    }
    MapPermutation(sorted, rs, (m: ChatMessage) => m.callId);
    assert Map(sorted, (m: ChatMessage) => m.callId) == ids;
    assert Map(rs, (m: ChatMessage) => m.callId) == AnswerIds(rs);
  }

  lemma FitsLossless(s: seq<ChatMessage>, i: nat)
    requires i < |s| && |s[i].calls| >= 2 && i + |s[i].calls| < |s| && Complete(s, i)
    requires Fits(s, i)
    ensures multiset(Sorted(s, i)) == multiset(Results(s, i))
  {
    var n, sorted, rs, ids := |s[i].calls|, Sorted(s, i), Results(s, i), Ids(s[i].calls);
    hide ById;
    var found := ById(s, i, n);
    var pick := (id: CallId) => if id in found then found[id] else s[i];
    assert Map(ids, pick) == sorted;
    forall k | 0 <= k < n ensures pick(AnswerIds(rs)[k]) == rs[k] {
      OneAnswer(s, i, i + 1 + k);
    }
    assert Map(AnswerIds(rs), pick) == rs;
    hide *;
    MapPermutation(AnswerIds(rs), ids, pick);
  }

  /** With one answer for each ID, what is found under a result's ID is that result. */
  lemma OneAnswer(s: seq<ChatMessage>, i: nat, k: nat)
    requires i < |s| && |s[i].calls| >= 2 && i + |s[i].calls| < |s| && Complete(s, i) && Fits(s, i) && i < k <= i + |s[i].calls|
    ensures s[k].callId in ById(s, i, |s[i].calls|) && ById(s, i, |s[i].calls|)[s[k].callId] == s[k]
  {
    var n := |s[i].calls|;
    FoundById(s, i, n);
    assert s[k].role.Tool?;
    var l := FoundIndex(s, i, n, s[k].callId);
    hide ById, Complete;
    assert l < k ==> Agree(s, l, k);
    assert k < l ==> Agree(s, k, l);
  }

  lemma {:induction false} FoundIndex(s: seq<ChatMessage>, i: nat, k: nat, id: CallId) returns (j: nat)
    requires i + k < |s| && id in ById(s, i, k)
    ensures i < j <= i + k && s[j] == ById(s, i, k)[id] && s[j].callId == id
  {
    if s[i + k].role.Tool? && s[i + k].callId == id {
      j := i + k;
    } else {
      j := FoundIndex(s, i, k - 1, id);
    }
  }

  // The whole conversation

  /** Tool results carry no calls of their own. */
  ghost predicate CallFree(s: seq<ChatMessage>) {
    forall k | 0 <= k < |s| && s[k].role.Tool? :: s[k].calls == []
  }

  /** No tool result occurs twice. */
  ghost predicate DifferentResults(s: seq<ChatMessage>) {
    forall m: ChatMessage | m in multiset(s) && m.role.Tool? :: multiset(s)[m] == 1
  }

  /** r has only messages of s, and messages that are no tool results at most as often. */
  ghost predicate Drawn(s: seq<ChatMessage>, r: seq<ChatMessage>) {
    && |r| == |s|
    && (forall m | m in r :: m in s)
    && (forall m: ChatMessage | !m.role.Tool? :: multiset(r)[m] <= multiset(s)[m])
  }

  lemma SortedFrom(s: seq<ChatMessage>, i: nat)
    requires i < |s| && i + |s[i].calls| < |s| && Complete(s, i)
    ensures forall m | m in Sorted(s, i) :: m in Results(s, i) && m.role.Tool?
  {
    var n, sorted := |s[i].calls|, Sorted(s, i);
    FoundById(s, i, n);
    forall m | m in sorted ensures m in Results(s, i) && m.role.Tool? {
      var a :| 0 <= a < n && sorted[a] == m;
    }
  }

  lemma DrawnInside(head: seq<ChatMessage>, rs: seq<ChatMessage>, sorted: seq<ChatMessage>, tail: seq<ChatMessage>)
    requires |sorted| == |rs| && forall m | m in sorted :: m in rs && m.role.Tool?
    ensures Drawn(head + rs + tail, head + sorted + tail)
  {
    assert multiset(head + sorted + tail) == multiset(head) + multiset(sorted) + multiset(tail);
    assert multiset(head + rs + tail) == multiset(head) + multiset(rs) + multiset(tail);
    forall m: ChatMessage | !m.role.Tool? ensures multiset(sorted)[m] == 0 {
      assert m !in sorted;
    }
  }

  lemma PassDraws(s: seq<ChatMessage>, i: nat)
    requires i < |s|
    ensures Drawn(s, ReorderAt(s, i))
  {
    var n := |s[i].calls|;
    if n >= 2 && i + n < |s| && Complete(s, i) {
      assert s == s[..i + 1] + Results(s, i) + s[i + 1 + n..];
      SortedFrom(s, i);
      hide Sorted, Complete, Drawn;
      DrawnInside(s[..i + 1], Results(s, i), Sorted(s, i), s[i + 1 + n..]);
    }
  }

  lemma DrawnAcross(s: seq<ChatMessage>, m: seq<ChatMessage>, r: seq<ChatMessage>)
    requires Drawn(s, m) && Drawn(m, r)
    ensures Drawn(s, r)
    ensures DifferentResults(s) && multiset(r) == multiset(s) ==> multiset(m) == multiset(s)
  {
    if DifferentResults(s) && multiset(r) == multiset(s) {
      forall x | x in multiset(s) ensures multiset(s)[x] <= multiset(m)[x] {
        assert x in multiset(r) && x in r && x in m;
      }
      assert multiset(s) <= multiset(m);
      assert |multiset(m) - multiset(s)| == 0;
      assert multiset(m) == multiset(s) + (multiset(m) - multiset(s));
    }
  }

  lemma {:induction false} ReorderDraws(s: seq<ChatMessage>, i: nat)
    requires i <= |s|
    ensures Drawn(s, Reorder(s, i))
    decreases |s| - i
  {
    if i < |s| {
      var m := ReorderAt(s, i);
      PassDraws(s, i);
      hide ReorderAt, Drawn;
      ReorderDraws(m, i + 1);
      DrawnAcross(s, m, Reorder(m, i + 1));
    }
  }

  // A pass leaves later blocks alone

  lemma {:induction false} SameById(s: seq<ChatMessage>, r: seq<ChatMessage>, i: nat, k: nat)
    requires |r| == |s| && i + k < |s| && r[i..] == s[i..]
    ensures ById(r, i, k) == ById(s, i, k)
  {
    if k > 0 {
      SameById(s, r, i, k - 1);
      assert r[i..][k] == s[i..][k];
    }
  }

  lemma SameFits(s: seq<ChatMessage>, r: seq<ChatMessage>, i: nat)
    requires |r| == |s| && i < |s| && r[i..] == s[i..]
    ensures Fits(r, i) <==> Fits(s, i)
  {
    var n := |s[i].calls|;
    assert r[i..][0] == s[i..][0];
    if i + n < |s| {
      SameById(s, r, i, n);
      forall k | i <= k < |s| ensures r[k] == s[k] {
        assert r[i..][k - i] == s[i..][k - i];
      }
      assert Results(r, i) == Results(s, i);
      forall k: nat, l: nat | i < k < l <= i + n ensures Agree(r, k, l) <==> Agree(s, k, l) {}
    }
  }

  lemma PassLeaves(s: seq<ChatMessage>, i: nat, j: nat)
    requires i < j < |s| && CallFree(s) && Fits(s, i)
    ensures Fits(ReorderAt(s, i), j) <==> Fits(s, j)
  {
    var n, r := |s[i].calls|, ReorderAt(s, i);
    if n >= 2 && i + n < |s| && Complete(s, i) {
      if j <= i + n {
        InsideFits(s, i, j);
      } else {
        assert r[j..] == s[j..];
        hide *;
        SameFits(s, r, j);
      }
    }
  }

  /** Tool results have no calls, so nothing is to be reordered after them. */
  lemma InsideFits(s: seq<ChatMessage>, i: nat, j: nat)
    requires i < j < |s| && CallFree(s) && Fits(s, i)
    requires |s[i].calls| >= 2 && i + |s[i].calls| < |s| && Complete(s, i) && j <= i + |s[i].calls|
    ensures Fits(ReorderAt(s, i), j) && Fits(s, j)
  {
    var m := Sorted(s, i)[j - i - 1];
    assert ReorderAt(s, i)[j] == m && s[j].role.Tool?;
    assert m in Sorted(s, i);
    hide ReorderAt, Complete, Sorted;
    SortedFrom(s, i);
    var x :| 0 <= x < |s[i].calls| && Results(s, i)[x] == m;
    assert s[i + 1 + x] == m;
  }

  ghost predicate AllFit(s: seq<ChatMessage>, i: nat) {
    forall j | i <= j < |s| :: Fits(s, j)
  }

  lemma AllFitStep(s: seq<ChatMessage>, i: nat)
    requires i < |s| && CallFree(s)
    ensures AllFit(s, i) <==> Fits(s, i) && AllFit(ReorderAt(s, i), i + 1)
  {
    hide ReorderAt, Fits, CallFree;
    if Fits(s, i) {
      forall j | i < j < |s| ensures Fits(ReorderAt(s, i), j) <==> Fits(s, j) {
        PassLeaves(s, i, j);
      }
    }
  }

  /** Where every block fits the passes lose nothing; where results are different too, only there. */
  lemma {:induction false} PassesExact(s: seq<ChatMessage>, i: nat)
    requires i <= |s| && CallFree(s)
    ensures AllFit(s, i) ==> multiset(Reorder(s, i)) == multiset(s)
    ensures DifferentResults(s) && multiset(Reorder(s, i)) == multiset(s) ==> AllFit(s, i)
    decreases |s| - i
  {
    hide Reorder, ReorderAt, Fits, CallFree, DifferentResults, Drawn;
    if i < |s| {
      var m := ReorderAt(s, i);
      PassExact(s, i);
      PassDraws(s, i);
      ReorderDraws(m, i + 1);
      DrawnAcross(s, m, Reorder(m, i + 1));
      ReorderStep(s, i);
      AllFitStep(s, i);
      hide AllFit;
      if multiset(m) == multiset(s) {
        SameResults(s, m);
        PassesExact(m, i + 1);
      }
    } else {
      ReorderDone(s);
    }
  }

  lemma SameResults(s: seq<ChatMessage>, m: seq<ChatMessage>)
    requires multiset(m) == multiset(s)
    ensures CallFree(m) <==> CallFree(s)
    ensures DifferentResults(m) <==> DifferentResults(s)
  {
    if CallFree(s) {
      CallFreeToo(s, m);
    }
    if CallFree(m) {
      CallFreeToo(m, s);
    }
  }

  lemma CallFreeToo(s: seq<ChatMessage>, m: seq<ChatMessage>)
    requires multiset(m) == multiset(s) && CallFree(s)
    ensures CallFree(m)
  {
    forall k | 0 <= k < |m| && m[k].role.Tool? ensures m[k].calls == [] {
      assert m[k] in multiset(s);
      var l :| 0 <= l < |s| && s[l] == m[k];
    }
  }

  /** From message i on, no pass loses a message. */
  ghost predicate EachPassKeeps(s: seq<ChatMessage>, i: nat)
    requires i <= |s|
    decreases |s| - i
  {
    i < |s| ==> multiset(ReorderAt(s, i)) == multiset(s) && EachPassKeeps(ReorderAt(s, i), i + 1)
  }

  /** Results may repeat: no pass loses a message if and only if every block of the conversation fits. */
  lemma {:induction false} EachPassExact(s: seq<ChatMessage>, i: nat)
    requires i <= |s| && CallFree(s)
    ensures EachPassKeeps(s, i) <==> AllFit(s, i)
    decreases |s| - i
  {
    hide ReorderAt, Fits, CallFree;
    if i < |s| {
      var m := ReorderAt(s, i);
      PassExact(s, i);
      AllFitStep(s, i);
      hide AllFit;
      if multiset(m) == multiset(s) {
        SameResults(s, m);
        EachPassExact(m, i + 1);
      }
    }
  }

  /** Where tool results carry no calls and every block fits, converting and reordering loses nothing. */
  lemma FittingLosesNothing(items: seq<APIMessage>)
    requires CallFree(Converted(items)) && forall j | 0 <= j < |items| :: Fits(Converted(items), j)
    ensures multiset(Reorder(Converted(items), 0)) == multiset(Converted(items))
  {
    PassesExact(Converted(items), 0);
  }

  /** Where they are different too, it loses nothing only then. */
  lemma LossExact(items: seq<APIMessage>)
    requires CallFree(Converted(items)) && DifferentResults(Converted(items))
    ensures multiset(Reorder(Converted(items), 0)) == multiset(Converted(items)) <==>
            forall j | 0 <= j < |items| :: Fits(Converted(items), j)
  {
    PassesExact(Converted(items), 0);
  }

  /** Two blocks, each of which loses a result, may make up for each other when results are repeated. */
  lemma LossesMayCancel() returns (items: seq<APIMessage>)
    ensures forall m | m in items :: PlainOk(m)
    ensures CallFree(Converted(items)) && !DifferentResults(Converted(items)) && !Fits(Converted(items), 0)
    ensures multiset(Reorder(Converted(items), 0)) == multiset(Converted(items))
  {
    var call := ToolCall(CallId("x"), "function", "f", true);
    assert Text("1") != Text("2") by { assert "1"[0] != "2"[0]; }
    var c := APIMessage("assistant", Null, [call, call], CallId(""), "g");
    var a, b := APIMessage("tool", Text("1"), [], CallId("x"), "f"), APIMessage("tool", Text("2"), [], CallId("x"), "f");
    items := [c, a, b, c, b, a];
    assert forall m | m in items :: PlainOk(m);
    hide *;
    var s := Converted(items);
    NotTool(items);
    ConvertsCalls(items, 0);
    ConvertsToTool(items, 1);
    ConvertsToTool(items, 2);
    KeepsContent(items, 1);
    KeepsContent(items, 2);
    SameConverted(items, 0, 3);
    SameConverted(items, 1, 5);
    SameConverted(items, 2, 4);
    Cancels(s, call);
  }

  lemma SameConverted(items: seq<APIMessage>, k: nat, l: nat)
    requires k < |items| && l < |items| && items[k] == items[l] && items[k].name != ""
    ensures Converted(items)[k] == Converted(items)[l]
  {
    hide NamesUpTo;
  }

  lemma Cancels(s: seq<ChatMessage>, call: ToolCall)
    requires |s| == 6 && s[0] == s[3] && s[1] == s[5] && s[2] == s[4] && s[1] != s[2]
    requires s[0].calls == [call, call] && !s[0].role.Tool? && s[1].role.Tool? && s[2].role.Tool?
    requires s[1].calls == s[2].calls == [] && s[1].callId == s[2].callId == call.id
    ensures CallFree(s) && !DifferentResults(s) && !Fits(s, 0) && multiset(Reorder(s, 0)) == multiset(s)
  {
    var t := s[1 := s[2]];
    var u := t[4 := s[1]];
    assert CallFree(s);
    hide *;
    OneAnswerTwice(s, 0, call);
    LastTwice(s, 0, call);
    LastTwice(t, 3, call);
    Swapped(s, s[1], s[2]);
    TwoPasses(s, t, u);
  }

  lemma Swapped(s: seq<ChatMessage>, a: ChatMessage, b: ChatMessage)
    requires |s| == 6 && s[1] == s[5] == a && s[4] == b && a != b && a.role.Tool?
    ensures multiset(s[1 := b][4 := a]) == multiset(s) && !DifferentResults(s)
  {
    var t := s[1 := b];
    assert multiset(t) == multiset(s) - multiset{a} + multiset{b};
    assert multiset(t[4 := a]) == multiset(t) - multiset{b} + multiset{a};
    assert t[5] in multiset(t);
    assert multiset(s)[a] == multiset(t)[a] + 1;
    assert a in multiset(s);
  }

  lemma TwoPasses(s: seq<ChatMessage>, t: seq<ChatMessage>, u: seq<ChatMessage>)
    requires |s| == |t| == |u| == 6 && ReorderAt(s, 0) == t && ReorderAt(t, 3) == u
    requires t[1].calls == t[2].calls == u[4].calls == u[5].calls == []
    ensures Reorder(s, 0) == u
  {
    hide *;
    NoCalls(t, 1);
    NoCalls(t, 2);
    NoCalls(u, 4);
    NoCalls(u, 5);
    ReorderStep(s, 0);
    ReorderStep(t, 1);
    ReorderStep(t, 2);
    ReorderStep(t, 3);
    ReorderStep(u, 4);
    ReorderStep(u, 5);
    ReorderDone(u);
  }

  lemma NoCalls(s: seq<ChatMessage>, i: nat)
    requires i < |s| && s[i].calls == []
    ensures ReorderAt(s, i) == s
  {
  }

  /** Two calls with one ID, answered by two results: the last of them is found for both. */
  lemma LastTwice(s: seq<ChatMessage>, i: nat, call: ToolCall)
    requires i + 2 < |s| && s[i].calls == [call, call] && s[i + 1].role.Tool? && s[i + 2].role.Tool?
    requires s[i + 1].callId == s[i + 2].callId == call.id
    ensures Complete(s, i) && Sorted(s, i) == [s[i + 2], s[i + 2]]
    ensures ReorderAt(s, i) == s[i + 1 := s[i + 2]]
  {
    assert ById(s, i, 1) == ById(s, i, 0)[call.id := s[i + 1]];
    assert ById(s, i, 2) == ById(s, i, 1)[call.id := s[i + 2]];
    hide ById;
    assert Sorted(s, i) == [s[i + 2], s[i + 2]];
    hide Sorted;
  }

  lemma OneAnswerTwice(s: seq<ChatMessage>, i: nat, call: ToolCall)
    requires i + 2 < |s| && s[i].calls == [call, call] && s[i + 1].role.Tool? && s[i + 2].role.Tool?
    requires s[i + 1].callId == s[i + 2].callId == call.id && s[i + 1] != s[i + 2]
    ensures !Fits(s, i)
  {
    LastTwice(s, i, call);
    assert !Agree(s, i + 1, i + 2);
  }

  /** Two calls with one ID: only the last of their results is left, twice. */
  lemma RepeatedIdLosesAResult() returns (items: seq<APIMessage>)
    ensures forall m | m in items :: PlainOk(m)
    ensures CallFree(Converted(items)) && DifferentResults(Converted(items))
    ensures multiset(Reorder(Converted(items), 0)) != multiset(Converted(items))
  {
    var call := ToolCall(CallId("x"), "function", "f", true);
    var first, second := Text("1"), Text("2");
    assert first != second by { assert "1"[0] != "2"[0]; }
    items := [APIMessage("assistant", Null, [call, call], CallId(""), ""),
              APIMessage("tool", first, [], CallId("x"), "f"), APIMessage("tool", second, [], CallId("x"), "f")];
    assert forall m | m in items :: PlainOk(m);
    hide *;
    var s := Converted(items);
    KeepsContent(items, 1);
    KeepsContent(items, 2);
    ConvertsCalls(items, 0);
    ConvertsToTool(items, 1);
    ConvertsToTool(items, 2);
    NotTool(items);
    OneAnswerTwice(s, 0, call);
    ThreePlain(s);
    LossExact(items);
  }

  lemma KeepsContent(items: seq<APIMessage>, k: nat)
    requires k < |items|
    ensures Converted(items)[k] == Convert(items, k) && Convert(items, k).content == items[k].content
  {
    hide NamesUpTo;
  }

  lemma ThreePlain(s: seq<ChatMessage>)
    requires |s| == 3 && !s[0].role.Tool? && s[1].calls == s[2].calls == [] && s[1] != s[2]
    ensures CallFree(s) && DifferentResults(s)
  {
    assert s == [s[0], s[1], s[2]];
  }

  lemma NotTool(items: seq<APIMessage>)
    requires |items| > 0 && items[0].role == "assistant"
    ensures Convert(items, 0).role.Assistant?
  {
    hide NamesUpTo;
    assert Lower("assistant") == "assistant";
    assert "assistant"[0] != "developer"[0];
  }
}
