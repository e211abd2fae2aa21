/**
 The conversion of an API conversation to chat messages
 (server/openai_requests.go), which moves complete blocks of tool results into
 the order of their calls.
 */
module ToolOrder {
  import opened Lists
  import opened ToolMessages

  datatype ChatRole = System | User | Assistant | Tool

  datatype ChatMessage = ChatMessage(role: ChatRole, content: Content, calls: seq<ToolCall>, callId: CallId, name: string)

  function LowerChar(c: char): char {
    if 'A' <= c <= 'Z' then (c as int + 32) as char else c
  }

  function Lower(s: string): string {
    seq(|s|, i requires 0 <= i < |s| => LowerChar(s[i]))
  }

  function RoleOf(role: string): ChatRole {
    var r := Lower(role);
    if r == "system" || r == "developer" then System
    else if r == "assistant" then Assistant
    else if r == "tool" || r == "function" || r == "ipython" then Tool
    else User
  }

  /** The same word up to the case of ASCII letters. */
  predicate SameWord(role: string, word: string) {
    |role| == |word| && forall i | 0 <= i < |word| :: role[i] == word[i] || ('A' <= role[i] <= 'Z' && role[i] as int + 32 == word[i] as int)
  }

  lemma LowerIs(role: string, word: string)
    requires forall i | 0 <= i < |word| :: 'a' <= word[i] <= 'z'
    ensures Lower(role) == word <==> SameWord(role, word)
  {
    if SameWord(role, word) {
      assert forall i | 0 <= i < |word| :: Lower(role)[i] == word[i];
    }
    if Lower(role) == word {
      forall i | 0 <= i < |word| ensures role[i] == word[i] || ('A' <= role[i] <= 'Z' && role[i] as int + 32 == word[i] as int) {
        assert LowerChar(role[i]) == word[i];
      }
    }
  }

  /** The table of roles: in any case, two names for system, three for tool, one for assistant, and everything else is a user. */
  lemma RoleTable(role: string)
    ensures RoleOf(role) == System <==> SameWord(role, "system") || SameWord(role, "developer")
    ensures RoleOf(role) == Assistant <==> SameWord(role, "assistant")
    ensures RoleOf(role) == Tool <==> SameWord(role, "tool") || SameWord(role, "function") || SameWord(role, "ipython")
    ensures SameWord(role, "user") ==> RoleOf(role) == User
  {
    LowerIs(role, "system");
    LowerIs(role, "developer");
    LowerIs(role, "assistant");
    LowerIs(role, "tool");
    LowerIs(role, "function");
    LowerIs(role, "ipython");
    LowerIs(role, "user");
    Apart(Lower(role));
    hide SameWord, Lower;
  }

  lemma Apart(r: string)
    ensures r == "system" ==> |r| == 6 && r[0] == 's'
    ensures r == "developer" || r == "assistant" ==> |r| == 9
    ensures r == "developer" ==> r[0] == 'd'
    ensures r == "tool" || r == "user" ==> |r| == 4
    ensures r == "user" ==> r[0] == 'u'
    ensures r == "function" ==> |r| == 8
    ensures r == "ipython" ==> |r| == 7
  {
  }

  /** The function names of the first k messages' calls, by call ID. */
  function NamesUpTo(items: seq<APIMessage>, k: nat): map<CallId, string>
    requires k <= |items|
  {
    if k == 0 then map[] else AddNames(NamesUpTo(items, k - 1), items[k - 1].calls)
  }

  /** A tool result without a name takes the name of the call it answers, if one came before. */
  function Convert(items: seq<APIMessage>, k: nat): ChatMessage
    requires k < |items|
  {
    var m, names := items[k], NamesUpTo(items, k + 1);
    var name := if IsTool(m) && m.name == "" then (if m.callId in names then names[m.callId] else "") else m.name;
    ChatMessage(RoleOf(m.role), m.content, m.calls, m.callId, name)
  }

  function Converted(items: seq<APIMessage>): (r: seq<ChatMessage>)
    ensures |r| == |items| && forall k | 0 <= k < |items| :: r[k] == Convert(items, k)
  {
    seq(|items|, k requires 0 <= k < |items| => Convert(items, k))
  }

  predicate Named(calls: seq<ToolCall>, a: nat, id: CallId) {
    a < |calls| && calls[a].id == id
  }

  /** A call with this ID stands in message j at place a. */
  predicate CallAt(items: seq<APIMessage>, j: nat, a: nat, id: CallId) {
    j < |items| && Named(items[j].calls, a, id)
  }

  /** No later call of the first k messages has this ID. */
  ghost predicate LastCall(items: seq<APIMessage>, k: nat, j: nat, a: nat, id: CallId) {
    && j < k && CallAt(items, j, a, id)
    && forall i: nat, b: nat {:trigger CallAt(items, i, b, id)} | CallAt(items, i, b, id) && i < k :: i < j || (i == j && b <= a)
  }

  /** None of the first k messages has a call with this ID. */
  ghost predicate NoCall(items: seq<APIMessage>, k: nat, id: CallId) {
    forall i: nat, b: nat {:trigger CallAt(items, i, b, id)} | i < k :: !CallAt(items, i, b, id)
  }

  lemma AddNamesNone(names: map<CallId, string>, calls: seq<ToolCall>, id: CallId)
    requires forall b: nat {:trigger Named(calls, b, id)} :: !Named(calls, b, id)
    ensures id in AddNames(names, calls) <==> id in names
    ensures id in names ==> AddNames(names, calls)[id] == names[id]
  {
    if calls != [] {
      var n := |calls| - 1;
      assert !Named(calls, n, id);
      forall b: nat ensures !Named(calls[..n], b, id) {
        assert !Named(calls, b, id);
      }
      AddNamesNone(names, calls[..n], id);
    }
  }

  lemma AddNamesLast(names: map<CallId, string>, calls: seq<ToolCall>, a: nat, id: CallId)
    requires Named(calls, a, id) && forall b: nat {:trigger Named(calls, b, id)} | Named(calls, b, id) :: b <= a
    ensures id in AddNames(names, calls) && AddNames(names, calls)[id] == calls[a].name
  {
    var n := |calls| - 1;
    if a < n {
      assert !Named(calls, n, id);
      forall b: nat | Named(calls[..n], b, id) ensures b <= a {
        assert Named(calls, b, id);
      }
      AddNamesLast(names, calls[..n], a, id);
    }
  }

  lemma {:induction false} NamesNone(items: seq<APIMessage>, k: nat, id: CallId)
    requires k <= |items| && NoCall(items, k, id)
    ensures id !in NamesUpTo(items, k)
  {
    if k > 0 {
      var calls := items[k - 1].calls;
      forall b: nat ensures !Named(calls, b, id) {
        assert !CallAt(items, k - 1, b, id);
      }
      NamesNone(items, k - 1, id);
      AddNamesNone(NamesUpTo(items, k - 1), calls, id);
    }
  }

  lemma {:induction false} NamesLast(items: seq<APIMessage>, k: nat, j: nat, a: nat, id: CallId)
    requires k <= |items| && LastCall(items, k, j, a, id)
    ensures id in NamesUpTo(items, k) && NamesUpTo(items, k)[id] == items[j].calls[a].name
  {
    var calls := items[k - 1].calls;
    forall b: nat ensures Named(calls, b, id) ==> j == k - 1 && b <= a {
      if Named(calls, b, id) {
        assert CallAt(items, k - 1, b, id);
      }
    }
    if j < k - 1 {
      NamesLast(items, k - 1, j, a, id);
      AddNamesNone(NamesUpTo(items, k - 1), calls, id);
    } else {
      AddNamesLast(NamesUpTo(items, k - 1), calls, a, id);
    }
  }

  /**
   What conversion changes: the role by the table, and the name of a tool result
   that has none, which becomes that of the last call with its ID up to here, if any.
   */
  lemma ConversionKeeps(items: seq<APIMessage>, k: nat, j: nat, a: nat)
    requires k < |items|
    ensures var m, r := items[k], Convert(items, k);
            && r.content == m.content && r.calls == m.calls && r.callId == m.callId && r.role == RoleOf(m.role)
            && (m.role != "tool" || m.name != "" ==> r.name == m.name)
            && (m.role == "tool" && m.name == "" ==>
                  && (LastCall(items, k + 1, j, a, m.callId) ==> j < |items| && a < |items[j].calls| && r.name == items[j].calls[a].name)
                  && (NoCall(items, k + 1, m.callId) ==> r.name == ""))
  {
    var id := items[k].callId;
    if LastCall(items, k + 1, j, a, id) {
      NamesLast(items, k + 1, j, a, id);
    }
    if NoCall(items, k + 1, id) {
      NamesNone(items, k + 1, id);
    }
    hide NamesUpTo, RoleOf;
  }

  /** The tool messages among the k messages after i, by call ID; the last one wins. */
  function ById(s: seq<ChatMessage>, i: nat, k: nat): map<CallId, ChatMessage>
    requires i + k < |s|
  {
    if k == 0 then map[]
    else
      var before := ById(s, i, k - 1);
      if s[i + k].role.Tool? then before[s[i + k].callId := s[i + k]] else before
  }

  predicate Complete(s: seq<ChatMessage>, i: nat)
    requires i < |s| && i + |s[i].calls| < |s|
  {
    forall a | 0 <= a < |s[i].calls| :: s[i].calls[a].id in ById(s, i, |s[i].calls|)
  }

  /** The results after message i in call order. */
  function Sorted(s: seq<ChatMessage>, i: nat): (r: seq<ChatMessage>)
    requires i < |s| && i + |s[i].calls| < |s| && Complete(s, i)
    ensures |r| == |s[i].calls|
  {
    var n := |s[i].calls|;
    seq(n, a requires 0 <= a < n => ById(s, i, n)[s[i].calls[a].id])
  }

  function ReorderAt(s: seq<ChatMessage>, i: nat): (r: seq<ChatMessage>)
    requires i < |s|
    ensures |r| == |s|
  {
    var n := |s[i].calls|;
    if n >= 2 && i + n < |s| && Complete(s, i) then s[..i + 1] + Sorted(s, i) + s[i + 1 + n..] else s
  }

  function Reorder(s: seq<ChatMessage>, i: nat): (r: seq<ChatMessage>)
    requires i <= |s|
    ensures |r| == |s|
    decreases |s| - i
  {
    if i == |s| then s else Reorder(ReorderAt(s, i), i + 1)
  }

  // The two loops of apiMessages, their inner loops as methods of their own

  method RecordNames(names: map<CallId, string>, calls: seq<ToolCall>) returns (r: map<CallId, string>)
    ensures r == AddNames(names, calls)
  {
    r := names;
    for a := 0 to |calls|
      invariant r == AddNames(names, calls[..a])
    {
      assert calls[..a + 1][..a] == calls[..a];
      r := r[calls[a].id := calls[a].name];
    }
    assert calls[..|calls|] == calls;
  }

  /** The message for item k, with the names known up to it. */
  method ConvertOne(items: seq<APIMessage>, k: nat, names: map<CallId, string>) returns (r: ChatMessage)
    requires k < |items| && names == NamesUpTo(items, k + 1)
    ensures r == Convert(items, k)
  {
    var m := items[k];
    var name := m.name;
    if IsTool(m) && name == "" {
      name := if m.callId in names then names[m.callId] else "";
    }
    r := ChatMessage(RoleOf(m.role), m.content, m.calls, m.callId, name);
  }

  method Fill(items: seq<APIMessage>, out: array<ChatMessage>)
    requires out.Length == |items|
    modifies out
    ensures out[..] == Converted(items)
  {
    hide Convert, AddNames;
    var names: map<CallId, string> := map[];
    for k := 0 to |items|
      invariant names == NamesUpTo(items, k)
      invariant forall j | 0 <= j < k :: out[j] == Convert(items, j)
    {
      names := RecordNames(names, items[k].calls);
      out[k] := ConvertOne(items, k, names);
    }
  }

  method Collect(out: array<ChatMessage>, i: nat) returns (byId: map<CallId, ChatMessage>, complete: bool)
    requires i < out.Length && i + |out[i].calls| < out.Length
    ensures byId == ById(out[..], i, |out[i].calls|) && complete == Complete(out[..], i)
  {
    var calls := out[i].calls;
    byId := map[];
    for j := 1 to |calls| + 1
      invariant byId == ById(out[..], i, j - 1)
    {
      var m := out[i + j];
      if m.role.Tool? { byId := byId[m.callId := m]; }
    }
    complete := true;
    for a := 0 to |calls|
      invariant complete <==> forall x | 0 <= x < a :: calls[x].id in byId
    {
      if calls[a].id !in byId { complete := false; }
    }
  }

  lemma Replaced(s: seq<ChatMessage>, i: nat, r: seq<ChatMessage>)
    requires i < |s| == |r| && |s[i].calls| >= 2 && i + |s[i].calls| < |s| && Complete(s, i)
    requires forall k | 0 <= k < |s| :: r[k] == if i < k <= i + |s[i].calls| then Sorted(s, i)[k - i - 1] else s[k]
    ensures r == ReorderAt(s, i)
  {
    hide Complete, Sorted;
  }

  lemma NotReplaced(s: seq<ChatMessage>, i: nat)
    requires i < |s| && (|s[i].calls| < 2 || i + |s[i].calls| >= |s| || !Complete(s, i))
    ensures ReorderAt(s, i) == s
  {
    hide Complete;
  }

  method ReorderInPlace(out: array<ChatMessage>, i: nat)
    requires i < out.Length
    modifies out
    ensures out[..] == ReorderAt(old(out[..]), i)
  {
    ghost var s := out[..];
    var calls := out[i].calls;
    var n := |calls|;
    hide ById, Named, LowerChar;
    if n < 2 || i + n >= out.Length {
      NotReplaced(s, i);
      return;
    }
    hide ReorderAt;
    var byId, complete := Collect(out, i);
    if complete {
      for a := 0 to n
        invariant forall k | 0 <= k < out.Length ::
          out[k] == if i < k <= i + a then Sorted(s, i)[k - i - 1] else s[k]
      {
        out[i + a + 1] := byId[calls[a].id];
      }
      Replaced(s, i, out[..]);
    } else {
      NotReplaced(s, i);
    }
  }

  method ApiMessages(items: seq<APIMessage>) returns (out: array<ChatMessage>)
    ensures fresh(out) && out[..] == Reorder(Converted(items), 0)
  {
    var blank := ChatMessage(User, Null, [], CallId(""), "");
    out := new ChatMessage[|items|](_ => blank);
    Fill(items, out);
    hide Converted, Reorder;
    ReorderAll(out);
  }

  method ReorderAll(out: array<ChatMessage>)
    modifies out
    ensures out[..] == Reorder(old(out[..]), 0)
  {
    hide Reorder, ReorderAt;
    ghost var whole := Reorder(out[..], 0);
    for i := 0 to out.Length
      invariant Reorder(out[..], i) == whole
    {
      ReorderStep(out[..], i);
      ReorderInPlace(out, i);
    }
    ReorderDone(out[..]);
  }

  lemma ReorderStep(s: seq<ChatMessage>, i: nat)
    requires i < |s|
    ensures Reorder(s, i) == Reorder(ReorderAt(s, i), i + 1)
  {
  }

  lemma ReorderDone(s: seq<ChatMessage>)
    ensures Reorder(s, |s|) == s
  {
  }

  // What a converted, accepted conversation looks like

  function AnswerIds(ms: seq<ChatMessage>): (r: seq<CallId>)
    ensures |r| == |ms| && forall k | 0 <= k < |ms| :: r[k] == ms[k].callId
  {
    seq(|ms|, k requires 0 <= k < |ms| => ms[k].callId)
  }

  function Results(s: seq<ChatMessage>, i: nat): seq<ChatMessage>
    requires i < |s| && i + |s[i].calls| < |s|
  {
    s[i + 1..i + 1 + |s[i].calls|]
  }

  /** The n calls of message i are followed by their n results, each under its function's name. */
  ghost predicate Block(s: seq<ChatMessage>, i: nat)
    requires i < |s|
  {
    var calls := s[i].calls;
    && i + |calls| < |s|
    && (forall k | i < k <= i + |calls| :: s[k].role.Tool? && s[k].calls == [])
    && NoDup(Ids(calls))
    && multiset(AnswerIds(Results(s, i))) == multiset(Ids(calls))
    && (forall k, a | i < k <= i + |calls| && 0 <= a < |calls| && s[k].callId == calls[a].id :: s[k].name == calls[a].name)
  }

  ghost predicate WellFormed(s: seq<ChatMessage>) {
    forall i {:trigger Block(s, i)} | 0 <= i < |s| && s[i].calls != [] :: Block(s, i)
  }

  /** The j-th result carries the ID and the function name of the j-th call. */
  predicate InCallOrder(s: seq<ChatMessage>, i: nat)
    requires i < |s|
  {
    i + |s[i].calls| < |s| &&
    forall a | 0 <= a < |s[i].calls| :: s[i + 1 + a].callId == s[i].calls[a].id && s[i + 1 + a].name == s[i].calls[a].name
  }

  lemma {:induction false} ByIdHolds(s: seq<ChatMessage>, i: nat, k: nat)
    requires i + k < |s| && forall j | i < j <= i + k :: s[j].role.Tool?
    requires forall j, j' | i < j < j' <= i + k :: s[j].callId != s[j'].callId
    ensures forall j | i < j <= i + k :: s[j].callId in ById(s, i, k) && ById(s, i, k)[s[j].callId] == s[j]
  {
    if k > 0 {
      ByIdHolds(s, i, k - 1);
    }
  }

  /** In a block every call finds its result. */
  lemma BlockFinds(s: seq<ChatMessage>, i: nat)
    requires i < |s| && Block(s, i)
    ensures Complete(s, i)
    ensures forall a | 0 <= a < |s[i].calls| :: Sorted(s, i)[a].callId == s[i].calls[a].id && Sorted(s, i)[a] in Results(s, i)
  {
    var calls, rs := s[i].calls, Results(s, i);
    var n, ids, rids := |calls|, Ids(calls), AnswerIds(rs);
    PermutationNoDup(ids, rids);
    forall j | i < j <= i + n ensures s[j].callId == rids[j - i - 1] {}
    ByIdHolds(s, i, n);
    forall a | 0 <= a < n
      ensures ids[a] in ById(s, i, n) && ById(s, i, n)[ids[a]].callId == ids[a] && ById(s, i, n)[ids[a]] in rs
    {
      assert ids[a] in Elems(rids);
      var k :| 0 <= k < n && rids[k] == ids[a];
      assert s[i + 1 + k] == rs[k];
    }
  }

  /** Sorting a block: the results come in call order, and none is lost or doubled. */
  lemma SortedBlock(s: seq<ChatMessage>, i: nat)
    requires i < |s| && Block(s, i)
    ensures Complete(s, i) && multiset(Sorted(s, i)) == multiset(Results(s, i))
    ensures forall a | 0 <= a < |s[i].calls| :: Sorted(s, i)[a].callId == s[i].calls[a].id && Sorted(s, i)[a] in Results(s, i)
  {
    BlockFinds(s, i);
    PermutationNoDup(Ids(s[i].calls), AnswerIds(Results(s, i)));
    SameByIds(Sorted(s, i), Results(s, i), Ids(s[i].calls));
  }

  /** Two lists of messages with distinct IDs, the first drawn from the second, hold the same messages. */
  lemma SameByIds(sorted: seq<ChatMessage>, rs: seq<ChatMessage>, ids: seq<CallId>)
    requires |sorted| == |rs| == |ids| && NoDup(ids) && NoDup(AnswerIds(rs))
    requires forall a | 0 <= a < |sorted| :: sorted[a].callId == ids[a] && sorted[a] in rs
    ensures multiset(sorted) == multiset(rs)
  {
    assert NoDup(sorted);
    forall x, y | 0 <= x < y < |rs| ensures rs[x] != rs[y] {
      assert AnswerIds(rs)[x] != AnswerIds(rs)[y];
    }
    ElemsSize(sorted);
    ElemsSize(rs);
    assert Elems(sorted) <= Elems(rs);
    assert |Elems(rs) - Elems(sorted)| == 0;
    assert Elems(rs) == Elems(sorted) + (Elems(rs) - Elems(sorted));
    NoDupPermutation(rs, sorted);
  }

  /** Replacing the results of message i by a permutation of them. */
  lemma ReplaceResults(s: seq<ChatMessage>, i: nat, sorted: seq<ChatMessage>)
    requires i < |s| && i + |s[i].calls| < |s| && multiset(sorted) == multiset(Results(s, i))
    requires |sorted| == |s[i].calls|
    ensures var r := s[..i + 1] + sorted + s[i + 1 + |sorted|..];
      |r| == |s| && r[i] == s[i] && multiset(r) == multiset(s) && Results(r, i) == sorted
  {
    var n := |sorted|;
    var head, tail := s[..i + 1], s[i + 1 + n..];
    assert s == head + Results(s, i) + tail;
    assert multiset(head + sorted + tail) == multiset(head) + multiset(sorted) + multiset(tail);
    assert Results(head + sorted + tail, i) == sorted;
  }

  /** Only the results of message i change; they are now in call order. */
  ghost predicate Changed(s: seq<ChatMessage>, i: nat, r: seq<ChatMessage>)
    requires i < |s| && i + |s[i].calls| < |s|
  {
    && |r| == |s| && multiset(r) == multiset(s)
    && (forall k {:trigger r[k]} | 0 <= k < |s| && !(i < k <= i + |s[i].calls|) :: r[k] == s[k])
    && (forall a | 0 <= a < |s[i].calls| ::
          && r[i + 1 + a].role.Tool? && r[i + 1 + a].calls == []
          && r[i + 1 + a].callId == s[i].calls[a].id && r[i + 1 + a].name == s[i].calls[a].name)
  }

  lemma ReorderAtBlock(s: seq<ChatMessage>, i: nat)
    requires i < |s| && s[i].calls != [] && Block(s, i)
    ensures Changed(s, i, ReorderAt(s, i))
  {
    SortedBlock(s, i);
    var sorted := Sorted(s, i);
    ReplaceResults(s, i, sorted);
    ReplacedIds(s, i, s[..i + 1] + sorted + s[i + 1 + |sorted|..], sorted);
    if |s[i].calls| == 1 { SingleStays(s, i); }
  }

  /** A single result is in order, which is why the code skips it. */
  lemma SingleStays(s: seq<ChatMessage>, i: nat)
    requires i < |s| && |s[i].calls| == 1 && Block(s, i) && Complete(s, i) && Sorted(s, i)[0] in Results(s, i)
    ensures s[..i + 1] + Sorted(s, i) + s[i + 2..] == s
  {
    assert Results(s, i) == [s[i + 1]] && Sorted(s, i) == [Sorted(s, i)[0]];
  }

  lemma ReplacedIds(s: seq<ChatMessage>, i: nat, r: seq<ChatMessage>, sorted: seq<ChatMessage>)
    requires i < |s| && Block(s, i) && |sorted| == |s[i].calls|
    requires r == s[..i + 1] + sorted + s[i + 1 + |sorted|..] && multiset(r) == multiset(s)
    requires forall a | 0 <= a < |sorted| :: sorted[a].callId == s[i].calls[a].id && sorted[a] in Results(s, i)
    ensures Changed(s, i, r)
  {
    forall a | 0 <= a < |sorted|
      ensures r[i + 1 + a] == sorted[a] && sorted[a].role.Tool? && sorted[a].calls == [] && sorted[a].name == s[i].calls[a].name
    {
      var x :| 0 <= x < |sorted| && Results(s, i)[x] == sorted[a];
      assert s[i + 1 + x] == sorted[a];
    }
  }

  lemma ChangedStaysBlock(s: seq<ChatMessage>, i: nat, r: seq<ChatMessage>)
    requires i < |s| && s[i].calls != [] && Block(s, i) && Changed(s, i, r)
    ensures Block(r, i) && InCallOrder(r, i)
    ensures forall k | 0 <= k < |s| :: r[k].role == s[k].role && r[k].calls == s[k].calls
  {
    var n, ids := |s[i].calls|, Ids(s[i].calls);
    forall a | 0 <= a < n ensures r[i + 1 + a] == Results(r, i)[a] {}
    assert AnswerIds(Results(r, i)) == ids;
    forall k | i < k <= i + n ensures r[k] == r[i + 1 + (k - i - 1)] {}
    forall k, a | i < k <= i + n && 0 <= a < n && r[k].callId == r[i].calls[a].id ensures r[k].name == r[i].calls[a].name {
      assert r[i + 1 + (k - i - 1)].callId == ids[k - i - 1] && ids[a] == r[i].calls[a].id;
    }
  }

  lemma OtherBlock(s: seq<ChatMessage>, i: nat, r: seq<ChatMessage>, j: nat)
    requires i < |s| && j < |s| && i != j && s[i].calls != [] && s[j].calls != [] && Block(s, i) && Block(s, j)
    requires Changed(s, i, r)
    ensures Block(r, j) && (InCallOrder(s, j) ==> InCallOrder(r, j))
  {
    // neither message lies among the other's results, which have no calls
    assert forall k | j < k <= j + |s[j].calls| :: r[k] == s[k];
    assert Results(r, j) == Results(s, j);
  }

  ghost predicate OrderedBelow(s: seq<ChatMessage>, i: nat)
    requires i <= |s|
  {
    forall j {:trigger InCallOrder(s, j)} | 0 <= j < i && s[j].calls != [] :: InCallOrder(s, j)
  }

  /** Nothing but tool results moves, and nothing is lost or doubled. */
  ghost predicate Kept(s: seq<ChatMessage>, r: seq<ChatMessage>) {
    && |r| == |s| && multiset(r) == multiset(s)
    && forall k | 0 <= k < |s| :: r[k].calls == s[k].calls && r[k].role == s[k].role && (s[k].role.Tool? || r[k] == s[k])
  }

  /** Blocks do not overlap, so sorting one leaves the others as they are. */
  lemma BlocksKept(s: seq<ChatMessage>, i: nat, r: seq<ChatMessage>)
    requires i < |s| && s[i].calls != [] && WellFormed(s) && OrderedBelow(s, i) && Block(s, i) && Changed(s, i, r)
    ensures Settled(s, i + 1, r)
  {
    ChangedStaysBlock(s, i, r);
    forall j | 0 <= j < |r| && r[j].calls != [] ensures Block(r, j) && (j <= i ==> InCallOrder(r, j)) {
      if j != i {
        assert Block(s, j) && (j < i ==> InCallOrder(s, j));
        OtherBlock(s, i, r, j);
      }
    }
  }

  /** r is s with the blocks before i in call order. */
  ghost predicate Settled(s: seq<ChatMessage>, i: nat, r: seq<ChatMessage>) {
    i <= |s| && WellFormed(r) && Kept(s, r) && OrderedBelow(r, i)
  }

  lemma ReorderAtKeeps(s: seq<ChatMessage>, i: nat)
    requires i < |s| && Settled(s, i, s)
    ensures Settled(s, i + 1, ReorderAt(s, i))
  {
    if s[i].calls != [] {
      assert Block(s, i);
      ReorderAtBlock(s, i);
      BlocksKept(s, i, ReorderAt(s, i));
    }
  }

  lemma SettledAcross(s: seq<ChatMessage>, i: nat, m: seq<ChatMessage>, r: seq<ChatMessage>)
    requires Settled(s, i, m) && Settled(m, |m|, r)
    ensures Settled(s, |s|, r) && Settled(m, i, m)
  {
  }

  lemma SettledItself(s: seq<ChatMessage>, i: nat, m: seq<ChatMessage>)
    requires Settled(s, i, m)
    ensures |m| == |s| && Settled(m, i, m)
  {
  }

  lemma {:induction false} ReorderKeeps(s: seq<ChatMessage>, i: nat)
    requires i <= |s| && Settled(s, i, s)
    ensures Settled(s, |s|, Reorder(s, i))
    decreases |s| - i
  {
    hide *;
    if i < |s| {
      var m := ReorderAt(s, i);
      ReorderAtKeeps(s, i);
      SettledItself(s, i + 1, m);
      ReorderStep(s, i);
      ReorderKeeps(m, i + 1);
      SettledAcross(s, i + 1, m, Reorder(m, i + 1));
    } else {
      ReorderDone(s);
    }
  }

  /** Where every block is in call order already, nothing moves. */
  lemma {:induction false} ReorderIdle(s: seq<ChatMessage>, i: nat)
    requires WellFormed(s) && i <= |s| && OrderedBelow(s, |s|)
    ensures Reorder(s, i) == s
    decreases |s| - i
  {
    if i < |s| {
      if s[i].calls != [] {
        assert Block(s, i) && InCallOrder(s, i);
        SortedIdle(s, i);
      }
      ReorderIdle(s, i + 1);
    }
  }

  lemma SortedIdle(s: seq<ChatMessage>, i: nat)
    requires i < |s| && Block(s, i) && InCallOrder(s, i)
    ensures ReorderAt(s, i) == s
  {
    SortedIsResults(s, i);
    var rs := Results(s, i);
    assert s == s[..i + 1] + rs + s[i + 1 + |rs|..];
    assert |rs| == |s[i].calls|;
    hide Sorted, Block, InCallOrder, Results;
  }

  lemma PickSame(rs: seq<ChatMessage>, sorted: seq<ChatMessage>, ids: seq<CallId>)
    requires |rs| == |sorted| == |ids| && NoDup(ids)
    requires forall k | 0 <= k < |rs| :: rs[k].callId == ids[k]
    requires forall a | 0 <= a < |rs| :: sorted[a].callId == ids[a] && sorted[a] in rs
    ensures sorted == rs
  {
    hide NoDup;
    forall a | 0 <= a < |rs| ensures sorted[a] == rs[a] {
      PickAt(rs, sorted[a], ids, a);
    }
  }

  lemma PickAt(rs: seq<ChatMessage>, x: ChatMessage, ids: seq<CallId>, a: nat)
    requires a < |rs| == |ids| && NoDup(ids) && x in rs && x.callId == ids[a]
    requires forall k | 0 <= k < |rs| :: rs[k].callId == ids[k]
    ensures x == rs[a]
  {
    var k :| 0 <= k < |rs| && rs[k] == x;
    assert ids[k] == ids[a];
  }

  lemma SortedIsResults(s: seq<ChatMessage>, i: nat)
    requires i < |s| && Block(s, i) && InCallOrder(s, i)
    ensures Complete(s, i) && Sorted(s, i) == Results(s, i)
  {
    BlockFinds(s, i);
    hide *;
    PickSame(Results(s, i), Sorted(s, i), Ids(s[i].calls));
  }

  // Accepted conversations

  /** With unique IDs the recorded name of a call is that call's name. */
  lemma {:induction false} NamesUpToHolds(items: seq<APIMessage>, k: nat)
    requires UniqueIds(items) && k <= |items| && forall i | 0 <= i < |items| :: NoDup(Ids(items[i].calls))
    ensures forall i, a | 0 <= i < k && 0 <= a < |items[i].calls| ::
      items[i].calls[a].id in NamesUpTo(items, k) && NamesUpTo(items, k)[items[i].calls[a].id] == items[i].calls[a].name
  {
    if k > 0 {
      NamesUpToHolds(items, k - 1);
      var names, calls := NamesUpTo(items, k - 1), items[k - 1].calls;
      AddNamesAt(names, calls);
      forall i, a | 0 <= i < k && 0 <= a < |items[i].calls|
        ensures items[i].calls[a].id in NamesUpTo(items, k)
        ensures NamesUpTo(items, k)[items[i].calls[a].id] == items[i].calls[a].name
      {
        if i == k - 1 {
          assert Ids(calls)[a] in Elems(Ids(calls));
        } else {
          assert items[i].calls[a].id !in Elems(Ids(calls));
        }
      }
    }
  }

  lemma AcceptedConverts(items: seq<APIMessage>)
    requires Accepts(items)
    ensures WellFormed(Converted(items))
  {
    forall i | 0 <= i < |items| ensures NoDup(Ids(items[i].calls)) {}
    forall i | 0 <= i < |items| && Converted(items)[i].calls != [] ensures Block(Converted(items), i) {
      AcceptedBlock(items, i);
    }
  }

  /** A plain tool message converts to a tool message without calls. */
  lemma ConvertsToTool(items: seq<APIMessage>, k: nat)
    requires k < |items| && IsTool(items[k]) && PlainOk(items[k])
    ensures Convert(items, k).role.Tool? && Convert(items, k).calls == [] && Convert(items, k).callId == items[k].callId
  {
    hide NamesUpTo, ContentOk;
  }

  lemma SameResultIds(items: seq<APIMessage>, i: nat, n: nat)
    requires i + n < |items| && n == |items[i].calls|
    ensures AnswerIds(Results(Converted(items), i)) == ToolMessages.ResultIds(items[i + 1..i + 1 + n])
  {
    var a, b := AnswerIds(Results(Converted(items), i)), ToolMessages.ResultIds(items[i + 1..i + 1 + n]);
    forall k | 0 <= k < n ensures a[k] == b[k] {
      assert Converted(items)[i + 1 + k] == Convert(items, i + 1 + k);
    }
  }

  lemma AnsweredBlock(items: seq<APIMessage>, i: nat)
    requires Accepts(items) && i < |items| && items[i].calls != []
    ensures i + |items[i].calls| < |items| && Answered(items, i)
    ensures forall k | i < k <= i + |items[i].calls| :: IsTool(items[k]) && PlainOk(items[k])
    ensures multiset(ToolMessages.ResultIds(items[i + 1..i + 1 + |items[i].calls|])) == multiset(Ids(items[i].calls))
  {
    assert Answered(items, i);
  }

  lemma BlockFrom(s: seq<ChatMessage>, i: nat, ids: seq<CallId>)
    requires i < |s| && i + |s[i].calls| < |s| && NoDup(Ids(s[i].calls))
    requires forall k | i < k <= i + |s[i].calls| :: s[k].role.Tool? && s[k].calls == []
    requires AnswerIds(Results(s, i)) == ids && multiset(ids) == multiset(Ids(s[i].calls))
    requires forall k, a | i < k <= i + |s[i].calls| && 0 <= a < |s[i].calls| && s[k].callId == s[i].calls[a].id ::
               s[k].name == s[i].calls[a].name
    ensures Block(s, i)
  {
    hide NoDup, AnswerIds, Results, Ids;
  }

  lemma AcceptedBlock(items: seq<APIMessage>, i: nat)
    requires Accepts(items) && i < |items| && items[i].calls != []
    requires forall j | 0 <= j < |items| :: NoDup(Ids(items[j].calls))
    ensures Block(Converted(items), i)
  {
    hide *;
    AnsweredBlock(items, i);
    AcceptedNames(items, i);
    var s, n := Converted(items), |items[i].calls|;
    SameResultIds(items, i, n);
    ConvertsCalls(items, i);
    forall k | i < k <= i + n ensures s[k].role.Tool? && s[k].calls == [] && s[k].callId == items[k].callId {
      ConvertsToTool(items, k);
    }
    BlockFrom(s, i, ToolMessages.ResultIds(items[i + 1..i + 1 + n]));
  }

  lemma ConvertsCalls(items: seq<APIMessage>, k: nat)
    requires k < |items|
    ensures Converted(items)[k].calls == items[k].calls
  {
    hide NamesUpTo;
  }

  lemma AcceptedNames(items: seq<APIMessage>, i: nat)
    requires Accepts(items) && i < |items| && items[i].calls != []
    requires forall j | 0 <= j < |items| :: NoDup(Ids(items[j].calls))
    ensures forall k, a | i < k <= i + |items[i].calls| && 0 <= a < |items[i].calls| && items[k].callId == items[i].calls[a].id ::
      k < |items| && Convert(items, k).name == items[i].calls[a].name
  {
    AnsweredBlock(items, i);
    hide *;
    forall k, a | i < k <= i + |items[i].calls| && 0 <= a < |items[i].calls| && items[k].callId == items[i].calls[a].id
      ensures Convert(items, k).name == items[i].calls[a].name
    {
      ConvertedNameAt(items, i, k, a);
    }
  }

  lemma ConvertedNameAt(items: seq<APIMessage>, i: nat, k: nat, a: nat)
    requires Accepts(items) && i < k < |items| && a < |items[i].calls| && k <= i + |items[i].calls|
    requires IsTool(items[k]) && items[k].callId == items[i].calls[a].id
    requires forall j | 0 <= j < |items| :: NoDup(Ids(items[j].calls))
    ensures Convert(items, k).name == items[i].calls[a].name
  {
    hide *;
    NamesKnown(items, i, a, k + 1);
    AcceptedName(items, i, k, a);
    ConvertedName(items, k);
  }

  lemma ConvertedName(items: seq<APIMessage>, k: nat)
    requires k < |items| && IsTool(items[k])
    ensures Convert(items, k).name ==
            if items[k].name != "" then items[k].name
            else if items[k].callId in NamesUpTo(items, k + 1) then NamesUpTo(items, k + 1)[items[k].callId] else ""
  {
    hide NamesUpTo;
  }

  lemma NamesKnown(items: seq<APIMessage>, i: nat, a: nat, k: nat)
    requires Accepts(items) && i < k <= |items| && a < |items[i].calls|
    requires forall j | 0 <= j < |items| :: NoDup(Ids(items[j].calls))
    ensures items[i].calls[a].id in NamesUpTo(items, k) && NamesUpTo(items, k)[items[i].calls[a].id] == items[i].calls[a].name
  {
    assert UniqueIds(items);
    hide *;
    NamesUpToHolds(items, k);
  }

  /** A result that names its function names the one its call names. */
  lemma AcceptedName(items: seq<APIMessage>, i: nat, k: nat, a: nat)
    requires Accepts(items) && i < k < |items| && a < |items[i].calls| && k <= i + |items[i].calls|
    requires IsTool(items[k]) && items[k].callId == items[i].calls[a].id
    ensures items[k].name == "" || items[k].name == items[i].calls[a].name
  {
    var j :| 0 <= j < k && Answers(items, j, k);
    assert Answered(items, j) && Answered(items, i) && PlainOk(items[i]) && PlainOk(items[j]);
    assert i == j;
    assert items[i].calls[a] in items[i].calls;
  }

  /**
   On an accepted conversation the result is a permutation of the converted
   messages that moves only tool results, the j-th result of every block carries
   the ID and the name of the j-th call, and reordering again changes nothing.
   */
  lemma AcceptedOrder(items: seq<APIMessage>)
    requires Accepts(items)
    ensures var s, r := Converted(items), Reorder(Converted(items), 0);
      && Kept(s, r) && Reorder(r, 0) == r
      && forall j | 0 <= j < |s| && s[j].calls != [] :: InCallOrder(r, j)
  {
    var s := Converted(items);
    AcceptedConverts(items);
    ReorderKeeps(s, 0);
    ReorderIdle(Reorder(s, 0), 0);
  }
}
