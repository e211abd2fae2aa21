/**
 The tool-call contract of the chat API: server/openai_contract.go accepts or
 rejects a conversation, server/openai_requests.go converts it and moves tool
 results into the order of their calls.
 */
module ToolMessages {
  import opened Wrappers
  import opened Lists

  /** A tool-call ID as the client or the model wrote it. */
  datatype CallId = CallId(text: string)

  datatype ToolCall = ToolCall(id: CallId, kind: string, name: string, argsObject: bool)

  datatype Part = TextPart(text: string) | ImagePart(decodes: bool) | BadPart

  /** The JSON content value; Odd is any value that is neither string, array nor null. */
  datatype Content = Null | Text(text: string) | Parts(parts: seq<Part>) | Odd

  datatype APIMessage = APIMessage(role: string, content: Content, calls: seq<ToolCall>, callId: CallId, name: string)

  datatype Reject =
    | UnsupportedRole | NoPendingCall | NameMismatch | ResultsMissing | ContentRequired | InvalidContent
    | CallsNeedAssistant | InvalidCall | MissingResults

  const ROLES: set<string> := {"system", "developer", "user", "assistant", "tool"}

  // What a message must satisfy by itself

  predicate PartOk(p: Part) {
    p.TextPart? || (p.ImagePart? && p.decodes)
  }

  predicate ContentOk(m: APIMessage) {
    match m.content
    case Null => m.role == "assistant"
    case Text(_) => true
    case Parts(ps) => forall p | p in ps :: PartOk(p)
    case Odd => false
  }

  predicate IsTool(m: APIMessage) {
    m.role == "tool"
  }

  predicate CallOk(c: ToolCall) {
    c.id.text != "" && c.kind == "function" && c.name != "" && c.argsObject
  }

  predicate PlainOk(m: APIMessage) {
    && m.role in ROLES
    && ContentOk(m)
    && (m.calls != [] ==> m.role == "assistant")
    && forall c | c in m.calls :: CallOk(c)
  }

  /**
   What a message must satisfy by itself: one of five roles; text, parts that are
   text or images that decode, or, for an assistant, nothing; and calls only from
   an assistant, each a named function with an ID and an object of arguments.
   */
  lemma PlainExact(m: APIMessage)
    ensures PlainOk(m) <==>
            && (m.role == "system" || m.role == "developer" || m.role == "user" || m.role == "assistant" || m.role == "tool")
            && !m.content.Odd? && (m.content.Null? ==> m.role == "assistant")
            && (m.content.Parts? ==> forall p | p in m.content.parts :: !p.BadPart? && (p.ImagePart? ==> p.decodes))
            && (m.role != "assistant" ==> m.calls == [])
            && forall a | 0 <= a < |m.calls| ::
                 m.calls[a].id.text != "" && m.calls[a].kind == "function" && m.calls[a].name != "" && m.calls[a].argsObject
  {
    assert (forall c | c in m.calls :: CallOk(c)) <==> forall a | 0 <= a < |m.calls| :: CallOk(m.calls[a]);
  }

  // What the conversation must satisfy as a whole

  function Ids(calls: seq<ToolCall>): (r: seq<CallId>)
    ensures |r| == |calls| && forall a | 0 <= a < |calls| :: r[a] == calls[a].id
  {
    seq(|calls|, a requires 0 <= a < |calls| => calls[a].id)
  }

  function ResultIds(ms: seq<APIMessage>): (r: seq<CallId>)
    ensures |r| == |ms| && forall k | 0 <= k < |ms| :: r[k] == ms[k].callId
  {
    seq(|ms|, k requires 0 <= k < |ms| => ms[k].callId)
  }

  /** Every call ID occurs once in the whole conversation. */
  ghost predicate UniqueIds(ms: seq<APIMessage>) {
    forall i, a, j, b | 0 <= i < |ms| && 0 <= a < |ms[i].calls| && 0 <= j < |ms| && 0 <= b < |ms[j].calls| &&
      ms[i].calls[a].id == ms[j].calls[b].id :: i == j && a == b
  }

  /** The calls of message i are answered by exactly the next messages, in any order. */
  ghost predicate Answered(ms: seq<APIMessage>, i: nat)
    requires i < |ms|
  {
    var n := |ms[i].calls|;
    && i + n < |ms|
    && (forall k | i < k <= i + n :: IsTool(ms[k]))
    && multiset(ResultIds(ms[i + 1..i + 1 + n])) == multiset(Ids(ms[i].calls))
  }

  /** Message j is a result for a call of message i and does not contradict its name. */
  predicate Answers(ms: seq<APIMessage>, i: nat, j: nat)
    requires i < |ms| && j < |ms|
  {
    && i < j <= i + |ms[i].calls|
    && (ms[j].name != "" ==> forall c | c in ms[i].calls && c.id == ms[j].callId :: c.name == ms[j].name)
  }

  ghost predicate Disciplined(ms: seq<APIMessage>) {
    && UniqueIds(ms)
    && (forall i | 0 <= i < |ms| && ms[i].calls != [] :: Answered(ms, i))
    && (forall j | 0 <= j < |ms| && IsTool(ms[j]) :: exists i | 0 <= i < j :: Answers(ms, i, j))
  }

  ghost predicate Accepts(ms: seq<APIMessage>) {
    (forall i | 0 <= i < |ms| :: PlainOk(ms[i])) && Disciplined(ms)
  }

  // The scan of validateMessages after k messages

  function AllIds(ms: seq<APIMessage>): set<CallId> {
    if ms == [] then {} else AllIds(ms[..|ms| - 1]) + Elems(Ids(ms[|ms| - 1].calls))
  }

  lemma {:induction false} AllIdsMember(ms: seq<APIMessage>, i: nat, a: nat)
    requires i < |ms| && a < |ms[i].calls|
    ensures ms[i].calls[a].id in AllIds(ms)
  {
    if i == |ms| - 1 {
      assert Ids(ms[i].calls)[a] in Elems(Ids(ms[i].calls));
    } else {
      AllIdsMember(ms[..|ms| - 1], i, a);
    }
  }

  lemma {:induction false} AllIdsAvoid(ms: seq<APIMessage>, id: CallId)
    requires forall i, a | 0 <= i < |ms| && 0 <= a < |ms[i].calls| :: ms[i].calls[a].id != id
    ensures id !in AllIds(ms)
  {
    if ms != [] {
      var n := |ms| - 1;
      assert forall i | 0 <= i < n :: ms[..n][i] == ms[i];
      AllIdsAvoid(ms[..n], id);
      assert forall a | 0 <= a < |ms[n].calls| :: Ids(ms[n].calls)[a] == ms[n].calls[a].id != id;
    }
  }

  /** The results already given to message b. */
  function Given(ms: seq<APIMessage>, b: nat, k: nat): seq<CallId>
    requires b < k <= |ms|
  {
    ResultIds(ms[b + 1..k])
  }

  /** Message b is the last one with calls; `pending` are the calls of b still without a result. */
  ghost predicate Block(ms: seq<APIMessage>, k: nat, b: int, pending: set<CallId>)
    requires k <= |ms|
  {
    && -1 <= b < k
    && (forall i | b < i < k :: ms[i].calls == [])
    && (if b < 0 then pending == {}
        else
          && ms[b].calls != [] && NoDup(Ids(ms[b].calls))
          && (if k <= b + |ms[b].calls| then
                && (forall j | b < j < k :: IsTool(ms[j]))
                && NoDup(Given(ms, b, k))
                && Elems(Given(ms, b, k)) <= Elems(Ids(ms[b].calls))
                && pending == Elems(Ids(ms[b].calls)) - Elems(Given(ms, b, k))
              else
                pending == {} && Answered(ms, b)))
  }

  ghost predicate ScannedIds(ms: seq<APIMessage>, k: nat, names: map<CallId, string>, seen: set<CallId>) {
    && k <= |ms|
    && (forall i | 0 <= i < k :: PlainOk(ms[i]))
    && UniqueIds(ms[..k])
    && seen == AllIds(ms[..k]) == names.Keys
    && (forall i, a | 0 <= i < k && 0 <= a < |ms[i].calls| ::
          ms[i].calls[a].id in names && names[ms[i].calls[a].id] == ms[i].calls[a].name)
  }

  ghost predicate ScannedBlocks(ms: seq<APIMessage>, k: nat, b: int, pending: set<CallId>) {
    && k <= |ms|
    && Block(ms, k, b, pending)
    && (forall i | 0 <= i < b && ms[i].calls != [] :: Answered(ms, i))
    && (forall j | 0 <= j < k && IsTool(ms[j]) :: exists i | 0 <= i < j :: Answers(ms, i, j))
  }

  ghost predicate Scanned(ms: seq<APIMessage>, k: nat, b: int, pending: set<CallId>, names: map<CallId, string>, seen: set<CallId>) {
    ScannedIds(ms, k, names, seen) && ScannedBlocks(ms, k, b, pending)
  }

  /** What the code asks of message k. */
  predicate StepOk(m: APIMessage, pending: set<CallId>, names: map<CallId, string>, seen: set<CallId>) {
    && PlainOk(m)
    && (if IsTool(m) then
          m.callId in pending && (m.name != "" ==> m.callId in names && m.name == names[m.callId])
        else pending == {})
    && NoDup(Ids(m.calls)) && Elems(Ids(m.calls)) !! seen
  }

  /** The ID sets drawn from a full block. */
  lemma PendingSize(ms: seq<APIMessage>, k: nat, b: nat, pending: set<CallId>)
    requires k <= |ms| && b < k && Block(ms, k, b, pending) && k <= b + |ms[b].calls|
    ensures |pending| == b + 1 + |ms[b].calls| - k
  {
    ElemsSize(Ids(ms[b].calls));
    ElemsSize(Given(ms, b, k));
  }

  /** In an accepted conversation the next message passes the code's tests. */
  lemma AcceptedStep(ms: seq<APIMessage>, k: nat, b: int, pending: set<CallId>, names: map<CallId, string>, seen: set<CallId>)
    requires Scanned(ms, k, b, pending, names, seen) && k < |ms|
    ensures Accepts(ms) ==> StepOk(ms[k], pending, names, seen)
  {
    if Accepts(ms) {
      AcceptedIds(ms, k, seen);
      assert b >= 0 ==> Answered(ms, b);
      if IsTool(ms[k]) {
        AcceptedOwner(ms, k, b, pending, names, seen);
        AcceptedTool(ms, k, b, pending, names);
      }
    }
  }

  lemma AcceptedIds(ms: seq<APIMessage>, k: nat, seen: set<CallId>)
    requires Accepts(ms) && k < |ms| && seen == AllIds(ms[..k])
    ensures NoDup(Ids(ms[k].calls)) && Elems(Ids(ms[k].calls)) !! seen
  {
    forall id | id in Elems(Ids(ms[k].calls)) ensures id !in seen {
      var a :| 0 <= a < |ms[k].calls| && Ids(ms[k].calls)[a] == id;
      assert ms[k].calls[a].id == id;
      AllIdsAvoid(ms[..k], id);
    }
  }

  /** A result that comes next belongs to the last message with calls. */
  lemma AcceptedOwner(ms: seq<APIMessage>, k: nat, b: int, pending: set<CallId>, names: map<CallId, string>, seen: set<CallId>)
    requires Scanned(ms, k, b, pending, names, seen) && k < |ms| && Accepts(ms) && IsTool(ms[k])
    ensures b >= 0 && Answers(ms, b, k)
  {
    hide ContentOk, CallOk, NoDup, Elems;
    var i :| 0 <= i < k && Answers(ms, i, k);
    assert Answered(ms, i);
    assert b >= 0 ==> PlainOk(ms[b]);
  }

  lemma AcceptedTool(ms: seq<APIMessage>, k: nat, b: nat, pending: set<CallId>, names: map<CallId, string>)
    requires k < |ms| && b < k && Block(ms, k, b, pending) && Answered(ms, b) && Answers(ms, b, k)
    requires forall c | c in ms[b].calls :: c.id in names && names[c.id] == c.name
    ensures ms[k].callId in pending && (ms[k].name != "" ==> ms[k].callId in names && ms[k].name == names[ms[k].callId])
  {
    var n := |ms[b].calls|;
    var results := ResultIds(ms[b + 1..b + 1 + n]);
    PermutationNoDup(Ids(ms[b].calls), results);
    var id := ms[k].callId;
    assert id == results[k - b - 1] && id in Elems(results);
    assert Given(ms, b, k) == results[..k - b - 1];
    assert id !in Given(ms, b, k);
    var a :| 0 <= a < n && Ids(ms[b].calls)[a] == id;
    assert ms[b].calls[a] in ms[b].calls;
  }

  // One message that passes keeps the picture of the scan.

  lemma ScanIds(ms: seq<APIMessage>, k: nat, seen: set<CallId>)
    requires k < |ms| && UniqueIds(ms[..k]) && seen == AllIds(ms[..k])
    requires NoDup(Ids(ms[k].calls)) && Elems(Ids(ms[k].calls)) !! seen
    ensures UniqueIds(ms[..k + 1]) && AllIds(ms[..k + 1]) == seen + Elems(Ids(ms[k].calls))
  {
    var ms' := ms[..k + 1];
    assert ms'[..k] == ms[..k];
    forall i, a, j, b | 0 <= i < |ms'| && 0 <= a < |ms'[i].calls| && 0 <= j < |ms'| && 0 <= b < |ms'[j].calls| &&
      ms'[i].calls[a].id == ms'[j].calls[b].id
      ensures i == j && a == b
    {
      assert i == k ==> Ids(ms[k].calls)[a] in Elems(Ids(ms[k].calls));
      assert j == k ==> Ids(ms[k].calls)[b] in Elems(Ids(ms[k].calls));
      if i < k { AllIdsMember(ms[..k], i, a); }
      if j < k { AllIdsMember(ms[..k], j, b); }
    }
  }

  /** A message that is not a result closes the open block and may open the next. */
  lemma ScanOpen(ms: seq<APIMessage>, k: nat, b: int)
    requires k < |ms| && Block(ms, k, b, {}) && !IsTool(ms[k]) && NoDup(Ids(ms[k].calls))
    ensures Block(ms, k + 1, if ms[k].calls == [] then b else k, Elems(Ids(ms[k].calls)))
    ensures b >= 0 ==> Answered(ms, b)
  {
    if ms[k].calls != [] {
      assert Given(ms, k, k + 1) == [];
    }
    if b >= 0 && k <= b + |ms[b].calls| {
      PendingSize(ms, k, b, {});
    }
  }

  /** A result takes its call off the pending set; the last one completes the block. */
  lemma ScanResult(ms: seq<APIMessage>, k: nat, b: nat, pending: set<CallId>)
    requires k < |ms| && b < k && Block(ms, k, b, pending) && k <= b + |ms[b].calls|
    requires IsTool(ms[k]) && ms[k].calls == [] && ms[k].callId in pending
    ensures Block(ms, k + 1, b, pending - {ms[k].callId})
  {
    var id := ms[k].callId;
    var ids, given, given' := Ids(ms[b].calls), Given(ms, b, k), Given(ms, b, k + 1);
    assert given' == given + [id];
    assert id !in Elems(given);
    assert NoDup(given') && Elems(given') == Elems(given) + {id} && Elems(given') <= Elems(ids);
    if k == b + |ms[b].calls| {
      AllGiven(ids, given');
    }
  }

  lemma AllGiven(ids: seq<CallId>, results: seq<CallId>)
    requires NoDup(ids) && NoDup(results) && |results| == |ids| && Elems(results) <= Elems(ids)
    ensures multiset(results) == multiset(ids) && Elems(results) == Elems(ids)
  {
    ElemsSize(ids);
    ElemsSize(results);
    assert |Elems(ids) - Elems(results)| == 0;
    assert Elems(ids) == Elems(results) + (Elems(ids) - Elems(results));
    NoDupPermutation(ids, results);
  }

  /** The names map after the calls; a later call with the same ID wins. */
  function AddNames(names: map<CallId, string>, calls: seq<ToolCall>): (r: map<CallId, string>)
    ensures r.Keys == names.Keys + Elems(Ids(calls))
  {
    if calls == [] then names
    else
      var n := |calls| - 1;
      assert Ids(calls) == Ids(calls[..n]) + [calls[n].id];
      assert Elems(Ids(calls)) == Elems(Ids(calls[..n])) + {calls[n].id};
      AddNames(names, calls[..n])[calls[n].id := calls[n].name]
  }

  lemma {:induction false} AddNamesAt(names: map<CallId, string>, calls: seq<ToolCall>)
    requires NoDup(Ids(calls))
    ensures forall a | 0 <= a < |calls| :: AddNames(names, calls)[Ids(calls)[a]] == calls[a].name
    ensures forall id | id in names && id !in Elems(Ids(calls)) :: AddNames(names, calls)[id] == names[id]
  {
    if calls != [] {
      var n := |calls| - 1;
      assert Ids(calls) == Ids(calls[..n]) + [calls[n].id];
      AddNamesAt(names, calls[..n]);
    }
  }

  /** One more call that passes the tests. */
  lemma CallMore(calls: seq<ToolCall>, a: nat, names: map<CallId, string>)
    requires a < |calls| && NoDup(Ids(calls)[..a]) && calls[a].id !in Elems(Ids(calls)[..a])
    ensures NoDup(Ids(calls)[..a + 1]) && Elems(Ids(calls)[..a + 1]) == Elems(Ids(calls)[..a]) + {calls[a].id}
    ensures AddNames(names, calls[..a + 1]) == AddNames(names, calls[..a])[calls[a].id := calls[a].name]
  {
    var ids := Ids(calls);
    assert ids[..a + 1] == ids[..a] + [calls[a].id];
    assert calls[..a + 1][..a] == calls[..a];
  }

  /** A call that is malformed, repeats an ID or uses one seen before spoils the whole list. */
  lemma CallFails(calls: seq<ToolCall>, a: nat, seen: set<CallId>)
    requires a < |calls| && (!CallOk(calls[a]) || calls[a].id in Elems(Ids(calls)[..a]) || calls[a].id in seen)
    ensures !((forall c | c in calls :: CallOk(c)) && NoDup(Ids(calls)) && Elems(Ids(calls)) !! seen)
  {
    hide CallOk;
    var ids := Ids(calls);
    assert calls[a] in calls && ids[a] in Elems(ids);
    if calls[a].id in Elems(ids[..a]) {
      var k :| 0 <= k < a && ids[..a][k] == ids[a];
    }
  }

  /** The first a calls passed the tests, and the three maps hold their IDs and names. */
  ghost predicate Passed(calls: seq<ToolCall>, a: nat, seen: set<CallId>, names: map<CallId, string>,
                         seen': set<CallId>, names': map<CallId, string>, pending: set<CallId>)
    requires a <= |calls|
  {
    && (forall i | 0 <= i < a :: CallOk(calls[i]))
    && NoDup(Ids(calls)[..a]) && pending == Elems(Ids(calls)[..a]) && pending !! seen
    && seen' == seen + pending && names' == AddNames(names, calls[..a])
  }

  lemma PassedNone(calls: seq<ToolCall>, seen: set<CallId>, names: map<CallId, string>)
    ensures Passed(calls, 0, seen, names, seen, names, {})
  {
  }

  lemma PassedMore(calls: seq<ToolCall>, a: nat, seen: set<CallId>, names: map<CallId, string>,
                   seen': set<CallId>, names': map<CallId, string>, pending: set<CallId>)
    requires a < |calls| && Passed(calls, a, seen, names, seen', names', pending)
    requires CallOk(calls[a]) && calls[a].id !in seen'
    ensures var id := calls[a].id;
            Passed(calls, a + 1, seen, names, seen' + {id}, names'[id := calls[a].name], pending + {id})
  {
    CallMore(calls, a, names);
    hide CallOk, NoDup, Elems, Ids, AddNames;
  }

  lemma PassedAll(calls: seq<ToolCall>, seen: set<CallId>, names: map<CallId, string>,
                  seen': set<CallId>, names': map<CallId, string>, pending: set<CallId>)
    requires Passed(calls, |calls|, seen, names, seen', names', pending)
    ensures (forall c | c in calls :: CallOk(c)) && NoDup(Ids(calls)) && Elems(Ids(calls)) !! seen
    ensures seen' == seen + Elems(Ids(calls)) && pending == Elems(Ids(calls)) && names' == AddNames(names, calls)
  {
    hide CallOk, NoDup, Elems, AddNames;
    assert Ids(calls)[..|calls|] == Ids(calls) && calls[..|calls|] == calls;
  }

  lemma PassedFails(calls: seq<ToolCall>, a: nat, seen: set<CallId>, names: map<CallId, string>,
                    seen': set<CallId>, names': map<CallId, string>, pending: set<CallId>)
    requires a < |calls| && Passed(calls, a, seen, names, seen', names', pending)
    requires !CallOk(calls[a]) || calls[a].id in seen'
    ensures !((forall c | c in calls :: CallOk(c)) && NoDup(Ids(calls)) && Elems(Ids(calls)) !! seen)
  {
    hide CallOk, NoDup, Elems, Ids, AddNames;
    CallFails(calls, a, seen);
  }

  /** The call loop of validateMessages; it runs only when no result is pending. */
  method CheckCalls(calls: seq<ToolCall>, seen: set<CallId>, names: map<CallId, string>)
    returns (ok: bool, seen': set<CallId>, names': map<CallId, string>, pending: set<CallId>)
    ensures ok <==> (forall c | c in calls :: CallOk(c)) && NoDup(Ids(calls)) && Elems(Ids(calls)) !! seen
    ensures ok ==> seen' == seen + Elems(Ids(calls)) && pending == Elems(Ids(calls)) && names' == AddNames(names, calls)
  {
    hide *;
    seen', names', pending := seen, names, {};
    PassedNone(calls, seen, names);
    for a := 0 to |calls|
      invariant Passed(calls, a, seen, names, seen', names', pending)
    {
      var call := calls[a];
      if !CallOk(call) || call.id in seen' {
        PassedFails(calls, a, seen, names, seen', names', pending);
        ok := false;
        return;
      }
      PassedMore(calls, a, seen, names, seen', names', pending);
      seen', pending := seen' + {call.id}, pending + {call.id};
      names' := names'[call.id := call.name];
    }
    PassedAll(calls, seen, names, seen', names', pending);
    ok := true;
  }

  lemma ScanNames(ms: seq<APIMessage>, k: nat, names: map<CallId, string>)
    requires k < |ms| && NoDup(Ids(ms[k].calls)) && Elems(Ids(ms[k].calls)) !! names.Keys
    requires forall i, a | 0 <= i < k && 0 <= a < |ms[i].calls| ::
      ms[i].calls[a].id in names && names[ms[i].calls[a].id] == ms[i].calls[a].name
    ensures var names' := AddNames(names, ms[k].calls);
      forall i, a | 0 <= i < k + 1 && 0 <= a < |ms[i].calls| ::
        ms[i].calls[a].id in names' && names'[ms[i].calls[a].id] == ms[i].calls[a].name
  {
    AddNamesAt(names, ms[k].calls);
    var names' := AddNames(names, ms[k].calls);
    forall i, a | 0 <= i < k + 1 && 0 <= a < |ms[i].calls|
      ensures ms[i].calls[a].id in names' && names'[ms[i].calls[a].id] == ms[i].calls[a].name
    {
      if i == k { assert Ids(ms[k].calls)[a] in Elems(Ids(ms[k].calls)); }
    }
  }

  function NextBlock(m: APIMessage, k: nat, b: int): int {
    if m.calls == [] then b else k
  }

  function NextPending(m: APIMessage, pending: set<CallId>): set<CallId> {
    (if IsTool(m) then pending - {m.callId} else pending) + Elems(Ids(m.calls))
  }

  lemma ScanStep(ms: seq<APIMessage>, k: nat, b: int, pending: set<CallId>, names: map<CallId, string>, seen: set<CallId>)
    requires k < |ms| && Scanned(ms, k, b, pending, names, seen) && StepOk(ms[k], pending, names, seen)
    ensures Scanned(ms, k + 1, NextBlock(ms[k], k, b), NextPending(ms[k], pending),
                    AddNames(names, ms[k].calls), seen + Elems(Ids(ms[k].calls)))
  {
    ScanStepIds(ms, k, pending, names, seen);
    ScanStepBlocks(ms, k, b, pending, names, seen);
  }

  lemma ScanStepIds(ms: seq<APIMessage>, k: nat, pending: set<CallId>, names: map<CallId, string>, seen: set<CallId>)
    requires k < |ms| && ScannedIds(ms, k, names, seen) && StepOk(ms[k], pending, names, seen)
    ensures ScannedIds(ms, k + 1, AddNames(names, ms[k].calls), seen + Elems(Ids(ms[k].calls)))
  {
    ScanIds(ms, k, seen);
    ScanNames(ms, k, names);
  }

  lemma ScanStepResult(ms: seq<APIMessage>, k: nat, b: int, pending: set<CallId>, names: map<CallId, string>, seen: set<CallId>)
    requires k < |ms| && Scanned(ms, k, b, pending, names, seen) && StepOk(ms[k], pending, names, seen) && IsTool(ms[k])
    ensures ScannedBlocks(ms, k + 1, NextBlock(ms[k], k, b), NextPending(ms[k], pending))
  {
    var m := ms[k];
    assert Ids(m.calls) == [];
    assert b >= 0 && k <= b + |ms[b].calls|;
    ResultAnswers(ms, k, b, names);
    assert NextPending(m, pending) == pending - {m.callId};
    ScanResult(ms, k, b, pending);
  }

  lemma ScanStepBlocks(ms: seq<APIMessage>, k: nat, b: int, pending: set<CallId>, names: map<CallId, string>, seen: set<CallId>)
    requires k < |ms| && Scanned(ms, k, b, pending, names, seen) && StepOk(ms[k], pending, names, seen)
    ensures ScannedBlocks(ms, k + 1, NextBlock(ms[k], k, b), NextPending(ms[k], pending))
  {
    var m := ms[k];
    if IsTool(m) {
      hide *;
      ScanStepResult(ms, k, b, pending, names, seen);
    } else {
      ScanOpen(ms, k, b);
      assert NextPending(m, pending) == Elems(Ids(m.calls));
    }
  }

  lemma ResultAnswers(ms: seq<APIMessage>, k: nat, b: nat, names: map<CallId, string>)
    requires b < k < |ms| && k <= b + |ms[b].calls|
    requires forall a | 0 <= a < |ms[b].calls| ::
      ms[b].calls[a].id in names && names[ms[b].calls[a].id] == ms[b].calls[a].name
    requires ms[k].name != "" ==> ms[k].callId in names && ms[k].name == names[ms[k].callId]
    ensures Answers(ms, b, k)
  {
  }

  lemma ScanEnd(ms: seq<APIMessage>, b: int, pending: set<CallId>, names: map<CallId, string>, seen: set<CallId>)
    requires Scanned(ms, |ms|, b, pending, names, seen)
    ensures Accepts(ms) <==> pending == {}
  {
    assert ms[..|ms|] == ms;
    if b >= 0 && |ms| <= b + |ms[b].calls| {
      PendingSize(ms, |ms|, b, pending);
    }
  }

  /** Accepts exactly the conversations that keep the tool-call discipline. */
  method ValidateMessages(ms: seq<APIMessage>) returns (r: Option<Reject>)
    ensures r == None <==> Accepts(ms)
  {
    var pending: set<CallId>, names: map<CallId, string>, seen: set<CallId> := {}, map[], {};
    ghost var b := -1;
    assert Scanned(ms, 0, b, pending, names, seen);
    for k := 0 to |ms|
      invariant Scanned(ms, k, b, pending, names, seen)
    {
      var m := ms[k];
      AcceptedStep(ms, k, b, pending, names, seen);
      ghost var pending0 := pending;
      if m.role !in ROLES { return Some(UnsupportedRole); }
      if IsTool(m) {
        if m.callId !in pending { return Some(NoPendingCall); }
        if m.name != "" && m.callId in names && m.name != names[m.callId] { return Some(NameMismatch); }
        pending := pending - {m.callId};
      } else if pending != {} {
        return Some(ResultsMissing);
      }
      if m.role != "assistant" && m.content.Null? { return Some(ContentRequired); }
      if !ContentOk(m) { return Some(InvalidContent); }
      if m.calls != [] && m.role != "assistant" { return Some(CallsNeedAssistant); }
      var ok, seen', names', added := CheckCalls(m.calls, seen, names);
      if !ok { return Some(InvalidCall); }
      ScanStep(ms, k, b, pending0, names, seen);
      b := NextBlock(m, k, b);
      pending, names, seen := pending + added, names', seen';
    }
    ScanEnd(ms, b, pending, names, seen);
    return if pending != {} then Some(MissingResults) else None;
  }
}
