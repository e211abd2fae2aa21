/**
 Request-scoped recall, chatmemory/session.go: a session over an abstract prompt
 planner. The planner, the cancellation of the request and the search are
 oracles; every use of the first two advances the session's clock.
 */
module ChatMemory {
  import opened ChatHistory
  import opened ChatTurns
  import opened Utf8
  import opened Wrappers

  datatype Mode = Full | Recent | AutoCompress | OtherMode

  datatype Gen = Gen(mode: Mode, maxTokens: int)

  datatype Info = Info(promptBudget: int, promptTokens: int, dropped: int, retained: int)

  datatype Hit = Hit(id: string, score: real)

  datatype Candidate = Candidate(record: Record, score: real)

  datatype Recall = Recall(indexed: nat, budget: int, added: int, sources: seq<Candidate>)

  datatype Prepared = Prepared(messages: seq<Message>, info: Info, recall: Option<Recall>)

  datatype Error = Cancelled | WrongMode | ChangedHistory | NewTurn | PlannerFailed | SearchFailed

  datatype Options = Options(limits: Limits, query: Bytes)

  datatype Env = Env(
    plan: (nat, seq<Message>, Gen) -> Option<(seq<Message>, Info)>,
    cancelled: nat -> bool,
    digest: Bytes -> string,
    find: (seq<Record>, Bytes) -> Option<seq<Hit>>,
    blank: Bytes -> bool,
    quote: (seq<Candidate>, Bytes) -> Bytes)

  const MAX_INT := 0x7fff_ffff_ffff_ffff
  const MAX_HITS := 32
  const MAX_QUERY := 8192

  // New

  datatype RawLimits = RawLimits(maxTokens: int, maxTurns: int, maxIndexedTurns: int, maxIndexBytes: int, maxTurnBytes: int)

  predicate Accepted(value: int, ceiling: int) {
    0 <= value <= ceiling
  }

  function Defaulted(value: int, fallback: int): int {
    if value == 0 then fallback else value
  }

  /** Zero limits take their defaults, limits outside their ceilings are refused. */
  function Resolve(l: RawLimits): (r: Option<Limits>)
    ensures r.Some? <==>
            && Accepted(l.maxTokens, 4096) && Accepted(l.maxTurns, 8) && Accepted(l.maxIndexedTurns, 1024)
            && Accepted(l.maxIndexBytes, 0x80_0000) && Accepted(l.maxTurnBytes, 0x10_0000)
    ensures r.Some? ==>
              && 1 <= r.value.maxTokens <= 4096 && 1 <= r.value.maxTurns <= 8 && 1 <= r.value.maxIndexedTurns <= 1024
              && 1 <= r.value.maxIndexBytes <= 0x80_0000 && 1 <= r.value.maxTurnBytes <= 0x10_0000
    ensures l == RawLimits(0, 0, 0, 0, 0) ==> r == Some(Limits(512, 3, 128, 1048576, 65536))
    ensures r.Some? ==>
              && (l.maxTokens != 0 ==> r.value.maxTokens == l.maxTokens) && (l.maxTurns != 0 ==> r.value.maxTurns == l.maxTurns)
              && (l.maxIndexedTurns != 0 ==> r.value.maxIndexedTurns == l.maxIndexedTurns)
              && (l.maxIndexBytes != 0 ==> r.value.maxIndexBytes == l.maxIndexBytes)
              && (l.maxTurnBytes != 0 ==> r.value.maxTurnBytes == l.maxTurnBytes)
  {
    if Accepted(l.maxTokens, 4096) && Accepted(l.maxTurns, 8) && Accepted(l.maxIndexedTurns, 1024)
       && Accepted(l.maxIndexBytes, 0x80_0000) && Accepted(l.maxTurnBytes, 0x10_0000)
    then Some(Limits(Defaulted(l.maxTokens, 512), Defaulted(l.maxTurns, 3), Defaulted(l.maxIndexedTurns, 128),
                     Defaulted(l.maxIndexBytes, 0x10_0000), Defaulted(l.maxTurnBytes, 0x1_0000)))
    else None
  }

  predicate RuneStart(b: byte) {
    !Continues(b)
  }

  /** A prefix of at most 8192 bytes, cut back over continuation bytes only. */
  ghost predicate CutOf(query: Bytes, r: Bytes) {
    && r <= query && |r| <= MAX_QUERY
    && (|query| <= MAX_QUERY ==> r == query)
    && (|query| > MAX_QUERY ==>
          && (r == [] || RuneStart(query[|r|]))
          && forall i | |r| < i <= MAX_QUERY :: !RuneStart(query[i]))
  }

  method BoundedQuery(query: Bytes) returns (r: Bytes)
    ensures CutOf(query, r)
  {
    if |query| <= MAX_QUERY {
      return query;
    }
    var end := MAX_QUERY;
    while end > 0 && !RuneStart(query[end])
      invariant 0 <= end <= MAX_QUERY
      invariant forall i | end < i <= MAX_QUERY :: !RuneStart(query[i])
    {
      end := end - 1;
    }
    r := query[..end];
  }

  // The environment

  function Fingerprint(env: Env, ms: seq<Message>): string {
    env.digest(Encode(ms))
  }

  /** The digest stands for FNV-128a: taken as injective on the encodings it is given. */
  ghost predicate Injective(env: Env) {
    forall a: Bytes, b: Bytes :: env.digest(a) == env.digest(b) ==> a == b
  }

  function Pinned(ms: seq<Message>): (n: nat)
    ensures n <= |ms|
  {
    if ms != [] && ms[0].role == System then 1 + Pinned(ms[1..]) else 0
  }

  /** When it drops messages, the planner keeps the leading system messages among those it retains. */
  ghost predicate GoodPlanner(env: Env) {
    forall t: nat, ms: seq<Message>, g: Gen {:trigger env.plan(t, ms, g)} ::
      var p := env.plan(t, ms, g);
      p.Some? && p.value.1.dropped > 0 ==> p.value.1.retained >= Pinned(ms)
  }

  ghost predicate Has(docs: seq<Record>, id: string) {
    exists k :: 0 <= k < |docs| && docs[k].id == id
  }

  /** The search returns indexed documents, best first, each at most once, and at most 32; ChatSearch proves it of the index. */
  ghost predicate GoodFind(env: Env) {
    forall docs: seq<Record>, q: Bytes {:trigger env.find(docs, q)} ::
      env.find(docs, q).Some? ==>
        var hits := env.find(docs, q).value;
        && |hits| <= MAX_HITS
        && (forall i | 0 <= i < |hits| :: Has(docs, hits[i].id))
        && (forall i, j | 0 <= i < j < |hits| :: hits[i].id != hits[j].id && hits[i].score >= hits[j].score)
  }

  /** Where the retained messages of the conversation begin. */
  function DroppedStart(ms: seq<Message>, info: Info): int {
    |ms| - (info.retained - Pinned(ms))
  }

  /** Of a conversation with n leading system messages, exactly the retained messages that are not these lie at or behind the boundary. */
  lemma BoundaryExact(ms: seq<Message>, info: Info, n: nat)
    requires n <= |ms| && (forall i | 0 <= i < n :: ms[i].role == System) && (n < |ms| ==> ms[n].role != System)
    ensures |ms| - DroppedStart(ms, info) == info.retained - n
    ensures n <= info.retained <= |ms| ==> n <= DroppedStart(ms, info) <= |ms| && |ms[DroppedStart(ms, info)..]| + n == info.retained
  {
    PinnedIs(ms, n);
  }

  lemma {:induction false} PinnedIs(ms: seq<Message>, n: nat)
    requires n <= |ms| && (forall i | 0 <= i < n :: ms[i].role == System) && (n < |ms| ==> ms[n].role != System)
    ensures Pinned(ms) == n
  {
    if n > 0 {
      PinnedIs(ms[1..], n - 1);
    }
  }

  // Injection

  /** Everything is as before except the content of the last user message. */
  ghost predicate OnlyLastUser(before: seq<Message>, after: seq<Message>) {
    && |after| == |before|
    && (forall i | 0 <= i < |before| :: after[i] == before[i].(content := after[i].content))
    && (forall i | 0 <= i < |before| && after[i] != before[i] ::
          before[i].role == User && forall j | i < j < |before| :: before[j].role != User)
  }

  function Inject(env: Env, ms: seq<Message>, sources: seq<Candidate>, n: nat): (r: seq<Message>)
    requires n <= |ms|
    ensures |r| == |ms|
  {
    if n == 0 then ms
    else if ms[n - 1].role == User then ms[n - 1 := ms[n - 1].(content := env.quote(sources, ms[n - 1].content))]
    else Inject(env, ms, sources, n - 1)
  }

  lemma {:induction false} InjectLast(env: Env, ms: seq<Message>, sources: seq<Candidate>, n: nat)
    requires n <= |ms| && forall i | n <= i < |ms| :: ms[i].role != User
    ensures OnlyLastUser(ms, Inject(env, ms, sources, n))
    ensures forall i | 0 <= i < |ms| && ms[i].role == User && (forall j | i < j < |ms| :: ms[j].role != User) ::
              Inject(env, ms, sources, n)[i].content == env.quote(sources, ms[i].content)
  {
    if n > 0 && ms[n - 1].role != User {
      InjectLast(env, ms, sources, n - 1);
    }
  }

  // The candidates of a request

  /** What is searched for: the configured query, or the start of the last user message. */
  ghost predicate QueryOf(opts: Options, ms: seq<Message>, query: Bytes) {
    if opts.query != [] then query == opts.query
    else if forall i | 0 <= i < |ms| :: ms[i].role != User then query == []
    else exists i :: 0 <= i < |ms| && ms[i].role == User && (forall j | i < j < |ms| :: ms[j].role != User) && CutOf(ms[i].content, query)
  }

  /** The hits of the search, best first, with the records they name; no record twice. */
  ghost predicate Found(env: Env, docs: seq<Record>, query: Bytes, candidates: seq<Candidate>) {
    && env.find(docs, query).Some?
    && var hits := env.find(docs, query).value;
       && |hits| == |candidates| <= MAX_HITS
       && (forall i | 0 <= i < |hits| ::
             candidates[i].record in docs && candidates[i].record.id == hits[i].id && candidates[i].score == hits[i].score)
       && (forall i, j | 0 <= i < j < |candidates| ::
             candidates[i].record != candidates[j].record && candidates[i].score >= candidates[j].score)
  }

  /** What search returns: the hits among the records of the scanned turns. */
  ghost predicate CandidatesOf(env: Env, ms: seq<Message>, boundary: int, limits: Limits, query: Bytes, candidates: seq<Candidate>, indexed: nat) {
    if boundary <= 0 || env.blank(query) then candidates == [] && indexed == 0
    else
      boundary <= |ms|
      && exists docs: seq<Record>, turns: seq<Turn> {:trigger Scanned(env, ms, boundary, limits, docs, turns)} ::
           Scanned(env, ms, boundary, limits, docs, turns) && |docs| == indexed && Found(env, docs, query, candidates)
  }

  lemma CandidatesFound(env: Env, ms: seq<Message>, boundary: nat, limits: Limits, docs: seq<Record>, turns: seq<Turn>,
                        query: Bytes, candidates: seq<Candidate>)
    requires 0 < boundary <= |ms| && !env.blank(query) && Scanned(env, ms, boundary, limits, docs, turns)
    requires Found(env, docs, query, candidates)
    ensures CandidatesOf(env, ms, boundary, limits, query, candidates, |docs|)
  {
    hide Scanned, Found;
  }

  ghost predicate Scanned(env: Env, ms: seq<Message>, boundary: nat, limits: Limits, docs: seq<Record>, turns: seq<Turn>)
    requires boundary <= |ms|
  {
    && Chain(ms, boundary, turns) && Bounded(ms, turns) && Reached(boundary, turns) <= |ms|
    && RecordsOf(ms, Indexed(ms, turns, limits, |turns|), x => Fingerprint(env, x), docs)
    && Finished(ms, boundary, turns, limits, |docs|)
  }

  // What Prepare promises

  /** The messages continue the session's first history with assistant and tool messages only. */
  predicate Continuation(prefix: seq<Message>, ms: seq<Message>) {
    prefix <= ms && forall i | |prefix| <= i < |ms| :: ms[i].role == Assistant || ms[i].role == Tool
  }

  /** The accepted candidates, in order. */
  ghost predicate PickedFrom(candidates: seq<Candidate>, picks: seq<nat>, sources: seq<Candidate>) {
    && |sources| == |picks|
    && (forall i | 0 <= i < |picks| :: picks[i] < |candidates| && sources[i] == candidates[picks[i]])
    && (forall i, j | 0 <= i < j < |picks| :: picks[i] < picks[j])
  }

  lemma PickMore(candidates: seq<Candidate>, picks: seq<nat>, sources: seq<Candidate>, i: nat)
    requires PickedFrom(candidates, picks, sources) && i < |candidates| && forall p | p in picks :: p < i
    ensures PickedFrom(candidates, picks + [i], sources + [candidates[i]])
  {
    forall k | 0 <= k < |picks| ensures picks[k] < i {
      assert picks[k] in picks;
    }
  }

  function Budget(limits: Limits, promptBudget: int): int {
    var eighth := if promptBudget >= 0 then promptBudget / 8 else -(-promptBudget / 8);
    if limits.maxTokens < eighth then limits.maxTokens else eighth
  }

  /** The largest budget within the token limit and an eighth of the prompt's. */
  lemma BudgetLargest(limits: Limits, promptBudget: int, b: int)
    ensures Budget(limits, promptBudget) <= limits.maxTokens
    ensures promptBudget >= 0 ==> 8 * Budget(limits, promptBudget) <= promptBudget
    ensures promptBudget >= 0 && b <= limits.maxTokens && 8 * b <= promptBudget ==> b <= Budget(limits, promptBudget)
    ensures promptBudget <= 0 ==> Budget(limits, promptBudget) <= 0
  {
  }

  /** The environment between two moments of the session's clock: the calls of one Prepare. */
  datatype Log = Log(env: Env, from: nat, to: nat) {
    ghost predicate Within(other: Log) {
      env == other.env && other.from <= from && to <= other.to
    }
  }

  /** One of these calls gave this answer. */
  ghost predicate Planned(log: Log, ms: seq<Message>, g: Gen, p: Option<(seq<Message>, Info)>) {
    exists t: nat {:trigger log.env.plan(t, ms, g)} :: log.from <= t < log.to && log.env.plan(t, ms, g) == p
  }

  /** The planner measured exactly these messages, whole, at this many tokens. */
  ghost predicate Measured(log: Log, ms: seq<Message>, maxTokens: int, tokens: int) {
    exists p :: Planned(log, ms, Gen(Full, maxTokens), Some(p)) && p.1.promptTokens == tokens
  }

  /**
   A recall: whole turns from before the dropped boundary, at most MaxTurns of
   them, the prompt within its budget and the added tokens within theirs; only
   the last user message of the reduced prompt differs. The selection is
   greedy: no candidate is left out that would have fitted.
   */
  ghost predicate Recalled(log: Log, limits: Limits, candidates: seq<Candidate>, ms: seq<Message>, g: Gen,
                           base: Info, r: Prepared, slim: seq<Message>, plain: int, picks: seq<nat>)
    requires r.recall.Some?
  {
    var recall := r.recall.value;
    && PickedFrom(candidates, picks, recall.sources)
    && 1 <= |recall.sources| <= limits.maxTurns
    && (forall i | 0 <= i < |recall.sources| :: recall.sources[i].record.turn.end <= DroppedStart(ms, base))
    && recall.budget == Budget(limits, base.promptBudget) && recall.budget > 0
    && r.info.promptBudget == base.promptBudget && r.info.promptTokens <= base.promptBudget
    && r.messages == Inject(log.env, slim, recall.sources, |slim|) && OnlyLastUser(slim, r.messages)
    && Measured(log, slim, g.maxTokens, plain) && Measured(log, r.messages, g.maxTokens, r.info.promptTokens)
    && recall.added == Added(r.info.promptTokens, plain) <= recall.budget
    && Reduced(log, ms, g.(maxTokens := g.maxTokens + recall.budget), slim)
    && Greedy(log, limits, Task(candidates, DroppedStart(ms, base), slim, plain, base.promptBudget, recall.budget), g,
              recall.sources, picks, |candidates|)
  }

  function Added(tokens: int, plain: int): (r: int)
    ensures r >= 0 && r >= tokens - plain && (r == 0 || r == tokens - plain)
  {
    if tokens > plain then tokens - plain else 0
  }

  /** What a selection is measured against. */
  datatype Task = Task(candidates: seq<Candidate>, boundary: int, slim: seq<Message>, plain: int, promptBudget: int, budget: int)

  /** With these excerpts the measured prompt breaks a bound. */
  ghost predicate TooLarge(log: Log, task: Task, g: Gen, sources: seq<Candidate>) {
    exists n {:trigger Measured(log, Inject(log.env, task.slim, sources, |task.slim|), g.maxTokens, n)} ::
      Measured(log, Inject(log.env, task.slim, sources, |task.slim|), g.maxTokens, n)
      && (n > task.promptBudget || Added(n, task.plain) > task.budget)
  }

  lemma Large(log: Log, task: Task, g: Gen, sources: seq<Candidate>, n: int)
    requires Measured(log, Inject(log.env, task.slim, sources, |task.slim|), g.maxTokens, n)
    requires n > task.promptBudget || Added(n, task.plain) > task.budget
    ensures TooLarge(log, task, g, sources)
  {
    hide Measured, Inject;
  }

  /** Candidate i was passed over: it is not before the boundary, or too large together with the better ones taken. */
  ghost predicate PassedOver(log: Log, task: Task, g: Gen, sources: seq<Candidate>, picks: seq<nat>, i: nat)
    requires |sources| == |picks| && i < |task.candidates|
  {
    || task.candidates[i].record.turn.end > task.boundary
    || exists k {:trigger sources[..k]} :: 0 <= k <= |picks|
         && (forall j | 0 <= j < k :: picks[j] < i) && (forall j | k <= j < |picks| :: i < picks[j])
         && TooLarge(log, task, g, sources[..k] + [task.candidates[i]])
  }

  /** Nothing else is left out among the first n, except behind the last turn that fits the number of turns. */
  ghost predicate Greedy(log: Log, limits: Limits, task: Task, g: Gen, sources: seq<Candidate>, picks: seq<nat>, n: nat)
    requires |sources| == |picks| && n <= |task.candidates|
  {
    forall i: nat {:trigger PassedOver(log, task, g, sources, picks, i)} | i < n ::
      i in picks || PassedOver(log, task, g, sources, picks, i) || (|picks| >= limits.maxTurns && forall p | p in picks :: p < i)
  }

  lemma PassedMore(log: Log, task: Task, g: Gen, sources: seq<Candidate>, picks: seq<nat>, i: nat, c: Candidate, p: nat)
    requires |sources| == |picks| && i < |task.candidates| && i < p && PassedOver(log, task, g, sources, picks, i)
    ensures PassedOver(log, task, g, sources + [c], picks + [p], i)
  {
    hide TooLarge;
    if task.candidates[i].record.turn.end <= task.boundary {
      var k :| 0 <= k <= |picks| && (forall j | 0 <= j < k :: picks[j] < i) && (forall j | k <= j < |picks| :: i < picks[j])
               && TooLarge(log, task, g, sources[..k] + [task.candidates[i]]);
      assert (sources + [c])[..k] == sources[..k];
    }
  }

  lemma GreedyTake(log: Log, limits: Limits, task: Task, g: Gen, sources: seq<Candidate>, picks: seq<nat>, n: nat)
    requires |sources| == |picks| < limits.maxTurns && n < |task.candidates| && Greedy(log, limits, task, g, sources, picks, n)
    ensures Greedy(log, limits, task, g, sources + [task.candidates[n]], picks + [n], n + 1)
  {
    hide PassedOver;
    forall i: nat | i < n && i !in picks ensures PassedOver(log, task, g, sources + [task.candidates[n]], picks + [n], i) {
      PassedMore(log, task, g, sources, picks, i, task.candidates[n], n);
    }
  }

  lemma GreedySkip(log: Log, limits: Limits, task: Task, g: Gen, sources: seq<Candidate>, picks: seq<nat>, n: nat)
    requires |sources| == |picks| && n < |task.candidates| && Greedy(log, limits, task, g, sources, picks, n)
    requires task.candidates[n].record.turn.end > task.boundary || TooLarge(log, task, g, sources + [task.candidates[n]])
    requires forall p | p in picks :: p < n
    ensures Greedy(log, limits, task, g, sources, picks, n + 1)
  {
    assert sources[..|picks|] == sources;
    hide TooLarge;
    forall j | 0 <= j < |picks| ensures picks[j] < n {
      assert picks[j] in picks;
    }
    assert PassedOver(log, task, g, sources, picks, n);
  }

  lemma GreedyFull(log: Log, limits: Limits, task: Task, g: Gen, sources: seq<Candidate>, picks: seq<nat>, n: nat)
    requires |sources| == |picks| && n <= |task.candidates| && Greedy(log, limits, task, g, sources, picks, n)
    requires |picks| >= limits.maxTurns && forall p | p in picks :: p < n
    ensures Greedy(log, limits, task, g, sources, picks, |task.candidates|)
  {
    hide PassedOver;
  }

  /** Why a prompt goes out without a recall: no room for one, no reserve, or no candidate that fits by itself. */
  ghost predicate NothingRecalled(log: Log, limits: Limits, candidates: seq<Candidate>, ms: seq<Message>, g: Gen, base: Info,
                                  slim: seq<Message>, plain: int) {
    var budget := Budget(limits, base.promptBudget);
    || budget <= 0 || g.maxTokens > MAX_INT - budget
    || Planned(log, ms, g.(maxTokens := g.maxTokens + budget), None)
    || (Reduced(log, ms, g.(maxTokens := g.maxTokens + budget), slim) && Measured(log, slim, g.maxTokens, plain)
        && Greedy(log, limits, Task(candidates, DroppedStart(ms, base), slim, plain, base.promptBudget, budget), g, [], [], |candidates|))
  }

  /** The planner reduced these messages to that prompt. */
  ghost predicate Reduced(log: Log, ms: seq<Message>, g: Gen, prompt: seq<Message>) {
    exists info :: Planned(log, ms, g, Some((prompt, info)))
  }

  // More calls take nothing back

  lemma PlannedWider(log: Log, log': Log, ms: seq<Message>, g: Gen, p: Option<(seq<Message>, Info)>)
    requires log.Within(log') && Planned(log, ms, g, p)
    ensures Planned(log', ms, g, p)
  {
  }

  lemma MeasuredWider(log: Log, log': Log, ms: seq<Message>, maxTokens: int, tokens: int)
    requires log.Within(log') && Measured(log, ms, maxTokens, tokens)
    ensures Measured(log', ms, maxTokens, tokens)
  {
    var p :| Planned(log, ms, Gen(Full, maxTokens), Some(p)) && p.1.promptTokens == tokens;
    PlannedWider(log, log', ms, Gen(Full, maxTokens), Some(p));
  }

  lemma ReducedWider(log: Log, log': Log, ms: seq<Message>, g: Gen, prompt: seq<Message>)
    requires log.Within(log') && Reduced(log, ms, g, prompt)
    ensures Reduced(log', ms, g, prompt)
  {
    var info :| Planned(log, ms, g, Some((prompt, info)));
    PlannedWider(log, log', ms, g, Some((prompt, info)));
  }

  lemma TooLargeWider(log: Log, log': Log, task: Task, g: Gen, sources: seq<Candidate>)
    requires log.Within(log') && TooLarge(log, task, g, sources)
    ensures TooLarge(log', task, g, sources)
  {
    var trial := Inject(log.env, task.slim, sources, |task.slim|);
    hide Measured, Inject;
    var n :| Measured(log, trial, g.maxTokens, n) && (n > task.promptBudget || Added(n, task.plain) > task.budget);
    MeasuredWider(log, log', trial, g.maxTokens, n);
  }

  lemma GreedyWider(log: Log, log': Log, limits: Limits, task: Task, g: Gen, sources: seq<Candidate>, picks: seq<nat>, n: nat)
    requires log.Within(log') && |sources| == |picks| && n <= |task.candidates| && Greedy(log, limits, task, g, sources, picks, n)
    ensures Greedy(log', limits, task, g, sources, picks, n)
  {
    hide TooLarge;
    forall i: nat | i < n && PassedOver(log, task, g, sources, picks, i) ensures PassedOver(log', task, g, sources, picks, i) {
      if task.candidates[i].record.turn.end <= task.boundary {
        var k :| 0 <= k <= |picks| && (forall j | 0 <= j < k :: picks[j] < i) && (forall j | k <= j < |picks| :: i < picks[j])
                 && TooLarge(log, task, g, sources[..k] + [task.candidates[i]]);
        TooLargeWider(log, log', task, g, sources[..k] + [task.candidates[i]]);
      }
    }
    hide PassedOver;
  }

  /** What has been accepted so far, the measured prompt that carries it, and that nothing else before candidate n fitted. */
  ghost predicate Chosen(log: Log, limits: Limits, task: Task, g: Gen, accepted: seq<Candidate>, selected: seq<Message>, tokens: int,
                         picks: seq<nat>, n: nat) {
    && PickedFrom(task.candidates, picks, accepted) && n <= |task.candidates|
    && (forall i | 0 <= i < |accepted| :: accepted[i].record.turn.end <= task.boundary)
    && (accepted != [] ==>
          && selected == Inject(log.env, task.slim, accepted, |task.slim|)
          && Measured(log, selected, g.maxTokens, tokens)
          && tokens <= task.promptBudget && Added(tokens, task.plain) <= task.budget)
    && Greedy(log, limits, task, g, accepted, picks, n)
  }

  lemma ChosenFirst(log: Log, limits: Limits, task: Task, g: Gen)
    ensures Chosen(log, limits, task, g, [], task.slim, task.plain, [], 0)
  {
  }

  lemma ChosenWider(log: Log, log': Log, limits: Limits, task: Task, g: Gen, accepted: seq<Candidate>, selected: seq<Message>,
                    tokens: int, picks: seq<nat>, n: nat)
    requires log.Within(log') && Chosen(log, limits, task, g, accepted, selected, tokens, picks, n)
    ensures Chosen(log', limits, task, g, accepted, selected, tokens, picks, n)
  {
    if accepted != [] {
      MeasuredWider(log, log', selected, g.maxTokens, tokens);
    }
    hide Greedy, Measured, Inject;
    GreedyWider(log, log', limits, task, g, accepted, picks, n);
  }

  lemma MeasuredAt(log: Log, ms: seq<Message>, maxTokens: int, t: nat)
    requires log.from <= t < log.to && log.env.plan(t, ms, Gen(Full, maxTokens)).Some?
    ensures Measured(log, ms, maxTokens, log.env.plan(t, ms, Gen(Full, maxTokens)).value.1.promptTokens)
  {
    var p := log.env.plan(t, ms, Gen(Full, maxTokens)).value;
    assert Planned(log, ms, Gen(Full, maxTokens), Some(p));
  }

  lemma PlannedAt(log: Log, ms: seq<Message>, g: Gen, t: nat)
    requires log.from <= t < log.to
    ensures Planned(log, ms, g, log.env.plan(t, ms, g))
  {
  }

  lemma ReducedBy(log: Log, ms: seq<Message>, g: Gen, prompt: seq<Message>, info: Info)
    requires Planned(log, ms, g, Some((prompt, info)))
    ensures Reduced(log, ms, g, prompt)
  {
  }

  lemma ChosenSkip(log: Log, limits: Limits, task: Task, g: Gen, accepted: seq<Candidate>, selected: seq<Message>, tokens: int,
                   picks: seq<nat>, n: nat)
    requires n < |task.candidates| && Chosen(log, limits, task, g, accepted, selected, tokens, picks, n)
    requires task.candidates[n].record.turn.end > task.boundary || TooLarge(log, task, g, accepted + [task.candidates[n]])
    requires forall p | p in picks :: p < n
    ensures Chosen(log, limits, task, g, accepted, selected, tokens, picks, n + 1)
  {
    hide Greedy, Measured, TooLarge, Inject;
    GreedySkip(log, limits, task, g, accepted, picks, n);
  }

  lemma ChosenTake(log: Log, limits: Limits, task: Task, g: Gen, accepted: seq<Candidate>, selected: seq<Message>, tokens: int,
                   picks: seq<nat>, n: nat, trial: seq<Message>, m: int)
    requires n < |task.candidates| && Chosen(log, limits, task, g, accepted, selected, tokens, picks, n)
    requires |accepted| < limits.maxTurns && forall p | p in picks :: p < n
    requires task.candidates[n].record.turn.end <= task.boundary
    requires trial == Inject(log.env, task.slim, accepted + [task.candidates[n]], |task.slim|)
    requires Measured(log, trial, g.maxTokens, m) && m <= task.promptBudget && Added(m, task.plain) <= task.budget
    ensures Chosen(log, limits, task, g, accepted + [task.candidates[n]], trial, m, picks + [n], n + 1)
  {
    hide Greedy, Measured, Inject;
    PickMore(task.candidates, picks, accepted, n);
    GreedyTake(log, limits, task, g, accepted, picks, n);
    hide PickedFrom;
  }

  lemma ChosenFull(log: Log, limits: Limits, task: Task, g: Gen, accepted: seq<Candidate>, selected: seq<Message>, tokens: int,
                   picks: seq<nat>, n: nat)
    requires Chosen(log, limits, task, g, accepted, selected, tokens, picks, n)
    requires |accepted| >= limits.maxTurns && forall p | p in picks :: p < n
    ensures Chosen(log, limits, task, g, accepted, selected, tokens, picks, |task.candidates|)
  {
    hide Greedy, Measured, Inject;
    GreedyFull(log, limits, task, g, accepted, picks, n);
  }

  lemma NoRoom(log: Log, limits: Limits, candidates: seq<Candidate>, ms: seq<Message>, g: Gen, base: Info, slim: seq<Message>, plain: int)
    requires Budget(limits, base.promptBudget) <= 0 || g.maxTokens > MAX_INT - Budget(limits, base.promptBudget)
    ensures NothingRecalled(log, limits, candidates, ms, g, base, slim, plain)
  {
  }

  lemma NoReserve(log: Log, limits: Limits, candidates: seq<Candidate>, ms: seq<Message>, g: Gen, base: Info, slim: seq<Message>, plain: int)
    requires Planned(log, ms, g.(maxTokens := g.maxTokens + Budget(limits, base.promptBudget)), None)
    ensures NothingRecalled(log, limits, candidates, ms, g, base, slim, plain)
  {
  }

  lemma NothingFitted(log: Log, limits: Limits, ms: seq<Message>, g: Gen, base: Info, task: Task, selected: seq<Message>, tokens: int,
                      picks: seq<nat>)
    requires task == Task(task.candidates, DroppedStart(ms, base), task.slim, task.plain, base.promptBudget, Budget(limits, base.promptBudget))
    requires Chosen(log, limits, task, g, [], selected, tokens, picks, |task.candidates|)
    requires Reduced(log, ms, g.(maxTokens := g.maxTokens + task.budget), task.slim) && Measured(log, task.slim, g.maxTokens, task.plain)
    ensures NothingRecalled(log, limits, task.candidates, ms, g, base, task.slim, task.plain)
  {
    assert picks == [];
    hide Greedy, Measured, Reduced, Inject, Planned, Budget, DroppedStart;
  }

  lemma RecallHolds(log: Log, limits: Limits, ms: seq<Message>, g: Gen, base: Info, task: Task, accepted: seq<Candidate>,
                    selected: seq<Message>, tokens: int, picks: seq<nat>, r: Prepared)
    requires task == Task(task.candidates, DroppedStart(ms, base), task.slim, task.plain, base.promptBudget, Budget(limits, base.promptBudget))
    requires Chosen(log, limits, task, g, accepted, selected, tokens, picks, |task.candidates|)
    requires 1 <= |accepted| <= limits.maxTurns && task.budget > 0
    requires Reduced(log, ms, g.(maxTokens := g.maxTokens + task.budget), task.slim) && Measured(log, task.slim, g.maxTokens, task.plain)
    requires r.messages == selected && r.info.promptBudget == base.promptBudget && r.info.promptTokens == tokens
    requires r.recall.Some? && r.recall.value == Recall(r.recall.value.indexed, task.budget, Added(tokens, task.plain), accepted)
    ensures Recalled(log, limits, task.candidates, ms, g, base, r, task.slim, task.plain, picks)
  {
    InjectLast(log.env, task.slim, accepted, |task.slim|);
    hide Greedy, Measured, Reduced, Inject, OnlyLastUser, Budget, DroppedStart;
  }

  class Session {
    const env: Env
    const opts: Options
    var clock: nat
    var initialized: bool
    var prefixLen: nat
    var prefixHash: string
    var indexed: nat
    var candidates: seq<Candidate>
    ghost var prefix: seq<Message>

    ghost predicate Valid()
      reads this
    {
      && Injective(env) && GoodPlanner(env) && GoodFind(env)
      && 1 <= opts.limits.maxTurns && 1 <= opts.limits.maxTokens && |opts.query| <= MAX_QUERY
      && (initialized ==> SmallHistory(prefix) && prefixLen == |prefix| && prefixHash == Fingerprint(env, prefix))
    }

    /** What every call after the first leaves alone. */
    twostate predicate Frozen()
      reads this
    {
      old(initialized) ==>
        initialized && prefixLen == old(prefixLen) && prefixHash == old(prefixHash) && prefix == old(prefix)
        && indexed == old(indexed) && candidates == old(candidates)
    }

    constructor (env: Env, opts: Options)
      requires Injective(env) && GoodPlanner(env) && GoodFind(env)
      requires 1 <= opts.limits.maxTurns && 1 <= opts.limits.maxTokens && |opts.query| <= MAX_QUERY
      ensures Valid() && !initialized && this.env == env && this.opts == opts
    {
      this.env, this.opts := env, opts;
      clock, initialized, prefixLen, prefixHash, indexed, candidates, prefix := 0, false, 0, "", 0, [], [];
    }

    method Alive() returns (ok: bool)
      modifies `clock
      ensures clock == old(clock) + 1
    {
      ok := !env.cancelled(clock);
      clock := clock + 1;
    }

    method Plan(ms: seq<Message>, g: Gen) returns (p: Option<(seq<Message>, Info)>)
      modifies `clock
      ensures p == env.plan(old(clock), ms, g) && clock == old(clock) + 1
    {
      p := env.plan(clock, ms, g);
      clock := clock + 1;
    }

    /** Whether an initialized session may serve this history; a refusal says why. */
    method CheckHistory(ms: seq<Message>) returns (e: Option<Error>)
      requires Valid() && initialized && SmallHistory(ms)
      modifies `clock
      ensures clock >= old(clock)
      ensures e.None? ==> Continuation(prefix, ms)
      ensures e.Some? && e.value != Cancelled ==> !Continuation(prefix, ms)
    {
      hide Encode, SmallMessage, GoodPlanner, GoodFind;
      if |ms| < prefixLen {
        return Some(ChangedHistory);
      }
      assert prefix <= ms ==> ms[..prefixLen] == prefix;
      var ok := Alive();
      if !ok {
        return Some(Cancelled);
      }
      if Fingerprint(env, ms[..prefixLen]) != prefixHash {
        return Some(ChangedHistory);
      }
      assert Encode(ms[..prefixLen]) == Encode(prefix);
      EncodeInjective(ms[..prefixLen], prefix);
      for i := prefixLen to |ms|
        invariant forall k | prefixLen <= k < i :: ms[k].role == Assistant || ms[k].role == Tool
      {
        if ms[i].role != Assistant && ms[i].role != Tool {
          return Some(NewTurn);
        }
      }
      e := None;
    }

    method LatestUser(ms: seq<Message>) returns (query: Bytes)
      ensures |query| <= MAX_QUERY
      ensures opts.query == [] ==> QueryOf(opts, ms, query)
    {
      query := [];
      var i := |ms|;
      while i > 0
        invariant 0 <= i <= |ms| && query == [] && forall j | i <= j < |ms| :: ms[j].role != User
      {
        i := i - 1;
        if ms[i].role == User {
          query := BoundedQuery(ms[i].content);
          return;
        }
      }
    }

    /** The records the hits name, with their scores. */
    static method Collect(docs: seq<Record>, records: map<string, Record>, hits: seq<Hit>) returns (candidates: seq<Candidate>)
      requires Listed(docs, records)
      requires forall i | 0 <= i < |hits| :: Has(docs, hits[i].id)
      requires forall i, j | 0 <= i < j < |hits| :: hits[i].id != hits[j].id
      ensures |candidates| == |hits|
      ensures forall i | 0 <= i < |hits| ::
                candidates[i].record in docs && candidates[i].record.id == hits[i].id && candidates[i].score == hits[i].score
      ensures forall i, j | 0 <= i < j < |candidates| :: candidates[i].record != candidates[j].record
    {
      candidates := [];
      for i := 0 to |hits|
        invariant |candidates| == i
        invariant forall k | 0 <= k < i ::
                    candidates[k].record in docs && candidates[k].record.id == hits[k].id && candidates[k].score == hits[k].score
      {
        assert Has(docs, hits[i].id);
        candidates := candidates + [Candidate(records[hits[i].id], hits[i].score)];
      }
    }

    /** What is searched for. */
    method Query(ms: seq<Message>) returns (query: Bytes)
      ensures QueryOf(opts, ms, query)
    {
      query := opts.query;
      if query == [] {
        query := LatestUser(ms);
      }
    }

    /** Asks the index and resolves its hits. */
    method Hits(docs: seq<Record>, records: map<string, Record>, query: Bytes) returns (r: Result<seq<Candidate>, Error>)
      requires Valid() && Listed(docs, records)
      modifies `clock
      ensures clock >= old(clock)
      ensures r.Ok? ==> Found(env, docs, query, r.value)
    {
      hide Injective, GoodPlanner, Has, Listed;
      var ok := Alive();
      if !ok {
        return Err(Cancelled);
      }
      var found := env.find(docs, query);
      if found.None? {
        return Err(SearchFailed);
      }
      ok := Alive();
      if !ok {
        return Err(Cancelled);
      }
      var candidates := Collect(docs, records, found.value);
      r := Ok(candidates);
    }

    method Search(ms: seq<Message>, boundary: int) returns (r: Result<(seq<Candidate>, nat), Error>)
      requires Valid() && boundary <= |ms|
      modifies `clock
      ensures clock >= old(clock)
      ensures r.Ok? ==> exists query ::
                QueryOf(opts, ms, query) && CandidatesOf(env, ms, boundary, opts.limits, query, r.value.0, r.value.1)
    {
      var query := Query(ms);
      if boundary <= 0 || env.blank(query) {
        assert CandidatesOf(env, ms, boundary, opts.limits, query, [], 0);
        return Ok(([], 0));
      }
      hide QueryOf, GoodPlanner, GoodFind, Injective, CandidatesOf, Found, Chain, Bounded, Indexed, RecordsOf, Finished, Listed, Fingerprint;
      var docs, records;
      ghost var turns;
      docs, records, turns := Scan(ms, boundary, opts.limits, x => Fingerprint(env, x));
      var hits := Hits(docs, records, query);
      if hits.Err? {
        return Err(hits.error);
      }
      CandidatesFound(env, ms, boundary, opts.limits, docs, turns, query, hits.value);
      r := Ok((hits.value, |docs|));
    }

    /** The first successful planning freezes the history and the candidates. */
    method Initialize(ms: seq<Message>, info: Info) returns (e: Option<Error>)
      requires Valid() && !initialized && SmallHistory(ms)
      requires info.dropped > 0 ==> info.retained >= Pinned(ms)
      modifies this
      ensures Valid() && clock >= old(clock)
      ensures if e.Some? then !initialized
              else initialized && prefix == ms && FrozenFor(info)
    {
      var ok := Alive();
      if !ok {
        return Some(Cancelled);
      }
      var found: seq<Candidate>, n: nat := [], 0;
      if info.dropped > 0 {
        var r := Search(ms, DroppedStart(ms, info));
        if r.Err? {
          return Some(r.error);
        }
        found, n := r.value.0, r.value.1;
      }
      prefixLen, prefixHash, prefix := |ms|, Fingerprint(env, ms), ms;
      candidates, indexed, initialized := found, n, true;
      e := None;
    }

    /** The candidates are what the search found in the dropped part of the first history. */
    ghost predicate FrozenFor(info: Info)
      reads this
    {
      if info.dropped > 0 then
        exists query :: QueryOf(opts, prefix, query)
                        && CandidatesOf(env, prefix, DroppedStart(prefix, info), opts.limits, query, candidates, indexed)
      else candidates == [] && indexed == 0
    }

    /** The selection loop over the candidates, best first. */
    method Choose(g: Gen, task: Task)
      returns (e: Option<Error>, accepted: seq<Candidate>, selected: seq<Message>, tokens: int, ghost picks: seq<nat>)
      requires Valid()
      modifies `clock
      ensures clock >= old(clock)
      ensures e.None? ==>
                && Chosen(Log(env, old(clock), clock), opts.limits, task, g, accepted, selected, tokens, picks, |task.candidates|)
                && |accepted| <= opts.limits.maxTurns
    {
      hide Chosen, TooLarge, Measured, GoodPlanner, GoodFind, Injective;
      ghost var since := clock;
      accepted, selected, tokens, picks := [], task.slim, task.plain, [];
      e := None;
      ChosenFirst(Log(env, since, clock), opts.limits, task, g);
      for i := 0 to |task.candidates|
        invariant clock >= since && e.None? && |accepted| < opts.limits.maxTurns && forall p | p in picks :: p < i
        invariant Chosen(Log(env, since, clock), opts.limits, task, g, accepted, selected, tokens, picks, i)
        invariant Valid()
      {
        ghost var log := Log(env, since, clock);
        var ok := Alive();
        if !ok {
          e := Some(Cancelled);
          return;
        }
        if task.candidates[i].record.turn.end > task.boundary {
          ChosenWider(log, Log(env, since, clock), opts.limits, task, g, accepted, selected, tokens, picks, i);
          ChosenSkip(Log(env, since, clock), opts.limits, task, g, accepted, selected, tokens, picks, i);
          continue;
        }
        var trialRecords := accepted + [task.candidates[i]];
        var trial := Inject(env, task.slim, trialRecords, |task.slim|);
        var measured := Plan(trial, Gen(Full, g.maxTokens));
        if measured.None? {
          e := Some(PlannerFailed);
          return;
        }
        ghost var later := Log(env, since, clock);
        ChosenWider(log, later, opts.limits, task, g, accepted, selected, tokens, picks, i);
        var n := measured.value.1.promptTokens;
        MeasuredAt(later, trial, g.maxTokens, clock - 1);
        if n > task.promptBudget || Added(n, task.plain) > task.budget {
          Large(later, task, g, trialRecords, n);
          ChosenSkip(later, opts.limits, task, g, accepted, selected, tokens, picks, i);
          continue;
        }
        ChosenTake(later, opts.limits, task, g, accepted, selected, tokens, picks, i, trial, n);
        accepted, selected, tokens, picks := trialRecords, trial, n, picks + [i];
        if |accepted| == opts.limits.maxTurns {
          ChosenFull(later, opts.limits, task, g, accepted, selected, tokens, picks, i + 1);
          return;
        }
      }
    }

    /** The second half of Prepare: reserve room, measure, choose, and report. */
    method RecallInto(ms: seq<Message>, g: Gen, base: seq<Message>, info: Info, ghost since: nat)
      returns (r: Result<Prepared, Error>, ghost slim: seq<Message>, ghost plain: int, ghost picks: seq<nat>)
      requires Valid() && candidates != [] && since <= clock
      modifies `clock
      ensures clock >= old(clock)
      ensures r.Ok? && r.value.recall.None? ==>
                && r.value == Prepared(base, info, None)
                && NothingRecalled(Log(env, since, clock), opts.limits, candidates, ms, g, info, slim, plain)
      ensures r.Ok? && r.value.recall.Some? ==>
                && Recalled(Log(env, since, clock), opts.limits, candidates, ms, g, info, r.value, slim, plain, picks)
                && r.value.recall.value.indexed == indexed
    {
      hide Planned, Measured, Reduced, Recalled, NothingRecalled, Chosen, GoodPlanner, GoodFind, Injective, Inject, Budget, DroppedStart;
      slim, plain, picks := [], 0, [];
      var budget := Budget(opts.limits, info.promptBudget);
      if budget <= 0 || g.maxTokens > MAX_INT - budget {
        NoRoom(Log(env, since, clock), opts.limits, candidates, ms, g, info, slim, plain);
        return Ok(Prepared(base, info, None)), slim, plain, picks;
      }
      var reserve := g.(maxTokens := g.maxTokens + budget);
      var reserved := Plan(ms, reserve);
      ghost var first := Log(env, since, clock);
      PlannedAt(first, ms, reserve, clock - 1);
      if reserved.None? {
        var ok := Alive();
        PlannedWider(first, Log(env, since, clock), ms, reserve, None);
        NoReserve(Log(env, since, clock), opts.limits, candidates, ms, g, info, slim, plain);
        return if ok then Ok(Prepared(base, info, None)) else Err(Cancelled), slim, plain, picks;
      }
      var (reduced, slimInfo) := reserved.value;
      slim := reduced;
      ReducedBy(first, ms, reserve, reduced, slimInfo);
      var measured := Plan(reduced, Gen(Full, g.maxTokens));
      ghost var second := Log(env, since, clock);
      if measured.None? {
        return Err(PlannerFailed), slim, plain, picks;
      }
      MeasuredAt(second, reduced, g.maxTokens, clock - 1);
      var task := Task(candidates, DroppedStart(ms, info), reduced, measured.value.1.promptTokens, info.promptBudget, budget);
      plain := task.plain;
      ghost var before := clock;
      var e, accepted, selected, tokens;
      e, accepted, selected, tokens, picks := Choose(g, task);
      if e.Some? {
        return Err(e.value), slim, plain, picks;
      }
      ghost var third := Log(env, before, clock);
      var ok := Alive();
      if !ok {
        return Err(Cancelled), slim, plain, picks;
      }
      ghost var log := Log(env, since, clock);
      ReducedWider(first, log, ms, reserve, reduced);
      MeasuredWider(second, log, reduced, g.maxTokens, task.plain);
      ChosenWider(third, log, opts.limits, task, g, accepted, selected, tokens, picks, |candidates|);
      if |accepted| == 0 {
        NothingFitted(log, opts.limits, ms, g, info, task, selected, tokens, picks);
        return Ok(Prepared(base, info, None)), slim, plain, picks;
      }
      r := Ok(Prepared(selected, slimInfo.(promptBudget := info.promptBudget, promptTokens := tokens),
                       Some(Recall(indexed, budget, Added(tokens, task.plain), accepted))));
      RecallHolds(log, opts.limits, ms, g, info, task, accepted, selected, tokens, picks, r.value);
    }

    /** The first half of Prepare: the history, the planner's own prompt, and the candidates. */
    method Begin(ms: seq<Message>, g: Gen) returns (r: Result<(seq<Message>, Info), (Error, Option<(seq<Message>, Info)>)>)
      requires Valid() && SmallHistory(ms)
      modifies this
      ensures Valid() && Frozen()
      ensures old(initialized) && !Continuation(old(prefix), ms) ==> r.Err?
      ensures !old(initialized) && initialized ==> prefix == ms && r.Ok? && FrozenFor(r.value.1)
      ensures g.mode != Recent && g.mode != AutoCompress ==> r.Err? && initialized == old(initialized)
      ensures clock >= old(clock)
      ensures r.Ok? ==> initialized && Planned(Log(env, old(clock), clock), ms, g, Some(r.value))
    {
      hide Continuation, SmallHistory, Fingerprint, CandidatesOf, Injective, GoodFind;
      var ok := Alive();
      if !ok {
        return Err((Cancelled, None));
      }
      if g.mode != Recent && g.mode != AutoCompress {
        return Err((WrongMode, None));
      }
      if initialized {
        var e := CheckHistory(ms);
        if e.Some? {
          return Err((e.value, None));
        }
      }
      ghost var t := clock;
      var p := Plan(ms, g);
      if p.None? {
        return Err((PlannerFailed, None));
      }
      assert env.plan(t, ms, g) == p && old(clock) <= t < clock;
      ok := Alive();
      if !ok {
        return Err((Cancelled, p));
      }
      assert p.value.1.dropped > 0 ==> p.value.1.retained >= Pinned(ms);
      hide GoodPlanner, Pinned, FrozenFor;
      if !initialized {
        var e := Initialize(ms, p.value.1);
        if e.Some? {
          return Err((e.value, p));
        }
      }
      assert Planned(Log(env, old(clock), clock), ms, g, p) by { assert env.plan(t, ms, g) == p; }
      r := Ok(p.value);
    }

    /**
     Prepare. Every success of an initialized session extends its first history
     by assistant and tool messages only; candidates never change once set; and
     the result is a recall within every bound, greedily chosen, or the
     planner's own prompt where nothing could be recalled.
     */
    method Prepare(ms: seq<Message>, g: Gen)
      returns (r: Result<Prepared, Error>, ghost base: Option<(seq<Message>, Info)>,
               ghost slim: seq<Message>, ghost plain: int, ghost picks: seq<nat>)
      requires Valid() && SmallHistory(ms)
      modifies this
      ensures Valid() && Frozen()
      ensures old(initialized) && !Continuation(old(prefix), ms) ==> r.Err?
      ensures !old(initialized) && initialized ==> prefix == ms && base.Some? && FrozenFor(base.value.1)
      ensures g.mode != Recent && g.mode != AutoCompress ==> r.Err? && initialized == old(initialized)
      ensures clock >= old(clock)
      ensures r.Ok? ==> initialized && base.Some? && Planned(Log(env, old(clock), clock), ms, g, base)
      ensures r.Ok? && r.value.recall.None? ==>
                && r.value == Prepared(base.value.0, base.value.1, None)
                && (candidates == [] || base.value.1.dropped == 0
                    || NothingRecalled(Log(env, old(clock), clock), opts.limits, candidates, ms, g, base.value.1, slim, plain))
      ensures r.Ok? && r.value.recall.Some? ==>
                && base.value.1.dropped != 0 && candidates != []
                && Recalled(Log(env, old(clock), clock), opts.limits, candidates, ms, g, base.value.1, r.value, slim, plain, picks)
                && r.value.recall.value.indexed == indexed
    {
      hide Continuation, SmallHistory, Fingerprint, CandidatesOf, Recalled, NothingRecalled, Injective, GoodFind, GoodPlanner, Pinned, Reduced, Planned, DroppedStart;
      slim, plain, picks := [], 0, [];
      ghost var since := clock;
      var begun := Begin(ms, g);
      if begun.Err? {
        return Err(begun.error.0), begun.error.1, slim, plain, picks;
      }
      base := Some(begun.value);
      ghost var first := Log(env, since, clock);
      var (prompt, info) := begun.value;
      if |candidates| == 0 || info.dropped == 0 {
        return Ok(Prepared(prompt, info, None)), base, slim, plain, picks;
      }
      r, slim, plain, picks := RecallInto(ms, g, prompt, info, since);
      PlannedWider(first, Log(env, since, clock), ms, g, base);
    }
  }
}
