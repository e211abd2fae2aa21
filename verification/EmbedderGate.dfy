/**
 The gate of coreml/embedding.go as a transition system: a channel with one
 token, taken by every EmbedBatch and Close and given back on return. Every
 call is a thread; one step is one channel operation, one poll, one test of
 the fields, or one call into the model.
 */
module EmbedderGate {
  import opened Wrappers
  import Lists

  type Tid = nat

  datatype Outcome = Answered | Refused | Failed | Returned

  datatype PC =
    | Queued(batches: nat) | Entered(batches: nat) | Poll(left: nat) | Predicting(left: nat)   // EmbedBatch
    | CloseQueued | CloseEntered | Closing                                                     // Close
    | Leaving(outcome: Outcome)
    | Done(outcome: Outcome)

  datatype State = State(
    token: bool,           // in the channel
    closed: bool,
    closes: nat,           // calls to the model's Close
    threads: seq<PC>)
  {
    function Go(t: Tid, pc: PC): State
      requires t < |threads|
    {
      this.(threads := threads[t := pc])
    }
  }

  const INIT := State(true, false, 0, [])

  /** Whether the context is still alive, the texts are sound, and the prediction works. */
  datatype Choice = Proceed | Fail

  /** None: the step blocks. */
  function Step(st: State, t: Tid, c: Choice): Option<State>
    requires t < |st.threads|
  {
    match st.threads[t]
    case Queued(n) =>
      if c.Fail? then Some(st.Go(t, Done(Failed)))
      else if st.token then Some(st.(token := false).Go(t, Entered(n))) else None
    case Entered(n) => Some(st.Go(t, if c.Fail? then Leaving(Failed) else if st.closed then Leaving(Refused) else Poll(n)))
    case Poll(n) => Some(st.Go(t, if n == 0 then Leaving(Answered) else if c.Fail? then Leaving(Failed) else Predicting(n - 1)))
    case Predicting(n) => Some(st.Go(t, if c.Fail? then Leaving(Failed) else Poll(n)))
    case CloseQueued => if st.token then Some(st.(token := false).Go(t, CloseEntered)) else None
    case CloseEntered => Some(if st.closed then st.Go(t, Leaving(Returned)) else st.(closed := true).Go(t, Closing))
    case Closing => Some(st.(closes := st.closes + 1).Go(t, Leaving(Returned)))
    case Leaving(o) => if st.token then None else Some(st.(token := true).Go(t, Done(o)))
    case Done(_) => None
  }

  datatype Event = Embed(batches: nat) | Close | Move(t: Tid, c: Choice)

  function Apply(st: State, e: Event): Option<State> {
    match e
    case Embed(n) => Some(st.(threads := st.threads + [Queued(n)]))
    case Close => Some(st.(threads := st.threads + [CloseQueued]))
    case Move(t, c) => if t < |st.threads| then Step(st, t, c) else None
  }

  ghost predicate Reaches(st: State, events: seq<Event>, st': State)
    decreases |events|
  {
    if events == [] then st == st'
    else Apply(st, events[0]).Some? && Reaches(Apply(st, events[0]).value, events[1..], st')
  }

  ghost predicate Reachable(st: State) {
    exists events :: Reaches(INIT, events, st)
  }

  // The invariant

  /** Between taking the token and giving it back. */
  predicate Inside(pc: PC) {
    !pc.Queued? && !pc.CloseQueued? && !pc.Done?
  }

  ghost predicate InsideAt(st: State, t: Tid) {
    t < |st.threads| && Inside(st.threads[t])
  }

  /** What a thread may rely on where it stands. */
  ghost predicate Here(st: State, pc: PC) {
    && (pc.Poll? || pc.Predicting? ==> !st.closed)
    && (pc.Closing? ==> st.closed && st.closes == 0)
    && (pc == Leaving(Returned) || pc == Done(Returned) ==> st.closed && st.closes == 1)
  }

  ghost predicate Inv(st: State) {
    && (st.token <==> forall t: Tid :: !InsideAt(st, t))
    && (forall a: Tid, b: Tid :: InsideAt(st, a) && InsideAt(st, b) ==> a == b)
    && (forall t | 0 <= t < |st.threads| :: Here(st, st.threads[t]))
    && st.closes <= 1 && (st.closes == 1 ==> st.closed)
    && (st.closed && st.closes == 0 ==> exists t: Tid :: InsideAt(st, t) && st.threads[t].Closing?)
  }

  lemma EventKeeps(st: State, e: Event)
    requires Inv(st) && Apply(st, e).Some?
    ensures Inv(Apply(st, e).value)
  {
    var st' := Apply(st, e).value;
    match e
    case Move(t, c) => StepKeeps(st, t, c);
    case _ =>
      assert forall t: Tid :: InsideAt(st', t) <==> InsideAt(st, t);
      if st.closed && st.closes == 0 {
        var t: Tid :| InsideAt(st, t) && st.threads[t].Closing?;
        assert InsideAt(st', t) && st'.threads[t].Closing?;
      }
  }

  /** A step moves only its own thread in or out. */
  lemma StepMoves(st: State, t: Tid, c: Choice)
    requires t < |st.threads| && Step(st, t, c).Some?
    ensures var st' := Step(st, t, c).value;
            |st'.threads| == |st.threads| && forall u: Tid | u < |st.threads| && u != t :: st'.threads[u] == st.threads[u]
  {
  }

  lemma StepKeepsGate(st: State, t: Tid, c: Choice)
    requires Inv(st) && t < |st.threads| && Step(st, t, c).Some?
    ensures var st' := Step(st, t, c).value;
            && (st'.token <==> forall u: Tid :: !InsideAt(st', u))
            && forall a: Tid, b: Tid :: InsideAt(st', a) && InsideAt(st', b) ==> a == b
  {
    hide Here;
    StepMoves(st, t, c);
    var st' := Step(st, t, c).value;
    assert forall u: Tid | u != t :: InsideAt(st', u) <==> InsideAt(st, u);
    assert InsideAt(st', t) <==> Inside(st'.threads[t]);
    assert InsideAt(st, t) <==> Inside(st.threads[t]);
  }

  lemma StepKeepsHere(st: State, t: Tid, c: Choice, u: Tid)
    requires Inv(st) && t < |st.threads| && Step(st, t, c).Some? && u < |st.threads|
    ensures |Step(st, t, c).value.threads| == |st.threads| && Here(Step(st, t, c).value, Step(st, t, c).value.threads[u])
  {
    StepMoves(st, t, c);
    assert Here(st, st.threads[u]) && Here(st, st.threads[t]);
    assert InsideAt(st, u) <==> Inside(st.threads[u]);
    assert InsideAt(st, t) <==> Inside(st.threads[t]);
  }

  lemma StepKeepsModel(st: State, t: Tid, c: Choice)
    requires Inv(st) && t < |st.threads| && Step(st, t, c).Some?
    ensures var st' := Step(st, t, c).value;
            && st'.closes <= 1 && (st'.closes == 1 ==> st'.closed)
            && (st'.closed && st'.closes == 0 ==> exists u: Tid :: InsideAt(st', u) && st'.threads[u].Closing?)
  {
    var st' := Step(st, t, c).value;
    assert Here(st, st.threads[t]);
    if st'.closed && st'.closes == 0 {
      if st.closed {
        var u: Tid :| InsideAt(st, u) && st.threads[u].Closing?;
        assert InsideAt(st', u) && st'.threads[u].Closing?;
      } else {
        assert InsideAt(st', t) && st'.threads[t].Closing?;
      }
    }
  }

  lemma StepKeeps(st: State, t: Tid, c: Choice)
    requires Inv(st) && t < |st.threads| && Step(st, t, c).Some?
    ensures Inv(Step(st, t, c).value)
  {
    hide Here, Step, Inside, InsideAt;
    StepKeepsGate(st, t, c);
    StepKeepsModel(st, t, c);
    forall u: Tid | u < |Step(st, t, c).value.threads| ensures Here(Step(st, t, c).value, Step(st, t, c).value.threads[u]) {
      StepMoves(st, t, c);
      StepKeepsHere(st, t, c, u);
    }
  }

  lemma {:induction false} ReachableInv(st: State, events: seq<Event>, st': State)
    requires Inv(st) && Reaches(st, events, st')
    ensures Inv(st')
    decreases |events|
  {
    if events != [] {
      EventKeeps(st, events[0]);
      ReachableInv(Apply(st, events[0]).value, events[1..], st');
    }
  }

  lemma ReachableKeepsInv(st: State)
    requires Reachable(st)
    ensures Inv(st)
  {
    var events :| Reaches(INIT, events, st);
    ReachableInv(INIT, events, st);
  }

  // The promises

  /** Requests serialize: while one is at its batches, nobody else is inside and the model is open. */
  lemma PredictsAlone(st: State, t: Tid, other: Tid)
    requires Reachable(st) && t < |st.threads| && other < |st.threads| && (st.threads[t].Poll? || st.threads[t].Predicting?)
    ensures !st.closed && st.closes == 0
    ensures other != t ==> !Inside(st.threads[other])
  {
    ReachableKeepsInv(st);
    assert InsideAt(st, t) && Here(st, st.threads[t]);
    assert InsideAt(st, other) <==> Inside(st.threads[other]);
  }

  /** Close waits for the predictions and has closed the model, once, when it returns; also where another Close was first. */
  lemma CloseReturns(st: State, t: Tid, other: Tid)
    requires Reachable(st) && t < |st.threads| && other < |st.threads| && st.threads[t] == Done(Returned)
    ensures st.closed && st.closes == 1 && !st.threads[other].Poll? && !st.threads[other].Predicting?
  {
    ReachableKeepsInv(st);
    assert Here(st, st.threads[t]) && Here(st, st.threads[other]);
  }

  /** From the test of `closed` to the end of the model's own Close, nobody else is inside. */
  lemma ClosesAlone(st: State, t: Tid, other: Tid)
    requires Reachable(st) && t < |st.threads| && other < |st.threads| && other != t
    requires st.threads[t].CloseEntered? || st.threads[t].Closing?
    ensures !Inside(st.threads[other]) && (st.threads[t].Closing? ==> st.closes == 0)
  {
    ReachableKeepsInv(st);
    assert InsideAt(st, t) && Here(st, st.threads[t]);
    assert InsideAt(st, other) <==> Inside(st.threads[other]);
  }

  /** A call that has not passed its test when the embedder is closed never predicts and never answers. */
  ghost predicate Barred(pc: PC) {
    !pc.Poll? && !pc.Predicting? && pc != Leaving(Answered) && pc != Done(Answered)
  }

  lemma {:induction false} LateCallsFail(st: State, events: seq<Event>, st': State, t: Tid)
    requires st.closed && Reaches(st, events, st') && t < |st'.threads| && (t < |st.threads| ==> Barred(st.threads[t]))
    ensures st'.closed && Barred(st'.threads[t])
    decreases |events|
  {
    if events != [] {
      LateCallsFail(Apply(st, events[0]).value, events[1..], st', t);
    }
  }

  /** With every call returned the token is back, and the model is closed if and only if the embedder is. */
  lemma NothingLeaks(st: State)
    requires Reachable(st) && forall t | 0 <= t < |st.threads| :: st.threads[t].Done?
    ensures st.token && st.closes == if st.closed then 1 else 0
  {
    ReachableKeepsInv(st);
    assert forall t: Tid :: !InsideAt(st, t);
  }

  // Progress

  /** No deadlock, and giving the token back never blocks. */
  lemma Progress(st: State, t: Tid) returns (mover: Tid)
    requires Reachable(st) && t < |st.threads| && !st.threads[t].Done?
    ensures mover < |st.threads| && Step(st, mover, Proceed).Some?
    ensures st.threads[t].Leaving? ==> mover == t
  {
    ReachableKeepsInv(st);
    mover := t;
    if Inside(st.threads[t]) {
      assert InsideAt(st, t);
    } else if !st.token {
      mover :| InsideAt(st, mover);
    }
  }

  /** Steps a call can still take. */
  function Rank(pc: PC): nat {
    match pc
    case Queued(n) => 2 * n + 4
    case Entered(n) => 2 * n + 3
    case Poll(n) => 2 * n + 2
    case Predicting(n) => 2 * n + 3
    case CloseQueued => 4
    case CloseEntered => 3
    case Closing => 2
    case Leaving(_) => 1
    case Done(_) => 0
  }

  lemma StepLowersRank(st: State, t: Tid, c: Choice)
    requires t < |st.threads| && Step(st, t, c).Some?
    ensures var st' := Step(st, t, c).value;
            |st'.threads| == |st.threads| && st'.threads == st.threads[t := st'.threads[t]] && Rank(st'.threads[t]) < Rank(st.threads[t])
  {
  }

  /** Without new calls every run is finite; with Progress, it ends with every call returned. */
  lemma {:induction false} RunsEnd(st: State, events: seq<Event>, st': State)
    requires Reaches(st, events, st') && forall e | e in events :: e.Move?
    ensures |events| + Lists.SumOf(st'.threads, Rank) <= Lists.SumOf(st.threads, Rank)
    decreases |events|
  {
    if events != [] {
      var e := events[0];
      assert e in events;
      var next := Apply(st, e).value;
      StepLowersRank(st, e.t, e.c);
      hide Step, Rank;
      Lists.SumOfUpdate(st.threads, Rank, e.t, next.threads[e.t]);
      RunsEnd(next, events[1..], st');
    }
  }
}
