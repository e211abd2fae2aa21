/** The promises of the realtime session service, for every reachable state. */
module RealtimeTheorems {
  import opened Wrappers
  import Lists
  import opened RealtimeSessions
  import opened RealtimeSafety
  import opened RealtimeEnds

  ghost predicate Reachable(cap: nat, st: State) {
    exists events :: Reaches(cap, INIT, events, st)
  }

  lemma ReachableKeepsInv(cap: nat, st: State) returns (o: Owner)
    requires Reachable(cap, st)
    ensures InvFor(cap, st, o)
  {
    var events :| Reaches(cap, INIT, events, st);
    InitInv(cap);
    ReachableInv(cap, INIT, events, st);
    o :| InvFor(cap, st, o);
  }

  lemma ReachableKeepsEnds(cap: nat, st: State)
    requires Reachable(cap, st)
    ensures Inv(cap, st) && EndsInv(st)
  {
    var events :| Reaches(cap, INIT, events, st);
    InitInv(cap);
    RunKeepsEnds(cap, INIT, events, st);
  }

  // Tokens

  function TokenSum(threads: seq<PC>): nat {
    if threads == [] then 0 else TokenSum(threads[..|threads| - 1]) + Tokens(threads[|threads| - 1])
  }

  lemma {:induction false} TokenSumOf(threads: seq<PC>, o: Owner)
    requires forall t | 0 <= t < |threads| :: Tokens(threads[t]) == (if o == Thread(t) then 1 else 0)
    ensures TokenSum(threads) == if o.Thread? && o.tid < |threads| then 1 else 0
  {
    if threads != [] {
      TokenSumOf(threads[..|threads| - 1], o);
    }
  }

  /** The channel holds one token for each creation in flight, registered session and session being closed. */
  lemma TokenAccounting(cap: nat, st: State)
    requires Reachable(cap, st)
    ensures st.active == TokenSum(st.threads) + |st.sessions| <= 1
  {
    var o := ReachableKeepsInv(cap, st);
    TokenSumOf(st.threads, o);
  }

  /** Handing the token back never waits. */
  lemma ReceiveNeverBlocks(cap: nat, st: State, t: Tid)
    requires Reachable(cap, st) && t < |st.threads|
    requires match st.threads[t]
             case Create(phase, _) => phase.FreeToken?
             case Close(phase, _, _) => phase.Drain?
             case Shutdown(phase, _, _) => phase.DrainOne?
             case _ => false
    ensures st.active == 1 && Step(cap, st, t, Proceed).Some?
  {
    var o := ReachableKeepsInv(cap, st);
    assert Tokens(st.threads[t]) >= 1;
    assert PcInv(st, st.threads[t]);
  }

  // Transcribers

  /** No transcriber is closed twice, and at most one is open at any time. */
  lemma AtMostOneOpen(cap: nat, st: State, a: Ref, b: Ref)
    requires Reachable(cap, st) && a < |st.objs| && b < |st.objs|
    ensures st.objs[a].closes <= 1
    ensures st.objs[a].closes == 0 && st.objs[b].closes == 0 ==> a == b
  {
    var o := ReachableKeepsInv(cap, st);
    assert st.objs[a].closes == (if a in Owned(st, o) then 0 else 1);
    assert st.objs[b].closes == (if b in Owned(st, o) then 0 else 1);
    if a in Owned(st, o) && b in Owned(st, o) { OwnsAtMostOne(st, o, a, b); }
  }

  lemma OwnsAtMostOne(st: State, o: Owner, a: Ref, b: Ref)
    requires OwnerInv(st, o) && a in Owned(st, o) && b in Owned(st, o)
    ensures a == b
  {
    if o.Thread? {
      var pc := st.threads[o.tid];
      assert Tokens(pc) == 1;
      if pc.Shutdown? && pc.rest != {} {
        var r :| r in pc.rest;
        assert |pc.rest - {r}| == |pc.rest| - 1;
        assert pc.rest == {r};
      }
    }
  }

  /** A running Push has an open transcriber, and no other push or close touches it meanwhile. */
  lemma PushIsSafe(cap: nat, st: State, t: Tid, other: Tid)
    requires Reachable(cap, st) && t < |st.threads| && other < |st.threads| && t != other
    requires st.threads[t].Push? && st.threads[t].push.Infer?
    ensures var s := st.threads[t].s;
      && s < |st.objs| && st.objs[s].closes == 0 && st.objs[s].busy
      && LockOf(st.threads[other]) != Some(s)
      && !(Closes(st.threads[other]) && Touched(st.threads[other], Proceed) == Some(s))
  {
    var o := ReachableKeepsInv(cap, st);
    var pc, pc' := st.threads[t], st.threads[other];
    assert PcInv(st, pc) && PcInv(st, pc');
    assert LockOf(pc) == Some(pc.s);
    assert LockInv(st);
  }

  /** Expiry takes a session out only when it is not busy, so never under a push that has marked it busy. */
  lemma ExpirySparesBusy(cap: nat, st: State, t: Tid, c: Choice, user: Tid)
    requires Reachable(cap, st) && t < |st.threads| && user < |st.threads|
    requires st.threads[t].Detach? && st.threads[t].expiry && Step(cap, st, t, c).Some?
    requires Step(cap, st, t, c).value.sessions != st.sessions
    ensures var id := st.threads[t].id;
      && id in st.sessions && st.sessions[id] < |st.objs| && !st.objs[st.sessions[id]].busy
      && !(MarkedBusy(st.threads[user]) && st.threads[user].s == st.sessions[id])
  {
    var o := ReachableKeepsInv(cap, st);
    assert PcInv(st, st.threads[user]);
  }

  // The end of a session

  /** A registered session that has been closed is about to be removed: a push that ended it, or a DELETE, is on its way. */
  lemma ClosedHasRemover(cap: nat, st: State, id: Id)
    requires Reachable(cap, st) && id in st.sessions
    ensures st.sessions[id] < |st.objs|
    ensures st.objs[st.sessions[id]].closed ==>
              exists t: Tid :: t < |st.threads| && Removing(st.threads[t], id, st.sessions[id])
  {
    var o := ReachableKeepsInv(cap, st);
    ReachableKeepsEnds(cap, st);
    assert st.sessions[id] in Owned(st, o);
    assert EndInv(st);
  }

  /**
   A push that came back final or failed ends its session: from then on the
   session takes no other push, and once the request has returned it is not
   registered.
   */
  lemma FinalPushEnds(cap: nat, st: State, t: Tid, c: Choice, events: seq<Event>, st': State, other: Tid)
    requires Reachable(cap, st) && t < |st.threads| && st.threads[t].Push? && st.threads[t].push.Infer?
    requires (st.threads[t].final || c.Fail?) && Step(cap, st, t, c).Some?
    requires Reaches(cap, Step(cap, st, t, c).value, events, st') && t < |st'.threads| && other < |st'.threads|
    ensures !(Using(st'.threads[other]) && st'.threads[other].s == st.threads[t].s)
    ensures st'.threads[t].Done? ==> st.threads[t].s !in st'.sessions.Values
  {
    var o := ReachableKeepsInv(cap, st);
    ReachableKeepsEnds(cap, st);
    var s, id, next := st.threads[t].s, st.threads[t].id, Step(cap, st, t, c).value;
    EventKeepsEnds(cap, st, Run(t, c));
    PushOnTheWay(cap, st, t, c);
    StaysOn(cap, next, events, st', t, id, s);
    RunKeepsEnds(cap, next, events, st');
    var o' :| InvFor(cap, st', o');
    assert PcInv(st', st'.threads[other]);
    if s in st'.sessions.Values {
      var i :| i in st'.sessions && st'.sessions[i] == s;
      assert Registered(st', i, s);
    }
  }

  lemma PushOnTheWay(cap: nat, st: State, t: Tid, c: Choice)
    requires Inv(cap, st) && EndsInv(st) && t < |st.threads| && st.threads[t].Push? && st.threads[t].push.Infer?
    requires (st.threads[t].final || c.Fail?) && Step(cap, st, t, c).Some?
    ensures var next, s := Step(cap, st, t, c).value, st.threads[t].s;
            OnTheWay(next, t, st.threads[t].id, s) && next.objs[s].closed
  {
    var o :| InvFor(cap, st, o);
    assert PcInv(st, st.threads[t]);
    assert KeyInv(st);
    hide InvFor, EndInv, UnpublishedInv;
  }

  /** A DELETE that has returned has taken the session it found out of the registry. */
  lemma DeleteEnds(cap: nat, st: State, t: Tid, events: seq<Event>, st': State)
    requires Reachable(cap, st) && t < |st.threads| && st.threads[t].Detach? && !st.threads[t].expiry
    requires st.threads[t].id in st.sessions && Reaches(cap, st, events, st') && t < |st'.threads| && st'.threads[t].Done?
    ensures st.sessions[st.threads[t].id] !in st'.sessions.Values
  {
    var o := ReachableKeepsInv(cap, st);
    ReachableKeepsEnds(cap, st);
    var id, s := st.threads[t].id, st.sessions[st.threads[t].id];
    KnownSession(st, o, t, id);
    assert OnTheWay(st, t, id, s);
    StaysOn(cap, st, events, st', t, id, s);
    if s in st'.sessions.Values {
      var i :| i in st'.sessions && st'.sessions[i] == s;
      assert Registered(st', i, s);
    }
  }

  /** A request with final=1 keeps its ID and its flag up to the transcriber, so `FinalPushEnds` applies to it. */
  lemma FinalStaysFinal(cap: nat, st: State, t: Tid, events: seq<Event>, st': State)
    requires Reachable(cap, st) && t < |st.threads| && st.threads[t].Lookup?
    requires Reaches(cap, st, events, st') && t < |st'.threads| && st'.threads[t].Push?
    ensures st'.threads[t].id == st.threads[t].id && (st.threads[t].final ==> st'.threads[t].final)
  {
    ReachableKeepsEnds(cap, st);
    StaysRequest(cap, st, events, st', t, st.threads[t].id, st.threads[t].final);
  }

  // Shutdown

  /** After the service closed, no session is registered again. */
  lemma {:induction false} ClosedForGood(cap: nat, st: State, events: seq<Event>, st': State)
    requires Inv(cap, st) && st.closed && Reaches(cap, st, events, st')
    ensures st'.closed && st'.sessions == map[]
    decreases |events|
  {
    var o :| InvFor(cap, st, o);
    if events != [] {
      var next := Apply(cap, st, events[0]).value;
      EventKeeps(cap, st, events[0]);
      StaysClosed(cap, st, events[0]);
      ClosedForGood(cap, next, events[1..], st');
    }
  }

  lemma StaysClosed(cap: nat, st: State, e: Event)
    requires st.closed && Apply(cap, st, e).Some?
    ensures Apply(cap, st, e).value.closed
  {
  }

  /** Once every request has finished nothing is held and nothing leaks. */
  lemma NothingLeaks(cap: nat, st: State)
    requires Reachable(cap, st) && forall t | 0 <= t < |st.threads| :: st.threads[t].Done?
    ensures st.mu == None && st.sem == {} && st.active == |st.sessions|
    ensures forall s | 0 <= s < |st.objs| ::
      st.objs[s].lock == None && st.objs[s].closes == (if s in st.sessions.Values then 0 else 1)
    ensures forall s | s in st.sessions.Values :: s < |st.objs| && !st.objs[s].closed
    ensures st.closed ==> st.active == 0 && forall s | 0 <= s < |st.objs| :: st.objs[s].closes == 1
  {
    var o := ReachableKeepsInv(cap, st);
    assert forall t | 0 <= t < |st.threads| :: Tokens(st.threads[t]) == 0;
    assert Owned(st, o) == st.sessions.Values;
    forall id | id in st.sessions ensures st.sessions[id] < |st.objs| && !st.objs[st.sessions[id]].closed {
      ClosedHasRemover(cap, st, id);
    }
  }

  // Progress

  /** The thread can move although no request context ends. */
  ghost predicate CanMove(cap: nat, st: State, t: Tid) {
    t < |st.threads| && exists c: Choice :: !c.GiveUp? && Step(cap, st, t, c).Some?
  }

  lemma MoveBy(cap: nat, st: State, t: Tid, c: Choice)
    requires t < |st.threads| && !c.GiveUp? && Step(cap, st, t, c).Some?
    ensures CanMove(cap, st, t)
  {
  }

  lemma MuHolderMoves(cap: nat, st: State, o: Owner, t: Tid)
    requires t < |st.threads| && Here(st, o, t) && InMu(st.threads[t])
    ensures CanMove(cap, st, t)
  {
    match st.threads[t]
    case Create(_, _) => MoveBy(cap, st, t, Register(""));
    case Detach(_, expiry, _, _) =>
      if expiry && st.threads[t].id in st.sessions { MoveBy(cap, st, t, Fail); } else { MoveBy(cap, st, t, Proceed); }
    case _ => MoveBy(cap, st, t, Proceed);
  }

  lemma LockHolderMoves(cap: nat, st: State, o: Owner, t: Tid)
    requires t < |st.threads| && Here(st, o, t) && LockOf(st.threads[t]).Some? && st.mu == None
    ensures CanMove(cap, st, t)
  {
    MoveBy(cap, st, t, Proceed);
  }

  /** A thread that wants or holds the semaphore, or wants a session mutex, is not stuck for good. */
  lemma SomeoneMoves(cap: nat, st: State, o: Owner, t: Tid) returns (mover: Tid)
    requires InvFor(cap, st, o) && st.mu == None && t < |st.threads| && !st.threads[t].Done?
    requires |st.sem| < cap || HoldsSem(st.threads[t])
    ensures CanMove(cap, st, mover)
  {
    mover := t;
    assert Here(st, o, t);
    var pc := st.threads[t];
    var wanted :=
      if pc.Push? && pc.push.AwaitLock? then Some(pc.s)
      else if pc.Close? && pc.close.AwaitClose? then Some(pc.s)
      else if pc.Shutdown? && pc.shut.Next? && pc.rest != {} then (var r :| r in pc.rest; Some(r))
      else None;
    if wanted.Some? {
      var s := wanted.value;
      if st.objs[s].lock.Some? {
        mover := st.objs[s].lock.value;
        assert Here(st, o, mover);
        LockHolderMoves(cap, st, o, mover);
      } else {
        MoveBy(cap, st, t, if pc.Shutdown? then Pick(s) else Proceed);
      }
    } else if LockOf(pc).Some? {
      LockHolderMoves(cap, st, o, t);
    } else if pc.Create? && pc.create.Start? && st.active != 0 {
      MoveBy(cap, st, t, Fail);
    } else {
      MoveBy(cap, st, t, Proceed);
    }
  }

  /** No deadlock: while some thread is unfinished, some thread can move. */
  lemma Progress(cap: nat, st: State, t: Tid) returns (mover: Tid)
    requires Reachable(cap, st) && cap > 0 && t < |st.threads| && !st.threads[t].Done?
    ensures CanMove(cap, st, mover)
  {
    var o := ReachableKeepsInv(cap, st);
    if st.mu.Some? {
      mover := st.mu.value;
      assert Here(st, o, mover);
      MuHolderMoves(cap, st, o, mover);
    } else if |st.sem| < cap {
      mover := SomeoneMoves(cap, st, o, t);
    } else {
      var holder :| holder in st.sem;
      mover := SomeoneMoves(cap, st, o, holder);
    }
  }

  /** Steps the thread can still take; a sweep finds at most one session. */
  function Rank(pc: PC): nat {
    match pc
    case Create(phase, _) => (
      match phase
      case Start => 9 case AwaitSem => 8 case Opening => 7 case Opened => 6 case Registering => 5
      case Discarding => 4 case FreeSem => 3 case FreeToken => 2 case Kept => 1)
    case Lookup(_, _, inMu) => if inMu then 19 else 20
    case Push(phase, _, _, _) => (
      match phase
      case Queued => 18 case AwaitLock => 17 case Check => 16 case AwaitBusy => 15 case SetBusy => 14
      case Infer => 13 case AwaitIdle => 12 case SetIdle => 11 case Unlocking => 10)
    case DropSem => 1
    case Detach(_, _, _, inMu) => if inMu then 8 else 9
    case Close(phase, _, _) => (
      match phase case AwaitClose => 7 case Closing => 6 case Drain => 5 case Unlock => 4)
    case Shutdown(phase, _, rest) => (
      match phase
      case AwaitSweep => 7 case Sweep => 6 case Next => 4 * |rest| + 1
      case Shut => 4 * |rest| + 4 case Release => 4 * |rest| + 3 case DrainOne => 4 * |rest| + 2)
    case Done => 0
  }

  function RankSum(threads: seq<PC>): nat {
    Lists.SumOf(threads, Rank)
  }

  lemma StepDescends(cap: nat, st: State, o: Owner, t: Tid, c: Choice)
    requires InvFor(cap, st, o) && t < |st.threads| && Step(cap, st, t, c).Some?
    ensures RankSum(Step(cap, st, t, c).value.threads) < RankSum(st.threads)
  {
    var st' := Step(cap, st, t, c).value;
    assert Here(st, o, t);
    StepLocal(cap, st, o, t, c);
    Lists.SumOfUpdate(st.threads, Rank, t, st'.threads[t]);
    StepLowersRank(cap, st, t, c);
  }

  lemma QueueLowersRank(cap: nat, st: State, t: Tid, c: Choice)
    requires t < |st.threads| && st.threads[t].Push? && PushStep(cap, st, t, c).Some?
    requires var phase := st.threads[t].push; phase.Queued? || phase.AwaitLock? || phase.Check? || phase.AwaitBusy? || phase.SetBusy?
    ensures |PushStep(cap, st, t, c).value.threads| == |st.threads|
    ensures Rank(PushStep(cap, st, t, c).value.threads[t]) < Rank(st.threads[t])
  {
  }

  lemma LeaveLowersRank(cap: nat, st: State, t: Tid, c: Choice)
    requires t < |st.threads| && st.threads[t].Push? && PushStep(cap, st, t, c).Some?
    requires var phase := st.threads[t].push; phase.Infer? || phase.AwaitIdle? || phase.SetIdle? || phase.Unlocking?
    ensures |PushStep(cap, st, t, c).value.threads| == |st.threads|
    ensures Rank(PushStep(cap, st, t, c).value.threads[t]) < Rank(st.threads[t])
  {
  }

  lemma PushLowersRank(cap: nat, st: State, t: Tid, c: Choice)
    requires t < |st.threads| && st.threads[t].Push? && Step(cap, st, t, c).Some?
    ensures |Step(cap, st, t, c).value.threads| == |st.threads|
    ensures Rank(Step(cap, st, t, c).value.threads[t]) < Rank(st.threads[t])
  {
    hide PushStep, Rank;
    var phase := st.threads[t].push;
    if phase.Infer? || phase.AwaitIdle? || phase.SetIdle? || phase.Unlocking? {
      LeaveLowersRank(cap, st, t, c);
    } else {
      QueueLowersRank(cap, st, t, c);
    }
  }

  lemma SweepLowersRank(st: State, t: Tid, c: Choice)
    requires t < |st.threads| && st.threads[t].Shutdown? && ShutStep(st, t, c).Some? && |st.sessions| <= 1
    requires var phase := st.threads[t].shut; phase.AwaitSweep? || phase.Sweep?
    ensures |ShutStep(st, t, c).value.threads| == |st.threads|
    ensures Rank(ShutStep(st, t, c).value.threads[t]) < Rank(st.threads[t])
  {
  }

  lemma NextLowersRank(st: State, t: Tid, c: Choice)
    requires t < |st.threads| && st.threads[t].Shutdown? && ShutStep(st, t, c).Some? && st.threads[t].shut.Next?
    ensures |ShutStep(st, t, c).value.threads| == |st.threads|
    ensures Rank(ShutStep(st, t, c).value.threads[t]) < Rank(st.threads[t])
  {
    var rest := st.threads[t].rest;
    if c.Pick? {
      assert c.s in rest ==> |rest - {c.s}| == |rest| - 1;
    }
  }

  lemma OneLowersRank(st: State, t: Tid, c: Choice)
    requires t < |st.threads| && st.threads[t].Shutdown? && ShutStep(st, t, c).Some?
    requires var phase := st.threads[t].shut; phase.Shut? || phase.Release? || phase.DrainOne?
    ensures |ShutStep(st, t, c).value.threads| == |st.threads|
    ensures Rank(ShutStep(st, t, c).value.threads[t]) < Rank(st.threads[t])
  {
  }

  lemma ShutLowersRank(cap: nat, st: State, t: Tid, c: Choice)
    requires t < |st.threads| && st.threads[t].Shutdown? && Step(cap, st, t, c).Some?
    requires |st.sessions| <= 1
    ensures |Step(cap, st, t, c).value.threads| == |st.threads|
    ensures Rank(Step(cap, st, t, c).value.threads[t]) < Rank(st.threads[t])
  {
    hide ShutStep, Rank;
    var phase := st.threads[t].shut;
    if phase.AwaitSweep? || phase.Sweep? {
      SweepLowersRank(st, t, c);
    } else if phase.Next? {
      NextLowersRank(st, t, c);
    } else {
      OneLowersRank(st, t, c);
    }
  }

  lemma StepLowersRank(cap: nat, st: State, t: Tid, c: Choice)
    requires t < |st.threads| && Step(cap, st, t, c).Some? && |st.sessions| <= 1
    ensures |Step(cap, st, t, c).value.threads| == |st.threads|
    ensures Rank(Step(cap, st, t, c).value.threads[t]) < Rank(st.threads[t])
  {
    match st.threads[t]
    case Create(_, _) =>
    case Push(_, _, _, _) => PushLowersRank(cap, st, t, c);
    case Shutdown(_, _, _) => ShutLowersRank(cap, st, t, c);
    case _ =>
  }

  /** Without new requests every run is finite; with Progress, it ends with every thread done. */
  lemma {:induction false} RunsEnd(cap: nat, st: State, events: seq<Event>, st': State)
    requires Inv(cap, st) && Reaches(cap, st, events, st') && forall e | e in events :: e.Run?
    ensures |events| + RankSum(st'.threads) <= RankSum(st.threads)
    decreases |events|
  {
    if events != [] {
      var o :| InvFor(cap, st, o);
      var e := events[0];
      assert e in events;
      var next := Apply(cap, st, e).value;
      StepDescends(cap, st, o, e.tid, e.c);
      StepKeeps(cap, st, o, e.tid, e.c);
      RunsEnd(cap, next, events[1..], st');
    }
  }
}
