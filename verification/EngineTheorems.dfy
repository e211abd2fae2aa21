/** The promises of the engine, for every reachable state. */
module EngineTheorems {
  import opened Wrappers
  import Lists
  import opened EngineLocks
  import opened EngineSafety

  ghost predicate Reachable(st: State) {
    exists events :: Reaches(INIT, events, st)
  }

  lemma ReachableKeepsInv(st: State)
    requires Reachable(st)
    ensures Inv(st)
  {
    var events :| Reaches(INIT, events, st);
    assert Inv(INIT);
    ReachableInv(INIT, events, st);
  }

  /** Weights are never unmapped under inference: whoever uses a model shares life, and that model is the open one. */
  lemma UserHoldsOpenModel(st: State, t: Tid, other: Tid)
    requires Reachable(st) && t < |st.threads| && other < |st.threads| && Uses(st.threads[t]).Some?
    ensures t in st.readers && st.model == Uses(st.threads[t]) && !st.closed
    ensures st.model.value < |st.closes| && st.closes[st.model.value] == 0
    ensures !Excludes(st.threads[other]) && Carries(st.threads[other]) != Uses(st.threads[t])
  {
    ReachableKeepsInv(st);
    HereOf(st, t);
    HereOf(st, other);
    assert st.model.value in Open(st);
  }

  /** A model is closed only while it is open and nobody uses it. */
  lemma CloseIsExclusive(st: State, t: Tid, other: Tid)
    requires Reachable(st) && t < |st.threads| && other < |st.threads| && Closes(st.threads[t])
    ensures Carries(st.threads[t]).Some? && Carries(st.threads[t]).value < |st.closes|
    ensures st.closes[Carries(st.threads[t]).value] == 0
    ensures Uses(st.threads[other]) == None && st.readers == {} && st.model == None
  {
    ReachableKeepsInv(st);
    HereOf(st, t);
    HereOf(st, other);
    assert Carries(st.threads[t]).value in Open(st);
  }

  /** A status query that finds a model under mu finds an open one. */
  lemma QuerySeesOpenModel(st: State, t: Tid)
    requires Reachable(st) && t < |st.threads| && InMu(st.threads[t]) && st.model.Some?
    ensures st.model.value < |st.closes| && st.closes[st.model.value] == 0
  {
    ReachableKeepsInv(st);
    assert st.model.value in Open(st);
  }

  lemma ClosedAtMostOnce(st: State, m: Ref)
    requires Reachable(st) && m < |st.closes|
    ensures st.closes[m] <= 1
    ensures st.closes[m] == 0 <==> m in Open(st)
  {
    ReachableKeepsInv(st);
  }

  /** At most one request is past the generation queue, and e.cancel is set exactly while a request has stored it. */
  lemma OneGeneration(st: State, a: Tid, b: Tid)
    requires Reachable(st) && a < |st.threads| && b < |st.threads|
    ensures HoldsGen(st.threads[a]) && HoldsGen(st.threads[b]) ==> a == b
    ensures st.cancel == Some(a) <==> OwnsCancel(st.threads[a])
    ensures st.cancel == Some(a) ==> st.gen == Some(a) && a in st.readers
  {
    ReachableKeepsInv(st);
    HereOf(st, a);
    HereOf(st, b);
  }

  /** What a release reads: a request g is seen if and only if g has stored its cancel and not yet dropped it. */
  lemma ReleaseSees(st: State, t: Tid, g: Tid, c: Choice)
    requires Reachable(st) && t < |st.threads| && g < |st.threads|
    requires st.threads[t].Release? && st.threads[t].release.InReadCancel?
    ensures Step(st, t, c).Some? && |Step(st, t, c).value.threads| == |st.threads|
    ensures var pc := Step(st, t, c).value.threads[t];
      pc.Release? && pc.release.CallCancel? && (pc.seen == Some(g) <==> OwnsCancel(st.threads[g]))
  {
    OneGeneration(st, g, g);
  }

  /**
   The documented "cancel it first" is not true of every request: here a
   generation that had not stored its cancel when Unload looked keeps running,
   uncancelled, and Unload waits for it.
   */
  lemma ReleaseMayMissARequest()
    ensures exists st ::
      && Reachable(st) && |st.threads| == 3
      && st.threads[1] == Run(Stream, 0) && 1 !in st.cancelled
      && st.threads[2] == Release(ReleaseDrain, false, None, None)
  {
    var load, run, release := Load(LoadStart, 0), Run(AwaitGen, 0), Release(ReadCancel, false, None, None);
    assert Reaches(INIT, [], INIT);
    var a := INIT.(threads := INIT.threads + [load]);
    var b := a.(threads := a.threads + [run]);
    var s0 := b.(threads := b.threads + [release]);
    Chain(INIT, Call(load), a); Chain(a, Call(run), b); Chain(b, Call(release), s0);
    var s9 := LoadRuns(s0);
    var t4 := RunLooks(s9);
    var u4 := ReleaseLooks(t4);
    // the request goes on
    var r := Move(1, Proceed);
    var v1 := u4.(mu := Some(1)).Go(1, Run(CancelSet, 0));
    var v2 := v1.(mu := None, cancel := Some(1)).Go(1, Run(Stream, 0));
    Chain(u4, r, v1); Chain(v1, r, v2);
  }

  /** The request finds the model, but has not stored its cancel. */
  lemma RunLooks(s9: State) returns (t4: State)
    requires Reachable(s9) && |s9.threads| > 1 && s9.threads[1] == Run(AwaitGen, 0)
    requires s9.(threads := []) == INIT.(closes := [0], model := Some(0))
    ensures Reachable(t4)
    ensures t4 == s9.(gen := Some(1), readers := {1}, threads := s9.threads[1 := Run(AwaitCancelSet, 0)])
  {
    var r := Move(1, Proceed);
    var t1 := s9.(gen := Some(1)).Go(1, Run(RunRead, 0));
    var t2 := t1.(readers := t1.readers + {1}).Go(1, Run(RunAwaitLook, 0));
    var t3 := t2.(mu := Some(1)).Go(1, Run(RunLook, 0));
    t4 := t3.(mu := None).Go(1, Run(AwaitCancelSet, 0));
    Chain(s9, r, t1); Chain(t1, r, t2); Chain(t2, r, t3); Chain(t3, r, t4);
  }

  /** Thread 2 looks, finds nothing to cancel, and queues for the model. */
  lemma ReleaseLooks(t4: State) returns (u4: State)
    requires Reachable(t4) && |t4.threads| == 3 && t4.threads[2] == Release(ReadCancel, false, None, None)
    requires t4.mu == None && t4.writer == None && t4.cancel == None
    ensures Reachable(u4)
    ensures u4 == t4.(writer := Some(2), threads := t4.threads[2 := Release(ReleaseDrain, false, None, None)])
  {
    var u := Move(2, Proceed);
    var u1 := t4.(mu := Some(2)).Go(2, Release(InReadCancel, false, None, None));
    var u2 := u1.(mu := None).Go(2, Release(CallCancel, false, None, None));
    var u3 := u2.Go(2, Release(ReleaseStart, false, None, None));
    u4 := u3.(writer := Some(2)).Go(2, Release(ReleaseDrain, false, None, None));
    Chain(t4, u, u1); Chain(u1, u, u2); Chain(u2, u, u3); Chain(u3, u, u4);
  }

  /** Thread 0 loads model 0 without interruption. */
  lemma LoadRuns(s0: State) returns (s9: State)
    requires Reachable(s0) && |s0.threads| > 0 && s0.threads[0] == Load(LoadStart, 0)
    requires s0.(threads := []) == INIT
    ensures Reachable(s9) && s9 == INIT.(closes := [0], model := Some(0), threads := s0.threads[0 := Done])
  {
    var l := Move(0, Proceed);
    var s1 := s0.(writer := Some(0)).Go(0, Load(LoadDrain, 0));
    var s2 := s1.Go(0, Load(LoadAwaitLook, 0));
    var s3 := s2.(mu := Some(0)).Go(0, Load(LoadLook, 0));
    var s4 := s3.(mu := None).Go(0, Load(Opening, 0));
    Chain(s0, l, s1); Chain(s1, l, s2); Chain(s2, l, s3); Chain(s3, l, s4);
    s9 := LoadOpens(s4);
    assert s9.threads == s0.threads[0 := Done];
  }

  lemma LoadOpens(s4: State) returns (s9: State)
    requires Reachable(s4) && |s4.threads| > 0 && s4.threads[0] == Load(Opening, 0)
    requires s4.(threads := [], writer := None) == INIT && s4.writer == Some(0)
    ensures Reachable(s9) && s9 == INIT.(closes := [0], model := Some(0), threads := s4.threads[0 := Done])
  {
    var l := Move(0, Proceed);
    var s5 := s4.(closes := s4.closes + [0]).Go(0, Load(Describe, 0));
    var s6 := s5.Go(0, Load(AwaitStore, 0));
    var s7 := s6.(mu := Some(0)).Go(0, Load(Store, 0));
    var s8 := s7.(mu := None, model := Some(0)).Go(0, Load(LoadLeave, 0));
    s9 := s8.(writer := None).Go(0, Done);
    Chain(s4, l, s5); Chain(s5, l, s6); Chain(s6, l, s7); Chain(s7, l, s8); Chain(s8, l, s9);
    assert s9.threads == s4.threads[0 := Done] && s9.closes == [0];
  }

  lemma {:induction false} Extend(st: State, events: seq<Event>, mid: State, e: Event, st': State)
    requires Reaches(st, events, mid) && Apply(mid, e) == Some(st')
    ensures Reaches(st, events + [e], st')
    decreases |events|
  {
    if events == [] {
      assert events + [e] == [e];
    } else {
      Extend(Apply(st, events[0]).value, events[1..], mid, e, st');
      assert (events + [e])[1..] == events[1..] + [e];
    }
  }

  lemma Chain(st: State, e: Event, st': State)
    requires Reachable(st) && Apply(st, e) == Some(st')
    ensures Reachable(st')
  {
    var events :| Reaches(INIT, events, st);
    Extend(INIT, events, st, e, st');
  }

  /** A closed engine stays closed and never has a model again. */
  lemma {:induction false} ClosedForGood(st: State, events: seq<Event>, st': State)
    requires Inv(st) && st.closed && Reaches(st, events, st')
    ensures st'.closed && st'.model == None
    decreases |events|
  {
    if events != [] {
      EventKeeps(st, events[0]);
      StaysClosed(st, events[0]);
      ClosedForGood(Apply(st, events[0]).value, events[1..], st');
    }
  }

  lemma StaysClosed(st: State, e: Event)
    requires st.closed && Apply(st, e).Some?
    ensures Apply(st, e).value.closed
  {
  }

  /** When Unload or Close returns, no model is loaded, and Close has closed the engine. */
  lemma ReleaseUnloads(st: State, t: Tid, c: Choice)
    requires Reachable(st) && t < |st.threads| && st.threads[t].Release?
    requires Step(st, t, c).Some? && |Step(st, t, c).value.threads| == |st.threads|
    requires Step(st, t, c).value.threads[t].Done?
    ensures Step(st, t, c).value.model == None && (st.threads[t].closing ==> Step(st, t, c).value.closed)
  {
    ReachableKeepsInv(st);
    HereOf(st, t);
  }

  /** When every call has returned, no lock is held and only the model in the field is open. */
  lemma NothingLeaks(st: State)
    requires Reachable(st) && forall t | 0 <= t < |st.threads| :: st.threads[t].Done?
    ensures st.gen == None && st.writer == None && st.readers == {} && st.mu == None && st.cancel == None
    ensures forall m | 0 <= m < |st.closes| :: st.closes[m] == if st.model == Some(m) then 0 else 1
    ensures st.closed ==> forall m | 0 <= m < |st.closes| :: st.closes[m] == 1
  {
    ReachableKeepsInv(st);
    assert forall t | 0 <= t < |st.threads| ::
      !InMu(st.threads[t]) && !HoldsGen(st.threads[t]) && !Writes(st.threads[t]) && !Reads(st.threads[t]) &&
      !OwnsCancel(st.threads[t]);
  }

  // Progress

  ghost predicate CanMove(st: State, t: Tid) {
    t < |st.threads| && exists c: Choice :: Step(st, t, c).Some?
  }

  lemma MoveBy(st: State, t: Tid, c: Choice)
    requires t < |st.threads| && Step(st, t, c).Some?
    ensures CanMove(st, t)
  {
  }

  /** A thread that waits neither for gen nor for life moves whenever mu is free or its own. */
  lemma Unhindered(st: State, t: Tid)
    requires t < |st.threads| && Here(st, t) && !st.threads[t].Done? && (st.mu == None || st.mu == Some(t))
    requires Reads(st.threads[t]) || (Writes(st.threads[t]) && st.readers == {}) || InMu(st.threads[t])
    ensures CanMove(st, t)
  {
    MoveBy(st, t, Proceed);
  }

  /** With mu free, whoever stands in the way of a life user can move. */
  lemma LifeMoves(st: State, t: Tid) returns (mover: Tid)
    requires Inv(st) && st.mu == None && t < |st.threads| && !st.threads[t].Done?
    requires st.threads[t].Run? ==> !st.threads[t].run.AwaitGen?
    ensures CanMove(st, mover)
  {
    HereOf(st, t);
    if st.writer.Some? {
      HereOf(st, st.writer.value);
      if r :| r in st.readers {
        mover := r;
        HereOf(st, r);
      } else {
        mover := st.writer.value;
      }
      Unhindered(st, mover);
    } else {
      mover := t;
      MoveBy(st, t, Proceed);
    }
  }

  /** No deadlock: the order gen, life, mu leaves some unfinished call able to move. */
  lemma Progress(st: State, t: Tid) returns (mover: Tid)
    requires Reachable(st) && t < |st.threads| && !st.threads[t].Done?
    ensures CanMove(st, mover)
  {
    ReachableKeepsInv(st);
    if st.mu.Some? {
      mover := st.mu.value;
      HereOf(st, mover);
      Unhindered(st, mover);
    } else if st.threads[t].Run? && st.threads[t].run.AwaitGen? {
      if st.gen.None? {
        mover := t;
        MoveBy(st, t, Proceed);
      } else {
        HereOf(st, st.gen.value);
        mover := LifeMoves(st, st.gen.value);
      }
    } else {
      mover := LifeMoves(st, t);
    }
  }

  /** Steps a call can still take. */
  function Rank(pc: PC): nat {
    match pc
    case Load(phase, _) => (
      match phase
      case LoadStart => 10 case LoadDrain => 9 case LoadAwaitLook => 8 case LoadLook => 7 case Opening => 6
      case Describe => 5 case CloseOpened => 2 case AwaitStore => 3 case Store => 2 case LoadLeave => 1)
    case Release(phase, _, _, _) => (
      match phase
      case ReadCancel => 9 case InReadCancel => 8 case CallCancel => 7 case ReleaseStart => 6 case ReleaseDrain => 5
      case AwaitClear => 4 case Clear => 3 case CloseModel => 2 case ReleaseLeave => 1)
    case Run(phase, _) => (
      match phase
      case AwaitGen => 11 case RunRead => 10 case RunAwaitLook => 9 case RunLook => 8 case AwaitCancelSet => 7
      case CancelSet => 6 case Stream => 5 case AwaitCancelDrop => 4 case CancelDrop => 3 case RunUnread => 2
      case LeaveGen => 1)
    case Count(phase, _) => (
      match phase
      case CountRead => 5 case CountAwaitLook => 4 case CountLook => 3 case Tokenize => 2 case CountUnread => 1)
    case Cancel(phase, _) => (match phase case BriefStart => 3 case BriefInMu => 2 case BriefCall => 1)
    case Query(inMu) => if inMu then 1 else 2
    case Done => 0
  }

  function RankSum(threads: seq<PC>): nat {
    Lists.SumOf(threads, Rank)
  }

  lemma StepLowersRank(st: State, t: Tid, c: Choice)
    requires t < |st.threads| && Step(st, t, c).Some?
    ensures |Step(st, t, c).value.threads| == |st.threads|
    ensures Rank(Step(st, t, c).value.threads[t]) < Rank(st.threads[t])
  {
    match st.threads[t]
    case Load(_, _) => LoadLowersRank(st, t, c);
    case Release(_, _, _, _) => ReleaseLowersRank(st, t, c);
    case Run(_, _) =>
    case _ =>
  }

  lemma LoadLowersRank(st: State, t: Tid, c: Choice)
    requires t < |st.threads| && st.threads[t].Load? && Step(st, t, c).Some?
    ensures |Step(st, t, c).value.threads| == |st.threads|
    ensures Rank(Step(st, t, c).value.threads[t]) < Rank(st.threads[t])
  {
  }

  lemma ReleaseLowersRank(st: State, t: Tid, c: Choice)
    requires t < |st.threads| && st.threads[t].Release? && Step(st, t, c).Some?
    ensures |Step(st, t, c).value.threads| == |st.threads|
    ensures Rank(Step(st, t, c).value.threads[t]) < Rank(st.threads[t])
  {
  }

  /** Without new calls every run is finite; with Progress, it ends with every call returned. */
  lemma {:induction false} RunsEnd(st: State, events: seq<Event>, st': State)
    requires Inv(st) && Reaches(st, events, st') && forall e | e in events :: e.Move?
    ensures |events| + RankSum(st'.threads) <= RankSum(st.threads)
    decreases |events|
  {
    if events != [] {
      var e := events[0];
      assert e in events;
      var next := Apply(st, e).value;
      HereOf(st, e.tid);
      StepLocal(st, e.tid, e.c);
      StepLowersRank(st, e.tid, e.c);
      Lists.SumOfUpdate(st.threads, Rank, e.tid, next.threads[e.tid]);
      StepKeeps(st, e.tid, e.c);
      RunsEnd(next, events[1..], st');
    }
  }
}
