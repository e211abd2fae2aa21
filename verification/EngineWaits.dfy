/** Who waits for a running generation, mobile/engine.go:22-28. */
module EngineWaits {
  import opened Wrappers
  import opened EngineLocks
  import opened EngineSafety
  import opened EngineTheorems

  predicate Streaming(st: State, g: Tid) {
    g < |st.threads| && st.threads[g].Run? && st.threads[g].run.Stream?
  }

  // Status queries and Cancel

  /**
   A status query or a Cancel needs nothing but mu: it can move unless another
   thread is inside mu, that thread is in no generation and in no model, and
   its next step, which it can always take, leaves mu.
   */
  lemma BriefNeedsOnlyMu(st: State, t: Tid, c: Choice)
    requires Reachable(st) && t < |st.threads| && (st.threads[t].Cancel? || st.threads[t].Query?)
    ensures Step(st, t, c).Some? || (st.mu.Some? && st.mu.value < |st.threads| && st.mu.value != t)
    ensures st.mu.Some? ==>
              && st.mu.value < |st.threads| && !Streaming(st, st.mu.value)
              && Step(st, st.mu.value, c).Some? && Step(st, st.mu.value, c).value.mu == None
  {
    ReachableKeepsInv(st);
    assert st.mu.Some? ==> st.mu.value < |st.threads| && InMu(st.threads[st.mu.value]);
    assert InMu(st.threads[t]) ==> st.mu == Some(t);
    BriefMoves(st, t, c);
    hide *;
    if st.mu.Some? {
      HereOf(st, st.mu.value);
      InMuLeaves(st, st.mu.value, c);
    }
  }

  lemma BriefMoves(st: State, t: Tid, c: Choice)
    requires t < |st.threads| && (st.threads[t].Cancel? || st.threads[t].Query?)
    ensures Step(st, t, c).Some? <==> InMu(st.threads[t]) || (st.threads[t].Cancel? && st.threads[t].cancel.BriefCall?) || st.mu == None
  {
  }

  lemma InMuLeaves(st: State, h: Tid, c: Choice)
    requires h < |st.threads| && InMu(st.threads[h]) && Here(st, h)
    ensures !Streaming(st, h) && Step(st, h, c).Some? && Step(st, h, c).value.mu == None
  {
    InMuMoves(st, h, c);
    StepLocal(st, h, c);
    hide Step, Here;
  }

  lemma InMuMoves(st: State, h: Tid, c: Choice)
    requires h < |st.threads| && InMu(st.threads[h])
    ensures Step(st, h, c).Some?
  {
  }

  // CountTokens

  /**
   Beside a running generation CountTokens can enter if and only if no Load,
   Unload or Close has announced itself. Otherwise it waits for the generation:
   as long as that streams, neither the writer nor the count can move.
   */
  lemma CountWaitsExactly(st: State, g: Tid, t: Tid)
    requires Reachable(st) && Streaming(st, g)
    requires t < |st.threads| && st.threads[t].Count? && st.threads[t].count.CountRead?
    ensures !CanMove(st, t) <==> st.writer.Some?
    ensures st.writer.Some? ==> st.writer.value < |st.threads| && !CanMove(st, st.writer.value)
  {
    ReachableKeepsInv(st);
    assert Step(st, t, Proceed).Some? <==> st.writer == None;
    if st.writer.Some? {
      HereOf(st, g);
      HereOf(st, st.writer.value);
      assert g in st.readers;
    }
  }

  /** "CountTokens runs alongside one" fails here: a generation streams, Unload waits for it, and CountTokens behind Unload. */
  lemma CountMayWait() returns (st: State, g: Tid, t: Tid)
    ensures Reachable(st) && Streaming(st, g)
    ensures t < |st.threads| && st.threads[t].Count? && !CanMove(st, t)
  {
    ReleaseMayMissARequest();
    var s: State :| && Reachable(s) && |s.threads| == 3
                    && s.threads[1] == Run(Stream, 0) && 1 !in s.cancelled
                    && s.threads[2] == Release(ReleaseDrain, false, None, None);
    var count := Count(CountRead, 0);
    st, g, t := s.(threads := s.threads + [count]), 1, 3;
    Chain(s, Call(count), st);
    ReachableKeepsInv(st);
    HereOf(st, 2);
    assert st.writer == Some(2);
    CountWaitsExactly(st, g, t);
  }

  // The order of generations

  predicate Queued(st: State, t: Tid) {
    t < |st.threads| && st.threads[t].Run? && st.threads[t].run.AwaitGen?
  }

  /**
   Requests are documented to run in arrival order (mobile/engine.go:26-27).
   The mutex keeps no such order: whichever waiting request comes first to the
   free mutex takes it, however many others arrived before.
   */
  lemma AnyQueuedMayEnter(st: State, earlier: Tid, later: Tid, c: Choice)
    requires Reachable(st) && Queued(st, earlier) && Queued(st, later) && earlier < later
    ensures Step(st, later, c).Some? <==> st.gen == None
    ensures Step(st, later, c).Some? ==>
              var next := Step(st, later, c).value; HoldsGen(next.threads[later]) && Queued(next, earlier)
  {
  }

  /** A later request generates while an earlier one waits. */
  lemma MayOvertake() returns (st: State, earlier: Tid, later: Tid)
    ensures Reachable(st) && earlier < later && Queued(st, earlier) && later < |st.threads| && HoldsGen(st.threads[later])
  {
    var request := Run(AwaitGen, 0);
    assert Reaches(INIT, [], INIT);
    var one := INIT.(threads := INIT.threads + [request]);
    Chain(INIT, Call(request), one);
    var two := one.(threads := one.threads + [request]);
    Chain(one, Call(request), two);
    st, earlier, later := two.(gen := Some(1)).Go(1, Run(RunRead, 0)), 0, 1;
    Chain(two, Move(1, Proceed), st);
  }

  // Which generations a release cancels

  /** The release has read e.cancel and keeps what it read. */
  predicate Looked(st: State, t: Tid, seen: Option<Tid>) {
    t < |st.threads| &&
    (st.threads[t].Done? ||
     (st.threads[t].Release? && !st.threads[t].release.ReadCancel? && !st.threads[t].release.InReadCancel? && st.threads[t].seen == seen))
  }

  lemma LookedStays(st: State, t: Tid, seen: Option<Tid>, e: Event)
    requires Inv(st) && Looked(st, t, seen) && Apply(st, e).Some?
    ensures Looked(Apply(st, e).value, t, seen)
  {
    if e.Move? {
      HereOf(st, e.tid);
      if e.tid == t {
        ReleaseKeepsSeen(st, t, e.c, seen);
      } else {
        StepLocal(st, e.tid, e.c);
        hide LocksLocal, ModelLocal, Step, Here, Inv;
        assert Apply(st, e).value.threads[t] == st.threads[t];
      }
    }
  }

  lemma ReleaseKeepsSeen(st: State, t: Tid, c: Choice, seen: Option<Tid>)
    requires Looked(st, t, seen) && Step(st, t, c).Some?
    ensures Looked(Step(st, t, c).value, t, seen)
  {
  }

  lemma {:induction false} LookedLater(st: State, t: Tid, seen: Option<Tid>, events: seq<Event>, st': State)
    requires Inv(st) && Looked(st, t, seen) && Reaches(st, events, st')
    ensures Looked(st', t, seen) && Inv(st')
    decreases |events|
  {
    if events != [] {
      LookedStays(st, t, seen, events[0]);
      EventKeeps(st, events[0]);
      hide Looked, Inv;
      LookedLater(Apply(st, events[0]).value, t, seen, events[1..], st');
    }
  }

  /**
   From the moment an Unload or Close reads e.cancel in state s: by the time it
   waits for the model, and for as long as it does, it has cancelled the
   generation that had stored its cancel function when it looked, and it has
   cancelled no other; a generation that stored it later it waits for as it is.
   */
  lemma ReleaseCancelsExactly(s: State, t: Tid, g: Tid, events: seq<Event>, st: State)
    requires Reachable(s) && t < |s.threads| && g < |s.threads|
    requires s.threads[t].Release? && s.threads[t].release.InReadCancel?
    requires Step(s, t, Proceed).Some? ==> Reaches(Step(s, t, Proceed).value, events, st)
    requires t < |st.threads| && Writes(st.threads[t])
    ensures st.threads[t].Release? && (st.threads[t].seen == Some(g) <==> OwnsCancel(s.threads[g]))
    ensures OwnsCancel(s.threads[g]) ==> g in st.cancelled
  {
    ReachableKeepsInv(s);
    OneGeneration(s, g, g);
    ReleaseSees(s, t, g, Proceed);
    var next := Step(s, t, Proceed).value;
    StepKeeps(s, t, Proceed);
    LookedLater(next, t, s.cancel, events, st);
    HereOf(st, t);
  }
}
