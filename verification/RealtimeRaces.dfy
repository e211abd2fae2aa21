/**
 What expiry can and cannot catch. A push is marked busy only after it has
 passed its closed test and taken the registry mutex again, so a timer can
 detach a session between the two (server/audio_routes.go:604-612).
 */
module RealtimeRaces {
  import opened Wrappers
  import opened RealtimeSessions
  import opened RealtimeSafety
  import opened RealtimeTheorems

  /** Thread t is a timer whose next step takes its session out of the registry. */
  predicate Expires(cap: nat, st: State, t: Tid, c: Choice) {
    && t < |st.threads| && st.threads[t].Detach? && st.threads[t].expiry
    && Step(cap, st, t, c).Some? && Step(cap, st, t, c).value.sessions != st.sessions
  }

  /** The push has found session s open and not yet come back from its transcriber. */
  predicate Uses(st: State, user: Tid, s: Ref) {
    user < |st.threads| && Using(st.threads[user]) && st.threads[user].s == s
  }

  /** The push has passed the closed test and waits for the registry mutex, to mark its session busy. */
  predicate Unmarked(st: State, user: Tid, s: Ref) {
    user < |st.threads| && st.threads[user].Push? && st.threads[user].push.AwaitBusy? && st.threads[user].s == s
  }

  /**
   A timer detaches a session under a push if and only if that push holds the
   session's mutex and still waits to mark it busy.
   */
  lemma CaughtExact(cap: nat, st: State, t: Tid, c: Choice)
    requires Reachable(cap, st) && Expires(cap, st, t, c)
    ensures st.threads[t].id in st.sessions && st.sessions[st.threads[t].id] < |st.objs|
    ensures var s := st.sessions[st.threads[t].id];
            && !st.objs[s].busy
            && ((exists user: Tid :: Uses(st, user, s)) <==> (st.objs[s].lock.Some? && Unmarked(st, st.objs[s].lock.value, s)))
  {
    var o := ReachableKeepsInv(cap, st);
    ExpirySparesBusy(cap, st, t, c, t);
    var s := st.sessions[st.threads[t].id];
    if user: Tid :| Uses(st, user, s) {
      ExpirySparesBusy(cap, st, t, c, user);
      assert LockOf(st.threads[user]) == Some(s) && LockInv(st) && MuInv(st);
      assert InMu(st.threads[t]) && st.mu == Some(t);
      assert Unmarked(st, user, s);
    }
    if st.objs[s].lock.Some? && Unmarked(st, st.objs[s].lock.value, s) {
      assert Uses(st, st.objs[s].lock.value, s);
    }
  }

  /** Being caught costs the push its context, not its transcriber: that stays open, and locked by the push alone. */
  lemma CaughtStaysOpen(cap: nat, st: State, user: Tid, s: Ref)
    requires Reachable(cap, st) && Uses(st, user, s)
    ensures s < |st.objs| && st.objs[s].closes == 0 && !st.objs[s].closed && st.objs[s].lock == Some(user)
  {
    var o := ReachableKeepsInv(cap, st);
    assert PcInv(st, st.threads[user]) && LockInv(st) && LockOf(st.threads[user]) == Some(s);
    assert st.objs[s].closes == (if s in Owned(st, o) then 0 else 1);
  }

  // A run in which it happens

  lemma {:induction false} ReachesMore(cap: nat, a: State, events: seq<Event>, b: State, e: Event, c: State)
    requires Reaches(cap, a, events, b) && Apply(cap, b, e) == Some(c)
    ensures Reaches(cap, a, events + [e], c)
    decreases |events|
  {
    if events == [] {
      assert Reaches(cap, c, [], c);
      assert [e][1..] == [];
    } else {
      ReachesMore(cap, Apply(cap, a, events[0]).value, events[1..], b, e, c);
      assert (events + [e])[1..] == events[1..] + [e];
    }
  }

  lemma Chain(cap: nat, a: State, e: Event, b: State)
    requires Reachable(cap, a) && Apply(cap, a, e) == Some(b)
    ensures Reachable(cap, b)
  {
    var events :| Reaches(cap, INIT, events, a);
    ReachesMore(cap, INIT, events, a, e, b);
  }

  const SESSION := Obj(true, None, false, false, 0)

  /** One session has been created and its request is done. */
  lemma OneSession() returns (st: State)
    ensures Reachable(1, st)
    ensures st == State(None, 1, {}, false, map["a" := 0], [SESSION], [Done])
  {
    var run := Run(0, Proceed);
    assert Reaches(1, INIT, [], INIT);
    hide Reachable, Reaches;
    var s0 := INIT.(threads := INIT.threads + [Create(Start, 0)]);
    Chain(1, INIT, Spawn(Create(Start, 0)), s0);
    var s1 := s0.(active := 1).Go(0, Create(AwaitSem, 0));
    Chain(1, s0, run, s1);
    var s2 := s1.(sem := s1.sem + {0}).Go(0, Create(Opening, 0));
    Chain(1, s1, run, s2);
    var s3 := s2.(objs := s2.objs + [Obj(false, None, false, false, 0)]).Go(0, Create(Opened, 0));
    Chain(1, s2, run, s3);
    st := Registers(s3);
  }

  lemma Registers(s3: State) returns (st: State)
    requires Reachable(1, s3) && s3 == State(None, 1, {0}, false, map[], [Obj(false, None, false, false, 0)], [Create(Opened, 0)])
    ensures Reachable(1, st)
    ensures st == State(None, 1, {}, false, map["a" := 0], [SESSION], [Done])
  {
    hide Reachable;
    var s4 := s3.(mu := Some(0)).Go(0, Create(Registering, 0));
    Chain(1, s3, Run(0, Proceed), s4);
    var s5 := s4.(mu := None, sessions := s4.sessions["a" := 0]).Put(0, SESSION).Go(0, Create(Kept, 0));
    Chain(1, s4, Run(0, Register("a")), s5);
    st := s5.(sem := s5.sem - {0}).Go(0, Done);
    Chain(1, s5, Run(0, Proceed), st);
  }

  /** A push has passed the closed test of that session. */
  lemma PushPasses(st: State) returns (st': State)
    requires Reachable(1, st) && st == State(None, 1, {}, false, map["a" := 0], [SESSION], [Done])
    ensures Reachable(1, st')
    ensures st' == State(None, 1, {1}, false, map["a" := 0], [SESSION.(lock := Some(1))], [Done, Push(AwaitBusy, "a", false, 0)])
  {
    var run := Run(1, Proceed);
    hide Reachable;
    var s0 := st.(threads := st.threads + [Lookup("a", false, false)]);
    Chain(1, st, Spawn(Lookup("a", false, false)), s0);
    var s1 := s0.(mu := Some(1)).Go(1, Lookup("a", false, true));
    Chain(1, s0, run, s1);
    var s2 := s1.(mu := None).Go(1, Push(Queued, "a", false, 0));
    Chain(1, s1, run, s2);
    var s3 := s2.(sem := s2.sem + {1}).Go(1, Push(AwaitLock, "a", false, 0));
    Chain(1, s2, run, s3);
    var s4 := s3.Put(0, SESSION.(lock := Some(1))).Go(1, Push(Check, "a", false, 0));
    Chain(1, s3, run, s4);
    st' := s4.Go(1, Push(AwaitBusy, "a", false, 0));
    Chain(1, s4, run, st');
  }

  /** A timer may detach a session, and cancel its context, under a push that has found it open. */
  lemma ExpiryMayCatchAPush() returns (st: State, t: Tid, user: Tid)
    ensures Reachable(1, st) && Expires(1, st, t, Proceed) && user != t
    ensures st.threads[t].id in st.sessions && Uses(st, user, st.sessions[st.threads[t].id])
  {
    var s0 := OneSession();
    var s1 := PushPasses(s0);
    var s2 := s1.(threads := s1.threads + [Detach("a", true, false, false)]);
    Chain(1, s1, Spawn(Detach("a", true, false, false)), s2);
    st, t, user := s2.(mu := Some(2)).Go(2, Detach("a", true, false, true)), 2, 1;
    Chain(1, s2, Run(2, Proceed), st);
    assert "a" !in Step(1, st, 2, Proceed).value.sessions;
  }

  /** From creation to a final push: the session is gone, its transcriber closed, and its token and slot are free again. */
  lemma WholeSession() returns (st: State)
    ensures Reachable(1, st)
    ensures st == State(None, 0, {}, false, map[], [Obj(true, None, true, false, 1)], [Done, Done])
  {
    var s0 := OneSession();
    hide Reachable;
    var run := Run(1, Proceed);
    var a0 := s0.(threads := s0.threads + [Lookup("a", true, false)]);
    Chain(1, s0, Spawn(Lookup("a", true, false)), a0);
    var a1 := a0.(mu := Some(1)).Go(1, Lookup("a", true, true));
    Chain(1, a0, run, a1);
    var a2 := a1.(mu := None).Go(1, Push(Queued, "a", true, 0));
    Chain(1, a1, run, a2);
    var a3 := a2.(sem := a2.sem + {1}).Go(1, Push(AwaitLock, "a", true, 0));
    Chain(1, a2, run, a3);
    var a4 := a3.Put(0, SESSION.(lock := Some(1))).Go(1, Push(Check, "a", true, 0));
    Chain(1, a3, run, a4);
    var a5 := a4.Go(1, Push(AwaitBusy, "a", true, 0));
    Chain(1, a4, run, a5);
    var a9 := Pushes(a5);
    st := Removes(a9);
  }

  lemma Pushes(a5: State) returns (a9: State)
    requires Reachable(1, a5)
    requires a5 == State(None, 1, {1}, false, map["a" := 0], [SESSION.(lock := Some(1))], [Done, Push(AwaitBusy, "a", true, 0)])
    ensures Reachable(1, a9)
    ensures a9 == State(None, 1, {1}, false, map["a" := 0], [SESSION.(lock := Some(1), closed := true)], [Done, Push(Unlocking, "a", true, 0)])
  {
    hide Reachable;
    var run := Run(1, Proceed);
    var a6 := a5.(mu := Some(1)).Go(1, Push(SetBusy, "a", true, 0));
    Chain(1, a5, run, a6);
    var a7 := a6.(mu := None).Put(0, SESSION.(lock := Some(1), busy := true)).Go(1, Push(Infer, "a", true, 0));
    Chain(1, a6, run, a7);
    var a8 := a7.Put(0, Obj(true, Some(1), true, true, 0)).Go(1, Push(AwaitIdle, "a", true, 0));
    Chain(1, a7, run, a8);
    var a8' := a8.(mu := Some(1)).Go(1, Push(SetIdle, "a", true, 0));
    Chain(1, a8, run, a8');
    a9 := a8'.(mu := None).Put(0, SESSION.(lock := Some(1), closed := true)).Go(1, Push(Unlocking, "a", true, 0));
    Chain(1, a8', run, a9);
  }

  lemma Removes(a9: State) returns (st: State)
    requires Reachable(1, a9)
    requires a9 == State(None, 1, {1}, false, map["a" := 0], [SESSION.(lock := Some(1), closed := true)], [Done, Push(Unlocking, "a", true, 0)])
    ensures Reachable(1, st)
    ensures st == State(None, 0, {}, false, map[], [Obj(true, None, true, false, 1)], [Done, Done])
  {
    hide Reachable;
    var run := Run(1, Proceed);
    var b0 := a9.Put(0, SESSION.(closed := true)).Go(1, Detach("a", false, true, false));
    Chain(1, a9, run, b0);
    var b1 := b0.(mu := Some(1)).Go(1, Detach("a", false, true, true));
    Chain(1, b0, run, b1);
    var b2 := b1.(mu := None, sessions := b1.sessions - {"a"}).Go(1, Close(AwaitClose, 0, true));
    Chain(1, b1, run, b2);
    var b3 := b2.Put(0, Obj(true, Some(1), true, false, 0)).Go(1, Close(Closing, 0, true));
    Chain(1, b2, run, b3);
    st := Finishes(b3);
  }

  lemma Finishes(b3: State) returns (st: State)
    requires Reachable(1, b3)
    requires b3 == State(None, 1, {1}, false, map[], [Obj(true, Some(1), true, false, 0)], [Done, Close(Closing, 0, true)])
    ensures Reachable(1, st)
    ensures st == State(None, 0, {}, false, map[], [Obj(true, None, true, false, 1)], [Done, Done])
  {
    hide Reachable;
    var run := Run(1, Proceed);
    var b4 := b3.Put(0, Obj(true, Some(1), true, false, 1)).Go(1, Close(Drain, 0, true));
    Chain(1, b3, run, b4);
    var b5 := b4.(active := 0).Go(1, Close(Unlock, 0, true));
    Chain(1, b4, run, b5);
    var b6 := b5.Put(0, Obj(true, None, true, false, 1)).Go(1, DropSem);
    Chain(1, b5, run, b6);
    st := b6.(sem := b6.sem - {1}).Go(1, Done);
    Chain(1, b6, run, st);
  }
}
