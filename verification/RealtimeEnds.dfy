/**
 How a session ends. Whoever finds that a session is to end, a push that was
 final or failed or a DELETE, also takes it out of the registry; until then a
 thread is on its way to do so.
 */
module RealtimeEnds {
  import opened Wrappers
  import opened RealtimeSessions
  import opened RealtimeSafety

  /** The thread is still to take session s out of the registry, where it stands under this ID. */
  predicate Removing(pc: PC, id: Id, s: Ref) {
    match pc
    case Push(phase, i, final, r) => (phase.AwaitIdle? || phase.SetIdle? || phase.Unlocking?) && final && i == id && r == s
    case Detach(i, expiry, _, _) => !expiry && i == id
    case _ => false
  }

  predicate Registered(st: State, id: Id, s: Ref) {
    id in st.sessions && st.sessions[id] == s
  }

  /** A push works under the ID its session is registered with, if it still is. */
  ghost predicate KeyInv(st: State) {
    forall t, id | 0 <= t < |st.threads| && st.threads[t].Push? && id in st.sessions && st.sessions[id] == st.threads[t].s ::
      id == st.threads[t].id
  }

  ghost predicate HasRemover(st: State, id: Id, s: Ref) {
    exists t: Tid :: t < |st.threads| && Removing(st.threads[t], id, s)
  }

  /** A registered session that is closed has a thread that will remove it. */
  ghost predicate EndInv(st: State) {
    forall id | id in st.sessions && st.sessions[id] < |st.objs| && st.objs[st.sessions[id]].closed ::
      HasRemover(st, id, st.sessions[id])
  }

  /** A transcriber that never became a session is not marked closed. */
  ghost predicate UnpublishedInv(st: State) {
    forall s | 0 <= s < |st.objs| && st.objs[s].closed :: st.objs[s].published
  }

  ghost predicate EndsInv(st: State) {
    KeyInv(st) && EndInv(st) && UnpublishedInv(st)
  }

  // What one step does to the registry

  ghost predicate RegistryStep(st: State, tid: Tid, c: Choice, st': State)
    requires tid < |st.threads|
  {
    var pc := st.threads[tid];
    || st'.sessions == st.sessions
    || st'.sessions == map[]
    || (pc.Create? && c.Register? && st'.sessions == map[c.id := pc.t] && pc.t < |st.objs| && !st.objs[pc.t].published && pc.t < |st'.objs|
        && !st'.objs[pc.t].closed)
  }

  /** An object gets closed by a push that ends its session, or with nothing registered. */
  ghost predicate ClosedStep(st: State, tid: Tid, st': State)
    requires tid < |st.threads| == |st'.threads|
  {
    && |st.objs| <= |st'.objs|
    && (forall s | 0 <= s < |st.objs| :: st.objs[s].published ==> st'.objs[s].published)
    && (forall s | 0 <= s < |st.objs| :: st.objs[s].closed ==> st'.objs[s].closed)
    && (forall s | 0 <= s < |st.objs| && st'.objs[s].closed && !st.objs[s].closed ::
          || st'.sessions == map[]
          || (st.threads[tid].Push? && st.threads[tid].s == s && Removing(st'.threads[tid], st.threads[tid].id, s)))
  }

  /** A thread on its way stays on its way until nothing is registered. */
  ghost predicate RemovingStep(st: State, tid: Tid, st': State)
    requires tid < |st.threads| == |st'.threads|
  {
    forall id, s | Removing(st.threads[tid], id, s) && Registered(st, id, s) ::
      Removing(st'.threads[tid], id, s) || st'.sessions == map[]
  }

  ghost predicate KeyStep(st: State, tid: Tid, st': State)
    requires tid < |st.threads| == |st'.threads|
  {
    var pc, pc' := st.threads[tid], st'.threads[tid];
    && (pc'.Push? && pc.Push? ==> pc'.s == pc.s && pc'.id == pc.id && (pc.final ==> pc'.final))
    && (pc'.Lookup? ==> pc.Lookup? && pc'.id == pc.id && pc'.final == pc.final)
    && (pc'.Push? && !pc.Push? ==> pc.Lookup? && pc'.id == pc.id && pc'.final == pc.final && Registered(st, pc.id, pc'.s))
  }

  ghost predicate Effects(st: State, tid: Tid, c: Choice, st': State)
    requires tid < |st.threads|
  {
    && |st'.threads| == |st.threads| && st'.threads == st.threads[tid := st'.threads[tid]]
    && RegistryStep(st, tid, c, st') && ClosedStep(st, tid, st') && RemovingStep(st, tid, st') && KeyStep(st, tid, st')
    && (forall s | 0 <= s < |st'.objs| && st'.objs[s].closed :: st'.objs[s].published)
  }

  lemma CreateEffects(cap: nat, st: State, o: Owner, tid: Tid, c: Choice)
    requires tid < |st.threads| && st.threads[tid].Create? && Here(st, o, tid) && UnpublishedInv(st)
    requires CreateStep(cap, st, tid, c).Some?
    ensures Effects(st, tid, c, CreateStep(cap, st, tid, c).value)
  {
  }

  lemma QueuedEffects(cap: nat, st: State, tid: Tid, c: Choice)
    requires tid < |st.threads| && st.threads[tid].Push? && PcInv(st, st.threads[tid]) && UnpublishedInv(st)
    requires var phase := st.threads[tid].push; phase.Queued? || phase.AwaitLock? || phase.Check? || phase.AwaitBusy?
    requires PushStep(cap, st, tid, c).Some?
    ensures Effects(st, tid, c, PushStep(cap, st, tid, c).value)
  {
  }

  lemma BusyEffects(cap: nat, st: State, tid: Tid, c: Choice)
    requires tid < |st.threads| && st.threads[tid].Push? && PcInv(st, st.threads[tid]) && UnpublishedInv(st)
    requires var phase := st.threads[tid].push; phase.SetBusy? || phase.Infer?
    requires PushStep(cap, st, tid, c).Some?
    ensures Effects(st, tid, c, PushStep(cap, st, tid, c).value)
  {
  }

  lemma LeaveEffects(cap: nat, st: State, tid: Tid, c: Choice)
    requires tid < |st.threads| && st.threads[tid].Push? && PcInv(st, st.threads[tid]) && UnpublishedInv(st)
    requires var phase := st.threads[tid].push; phase.AwaitIdle? || phase.SetIdle? || phase.Unlocking?
    requires PushStep(cap, st, tid, c).Some?
    ensures Effects(st, tid, c, PushStep(cap, st, tid, c).value)
  {
  }

  lemma DetachEffects(cap: nat, st: State, o: Owner, tid: Tid, c: Choice)
    requires tid < |st.threads| && st.threads[tid].Detach? && Here(st, o, tid) && UnpublishedInv(st)
    requires DetachStep(st, tid, c).Some?
    ensures Effects(st, tid, c, DetachStep(st, tid, c).value)
  {
    if st.threads[tid].id in st.sessions {
      KnownSession(st, o, tid, st.threads[tid].id);
    }
  }

  lemma CloseEffects(cap: nat, st: State, o: Owner, tid: Tid, c: Choice)
    requires tid < |st.threads| && st.threads[tid].Close? && Here(st, o, tid) && UnpublishedInv(st)
    requires CloseStep(st, tid, c).Some?
    ensures Effects(st, tid, c, CloseStep(st, tid, c).value)
  {
  }

  lemma ShutEffects(st: State, o: Owner, tid: Tid, c: Choice)
    requires tid < |st.threads| && st.threads[tid].Shutdown? && UnpublishedInv(st)
    requires PcInv(st, st.threads[tid]) && SessionsInv(st, o) && Tokens(st.threads[tid]) == (if o == Thread(tid) then 1 else 0)
    requires ShutStep(st, tid, c).Some?
    ensures Effects(st, tid, c, ShutStep(st, tid, c).value)
  {
    hide HoldsSem, InMu, LockOf, MarkedBusy, Using;
    if st.threads[tid].shut.Shut? {
      assert st.sessions == map[];
      ShutCloses(st, tid, c);
    } else {
      ShutMoves(st, tid, c);
    }
  }

  lemma ShutCloses(st: State, tid: Tid, c: Choice)
    requires tid < |st.threads| && st.threads[tid].Shutdown? && st.threads[tid].shut.Shut? && UnpublishedInv(st)
    requires PcInv(st, st.threads[tid]) && st.sessions == map[] && ShutStep(st, tid, c).Some?
    ensures Effects(st, tid, c, ShutStep(st, tid, c).value)
  {
  }

  lemma ShutMoves(st: State, tid: Tid, c: Choice)
    requires tid < |st.threads| && st.threads[tid].Shutdown? && !st.threads[tid].shut.Shut? && UnpublishedInv(st)
    requires PcInv(st, st.threads[tid]) && ShutStep(st, tid, c).Some?
    ensures Effects(st, tid, c, ShutStep(st, tid, c).value)
  {
  }

  lemma OtherEffects(cap: nat, st: State, o: Owner, tid: Tid, c: Choice)
    requires tid < |st.threads| && Here(st, o, tid) && UnpublishedInv(st)
    requires st.threads[tid].Lookup? || st.threads[tid].DropSem? || st.threads[tid].Done?
    requires Step(cap, st, tid, c).Some?
    ensures Effects(st, tid, c, Step(cap, st, tid, c).value)
  {
  }

  lemma StepEffects(cap: nat, st: State, o: Owner, tid: Tid, c: Choice)
    requires tid < |st.threads| && Here(st, o, tid) && UnpublishedInv(st)
    requires Step(cap, st, tid, c).Some?
    ensures Effects(st, tid, c, Step(cap, st, tid, c).value)
  {
    hide Effects;
    match st.threads[tid]
    case Create(_, _) => CreateEffects(cap, st, o, tid, c);
    case Push(phase, _, _, _) =>
      if phase.SetBusy? || phase.Infer? { BusyEffects(cap, st, tid, c); }
      else if phase.AwaitIdle? || phase.SetIdle? || phase.Unlocking? { LeaveEffects(cap, st, tid, c); }
      else { QueuedEffects(cap, st, tid, c); }
    case Detach(_, _, _, _) => DetachEffects(cap, st, o, tid, c);
    case Close(_, _, _) => CloseEffects(cap, st, o, tid, c);
    case Shutdown(_, _, _) => ShutEffects(st, o, tid, c);
    case _ => OtherEffects(cap, st, o, tid, c);
  }

  // What every step keeps

  lemma KeepsKeys(st: State, o: Owner, tid: Tid, c: Choice, st': State)
    requires SessionsInv(st, o) && KeyInv(st) && PushInv(st) && tid < |st.threads| && Effects(st, tid, c, st')
    ensures KeyInv(st')
  {
    hide ClosedStep, RemovingStep, Removing;
    forall t, id | 0 <= t < |st'.threads| && st'.threads[t].Push? && id in st'.sessions && st'.sessions[id] == st'.threads[t].s
      ensures id == st'.threads[t].id
    {
      assert t != tid ==> st'.threads[t] == st.threads[t];
      assert PcInv(st, st.threads[t]);
    }
  }

  lemma KeepsEnd(st: State, tid: Tid, c: Choice, st': State)
    requires KeyInv(st) && EndInv(st) && tid < |st.threads| && Effects(st, tid, c, st')
    requires forall id | id in st.sessions :: st.sessions[id] < |st.objs|
    ensures EndInv(st')
  {
    hide Removing, KeyStep;
    forall id | id in st'.sessions && st'.sessions[id] < |st'.objs| && st'.objs[st'.sessions[id]].closed
      ensures HasRemover(st', id, st'.sessions[id])
    {
      var s := st'.sessions[id];
      if st'.sessions == st.sessions && s < |st.objs| {
        if st.objs[s].closed {
          var t: Tid :| t < |st.threads| && Removing(st.threads[t], id, s);
          assert Registered(st, id, s);
          assert Removing(st'.threads[t], id, s);
        } else {
          assert Removing(st'.threads[tid], id, s);
        }
      }
    }
  }

  lemma StepUnpublished(cap: nat, st: State, tid: Tid, c: Choice)
    requires tid < |st.threads| && Step(cap, st, tid, c).Some? && Effects(st, tid, c, Step(cap, st, tid, c).value)
    ensures UnpublishedInv(Step(cap, st, tid, c).value)
  {
    hide Step;
  }

  lemma StepKeepsEnds(cap: nat, st: State, o: Owner, tid: Tid, c: Choice)
    requires InvFor(cap, st, o) && EndsInv(st) && tid < |st.threads| && Step(cap, st, tid, c).Some?
    ensures EndsInv(Step(cap, st, tid, c).value)
  {
    assert Here(st, o, tid);
    assert OwnerInv(st, o) && PushInv(st);
    StepEffects(cap, st, o, tid, c);
    StepUnpublished(cap, st, tid, c);
    forall id | id in st.sessions ensures st.sessions[id] < |st.objs| {
      KnownSession(st, o, tid, id);
    }
    hide Effects, InvFor, Here, Step;
    KeepsKeys(st, o, tid, c, Step(cap, st, tid, c).value);
    KeepsEnd(st, tid, c, Step(cap, st, tid, c).value);
  }

  lemma EventKeepsEnds(cap: nat, st: State, e: Event)
    requires Inv(cap, st) && EndsInv(st) && Apply(cap, st, e).Some?
    ensures Inv(cap, Apply(cap, st, e).value) && EndsInv(Apply(cap, st, e).value)
  {
    EventKeeps(cap, st, e);
    var o :| InvFor(cap, st, o);
    match e
    case Run(tid, c) => StepKeepsEnds(cap, st, o, tid, c);
    case Spawn(pc) => SpawnKeepsEnds(st, pc);
  }

  lemma SpawnKeepsEnds(st: State, pc: PC)
    requires EndsInv(st) && Entry(pc)
    ensures EndsInv(st.(threads := st.threads + [pc]))
  {
    hide Removing;
    var st' := st.(threads := st.threads + [pc]);
    forall id | id in st'.sessions && st'.sessions[id] < |st'.objs| && st'.objs[st'.sessions[id]].closed
      ensures HasRemover(st', id, st'.sessions[id])
    {
      var t: Tid :| t < |st.threads| && Removing(st.threads[t], id, st.sessions[id]);
      assert Removing(st'.threads[t], id, st'.sessions[id]);
    }
  }

  lemma {:induction false} RunKeepsEnds(cap: nat, st: State, events: seq<Event>, st': State)
    requires Inv(cap, st) && EndsInv(st) && Reaches(cap, st, events, st')
    ensures Inv(cap, st') && EndsInv(st')
    decreases |events|
  {
    if events != [] {
      EventKeepsEnds(cap, st, events[0]);
      RunKeepsEnds(cap, Apply(cap, st, events[0]).value, events[1..], st');
    }
  }

  // One thread on its way

  /** Session s was registered, and is so at most under this ID while thread t is to remove it. */
  ghost predicate OnTheWay(st: State, t: Tid, id: Id, s: Ref) {
    && t < |st.threads| && s < |st.objs| && st.objs[s].published
    && forall i | Registered(st, i, s) :: i == id && Removing(st.threads[t], id, s)
  }

  lemma EventKeepsOn(cap: nat, st: State, e: Event, t: Tid, id: Id, s: Ref)
    requires Inv(cap, st) && EndsInv(st) && Apply(cap, st, e).Some? && OnTheWay(st, t, id, s)
    ensures var st' := Apply(cap, st, e).value;
            OnTheWay(st', t, id, s) && (st.objs[s].closed ==> st'.objs[s].closed)
  {
    match e
    case Run(tid, c) =>
      var o :| InvFor(cap, st, o);
      assert Here(st, o, tid);
      StepEffects(cap, st, o, tid, c);
      hide Step, Removing, InvFor, Here, KeyStep;
      var st' := Apply(cap, st, e).value;
      forall i | Registered(st', i, s) ensures i == id && Removing(st'.threads[t], id, s) {
        assert Registered(st, i, s);
      }
    case Spawn(pc) =>
      var st' := Apply(cap, st, e).value;
      assert forall i :: Registered(st', i, s) <==> Registered(st, i, s);
  }

  lemma {:induction false} StaysOn(cap: nat, st: State, events: seq<Event>, st': State, t: Tid, id: Id, s: Ref)
    requires Inv(cap, st) && EndsInv(st) && Reaches(cap, st, events, st') && OnTheWay(st, t, id, s)
    ensures OnTheWay(st', t, id, s) && (st.objs[s].closed ==> st'.objs[s].closed)
    decreases |events|
  {
    if events != [] {
      EventKeepsEnds(cap, st, events[0]);
      EventKeepsOn(cap, st, events[0], t, id, s);
      StaysOn(cap, Apply(cap, st, events[0]).value, events[1..], st', t, id, s);
    }
  }

  // A push stays the push it is

  /** The thread serves a push of this ID, with this session once it has found one, and has not lost its final flag. */
  predicate Serves(pc: PC, id: Id, final: bool) {
    match pc
    case Lookup(i, f, _) => i == id && f == final
    case Push(_, i, f, _) => i == id && (final ==> f)
    case _ => true
  }

  lemma EventKeepsRequest(cap: nat, st: State, e: Event, t: Tid, id: Id, final: bool)
    requires Inv(cap, st) && EndsInv(st) && Apply(cap, st, e).Some? && t < |st.threads| && Serves(st.threads[t], id, final)
    ensures var st' := Apply(cap, st, e).value; t < |st'.threads| && Serves(st'.threads[t], id, final)
  {
    match e
    case Run(tid, c) =>
      var o :| InvFor(cap, st, o);
      assert Here(st, o, tid);
      StepEffects(cap, st, o, tid, c);
      hide Step, InvFor, Here, RegistryStep, ClosedStep, RemovingStep;
    case Spawn(_) =>
  }

  lemma {:induction false} StaysRequest(cap: nat, st: State, events: seq<Event>, st': State, t: Tid, id: Id, final: bool)
    requires Inv(cap, st) && EndsInv(st) && Reaches(cap, st, events, st') && t < |st.threads| && Serves(st.threads[t], id, final)
    ensures t < |st'.threads| && Serves(st'.threads[t], id, final)
    decreases |events|
  {
    if events != [] {
      EventKeepsEnds(cap, st, events[0]);
      EventKeepsRequest(cap, st, events[0], t, id, final);
      StaysRequest(cap, Apply(cap, st, events[0]).value, events[1..], st', t, id, final);
    }
  }
}
