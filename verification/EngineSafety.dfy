/** What every interleaving of engine calls keeps. */
module EngineSafety {
  import opened Wrappers
  import opened EngineLocks

  // Which locks a program counter stands for.

  predicate InMu(pc: PC) {
    match pc
    case Load(phase, _) => phase.LoadLook? || phase.Store?
    case Release(phase, _, _, _) => phase.InReadCancel? || phase.Clear?
    case Run(phase, _) => phase.RunLook? || phase.CancelSet? || phase.CancelDrop?
    case Count(phase, _) => phase.CountLook?
    case Cancel(phase, _) => phase.BriefInMu?
    case Query(inMu) => inMu
    case Done => false
  }

  predicate HoldsGen(pc: PC) {
    pc.Run? && !pc.run.AwaitGen?
  }

  predicate Reads(pc: PC) {
    match pc
    case Run(phase, _) => !phase.AwaitGen? && !phase.RunRead? && !phase.LeaveGen?
    case Count(phase, _) => !phase.CountRead?
    case _ => false
  }

  /** Announced as a writer of life, or holding it. */
  predicate Writes(pc: PC) {
    match pc
    case Load(phase, _) => !phase.LoadStart?
    case Release(phase, _, _, _) =>
      !phase.ReadCancel? && !phase.InReadCancel? && !phase.CallCancel? && !phase.ReleaseStart?
    case _ => false
  }

  /** Holding life exclusively. */
  predicate Excludes(pc: PC) {
    Writes(pc) && (pc.Load? ==> !pc.load.LoadDrain?) && (pc.Release? ==> !pc.release.ReleaseDrain?)
  }

  /** The model the thread is working with under a shared hold of life. */
  function Uses(pc: PC): Option<Ref> {
    match pc
    case Run(phase, m) =>
      if phase.AwaitCancelSet? || phase.CancelSet? || phase.Stream? || phase.AwaitCancelDrop? || phase.CancelDrop?
      then Some(m) else None
    case Count(phase, m) => if phase.Tokenize? then Some(m) else None
    case _ => None
  }

  /** An open model that is not in the engine's field and that this writer must store or close. */
  function Carries(pc: PC): Option<Ref> {
    match pc
    case Load(phase, m) =>
      if phase.Describe? || phase.CloseOpened? || phase.AwaitStore? || phase.Store? then Some(m) else None
    case Release(phase, _, _, taken) => if phase.CloseModel? then taken else None
    case _ => None
  }

  predicate OwnsCancel(pc: PC) {
    pc.Run? && (pc.run.Stream? || pc.run.AwaitCancelDrop? || pc.run.CancelDrop?)
  }

  // The invariant

  ghost predicate LockInv(st: State) {
    && (st.mu.Some? ==> st.mu.value < |st.threads|)
    && (st.gen.Some? ==> st.gen.value < |st.threads|)
    && (st.writer.Some? ==> st.writer.value < |st.threads|)
    && (forall t | t in st.readers :: t < |st.threads|)
    && (forall t | 0 <= t < |st.threads| ::
          && (InMu(st.threads[t]) <==> st.mu == Some(t))
          && (HoldsGen(st.threads[t]) <==> st.gen == Some(t))
          && (Writes(st.threads[t]) <==> st.writer == Some(t))
          && (Reads(st.threads[t]) <==> t in st.readers)
          && (Excludes(st.threads[t]) ==> st.readers == {}))
  }

  /** The open models: the one in the field and the one the writer carries. */
  ghost function Open(st: State): set<Ref> {
    (if st.model.Some? then {st.model.value} else {}) +
    (if st.writer.Some? && st.writer.value < |st.threads| && Carries(st.threads[st.writer.value]).Some?
     then {Carries(st.threads[st.writer.value]).value} else {})
  }

  ghost predicate ModelInv(st: State) {
    && (forall m | m in Open(st) :: m < |st.closes|)
    && (forall m | 0 <= m < |st.closes| :: st.closes[m] == if m in Open(st) then 0 else 1)
    && (st.closed ==> st.model == None)
    && (st.cancel.Some? ==> st.cancel.value < |st.threads| && OwnsCancel(st.threads[st.cancel.value]))
    && (forall t | 0 <= t < |st.threads| :: PcInv(st, t, st.threads[t]))
  }

  predicate PcInv(st: State, t: Tid, pc: PC) {
    && (Uses(pc).Some? ==> st.model == Uses(pc))
    && (Carries(pc).Some? ==> st.model == None)
    && (pc.Load? && (pc.load.Opening? || Carries(pc).Some?) ==> st.model == None && !st.closed)
    && (pc.Release? && pc.release.CloseModel? ==> pc.taken.Some?)
    && (OwnsCancel(pc) ==> st.cancel == Some(t))
    && (pc.Release? && (Writes(pc) || pc.release.ReleaseStart?) && pc.seen.Some? ==> pc.seen.value in st.cancelled)
    && (pc.Release? && (pc.release.CloseModel? || pc.release.ReleaseLeave?) && pc.closing ==> st.closed)
    && (pc.Release? && (pc.release.CloseModel? || pc.release.ReleaseLeave?) ==> st.model == None)
  }

  ghost predicate Inv(st: State) {
    LockInv(st) && ModelInv(st)
  }

  // One step seen from the thread that takes it.

  /** What the invariant says about the thread that moves. */
  ghost predicate Here(st: State, tid: Tid)
    requires tid < |st.threads|
  {
    var pc := st.threads[tid];
    && (InMu(pc) <==> st.mu == Some(tid))
    && (HoldsGen(pc) <==> st.gen == Some(tid))
    && (Writes(pc) <==> st.writer == Some(tid))
    && (Reads(pc) <==> tid in st.readers)
    && (Excludes(pc) ==> st.readers == {})
    && (st.cancel == Some(tid) ==> OwnsCancel(pc))
    && (st.closed ==> st.model == None)
    && (st.model.Some? ==> st.model.value < |st.closes|)
    && (Carries(pc).Some? ==> Carries(pc).value < |st.closes|)
    && PcInv(st, tid, pc)
  }

  function OpenAt(st: State, pc: PC): set<Ref> {
    (if st.model.Some? then {st.model.value} else {}) + (if Carries(pc).Some? then {Carries(pc).value} else {})
  }

  predicate Closes(pc: PC) {
    (pc.Load? && pc.load.CloseOpened?) || (pc.Release? && pc.release.CloseModel?)
  }

  predicate LocksLocal(st: State, tid: Tid, st': State)
    requires tid < |st.threads| && tid < |st'.threads|
  {
    var pc, pc' := st.threads[tid], st'.threads[tid];
    && (if InMu(pc) then st'.mu == None && !InMu(pc')
        else if InMu(pc') then st.mu == None && st'.mu == Some(tid) else st'.mu == st.mu)
    && (if HoldsGen(pc) == HoldsGen(pc') then st'.gen == st.gen
        else if HoldsGen(pc') then st.gen == None && st'.gen == Some(tid) else st'.gen == None)
    && (if Writes(pc) == Writes(pc') then st'.writer == st.writer
        else if Writes(pc') then st.writer == None && st'.writer == Some(tid) else st'.writer == None)
    && (if Reads(pc) == Reads(pc') then st'.readers == st.readers
        else if Reads(pc') then st.writer == None && st'.readers == st.readers + {tid}
        else st'.readers == st.readers - {tid})
    && (Excludes(pc') ==> st'.readers == {})
  }

  ghost predicate ModelLocal(st: State, tid: Tid, c: Choice, st': State)
    requires tid < |st.threads| && tid < |st'.threads|
  {
    var pc, pc' := st.threads[tid], st'.threads[tid];
    && (Excludes(pc) || (st'.model == st.model && st'.closed == st.closed && st'.closes == st.closes))
    && (st.closed ==> st'.closed) && (st'.closed ==> st'.model == None)
    && (st'.cancel == st.cancel || (HoldsGen(pc) && (st'.cancel == None || st'.cancel == Some(tid))))
    && (st'.cancel == Some(tid) ==> OwnsCancel(pc'))
    && st.cancelled <= st'.cancelled
    && PcInv(st', tid, pc')
    && (if pc.Load? && pc.load.Opening? && c.Proceed? then
          st'.closes == st.closes + [0] && OpenAt(st', pc') == OpenAt(st, pc) + {|st.closes|}
        else if Closes(pc) && Carries(pc).Some? then
          var m := Carries(pc).value;
          m < |st.closes| && st'.closes == st.closes[m := st.closes[m] + 1] &&
          m in OpenAt(st, pc) && OpenAt(st', pc') == OpenAt(st, pc) - {m}
        else
          st'.closes == st.closes && OpenAt(st', pc') == OpenAt(st, pc))
  }

  ghost predicate Local(st: State, tid: Tid, c: Choice, st': State)
    requires tid < |st.threads|
  {
    && |st'.threads| == |st.threads| && st'.threads == st.threads[tid := st'.threads[tid]]
    && LocksLocal(st, tid, st')
    && (Closes(st.threads[tid]) ==> Carries(st.threads[tid]).Some?)
    && ModelLocal(st, tid, c, st')
  }

  lemma LoadEnterLocal(st: State, tid: Tid, c: Choice)
    requires tid < |st.threads| && st.threads[tid].Load? && Here(st, tid) && LoadStep(st, tid, c).Some?
    requires var phase := st.threads[tid].load; phase.LoadStart? || phase.LoadDrain? || phase.LoadAwaitLook? || phase.LoadLook?
    ensures Local(st, tid, c, LoadStep(st, tid, c).value)
  {
  }

  lemma LoadOpenLocal(st: State, tid: Tid, c: Choice)
    requires tid < |st.threads| && st.threads[tid].Load? && Here(st, tid) && LoadStep(st, tid, c).Some?
    requires var phase := st.threads[tid].load; phase.Opening? || phase.Describe? || phase.CloseOpened?
    ensures Local(st, tid, c, LoadStep(st, tid, c).value)
  {
  }

  lemma LoadStoreLocal(st: State, tid: Tid, c: Choice)
    requires tid < |st.threads| && st.threads[tid].Load? && Here(st, tid) && LoadStep(st, tid, c).Some?
    requires var phase := st.threads[tid].load; phase.AwaitStore? || phase.Store? || phase.LoadLeave?
    ensures Local(st, tid, c, LoadStep(st, tid, c).value)
  {
  }

  lemma ReleaseCancelLocal(st: State, tid: Tid, c: Choice)
    requires tid < |st.threads| && st.threads[tid].Release? && Here(st, tid) && ReleaseStep(st, tid, c).Some?
    requires var phase := st.threads[tid].release; phase.ReadCancel? || phase.InReadCancel? || phase.CallCancel?
    ensures Local(st, tid, c, ReleaseStep(st, tid, c).value)
  {
  }

  lemma ReleaseEnterLocal(st: State, tid: Tid, c: Choice)
    requires tid < |st.threads| && st.threads[tid].Release? && Here(st, tid) && ReleaseStep(st, tid, c).Some?
    requires var phase := st.threads[tid].release; phase.ReleaseStart? || phase.ReleaseDrain? || phase.AwaitClear?
    ensures Local(st, tid, c, ReleaseStep(st, tid, c).value)
  {
  }

  lemma ReleaseClearLocal(st: State, tid: Tid, c: Choice)
    requires tid < |st.threads| && st.threads[tid].Release? && Here(st, tid) && ReleaseStep(st, tid, c).Some?
    requires var phase := st.threads[tid].release; phase.Clear? || phase.CloseModel? || phase.ReleaseLeave?
    ensures Local(st, tid, c, ReleaseStep(st, tid, c).value)
  {
  }

  lemma RunEnterLocal(st: State, tid: Tid, c: Choice)
    requires tid < |st.threads| && st.threads[tid].Run? && Here(st, tid) && RunStep(st, tid, c).Some?
    requires var phase := st.threads[tid].run; phase.AwaitGen? || phase.RunRead? || phase.RunAwaitLook? || phase.RunLook?
    ensures Local(st, tid, c, RunStep(st, tid, c).value)
  {
  }

  lemma RunStreamLocal(st: State, tid: Tid, c: Choice)
    requires tid < |st.threads| && st.threads[tid].Run? && Here(st, tid) && RunStep(st, tid, c).Some?
    requires var phase := st.threads[tid].run; phase.AwaitCancelSet? || phase.CancelSet? || phase.Stream?
    ensures Local(st, tid, c, RunStep(st, tid, c).value)
  {
  }

  lemma RunLeaveLocal(st: State, tid: Tid, c: Choice)
    requires tid < |st.threads| && st.threads[tid].Run? && Here(st, tid) && RunStep(st, tid, c).Some?
    requires var phase := st.threads[tid].run; phase.AwaitCancelDrop? || phase.CancelDrop? || phase.RunUnread? || phase.LeaveGen?
    ensures Local(st, tid, c, RunStep(st, tid, c).value)
  {
  }

  lemma CountLocal(st: State, tid: Tid, c: Choice)
    requires tid < |st.threads| && st.threads[tid].Count? && Here(st, tid) && CountStep(st, tid, c).Some?
    requires var phase := st.threads[tid].count; phase.CountLook? || phase.Tokenize? || phase.CountUnread?
    ensures Local(st, tid, c, CountStep(st, tid, c).value)
  {
  }

  lemma CancelLocal(st: State, tid: Tid, c: Choice)
    requires tid < |st.threads| && st.threads[tid].Cancel? && Here(st, tid) && BriefStep(st, tid, c).Some?
    ensures Local(st, tid, c, BriefStep(st, tid, c).value)
  {
  }

  lemma StepLocal(st: State, tid: Tid, c: Choice)
    requires tid < |st.threads| && Here(st, tid) && Step(st, tid, c).Some?
    ensures Local(st, tid, c, Step(st, tid, c).value)
  {
    match st.threads[tid]
    case Load(phase, _) =>
      if phase.Opening? || phase.Describe? || phase.CloseOpened? { LoadOpenLocal(st, tid, c); }
      else if phase.AwaitStore? || phase.Store? || phase.LoadLeave? { LoadStoreLocal(st, tid, c); }
      else { LoadEnterLocal(st, tid, c); }
    case Release(phase, _, _, _) =>
      if phase.ReadCancel? || phase.InReadCancel? || phase.CallCancel? { ReleaseCancelLocal(st, tid, c); }
      else if phase.ReleaseStart? || phase.ReleaseDrain? || phase.AwaitClear? { ReleaseEnterLocal(st, tid, c); }
      else { ReleaseClearLocal(st, tid, c); }
    case Run(phase, _) =>
      if phase.AwaitCancelSet? || phase.CancelSet? || phase.Stream? { RunStreamLocal(st, tid, c); }
      else if phase.AwaitCancelDrop? || phase.CancelDrop? || phase.RunUnread? || phase.LeaveGen? {
        RunLeaveLocal(st, tid, c);
      } else { RunEnterLocal(st, tid, c); }
    case Count(phase, _) =>
      if !phase.CountRead? && !phase.CountAwaitLook? { CountLocal(st, tid, c); }
    case Cancel(_, _) => CancelLocal(st, tid, c);
    case Query(_) =>
  }

  // From the moving thread's view to all threads.

  lemma FrameOpen(st: State, tid: Tid, c: Choice, st': State)
    requires LockInv(st) && ModelInv(st) && tid < |st.threads| && Local(st, tid, c, st')
    ensures forall m | m in Open(st') :: m < |st'.closes|
    ensures forall m | 0 <= m < |st'.closes| :: st'.closes[m] == if m in Open(st') then 0 else 1
  {
    var pc, pc' := st.threads[tid], st'.threads[tid];
    if Writes(pc) || Writes(pc') {
      assert Open(st) == OpenAt(st, pc) && Open(st') == OpenAt(st', pc');
    } else {
      assert Open(st') == Open(st);
    }
  }

  lemma FramePc(st: State, tid: Tid, c: Choice, st': State)
    requires LockInv(st) && ModelInv(st) && tid < |st.threads| && Local(st, tid, c, st')
    ensures forall t | 0 <= t < |st'.threads| :: PcInv(st', t, st'.threads[t])
    ensures st'.cancel.Some? ==> st'.cancel.value < |st'.threads| && OwnsCancel(st'.threads[st'.cancel.value])
  {
    forall t | 0 <= t < |st'.threads| ensures PcInv(st', t, st'.threads[t]) {
      if t != tid {
        var pc := st.threads[t];
        assert PcInv(st, t, pc);
        assert Uses(pc).Some? ==> Reads(pc);
        assert Carries(pc).Some? ==> Writes(pc);
        assert OwnsCancel(pc) ==> HoldsGen(pc);
        assert Excludes(st.threads[tid]) ==> !Reads(pc) && !Writes(pc);
      }
    }
  }

  lemma StepKeeps(st: State, tid: Tid, c: Choice)
    requires Inv(st) && tid < |st.threads| && Step(st, tid, c).Some?
    ensures Inv(Step(st, tid, c).value)
  {
    var st' := Step(st, tid, c).value;
    HereOf(st, tid);
    StepLocal(st, tid, c);
    FrameOpen(st, tid, c, st');
    FramePc(st, tid, c, st');
  }

  lemma HereOf(st: State, tid: Tid)
    requires Inv(st) && tid < |st.threads|
    ensures Here(st, tid)
  {
    var pc := st.threads[tid];
    assert PcInv(st, tid, pc);
    assert st.model.Some? ==> st.model.value in Open(st);
    assert Carries(pc).Some? ==> Writes(pc) && Carries(pc).value in Open(st);
  }

  lemma CallKeeps(st: State, pc: PC)
    requires Inv(st) && Entry(pc)
    ensures Inv(st.(threads := st.threads + [pc]))
  {
    var st' := st.(threads := st.threads + [pc]);
    assert Open(st') == Open(st);
    forall t | 0 <= t < |st'.threads| ensures PcInv(st', t, st'.threads[t]) {
      if t < |st.threads| { assert PcInv(st, t, st.threads[t]); }
    }
    assert LockInv(st');
  }

  lemma EventKeeps(st: State, e: Event)
    requires Inv(st) && Apply(st, e).Some?
    ensures Inv(Apply(st, e).value)
  {
    match e
    case Call(pc) => CallKeeps(st, pc);
    case Move(tid, c) => StepKeeps(st, tid, c);
  }

  /** The invariant holds in every reachable state, whatever the interleaving. */
  lemma {:induction false} ReachableInv(st: State, events: seq<Event>, st': State)
    requires Inv(st) && Reaches(st, events, st')
    ensures Inv(st')
    decreases |events|
  {
    if events != [] {
      EventKeeps(st, events[0]);
      ReachableInv(Apply(st, events[0]).value, events[1..], st');
    }
  }
}
