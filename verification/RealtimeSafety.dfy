/** What every interleaving of the realtime session protocol keeps. */
module RealtimeSafety {
  import opened Wrappers
  import opened RealtimeSessions

  /** Who is responsible for the one token in the channel. */
  datatype Owner = Free | Thread(tid: Tid) | Mapped(id: Id)

  // Which resources a program counter stands for.

  predicate InMu(pc: PC) {
    match pc
    case Create(phase, _) => phase.Registering?
    case Lookup(_, _, inMu) => inMu
    case Push(phase, _, _, _) => phase.SetBusy? || phase.SetIdle?
    case Detach(_, _, _, inMu) => inMu
    case Shutdown(phase, _, _) => phase.Sweep?
    case _ => false
  }

  /** The session whose mutex the thread holds. */
  function LockOf(pc: PC): Option<Ref> {
    match pc
    case Push(phase, _, _, s) => if phase.Queued? || phase.AwaitLock? then None else Some(s)
    case Close(phase, s, _) => if phase.AwaitClose? then None else Some(s)
    case Shutdown(phase, s, _) => if phase.Shut? || phase.Release? then Some(s) else None
    case _ => None
  }

  predicate HoldsSem(pc: PC) {
    match pc
    case Create(phase, _) => !phase.Start? && !phase.AwaitSem? && !phase.FreeToken?
    case Push(phase, _, _, _) => !phase.Queued?
    case DropSem => true
    case Detach(_, _, sem, _) => sem
    case Close(_, _, sem) => sem
    case _ => false
  }

  /** How many channel tokens the thread still has to give back or pass on. */
  function Tokens(pc: PC): nat {
    match pc
    case Create(phase, _) => if phase.Start? || phase.Kept? then 0 else 1
    case Close(phase, _, _) => if phase.Unlock? then 0 else 1
    case Shutdown(phase, _, rest) => |rest| + if phase.Shut? || phase.Release? || phase.DrainOne? then 1 else 0
    case _ => 0
  }

  /** The open transcribers that only this thread can still close. */
  function ToClose(pc: PC): set<Ref> {
    match pc
    case Create(phase, t) => if phase.Opened? || phase.Registering? || phase.Discarding? then {t} else {}
    case Close(phase, s, _) => if phase.AwaitClose? || phase.Closing? then {s} else {}
    case Shutdown(phase, s, rest) => if phase.Shut? then rest + {s} else rest
    case _ => {}
  }

  /** The push found its session open and has not come back from the transcriber. */
  predicate Using(pc: PC) {
    pc.Push? && (pc.push.AwaitBusy? || pc.push.SetBusy? || pc.push.Infer?)
  }

  predicate MarkedBusy(pc: PC) {
    pc.Push? && (pc.push.Infer? || pc.push.AwaitIdle? || pc.push.SetIdle?)
  }

  // The invariant, one aspect at a time.

  ghost predicate MuInv(st: State) {
    && (st.mu.Some? ==> st.mu.value < |st.threads|)
    && forall t | 0 <= t < |st.threads| :: InMu(st.threads[t]) <==> st.mu == Some(t)
  }

  ghost predicate LockInv(st: State) {
    forall t | 0 <= t < |st.threads| && LockOf(st.threads[t]).Some? ::
      LockOf(st.threads[t]).value < |st.objs| && st.objs[LockOf(st.threads[t]).value].lock == Some(t)
  }

  /** Every locked session mutex has a thread that is at a point to release it. */
  ghost predicate HolderInv(st: State) {
    forall s | 0 <= s < |st.objs| && st.objs[s].lock.Some? ::
      st.objs[s].lock.value < |st.threads| && LockOf(st.threads[st.objs[s].lock.value]) == Some(s)
  }

  ghost predicate SemInv(cap: nat, st: State) {
    && |st.sem| <= cap
    && (forall t | t in st.sem :: t < |st.threads|)
    && forall t | 0 <= t < |st.threads| :: HoldsSem(st.threads[t]) <==> t in st.sem
  }

  ghost predicate SessionsInv(st: State, o: Owner) {
    && (if o.Mapped? then o.id in st.sessions && st.sessions == map[o.id := st.sessions[o.id]]
        else st.sessions == map[])
    && (st.closed ==> st.sessions == map[])
  }

  ghost predicate OwnerInv(st: State, o: Owner) {
    && st.active == (if o.Free? then 0 else 1)
    && (o.Thread? ==> o.tid < |st.threads|)
    && (forall t | 0 <= t < |st.threads| :: Tokens(st.threads[t]) == (if o == Thread(t) then 1 else 0))
    && SessionsInv(st, o)
  }

  /** The open transcriber that goes with the token. */
  ghost function Owned(st: State, o: Owner): set<Ref> {
    match o
    case Free => {}
    case Thread(t) => if t < |st.threads| then ToClose(st.threads[t]) else {}
    case Mapped(id) => if id in st.sessions then {st.sessions[id]} else {}
  }

  /** Exactly the owned transcribers are open; every other one was closed once. */
  ghost predicate ObjInv(st: State, o: Owner) {
    && (forall s | s in Owned(st, o) :: s < |st.objs|)
    && (forall s | 0 <= s < |st.objs| ::
          && st.objs[s].closes == (if s in Owned(st, o) then 0 else 1)
          && (st.objs[s].published && st.objs[s].closes == 1 ==> st.objs[s].closed))
    && (o.Mapped? ==> forall s | s in Owned(st, o) && s < |st.objs| :: st.objs[s].published)
  }

  /** What a thread may rely on about the session it works on. */
  ghost predicate PcInv(st: State, pc: PC) {
    match pc
    case Push(_, _, _, s) =>
      && s < |st.objs| && st.objs[s].published
      && (Using(pc) ==> !st.objs[s].closed)
      && (MarkedBusy(pc) ==> st.objs[s].busy)
    case Create(phase, t) => t in ToClose(pc) ==> t < |st.objs| && !st.objs[t].published
    case Close(phase, s, _) => s < |st.objs| && st.objs[s].published
    case Shutdown(phase, s, rest) =>
      && (phase.AwaitSweep? || phase.Sweep? ==> rest == {})
      && forall r | r in ToClose(pc) :: r < |st.objs| && st.objs[r].published
    case _ => true
  }

  ghost predicate PushInv(st: State) {
    forall t | 0 <= t < |st.threads| :: PcInv(st, st.threads[t])
  }

  ghost predicate InvFor(cap: nat, st: State, o: Owner) {
    && MuInv(st) && LockInv(st) && HolderInv(st) && SemInv(cap, st)
    && OwnerInv(st, o) && ObjInv(st, o) && PushInv(st)
  }

  ghost predicate Inv(cap: nat, st: State) {
    exists o :: InvFor(cap, st, o)
  }

  /** Who owns the token after the step. */
  function NextOwner(st: State, o: Owner, tid: Tid, c: Choice): Owner
    requires tid < |st.threads|
  {
    match st.threads[tid]
    case Create(phase, _) =>
      if phase.Start? then if c.Proceed? then Thread(tid) else o
      else if phase.Registering? && !st.closed && c.Register? then Mapped(c.id)
      else if phase.FreeToken? then Free
      else o
    case Detach(id, expiry, _, inMu) => if inMu && id in st.sessions && c.Proceed? then Thread(tid) else o
    case Close(phase, _, _) => if phase.Drain? then Free else o
    case Shutdown(phase, _, _) =>
      if phase.Sweep? && o.Mapped? then Thread(tid) else if phase.DrainOne? then Free else o
    case _ => o
  }

  // One step seen from the thread that takes it. Nothing here speaks of the
  // other threads, and at most one session object changes.

  /** The session object written at this program counter. */
  function Touched(pc: PC, c: Choice): Option<Ref> {
    match pc
    case Create(phase, t) => if phase.Registering? || phase.Discarding? then Some(t) else None
    case Push(phase, _, _, s) => if phase.Queued? then None else Some(s)
    case Close(_, s, _) => Some(s)
    case Shutdown(phase, s, _) =>
      if phase.Next? && c.Pick? then Some(c.s) else if phase.Shut? || phase.Release? then Some(s) else None
    case _ => None
  }

  predicate Closes(pc: PC) {
    (pc.Create? && pc.create.Discarding?) || (pc.Close? && pc.close.Closing?) || (pc.Shutdown? && pc.shut.Shut?)
  }

  /** What the step may do to the session object it writes. */
  predicate ObjLocal(s: Ref, obj: Obj, obj': Obj, tid: Tid, pc: PC, pc': PC) {
    && obj'.lock == (if LockOf(pc') == Some(s) then Some(tid) else if LockOf(pc) == Some(s) then None else obj.lock)
    && (LockOf(pc') == Some(s) != LockOf(pc) ==> obj.lock == None)
    && (LockOf(pc) != Some(s) ==> obj'.closed == obj.closed && obj'.busy == obj.busy)
    && (obj'.published == obj.published || (obj'.published && pc.Create? && pc.create.Registering?))
    && (if Closes(pc) then obj'.closes == obj.closes + 1 && (obj'.published ==> obj'.closed)
        else obj'.closes == obj.closes && (obj.closed ==> obj'.closed))
  }

  ghost predicate ObjsLocal(st: State, tid: Tid, c: Choice, st': State)
    requires tid < |st.threads| && tid < |st'.threads|
  {
    var pc, pc' := st.threads[tid], st'.threads[tid];
    if pc.Create? && pc.create.Opening? && c.Proceed? then
      st'.objs == st.objs + [Obj(false, None, false, false, 0)]
    else if Touched(pc, c).Some? then
      var s := Touched(pc, c).value;
      && s < |st.objs| && |st'.objs| == |st.objs| && st'.objs == st.objs[s := st'.objs[s]]
      && ObjLocal(s, st.objs[s], st'.objs[s], tid, pc, pc')
    else
      st'.objs == st.objs
  }

  /** The thread's mutex, semaphore slot and token follow its program counter. */
  ghost predicate SharedLocal(cap: nat, st: State, o: Owner, tid: Tid, st': State, o': Owner)
    requires tid < |st.threads| && tid < |st'.threads|
  {
    var pc, pc' := st.threads[tid], st'.threads[tid];
    && (if InMu(pc) then st'.mu == None && !InMu(pc')
        else if InMu(pc') then st.mu == None && st'.mu == Some(tid)
        else st'.mu == st.mu)
    && (if HoldsSem(pc) == HoldsSem(pc') then st'.sem == st.sem
        else if HoldsSem(pc') then |st.sem| < cap && st'.sem == st.sem + {tid}
        else st'.sem == st.sem - {tid})
    && st'.active == (if o'.Free? then 0 else 1)
    && Tokens(pc') == (if o' == Thread(tid) then 1 else 0)
    && (o' != o ==> (o.Thread? ==> o.tid == tid) && (o'.Thread? ==> o'.tid == tid))
    && SessionsInv(st', o')
  }

  /** Opening adds a transcriber to close, closing removes one, nothing else does. */
  ghost predicate OwnedLocal(st: State, o: Owner, tid: Tid, c: Choice, st': State, o': Owner)
    requires tid < |st.threads|
  {
    var pc := st.threads[tid];
    if pc.Create? && pc.create.Opening? && c.Proceed? then Owned(st', o') == Owned(st, o) + {|st.objs|}
    else if Closes(pc) && Touched(pc, c).Some? then
      Touched(pc, c).value in Owned(st, o) && Owned(st', o') == Owned(st, o) - {Touched(pc, c).value}
    else Owned(st', o') == Owned(st, o) && (pc.Create? && pc.create.Registering? ==> pc.t in Owned(st, o))
  }

  ghost predicate Local(cap: nat, st: State, o: Owner, tid: Tid, c: Choice, st': State, o': Owner)
    requires tid < |st.threads|
  {
    && |st'.threads| == |st.threads| && st'.threads == st.threads[tid := st'.threads[tid]]
    && (LockOf(st'.threads[tid]).Some? ==> LockOf(st'.threads[tid]) == Touched(st.threads[tid], c))
    && ObjsLocal(st, tid, c, st')
    && SharedLocal(cap, st, o, tid, st', o')
    && OwnedLocal(st, o, tid, c, st', o')
    && PcInv(st', st'.threads[tid])
    && (o'.Mapped? ==> forall s | s in Owned(st', o') && s < |st'.objs| :: st'.objs[s].published)
  }

  /** What the invariant says about the thread that moves. */
  ghost predicate Here(st: State, o: Owner, tid: Tid)
    requires tid < |st.threads|
  {
    var pc := st.threads[tid];
    && (InMu(pc) <==> st.mu == Some(tid))
    && (LockOf(pc).Some? ==> LockOf(pc).value < |st.objs| && st.objs[LockOf(pc).value].lock == Some(tid))
    && (HoldsSem(pc) <==> tid in st.sem)
    && st.active == (if o.Free? then 0 else 1)
    && Tokens(pc) == (if o == Thread(tid) then 1 else 0)
    && SessionsInv(st, o)
    && (forall s | s in Owned(st, o) :: s < |st.objs|)
    && (o.Mapped? ==> forall s | s in Owned(st, o) && s < |st.objs| :: st.objs[s].published)
    && PcInv(st, pc)
  }

  lemma ClaimLocal(cap: nat, st: State, o: Owner, tid: Tid, c: Choice)
    requires tid < |st.threads| && st.threads[tid].Create? && Here(st, o, tid)
    requires var phase := st.threads[tid].create; phase.Start? || phase.AwaitSem?
    requires CreateStep(cap, st, tid, c).Some?
    ensures Local(cap, st, o, tid, c, CreateStep(cap, st, tid, c).value, NextOwner(st, o, tid, c))
  {
  }

  lemma OpenLocal(cap: nat, st: State, o: Owner, tid: Tid, c: Choice)
    requires tid < |st.threads| && st.threads[tid].Create? && Here(st, o, tid)
    requires var phase := st.threads[tid].create; phase.Opening? || phase.Opened?
    requires CreateStep(cap, st, tid, c).Some?
    ensures Local(cap, st, o, tid, c, CreateStep(cap, st, tid, c).value, NextOwner(st, o, tid, c))
  {
  }

  lemma RegisterLocal(cap: nat, st: State, o: Owner, tid: Tid, c: Choice)
    requires tid < |st.threads| && st.threads[tid].Create? && Here(st, o, tid)
    requires var phase := st.threads[tid].create; phase.Registering? || phase.Discarding?
    requires CreateStep(cap, st, tid, c).Some?
    ensures Local(cap, st, o, tid, c, CreateStep(cap, st, tid, c).value, NextOwner(st, o, tid, c))
  {
  }

  lemma GiveBackLocal(cap: nat, st: State, o: Owner, tid: Tid, c: Choice)
    requires tid < |st.threads| && st.threads[tid].Create? && Here(st, o, tid)
    requires var phase := st.threads[tid].create; phase.FreeSem? || phase.FreeToken? || phase.Kept?
    requires CreateStep(cap, st, tid, c).Some?
    ensures Local(cap, st, o, tid, c, CreateStep(cap, st, tid, c).value, NextOwner(st, o, tid, c))
  {
  }

  /** A registered session is the one whose entry holds the token. */
  lemma KnownSession(st: State, o: Owner, tid: Tid, id: Id)
    requires tid < |st.threads| && Here(st, o, tid) && id in st.sessions
    ensures o == Mapped(id) && Owned(st, o) == {st.sessions[id]} && st.sessions.Values == {st.sessions[id]}
    ensures st.sessions[id] < |st.objs| && st.objs[st.sessions[id]].published
  {
    assert st.sessions[id] in Owned(st, o);
  }

  lemma LookupLocal(cap: nat, st: State, o: Owner, tid: Tid, c: Choice)
    requires tid < |st.threads| && st.threads[tid].Lookup? && Here(st, o, tid)
    requires LookupStep(st, tid, c).Some?
    ensures Local(cap, st, o, tid, c, LookupStep(st, tid, c).value, NextOwner(st, o, tid, c))
  {
    if st.threads[tid].id in st.sessions {
      KnownSession(st, o, tid, st.threads[tid].id);
    }
  }

  lemma QueuedLocal(cap: nat, st: State, o: Owner, tid: Tid, c: Choice)
    requires tid < |st.threads| && st.threads[tid].Push? && Here(st, o, tid)
    requires var phase := st.threads[tid].push; phase.Queued? || phase.AwaitLock?
    requires PushStep(cap, st, tid, c).Some?
    ensures Local(cap, st, o, tid, c, PushStep(cap, st, tid, c).value, NextOwner(st, o, tid, c))
  {
  }

  lemma CheckLocal(cap: nat, st: State, o: Owner, tid: Tid, c: Choice)
    requires tid < |st.threads| && st.threads[tid].Push? && Here(st, o, tid)
    requires var phase := st.threads[tid].push; phase.Check? || phase.AwaitBusy?
    requires PushStep(cap, st, tid, c).Some?
    ensures Local(cap, st, o, tid, c, PushStep(cap, st, tid, c).value, NextOwner(st, o, tid, c))
  {
  }

  lemma InferLocal(cap: nat, st: State, o: Owner, tid: Tid, c: Choice)
    requires tid < |st.threads| && st.threads[tid].Push? && Here(st, o, tid)
    requires var phase := st.threads[tid].push; phase.SetBusy? || phase.Infer?
    requires PushStep(cap, st, tid, c).Some?
    ensures Local(cap, st, o, tid, c, PushStep(cap, st, tid, c).value, NextOwner(st, o, tid, c))
  {
  }

  lemma LeaveLocal(cap: nat, st: State, o: Owner, tid: Tid, c: Choice)
    requires tid < |st.threads| && st.threads[tid].Push? && Here(st, o, tid)
    requires var phase := st.threads[tid].push; phase.AwaitIdle? || phase.SetIdle? || phase.Unlocking?
    requires PushStep(cap, st, tid, c).Some?
    ensures Local(cap, st, o, tid, c, PushStep(cap, st, tid, c).value, NextOwner(st, o, tid, c))
  {
  }

  lemma DetachLocal(cap: nat, st: State, o: Owner, tid: Tid, c: Choice)
    requires tid < |st.threads| && st.threads[tid].Detach? && Here(st, o, tid)
    requires DetachStep(st, tid, c).Some?
    ensures Local(cap, st, o, tid, c, DetachStep(st, tid, c).value, NextOwner(st, o, tid, c))
  {
    if st.threads[tid].id in st.sessions {
      KnownSession(st, o, tid, st.threads[tid].id);
    }
  }

  lemma CloseLocal(cap: nat, st: State, o: Owner, tid: Tid, c: Choice)
    requires tid < |st.threads| && st.threads[tid].Close? && Here(st, o, tid)
    requires var phase := st.threads[tid].close; phase.AwaitClose? || phase.Closing?
    requires CloseStep(st, tid, c).Some?
    ensures Local(cap, st, o, tid, c, CloseStep(st, tid, c).value, NextOwner(st, o, tid, c))
  {
  }

  lemma DrainLocal(cap: nat, st: State, o: Owner, tid: Tid, c: Choice)
    requires tid < |st.threads| && st.threads[tid].Close? && Here(st, o, tid)
    requires var phase := st.threads[tid].close; phase.Drain? || phase.Unlock?
    requires CloseStep(st, tid, c).Some?
    ensures Local(cap, st, o, tid, c, CloseStep(st, tid, c).value, NextOwner(st, o, tid, c))
  {
  }

  lemma SweepLocal(cap: nat, st: State, o: Owner, tid: Tid, c: Choice)
    requires tid < |st.threads| && st.threads[tid].Shutdown? && Here(st, o, tid)
    requires var phase := st.threads[tid].shut; phase.AwaitSweep? || phase.Sweep?
    requires ShutStep(st, tid, c).Some?
    ensures Local(cap, st, o, tid, c, ShutStep(st, tid, c).value, NextOwner(st, o, tid, c))
  {
    if o.Mapped? {
      KnownSession(st, o, tid, o.id);
    }
  }

  lemma NextLocal(cap: nat, st: State, o: Owner, tid: Tid, c: Choice)
    requires tid < |st.threads| && st.threads[tid].Shutdown? && Here(st, o, tid)
    requires st.threads[tid].shut.Next?
    requires ShutStep(st, tid, c).Some?
    ensures Local(cap, st, o, tid, c, ShutStep(st, tid, c).value, NextOwner(st, o, tid, c))
  {
    if c.Pick? {
      var rest := st.threads[tid].rest;
      assert c.s in rest ==> |rest - {c.s}| == |rest| - 1 && rest - {c.s} + {c.s} == rest;
    }
  }

  lemma ShutLocal(cap: nat, st: State, o: Owner, tid: Tid, c: Choice)
    requires tid < |st.threads| && st.threads[tid].Shutdown? && Here(st, o, tid)
    requires var phase := st.threads[tid].shut; phase.Shut? || phase.Release?
    requires ShutStep(st, tid, c).Some?
    ensures Local(cap, st, o, tid, c, ShutStep(st, tid, c).value, NextOwner(st, o, tid, c))
  {
    assert st.threads[tid].rest == {};
  }

  lemma DrainOneLocal(cap: nat, st: State, o: Owner, tid: Tid, c: Choice)
    requires tid < |st.threads| && st.threads[tid].Shutdown? && Here(st, o, tid)
    requires var phase := st.threads[tid].shut; phase.DrainOne?
    requires ShutStep(st, tid, c).Some?
    ensures Local(cap, st, o, tid, c, ShutStep(st, tid, c).value, NextOwner(st, o, tid, c))
  {
    assert st.threads[tid].rest == {};
  }

  lemma DropSemLocal(cap: nat, st: State, o: Owner, tid: Tid, c: Choice)
    requires tid < |st.threads| && st.threads[tid].DropSem? && Here(st, o, tid)
    requires Step(cap, st, tid, c).Some?
    ensures Local(cap, st, o, tid, c, Step(cap, st, tid, c).value, NextOwner(st, o, tid, c))
  {
  }

  lemma StepLocal(cap: nat, st: State, o: Owner, tid: Tid, c: Choice)
    requires tid < |st.threads| && Here(st, o, tid)
    requires Step(cap, st, tid, c).Some?
    ensures Local(cap, st, o, tid, c, Step(cap, st, tid, c).value, NextOwner(st, o, tid, c))
  {
    match st.threads[tid]
    case Create(phase, _) =>
      if phase.Registering? || phase.Discarding? { RegisterLocal(cap, st, o, tid, c); }
      else if phase.FreeSem? || phase.FreeToken? || phase.Kept? { GiveBackLocal(cap, st, o, tid, c); }
      else if phase.Opening? || phase.Opened? { OpenLocal(cap, st, o, tid, c); }
      else { ClaimLocal(cap, st, o, tid, c); }
    case Lookup(_, _, _) => LookupLocal(cap, st, o, tid, c);
    case Push(phase, _, _, _) =>
      if phase.Queued? || phase.AwaitLock? { QueuedLocal(cap, st, o, tid, c); }
      else if phase.Check? || phase.AwaitBusy? { CheckLocal(cap, st, o, tid, c); }
      else if phase.SetBusy? || phase.Infer? { InferLocal(cap, st, o, tid, c); }
      else { LeaveLocal(cap, st, o, tid, c); }
    case DropSem => DropSemLocal(cap, st, o, tid, c);
    case Detach(_, _, _, _) => DetachLocal(cap, st, o, tid, c);
    case Close(phase, _, _) =>
      if phase.AwaitClose? || phase.Closing? { CloseLocal(cap, st, o, tid, c); } else { DrainLocal(cap, st, o, tid, c); }
    case Shutdown(phase, _, _) =>
      if phase.AwaitSweep? || phase.Sweep? { SweepLocal(cap, st, o, tid, c); }
      else if phase.Next? { NextLocal(cap, st, o, tid, c); }
      else if phase.DrainOne? { DrainOneLocal(cap, st, o, tid, c); }
      else { ShutLocal(cap, st, o, tid, c); }
  }

  // From the moving thread's view to all threads.

  lemma FrameMu(cap: nat, st: State, o: Owner, tid: Tid, c: Choice, st': State, o': Owner)
    requires MuInv(st)
    requires tid < |st.threads| && Local(cap, st, o, tid, c, st', o')
    ensures MuInv(st')
  {
    hide ObjsLocal, OwnedLocal, PcInv, Tokens, HoldsSem, LockOf, SessionsInv, Owned;
  }

  lemma FrameSem(cap: nat, st: State, o: Owner, tid: Tid, c: Choice, st': State, o': Owner)
    requires SemInv(cap, st)
    requires tid < |st.threads| && Local(cap, st, o, tid, c, st', o')
    ensures SemInv(cap, st')
  {
    hide ObjsLocal, OwnedLocal, PcInv, Tokens, InMu, LockOf, SessionsInv, Owned;
  }

  lemma FrameOwner(cap: nat, st: State, o: Owner, tid: Tid, c: Choice, st': State, o': Owner)
    requires OwnerInv(st, o)
    requires tid < |st.threads| && Local(cap, st, o, tid, c, st', o')
    ensures OwnerInv(st', o')
  {
    hide ObjsLocal, OwnedLocal, PcInv, HoldsSem, InMu, LockOf, Owned;
  }

  lemma FrameLock(cap: nat, st: State, o: Owner, tid: Tid, c: Choice, st': State, o': Owner)
    requires LockInv(st)
    requires tid < |st.threads| && Local(cap, st, o, tid, c, st', o')
    ensures LockInv(st')
  {
    forall t | 0 <= t < |st'.threads| && LockOf(st'.threads[t]).Some?
      ensures LockOf(st'.threads[t]).value < |st'.objs| && st'.objs[LockOf(st'.threads[t]).value].lock == Some(t)
    {
      if t != tid { assert LockOf(st.threads[t]) == LockOf(st'.threads[t]); }
    }
  }

  lemma FrameHolder(cap: nat, st: State, o: Owner, tid: Tid, c: Choice, st': State, o': Owner)
    requires HolderInv(st)
    requires tid < |st.threads| && Local(cap, st, o, tid, c, st', o')
    ensures HolderInv(st')
  {
    hide SharedLocal, OwnedLocal, PcInv, Tokens, HoldsSem, InMu, SessionsInv, Owned, Closes;
  }

  lemma FrameObj(cap: nat, st: State, o: Owner, tid: Tid, c: Choice, st': State, o': Owner)
    requires ObjInv(st, o)
    requires tid < |st.threads| && Local(cap, st, o, tid, c, st', o')
    ensures ObjInv(st', o')
  {
  }

  lemma FramePush(cap: nat, st: State, o: Owner, tid: Tid, c: Choice, st': State, o': Owner)
    requires LockInv(st) && OwnerInv(st, o) && PushInv(st)
    requires tid < |st.threads| && Local(cap, st, o, tid, c, st', o')
    ensures PushInv(st')
  {
    forall t | 0 <= t < |st'.threads| ensures PcInv(st', st'.threads[t]) {
      if t != tid {
        var pc := st.threads[t];
        assert PcInv(st, pc) && Tokens(pc) + Tokens(st.threads[tid]) <= 1;
        if pc.Push? {
          assert Using(pc) || MarkedBusy(pc) ==> LockOf(pc) == Some(pc.s);
          assert LockOf(pc).Some? ==> LockOf(pc) != LockOf(st.threads[tid]);
        }
      }
    }
  }

  lemma StepKeeps(cap: nat, st: State, o: Owner, tid: Tid, c: Choice)
    requires InvFor(cap, st, o) && tid < |st.threads| && Step(cap, st, tid, c).Some?
    ensures InvFor(cap, Step(cap, st, tid, c).value, NextOwner(st, o, tid, c))
  {
    var st', o' := Step(cap, st, tid, c).value, NextOwner(st, o, tid, c);
    assert Here(st, o, tid);
    StepLocal(cap, st, o, tid, c);
    FrameMu(cap, st, o, tid, c, st', o');
    FrameSem(cap, st, o, tid, c, st', o');
    FrameOwner(cap, st, o, tid, c, st', o');
    FrameLock(cap, st, o, tid, c, st', o');
    FrameHolder(cap, st, o, tid, c, st', o');
    FrameObj(cap, st, o, tid, c, st', o');
    FramePush(cap, st, o, tid, c, st', o');
  }

  lemma SpawnLocks(cap: nat, st: State, pc: PC)
    requires MuInv(st) && LockInv(st) && HolderInv(st) && SemInv(cap, st) && Entry(pc)
    ensures var st' := st.(threads := st.threads + [pc]);
      MuInv(st') && LockInv(st') && HolderInv(st') && SemInv(cap, st')
  {
    assert LockOf(pc) == None && !InMu(pc) && !HoldsSem(pc);
  }

  lemma SpawnKeeps(cap: nat, st: State, o: Owner, pc: PC)
    requires InvFor(cap, st, o) && Entry(pc)
    ensures InvFor(cap, st.(threads := st.threads + [pc]), o)
  {
    SpawnLocks(cap, st, pc);
  }

  lemma EventKeeps(cap: nat, st: State, e: Event)
    requires Inv(cap, st) && Apply(cap, st, e).Some?
    ensures Inv(cap, Apply(cap, st, e).value)
  {
    var o :| InvFor(cap, st, o);
    var next := Apply(cap, st, e).value;
    hide InvFor;
    match e
    case Spawn(pc) =>
      SpawnKeeps(cap, st, o, pc);
    case Run(tid, c) =>
      StepKeeps(cap, st, o, tid, c);
  }

  /** The invariant holds in every reachable state, whatever the interleaving. */
  lemma {:induction false} ReachableInv(cap: nat, st: State, events: seq<Event>, st': State)
    requires Inv(cap, st) && Reaches(cap, st, events, st')
    ensures Inv(cap, st')
    decreases |events|
  {
    if events != [] {
      EventKeeps(cap, st, events[0]);
      ReachableInv(cap, Apply(cap, st, events[0]).value, events[1..], st');
    }
  }

  lemma InitInv(cap: nat)
    ensures Inv(cap, INIT)
  {
    assert InvFor(cap, INIT, Free);
  }
}
