/**
 The live-transcription session protocol of server/audio_routes.go as a
 transition system. Every request, timer and shutdown call is a thread with a
 program counter; one step is one lock, channel or transcriber operation, or
 one critical section of the registry mutex.

 A session object is named by the number of its transcriber: every session is
 built around a transcriber of its own, and a transcriber joins at most one
 session. Session IDs are arbitrary strings and may repeat over time.
 */
module RealtimeSessions {
  import opened Wrappers

  type Tid = nat
  type Ref = nat
  type Id = string

  /** A transcriber and, once published, the session object around it. */
  datatype Obj = Obj(
    published: bool,     // the session object was put into the registry
    lock: Option<Tid>,   // session.mu
    closed: bool,        // session.closed
    busy: bool,          // session.busy
    closes: nat)         // how often transcriber.Close ran

  /** POST /sessions; the last three are its deferred releases. */
  datatype CreatePhase =
    Start | AwaitSem | Opening | Opened | Registering | Discarding | FreeSem | FreeToken | Kept

  /** POST /sessions/{id} once a session was found; Check to Unlocking hold session.mu. */
  datatype PushPhase =
    Queued | AwaitLock | Check | AwaitBusy | SetBusy | Infer | AwaitIdle | SetIdle | Unlocking

  /** closeSession; Closing to Unlock hold session.mu. */
  datatype ClosePhase = AwaitClose | Closing | Drain | Unlock

  /** The shutdown closure; Shut and Release hold the mutex of session s. */
  datatype ShutPhase = AwaitSweep | Sweep | Next | Shut | Release | DrainOne

  datatype PC =
    | Create(create: CreatePhase, t: Ref)
    | Lookup(id: Id, final: bool, inMu: bool)
    | Push(push: PushPhase, id: Id, final: bool, s: Ref)
    | DropSem
    | Detach(id: Id, expiry: bool, sem: bool, inMu: bool)   // remove(id), or expire(id)
    | Close(close: ClosePhase, s: Ref, sem: bool)
    | Shutdown(shut: ShutPhase, s: Ref, rest: set<Ref>)
    | Done

  datatype State = State(
    mu: Option<Tid>,
    active: nat,              // tokens in the one-slot channel
    sem: set<Tid>,            // holders of the inference semaphore
    closed: bool,
    sessions: map<Id, Ref>,
    objs: seq<Obj>,
    threads: seq<PC>)
  {
    function Go(tid: Tid, pc: PC): State
      requires tid < |threads|
    {
      this.(threads := threads[tid := pc])
    }

    function Put(s: Ref, o: Obj): State
      requires s < |objs|
    {
      this.(objs := objs[s := o])
    }
  }

  const INIT := State(None, 0, {}, false, map[], [], [])

  /** What the scheduler and the outside world decide at a step. */
  datatype Choice =
    | Proceed
    | Fail            // the called operation failed, or the timer was not due
    | GiveUp          // the request context ended while the thread waited
    | Register(id: Id)
    | Pick(s: Ref)

  // Steps. None means that the thread cannot take this step now.

  function CreateStep(cap: nat, st: State, tid: Tid, c: Choice): Option<State>
    requires tid < |st.threads| && st.threads[tid].Create?
  {
    var t := st.threads[tid].t;
    match st.threads[tid].create
    case Start =>
      if c.GiveUp? || (c.Fail? && st.active != 0) then Some(st.Go(tid, Done))
      else if c.Proceed? && st.active == 0 then Some(st.(active := 1).Go(tid, Create(AwaitSem, t)))
      else None
    case AwaitSem =>
      if c.GiveUp? then Some(st.Go(tid, Create(FreeToken, t)))
      else if c.Proceed? && |st.sem| < cap then Some(st.(sem := st.sem + {tid}).Go(tid, Create(Opening, t)))
      else None
    case Opening =>
      if c.Fail? then Some(st.Go(tid, Create(FreeSem, t)))
      else if c.Proceed? then
        Some(st.(objs := st.objs + [Obj(false, None, false, false, 0)]).Go(tid, Create(Opened, |st.objs|)))
      else None
    case Opened =>
      if c.Fail? then Some(st.Go(tid, Create(Discarding, t)))
      else if c.Proceed? && st.mu.None? then Some(st.(mu := Some(tid)).Go(tid, Create(Registering, t)))
      else None
    case Registering =>
      if !c.Register? || t >= |st.objs| then None
      else if st.closed then Some(st.(mu := None).Go(tid, Create(Discarding, t)))
      else Some(st.(mu := None, sessions := st.sessions[c.id := t])
                  .Put(t, st.objs[t].(published := true)).Go(tid, Create(Kept, t)))
    case Discarding =>
      if c.Proceed? && t < |st.objs| then
        Some(st.Put(t, st.objs[t].(closes := st.objs[t].closes + 1)).Go(tid, Create(FreeSem, t)))
      else None
    case FreeSem =>
      if c.Proceed? then Some(st.(sem := st.sem - {tid}).Go(tid, Create(FreeToken, t))) else None
    case FreeToken =>
      if c.Proceed? && st.active > 0 then Some(st.(active := st.active - 1).Go(tid, Done)) else None
    case Kept =>
      if c.Proceed? then Some(st.(sem := st.sem - {tid}).Go(tid, Done)) else None
  }

  function LookupStep(st: State, tid: Tid, c: Choice): Option<State>
    requires tid < |st.threads| && st.threads[tid].Lookup?
  {
    var Lookup(id, final, inMu) := st.threads[tid];
    if !c.Proceed? then None
    else if !inMu then if st.mu.None? then Some(st.(mu := Some(tid)).Go(tid, Lookup(id, final, true))) else None
    else if id in st.sessions then Some(st.(mu := None).Go(tid, Push(Queued, id, final, st.sessions[id])))
    else Some(st.(mu := None).Go(tid, Done))
  }

  function PushStep(cap: nat, st: State, tid: Tid, c: Choice): Option<State>
    requires tid < |st.threads| && st.threads[tid].Push?
  {
    var Push(phase, id, final, s) := st.threads[tid];
    if s >= |st.objs| then None else
    var obj := st.objs[s];
    match phase
    case Queued =>
      if c.GiveUp? then Some(st.Go(tid, Done))
      else if c.Proceed? && |st.sem| < cap then
        Some(st.(sem := st.sem + {tid}).Go(tid, Push(AwaitLock, id, final, s)))
      else None
    case AwaitLock =>
      if c.Proceed? && obj.lock.None? then
        Some(st.Put(s, obj.(lock := Some(tid))).Go(tid, Push(Check, id, final, s)))
      else None
    case Check =>
      if !c.Proceed? then None
      else if obj.closed then Some(st.Put(s, obj.(lock := None)).Go(tid, DropSem))
      else Some(st.Go(tid, Push(AwaitBusy, id, final, s)))
    case AwaitBusy =>
      if c.Proceed? && st.mu.None? then
        Some(st.(mu := Some(tid)).Go(tid, Push(SetBusy, id, final, s)))
      else None
    case SetBusy =>
      if c.Proceed? then
        Some(st.(mu := None).Put(s, obj.(busy := true)).Go(tid, Push(Infer, id, final, s)))
      else None
    case Infer =>
      // from here on `final` says whether the session is to be removed
      if c.Proceed? || c.Fail? then
        Some(st.Put(s, obj.(closed := obj.closed || final || c.Fail?))
               .Go(tid, Push(AwaitIdle, id, final || c.Fail?, s)))
      else None
    case AwaitIdle =>
      if c.Proceed? && st.mu.None? then
        Some(st.(mu := Some(tid)).Go(tid, Push(SetIdle, id, final, s)))
      else None
    case SetIdle =>
      if c.Proceed? then
        Some(st.(mu := None).Put(s, obj.(busy := false)).Go(tid, Push(Unlocking, id, final, s)))
      else None
    case Unlocking =>
      if c.Proceed? then
        Some(st.Put(s, obj.(lock := None)).Go(tid, if final then Detach(id, false, true, false) else DropSem))
      else None
  }

  function DetachStep(st: State, tid: Tid, c: Choice): Option<State>
    requires tid < |st.threads| && st.threads[tid].Detach?
  {
    var Detach(id, expiry, sem, inMu) := st.threads[tid];
    var gone := st.(mu := None).Go(tid, if sem then DropSem else Done);
    if !inMu then
      if c.Proceed? && st.mu.None? then Some(st.(mu := Some(tid)).Go(tid, Detach(id, expiry, sem, true))) else None
    else if id !in st.sessions then if c.Proceed? then Some(gone) else None
    else if expiry && c.Fail? then Some(gone)            // busy or not yet due: timer.Reset
    else if c.Proceed? && (!expiry || (st.sessions[id] < |st.objs| && !st.objs[st.sessions[id]].busy)) then
      Some(st.(mu := None, sessions := st.sessions - {id}).Go(tid, Close(AwaitClose, st.sessions[id], sem)))
    else None
  }

  function CloseStep(st: State, tid: Tid, c: Choice): Option<State>
    requires tid < |st.threads| && st.threads[tid].Close?
  {
    var Close(phase, s, sem) := st.threads[tid];
    if s >= |st.objs| || !c.Proceed? then None else
    var obj := st.objs[s];
    match phase
    case AwaitClose =>
      if obj.lock.None? then Some(st.Put(s, obj.(lock := Some(tid))).Go(tid, Close(Closing, s, sem))) else None
    case Closing =>
      Some(st.Put(s, obj.(closed := true, closes := obj.closes + 1)).Go(tid, Close(Drain, s, sem)))
    case Drain =>
      if st.active > 0 then Some(st.(active := st.active - 1).Go(tid, Close(Unlock, s, sem))) else None
    case Unlock =>
      Some(st.Put(s, obj.(lock := None)).Go(tid, if sem then DropSem else Done))
  }

  function ShutStep(st: State, tid: Tid, c: Choice): Option<State>
    requires tid < |st.threads| && st.threads[tid].Shutdown?
  {
    var Shutdown(phase, s, rest) := st.threads[tid];
    match phase
    case AwaitSweep =>
      if c.Proceed? && st.mu.None? then Some(st.(mu := Some(tid)).Go(tid, Shutdown(Sweep, s, {}))) else None
    case Sweep =>
      if c.Proceed? then
        Some(st.(mu := None, closed := true, sessions := map[]).Go(tid, Shutdown(Next, s, st.sessions.Values)))
      else None
    case Next =>
      if rest == {} then if c.Proceed? then Some(st.Go(tid, Done)) else None
      else if c.Pick? && c.s in rest && c.s < |st.objs| && st.objs[c.s].lock.None? then
        Some(st.Put(c.s, st.objs[c.s].(lock := Some(tid))).Go(tid, Shutdown(Shut, c.s, rest - {c.s})))
      else None
    case Shut =>
      if c.Proceed? && s < |st.objs| then
        Some(st.Put(s, st.objs[s].(closed := true, closes := st.objs[s].closes + 1))
               .Go(tid, Shutdown(Release, s, rest)))
      else None
    case Release =>
      if c.Proceed? && s < |st.objs| then
        Some(st.Put(s, st.objs[s].(lock := None)).Go(tid, Shutdown(DrainOne, s, rest)))
      else None
    case DrainOne =>
      if c.Proceed? && st.active > 0 then
        Some(st.(active := st.active - 1).Go(tid, Shutdown(Next, s, rest)))
      else None
  }

  function Step(cap: nat, st: State, tid: Tid, c: Choice): Option<State>
    requires tid < |st.threads|
  {
    match st.threads[tid]
    case Create(_, _) => CreateStep(cap, st, tid, c)
    case Lookup(_, _, _) => LookupStep(st, tid, c)
    case Push(_, _, _, _) => PushStep(cap, st, tid, c)
    case DropSem => if c.Proceed? then Some(st.(sem := st.sem - {tid}).Go(tid, Done)) else None
    case Detach(_, _, _, _) => DetachStep(st, tid, c)
    case Close(_, _, _) => CloseStep(st, tid, c)
    case Shutdown(_, _, _) => ShutStep(st, tid, c)
    case Done => None
  }

  /** A request arrives, a timer fires, or the server shuts down. */
  predicate Entry(pc: PC) {
    match pc
    case Create(phase, _) => phase.Start?
    case Lookup(_, _, inMu) => !inMu
    case Detach(_, _, sem, inMu) => !sem && !inMu
    case Shutdown(phase, _, rest) => phase.AwaitSweep? && rest == {}
    case _ => false
  }

  datatype Event = Spawn(pc: PC) | Run(tid: Tid, c: Choice)

  function Apply(cap: nat, st: State, e: Event): Option<State> {
    match e
    case Spawn(pc) => if Entry(pc) then Some(st.(threads := st.threads + [pc])) else None
    case Run(tid, c) => if tid < |st.threads| then Step(cap, st, tid, c) else None
  }

  /** st' is reached from st by the events, each of them possible in its turn. */
  predicate Reaches(cap: nat, st: State, events: seq<Event>, st': State)
    decreases |events|
  {
    if events == [] then st == st'
    else
      var next := Apply(cap, st, events[0]);
      next.Some? && Reaches(cap, next.value, events[1..], st')
  }
}
