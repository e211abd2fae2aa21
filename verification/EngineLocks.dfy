/**
 The lock protocol of mobile/engine.go as a transition system: `gen` queues
 generations, `life` is held shared to use the model and exclusively to swap
 it, and `mu` guards the fields. Every call is a thread; one step is one lock
 operation, one mu-critical section, or one call into the model.

 The RWMutex follows Go's: a writer first announces itself, which keeps new
 readers out, and then waits until the present readers have left.
 */
module EngineLocks {
  import opened Wrappers

  type Tid = nat
  type Ref = nat   // a model, numbered in the order of opening

  /** Load; CloseOpened is the recovery from a panic after Open. */
  datatype LoadPhase =
    LoadStart | LoadDrain | LoadAwaitLook | LoadLook | Opening | Describe | CloseOpened | AwaitStore | Store | LoadLeave

  /** Unload and Close. */
  datatype ReleasePhase =
    ReadCancel | InReadCancel | CallCancel | ReleaseStart | ReleaseDrain | AwaitClear | Clear | CloseModel | ReleaseLeave

  /** Generate, Chat and their streaming forms. */
  datatype RunPhase =
    AwaitGen | RunRead | RunAwaitLook | RunLook | AwaitCancelSet | CancelSet | Stream | AwaitCancelDrop | CancelDrop
    | RunUnread | LeaveGen

  /** CountTokens. */
  datatype CountPhase = CountRead | CountAwaitLook | CountLook | Tokenize | CountUnread

  /** Cancel, and the status queries that only look under mu. */
  datatype BriefPhase = BriefStart | BriefInMu | BriefCall

  datatype PC =
    | Load(load: LoadPhase, m: Ref)
    | Release(release: ReleasePhase, closing: bool, seen: Option<Tid>, taken: Option<Ref>)
    | Run(run: RunPhase, m: Ref)
    | Count(count: CountPhase, m: Ref)
    | Cancel(cancel: BriefPhase, seen: Option<Tid>)
    | Query(inMu: bool)
    | Done

  datatype State = State(
    gen: Option<Tid>,
    writer: Option<Tid>,     // life: announced, or holding once readers is empty
    readers: set<Tid>,       // life: shared holders
    mu: Option<Tid>,
    model: Option<Ref>,
    cancel: Option<Tid>,     // e.cancel, named by the request it belongs to
    closed: bool,
    closes: seq<nat>,        // how often each opened model was closed
    cancelled: set<Tid>,     // requests whose context was cancelled from outside
    threads: seq<PC>)
  {
    function Go(tid: Tid, pc: PC): State
      requires tid < |threads|
    {
      this.(threads := threads[tid := pc])
    }

    function CloseOnce(m: Ref): State
      requires m < |closes|
    {
      this.(closes := closes[m := closes[m] + 1])
    }
  }

  const INIT := State(None, None, {}, None, None, None, false, [], {}, [])

  /** Whether the call made at this step succeeds, fails, or panics. */
  datatype Choice = Proceed | Fail | Panic

  function TakeMu(st: State, tid: Tid, pc: PC): Option<State>
    requires tid < |st.threads|
  {
    if st.mu.None? then Some(st.(mu := Some(tid)).Go(tid, pc)) else None
  }

  function Announce(st: State, tid: Tid, pc: PC): Option<State>
    requires tid < |st.threads|
  {
    if st.writer.None? then Some(st.(writer := Some(tid)).Go(tid, pc)) else None
  }

  function ReadLock(st: State, tid: Tid, pc: PC): Option<State>
    requires tid < |st.threads|
  {
    if st.writer.None? then Some(st.(readers := st.readers + {tid}).Go(tid, pc)) else None
  }

  function LoadStep(st: State, tid: Tid, c: Choice): Option<State>
    requires tid < |st.threads| && st.threads[tid].Load?
  {
    var m := st.threads[tid].m;
    match st.threads[tid].load
    case LoadStart => Announce(st, tid, Load(LoadDrain, m))
    case LoadDrain => if st.readers == {} then Some(st.Go(tid, Load(LoadAwaitLook, m))) else None
    case LoadAwaitLook => TakeMu(st, tid, Load(LoadLook, m))
    case LoadLook =>
      var refused := st.closed || st.model.Some?;
      Some(st.(mu := None).Go(tid, Load(if refused then LoadLeave else Opening, m)))
    case Opening =>
      if c.Proceed? then Some(st.(closes := st.closes + [0]).Go(tid, Load(Describe, |st.closes|)))
      else Some(st.Go(tid, Load(LoadLeave, m)))
    case Describe =>
      if c.Panic? then Some(st.Go(tid, Load(CloseOpened, m))) else Some(st.Go(tid, Load(AwaitStore, m)))
    case CloseOpened => if m < |st.closes| then Some(st.CloseOnce(m).Go(tid, Load(LoadLeave, m))) else None
    case AwaitStore => TakeMu(st, tid, Load(Store, m))
    case Store => Some(st.(mu := None, model := Some(m)).Go(tid, Load(LoadLeave, m)))
    case LoadLeave => Some(st.(writer := None).Go(tid, Done))
  }

  function ReleaseStep(st: State, tid: Tid, c: Choice): Option<State>
    requires tid < |st.threads| && st.threads[tid].Release?
  {
    var Release(phase, closing, seen, taken) := st.threads[tid];
    match phase
    case ReadCancel => TakeMu(st, tid, Release(InReadCancel, closing, seen, taken))
    case InReadCancel => Some(st.(mu := None).Go(tid, Release(CallCancel, closing, st.cancel, taken)))
    case CallCancel =>
      Some(st.(cancelled := if seen.Some? then st.cancelled + {seen.value} else st.cancelled)
             .Go(tid, Release(ReleaseStart, closing, seen, taken)))
    case ReleaseStart => Announce(st, tid, Release(ReleaseDrain, closing, seen, taken))
    case ReleaseDrain =>
      if st.readers == {} then Some(st.Go(tid, Release(AwaitClear, closing, seen, taken))) else None
    case AwaitClear => TakeMu(st, tid, Release(Clear, closing, seen, taken))
    case Clear =>
      Some(st.(mu := None, model := None, closed := st.closed || closing)
             .Go(tid, Release(if st.model.Some? then CloseModel else ReleaseLeave, closing, seen, st.model)))
    case CloseModel =>
      if taken.Some? && taken.value < |st.closes|
      then Some(st.CloseOnce(taken.value).Go(tid, Release(ReleaseLeave, closing, seen, taken)))
      else None
    case ReleaseLeave => Some(st.(writer := None).Go(tid, Done))
  }

  function RunStep(st: State, tid: Tid, c: Choice): Option<State>
    requires tid < |st.threads| && st.threads[tid].Run?
  {
    var m := st.threads[tid].m;
    match st.threads[tid].run
    case AwaitGen => if st.gen.None? then Some(st.(gen := Some(tid)).Go(tid, Run(RunRead, m))) else None
    case RunRead => ReadLock(st, tid, Run(RunAwaitLook, m))
    case RunAwaitLook => TakeMu(st, tid, Run(RunLook, m))
    case RunLook =>
      var refused := st.closed || st.model.None?;
      Some(st.(mu := None).Go(tid, if refused then Run(RunUnread, m) else Run(AwaitCancelSet, st.model.value)))
    case AwaitCancelSet => TakeMu(st, tid, Run(CancelSet, m))
    case CancelSet => Some(st.(mu := None, cancel := Some(tid)).Go(tid, Run(Stream, m)))
    case Stream => Some(st.Go(tid, Run(AwaitCancelDrop, m)))
    case AwaitCancelDrop => TakeMu(st, tid, Run(CancelDrop, m))
    case CancelDrop => Some(st.(mu := None, cancel := None).Go(tid, Run(RunUnread, m)))
    case RunUnread => Some(st.(readers := st.readers - {tid}).Go(tid, Run(LeaveGen, m)))
    case LeaveGen => Some(st.(gen := None).Go(tid, Done))
  }

  function CountStep(st: State, tid: Tid, c: Choice): Option<State>
    requires tid < |st.threads| && st.threads[tid].Count?
  {
    var m := st.threads[tid].m;
    match st.threads[tid].count
    case CountRead => ReadLock(st, tid, Count(CountAwaitLook, m))
    case CountAwaitLook => TakeMu(st, tid, Count(CountLook, m))
    case CountLook =>
      var refused := st.closed || st.model.None?;
      Some(st.(mu := None).Go(tid, if refused then Count(CountUnread, m) else Count(Tokenize, st.model.value)))
    case Tokenize => Some(st.Go(tid, Count(CountUnread, m)))
    case CountUnread => Some(st.(readers := st.readers - {tid}).Go(tid, Done))
  }

  function BriefStep(st: State, tid: Tid, c: Choice): Option<State>
    requires tid < |st.threads| && (st.threads[tid].Cancel? || st.threads[tid].Query?)
  {
    match st.threads[tid]
    case Cancel(phase, seen) => (
      match phase
      case BriefStart => TakeMu(st, tid, Cancel(BriefInMu, seen))
      case BriefInMu => Some(st.(mu := None).Go(tid, Cancel(BriefCall, st.cancel)))
      case BriefCall =>
        Some(st.(cancelled := if seen.Some? then st.cancelled + {seen.value} else st.cancelled).Go(tid, Done)))
    case Query(inMu) =>
      if inMu then Some(st.(mu := None).Go(tid, Done)) else TakeMu(st, tid, Query(true))
  }

  function Step(st: State, tid: Tid, c: Choice): Option<State>
    requires tid < |st.threads|
  {
    match st.threads[tid]
    case Load(_, _) => LoadStep(st, tid, c)
    case Release(_, _, _, _) => ReleaseStep(st, tid, c)
    case Run(_, _) => RunStep(st, tid, c)
    case Count(_, _) => CountStep(st, tid, c)
    case Cancel(_, _) => BriefStep(st, tid, c)
    case Query(_) => BriefStep(st, tid, c)
    case Done => None
  }

  /** A call enters the engine. */
  predicate Entry(pc: PC) {
    match pc
    case Load(phase, _) => phase.LoadStart?
    case Release(phase, _, _, _) => phase.ReadCancel?
    case Run(phase, _) => phase.AwaitGen?
    case Count(phase, _) => phase.CountRead?
    case Cancel(phase, _) => phase.BriefStart?
    case Query(inMu) => !inMu
    case Done => false
  }

  datatype Event = Call(pc: PC) | Move(tid: Tid, c: Choice)

  function Apply(st: State, e: Event): Option<State> {
    match e
    case Call(pc) => if Entry(pc) then Some(st.(threads := st.threads + [pc])) else None
    case Move(tid, c) => if tid < |st.threads| then Step(st, tid, c) else None
  }

  predicate Reaches(st: State, events: seq<Event>, st': State)
    decreases |events|
  {
    if events == [] then st == st'
    else
      var next := Apply(st, events[0]);
      next.Some? && Reaches(next.value, events[1..], st')
  }
}
