/**
 Snapshot saving in server/rag_state.go while requests change the index. A state
 of the index is named by how many changes it has seen since the process
 started; encoding reads one such state atomically, because Save holds the
 index's read lock.
 */
module RagSnapshots {
  datatype Phase = Serving | Mutated | Holding | Encoded | Renamed | Saved | Gone

  /** A request: its phase, the change it made, and the state its temporary file holds. */
  datatype Request = Request(phase: Phase, own: nat, file: nat)

  /** What lies at the snapshot path. */
  datatype File = Missing | Unreadable | Snapshot(version: nat)

  datatype Store = Store(requests: seq<Request>, memory: nat, disk: File, saving: bool, failed: bool)

  datatype Event = Arrive | Refuse(t: nat) | Mutate(t: nat) | Lock(t: nat) | Encode(t: nat) | Rename(t: nat) | Unlock(t: nat) | Fail(t: nat)

  /**
   The store when serving begins. loadSnapshot restores a readable file and
   goes on with an empty index otherwise; seedFromDir then changes the index or
   not, and nothing is saved.
   */
  function Started(found: File, seeded: bool): Store {
    Store([], if seeded then 1 else 0, if found.Snapshot? then Snapshot(0) else found, false, false)
  }

  /** The version in the file, -1 for a file that is none of this process's states. */
  function Age(f: File): int {
    if f.Snapshot? then f.version else -1
  }

  function Move(s: Store, t: nat, phase: Phase): Store
    requires t < |s.requests|
  {
    s.(requests := s.requests[t := s.requests[t].(phase := phase)])
  }

  predicate At(s: Store, t: nat, phase: Phase) {
    t < |s.requests| && s.requests[t].phase == phase
  }

  predicate InSave(p: Phase) {
    p == Holding || p == Encoded || p == Renamed
  }

  /** `save` takes saveMu, `saveLocked` encodes into a temporary file and renames it; failures are logged and dropped. */
  ghost predicate Step(s: Store, e: Event, s': Store) {
    match e
    case Arrive => s' == s.(requests := s.requests + [Request(Serving, 0, 0)])
    case Refuse(t) => At(s, t, Serving) && s' == Move(s, t, Gone)
    case Mutate(t) =>
      At(s, t, Serving) &&
      s' == s.(memory := s.memory + 1, requests := s.requests[t := Request(Mutated, s.memory + 1, 0)])
    case Lock(t) => At(s, t, Mutated) && !s.saving && s' == Move(s, t, Holding).(saving := true)
    case Encode(t) =>
      At(s, t, Holding) &&
      s' == s.(requests := s.requests[t := Request(Encoded, s.requests[t].own, s.memory)])
    case Rename(t) => At(s, t, Encoded) && s' == Move(s, t, Renamed).(disk := Snapshot(s.requests[t].file))
    case Unlock(t) => At(s, t, Renamed) && s' == Move(s, t, Saved).(saving := false)
    case Fail(t) =>
      (At(s, t, Holding) || At(s, t, Encoded)) && s' == Move(s, t, Gone).(saving := false, failed := true)
  }

  ghost predicate Reaches(s: Store, events: seq<Event>, s': Store)
    decreases |events|
  {
    if events == [] then s' == s
    else
      var init, last := events[..|events| - 1], events[|events| - 1];
      exists m :: Reaches(s, init, m) && Step(m, last, s')
  }

  ghost predicate Reachable(first: Store, s: Store) {
    exists events :: Reaches(first, events, s)
  }

  // The invariant

  /** What is known of one request's versions. */
  ghost predicate Local(first: Store, s: Store, t: nat)
    requires t < |s.requests|
  {
    var r := s.requests[t];
    && r.own <= s.memory
    && (r.phase == Serving || r.phase == Gone || first.memory < r.own)
    && (InSave(r.phase) ==> s.saving)
    && (r.phase == Encoded ==> r.own <= r.file <= s.memory && Age(s.disk) <= r.file)
    && (Wrote(r) ==> r.own <= r.file <= Age(s.disk))
  }

  /** The request has replaced the file. */
  predicate Wrote(r: Request) {
    r.phase == Renamed || r.phase == Saved
  }

  /** Someone will still bring the disk up to date. */
  ghost predicate Pending(s: Store, t: nat)
    requires t < |s.requests|
  {
    var r := s.requests[t];
    r.phase == Mutated || r.phase == Holding || (r.phase == Encoded && r.file == s.memory)
  }

  ghost predicate OneSaver(s: Store) {
    forall t, u | 0 <= t < u < |s.requests| :: !(InSave(s.requests[t].phase) && InSave(s.requests[u].phase))
  }

  /** The file is the one found at startup, or a request's. */
  ghost predicate FromSomeone(first: Store, s: Store) {
    s.disk == first.disk || exists r :: r in s.requests && Wrote(r) && s.disk == Snapshot(r.file)
  }

  ghost predicate Inv(first: Store, s: Store) {
    && first.memory <= s.memory && Age(s.disk) <= s.memory
    && (forall t: nat {:trigger Local(first, s, t)} | t < |s.requests| :: Local(first, s, t))
    && OneSaver(s)
    && FromSomeone(first, s)
    && (!s.failed && Age(s.disk) < s.memory && first.memory < s.memory ==>
          exists t: nat {:trigger Pending(s, t)} :: t < |s.requests| && Pending(s, t))
  }

  lemma StepKeepsLocal(first: Store, s: Store, e: Event, s': Store, u: nat)
    requires Inv(first, s) && Step(s, e, s') && u < |s'.requests|
    ensures Local(first, s', u)
  {
    if u < |s.requests| {
      assert Local(first, s, u);
    }
    if e.Rename? {
      assert Local(first, s, e.t);
    }
    if e.Unlock? || e.Fail? {
      assert InSave(s.requests[e.t].phase);
      assert u < |s.requests| && u != e.t ==> !InSave(s.requests[u].phase) by {
        assert u < e.t || e.t < u || u == e.t;
      }
    }
  }

  lemma StepKeepsPending(first: Store, s: Store, e: Event, s': Store)
    requires Inv(first, s) && Step(s, e, s') && !s'.failed && Age(s'.disk) < s'.memory && first.memory < s'.memory
    ensures exists t: nat {:trigger Pending(s', t)} :: t < |s'.requests| && Pending(s', t)
  {
    if e.Mutate? {
      assert Pending(s', e.t);
    } else {
      if e.Rename? {
        assert Local(first, s, e.t);
      }
      var t: nat :| t < |s.requests| && Pending(s, t);
      assert Pending(s', t);
    }
  }

  lemma StepKeepsSource(first: Store, s: Store, e: Event, s': Store)
    requires Inv(first, s) && Step(s, e, s')
    ensures FromSomeone(first, s')
  {
    if e.Rename? {
      assert s'.requests[e.t] in s'.requests;
    } else if s.disk != first.disk {
      var r :| r in s.requests && Wrote(r) && s.disk == Snapshot(r.file);
      var t :| 0 <= t < |s.requests| && s.requests[t] == r;
      assert Wrote(s'.requests[t]) && s'.requests[t].file == r.file && s'.requests[t] in s'.requests;
    }
  }

  lemma StepKeeps(first: Store, s: Store, e: Event, s': Store)
    requires Inv(first, s) && Step(s, e, s')
    ensures Inv(first, s') && Age(s.disk) <= Age(s'.disk) && s.memory <= s'.memory
  {
    forall u: nat | u < |s'.requests| ensures Local(first, s', u) {
      StepKeepsLocal(first, s, e, s', u);
    }
    StepKeepsSource(first, s, e, s');
    if !s'.failed && Age(s'.disk) < s'.memory && first.memory < s'.memory {
      StepKeepsPending(first, s, e, s');
    }
    if e.Lock? {
      forall u: nat | u < |s.requests| ensures !InSave(s.requests[u].phase) {
        assert Local(first, s, u);
      }
    }
    if e.Rename? {
      assert Local(first, s, e.t);
    }
  }

  lemma {:induction false} LaterInv(first: Store, s: Store, events: seq<Event>, s': Store)
    requires Inv(first, s) && Reaches(s, events, s')
    ensures Inv(first, s') && Age(s.disk) <= Age(s'.disk) && s.memory <= s'.memory
    decreases |events|
  {
    if events != [] {
      var m :| Reaches(s, events[..|events| - 1], m) && Step(m, events[|events| - 1], s');
      LaterInv(first, s, events[..|events| - 1], m);
      StepKeeps(first, m, events[|events| - 1], s');
    }
  }

  lemma ReachableInv(found: File, seeded: bool, s: Store)
    requires Reachable(Started(found, seeded), s)
    ensures Inv(Started(found, seeded), s)
  {
    var first := Started(found, seeded);
    var events :| Reaches(first, events, s);
    LaterInv(first, first, events, s);
  }

  // Theorems

  ghost predicate Quiet(s: Store) {
    forall r | r in s.requests :: r.phase in {Serving, Saved, Gone}
  }

  ghost predicate InSync(s: Store) {
    s.disk == Snapshot(s.memory)
  }

  /**
   At any moment, whatever failed: the file is the index in memory if and only
   if a request has written the present state, or nothing has changed since a
   startup that restored the file and seeded nothing.
   */
  lemma InSyncExact(found: File, seeded: bool, s: Store)
    requires Reachable(Started(found, seeded), s)
    ensures InSync(s) <==>
            || (exists r :: r in s.requests && Wrote(r) && r.file == s.memory)
            || (found.Snapshot? && !seeded && s.memory == 0)
  {
    var first := Started(found, seeded);
    ReachableInv(found, seeded, s);
    forall r | r in s.requests && Wrote(r) ensures first.memory < r.own <= r.file <= Age(s.disk) {
      var t: nat :| t < |s.requests| && s.requests[t] == r;
      assert Local(first, s, t);
    }
  }

  /** A request whose save succeeded and whose change is the latest has brought the file up to date, whatever failed before. */
  lemma LatestSaved(found: File, seeded: bool, s: Store, t: nat)
    requires Reachable(Started(found, seeded), s) && At(s, t, Saved) && s.requests[t].own == s.memory
    ensures InSync(s)
  {
    ReachableInv(found, seeded, s);
    assert Local(Started(found, seeded), s, t);
  }

  /**
   With every request finished and no save failed, the file is the index in
   memory, except that a startup which seeded or could not restore stays
   unsaved until the first changing request.
   */
  lemma QuietExact(found: File, seeded: bool, s: Store)
    requires Reachable(Started(found, seeded), s) && !s.failed && Quiet(s)
    ensures InSync(s) <==> (exists r :: r in s.requests && r.phase == Saved) || (found.Snapshot? && !seeded)
  {
    var first := Started(found, seeded);
    ReachableInv(found, seeded, s);
    forall t: nat | t < |s.requests| ensures !Pending(s, t) && (s.requests[t].phase == Saved ==> first.memory < s.memory) {
      assert s.requests[t] in s.requests && Local(first, s, t);
    }
    forall r | r in s.requests && r.phase == Saved ensures InSync(s) {
      var t: nat :| t < |s.requests| && s.requests[t] == r;
    }
  }

  /** A seeded start leaves the file behind the index, with nothing failed and nothing in flight. */
  lemma SeedingIsUnsaved() returns (s: Store)
    ensures Reachable(Started(Snapshot(0), true), s) && Quiet(s) && !s.failed && !InSync(s)
  {
    s := Started(Snapshot(0), true);
    assert Reaches(s, [], s);
  }

  /** A request that saved has its own change in the file, and it stays there. */
  lemma SavedStays(found: File, seeded: bool, s: Store, t: nat, events: seq<Event>, s': Store)
    requires Reachable(Started(found, seeded), s) && At(s, t, Saved) && Reaches(s, events, s')
    ensures s.requests[t].own <= Age(s.disk) <= Age(s'.disk)
  {
    ReachableInv(found, seeded, s);
    assert Local(Started(found, seeded), s, t);
    LaterInv(Started(found, seeded), s, events, s');
  }

  /** The file is the one found at startup or a state the index has had since, and never goes back to an older one. */
  lemma NeverBackwards(found: File, seeded: bool, s: Store, events: seq<Event>, s': Store)
    requires Reachable(Started(found, seeded), s) && Reaches(s, events, s')
    ensures Age(s.disk) <= Age(s'.disk) <= s'.memory
    ensures FromSomeone(Started(found, seeded), s')
  {
    ReachableInv(found, seeded, s);
    LaterInv(Started(found, seeded), s, events, s');
  }

  // What the lock is for

  /** The same step without waiting for saveMu. */
  ghost predicate UnlockedStep(s: Store, e: Event, s': Store) {
    if e.Lock? then At(s, e.t, Mutated) && s' == Move(s, e.t, Holding)
    else Step(s, e, s')
  }

  ghost predicate UnlockedRun(states: seq<Store>, events: seq<Event>) {
    && |states| == |events| + 1
    && forall i | 0 <= i < |events| :: UnlockedStep(states[i], events[i], states[i + 1])
  }

  lemma JoinRuns(a: seq<Store>, events: seq<Event>, b: seq<Store>, more: seq<Event>)
    requires UnlockedRun(a, events) && UnlockedRun(b, more) && a[|a| - 1] == b[0]
    ensures UnlockedRun(a + b[1..], events + more)
  {
    var states, all := a + b[1..], events + more;
    forall i | 0 <= i < |all| ensures UnlockedStep(states[i], all[i], states[i + 1]) {
      if i >= |events| {
        assert states[i] == b[i - |events|] && states[i + 1] == b[i + 1 - |events|];
      }
    }
  }

  const ONE_ENCODED := Store([Request(Encoded, 1, 1), Request(Serving, 0, 0)], 1, Snapshot(0), false, false)

  lemma FirstSave() returns (states: seq<Store>, events: seq<Event>)
    ensures UnlockedRun(states, events) && states[0] == Started(Snapshot(0), false) && states[|states| - 1] == ONE_ENCODED
  {
    var idle, disk := Request(Serving, 0, 0), Snapshot(0);
    events := [Arrive, Arrive, Mutate(0), Lock(0), Encode(0)];
    var mutated := Store([Request(Mutated, 1, 0), idle], 1, disk, false, false);
    states := [
      Started(disk, false),
      Store([idle], 0, disk, false, false),
      Store([idle, idle], 0, disk, false, false),
      mutated, Move(mutated, 0, Holding), ONE_ENCODED];
  }

  lemma SecondSave() returns (states: seq<Store>, events: seq<Event>)
    ensures UnlockedRun(states, events) && states[0] == ONE_ENCODED
    ensures states[|states| - 1] == Store([Request(Renamed, 1, 1), Request(Renamed, 2, 2)], 2, Snapshot(1), false, false)
  {
    events := [Mutate(1), Lock(1), Encode(1), Rename(1), Rename(0)];
    var disk := Snapshot(0);
    var mutated := Store([Request(Encoded, 1, 1), Request(Mutated, 2, 0)], 2, disk, false, false);
    var encoded := Store([Request(Encoded, 1, 1), Request(Encoded, 2, 2)], 2, disk, false, false);
    var newer := Move(encoded, 1, Renamed).(disk := Snapshot(2));
    states := [ONE_ENCODED, mutated, Move(mutated, 1, Holding), encoded, newer, Move(newer, 0, Renamed).(disk := Snapshot(1))];
  }

  /** Without saveMu two saves could leave the older state on disk with nothing failed and every save through. */
  lemma LockIsNeeded() returns (states: seq<Store>, events: seq<Event>)
    ensures UnlockedRun(states, events) && states[0] == Started(Snapshot(0), false)
    ensures var s := states[|states| - 1];
            !s.failed && Age(s.disk) < s.memory && |s.requests| == 2 && forall r | r in s.requests :: r.phase == Renamed
  {
    var first, before := FirstSave();
    var second, after := SecondSave();
    JoinRuns(first, before, second, after);
    states, events := first + second[1..], before + after;
  }
}
