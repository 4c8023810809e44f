/**
 The claim of a spawn in flight.  One task's spawns run one after another; any number of
 release calls for the task run beside them.  The pending marker and the per-task claim lock
 keep every release call away from a claim whose Job is not stored yet.
 */
module SpawnClaim {
  import opened Wrappers

  /** Where the task's spawn stands; claims are numbered as they are taken. */
  datatype Spawn =
    | Idle
    | Marked
    | Acquiring
    | Claimed(c: nat)
    | Refused
    | Spawning(c: nat)
    | Created(c: nat)
    | Failing(c: nat)
    | FailLocked(c: nat)
    | FailReleasing(todo: set<nat>)
    | Ending

  /** Where a release call stands. */
  datatype Release =
    | Waiting
    | Locked
    | Passed
    | Releasing(todo: set<nat>)

  datatype Holder = Free | Spawner | Releaser(id: nat)

  /** The task's pending marker, its claim lock, its held claims and those the lease loop has
      dropped on its own. */
  datatype State = State(
    pending: bool, lock: Holder, held: set<nat>, dropped: set<nat>, next: nat, spawn: Spawn, releases: map<nat, Release>)

  datatype Step =
    | Mark
    | LockForClaim
    | Acquire(ok: bool)
    | UnlockClaim
    | CreateJob(ok: bool)
    | StoreJob
    | LockForFailure
    | ClearForFailure
    | FailRelease(c: nat, landed: bool)
    | UnlockFailure
    | ClearPending
    | Call(id: nat)
    | LockForRelease(id: nat)
    | CheckPending(id: nat)
    | Snapshot(id: nat)
    | ReleaseOne(id: nat, c: nat, landed: bool)
    | UnlockRelease(id: nat)
    | LeaseLoop(c: nat)

  predicate At(st: State, id: nat, r: Release) { id in st.releases && st.releases[id] == r }

  predicate Enabled(st: State, s: Step) {
    match s
    case Mark => st.spawn.Idle?
    case LockForClaim => st.spawn.Marked? && st.lock.Free?
    case Acquire(_) => st.spawn.Acquiring?
    case UnlockClaim => st.spawn.Claimed? || st.spawn.Refused?
    case CreateJob(_) => st.spawn.Spawning?
    case StoreJob => st.spawn.Created?
    case LockForFailure => st.spawn.Failing? && st.lock.Free?
    case ClearForFailure => st.spawn.FailLocked?
    case FailRelease(c, _) => st.spawn.FailReleasing? && c in st.spawn.todo
    case UnlockFailure => st.spawn.FailReleasing?
    case ClearPending => st.spawn.Ending?
    case Call(id) => id !in st.releases
    case LockForRelease(id) => At(st, id, Waiting) && st.lock.Free?
    case CheckPending(id) => At(st, id, Locked)
    case Snapshot(id) => At(st, id, Passed)
    case ReleaseOne(id, c, _) => id in st.releases && st.releases[id].Releasing? && c in st.releases[id].todo
    case UnlockRelease(id) => id in st.releases && st.releases[id].Releasing?
    case LeaseLoop(c) => c in st.held
  }

  function Apply(st: State, s: Step): State
    requires Enabled(st, s)
  {
    match s
    case Mark => st.(pending := true, spawn := Marked)
    case LockForClaim => st.(lock := Spawner, spawn := Acquiring)
    case Acquire(ok) =>
      if ok then st.(held := st.held + {st.next}, next := st.next + 1, spawn := Claimed(st.next)) else st.(spawn := Refused)
    case UnlockClaim => st.(lock := Free, spawn := if st.spawn.Claimed? then Spawning(st.spawn.c) else Ending)
    case CreateJob(ok) => st.(spawn := if ok then Created(st.spawn.c) else Failing(st.spawn.c))
    case StoreJob => st.(spawn := Ending)
    case LockForFailure => st.(lock := Spawner, spawn := FailLocked(st.spawn.c))
    case ClearForFailure => st.(pending := false, spawn := FailReleasing(st.held))
    case FailRelease(c, landed) =>
      st.(spawn := FailReleasing(st.spawn.todo - {c}), held := if landed then st.held - {c} else st.held)
    case UnlockFailure => st.(lock := Free, spawn := Ending)
    case ClearPending => st.(pending := false, spawn := Idle)
    case Call(id) => st.(releases := st.releases[id := Waiting])
    case LockForRelease(id) => st.(lock := Releaser(id), releases := st.releases[id := Locked])
    case CheckPending(id) =>
      if st.pending then st.(lock := Free, releases := st.releases - {id}) else st.(releases := st.releases[id := Passed])
    case Snapshot(id) => st.(releases := st.releases[id := Releasing(st.held)])
    case ReleaseOne(id, c, landed) =>
      st.(releases := st.releases[id := Releasing(st.releases[id].todo - {c})], held := if landed then st.held - {c} else st.held)
    case UnlockRelease(id) => st.(lock := Free, releases := st.releases - {id})
    case LeaseLoop(c) => st.(held := st.held - {c}, dropped := st.dropped + {c})
  }

  ghost predicate IsRun(states: seq<State>, steps: seq<Step>) {
    && |states| == |steps| + 1
    && states[0].spawn.Idle? && !states[0].pending && states[0].lock.Free? && states[0].releases == map[]
    && (forall c :: c in states[0].held ==> c < states[0].next) && states[0].dropped == {}
    && forall i :: 0 <= i < |steps| ==> Enabled(states[i], steps[i]) && states[i + 1] == Apply(states[i], steps[i])
  }

  /** The claim a spawn has taken and not yet stored a Job for, up to its own failure path. */
  function InFlight(spawn: Spawn): Option<nat> {
    match spawn
    case Claimed(c) => Some(c)
    case Spawning(c) => Some(c)
    case Created(c) => Some(c)
    case Failing(c) => Some(c)
    case FailLocked(c) => Some(c)
    case _ => None
  }

  predicate SpawnHoldsLock(spawn: Spawn) {
    spawn.Acquiring? || spawn.Claimed? || spawn.Refused? || spawn.FailLocked? || spawn.FailReleasing?
  }

  /** The spawn is between its mark and the end of the window. */
  predicate MustBePending(spawn: Spawn) {
    spawn.Marked? || spawn.Acquiring? || spawn.Refused? || InFlight(spawn).Some?
  }

  ghost predicate Inv(st: State) {
    && (SpawnHoldsLock(st.spawn) <==> st.lock.Spawner?)
    && (forall id :: id in st.releases && !st.releases[id].Waiting? ==> st.lock == Releaser(id))
    && (MustBePending(st.spawn) ==> st.pending) && (st.spawn.FailReleasing? ==> !st.pending)
    && (forall c :: c in st.held || c in st.dropped ==> c < st.next) && st.held !! st.dropped
    && (InFlight(st.spawn).Some? ==>
          && (InFlight(st.spawn).value in st.held || InFlight(st.spawn).value in st.dropped)
          && forall id :: id in st.releases ==> st.releases[id].Waiting? || st.releases[id].Locked?)
  }

  lemma StepKeepsInv(st: State, s: Step)
    requires Inv(st) && Enabled(st, s)
    ensures Inv(Apply(st, s))
  {}

  lemma {:induction false} RunKeepsInv(states: seq<State>, steps: seq<Step>, i: nat)
    requires IsRun(states, steps) && i < |states|
    ensures Inv(states[i])
  {
    if i > 0 {
      RunKeepsInv(states, steps, i - 1);
      StepKeepsInv(states[i - 1], steps[i - 1]);
    }
  }

  /** A claim taken by a spawn is still held until its Job is stored or the spawn's own
      failure path begins, unless the lease loop itself dropped it. */
  lemma FreshClaimProtected(states: seq<State>, steps: seq<Step>, i: nat)
    requires IsRun(states, steps) && i < |states| && InFlight(states[i].spawn).Some?
    ensures var c := InFlight(states[i].spawn).value; c in states[i].held || c in states[i].dropped
  {
    RunKeepsInv(states, steps, i);
  }

  /** No release call ever deletes such a claim. */
  lemma NoReleaseInFlight(states: seq<State>, steps: seq<Step>, i: nat)
    requires IsRun(states, steps) && i < |steps| && steps[i].ReleaseOne?
    ensures InFlight(states[i].spawn) != Some(steps[i].c)
  {
    RunKeepsInv(states, steps, i);
  }

  /** A claim the lease loop dropped is never held again, and by the time a failed spawn lets
      its claims go, it is no longer pending. */
  lemma DroppedStaysDropped(states: seq<State>, steps: seq<Step>, i: nat)
    requires IsRun(states, steps) && i < |states|
    ensures states[i].held !! states[i].dropped && (states[i].spawn.FailReleasing? ==> !states[i].pending)
    ensures i < |steps| ==> states[i].dropped <= states[i + 1].dropped
    ensures i < |steps| && steps[i].LeaseLoop? ==> steps[i].c in states[i + 1].dropped
  {
    RunKeepsInv(states, steps, i);
  }

  // ---- what a call that nothing disturbs does ----

  /** The steps, taken one after another from st, are all enabled and end in `end`. */
  ghost predicate Reaches(st: State, steps: seq<Step>, end: State)
    decreases |steps|
  {
    if steps == [] then st == end else Enabled(st, steps[0]) && Reaches(Apply(st, steps[0]), steps[1..], end)
  }

  lemma OneMore(st: State, s: Step, rest: seq<Step>, end: State)
    requires Enabled(st, s) && Reaches(Apply(st, s), rest, end)
    ensures Reaches(st, [s] + rest, end)
  {
    assert ([s] + rest)[1..] == rest;
  }

  lemma {:induction false} ReleasesRun(st: State, id: nat) returns (steps: seq<Step>)
    requires id in st.releases && st.releases[id].Releasing?
    ensures Reaches(st, steps, st.(held := st.held - st.releases[id].todo, lock := Free, releases := st.releases - {id}))
    decreases if id in st.releases && st.releases[id].Releasing? then |st.releases[id].todo| else 0
  {
    var todo := st.releases[id].todo;
    var end := st.(held := st.held - todo, lock := Free, releases := st.releases - {id});
    if todo == {} {
      assert Apply(st, UnlockRelease(id)) == end && Reaches(end, [], end);
      OneMore(st, UnlockRelease(id), [], end);
      steps := [UnlockRelease(id)] + [];
    } else {
      var c :| c in todo;
      var next := Apply(st, ReleaseOne(id, c, true));
      var rest := ReleasesRun(next, id);
      assert next.(held := next.held - (todo - {c}), lock := Free, releases := next.releases - {id}) == end;
      OneMore(st, ReleaseOne(id, c, true), rest, end);
      steps := [ReleaseOne(id, c, true)] + rest;
    }
  }

  /** A new release call that finds the lock free does nothing while a spawn is pending, and
      otherwise releases every claim of the task. */
  lemma ReleaseRunsThrough(st: State, id: nat) returns (steps: seq<Step>)
    requires id !in st.releases && st.lock.Free?
    ensures Reaches(st, steps, st.(held := if st.pending then st.held else {}))
  {
    hide Reaches;
    var end := st.(held := if st.pending then st.held else {});
    var start := Apply(st, Call(id));
    var a := Apply(start, LockForRelease(id));
    var b := Apply(a, CheckPending(id));
    var rest: seq<Step>;
    if st.pending {
      assert b == end;
      Here(end);
      rest := [];
    } else {
      var c := Apply(b, Snapshot(id));
      var more := ReleasesRun(c, id);
      assert c.(held := c.held - c.releases[id].todo, lock := Free, releases := c.releases - {id}) == end;
      OneMore(b, Snapshot(id), more, end);
      rest := [Snapshot(id)] + more;
    }
    OneMore(a, CheckPending(id), rest, end);
    OneMore(start, LockForRelease(id), [CheckPending(id)] + rest, end);
    OneMore(st, Call(id), [LockForRelease(id)] + ([CheckPending(id)] + rest), end);
    steps := [Call(id)] + ([LockForRelease(id)] + ([CheckPending(id)] + rest));
  }

  lemma Here(st: State)
    ensures Reaches(st, [], st)
  {}

  lemma StoreRuns(st: State, end: State) returns (steps: seq<Step>)
    requires st.spawn.Created? && end == st.(spawn := Idle, pending := false)
    ensures Reaches(st, steps, end)
  {
    hide Reaches;
    var next := Apply(st, StoreJob);
    Here(end);
    OneMore(next, ClearPending, [], end);
    OneMore(st, StoreJob, [ClearPending] + [], end);
    steps := [StoreJob] + ([ClearPending] + []);
  }

  lemma {:induction false} FailReleasesRun(st: State, end: State) returns (steps: seq<Step>)
    requires st.spawn.FailReleasing? && end == st.(spawn := Idle, pending := false, lock := Free, held := st.held - st.spawn.todo)
    ensures Reaches(st, steps, end)
    decreases if st.spawn.FailReleasing? then |st.spawn.todo| else 0
  {
    hide Reaches;
    var todo := st.spawn.todo;
    if todo == {} {
      steps := FailUnlockRuns(st, end);
    } else {
      var c :| c in todo;
      var next := Apply(st, FailRelease(c, true));
      assert next == st.(spawn := FailReleasing(todo - {c}), held := st.held - {c});
      assert next.held - (todo - {c}) == st.held - todo;
      hide Apply;
      var rest := FailReleasesRun(next, end);
      OneMore(st, FailRelease(c, true), rest, end);
      steps := [FailRelease(c, true)] + rest;
    }
  }

  lemma FailUnlockRuns(st: State, end: State) returns (steps: seq<Step>)
    requires st.spawn.FailReleasing? && end == st.(spawn := Idle, pending := false, lock := Free)
    ensures Reaches(st, steps, end)
  {
    hide Reaches;
    var next := Apply(st, UnlockFailure);
    Here(end);
    OneMore(next, ClearPending, [], end);
    OneMore(st, UnlockFailure, [ClearPending] + [], end);
    steps := [UnlockFailure] + ([ClearPending] + []);
  }

  lemma FailureRuns(st: State, end: State) returns (steps: seq<Step>)
    requires st.spawn.Failing? && st.lock.Free? && end == st.(spawn := Idle, pending := false, held := {})
    ensures Reaches(st, steps, end)
  {
    hide Reaches;
    var a := Apply(st, LockForFailure);
    var b := Apply(a, ClearForFailure);
    var rest := FailReleasesRun(b, end);
    OneMore(a, ClearForFailure, rest, end);
    OneMore(st, LockForFailure, [ClearForFailure] + rest, end);
    steps := [LockForFailure] + ([ClearForFailure] + rest);
  }

  /** A spawn that finds the lock free takes one claim more and leaves it held with its Job
      stored; one whose Job cannot be created leaves the task without claims.  Either way the
      task is no longer pending. */
  lemma SpawnRunsThrough(st: State, created: bool) returns (steps: seq<Step>)
    requires st.spawn.Idle? && st.lock.Free?
    ensures Reaches(st, steps,
              st.(pending := false, held := if created then st.held + {st.next} else {}, next := st.next + 1))
  {
    hide Reaches;
    var end := st.(pending := false, held := if created then st.held + {st.next} else {}, next := st.next + 1);
    var a := Apply(st, Mark);
    var b := Apply(a, LockForClaim);
    var c := Apply(b, Acquire(true));
    var d := Apply(c, UnlockClaim);
    var e := Apply(d, CreateJob(created));
    var rest: seq<Step>;
    if created { rest := StoreRuns(e, end); } else { rest := FailureRuns(e, end); }
    OneMore(d, CreateJob(created), rest, end);
    rest := [CreateJob(created)] + rest;
    OneMore(c, UnlockClaim, rest, end);
    rest := [UnlockClaim] + rest;
    OneMore(b, Acquire(true), rest, end);
    rest := [Acquire(true)] + rest;
    OneMore(a, LockForClaim, rest, end);
    rest := [LockForClaim] + rest;
    OneMore(st, Mark, rest, end);
    steps := [Mark] + rest;
  }
}
