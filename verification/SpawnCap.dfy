/**
 The concurrency cap.  The consumer, the deferred loop and the reconcile passes check the
 active Jobs of an assignee and create one more under the assignee's lock; a pass answers
 the check from a cache stamped with the assignee's spawn generation.  Every interleaving of
 their steps, and of Jobs finishing, keeps the active Jobs within the cap.
 */
module SpawnCap {
  import opened Wrappers

  // ---- the effective cap ----

  /** What bounds an agent: its declared maximum (none when not positive) and the pod quota
      of its priority class, if one was read. */
  datatype Limits = Limits(max: int, quota: int, bounded: bool)

  datatype Cap = Cap(capacity: int, bounded: bool)

  function EffectiveCap(l: Limits): Cap {
    if !l.bounded then Cap(if l.max < 0 then 0 else l.max, false)
    else
      var quota := if l.quota < 0 then 0 else l.quota;
      if l.max <= 0 then Cap(quota, true) else Cap(if quota < l.max then quota else l.max, true)
  }

  /** Only an unbounded zero is uncapped; a bounded zero admits nothing. */
  predicate Admits(l: Limits, running: nat) {
    var c := EffectiveCap(l);
    (c.capacity <= 0 && !c.bounded) || running < c.capacity
  }

  /** The effective cap admits exactly what both bounds admit. */
  lemma AdmitsExactly(l: Limits, running: nat)
    ensures Admits(l, running) <==> (l.max > 0 ==> running < l.max) && (l.bounded ==> running < l.quota)
  {}

  predicate Within(l: Limits, running: nat) {
    (l.max > 0 ==> running <= l.max) && (l.bounded ==> running <= if l.quota < 0 then 0 else l.quota)
  }

  // ---- the step system ----

  type TaskId = string

  /** Jobs are counted per namespace and assignee; locks and generations are per assignee. */
  datatype Pool = Pool(namespace: string, assignee: string)

  datatype Entry = Entry(active: set<TaskId>, gen: nat)

  /** Where a spawn attempt stands.  It looks the active Jobs up twice: for its own task and
      for the cap. */
  datatype Stage =
    | Waiting
    | Asking(forCap: bool)
    | GenRead(forCap: bool, gen: nat)
    | Listed(forCap: bool, gen: nat, active: set<TaskId>)
    | Served(forCap: bool, active: set<TaskId>)
    | Admitted
    | Created

  datatype Attempt = Attempt(task: TaskId, pool: Pool, cache: Option<nat>, stage: Stage)

  datatype State = State(
    live: map<Pool, set<TaskId>>,
    gens: map<string, nat>,
    caches: map<nat, map<Pool, Entry>>,
    locks: map<string, nat>,
    attempts: map<nat, Attempt>)

  function Live(st: State, p: Pool): set<TaskId> { if p in st.live then st.live[p] else {} }

  function Gen(st: State, assignee: string): nat { if assignee in st.gens then st.gens[assignee] else 0 }

  datatype Step =
    | NewPass(pass: nat)
    | Begin(id: nat, task: TaskId, pool: Pool, cache: Option<nat>)
    | Lock(id: nat)
    | ReadGen(id: nat)
    | Hit(id: nat)
    | List(id: nat)
    | Memoize(id: nat)
    | GoOn(id: nat)
    | Leave(id: nat)
    | Create(id: nat)
    | Bump(id: nat)
    | Complete(pool: Pool, task: TaskId)

  predicate At(st: State, id: nat) { id in st.attempts }

  /** The attempt's pass has a usable entry: one read at the generation just read. */
  predicate HasEntry(st: State, a: Attempt) {
    && a.stage.GenRead? && a.cache.Some? && a.cache.value in st.caches && a.pool in st.caches[a.cache.value]
    && st.caches[a.cache.value][a.pool].gen == a.stage.gen
  }

  predicate Enabled(limits: Pool -> Limits, st: State, s: Step) {
    match s
    case NewPass(pass) => pass !in st.caches
    case Begin(id, task, pool, cache) => id !in st.attempts
    case Lock(id) => At(st, id) && st.attempts[id].stage.Waiting? && st.attempts[id].pool.assignee !in st.locks
    case ReadGen(id) => At(st, id) && st.attempts[id].stage.Asking?
    case Hit(id) => At(st, id) && HasEntry(st, st.attempts[id])
    case List(id) => At(st, id) && st.attempts[id].stage.GenRead?
    case Memoize(id) => At(st, id) && st.attempts[id].stage.Listed?
    case GoOn(id) =>
      At(st, id) && st.attempts[id].stage.Served? &&
      (if st.attempts[id].stage.forCap then Admits(limits(st.attempts[id].pool), |st.attempts[id].stage.active|)
       else st.attempts[id].task !in st.attempts[id].stage.active)
    case Leave(id) => At(st, id) && !st.attempts[id].stage.Waiting? && !st.attempts[id].stage.Created?
    case Create(id) => At(st, id) && st.attempts[id].stage.Admitted?
    case Bump(id) => At(st, id) && st.attempts[id].stage.Created?
    case Complete(pool, task) => true
  }

  function To(st: State, id: nat, stage: Stage): State
    requires At(st, id)
  {
    st.(attempts := st.attempts[id := st.attempts[id].(stage := stage)])
  }

  function Unlock(st: State, id: nat): State
    requires At(st, id)
  {
    st.(attempts := st.attempts - {id}, locks := st.locks - {st.attempts[id].pool.assignee})
  }

  function Apply(limits: Pool -> Limits, st: State, s: Step): State
    requires Enabled(limits, st, s)
  {
    match s
    case NewPass(pass) => st.(caches := st.caches[pass := map[]])
    case Begin(id, task, pool, cache) => st.(attempts := st.attempts[id := Attempt(task, pool, cache, Waiting)])
    case Lock(id) => To(st, id, Asking(false)).(locks := st.locks[st.attempts[id].pool.assignee := id])
    case ReadGen(id) =>
      To(st, id, GenRead(st.attempts[id].stage.forCap, Gen(st, st.attempts[id].pool.assignee)))
    case Hit(id) =>
      var a := st.attempts[id];
      To(st, id, Served(a.stage.forCap, st.caches[a.cache.value][a.pool].active))
    case List(id) =>
      var a := st.attempts[id];
      To(st, id, Listed(a.stage.forCap, a.stage.gen, Live(st, a.pool)))
    case Memoize(id) =>
      var a := st.attempts[id];
      var next := To(st, id, Served(a.stage.forCap, a.stage.active));
      if a.cache.None? || a.cache.value !in st.caches then next
      else next.(caches := st.caches[a.cache.value := st.caches[a.cache.value][a.pool := Entry(a.stage.active, a.stage.gen)]])
    case GoOn(id) => To(st, id, if st.attempts[id].stage.forCap then Admitted else Asking(true))
    case Leave(id) => Unlock(st, id)
    case Create(id) =>
      var a := st.attempts[id];
      To(st, id, Created).(live := st.live[a.pool := Live(st, a.pool) + {a.task}])
    case Bump(id) =>
      var assignee := st.attempts[id].pool.assignee;
      Unlock(st, id).(gens := st.gens[assignee := Gen(st, assignee) + 1])
    case Complete(pool, task) => st.(live := st.live[pool := Live(st, pool) - {task}])
  }

  ghost predicate IsRun(limits: Pool -> Limits, states: seq<State>, steps: seq<Step>) {
    && |states| == |steps| + 1
    && states[0].caches == map[] && states[0].locks == map[] && states[0].attempts == map[]
    && (forall p :: Within(limits(p), |Live(states[0], p)|))
    && forall i :: 0 <= i < |steps| ==>
      Enabled(limits, states[i], steps[i]) && states[i + 1] == Apply(limits, states[i], steps[i])
  }

  // ---- the invariant ----

  /** An attempt past waiting holds its assignee's lock. */
  predicate Holds(st: State, id: nat) {
    At(st, id) && !st.attempts[id].stage.Waiting? ==>
      st.attempts[id].pool.assignee in st.locks && st.locks[st.attempts[id].pool.assignee] == id
  }

  /** A lock is held by an attempt of its assignee. */
  predicate Held(st: State, assignee: string) {
    assignee in st.locks ==>
      var id := st.locks[assignee];
      At(st, id) && st.attempts[id].pool.assignee == assignee && !st.attempts[id].stage.Waiting?
  }

  /** A Job has been created for the assignee and its generation not yet bumped. */
  predicate InFlight(st: State, assignee: string) {
    assignee in st.locks && At(st, st.locks[assignee]) && st.attempts[st.locks[assignee]].stage.Created?
  }

  /** The attempt has seen that its own task has no active Job. */
  predicate Checked(stage: Stage) {
    match stage
    case Asking(forCap) => forCap
    case GenRead(forCap, _) => forCap
    case Listed(forCap, _, _) => forCap
    case Served(forCap, _) => forCap
    case Admitted => true
    case _ => false
  }

  predicate AttemptOk(limits: Pool -> Limits, st: State, a: Attempt) {
    (Checked(a.stage) ==> a.task !in Live(st, a.pool)) &&
    match a.stage
    case GenRead(_, gen) => gen == Gen(st, a.pool.assignee)
    case Listed(_, gen, active) => gen == Gen(st, a.pool.assignee) && Live(st, a.pool) <= active
    case Served(_, active) => Live(st, a.pool) <= active
    case Admitted => Admits(limits(a.pool), |Live(st, a.pool)|)
    case _ => true
  }

  /** An entry of the current generation still covers every active Job. */
  predicate EntryOk(st: State, p: Pool, e: Entry) {
    && e.gen <= Gen(st, p.assignee)
    && (e.gen == Gen(st, p.assignee) && !InFlight(st, p.assignee) ==> Live(st, p) <= e.active)
  }

  ghost predicate Inv(limits: Pool -> Limits, st: State) {
    && (forall id :: id in st.attempts ==> Holds(st, id) && AttemptOk(limits, st, st.attempts[id]))
    && (forall assignee :: assignee in st.locks ==> Held(st, assignee))
    && (forall c, p :: c in st.caches && p in st.caches[c] ==> EntryOk(st, p, st.caches[c][p]))
    && (forall p :: Within(limits(p), |Live(st, p)|))
  }

  lemma Smaller(limits: Limits, a: set<TaskId>, b: set<TaskId>)
    requires a <= b
    ensures |a| <= |b| && (Admits(limits, |b|) ==> Admits(limits, |a|)) && (Within(limits, |b|) ==> Within(limits, |a|))
  {
    Subset(a, b);
  }

  lemma {:induction false} Subset(a: set<TaskId>, b: set<TaskId>)
    requires a <= b
    ensures |a| <= |b|
  {
    if a != {} {
      var x :| x in a;
      Subset(a - {x}, b - {x});
    }
  }

  /** Where a spawn adds one Job. */
  lemma OneMore(limits: Limits, a: set<TaskId>, x: TaskId)
    requires Admits(limits, |a|)
    ensures Within(limits, |a + {x}|)
  {
    AdmitsExactly(limits, |a|);
  }

  /** Two attempts past waiting are never of one assignee. */
  lemma OneHolder(st: State, i: nat, j: nat)
    requires Holds(st, i) && Holds(st, j) && At(st, i) && At(st, j) && i != j
    requires !st.attempts[i].stage.Waiting? && !st.attempts[j].stage.Waiting?
    ensures st.attempts[i].pool.assignee != st.attempts[j].pool.assignee
  {}

  /** What an attempt knows survives Jobs finishing. */
  lemma StaysOk(limits: Pool -> Limits, st: State, next: State, a: Attempt)
    requires AttemptOk(limits, st, a)
    requires a.stage.Waiting? || (Live(next, a.pool) <= Live(st, a.pool) && Gen(next, a.pool.assignee) == Gen(st, a.pool.assignee))
    ensures AttemptOk(limits, next, a)
  {
    hide Admits;
    if !a.stage.Waiting? { Smaller(limits(a.pool), Live(next, a.pool), Live(st, a.pool)); }
  }

  /** The attempt a step is about, if any. */
  function Actor(s: Step): Option<nat> {
    match s
    case NewPass(_) => None
    case Complete(_, _) => None
    case Begin(id, _, _, _) => Some(id)
    case _ => Some(s.id)
  }

  /** Only a creation adds a Job, to its own pool, and only a bump changes a generation. */
  lemma Effect(limits: Pool -> Limits, st: State, s: Step, p: Pool)
    requires Enabled(limits, st, s)
    ensures var next := Apply(limits, st, s);
            && ((s.Create? && st.attempts[s.id].pool == p) || Live(next, p) <= Live(st, p))
            && ((s.Bump? && st.attempts[s.id].pool.assignee == p.assignee) || Gen(next, p.assignee) == Gen(st, p.assignee))
  {
    hide Admits, HasEntry;
  }

  lemma OthersUnchanged(limits: Pool -> Limits, st: State, s: Step, id: nat)
    requires Enabled(limits, st, s) && id in st.attempts && Actor(s) != Some(id)
    ensures var next := Apply(limits, st, s); id in next.attempts && next.attempts[id] == st.attempts[id]
  {
    hide Admits, HasEntry;
  }

  lemma OthersStayOk(limits: Pool -> Limits, st: State, s: Step, id: nat)
    requires Inv(limits, st) && Enabled(limits, st, s) && id in st.attempts && Actor(s) != Some(id)
    ensures var next := Apply(limits, st, s);
            id in next.attempts && next.attempts[id] == st.attempts[id] && AttemptOk(limits, next, st.attempts[id])
  {
    hide Within, Admits, AttemptOk, HasEntry, Apply, Held, EntryOk;
    OthersUnchanged(limits, st, s, id);
    var a := st.attempts[id];
    assert Holds(st, id) && AttemptOk(limits, st, a);
    Effect(limits, st, s, a.pool);
    if (s.Create? || s.Bump?) && !a.stage.Waiting? {
      assert Holds(st, s.id);
      OneHolder(st, id, s.id);
    }
    StaysOk(limits, st, Apply(limits, st, s), a);
  }

  lemma OthersStillHold(limits: Pool -> Limits, st: State, s: Step, id: nat)
    requires Inv(limits, st) && Enabled(limits, st, s) && id in st.attempts && Actor(s) != Some(id)
    ensures Holds(Apply(limits, st, s), id)
  {
    hide Within, Admits, AttemptOk, HasEntry;
    assert Holds(st, id);
    if (s.Leave? || s.Bump?) && !st.attempts[id].stage.Waiting? {
      assert Holds(st, s.id);
      OneHolder(st, id, s.id);
    }
  }

  lemma ActorHolds(limits: Pool -> Limits, st: State, s: Step)
    requires Inv(limits, st) && Enabled(limits, st, s) && Actor(s).Some? && Actor(s).value in Apply(limits, st, s).attempts
    ensures Holds(Apply(limits, st, s), Actor(s).value)
  {
    hide Within, Admits, AttemptOk, EntryOk;
    if !s.Begin? { assert Holds(st, s.id); }
  }

  lemma HitIsOk(limits: Pool -> Limits, st: State, s: Step)
    requires Inv(limits, st) && Enabled(limits, st, s) && s.Hit?
    ensures var next := Apply(limits, st, s); AttemptOk(limits, next, next.attempts[s.id])
  {
    hide Within, Admits, Held;
    var a := st.attempts[s.id];
    assert Holds(st, s.id) && AttemptOk(limits, st, a);
    assert EntryOk(st, a.pool, st.caches[a.cache.value][a.pool]);
  }

  lemma GoOnIsOk(limits: Pool -> Limits, st: State, s: Step)
    requires Inv(limits, st) && Enabled(limits, st, s) && s.GoOn?
    ensures var next := Apply(limits, st, s); AttemptOk(limits, next, next.attempts[s.id])
  {
    hide Within, Admits, Held, EntryOk, HasEntry;
    var a := st.attempts[s.id];
    assert AttemptOk(limits, st, a);
    Smaller(limits(a.pool), Live(st, a.pool), a.stage.active);
  }

  /** The other steps only read, list or create. */
  lemma PlainActorIsOk(limits: Pool -> Limits, st: State, s: Step)
    requires Enabled(limits, st, s) && Actor(s).Some? && Actor(s).value in Apply(limits, st, s).attempts
    requires !s.Hit? && !s.GoOn? && (!s.Begin? ==> AttemptOk(limits, st, st.attempts[s.id]))
    ensures var id, next := Actor(s).value, Apply(limits, st, s); AttemptOk(limits, next, next.attempts[id])
  {
    hide Admits, HasEntry;
    match s
    case Begin(id, task, pool, cache) =>
    case Lock(id) =>
    case ReadGen(id) =>
    case List(id) =>
    case Memoize(id) =>
    case Leave(id) =>
    case Create(id) =>
    case Bump(id) =>
  }

  lemma ActorIsOk(limits: Pool -> Limits, st: State, s: Step)
    requires Inv(limits, st) && Enabled(limits, st, s) && Actor(s).Some? && Actor(s).value in Apply(limits, st, s).attempts
    ensures var id, next := Actor(s).value, Apply(limits, st, s); AttemptOk(limits, next, next.attempts[id])
  {
    hide Apply, Within, Admits, Held, Holds, AttemptOk, EntryOk, HasEntry;
    if s.Hit? {
      HitIsOk(limits, st, s);
    } else if s.GoOn? {
      GoOnIsOk(limits, st, s);
    } else {
      PlainActorIsOk(limits, st, s);
    }
  }

  /** A created Job stays in flight until its generation is bumped. */
  lemma InFlightKept(limits: Pool -> Limits, st: State, s: Step, assignee: string)
    requires Inv(limits, st) && Enabled(limits, st, s)
    ensures InFlight(st, assignee) && !(s.Bump? && st.attempts[s.id].pool.assignee == assignee) ==>
              InFlight(Apply(limits, st, s), assignee)
    ensures s.Create? && st.attempts[s.id].pool.assignee == assignee ==> InFlight(Apply(limits, st, s), assignee)
  {
    assert assignee in st.locks ==> Held(st, assignee);
    if Actor(s).Some? && !s.Begin? { assert Holds(st, s.id); }
    FlightKept(limits, st, s, assignee);
  }

  lemma FlightKept(limits: Pool -> Limits, st: State, s: Step, assignee: string)
    requires Enabled(limits, st, s) && (assignee in st.locks ==> Held(st, assignee))
    requires Actor(s).Some? && !s.Begin? ==> Holds(st, s.id)
    ensures InFlight(st, assignee) && !(s.Bump? && st.attempts[s.id].pool.assignee == assignee) ==>
              InFlight(Apply(limits, st, s), assignee)
    ensures s.Create? && st.attempts[s.id].pool.assignee == assignee ==> InFlight(Apply(limits, st, s), assignee)
  {
    hide Admits;
  }

  /** The entries after a step are the old ones and the one an attempt has just listed. */
  lemma EntriesFrom(limits: Pool -> Limits, st: State, s: Step, c: nat, p: Pool)
    requires Inv(limits, st) && Enabled(limits, st, s)
    requires var next := Apply(limits, st, s); c in next.caches && p in next.caches[c]
    ensures var e := Apply(limits, st, s).caches[c][p];
            || (c in st.caches && p in st.caches[c] && st.caches[c][p] == e)
            || (s.Memoize? && p == st.attempts[s.id].pool && e.gen == Gen(st, p.assignee) && Live(st, p) <= e.active)
  {
    hide Within, Admits, HasEntry, EntryOk;
    if s.Memoize? { assert AttemptOk(limits, st, st.attempts[s.id]); }
  }

  lemma EntriesStayOk(limits: Pool -> Limits, st: State, s: Step, c: nat, p: Pool)
    requires Inv(limits, st) && Enabled(limits, st, s)
    requires var next := Apply(limits, st, s); c in next.caches && p in next.caches[c]
    ensures var next := Apply(limits, st, s); EntryOk(next, p, next.caches[c][p])
  {
    EntriesFrom(limits, st, s, c, p);
    Effect(limits, st, s, p);
    InFlightKept(limits, st, s, p.assignee);
    if s.Bump? { BumpGen(limits, st, s); }
    if c in st.caches && p in st.caches[c] { assert EntryOk(st, p, st.caches[c][p]); }
    hide Within, Admits, HasEntry, Holds, Held, AttemptOk, Apply, Enabled, InFlight, Live, Gen;
  }

  lemma BumpGen(limits: Pool -> Limits, st: State, s: Step)
    requires Enabled(limits, st, s) && s.Bump?
    ensures var a := st.attempts[s.id].pool.assignee; Gen(Apply(limits, st, s), a) == Gen(st, a) + 1
  {}

  lemma LocksStayHeld(limits: Pool -> Limits, st: State, s: Step, assignee: string)
    requires Inv(limits, st) && Enabled(limits, st, s) && assignee in Apply(limits, st, s).locks
    ensures Held(Apply(limits, st, s), assignee)
  {
    assert assignee in st.locks ==> Held(st, assignee);
    if Actor(s).Some? && !s.Begin? { assert Holds(st, s.id); }
    LockKept(limits, st, s, assignee);
  }

  lemma LockKept(limits: Pool -> Limits, st: State, s: Step, assignee: string)
    requires Enabled(limits, st, s) && assignee in Apply(limits, st, s).locks
    requires assignee in st.locks ==> Held(st, assignee)
    requires Actor(s).Some? && !s.Begin? ==> Holds(st, s.id)
    ensures Held(Apply(limits, st, s), assignee)
  {
    hide Admits;
  }

  lemma LiveStaysWithin(limits: Pool -> Limits, st: State, s: Step, p: Pool)
    requires Inv(limits, st) && Enabled(limits, st, s)
    ensures Within(limits(p), |Live(Apply(limits, st, s), p)|)
  {
    hide Within, Admits, HasEntry, Holds;
    assert Within(limits(p), |Live(st, p)|);
    if s.Create? {
      var a := st.attempts[s.id];
      assert AttemptOk(limits, st, a);
      OneMore(limits(a.pool), Live(st, a.pool), a.task);
    } else if s.Complete? {
      Smaller(limits(p), Live(Apply(limits, st, s), p), Live(st, p));
    }
  }

  lemma StepKeepsInv(limits: Pool -> Limits, st: State, s: Step)
    requires Inv(limits, st) && Enabled(limits, st, s)
    ensures Inv(limits, Apply(limits, st, s))
  {
    hide Enabled, Apply, Within, Admits, Holds, Held, AttemptOk, EntryOk;
    var next := Apply(limits, st, s);
    forall id | id in next.attempts ensures Holds(next, id) && AttemptOk(limits, next, next.attempts[id]) {
      if Actor(s) == Some(id) {
        ActorHolds(limits, st, s);
        ActorIsOk(limits, st, s);
      } else {
        NoOneElseAppears(limits, st, s, id);
        OthersStayOk(limits, st, s, id);
        OthersStillHold(limits, st, s, id);
      }
    }
    forall c, p | c in next.caches && p in next.caches[c] ensures EntryOk(next, p, next.caches[c][p]) {
      EntriesStayOk(limits, st, s, c, p);
    }
    forall assignee | assignee in next.locks ensures Held(next, assignee) { LocksStayHeld(limits, st, s, assignee); }
    forall p ensures Within(limits(p), |Live(next, p)|) { LiveStaysWithin(limits, st, s, p); }
  }

  lemma NoOneElseAppears(limits: Pool -> Limits, st: State, s: Step, id: nat)
    requires Enabled(limits, st, s) && id in Apply(limits, st, s).attempts && Actor(s) != Some(id)
    ensures id in st.attempts
  {}

  lemma {:induction false} RunKeepsInv(limits: Pool -> Limits, states: seq<State>, steps: seq<Step>, i: nat)
    requires IsRun(limits, states, steps) && i < |states|
    ensures Inv(limits, states[i])
  {
    hide Within;
    if i > 0 {
      RunKeepsInv(limits, states, steps, i - 1);
      StepKeepsInv(limits, states[i - 1], steps[i - 1]);
    }
  }

  // ---- the theorems ----

  /** In every run, at every point, the active Jobs of an assignee in a namespace are
      within its declared maximum and its quota. */
  lemma CapHolds(limits: Pool -> Limits, states: seq<State>, steps: seq<Step>, i: nat, p: Pool)
    requires IsRun(limits, states, steps) && i < |states|
    ensures var n, l := |Live(states[i], p)|, limits(p);
            (l.max > 0 ==> n <= l.max) && (l.bounded ==> n <= if l.quota < 0 then 0 else l.quota)
  {
    RunKeepsInv(limits, states, steps, i);
    assert Within(limits(p), |Live(states[i], p)|);
  }

  /** Whatever a lookup is answered with, live or from the pass's cache, covers every
      active Job. */
  lemma ServedIsSuperset(limits: Pool -> Limits, states: seq<State>, steps: seq<Step>, i: nat, id: nat)
    requires IsRun(limits, states, steps) && i < |states| && id in states[i].attempts && states[i].attempts[id].stage.Served?
    ensures Live(states[i], states[i].attempts[id].pool) <= states[i].attempts[id].stage.active
  {
    RunKeepsInv(limits, states, steps, i);
    assert AttemptOk(limits, states[i], states[i].attempts[id]);
  }

  /** A Job is only ever created for a task that has none active. */
  lemma NoDoubleSpawn(limits: Pool -> Limits, states: seq<State>, steps: seq<Step>, i: nat)
    requires IsRun(limits, states, steps) && i < |steps| && steps[i].Create?
    ensures var a := states[i].attempts[steps[i].id]; a.task !in Live(states[i], a.pool)
  {
    RunKeepsInv(limits, states, steps, i);
    assert AttemptOk(limits, states[i], states[i].attempts[steps[i].id]);
  }

  /** An answered attempt goes on exactly when its task is not among the active Jobs it was
      shown and, for the cap, they are fewer than the declared maximum and the quota. */
  lemma GoOnExactly(limits: Pool -> Limits, st: State, id: nat)
    requires id in st.attempts && st.attempts[id].stage.Served?
    ensures var a := st.attempts[id]; var l, n := limits(a.pool), |a.stage.active|;
            Enabled(limits, st, GoOn(id)) <==>
              if a.stage.forCap then (l.max > 0 ==> n < l.max) && (l.bounded ==> n < l.quota) else a.task !in a.stage.active
  {
    AdmitsExactly(limits(st.attempts[id].pool), |st.attempts[id].stage.active|);
    hide Admits;
  }

  // ---- answers are never invented ----

  /** The set was the pool's active Jobs at some point of the run up to i. */
  ghost predicate WasLive(states: seq<State>, i: nat, p: Pool, active: set<TaskId>) {
    exists j :: 0 <= j <= i < |states| && Live(states[j], p) == active
  }

  /** What the attempts and the caches say was true at some point up to i. */
  ghost predicate SaysWhatWas(states: seq<State>, i: nat) {
    && i < |states|
    && (forall id :: id in states[i].attempts ==>
          var a := states[i].attempts[id];
          a.stage.Listed? || a.stage.Served? ==> WasLive(states, i, a.pool, a.stage.active))
    && (forall c, p :: c in states[i].caches && p in states[i].caches[c] ==>
          WasLive(states, i, p, states[i].caches[c][p].active))
  }

  lemma StillWasLive(states: seq<State>, i: nat, p: Pool, active: set<TaskId>)
    requires i > 0 && i < |states| && WasLive(states, i - 1, p, active)
    ensures WasLive(states, i, p, active)
  {}

  lemma AttemptSaysWhatWas(limits: Pool -> Limits, states: seq<State>, steps: seq<Step>, i: nat, id: nat)
    requires IsRun(limits, states, steps) && 0 < i < |states| && SaysWhatWas(states, i - 1) && id in states[i].attempts
    requires states[i].attempts[id].stage.Listed? || states[i].attempts[id].stage.Served?
    ensures WasLive(states, i, states[i].attempts[id].pool, states[i].attempts[id].stage.active)
  {
    hide Within, Admits, WasLive, Apply, Enabled, HasEntry;
    var st, s, a := states[i - 1], steps[i - 1], states[i].attempts[id];
    assert states[i] == Apply(limits, st, s) && Enabled(limits, st, s);
    AnswerOrigin(limits, st, s, id);
    if a.stage.active == Live(st, a.pool) {
      WasLiveThen(states, i, a.pool, i - 1);
    } else {
      StillWasLive(states, i, a.pool, a.stage.active);
    }
  }

  predicate Answered(stage: Stage) { stage.Listed? || stage.Served? }

  /** What an attempt has been shown, it was shown before, or is live now, or is cached. */
  lemma AnswerOrigin(limits: Pool -> Limits, st: State, s: Step, id: nat)
    requires Enabled(limits, st, s) && id in Apply(limits, st, s).attempts && Answered(Apply(limits, st, s).attempts[id].stage)
    ensures var a := Apply(limits, st, s).attempts[id];
            || a.stage.active == Live(st, a.pool)
            || (&& id in st.attempts && st.attempts[id].pool == a.pool && Answered(st.attempts[id].stage)
                && st.attempts[id].stage.active == a.stage.active)
            || (exists c :: c in st.caches && a.pool in st.caches[c] && st.caches[c][a.pool].active == a.stage.active)
  {
    if s.Hit? && s.id == id {
      HitShowsEntry(limits, st, s);
    } else {
      hide Admits, HasEntry, Live, Gen;
      AnswerKept(limits, st, s, id);
    }
  }

  lemma HitShowsEntry(limits: Pool -> Limits, st: State, s: Step)
    requires Enabled(limits, st, s) && s.Hit?
    ensures var a := st.attempts[s.id]; var c := a.cache.value;
            && c in st.caches && a.pool in st.caches[c]
            && Apply(limits, st, s).attempts[s.id] == a.(stage := Served(a.stage.forCap, st.caches[c][a.pool].active))
  {}

  lemma AnswerKept(limits: Pool -> Limits, st: State, s: Step, id: nat)
    requires Enabled(limits, st, s) && id in Apply(limits, st, s).attempts && Answered(Apply(limits, st, s).attempts[id].stage)
    requires !(s.Hit? && s.id == id)
    ensures var a := Apply(limits, st, s).attempts[id];
            || a.stage.active == Live(st, a.pool)
            || (&& id in st.attempts && st.attempts[id].pool == a.pool && Answered(st.attempts[id].stage)
                && st.attempts[id].stage.active == a.stage.active)
  {
    hide Admits, HasEntry, Live, Gen;
    if Actor(s) != Some(id) {
      NoOneElseAppears(limits, st, s, id);
      OthersUnchanged(limits, st, s, id);
    }
  }

  lemma WasLiveThen(states: seq<State>, i: nat, p: Pool, j: nat)
    requires j <= i < |states|
    ensures WasLive(states, i, p, Live(states[j], p))
  {}

  lemma EntrySaysWhatWas(limits: Pool -> Limits, states: seq<State>, steps: seq<Step>, i: nat, c: nat, p: Pool)
    requires IsRun(limits, states, steps) && 0 < i < |states| && SaysWhatWas(states, i - 1)
    requires c in states[i].caches && p in states[i].caches[c]
    ensures WasLive(states, i, p, states[i].caches[c][p].active)
  {
    hide Within, Admits, WasLive, HasEntry, Apply, Enabled;
    var st, s := states[i - 1], steps[i - 1];
    assert states[i] == Apply(limits, st, s);
    EntryOrigin(limits, st, s, c, p);
    StillWasLive(states, i, p, states[i].caches[c][p].active);
  }

  /** A cached set was cached before, or is what an attempt of the pool has just listed. */
  lemma EntryOrigin(limits: Pool -> Limits, st: State, s: Step, c: nat, p: Pool)
    requires Enabled(limits, st, s) && c in Apply(limits, st, s).caches && p in Apply(limits, st, s).caches[c]
    ensures var active := Apply(limits, st, s).caches[c][p].active;
            || (c in st.caches && p in st.caches[c] && st.caches[c][p].active == active)
            || (s.Memoize? && s.id in st.attempts && st.attempts[s.id].stage.Listed? && st.attempts[s.id].pool == p
                && st.attempts[s.id].stage.active == active)
  {
    hide Admits, HasEntry;
  }

  /** Whatever a lookup is answered with, live or from a cache, was the set of active Jobs at
      some point of the run. */
  lemma {:induction false} ServedWasLive(limits: Pool -> Limits, states: seq<State>, steps: seq<Step>, i: nat)
    requires IsRun(limits, states, steps) && i < |states|
    ensures SaysWhatWas(states, i)
  {
    hide WasLive, Within;
    if i > 0 {
      ServedWasLive(limits, states, steps, i - 1);
      forall id | id in states[i].attempts && (states[i].attempts[id].stage.Listed? || states[i].attempts[id].stage.Served?)
        ensures WasLive(states, i, states[i].attempts[id].pool, states[i].attempts[id].stage.active)
      {
        AttemptSaysWhatWas(limits, states, steps, i, id);
      }
      forall c, p | c in states[i].caches && p in states[i].caches[c]
        ensures WasLive(states, i, p, states[i].caches[c][p].active)
      {
        EntrySaysWhatWas(limits, states, steps, i, c, p);
      }
    }
  }

  /** A pass and an attempt may begin at any time, a Job may finish at any time, and an attempt
      that has not created its Job may give up and free the lock. */
  lemma AlwaysPossible(limits: Pool -> Limits, st: State, pass: nat, id: nat, task: TaskId, pool: Pool, cache: Option<nat>)
    ensures pass !in st.caches ==>
              Enabled(limits, st, NewPass(pass)) && Apply(limits, st, NewPass(pass)).caches == st.caches[pass := map[]]
    ensures id !in st.attempts ==>
              && Enabled(limits, st, Begin(id, task, pool, cache))
              && Apply(limits, st, Begin(id, task, pool, cache)).attempts == st.attempts[id := Attempt(task, pool, cache, Waiting)]
    ensures && Enabled(limits, st, Complete(pool, task))
            && Live(Apply(limits, st, Complete(pool, task)), pool) == Live(st, pool) - {task}
    ensures id in st.attempts && !st.attempts[id].stage.Waiting? && !st.attempts[id].stage.Created? ==>
              && Enabled(limits, st, Leave(id)) && id !in Apply(limits, st, Leave(id)).attempts
              && st.attempts[id].pool.assignee !in Apply(limits, st, Leave(id)).locks
  {}

  // ---- a free slot is used ----

  /** The steps, taken one after another from st, are all enabled and end in `end`. */
  ghost predicate Reaches(limits: Pool -> Limits, st: State, steps: seq<Step>, end: State)
    decreases |steps|
  {
    if steps == [] then st == end else Enabled(limits, st, steps[0]) && Reaches(limits, Apply(limits, st, steps[0]), steps[1..], end)
  }

  lemma {:induction false} ReachesOn(limits: Pool -> Limits, st: State, a: seq<Step>, mid: State, b: seq<Step>, end: State)
    requires Reaches(limits, st, a, mid) && Reaches(limits, mid, b, end)
    ensures Reaches(limits, st, a + b, end)
    decreases |a|
  {
    hide Enabled, Apply;
    if a == [] {
      assert a + b == b;
    } else {
      ReachesOn(limits, Apply(limits, st, a[0]), a[1..], mid, b, end);
      assert (a + b)[1..] == a[1..] + b;
    }
  }

  /** Two states that differ in their caches only. */
  predicate SameButCaches(a: State, b: State) { b == a.(caches := b.caches) }

  /** A lookup past the cache is answered with the active Jobs. */
  lemma LookupRuns(limits: Pool -> Limits, st: State, id: nat) returns (steps: seq<Step>, end: State)
    requires id in st.attempts && st.attempts[id].stage.Asking?
    ensures Reaches(limits, st, steps, end)
    ensures SameButCaches(To(st, id, Served(st.attempts[id].stage.forCap, Live(st, st.attempts[id].pool))), end)
    ensures var a := st.attempts[id];
            end.caches == if a.cache.None? || a.cache.value !in st.caches then st.caches
                          else st.caches[a.cache.value := st.caches[a.cache.value][a.pool :=
                                 Entry(Live(st, a.pool), Gen(st, a.pool.assignee))]]
  {
    hide Admits, HasEntry, Reaches;
    var a := Apply(limits, st, ReadGen(id));
    var b := Apply(limits, a, List(id));
    end := Apply(limits, b, Memoize(id));
    steps := [ReadGen(id), List(id), Memoize(id)];
    ThreeReach(limits, st, steps, a, b, end);
    hide Enabled;
    assert SameButCaches(To(b, id, Served(st.attempts[id].stage.forCap, Live(st, st.attempts[id].pool))), end);
  }

  /** A lookup whose pass has an entry of the assignee's present generation can be answered
      from it. */
  lemma CacheIsUsed(limits: Pool -> Limits, st: State, id: nat) returns (end: State)
    requires id in st.attempts && st.attempts[id].stage.Asking? && st.attempts[id].cache.Some?
    requires var a := st.attempts[id]; a.cache.value in st.caches && a.pool in st.caches[a.cache.value]
    requires var a := st.attempts[id]; st.caches[a.cache.value][a.pool].gen == Gen(st, a.pool.assignee)
    ensures Reaches(limits, st, [ReadGen(id)] + [Hit(id)], end)
    ensures var a := st.attempts[id];
            end == To(st, id, Served(a.stage.forCap, st.caches[a.cache.value][a.pool].active))
  {
    hide Admits, Reaches;
    var mid := Apply(limits, st, ReadGen(id));
    OneReach(limits, st, ReadGen(id));
    OneReach(limits, mid, Hit(id));
    end := Apply(limits, mid, Hit(id));
    ReachesOn(limits, st, [ReadGen(id)], mid, [Hit(id)], end);
  }

  lemma ThreeReach(limits: Pool -> Limits, st: State, steps: seq<Step>, a: State, b: State, end: State)
    requires |steps| == 3 && Enabled(limits, st, steps[0]) && a == Apply(limits, st, steps[0])
    requires Enabled(limits, a, steps[1]) && b == Apply(limits, a, steps[1])
    requires Enabled(limits, b, steps[2]) && end == Apply(limits, b, steps[2])
    ensures Reaches(limits, st, steps, end)
  {
    hide Enabled, Apply;
    assert steps[1..][0] == steps[1] && steps[1..][1..] == [steps[2]];
    assert Reaches(limits, end, [], end);
    assert [steps[2]][1..] == [];
    assert Reaches(limits, b, [steps[2]], end);
    assert Reaches(limits, a, steps[1..], end);
  }

  lemma OneReach(limits: Pool -> Limits, st: State, s: Step)
    requires Enabled(limits, st, s)
    ensures Reaches(limits, st, [s], Apply(limits, st, s))
  {
    hide Enabled, Apply;
    var end := Apply(limits, st, s);
    assert Reaches(limits, end, [], end);
    assert [s][1..] == [];
  }

  /** A lookup that may go on does. */
  lemma CheckRuns(limits: Pool -> Limits, st: State, id: nat) returns (steps: seq<Step>, end: State)
    requires id in st.attempts && st.attempts[id].stage.Asking? && HasRoom(limits, st, id)
    ensures Reaches(limits, st, steps, end)
    ensures SameButCaches(To(st, id, if st.attempts[id].stage.forCap then Admitted else Asking(true)), end)
  {
    hide Admits, Reaches;
    var mid;
    steps, mid := LookupRuns(limits, st, id);
    GoOnExactly(limits, mid, id);
    OneReach(limits, mid, GoOn(id));
    end := Apply(limits, mid, GoOn(id));
    ReachesOn(limits, st, steps, mid, [GoOn(id)], end);
    steps := steps + [GoOn(id)];
  }

  /** The attempt's task has no active Job and its pool has one slot left at least. */
  predicate HasRoom(limits: Pool -> Limits, st: State, id: nat)
    requires id in st.attempts
  {
    var a := st.attempts[id];
    var l, n := limits(a.pool), |Live(st, a.pool)|;
    a.task !in Live(st, a.pool) && (l.max > 0 ==> n < l.max) && (l.bounded ==> n < l.quota)
  }

  /** An attempt that finds the lock free, no active Job of its task and a free slot gets its
      Job created; the assignee's generation is bumped and its lock is free again. */
  lemma FreeSlotIsUsed(limits: Pool -> Limits, st: State, id: nat) returns (steps: seq<Step>, end: State)
    requires id in st.attempts && st.attempts[id].stage.Waiting? && HasRoom(limits, st, id)
    requires st.attempts[id].pool.assignee !in st.locks
    ensures Reaches(limits, st, steps, end)
    ensures var a := st.attempts[id];
            && end.attempts == st.attempts - {id} && end.locks == st.locks
            && end.live == st.live[a.pool := Live(st, a.pool) + {a.task}]
            && end.gens == st.gens[a.pool.assignee := Gen(st, a.pool.assignee) + 1]
  {
    hide Admits, Reaches, Apply, Enabled, HasEntry;
    var a := LockRuns(limits, st, id);
    var checks, b := BothChecksRun(limits, a, id);
    ReachesOn(limits, st, [Lock(id)], a, checks, b);
    var last;
    last, end := CreateRuns(limits, b, id);
    steps := [Lock(id)] + checks + last;
    ReachesOn(limits, st, [Lock(id)] + checks, b, last, end);
  }

  lemma BothChecksRun(limits: Pool -> Limits, st: State, id: nat) returns (steps: seq<Step>, end: State)
    requires id in st.attempts && st.attempts[id].stage == Asking(false) && HasRoom(limits, st, id)
    ensures Reaches(limits, st, steps, end) && SameButCaches(To(st, id, Admitted), end)
  {
    hide Admits, Reaches;
    var first, mid := CheckRuns(limits, st, id);
    var second;
    second, end := CheckRuns(limits, mid, id);
    steps := first + second;
    ReachesOn(limits, st, first, mid, second, end);
  }

  lemma LockRuns(limits: Pool -> Limits, st: State, id: nat) returns (end: State)
    requires id in st.attempts && st.attempts[id].stage.Waiting? && st.attempts[id].pool.assignee !in st.locks
    ensures Reaches(limits, st, [Lock(id)], end)
    ensures end == To(st, id, Asking(false)).(locks := st.locks[st.attempts[id].pool.assignee := id])
  {
    hide Reaches;
    OneReach(limits, st, Lock(id));
    end := Apply(limits, st, Lock(id));
  }

  lemma CreateRuns(limits: Pool -> Limits, st: State, id: nat) returns (steps: seq<Step>, end: State)
    requires id in st.attempts && st.attempts[id].stage.Admitted?
    ensures Reaches(limits, st, steps, end)
    ensures var a := st.attempts[id];
            && end.attempts == st.attempts - {id} && end.locks == st.locks - {a.pool.assignee}
            && end.live == st.live[a.pool := Live(st, a.pool) + {a.task}]
            && end.gens == st.gens[a.pool.assignee := Gen(st, a.pool.assignee) + 1]
  {
    hide Admits, Reaches;
    var mid := Apply(limits, st, Create(id));
    OneReach(limits, st, Create(id));
    OneReach(limits, mid, Bump(id));
    end := Apply(limits, mid, Bump(id));
    steps := [Create(id)] + [Bump(id)];
    ReachesOn(limits, st, [Create(id)], mid, [Bump(id)], end);
  }
}
