/**
 The cross-cluster claim protocol as a step system.

 A `World` is the claim server, the reference clock (the server's own) and, per
 cluster, what that cluster's one lease manager remembers.  A `Step` is one
 atomic event: time passing, a request landing on the server, a reply arriving,
 or the manager changing its memory.  Every step of every cluster may be
 interleaved with every step of every other; a lost reply is a landed step whose
 reply flag is false, and a lost request stays pending and may land at any time later.

 The imperative manager (LeaseManager.dfy) is proved to take only these steps,
 so whatever holds of every run here holds of every execution of its methods.
 */
module LeaseProtocol {
  import opened Wrappers

  const LEASE_DURATION := 300
  const RENEW_INTERVAL := 60
  const FENCE_MARGIN := 60
  const FENCE_LEAD := 10
  const TAKEOVER_GRACE := 30
  const JOBLESS_GRACE := 300
  const JOBLESS_CHECK_INTERVAL := 60
  const SUCCESS_GRACE := 300

  type Key = string
  type Cluster = string
  type TaskId = string

  /** A lease token is opaque to every client.  The model identifies it by what
      the server issued it for: a serial number, the key and the holder. */
  datatype Token = Token(serial: nat, key: Key, holder: Cluster)

  /** The server's record of one key.  `lease` is None when the stored value is
      not a timestamp. */
  datatype Rec = Rec(holder: Cluster, task: TaskId, token: Token, lease: Option<int>)

  /** One ref of a claim, other than its primary. */
  datatype Ref = Ref(key: Key, token: Token)

  /** What a manager remembers of one claim it holds. */
  datatype Held = Held(
    task: TaskId,
    token: Token,
    lease: int,
    second: Option<Ref>,
    lastRenewAt: int,
    renewNextTick: bool,
    pendingDeletion: bool,
    fencePath: bool,
    releasePending: bool,
    needsRunningCheck: bool,
    holdUntil: Option<int>,
    joblessSince: Option<int>,
    lastJoblessCheckAt: Option<int>)

  /** The read a claim or a takeover starts with: the clock the caller had read,
      the instant the read landed and the record it found. */
  datatype Look = Look(key: Key, clock: int, at: int, before: Option<Rec>)

  /** A fence evaluation in progress: its clock reading, taken at instant `at`. */
  datatype Fence = Fence(clock: int, at: int)

  /** One cluster's side of the world.  `held` is the manager's map; the other
      fields record what its current operation has learnt.
      - own: records naming this cluster that a reply showed it
      - seen: held claims whose Job was seen stopped since they entered `held`
      - refused: held claims the server answered "lease lost" for
      - moved: held claims whose token a renewal of ours replaced and the memory has not taken over
      - idle: per held claim, the jobless pass that last saw its Job not running, unless a
        later pass saw it running
      - releasing: held claims the current operation is about to drop */
  datatype Local = Local(
    held: map<Key, Held>,
    look: Option<Look>,
    own: map<Key, Rec>,
    seen: set<Key>,
    refused: set<Key>,
    moved: set<Key>,
    idle: map<Key, int>,
    releasing: set<Key>,
    fence: Option<Fence>,
    lastFence: int)

  /** A request whose caller gave up before it landed. */
  datatype Late =
    | LateAcquire(c: Cluster, k: Key, task: TaskId)
    | LateRenew(c: Cluster, k: Key, token: Token)
    | LateRelease(c: Cluster, k: Key, token: Token)

  /** The claim server: its clock, its records and how many tokens it has issued; the requests
      that are still on their way to it without a caller, and the serials of the tokens such
      requests were granted. */
  datatype Server = Server(now: int, recs: map<Key, Rec>, issued: nat, pending: set<Late>, late: set<nat>)

  datatype World = World(server: Server, local: map<Cluster, Local>)

  /** How far a cluster's clock reading may lie behind and ahead of the server's
      clock.  Two clusters' readings at one instant differ by at most the sum. */
  datatype Skew = Skew(slow: nat, fast: nat)

  // ---- the decisions the manager makes from a clock reading ----

  function FenceAt(lease: int): int { lease - FENCE_MARGIN }

  predicate FenceDue(clock: int, lease: int) { clock > FenceAt(lease) - FENCE_LEAD }

  predicate RenewDue(clock: int, lastRenewAt: int) { clock - lastRenewAt >= RENEW_INTERVAL }

  predicate TakeoverAllowed(clock: int, rec: Rec) {
    rec.lease.Some? && clock >= rec.lease.value + TAKEOVER_GRACE
  }

  predicate HoldOver(h: Held, clock: int) { h.holdUntil.None? || clock >= h.holdUntil.value }

  predicate JoblessEligible(h: Held) {
    !h.pendingDeletion && !h.releasePending && !h.needsRunningCheck && h.holdUntil.None?
  }

  /** The remembered lease of a record that carries no readable one: the zero time. */
  const ZERO_TIME := -62135596800

  function Until(rec: Rec): int { if rec.lease.Some? then rec.lease.value else ZERO_TIME }

  /** Why an operation starts to drop a claim. */
  datatype Cause =
    | HoldEnded(clock: int)
    | RetriedRelease
    | Rechecked
    | Jobless(pass: int)
    | Fenced
    | Lost

  /** A request landing on the server. */
  datatype Request =
    | Look_(k: Key, clock: int)
    | Acquire(k: Key, task: TaskId, reply: bool)
    | AcquireSecond(k: Key, task: TaskId, reply: bool)
    | Show(k: Key)
    | List
    | Renew(k: Key, primary: Key, reply: bool)
    | Refuse(k: Key)
    | Free(k: Key, token: Token)
    | Lose(late: Late)

  /** A change of a manager's own side: an answer of Job control, or its memory. */
  datatype Change =
    | Answered(task: TaskId, running: bool)
    | JobDeleted(task: TaskId)
    | Store(k: Key, h: Held)
    | Adopt(k: Key, h: Held, clock: int)
    | StorePending(k: Key, h: Held)
    | Touch(k: Key, h: Held)
    | SetLease(k: Key)
    | Hold(k: Key, until: int)
    | Checked(k: Key, pass: int, running: bool)
    | Confirm(k: Key)
    | BeginDrop(k: Key, cause: Cause)
    | MarkReleasePending(k: Key)
    | MarkPendingDeletion(k: Key, fence: bool)
    | Drop(k: Key)
    | StartFence(clock: int)
    | EndFence
    | EndOperation

  datatype Step =
    | Advance(t: int)
    | Send(c: Cluster, q: Request)
    | Do(c: Cluster, m: Change)
    | Land(late: Late)

  /** The manager still answers for this claim: it is held and no operation has
      handed it to the release or the Job-deletion path. */
  predicate Live(l: Local, k: Key) {
    k in l.held && !l.held[k].pendingDeletion && !l.held[k].releasePending && k !in l.releasing
  }

  predicate Expired(v: Server, k: Key) {
    k in v.recs && v.recs[k].lease.Some? && v.recs[k].lease.value <= v.now
  }

  /** The server grants an acquire on a free key or on an expired lease, and only then. */
  predicate Acquirable(v: Server, k: Key) { k !in v.recs || Expired(v, k) }

  predicate Names(l: Local, k: Key) {
    k in l.held || exists p :: p in l.held && l.held[p].second.Some? && l.held[p].second.value.key == k
  }

  function KeysOfTask(l: Local, task: TaskId): set<Key> { set k | k in l.held && l.held[k].task == task }

  /** The server no longer has the token of one of the claim's refs, or another
      cluster holds the primary. */
  predicate Gone(v: Server, c: Cluster, k: Key, h: Held) {
    || k !in v.recs
    || v.recs[k].token != h.token
    || v.recs[k].holder != c
    || (h.second.Some? &&
        (h.second.value.key !in v.recs || v.recs[h.second.value.key].token != h.second.value.token))
  }

  /** The token a claim remembers for one of its refs. */
  function RefToken(h: Held, primary: Key, k: Key): Option<Token> {
    if k == primary then Some(h.token)
    else if h.second.Some? && h.second.value.key == k then Some(h.second.value.token)
    else None
  }

  /** The second ref, if any, carries a token issued to this cluster. */
  predicate SecondOk(c: Cluster, h: Held) {
    h.second.Some? ==> h.second.value.token.holder == c && h.second.value.token.key == h.second.value.key
  }

  /** The fields that only schedule work; nothing below depends on them. */
  predicate SameCore(h: Held, g: Held) {
    && h.task == g.task && h.token == g.token && h.lease == g.lease
    && h.pendingDeletion == g.pendingDeletion && h.fencePath == g.fencePath
    && h.releasePending == g.releasePending && h.needsRunningCheck == g.needsRunningCheck
    && h.holdUntil == g.holdUntil && h.joblessSince == g.joblessSince
  }

  /** A claim as it enters the held map with its Job possibly running. */
  predicate Entering(h: Held) {
    && !h.pendingDeletion && !h.releasePending
    && h.holdUntil.None? && h.joblessSince.None? && h.lastJoblessCheckAt.None?
  }

  predicate CauseHolds(l: Local, k: Key, cause: Cause)
    requires k in l.held
  {
    var h := l.held[k];
    match cause
    case HoldEnded(clock) => k in l.seen && HoldOver(h, clock)
    case RetriedRelease => h.releasePending
    case Rechecked => k in l.seen && h.needsRunningCheck
    case Jobless(pass) =>
      && k in l.seen && JoblessEligible(h)
      && k in l.idle && l.idle[k] == pass
      && h.joblessSince.Some? && pass - h.joblessSince.value >= JOBLESS_GRACE
    case Fenced =>
      && (k in l.seen || h.releasePending)
      && (h.pendingDeletion || (l.fence.Some? && FenceDue(l.fence.value.clock, h.lease)))
    case Lost => k in l.seen && (k in l.refused || h.pendingDeletion)
  }

  /** Whether cluster c, in state l, may take a step that only changes its own side. */
  predicate MayDo(skew: Skew, v: Server, c: Cluster, l: Local, m: Change) {
    match m
    case Store(k, h) =>
      && l.look.Some? && l.look.value.key == k && k in l.own && k !in l.held
      && h.token == l.own[k].token && h.lease == Until(l.own[k]) && Entering(h) && !h.needsRunningCheck
      && (l.look.value.before.None? || TakeoverAllowed(l.look.value.clock, l.look.value.before.value))
      && SecondOk(c, h)
    case Adopt(k, h, clock) =>
      && l.look.None? && k in l.own && k !in l.held && l.own[k].lease.Some? && SecondOk(c, h)
      && h.token == l.own[k].token && h.lease <= l.own[k].lease.value && Entering(h)
      && !FenceDue(clock, h.lease) && clock >= l.lastFence - skew.slow
    case StorePending(k, h) =>
      && l.look.None? && k in l.own && k !in l.held && SecondOk(c, h)
      && h.token == l.own[k].token && h.pendingDeletion && !h.releasePending
      && h.holdUntil.None? && h.joblessSince.None?
    case Touch(k, h) => k in l.held && SameCore(l.held[k], h) && SecondOk(c, h)
    case SetLease(k) => k in l.held && k in l.own
    case Hold(k, until) =>
      && k in l.held && (l.held[k].holdUntil.None? || l.held[k].holdUntil.value < until)
      && until <= v.now + skew.fast + SUCCESS_GRACE
    case Checked(k, pass, running) => k in l.held
    case Confirm(k) => k in l.held
    case BeginDrop(k, cause) => k in l.held && CauseHolds(l, k, cause)
    case MarkReleasePending(k) => k in l.held && k in l.releasing
    case MarkPendingDeletion(k, fence) =>
      && k in l.held
      && (if fence then l.fence.Some? && FenceDue(l.fence.value.clock, l.held[k].lease) else k in l.refused)
    case Drop(k) => k in l.held && k in l.releasing
    case StartFence(clock) => l.look.None? && v.now - skew.slow <= clock <= v.now + skew.fast
    case EndFence =>
      && l.look.None? && l.fence.Some?
      && forall k :: k in l.held ==> l.held[k].pendingDeletion || !FenceDue(l.fence.value.clock, l.held[k].lease)
    case EndOperation => true
    case Answered(task, running) => true
    case JobDeleted(task) => true
  }

  /** Whether a request of cluster c, in state l, may land on the server now. */
  predicate MayLand(skew: Skew, v: Server, c: Cluster, l: Local, q: Request) {
    match q
    case Look_(k, clock) => clock <= v.now + skew.fast && !Names(l, k)
    case Acquire(k, task, reply) =>
      && l.look.Some? && l.look.value.key == k && Acquirable(v, k)
      && (l.look.value.before.None? || TakeoverAllowed(l.look.value.clock, l.look.value.before.value))
    case AcquireSecond(k, task, reply) => l.look.Some? && k != l.look.value.key && !Names(l, k) && Acquirable(v, k)
    case Show(k) => k in v.recs && v.recs[k].holder == c
    case List => true
    case Renew(k, primary, reply) =>
      primary in l.held && k in v.recs && RefToken(l.held[primary], primary, k) == Some(v.recs[k].token)
    case Refuse(k) => k in l.held && Gone(v, c, k, l.held[k])
    case Free(k, token) => k in v.recs && v.recs[k].token == token && token.holder == c && !Live(l, k)
    case Lose(x) => x.c == c && MayLose(l, x)
  }

  /** Whether a request is one the cluster may send now, so that it may be lost on the way. */
  predicate MayLose(l: Local, x: Late) {
    match x
    case LateAcquire(c, k, task) =>
      && l.look.Some?
      && (k == l.look.value.key ==>
            l.look.value.before.None? || TakeoverAllowed(l.look.value.clock, l.look.value.before.value))
    case LateRenew(c, k, token) => token.holder == c
    case LateRelease(c, k, token) => token.holder == c && !Live(l, k)
  }

  /** Whether the server grants a request that arrives after its caller gave up. */
  predicate MayArrive(v: Server, x: Late) {
    x in v.pending &&
    match x
    case LateAcquire(c, k, task) => Acquirable(v, k)
    case LateRenew(c, k, token) => k in v.recs && v.recs[k].token == token && v.recs[k].holder == c
    case LateRelease(c, k, token) => k in v.recs && v.recs[k].token == token && v.recs[k].holder == c
  }

  predicate Enabled(skew: Skew, w: World, s: Step) {
    match s
    case Advance(t) => t >= w.server.now
    case Send(c, q) => c in w.local && MayLand(skew, w.server, c, w.local[c], q)
    case Do(c, m) => c in w.local && MayDo(skew, w.server, c, w.local[c], m)
    case Land(x) => MayArrive(w.server, x)
  }

  predicate ActsFor(s: Step, c: Cluster) { (s.Send? || s.Do?) && s.c == c }

  // ---- what a step does ----

  /** A claim enters the held map: nothing is known of its Job yet. */
  function Enter(l: Local, k: Key, h: Held): Local {
    l.(held := l.held[k := h], seen := l.seen - {k}, refused := l.refused - {k}, moved := l.moved - {k},
       idle := l.idle - {k}, releasing := l.releasing - {k})
  }

  function Leave(l: Local, k: Key): Local {
    l.(held := l.held - {k}, seen := l.seen - {k}, refused := l.refused - {k}, moved := l.moved - {k},
       idle := l.idle - {k}, releasing := l.releasing - {k})
  }

  function Put(l: Local, k: Key, h: Held): Local { l.(held := l.held[k := h]) }

  /** The first consecutive not-running answer of the jobless pass is remembered. */
  function JoblessSince(h: Held, pass: int, running: bool): Option<int> {
    if running then None else if h.joblessSince.Some? then h.joblessSince else Some(pass)
  }

  /** The cluster's own side after a local step; unchanged where the step is not enabled. */
  function Changed(v: Server, l: Local, m: Change): Local {
    match m
    case Store(k, h) => Enter(l, k, h).(look := None)
    case Adopt(k, h, clock) => Enter(l, k, h)
    case StorePending(k, h) => Enter(l, k, h)
    case Touch(k, h) => Put(l, k, h)
    case SetLease(k) =>
      if k in l.held && k in l.own then
        Put(l, k, l.held[k].(token := l.own[k].token, lease := Until(l.own[k])))
        .(moved := l.moved - {k}, own := l.own - {k})
      else l
    case Hold(k, until) => if k in l.held then Put(l, k, l.held[k].(holdUntil := Some(until))) else l
    case Checked(k, pass, running) =>
      if k in l.held then
        Put(l, k, l.held[k].(joblessSince := JoblessSince(l.held[k], pass, running)))
        .(idle := if running then l.idle - {k} else l.idle[k := pass])
      else l
    case Confirm(k) => if k in l.held then Put(l, k, l.held[k].(needsRunningCheck := false)) else l
    case BeginDrop(k, cause) => l.(releasing := l.releasing + {k})
    case MarkReleasePending(k) =>
      if k in l.held then Put(l, k, l.held[k].(releasePending := true)).(releasing := l.releasing - {k}) else l
    case MarkPendingDeletion(k, fence) =>
      if k in l.held then Put(l, k, l.held[k].(pendingDeletion := true, fencePath := fence)) else l
    case Drop(k) => Leave(l, k)
    case StartFence(clock) => l.(fence := Some(Fence(clock, v.now)))
    case EndFence => if l.fence.Some? then l.(fence := None, lastFence := l.fence.value.at) else l
    case EndOperation => l.(look := None, own := map[])
    case Answered(task, running) => if running then l else l.(seen := l.seen + KeysOfTask(l, task))
    case JobDeleted(task) => l.(seen := l.seen + KeysOfTask(l, task))
  }

  /** A fresh grant of k to c. */
  function Grant(v: Server, c: Cluster, k: Key, task: TaskId): Rec {
    Rec(c, task, Token(v.issued, k, c), Some(v.now + LEASE_DURATION))
  }

  function Granted(v: Server, c: Cluster, k: Key, task: TaskId): Server {
    v.(recs := v.recs[k := Grant(v, c, k, task)], issued := v.issued + 1)
  }

  /** The server after a request landed. */
  function Landed(v: Server, c: Cluster, q: Request): Server {
    match q
    case Acquire(k, task, reply) => Granted(v, c, k, task)
    case AcquireSecond(k, task, reply) => Granted(v, c, k, task)
    case Renew(k, primary, reply) => Granted(v, c, k, if k in v.recs then v.recs[k].task else "")
    case Free(k, token) => v.(recs := v.recs - {k})
    case Lose(x) => v.(pending := v.pending + {x})
    case _ => v
  }

  /** The server after a late request arrived: its sender learns nothing of it. */
  function Arrived(v: Server, x: Late): Server {
    var u := v.(pending := v.pending - {x});
    match x
    case LateAcquire(c, k, task) => Granted(u, c, k, task).(late := u.late + {u.issued})
    case LateRenew(c, k, token) => Granted(u, c, k, if k in u.recs then u.recs[k].task else "").(late := u.late + {u.issued})
    case LateRelease(c, k, token) => u.(recs := u.recs - {k})
  }

  function Learn(l: Local, v: Server, k: Key, reply: bool): Local {
    if reply && k in v.recs then l.(own := l.own[k := v.recs[k]]) else l.(own := l.own - {k})
  }

  function Found(v: Server, k: Key): Option<Rec> { if k in v.recs then Some(v.recs[k]) else None }

  /** What the sender has learnt once its request landed; v is the server afterwards. */
  function Replied(v: Server, c: Cluster, l: Local, q: Request): Local {
    match q
    case Look_(k, clock) => l.(look := Some(Look(k, clock, v.now, Found(v, k))), own := map[])
    case Acquire(k, task, reply) => Learn(l, v, k, reply)
    case AcquireSecond(k, task, reply) => Learn(l, v, k, reply)
    case Show(k) => Learn(l, v, k, true)
    case List => l.(look := None, own := map k | k in v.recs && v.recs[k].holder == c :: v.recs[k])
    case Renew(k, primary, reply) =>
      Learn(l, v, k, reply).(moved := l.moved + {k})
    case Refuse(k) => l.(refused := l.refused + {k})
    case Free(k, token) => l.(own := l.own - {k})
    case Lose(x) => l
  }

  function Apply(w: World, s: Step): World {
    match s
    case Advance(t) => w.(server := w.server.(now := t))
    case Send(c, q) =>
      if c !in w.local then w
      else var v := Landed(w.server, c, q); World(v, w.local[c := Replied(v, c, w.local[c], q)])
    case Do(c, m) => if c !in w.local then w else w.(local := w.local[c := Changed(w.server, w.local[c], m)])
    case Land(x) => w.(server := Arrived(w.server, x))
  }

  // ---- runs ----

  datatype Run = Run(states: seq<World>, steps: seq<Step>)

  predicate ServerOk(v: Server) {
    && (forall k :: k in v.recs ==>
          && v.recs[k].token.key == k && v.recs[k].token.holder == v.recs[k].holder
          && v.recs[k].token.serial < v.issued
          && (v.recs[k].lease.Some? ==> v.recs[k].lease.value <= v.now + LEASE_DURATION))
    && forall n :: n in v.late ==> n < v.issued
  }

  /** Every manager has just started; the server may hold records of earlier ones, and
      requests of theirs may still be on their way. */
  predicate Init(w: World) {
    && (forall c :: c in w.local ==>
          w.local[c] == Local(map[], None, map[], {}, {}, {}, map[], {}, None, w.server.now))
    && ServerOk(w.server)
  }

  ghost predicate IsRun(skew: Skew, run: Run) {
    && |run.states| == |run.steps| + 1
    && Init(run.states[0])
    && forall i :: 0 <= i < |run.steps| ==>
      Enabled(skew, run.states[i], run.steps[i]) && run.states[i + 1] == Apply(run.states[i], run.steps[i])
  }
}
