/**
 What the operations of a lease manager do to its held map, given the replies they heard, and
 why one change after another adds up to what the operation promises.
 */
module LeaseOutcomes {
  import opened Wrappers
  import opened LeaseProtocol
  import opened LeaseInvariants
  import opened ClaimWorlds
  import opened RecoveryGroups
  import ClaimKeys

  datatype Failure = LeaseConflict | LeaseNotExpired | OtherError

  type Replies = set<Reply>

  /** How a tick treats one claim: it keeps its task and hold, never leaves pending Job
      deletion, and otherwise never loses lease. */
  predicate Aged(h: Held, g: Held) {
    && g.task == h.task && g.holdUntil == h.holdUntil
    && (h.pendingDeletion ==> g.pendingDeletion)
    && (g.pendingDeletion || h.lease <= g.lease)
  }

  /** A tick never adds a claim. */
  predicate Ages(h: map<Key, Held>, g: map<Key, Held>) { forall k :: k in g ==> k in h && Aged(h[k], g[k]) }

  /** No claim's second ref is another claim's key. */
  predicate SecondsApart(held: map<Key, Held>) {
    forall k :: k in held && held[k].second.Some? ==> held[k].second.value.key !in held
  }

  /** No operation is under way. */
  predicate Quiet(l: Local) { l.look.None? && l.releasing == {} && l.fence.None? }

  /** Every claim that is not waiting for its Job's deletion is short of its fence point, a
      minute and the lead of ten seconds before its lease end. */
  predicate Unfenced(held: map<Key, Held>, clock: int) {
    forall k :: k in held ==> held[k].pendingDeletion || clock <= held[k].lease - 70
  }

  predicate Kept(h: Held, held: map<Key, Held>, k: Key) { k in held && held[k] == h }

  /** Nothing but the claim at k has changed. */
  predicate OnlyAt(was: map<Key, Held>, held: map<Key, Held>, k: Key) {
    if k in held then k in was && held == was[k := held[k]] else held == was - {k}
  }

  lemma AnyCallerDeadline(held: map<Key, Held>)
    ensures Bounded(held, Caller)
  {}

  // ---- releases ----

  predicate Freed(k: Key, heard: Replies) { ReleaseSent(k, Released) in heard || ReleaseSent(k, AlreadyReleased) in heard }

  predicate ReleaseTried(k: Key, heard: Replies) { Freed(k, heard) || ReleaseSent(k, ReleaseFailed) in heard }

  lemma FreedBy(k: Key, r: ReleaseReply, heard: Replies)
    requires ReleaseSent(k, r) in heard && !r.ReleaseFailed?
    ensures Freed(k, heard)
  {}

  lemma ReleaseWasTried(k: Key, r: ReleaseReply, heard: Replies)
    requires ReleaseSent(k, r) in heard
    ensures ReleaseTried(k, heard)
  {}

  /** Both refs of a claim are gone from the server. */
  predicate LetGo(h: Held, k: Key, heard: Replies) {
    Freed(k, heard) && (h.second.Some? ==> Freed(h.second.value.key, heard))
  }

  /** The release of one of the refs failed. */
  predicate Stuck(h: Held, k: Key, heard: Replies) {
    || ReleaseSent(k, ReleaseFailed) in heard
    || (Freed(k, heard) && h.second.Some? && ReleaseSent(h.second.value.key, ReleaseFailed) in heard)
  }

  predicate Attempted(h: Held, k: Key, heard: Replies) {
    ReleaseTried(k, heard) && (h.second.Some? ==> ReleaseTried(h.second.value.key, heard))
  }

  /** A release drops the claim once both refs are gone; a failure on either leaves the whole
      claim pending release. */
  predicate EndOfRelease(h: Held, held: map<Key, Held>, k: Key, heard: Replies) {
    || (k !in held && LetGo(h, k, heard))
    || (Kept(h.(releasePending := true), held, k) && Stuck(h, k, heard))
  }

  predicate MayRun(task: TaskId, heard: Replies) { Asked(task, Running) in heard || Asked(task, Unknown) in heard }

  /** A release keeps a claim whose Job may be running and releases any other. */
  predicate Settles(h: Held, held: map<Key, Held>, k: Key, heard: Replies) {
    || (Kept(h, held, k) && MayRun(h.task, heard))
    || (Asked(h.task, NotRunning) in heard && EndOfRelease(h, held, k, heard))
  }

  /** A release leaves a claim inside its hold alone and settles any other. */
  predicate ReleaseOutcome(was: map<Key, Held>, held: map<Key, Held>, k: Key, now: int, heard: Replies)
    requires k in was
  {
    && ClockRead(now) in heard
    && if was[k].holdUntil.Some? && now < was[k].holdUntil.value then held == was
       else OnlyAt(was, held, k) && Settles(was[k], held, k, heard)
  }

  /** When the hold of a success ends: the grace period after the completion, counted
      from now at the latest. */
  function HoldEnd(completedAt: int, now: int): int {
    if completedAt + SUCCESS_GRACE > now + SUCCESS_GRACE then now + SUCCESS_GRACE else completedAt + SUCCESS_GRACE
  }

  /** The claim is held for the success: until five minutes after the completion, or after now
      when the completion is stamped later, and no shorter than before. */
  predicate HeldForSuccess(h: Held, g: Held, completedAt: int, now: int) {
    var until := (if completedAt <= now then completedAt else now) + 300;
    && g == h.(holdUntil := g.holdUntil)
    && match h.holdUntil
       case None => g.holdUntil == Some(until)
       case Some(t) => g.holdUntil == Some(if t < until then until else t)
  }

  /** A success within the grace period only sets the hold of its claim; an older one is a
      plain release. */
  predicate SuccessOutcome(
    was: map<Key, Held>, held: map<Key, Held>, k: Key, completedAt: int, now: int, heard: Replies)
    requires k in was
  {
    && ClockRead(now) in heard
    && if now < completedAt + 300
       then k in held && held == was[k := held[k]] && HeldForSuccess(was[k], held[k], completedAt, now)
       else ReleaseOutcome(was, held, k, now, heard)
  }

  /** The hold of a success is positive, ends within five minutes of the reading and of the
      completion unless it was longer before, is never pulled in, and covers the five minutes
      after a completion that is not stamped in the future: until then a release at any later
      reading leaves the claim alone. */
  lemma HoldsOnlyGrow(
    h: Held, g: Held, completedAt: int, now: int, later: int, k: Key, was: map<Key, Held>, held: map<Key, Held>, heard: Replies)
    requires HeldForSuccess(h, g, completedAt, now) && now < completedAt + 300
    ensures g.holdUntil.Some? && now < g.holdUntil.value
    ensures h.holdUntil.Some? ==> h.holdUntil.value <= g.holdUntil.value
    ensures g.holdUntil == h.holdUntil || (g.holdUntil.value <= now + 300 && g.holdUntil.value <= completedAt + 300)
    ensures completedAt <= now ==> completedAt + 300 <= g.holdUntil.value
    ensures k in was && was[k] == g && later < g.holdUntil.value && ReleaseOutcome(was, held, k, later, heard) ==> held == was
  {}

  // ---- what a claim or a takeover does ----

  /** Nothing but a claim or a takeover is under way. */
  predicate Unhurried(l: Local) { l.releasing == {} && l.fence.None? }

  /** An operation has looked the key up. */
  predicate Looking(l: Local, k: Key) { Unhurried(l) && l.look.Some? && l.look.value.key == k }

  predicate Addressable(primary: Key, second: Option<Key>) {
    ClaimKeys.TargetFromKey(primary).Some? && (second.Some? ==> ClaimKeys.TargetFromKey(second.value).Some?)
  }

  /** A claim of `task` that counts as renewed at `now`, with no flag, hold or check set. */
  predicate JustClaimed(h: Held, task: TaskId, now: int) {
    && h.task == task && h.lastRenewAt == now && !h.renewNextTick
    && !h.pendingDeletion && !h.fencePath && !h.releasePending && !h.needsRunningCheck
    && h.holdUntil == None && h.joblessSince == None && h.lastJoblessCheckAt == None
  }

  /** The claim remembers the record's token and lease end; a lease that could not be read is
      the zero time, January 1 of year 1 in seconds of the Unix clock. */
  predicate CarriesLease(h: Held, rec: Rec) {
    h.token == rec.token && h.lease == match rec.lease { case Some(t) => t case None => -62135596800 }
  }

  /** A claim as it is stored: renewed at `now`, with nothing pending and its Job unknown. */
  function NewClaim(task: TaskId, rec: Rec, second: Option<Ref>, now: int): (h: Held)
    ensures JustClaimed(h, task, now) && CarriesLease(h, rec) && h.second == second
  {
    Held(task, rec.token, Until(rec), second, now, false, false, false, false, false, None, None, None)
  }

  /** The server granted the record for the task, or a read after a failed acquire showed it. */
  predicate Won(k: Key, rec: Rec, task: TaskId, c: Cluster, heard: Replies) {
    || (Acquired(k, Got(rec)) in heard && rec.task == task && rec.holder == c)
    || (Acquired(k, AcquireFailed) in heard && rec.holder == c && ReadBack(k, Found_(rec)) in heard)
  }

  /** The server granted the ref its token, for the task. */
  ghost predicate Granted(ref: Ref, task: TaskId, heard: Replies) {
    exists rec :: Acquired(ref.key, Got(rec)) in heard && ref.token == rec.token && rec.task == task
  }

  /** The claim's primary was won, and so was its second ref if it has one. */
  ghost predicate Wins(k: Key, second: Option<Key>, task: TaskId, now: int, h: Held, c: Cluster, heard: Replies) {
    && JustClaimed(h, task, now)
    && (exists rec :: Won(k, rec, task, c, heard) && CarriesLease(h, rec))
    && match second
       case None => h.second == None
       case Some(q) => h.second.Some? && h.second.value.key == q && Granted(h.second.value, task, heard)
  }

  /** Why an acquire sequence failed. */
  predicate Loses(k: Key, second: Option<Key>, error: Failure, heard: Replies) {
    match error
    case LeaseConflict => Acquired(k, ClaimHeld) in heard || (second.Some? && Acquired(second.value, ClaimHeld) in heard)
    case OtherError => Acquired(k, AcquireFailed) in heard || (second.Some? && Acquired(second.value, AcquireFailed) in heard)
    case LeaseNotExpired => false
  }

  /** Acquiring either fails and leaves the held map alone, or adds exactly the claim it
      returns, with both of its refs. */
  ghost predicate AcquireOutcome(
    was: map<Key, Held>, held: map<Key, Held>, k: Key, second: Option<Key>, task: TaskId, now: int, c: Cluster,
    r: Result<Held, Failure>, heard: Replies)
  {
    match r
    case Err(error) => held == was && Loses(k, second, error, heard)
    case Ok(h) => k !in was && held == was[k := h] && Wins(k, second, task, now, h, c, heard)
  }

  /** A create on a key its read found free. */
  ghost predicate CreateOutcome(
    was: map<Key, Held>, held: map<Key, Held>, k: Key, second: Option<Key>, task: TaskId, now: int, c: Cluster,
    r: Result<Held, Failure>, heard: Replies)
  {
    || (LookedUp(k, Free_) in heard && AcquireOutcome(was, held, k, second, task, now, c, r, heard))
    || (held == was && r == Err(OtherError) && LookedUp(k, ReadFailed) in heard)
    || (held == was && r == Err(LeaseConflict) && exists rec :: LookedUp(k, Found_(rec)) in heard)
  }

  /** A takeover of a record its first read found, or a create when the key was free. */
  ghost predicate TakeoverOutcome(
    was: map<Key, Held>, held: map<Key, Held>, k: Key, second: Option<Key>, task: TaskId, clock: int, now: int, c: Cluster,
    r: Result<Held, Failure>, previous: TaskId, heard: Replies)
  {
    && ClockRead(clock) in heard
    && (|| (held == was && r == Err(OtherError) && LookedUp(k, ReadFailed) in heard)
        || (&& LookedUp(k, Free_) in heard && previous == ""
            && CreateOutcome(was, held, k, second, task, now, c, r, heard))
        || exists rec :: LookedUp(k, Found_(rec)) in heard &&
             if rec.lease.Some? && clock >= rec.lease.value + 30
             then previous == rec.task && AcquireOutcome(was, held, k, second, task, clock, c, r, heard)
             else held == was && r == Err(LeaseNotExpired))
  }

  /** The key of a claim's second ref; a single-ref claim has the empty one. */
  function SecondKey(h: Held): Key { if h.second.Some? then h.second.value.key else "" }

  /** The held claim that owns a key, as its primary or its second ref.  The empty key is thus
      owned by every single-ref claim. */
  predicate OwnerOf(held: map<Key, Held>, owner: Key, key: Key) {
    owner in held && (owner == key || SecondKey(held[owner]) == key)
  }

  predicate Owned(held: map<Key, Held>, key: Key) { exists p :: p in held && OwnerOf(held, p, key) }

  lemma OwnedIsNamed(l: Local, key: Key)
    requires key != ""
    ensures Owned(l.held, key) <==> Names(l, key)
  {
    if key in l.held { assert OwnerOf(l.held, key, key); }
    if Names(l, key) && key !in l.held {
      var p :| p in l.held && l.held[p].second.Some? && l.held[p].second.value.key == key;
      assert OwnerOf(l.held, p, key);
    }
  }

  /** No address is empty. */
  lemma AddressesAreNotEmpty(primary: Key, second: Option<Key>)
    requires Addressable(primary, second)
    ensures primary != "" && second != Some("")
  {}

  lemma NotNamed(l: Local, k: Key)
    requires !Names(l, k)
    ensures k !in l.held
  {}

  lemma SameNames(l: Local, m: Local, k: Key)
    requires l.held == m.held
    ensures Names(l, k) == Names(m, k)
  {}

  // ---- what recovery does ----

  /** The group's refs are listed for this cluster, known to be its own and not held. */
  predicate Unheld(l: Local, recs: map<Key, Rec>, g: Group) {
    && g.primary in recs && g.primary in l.own && l.own[g.primary] == recs[g.primary] && !Names(l, g.primary)
    && (g.second.Some? ==>
          var q := g.second.value;
          && q in recs && q in l.own && l.own[q] == recs[q] && !Names(l, q) && q != g.primary
          && recs[q].token.key == q)
  }

  lemma SameUnheld(l: Local, m: Local, recs: map<Key, Rec>, g: Group)
    requires l.held == m.held && l.own == m.own
    ensures Unheld(l, recs, g) == Unheld(m, recs, g)
  {}

  /** Nothing learnt of the keys outside the group is lost. */
  predicate KeepsOwn(l: Local, m: Local, g: Group) {
    m.own.Keys <= l.own.Keys && forall k :: k in l.own && !Member(g, k) ==> k in m.own && m.own[k] == l.own[k]
  }

  predicate GroupIn(recs: map<Key, Rec>, g: Group) {
    g.primary in recs && (g.second.Some? ==> g.second.value in recs)
  }

  function SecondOf(recs: map<Key, Rec>, g: Group): Option<Ref>
    requires g.second.Some? ==> g.second.value in recs
  {
    if g.second.Some? then Some(Ref(g.second.value, recs[g.second.value].token)) else None
  }

  /** A claim held because of a group carries its task, its refs with the listed tokens and the
      earlier of its leases, and no hold. */
  predicate FromGroup(h: Held, recs: map<Key, Rec>, g: Group, now: int) {
    && GroupIn(recs, g)
    && h.task == recs[g.primary].task && h.token == recs[g.primary].token && EarliestLease(h.lease, recs, g, now)
    && (match g.second
        case None => h.second == None
        case Some(q) => h.second.Some? && h.second.value.key == q && h.second.value.token == recs[q].token)
    && !h.releasePending && h.holdUntil == None && h.joblessSince == None && h.lastJoblessCheckAt == None
  }

  /** Held until its Job can be deleted; its refs are let go after that. */
  predicate HeldPending(h: Held, recs: map<Key, Rec>, g: Group, now: int) {
    && FromGroup(h, recs, g, now) && h.pendingDeletion && h.fencePath
    && !h.renewNextTick && !h.needsRunningCheck && h.lastRenewAt == ZERO_TIME
  }

  /** Adopted at `now`, to be renewed at the next tick. */
  predicate AdoptedAt(h: Held, recs: map<Key, Rec>, g: Group, now: int) {
    FromGroup(h, recs, g, now) && !h.pendingDeletion && !h.fencePath && h.renewNextTick && h.lastRenewAt == now
  }

  function PendingGroup(recs: map<Key, Rec>, g: Group, now: int): (h: Held)
    requires GroupIn(recs, g)
    ensures HeldPending(h, recs, g, now)
  {
    var rec := recs[g.primary];
    Held(rec.task, rec.token, GroupLease(recs, g, now), SecondOf(recs, g), ZERO_TIME, false, true, true, false, false, None, None, None)
  }

  function AdoptedGroup(recs: map<Key, Rec>, g: Group, now: int, unknown: bool): (h: Held)
    requires GroupIn(recs, g)
    ensures AdoptedAt(h, recs, g, now) && h.needsRunningCheck == unknown
  {
    var rec := recs[g.primary];
    Held(rec.task, rec.token, GroupLease(recs, g, now), SecondOf(recs, g), now, true, false, false, false, unknown, None, None, None)
  }

  predicate GroupTried(g: Group, heard: Replies) {
    ReleaseTried(g.primary, heard) && (g.second.Some? ==> ReleaseTried(g.second.value, heard))
  }

  /** A group too close to its lease end at a reading: its Job was seen stopped and its refs
      were let go, or it is held pending Job deletion. */
  predicate FencedGroup(was: map<Key, Held>, held: map<Key, Held>, recs: map<Key, Rec>, g: Group, now: int, heard: Replies)
    requires GroupIn(recs, g)
  {
    var task := recs[g.primary].task;
    && LeaseShort(recs, g, now)
    && (|| (&& held == was && GroupTried(g, heard)
            && (Asked(task, NotRunning) in heard || (Deleted(task, true) in heard && MayRun(task, heard))))
        || (&& g.primary in held && held == was[g.primary := held[g.primary]] && HeldPending(held[g.primary], recs, g, now)
            && Deleted(task, false) in heard && MayRun(task, heard)))
  }

  /** Any other group: adopted exactly as listed while its Job may run, released otherwise. */
  predicate AdoptedOrReleased(was: map<Key, Held>, held: map<Key, Held>, recs: map<Key, Rec>, g: Group, now: int, heard: Replies)
    requires GroupIn(recs, g)
  {
    var task := recs[g.primary].task;
    && !LeaseShort(recs, g, now)
    && (|| (&& held == was && Asked(task, NotRunning) in heard
            && (ReleaseSent(g.primary, ReleaseFailed) in heard || GroupTried(g, heard)))
        || (&& g.primary in held && held == was[g.primary := held[g.primary]] && AdoptedAt(held[g.primary], recs, g, now)
            && Asked(task, if held[g.primary].needsRunningCheck then Unknown else Running) in heard))
  }

  /** The restart rule for one group, at one clock reading. */
  ghost predicate GroupOutcome(
    was: map<Key, Held>, held: map<Key, Held>, recs: map<Key, Rec>, g: Group, now: int, heard: Replies)
    requires GroupIn(recs, g)
  {
    ClockRead(now) in heard
    && (FencedGroup(was, held, recs, g, now, heard) || AdoptedOrReleased(was, held, recs, g, now, heard))
  }

  /** Recovery has dealt with a group, at a reading no earlier than `start`.  Its Job was seen
      not running; or a lease of it was short and its Job was deleted; or its claim is held,
      pending only because its Job could not be deleted, adopted only while its Job may run and
      no lease of it was short. */
  ghost predicate Dealt(held: map<Key, Held>, recs: map<Key, Rec>, g: Group, start: int, heard: Replies)
    requires GroupIn(recs, g)
  {
    exists now :: now >= start && ClockRead(now) in heard && DealtAt(held, recs, g, now, heard)
  }

  predicate DealtAt(held: map<Key, Held>, recs: map<Key, Rec>, g: Group, now: int, heard: Replies)
    requires GroupIn(recs, g)
  {
    var task := recs[g.primary].task;
    || (Asked(task, NotRunning) in heard && (GroupTried(g, heard) || ReleaseSent(g.primary, ReleaseFailed) in heard))
    || (LeaseShort(recs, g, now) && Deleted(task, true) in heard && GroupTried(g, heard))
    || (&& LeaseShort(recs, g, now) && g.primary in held && HeldPending(held[g.primary], recs, g, now)
        && Deleted(task, false) in heard && MayRun(task, heard))
    || (&& !LeaseShort(recs, g, now) && g.primary in held && AdoptedAt(held[g.primary], recs, g, now)
        && Asked(task, if held[g.primary].needsRunningCheck then Unknown else Running) in heard)
  }

  lemma OutcomeIsDealt(
    was: map<Key, Held>, held: map<Key, Held>, recs: map<Key, Rec>, g: Group, now: int, start: int, heard: Replies)
    requires GroupIn(recs, g) && GroupOutcome(was, held, recs, g, now, heard) && start <= now
    ensures Dealt(held, recs, g, start, heard)
  {
    hide LeaseShort, HeldPending, AdoptedAt, GroupTried;
    assert DealtAt(held, recs, g, now, heard);
  }

  lemma DealtAtHeardMore(
    held: map<Key, Held>, held': map<Key, Held>, recs: map<Key, Rec>, g: Group, now: int, heard: Replies, more: Replies)
    requires GroupIn(recs, g) && DealtAt(held, recs, g, now, heard) && heard <= more
    requires forall p :: p in held ==> p in held' && held'[p] == held[p]
    ensures DealtAt(held', recs, g, now, more)
  {
    hide LeaseShort, HeldPending, AdoptedAt;
  }

  lemma DealtHeardMore(
    held: map<Key, Held>, held': map<Key, Held>, recs: map<Key, Rec>, g: Group, start: int, heard: Replies, more: Replies)
    requires GroupIn(recs, g) && Dealt(held, recs, g, start, heard) && heard <= more
    requires forall p :: p in held ==> p in held' && held'[p] == held[p]
    ensures Dealt(held', recs, g, start, more)
  {
    hide DealtAt;
    var now :| now >= start && ClockRead(now) in heard && DealtAt(held, recs, g, now, heard);
    DealtAtHeardMore(held, held', recs, g, now, heard, more);
  }

  function KeysOf(recs: map<Key, Rec>, tasks: set<TaskId>): set<Key> { set k | k in recs && recs[k].task in tasks }

  /** The listing shows tokens issued to c for the listed keys. */
  predicate Issued(recs: map<Key, Rec>, c: Cluster) {
    forall k :: k in recs ==> recs[k].holder == c && recs[k].token.holder == c && recs[k].token.key == k
  }

  function GroupAt(p: Key, h: Held): Group {
    Group(p, if h.second.Some? then Some(h.second.value.key) else None)
  }

  /** Recovery has dealt with the group of a listed claim. */
  ghost predicate Settled(held: map<Key, Held>, recs: map<Key, Rec>, start: int, k: Key, heard: Replies) {
    exists g :: IsGroup(recs, g) && Member(g, k) && GroupIn(recs, g) && Dealt(held, recs, g, start, heard)
  }

  /** Recovery has dealt with the listed claims outside `todo` and not touched the others. */
  ghost predicate Progress(l: Local, recs: map<Key, Rec>, start: int, todo: set<Key>, heard: Replies) {
    && (forall k :: k in todo ==> k in recs && k in l.own && l.own[k] == recs[k] && !Names(l, k))
    && (forall k :: k in recs && k !in todo ==> Settled(l.held, recs, start, k, heard))
    && (forall p :: p in l.held ==> IsGroup(recs, GroupAt(p, l.held[p])))
  }

  lemma RecoverBegins(l: Local, recs: map<Key, Rec>, start: int, heard: Replies)
    requires l.held == map[] && l.own == recs
    ensures Progress(l, recs, start, recs.Keys, heard)
  {}

  lemma RecoverDone(l: Local, recs: map<Key, Rec>, start: int, heard: Replies)
    requires Progress(l, recs, start, KeysOf(recs, {}), heard)
    ensures forall k :: k in recs ==> Settled(l.held, recs, start, k, heard)
    ensures forall p :: p in l.held ==> IsGroup(recs, GroupAt(p, l.held[p]))
  {}

  lemma ProgressUnheld(c: Cluster, l: Local, recs: map<Key, Rec>, start: int, todo: set<Key>, g: Group, heard: Replies)
    requires Progress(l, recs, start, todo, heard) && IsGroup(recs, g) && Issued(recs, c)
    requires forall k :: Member(g, k) ==> k in todo
    ensures Unheld(l, recs, g)
  {
    assert Member(g, g.primary);
    if g.second.Some? {
      PairMembers(recs, recs[g.primary].task, g.primary, g.second.value);
      assert Member(g, g.second.value);
    }
  }

  lemma PairKeys(recs: map<Key, Rec>, tasks: set<TaskId>, task: TaskId, r: Key, q: Key)
    requires IsPair(recs, task, r, q) && task in tasks
    ensures IsGroup(recs, Group(r, Some(q)))
    ensures forall k :: Member(Group(r, Some(q)), k) <==> k in KeysOf(recs, tasks) && recs[k].task == task
  {
    PairMembers(recs, task, r, q);
    forall k ensures Member(Group(r, Some(q)), k) <==> k in KeysOf(recs, tasks) && recs[k].task == task {
      assert k in TaskKeys(recs, task) <==> k in {r, q};
    }
  }

  lemma SinglesAreGroups(recs: map<Key, Rec>, task: TaskId)
    requires !exists r, q :: r in TaskKeys(recs, task) && q in TaskKeys(recs, task) && IsPair(recs, task, r, q)
    ensures forall k :: k in TaskKeys(recs, task) ==> IsGroup(recs, Group(k, None))
  {
    forall r, q ensures !IsPair(recs, task, r, q) {
      if IsPair(recs, task, r, q) { PairMembers(recs, task, r, q); }
    }
  }

  /** A group's outcome leaves the held map as it was or adds the group's claim. */
  lemma OutcomeAdds(was: map<Key, Held>, held: map<Key, Held>, recs: map<Key, Rec>, g: Group, now: int, heard: Replies)
    requires GroupIn(recs, g) && GroupOutcome(was, held, recs, g, now, heard)
    ensures held == was
         || (g.primary in held && held == was[g.primary := held[g.primary]] && GroupAt(g.primary, held[g.primary]) == g)
  {}

  /** Recovering one group carries the recovery on. */
  lemma ProgressOne(
    l: Local, m: Local, recs: map<Key, Rec>, start: int, now: int, todo: set<Key>, g: Group, heard: Replies, more: Replies)
    requires Progress(l, recs, start, todo, heard) && IsGroup(recs, g) && GroupIn(recs, g) && heard <= more && start <= now
    requires KeepsOwn(l, m, g) && g.primary !in l.held && GroupOutcome(l.held, m.held, recs, g, now, more)
    ensures Progress(m, recs, start, (set k | k in todo && !Member(g, k)), more)
  {
    hide GroupOutcome, Dealt, IsGroup, Names, Settled, GroupAt;
    OutcomeIsDealt(l.held, m.held, recs, g, now, start, more);
    OutcomeAdds(l.held, m.held, recs, g, now, more);
    OutcomeIsGroup(l.held, m.held, recs, g);
    var rest := set k | k in todo && !Member(g, k);
    forall k | k in rest ensures k in m.own && m.own[k] == recs[k] && !Names(m, k) {
      OthersNotNamed(l, m, g, k);
    }
    forall k | k in recs && k !in rest ensures Settled(m.held, recs, start, k, more) {
      if Member(g, k) { GroupSettles(m.held, recs, start, g, k, more); }
      else { StaySettled(l.held, m.held, recs, start, k, heard, more); }
    }
  }

  lemma OutcomeIsGroup(was: map<Key, Held>, held: map<Key, Held>, recs: map<Key, Rec>, g: Group)
    requires IsGroup(recs, g) && forall p :: p in was ==> IsGroup(recs, GroupAt(p, was[p]))
    requires held == was
          || (g.primary in held && held == was[g.primary := held[g.primary]] && GroupAt(g.primary, held[g.primary]) == g)
    ensures forall p :: p in held ==> IsGroup(recs, GroupAt(p, held[p]))
  {
    hide IsGroup, GroupAt;
  }

  lemma OthersNotNamed(l: Local, m: Local, g: Group, k: Key)
    requires !Names(l, k) && !Member(g, k)
    requires m.held == l.held
          || (g.primary in m.held && m.held == l.held[g.primary := m.held[g.primary]] && GroupAt(g.primary, m.held[g.primary]) == g)
    ensures !Names(m, k)
  {}

  lemma GroupSettles(held: map<Key, Held>, recs: map<Key, Rec>, start: int, g: Group, k: Key, heard: Replies)
    requires IsGroup(recs, g) && Member(g, k) && GroupIn(recs, g) && Dealt(held, recs, g, start, heard)
    ensures Settled(held, recs, start, k, heard)
  {}

  lemma StaySettled(
    was: map<Key, Held>, held: map<Key, Held>, recs: map<Key, Rec>, start: int, k: Key, heard: Replies, more: Replies)
    requires Settled(was, recs, start, k, heard) && heard <= more
    requires forall p :: p in was ==> p in held && held[p] == was[p]
    ensures Settled(held, recs, start, k, more)
  {
    var g :| IsGroup(recs, g) && Member(g, k) && GroupIn(recs, g) && Dealt(was, recs, g, start, heard);
    DealtHeardMore(was, held, recs, g, start, heard, more);
  }

  // ---- the fence ----

  /** What a fence evaluation at `clock` does to one claim: a due claim is dropped once its
      Job is stopped, or waits for its Job's deletion; any other stays as it is. */
  predicate FenceOutcome(h: Held, held: map<Key, Held>, k: Key, clock: int, heard: Replies) {
    if h.pendingDeletion || clock <= h.lease - 70 then Kept(h, held, k)
    else
      || (k !in held && Attempted(h, k, heard) && (h.releasePending || Deleted(h.task, true) in heard))
      || (&& Kept(h.(pendingDeletion := true, fencePath := true), held, k) && !h.releasePending
          && Deleted(h.task, false) in heard)
  }

  /** The claims outside `todo` have been fenced, the others are untouched. */
  predicate FencedAt(was: map<Key, Held>, held: map<Key, Held>, clock: int, todo: set<Key>, heard: Replies) {
    && held.Keys <= was.Keys
    && forall k :: k in was ==> if k in todo then Kept(was[k], held, k) else FenceOutcome(was[k], held, k, clock, heard)
  }

  lemma FenceBegins(was: map<Key, Held>, clock: int, heard: Replies)
    ensures FencedAt(was, was, clock, was.Keys, heard)
  {}

  lemma FenceKeeps(was: map<Key, Held>, held: map<Key, Held>, clock: int, todo: set<Key>, k: Key, heard: Replies)
    requires FencedAt(was, held, clock, todo, heard) && k in todo && k in was
    ensures k in held && held[k] == was[k]
  {}

  lemma FenceOne(
    was: map<Key, Held>, mid: map<Key, Held>, held: map<Key, Held>, clock: int, todo: set<Key>, k: Key,
    heard: Replies, more: Replies)
    requires FencedAt(was, mid, clock, todo, heard) && k in todo && k in was && heard <= more
    requires OnlyAt(mid, held, k) && FenceOutcome(was[k], held, k, clock, more)
    ensures FencedAt(was, held, clock, todo - {k}, more)
  {
    forall j | j in was && j != k && !(j in todo) ensures FenceOutcome(was[j], held, j, clock, more) {
      assert FenceOutcome(was[j], mid, j, clock, heard);
    }
  }

  lemma FencedAtAges(was: map<Key, Held>, held: map<Key, Held>, clock: int, heard: Replies)
    requires FencedAt(was, held, clock, {}, heard)
    ensures Unfenced(held, clock) && Ages(was, held) && KeepsFlags(was, held) && KeepsTerms(was, held)
  {
    forall k | k in held ensures k in was && FenceOutcome(was[k], held, k, clock, heard) {
      assert k in held.Keys;
    }
  }

  // ---- what each phase of a tick does to a claim ----

  datatype Phase = Deletions | Releases | Holds(now: int) | JoblessPass(now: int) | Recheck

  const JOBLESS_PASS_BUDGET := 10

  /** Whether an instant, or never, is before another. */
  predicate Older(a: Option<int>, b: Option<int>) { b.Some? && (a.None? || a.value < b.value) }

  predicate JoblessDue(h: Held, now: int) {
    JoblessEligible(h) && (h.lastJoblessCheckAt.None? || now - h.lastJoblessCheckAt.value >= JOBLESS_CHECK_INTERVAL)
  }

  function DueKeys(held: map<Key, Held>, now: int): set<Key> { set k | k in held && JoblessDue(held[k], now) }

  /** What a phase does to a claim that was h when the phase began. */
  predicate Outcome(phase: Phase, h: Held, held: map<Key, Held>, k: Key, heard: Replies) {
    match phase
    case Deletions =>
      if !h.pendingDeletion then Kept(h, held, k)
      else
        || (Kept(h, held, k) && Deleted(h.task, false) in heard)
        || (k !in held && Deleted(h.task, true) in heard && (h.fencePath ==> Attempted(h, k, heard)))
    case Releases =>
      if !h.releasePending then Kept(h, held, k)
      else (Kept(h, held, k) && Stuck(h, k, heard)) || (k !in held && LetGo(h, k, heard))
    case Holds(now) =>
      if h.holdUntil.None? || now < h.holdUntil.value then Kept(h, held, k) else Settles(h, held, k, heard)
    case Recheck =>
      if !h.needsRunningCheck then Kept(h, held, k)
      else
        || (Kept(h, held, k) && Asked(h.task, Unknown) in heard)
        || (Kept(h.(needsRunningCheck := false), held, k) && Asked(h.task, Running) in heard)
        || (Asked(h.task, NotRunning) in heard && EndOfRelease(h, held, k, heard))
    case JoblessPass(now) =>
      if h.pendingDeletion || h.releasePending || h.needsRunningCheck || h.holdUntil.Some?
         || (h.lastJoblessCheckAt.Some? && now < h.lastJoblessCheckAt.value + 60)
      then Kept(h, held, k)
      else
        var g := h.(lastJoblessCheckAt := Some(now));
        var since := if h.joblessSince.Some? then h.joblessSince.value else now;
        var idle := g.(joblessSince := Some(since));
        || (Kept(g, held, k) && Asked(h.task, Unknown) in heard)
        || (Kept(g.(joblessSince := None), held, k) && Asked(h.task, Running) in heard)
        || (&& Asked(h.task, NotRunning) in heard
            && (if now < since + 300 then Kept(idle, held, k)
                else EndOfRelease(idle, held, k, heard)))
  }

  /** The phase is over for the claims outside `todo` and has not touched the others. */
  predicate Passed(phase: Phase, was: map<Key, Held>, held: map<Key, Held>, todo: set<Key>, heard: Replies) {
    && held.Keys <= was.Keys
    && forall k :: k in was ==> if k in todo then Kept(was[k], held, k) else Outcome(phase, was[k], held, k, heard)
  }

  lemma PassBegins(phase: Phase, was: map<Key, Held>, heard: Replies)
    ensures Passed(phase, was, was, was.Keys, heard)
  {}

  lemma JoblessPassBegins(was: map<Key, Held>, now: int, heard: Replies)
    ensures Passed(JoblessPass(now), was, was, DueKeys(was, now), heard)
  {}

  lemma PassKeeps(phase: Phase, was: map<Key, Held>, held: map<Key, Held>, todo: set<Key>, k: Key, heard: Replies)
    requires Passed(phase, was, held, todo, heard) && k in todo && k in was
    ensures k in held && held[k] == was[k]
  {}

  /** An outcome stands when the claim is left alone and more is heard. */
  lemma OutcomeStands(phase: Phase, h: Held, mid: map<Key, Held>, held: map<Key, Held>, k: Key, heard: Replies, more: Replies)
    requires Outcome(phase, h, mid, k, heard) && heard <= more
    requires (k in mid <==> k in held) && (k in held ==> held[k] == mid[k])
    ensures Outcome(phase, h, held, k, more)
  {}

  /** Handling one more claim, and only it, carries the phase on. */
  lemma PassOne(
    phase: Phase, was: map<Key, Held>, mid: map<Key, Held>, held: map<Key, Held>, todo: set<Key>, k: Key,
    heard: Replies, more: Replies)
    requires Passed(phase, was, mid, todo, heard) && k in todo && k in was && heard <= more
    requires OnlyAt(mid, held, k) && Outcome(phase, was[k], held, k, more)
    ensures Passed(phase, was, held, todo - {k}, more)
  {
    hide Outcome;
    forall j | j in was && j != k && !(j in todo) ensures Outcome(phase, was[j], held, j, more) {
      OutcomeStands(phase, was[j], mid, held, j, heard, more);
    }
  }

  lemma PassHeardMore(phase: Phase, was: map<Key, Held>, held: map<Key, Held>, todo: set<Key>, more: Replies)
    requires exists heard: Replies :: heard <= more && Passed(phase, was, held, todo, heard)
    ensures Passed(phase, was, held, todo, more)
  {
    hide Outcome;
    var heard: Replies :| heard <= more && Passed(phase, was, held, todo, heard);
    forall k | k in was && k !in todo ensures Outcome(phase, was[k], held, k, more) {
      OutcomeStands(phase, was[k], held, held, k, heard, more);
    }
  }

  lemma JoblessCause(l: Local, k: Key, now: int)
    requires k in l.held && k in l.seen && JoblessEligible(l.held[k]) && k in l.idle && l.idle[k] == now
    requires l.held[k].joblessSince.Some? && now - l.held[k].joblessSince.value >= JOBLESS_GRACE
    ensures CauseHolds(l, k, Jobless(now))
  {}

  lemma JoblessOutcome(h: Held, held: map<Key, Held>, k: Key, now: int, answer: Answer, heard: Replies)
    requires JoblessDue(h, now) && Asked(h.task, answer) in heard
    requires var g := h.(lastJoblessCheckAt := Some(now));
             var after := g.(joblessSince := JoblessSince(h, now, answer.Running?));
             if answer.Unknown? then Kept(g, held, k)
             else if answer.Running? || now - after.joblessSince.value < JOBLESS_GRACE then Kept(after, held, k)
             else EndOfRelease(after, held, k, heard)
    ensures Outcome(JoblessPass(now), h, held, k, heard)
  {}

  lemma OutcomeAges(phase: Phase, h: Held, held: map<Key, Held>, k: Key, heard: Replies)
    requires Outcome(phase, h, held, k, heard) && k in held
    ensures Aged(h, held[k]) && SameTerms(h, held[k]) && (phase != Recheck ==> SameFlags(h, held[k]))
  {
    hide Stuck, LetGo, MayRun;
  }

  lemma PassedAges(phase: Phase, was: map<Key, Held>, held: map<Key, Held>, todo: set<Key>, heard: Replies)
    requires Passed(phase, was, held, todo, heard)
    ensures Ages(was, held) && KeepsTerms(was, held) && (phase != Recheck ==> KeepsFlags(was, held))
  {
    hide Outcome;
    forall k | k in held
      ensures k in was && Aged(was[k], held[k]) && SameTerms(was[k], held[k])
      ensures phase != Recheck ==> SameFlags(was[k], held[k])
    {
      assert k in held.Keys;
      if k !in todo { OutcomeAges(phase, was[k], held, k, heard); }
    }
  }

  /** No claim was checked while an eligible one with a strictly older check was not. */
  ghost predicate Fair(was: map<Key, Held>, checked: set<Key>, now: int) {
    && checked <= DueKeys(was, now)
    && forall a, b ::
      a in checked && b in was && JoblessEligible(was[b]) && was[a].lastJoblessCheckAt.Some?
      && (was[b].lastJoblessCheckAt.None? || was[b].lastJoblessCheckAt.value < was[a].lastJoblessCheckAt.value)
      ==> b in checked
  }

  /** Every due claim was checked, or the context was done, or the budget was spent. */
  ghost predicate Enough(was: map<Key, Held>, checked: set<Key>, now: int, heard: Replies) {
    || checked == DueKeys(was, now) || CtxDone in heard
    || exists t :: ClockRead(t) in heard && t >= now + 10
  }

  lemma FairCheck(was: map<Key, Held>, checked: set<Key>, todo: set<Key>, now: int)
    requires todo + checked == DueKeys(was, now)
    requires forall a, b :: a in checked && b in todo ==> !Older(was[b].lastJoblessCheckAt, was[a].lastJoblessCheckAt)
    ensures Fair(was, checked, now)
  {
    forall a, b | a in checked && b in was && JoblessEligible(was[b])
                  && Older(was[b].lastJoblessCheckAt, was[a].lastJoblessCheckAt)
      ensures b in checked
    {
      assert b in DueKeys(was, now);
    }
  }

  // ---- renewals ----

  /** What became of one claim's renewal. */
  datatype Renewal = Done | Recovered | NotRenewed | Gone

  ghost predicate RenewTried(k: Key, heard: Replies) {
    RenewSent(k, RenewFailed) in heard || RenewSent(k, LeaseLost) in heard || exists rec :: RenewSent(k, Renewed(rec)) in heard
  }

  predicate SameLease(h: Held, g: Held) { g.token == h.token && g.lease == h.lease }

  function SecondKeys(h: Held): set<Key> { if h.second.Some? then {h.second.value.key} else {} }

  /** The renewal of the claim's second ref failed. */
  predicate SecondFailed(h: Held, heard: Replies) { h.second.Some? && RenewSent(h.second.value.key, RenewFailed) in heard }

  lemma RenewHeardMore(k: Key, heard: Replies, more: Replies)
    requires RenewTried(k, heard) && heard <= more
    ensures RenewTried(k, more)
  {}


  /** A renewal keeps the claim's second key and asks for another try at the next tick only
      when the second ref's renewal failed. */
  predicate Rescheduled(h: Held, g: Held, heard: Replies) {
    && Aged(h, g) && g.lastRenewAt == h.lastRenewAt && SecondKeys(g) == SecondKeys(h)
    && (g.renewNextTick ==> h.renewNextTick || SecondFailed(h, heard))
  }

  /** A renewal of k, with the fences it runs: every other claim is untouched, dropped or left
      pending Job deletion.  Done means the renewed record is remembered, recovered that the
      record read back is; a claim that is gone was dropped after its Job was deleted or waits
      for that deletion. */
  ghost predicate RenewOutcome(was: map<Key, Held>, held: map<Key, Held>, k: Key, r: Renewal, heard: Replies) {
    && held.Keys <= was.Keys
    && (forall j :: j in held && j != k ==> held[j] == was[j] || (held[j].pendingDeletion && Aged(was[j], held[j])))
    && (k in held ==> Rescheduled(was[k], held[k], heard))
    && match r
       case Done => k in held && exists rec :: RenewSent(k, Renewed(rec)) in heard && CarriesLease(held[k], rec)
       case Recovered => k in held && exists rec :: ReadBack(k, Found_(rec)) in heard && CarriesLease(held[k], rec)
       case NotRenewed => k in held
       case Gone => LostOrFenced(was, held, k, heard)
  }

  predicate LostOrFenced(was: map<Key, Held>, held: map<Key, Held>, k: Key, heard: Replies) {
    if k in held then held[k].pendingDeletion else k in was && Deleted(was[k].task, true) in heard
  }

  /** What a read after a failed renewal decides: no answer, or our record with the same token,
      is a failed renewal; our record with another one was renewed; anything else is lost. */
  ghost predicate DecidedBy(r: Renewal, k: Key, token: Token, c: Cluster, heard: Replies) {
    match r
    case Done => false
    case NotRenewed =>
      || ReadBack(k, ReadFailed) in heard
      || exists rec :: ReadBack(k, Found_(rec)) in heard && rec.holder == c && rec.token == token
    case Recovered => exists rec :: ReadBack(k, Found_(rec)) in heard && rec.holder == c && rec.token != token
    case Gone => ReadBack(k, Free_) in heard || exists rec :: ReadBack(k, Found_(rec)) in heard && rec.holder != c
  }

  lemma Decided(r: Renewal, k: Key, token: Token, c: Cluster, seen: ReadReply, heard: Replies)
    requires ReadBack(k, seen) in heard
    requires match r
             case Done => false
             case NotRenewed => seen.ReadFailed? || (seen.Found_? && seen.rec.holder == c && seen.rec.token == token)
             case Recovered => seen.Found_? && seen.rec.holder == c && seen.rec.token != token
             case Gone => seen.Free_? || (seen.Found_? && seen.rec.holder != c)
    ensures DecidedBy(r, k, token, c, heard)
  {}

  /** At some reading the claim's lease was within seventy seconds of its end. */
  ghost predicate FencedOut(h: Held, heard: Replies) { exists clock :: ClockRead(clock) in heard && clock > h.lease - 70 }

  /** What a primary renewal was decided by: the server's answer to it or, when there was none,
      a fence or a fresh read. */
  ghost predicate PrimaryDecided(r: Renewal, h: Held, k: Key, c: Cluster, heard: Replies) {
    || (r.Done? && exists rec :: RenewSent(k, Renewed(rec)) in heard)
    || (r.Gone? && RenewSent(k, LeaseLost) in heard)
    || (RenewSent(k, RenewFailed) in heard && (DecidedBy(r, k, h.token, c, heard) || (r.Gone? && FencedOut(h, heard))))
  }

  /** What the renewal of a claim's second ref does, by its reply. */
  ghost predicate SecondOutcome(was: map<Key, Held>, held: map<Key, Held>, k: Key, reply: RenewReply, heard: Replies)
    requires k in was && was[k].second.Some?
  {
    var ref := was[k].second.value;
    && RenewSent(ref.key, reply) in heard
    && match reply
       case Renewed(rec) => Kept(was[k].(second := Some(Ref(ref.key, rec.token))), held, k)
       case RenewFailed => Kept(was[k].(renewNextTick := true), held, k)
       case LeaseLost =>
         && LostOrFenced(was, held, k, heard)
         && (k in held ==> held[k] == was[k].(pendingDeletion := true, fencePath := false))
  }

  /** The three ways a second renewal ends. */
  lemma SecondOutcomes(was: map<Key, Held>, held: map<Key, Held>, k: Key, reply: RenewReply, heard: Replies)
    requires k in was && was[k].second.Some? && RenewSent(was[k].second.value.key, reply) in heard
    requires match reply
             case Renewed(rec) => held == was[k := was[k].(second := Some(Ref(was[k].second.value.key, rec.token)))]
             case RenewFailed => held == was[k := was[k].(renewNextTick := true)]
             case LeaseLost =>
               && LostOrFenced(was, held, k, heard)
               && (held == was - {k} || held == was[k := was[k].(pendingDeletion := true, fencePath := false)])
    ensures OnlyAt(was, held, k) && SecondOutcome(was, held, k, reply, heard)
  {
    hide LostOrFenced;
  }

  /** What the second renewal leaves of the primary's outcome. */
  lemma RenewTwice(
    was: map<Key, Held>, mid: map<Key, Held>, held: map<Key, Held>, k: Key, r: Renewal, reply: RenewReply,
    heard: Replies, more: Replies)
    requires RenewOutcome(was, mid, k, r, heard) && !r.Gone? && heard <= more && k in mid && mid[k].second.Some?
    requires OnlyAt(mid, held, k) && SecondOutcome(mid, held, k, reply, more)
    ensures RenewOutcome(was, held, k, if reply.LeaseLost? then Gone else if reply.RenewFailed? then NotRenewed else r, more)
    ensures RenewTried(mid[k].second.value.key, more) && (!reply.LeaseLost? ==> k in held)
  {
    hide RenewOutcome, LostOrFenced;
    assert k in held && reply.LeaseLost? ==> held[k].pendingDeletion by {
      if k in held && reply.LeaseLost? { assert held[k] == mid[k].(pendingDeletion := true, fencePath := false); }
    }
    RenewAgain(was, mid, held, k, r, heard, more);
  }

  lemma NewSecondOk(c: Cluster, h: Held, token: Token)
    requires h.second.Some? && token.holder == c && token.key == h.second.value.key
    ensures SecondOk(c, h.(second := Some(Ref(h.second.value.key, token))))
  {}

  lemma SecondIsOther(held: map<Key, Held>, k: Key)
    requires SecondsApart(held) && k in held && held[k].second.Some?
    ensures held[k].second.value.key != k && held[k].second.value.key !in held
  {}

  lemma NothingRenewed(held: map<Key, Held>, k: Key, heard: Replies)
    requires k in held
    ensures RenewOutcome(held, held, k, NotRenewed, heard)
  {}

  /** The second ref's renewal carries the primary's outcome on. */
  lemma RenewAgain(
    was: map<Key, Held>, mid: map<Key, Held>, held: map<Key, Held>, k: Key, r: Renewal, heard: Replies, more: Replies)
    requires RenewOutcome(was, mid, k, r, heard) && !r.Gone? && heard <= more
    requires OnlyAt(mid, held, k)
    requires k in held ==> Rescheduled(mid[k], held[k], more)
    requires k in held && !held[k].pendingDeletion ==> held[k].token == mid[k].token && held[k].lease == mid[k].lease
    ensures k in held && held[k].token == mid[k].token && held[k].lease == mid[k].lease ==> RenewOutcome(was, held, k, r, more)
    ensures k in held ==> RenewOutcome(was, held, k, NotRenewed, more)
    ensures LostOrFenced(mid, held, k, more) ==> RenewOutcome(was, held, k, Gone, more)
  {}

  /** A fence is a renewal of k that did not come about. */
  lemma FenceIsRenewOutcome(was: map<Key, Held>, held: map<Key, Held>, k: Key, clock: int, heard: Replies)
    requires FencedAt(was, held, clock, {}, heard) && k in was && !was[k].releasePending
    ensures RenewOutcome(was, held, k, if k in held then NotRenewed else Gone, heard)
    ensures k in held ==> held[k].second == was[k].second && !held[k].releasePending && SameLease(was[k], held[k])
    ensures k !in held && ClockRead(clock) in heard ==> FencedOut(was[k], heard)
  {
    forall j | j in held ensures j in was && FenceOutcome(was[j], held, j, clock, heard) { assert j in held.Keys; }
  }

  /** Another change of k alone that ages it carries the outcome on. */
  lemma RenewOutcomeAt(
    was: map<Key, Held>, mid: map<Key, Held>, held: map<Key, Held>, k: Key, r: Renewal, heard: Replies, more: Replies)
    requires RenewOutcome(was, mid, k, NotRenewed, heard) && OnlyAt(mid, held, k) && heard <= more
    requires k in held ==> Rescheduled(mid[k], held[k], more)
    requires match r
             case Done => k in held && exists rec :: RenewSent(k, Renewed(rec)) in more && CarriesLease(held[k], rec)
             case Recovered => k in held && exists rec :: ReadBack(k, Found_(rec)) in more && CarriesLease(held[k], rec)
             case NotRenewed => k in held
             case Gone => LostOrFenced(mid, held, k, more)
    ensures RenewOutcome(was, held, k, r, more)
  {}

  /** Nothing but more replies. */
  lemma RenewStays(was: map<Key, Held>, held: map<Key, Held>, k: Key, heard: Replies, more: Replies)
    requires RenewOutcome(was, held, k, NotRenewed, heard) && heard <= more
    ensures RenewOutcome(was, held, k, NotRenewed, more)
  {
    RenewOutcomeAt(was, held, held, k, NotRenewed, heard, more);
  }

  /** The claim takes over a record the server renewed, or a read showed. */
  lemma RenewTakes(
    was: map<Key, Held>, mid: map<Key, Held>, held: map<Key, Held>, k: Key, rec: Rec, r: Renewal, heard: Replies, more: Replies)
    requires RenewOutcome(was, mid, k, NotRenewed, heard) && heard <= more && k in mid
    requires held == mid[k := mid[k].(token := rec.token, lease := Until(rec))] && Aged(mid[k], held[k])
    requires (r.Done? && RenewSent(k, Renewed(rec)) in more) || (r.Recovered? && ReadBack(k, Found_(rec)) in more)
    ensures RenewOutcome(was, held, k, r, more)
  {
    RenewOutcomeAt(was, mid, held, k, r, heard, more);
  }

  /** The claim is lost. */
  lemma RenewLoses(was: map<Key, Held>, mid: map<Key, Held>, held: map<Key, Held>, k: Key, heard: Replies, more: Replies)
    requires RenewOutcome(was, mid, k, NotRenewed, heard) && heard <= more && k in mid && LostOrFenced(mid, held, k, more)
    requires held == mid - {k} || held == mid[k := mid[k].(pendingDeletion := true, fencePath := false)]
    ensures RenewOutcome(was, held, k, Gone, more)
  {
    RenewOutcomeAt(was, mid, held, k, Gone, heard, more);
  }

  predicate StillRenewed(h: Held) { !h.pendingDeletion && !h.releasePending }

  /** A renewal is owed a minute after the last one, or when the last one asked for it. */
  predicate Owed(h: Held, clock: int) { clock >= h.lastRenewAt + 60 || h.renewNextTick }

  /** What a claim still renewed looks like after its turn at reading `turn`: a renewal was
      sent if one was owed, none is owed by time alone any more, and only a failure on the
      second ref asks for another at the next tick. */
  ghost predicate RenewRule(h: Held, g: Held, k: Key, turn: int, heard: Replies) {
    && ClockRead(turn) in heard && turn < g.lastRenewAt + 60
    && (if Owed(h, turn)
        then RenewTried(k, heard) && g.lastRenewAt == turn && (g.renewNextTick ==> SecondFailed(h, heard))
        else g.lastRenewAt == h.lastRenewAt && !g.renewNextTick && SameTerms(h, g))
  }

  /** The claim's turn in the renew pass is over and nothing but fences touched the others. */
  ghost predicate TurnTaken(was: map<Key, Held>, held: map<Key, Held>, k: Key, now: int, heard: Replies)
    requires k in was
  {
    && held.Keys <= was.Keys
    && (forall j :: j in held && j != k ==> held[j] == was[j] || (held[j].pendingDeletion && Aged(was[j], held[j])))
    && (k in held ==> Aged(was[k], held[k]))
    && (k in held && StillRenewed(held[k]) ==> StillRenewed(was[k]) && RenewRule(was[k], held[k], k, now, heard))
  }

  /** In that turn renewals went out only if one was owed, and only for the claim's own refs. */
  predicate TurnSent(h: Held, k: Key, now: int, from: set<Key>, renewed: set<Key>) {
    renewed == from || (StillRenewed(h) && Owed(h, now) && renewed <= from + {k} + SecondKeys(h))
  }

  lemma TurnSkipped(held: map<Key, Held>, k: Key, now: int, heard: Replies)
    requires k in held && (StillRenewed(held[k]) ==> !Owed(held[k], now) && ClockRead(now) in heard)
    ensures TurnTaken(held, held, k, now, heard)
  {}

  lemma TurnRenewed(
    was: map<Key, Held>, mid: map<Key, Held>, held: map<Key, Held>, k: Key, now: int, r: Renewal, fence: int,
    heard: Replies, more: Replies)
    requires k in was && RenewOutcome(was[k := was[k].(lastRenewAt := now, renewNextTick := false)], mid, k, r, heard)
    requires FencedAt(mid, held, fence, {}, more) && heard <= more && RenewTried(k, more) && ClockRead(now) in more
    requires StillRenewed(was[k]) && Owed(was[k], now)
    ensures TurnTaken(was, held, k, now, more)
  {
    hide RenewTried, LostOrFenced, FenceOutcome, Rescheduled, RenewRule, Owed, CarriesLease;
    forall j | j in held ensures j in mid && j in was && FenceOutcome(mid[j], held, j, fence, more) {
      assert j in held.Keys && j in mid.Keys;
    }
    forall j | j in held ensures held[j] == mid[j] || held[j] == mid[j].(pendingDeletion := true, fencePath := true) {
      FenceLeaves(mid[j], held, j, fence, more);
    }
    if k in held {
      RenewedByRule(was[k], mid[k], k, now, heard, more);
    }
  }

  lemma FenceLeaves(h: Held, held: map<Key, Held>, k: Key, clock: int, heard: Replies)
    requires FenceOutcome(h, held, k, clock, heard) && k in held
    ensures held[k] == h || held[k] == h.(pendingDeletion := true, fencePath := true)
  {}

  lemma RenewedByRule(h: Held, g: Held, k: Key, now: int, heard: Replies, more: Replies)
    requires Rescheduled(h.(lastRenewAt := now, renewNextTick := false), g, heard) && heard <= more
    requires Owed(h, now) && RenewTried(k, more) && ClockRead(now) in more
    ensures RenewRule(h, g, k, now, more) && Aged(h, g)
  {}

  /** The renew pass is over for the claims outside `todo`. */
  ghost predicate RenewedAll(was: map<Key, Held>, held: map<Key, Held>, turns: map<Key, int>, todo: set<Key>, heard: Replies) {
    && held.Keys <= was.Keys
    && (forall k :: k in held ==> Aged(was[k], held[k]))
    && (forall k :: k in held && k in todo && StillRenewed(held[k]) ==> held[k] == was[k])
    && (forall k :: k in held && k !in todo && StillRenewed(held[k]) ==>
          k in turns && RenewRule(was[k], held[k], k, turns[k], heard))
  }

  /** Every renewal of the pass went to a ref of a claim, and to a claim's own key only after
      a turn in which it was owed. */
  ghost predicate SentAll(was: map<Key, Held>, turns: map<Key, int>, todo: set<Key>, from: set<Key>, renewed: set<Key>) {
    forall q :: q in renewed && q !in from ==>
      if q in was then q !in todo && q in turns && StillRenewed(was[q]) && Owed(was[q], turns[q])
      else exists k :: k in was && q in SecondKeys(was[k])
  }

  lemma RenewBegins(held: map<Key, Held>, heard: Replies, renewed: set<Key>)
    ensures RenewedAll(held, held, map[], held.Keys, heard)
    ensures SentAll(held, map[], held.Keys, renewed, renewed)
  {}

  lemma RuleStands(h: Held, g: Held, k: Key, turn: int, heard: Replies, more: Replies)
    requires RenewRule(h, g, k, turn, heard) && heard <= more
    ensures RenewRule(h, g, k, turn, more)
  {}

  lemma RenewOne(
    was: map<Key, Held>, mid: map<Key, Held>, held: map<Key, Held>, turns: map<Key, int>, todo: set<Key>, k: Key, now: int,
    heard: Replies, more: Replies)
    requires RenewedAll(was, mid, turns, todo, heard) && k in todo && heard <= more
    requires if k in mid then TurnTaken(mid, held, k, now, more) else held == mid
    ensures RenewedAll(was, held, turns[k := now], todo - {k}, more)
  {
    hide RenewRule, Owed;
    forall j | j in held ensures j in mid && Aged(mid[j], held[j]) { assert j in held.Keys; }
    forall j | j in held && j !in todo - {k} && StillRenewed(held[j])
      ensures j in turns[k := now] && RenewRule(was[j], held[j], j, turns[k := now][j], more)
    {
      if j != k { RuleStands(was[j], held[j], j, turns[j], heard, more); }
    }
  }

  lemma SentOne(
    was: map<Key, Held>, mid: map<Key, Held>, turns: map<Key, int>, todo: set<Key>, k: Key, now: int, heard: Replies,
    from: set<Key>, then_: set<Key>, renewed: set<Key>)
    requires RenewedAll(was, mid, turns, todo, heard) && SentAll(was, turns, todo, from, then_)
    requires k in todo && k in mid && SecondsApart(was) && TurnSent(mid[k], k, now, then_, renewed)
    ensures SentAll(was, turns[k := now], todo - {k}, from, renewed)
  {
    hide RenewRule, Owed;
    if renewed != then_ {
      assert k in mid.Keys && mid[k] == was[k];
      assert SecondKeys(was[k]) !! was.Keys;
    }
  }

  lemma NoneSent(was: map<Key, Held>, turns: map<Key, int>, todo: set<Key>, k: Key, now: int, from: set<Key>, renewed: set<Key>)
    requires SentAll(was, turns, todo, from, renewed) && k in todo
    ensures SentAll(was, turns[k := now], todo - {k}, from, renewed)
  {
    hide Owed;
  }

  lemma RenewedAges(was: map<Key, Held>, held: map<Key, Held>, turns: map<Key, int>, heard: Replies)
    requires RenewedAll(was, held, turns, {}, heard)
    ensures Ages(was, held)
  {
    forall k | k in held ensures k in was { assert k in held.Keys; }
  }

  /** What a tick owes the claims by way of renewals, from the state it began with. */
  ghost predicate RenewalsKept(
    was: map<Key, Held>, held: map<Key, Held>, turns: map<Key, int>, heard: Replies, renewed: set<Key>)
  {
    && (forall k :: k in held && !held[k].pendingDeletion && !held[k].releasePending ==>
          k in was && k in turns && RenewRule(was[k], held[k], k, turns[k], heard))
    && (forall k :: k in was && k in renewed ==> k in turns && Owed(was[k], turns[k]))
  }

  lemma RuleFrom(o: Held, h: Held, g: Held, k: Key, turn: int, heard: Replies)
    requires RenewRule(h, g, k, turn, heard) && SameTerms(o, h)
    ensures RenewRule(o, g, k, turn, heard)
  {}

  lemma RenewalsWereKept(
    was: map<Key, Held>, mid: map<Key, Held>, held: map<Key, Held>, turns: map<Key, int>, heard: Replies, more: Replies,
    renewed: set<Key>)
    requires KeepsTerms(was, mid) && SecondsApart(was) && heard <= more
    requires RenewedAll(mid, held, turns, {}, heard) && SentAll(mid, turns, {}, {}, renewed)
    ensures RenewalsKept(was, held, turns, more, renewed)
  {
    hide RenewRule;
    forall k | k in held && StillRenewed(held[k])
      ensures k in was && k in turns && RenewRule(was[k], held[k], k, turns[k], more)
    {
      assert k in held.Keys && k in mid;
      RuleStands(mid[k], held[k], k, turns[k], heard, more);
      RuleFrom(was[k], mid[k], held[k], k, turns[k], more);
    }
  }

  // ---- a whole tick ----

  lemma AgesTrans(a: map<Key, Held>, b: map<Key, Held>, c: map<Key, Held>)
    requires Ages(a, b) && Ages(b, c)
    ensures Ages(a, c)
  {}

  /** A fence's outcome survives everything that only ages the claims. */
  lemma AgesUnfenced(was: map<Key, Held>, held: map<Key, Held>, clock: int)
    requires Unfenced(was, clock) && Ages(was, held)
    ensures Unfenced(held, clock)
  {}

  lemma MarginOf(held: map<Key, Held>, clock: int)
    requires Unfenced(held, clock)
    ensures forall k :: k in held && !held[k].pendingDeletion ==> held[k].lease >= clock + 70
  {}

  /** A pending release and an open running check are not forgotten. */
  predicate SameFlags(h: Held, g: Held) {
    (h.releasePending ==> g.releasePending) && (h.needsRunningCheck ==> g.needsRunningCheck)
  }

  predicate KeepsFlags(was: map<Key, Held>, held: map<Key, Held>) {
    forall k :: k in held ==> k in was && SameFlags(was[k], held[k])
  }

  /** The lease, the refs and the renewal schedule are untouched. */
  predicate SameTerms(h: Held, g: Held) {
    SameLease(h, g) && g.second == h.second && g.lastRenewAt == h.lastRenewAt && g.renewNextTick == h.renewNextTick
  }

  predicate KeepsTerms(was: map<Key, Held>, held: map<Key, Held>) {
    forall k :: k in held ==> k in was && SameTerms(was[k], held[k])
  }

  lemma KeepsTermsTrans(a: map<Key, Held>, b: map<Key, Held>, c: map<Key, Held>)
    requires KeepsTerms(a, b) && KeepsTerms(b, c)
    ensures KeepsTerms(a, c)
  {}

  predicate AskedAbout(task: TaskId, heard: Replies) { Asked(task, NotRunning) in heard || MayRun(task, heard) }

  /** What a tick owed a claim that it still holds was tried: a pending Job deletion, a pending
      release, the release after a hold that was over at reading `now`, an open running check. */
  predicate Attended(h: Held, k: Key, now: int, heard: Replies) {
    && (h.pendingDeletion ==> Deleted(h.task, false) in heard)
    && (h.releasePending ==> ReleaseTried(k, heard))
    && (h.holdUntil.Some? && now >= h.holdUntil.value ==> AskedAbout(h.task, heard))
    && (h.needsRunningCheck ==> AskedAbout(h.task, heard))
  }

  predicate AllAttended(was: map<Key, Held>, held: map<Key, Held>, now: int, heard: Replies) {
    forall k :: k in held ==> k in was && Attended(was[k], k, now, heard)
  }

  /** The release passes tried the pending releases, asked about every hold that was over and
      repeated the open running checks. */
  predicate ReleasesAttended(was: map<Key, Held>, held: map<Key, Held>, now: int, heard: Replies) {
    forall k :: k in held ==>
      && k in was
      && (was[k].releasePending ==> ReleaseTried(k, heard))
      && (was[k].holdUntil.Some? && now >= was[k].holdUntil.value ==> AskedAbout(was[k].task, heard))
      && (was[k].needsRunningCheck ==> AskedAbout(was[k].task, heard))
  }

  lemma ReleasesWereAttended(
    was: map<Key, Held>, a: map<Key, Held>, b: map<Key, Held>, c: map<Key, Held>, held: map<Key, Held>, now: int,
    heardA: Replies, heardB: Replies, heard: Replies)
    requires Passed(Releases, was, a, {}, heardA) && Passed(Holds(now), a, b, {}, heardB) && Passed(Recheck, c, held, {}, heard)
    requires Ages(was, a) && Ages(a, b) && Ages(b, c) && Ages(c, held)
    requires KeepsFlags(was, a) && KeepsFlags(a, b) && KeepsFlags(b, c)
    requires heardA <= heardB <= heard
    ensures ReleasesAttended(was, held, now, heard)
  {
    forall k | k in held
      ensures k in was
      ensures was[k].releasePending ==> ReleaseTried(k, heard)
      ensures was[k].holdUntil.Some? && now >= was[k].holdUntil.value ==> AskedAbout(was[k].task, heard)
      ensures was[k].needsRunningCheck ==> AskedAbout(was[k].task, heard)
    {
      assert k in c && k in b && k in a && k in was;
      assert Outcome(Releases, was[k], a, k, heardA);
      assert Outcome(Holds(now), a[k], b, k, heardB);
      assert Outcome(Recheck, c[k], held, k, heard);
    }
  }

  lemma AllWereAttended(
    was: map<Key, Held>, a: map<Key, Held>, b: map<Key, Held>, c: map<Key, Held>, held: map<Key, Held>, now: int,
    heardA: Replies, heardC: Replies, heard: Replies)
    requires Passed(Deletions, was, a, {}, heardA) && ReleasesAttended(b, c, now, heardC)
    requires Ages(was, a) && Ages(a, b) && Ages(b, c) && Ages(c, held)
    requires KeepsFlags(was, a) && KeepsFlags(a, b) && heardA <= heardC <= heard
    ensures AllAttended(was, held, now, heard)
  {
    forall k | k in held ensures k in was && Attended(was[k], k, now, heard) {
      assert k in c && k in b && k in a && k in was;
      assert Outcome(Deletions, was[k], a, k, heardA);
    }
  }
}
