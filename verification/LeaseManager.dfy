/**
 The lease manager of one cluster.  Its methods follow the program's; each call to the
 outside is a call of the world, each change of a held claim is a protocol step taken
 at the same time.
 */
module LeaseManagers {
  import opened Wrappers
  import opened LeaseProtocol
  import opened LeaseInvariants
  import opened ClaimWorlds
  import opened RecoveryGroups
  import opened LeaseOutcomes
  import ClaimKeys

  class LeaseManager {
    const cluster: Cluster
    const world: ClaimWorld
    var held: map<Key, Held>

    ghost predicate Valid() reads this, world {
      world.Ready(cluster) && Mine().held == held && SecondsApart(held)
    }

    function Mine(): Local
      requires cluster in world.w.local
      reads world
    {
      world.w.local[cluster]
    }

    constructor (cluster: Cluster, world: ClaimWorld)
      requires world.Ready(cluster) && world.w.local[cluster].held == map[]
      ensures Valid() && held == map[] && this.cluster == cluster && this.world == world
    {
      this.cluster, this.world, this.held := cluster, world, map[];
    }

    /** The tokens this manager remembers were issued to it. */
    lemma KnowsTokens()
      requires Valid()
      ensures forall k :: k in held ==> held[k].token.holder == cluster && SecondOk(cluster, held[k])
    {
      RunKeepsInv(world.skew, world.run, |world.run.steps|);
      assert LocalOk(world.skew, world.w.server, cluster, Mine());
      assert forall k :: k in held ==> ClaimOk(world.w.server, cluster, Mine(), k);
    }

    /** A lease a reply showed for a held claim is no earlier than the remembered one. */
    lemma KnowsLater(k: Key)
      requires Valid() && k in held
      ensures LearntLater(Mine(), k)
    {
      RunKeepsInv(world.skew, world.run, |world.run.steps|);
      assert LocalOk(world.skew, world.w.server, cluster, Mine());
      assert ClaimOk(world.w.server, cluster, Mine(), k);
    }

    // ---- deadlines ----

    /** The deadline of a tick's request: the request timeout, capped at the earliest
        fence point of the claims that still have one. */
    method RequestDeadline(now: int) returns (deadline: int)
      ensures Bounded(held, By(now, deadline))
      ensures deadline == now + 30
           || exists k :: k in held && !held[k].pendingDeletion && deadline == held[k].lease - 60
    {
      deadline := now + REQUEST_TIMEOUT;
      var todo := held.Keys;
      while todo != {}
        invariant todo <= held.Keys && deadline <= now + REQUEST_TIMEOUT
        invariant forall k :: k in held && k !in todo && !held[k].pendingDeletion ==> deadline <= FenceAt(held[k].lease)
        invariant deadline == now + REQUEST_TIMEOUT
               || exists k :: k in held && !held[k].pendingDeletion && deadline == FenceAt(held[k].lease)
      {
        var k :| k in todo;
        todo := todo - {k};
        if !held[k].pendingDeletion && FenceAt(held[k].lease) < deadline {
          deadline := FenceAt(held[k].lease);
        }
      }
    }

    method RequestContext() returns (d: Deadline)
      requires Valid()
      modifies world
      ensures Valid() && world.Moved(cluster) && Mine() == old(Mine())
      ensures d.By? && world.Allows(held, d)
    {
      var now := world.Clock(cluster);
      var t := RequestDeadline(now);
      d := By(now, t);
    }

    // ---- changes of one held claim ----

    /** A held claim that owns key, as its primary or its second ref; any of them when several
        do, which only the empty key allows. */
    method FindHeld(key: Key) returns (owner: Option<Key>)
      ensures owner.None? <==> !Owned(held, key)
      ensures owner.Some? ==> OwnerOf(held, owner.value, key)
      ensures key in held ==> owner == Some(key)
    {
      if key in held {
        assert OwnerOf(held, key, key);
        return Some(key);
      }
      owner := None;
      var todo := held.Keys;
      while todo != {}
        invariant todo <= held.Keys
        invariant forall p :: p in held && p !in todo ==> !OwnerOf(held, p, key)
      {
        var p :| p in todo;
        todo := todo - {p};
        if SecondKey(held[p]) == key { return Some(p); }
      }
    }

    /** Marks a claim as about to be dropped, for a cause that holds. */
    method BeginDrop(k: Key, cause: Cause)
      requires Valid() && k in held && CauseHolds(Mine(), k, cause)
      modifies world
      ensures Valid() && world.Moved(cluster)
      ensures Mine() == old(Mine()).(releasing := old(Mine()).releasing + {k})
    {
      world.Change(cluster, LeaseProtocol.BeginDrop(k, cause));
    }

    method Drop(k: Key)
      requires Valid() && k in held && k in Mine().releasing
      modifies this`held, world
      ensures Valid() && world.Moved(cluster)
      ensures held == old(held) - {k} && Mine() == Leave(old(Mine()), k)
    {
      held := held - {k};
      world.Change(cluster, LeaseProtocol.Drop(k));
    }

    method MarkReleasePending(k: Key)
      requires Valid() && k in held && k in Mine().releasing
      modifies this`held, world
      ensures Valid() && world.Moved(cluster)
      ensures held == old(held)[k := old(held)[k].(releasePending := true)]
      ensures Mine() == old(Mine()).(held := held, releasing := old(Mine()).releasing - {k})
    {
      held := held[k := held[k].(releasePending := true)];
      world.Change(cluster, LeaseProtocol.MarkReleasePending(k));
    }

    method MarkPendingDeletion(k: Key, fence: bool)
      requires Valid() && k in held
      requires if fence then Mine().fence.Some? && FenceDue(Mine().fence.value.clock, held[k].lease) else k in Mine().refused
      modifies this`held, world
      ensures Valid() && world.Moved(cluster)
      ensures held == old(held)[k := old(held)[k].(pendingDeletion := true, fencePath := fence)]
      ensures Mine() == old(Mine()).(held := held)
    {
      held := held[k := held[k].(pendingDeletion := true, fencePath := fence)];
      world.Change(cluster, LeaseProtocol.MarkPendingDeletion(k, fence));
    }

    method Touch(k: Key, h: Held)
      requires Valid() && k in held && SameCore(held[k], h) && SecondOk(cluster, h)
      requires h.second.Some? == held[k].second.Some?
      requires h.second.Some? ==> h.second.value.key == held[k].second.value.key
      modifies this`held, world
      ensures Valid() && world.Moved(cluster)
      ensures held == old(held)[k := h] && Mine() == old(Mine()).(held := held)
    {
      held := held[k := h];
      world.Change(cluster, LeaseProtocol.Touch(k, h));
    }

    /** Takes over the token and lease a reply showed for a held claim. */
    method SetLease(k: Key, rec: Rec)
      requires Valid() && k in held && k in Mine().own && Mine().own[k] == rec
      modifies this`held, world
      ensures Valid() && world.Moved(cluster)
      ensures held == old(held)[k := old(held)[k].(token := rec.token, lease := Until(rec))]
      ensures Mine() == old(Mine()).(held := held, moved := old(Mine()).moved - {k}, own := old(Mine()).own - {k})
    {
      held := held[k := held[k].(token := rec.token, lease := Until(rec))];
      world.Change(cluster, LeaseProtocol.SetLease(k));
    }

    // ---- claim and takeover ----

    /** The operation is over: what its replies showed is forgotten. */
    method EndOperation()
      requires Valid()
      modifies world
      ensures Valid() && world.Moved(cluster) && Mine() == old(Mine()).(look := None, own := map[])
      ensures world.heard == old(world.heard)
    {
      world.Change(cluster, LeaseProtocol.EndOperation);
    }

    /** Acquires the key the operation has looked up.  A write that failed without a
        conflict may have landed, so it is read back. */
    method AcquirePrimary(k: Key, task: TaskId) returns (r: Result<Rec, Failure>)
      requires Valid() && Looking(Mine(), k) && !world.ticking && k !in held && Mine().own == map[]
      requires Mine().look.value.before.None?
            || TakeoverAllowed(Mine().look.value.clock, Mine().look.value.before.value)
      modifies world
      ensures Valid() && world.Moved(cluster) && Looking(Mine(), k)
      ensures Mine() == old(Mine()).(own := Mine().own)
      ensures r.Ok? ==> Mine().own == map[k := r.value] && Won(k, r.value, task, cluster, world.heard)
      ensures r.Err? ==> Loses(k, None, r.error, world.heard)
    {
      hide ClaimWorld.Valid, SecondsApart, TakeoverAllowed;
      AnyCallerDeadline(held);
      var reply := world.Acquire(cluster, k, task);
      if reply.Got? { return Ok(reply.rec); }
      if reply.ClaimHeld? { return Err(LeaseConflict); }
      var back := world.Read(cluster, k, Caller);
      if back.Found_? && back.rec.holder == cluster { return Ok(back.rec); }
      r := Err(OtherError);
    }

    /** Puts the acquired claim into the held map. */
    method StoreClaim(k: Key, task: TaskId, rec: Rec, second: Option<Ref>, now: int) returns (h: Held)
      requires Valid() && Looking(Mine(), k) && k in Mine().own && Mine().own[k] == rec && !Names(Mine(), k)
      requires Mine().look.value.before.None?
            || TakeoverAllowed(Mine().look.value.clock, Mine().look.value.before.value)
      requires second.Some? ==>
        && second.value.token.holder == cluster && second.value.token.key == second.value.key
        && second.value.key != k && second.value.key !in held
      modifies this`held, world
      ensures Valid() && world.Moved(cluster) && Quiet(Mine())
      ensures held == old(held)[k := h]
      ensures JustClaimed(h, task, now) && CarriesLease(h, rec) && h.second == second
    {
      h := NewClaim(task, rec, second, now);
      held := held[k := h];
      world.Change(cluster, Store(k, h));
    }

    /** Acquires the second ref, if any, and stores the claim.  It is never half-held: a
        failed second acquire releases the primary again. */
    method FinishClaim(k: Key, second: Option<Key>, task: TaskId, rec: Rec, now: int) returns (r: Result<Held, Failure>)
      requires Valid() && Looking(Mine(), k) && !world.ticking && Mine().own == map[k := rec] && Won(k, rec, task, cluster, world.heard)
      requires !Names(Mine(), k) && (second.Some? ==> !Names(Mine(), second.value))
      requires Mine().look.value.before.None?
            || TakeoverAllowed(Mine().look.value.clock, Mine().look.value.before.value)
      modifies this`held, world
      ensures Valid() && world.Moved(cluster) && Quiet(Mine())
      ensures AcquireOutcome(old(held), held, k, second, task, now, cluster, r, world.heard)
      ensures r.Err? ==> ReleaseTried(k, world.heard)
      ensures second == Some(k) ==> r.Err?
    {
      hide ClaimWorld.Valid, SecondsApart, TakeoverAllowed, Names, Bounded;
      NotNamed(Mine(), k);
      if second.None? {
        var h := StoreClaim(k, task, rec, None, now);
        assert Won(k, rec, task, cluster, world.heard);
        return Ok(h);
      }
      NotNamed(Mine(), second.value);
      KnowsOwn(k);
      AnyCallerDeadline(held);
      var reply := world.AcquireSecond(cluster, second.value, task);
      if reply.Got? {
        SameNames(old(Mine()), Mine(), k);
        var h := StoreClaim(k, task, rec, Some(Ref(second.value, reply.rec.token)), now);
        assert Won(k, rec, task, cluster, world.heard) && Acquired(second.value, Got(reply.rec)) in world.heard;
        return Ok(h);
      }
      var released := world.Release(cluster, k, rec.token, Caller);
      ReleaseWasTried(k, released, world.heard);
      EndOperation();
      r := Err(if reply.ClaimHeld? then LeaseConflict else OtherError);
    }

    /** Whether either key of a claim is already held. */
    method Conflicts(primary: Key, second: Option<Key>) returns (conflict: bool)
      requires Valid() && primary != "" && second != Some("")
      ensures !conflict <==> !Names(Mine(), primary) && (second.Some? ==> !Names(Mine(), second.value))
    {
      hide ClaimWorld.Valid, Names, SecondsApart, Owned;
      OwnedIsNamed(Mine(), primary);
      var owner := FindHeld(primary);
      if owner.Some? { return true; }
      if second.None? { return false; }
      OwnedIsNamed(Mine(), second.value);
      owner := FindHeld(second.value);
      conflict := owner.Some?;
    }

    /** Creates a claim on a free key: it is never taken from a record the read showed. */
    method ClaimPair(primary: Key, second: Option<Key>, task: TaskId) returns (r: Result<Held, Failure>, ghost now: int)
      requires Valid() && Quiet(Mine()) && !world.ticking
      modifies this`held, world
      ensures Valid() && Quiet(Mine()) && world.Went(cluster)
      ensures !Addressable(primary, second) ==> r == Err(OtherError) && held == old(held)
      ensures second == Some(primary) ==> r.Err?
      ensures Addressable(primary, second) && (old(Names(Mine(), primary)) || (second.Some? && old(Names(Mine(), second.value))))
              ==> r == Err(LeaseConflict) && held == old(held)
      ensures Addressable(primary, second) && !old(Names(Mine(), primary)) && (second.Some? ==> !old(Names(Mine(), second.value)))
              ==> CreateOutcome(old(held), held, primary, second, task, now, cluster, r, world.heard)
    {
      hide ClaimWorld.Valid, Names, SecondsApart, TakeoverAllowed, ClaimKeys.TargetFromKey, CreateOutcome;
      now := 0;
      world.Hush();
      if ClaimKeys.TargetFromKey(primary).None? || (second.Some? && ClaimKeys.TargetFromKey(second.value).None?) { return Err(OtherError), now; }
      AddressesAreNotEmpty(primary, second);
      var conflict := Conflicts(primary, second);
      if conflict { return Err(LeaseConflict), now; }
      r, now := ClaimFree(primary, second, task);
    }

    /** The read, the acquire and the store of a claim on a key nobody here holds. */
    method ClaimFree(primary: Key, second: Option<Key>, task: TaskId) returns (r: Result<Held, Failure>, ghost now: int)
      requires Valid() && Unhurried(Mine()) && !world.ticking
      requires !Names(Mine(), primary) && (second.Some? ==> !Names(Mine(), second.value))
      modifies this`held, world
      ensures Valid() && Quiet(Mine()) && world.Moved(cluster) && ClockRead(now) in world.heard
      ensures CreateOutcome(old(held), held, primary, second, task, now, cluster, r, world.heard)
      ensures second == Some(primary) ==> r.Err?
    {
      hide ClaimWorld.Valid, Names, SecondsApart, TakeoverAllowed, AcquireOutcome;
      NotNamed(Mine(), primary);
      var clock := world.Clock(cluster);
      now := clock;
      var existing := world.LookUp(cluster, primary, clock);
      if !existing.Free_? {
        EndOperation();
        assert LookedUp(primary, existing) in world.heard;
        return Err(if existing.Found_? then LeaseConflict else OtherError), now;
      }
      SameNames(old(Mine()), Mine(), primary);
      if second.Some? { SameNames(old(Mine()), Mine(), second.value); }
      r := AcquireAndFinish(primary, second, task, clock);
    }

    /** Acquires the looked-up key and finishes the claim. */
    method AcquireAndFinish(k: Key, second: Option<Key>, task: TaskId, now: int) returns (r: Result<Held, Failure>)
      requires Valid() && Looking(Mine(), k) && !world.ticking && Mine().own == map[]
      requires !Names(Mine(), k) && (second.Some? ==> !Names(Mine(), second.value))
      requires Mine().look.value.before.None?
            || TakeoverAllowed(Mine().look.value.clock, Mine().look.value.before.value)
      modifies this`held, world
      ensures Valid() && Quiet(Mine()) && world.Moved(cluster)
      ensures AcquireOutcome(old(held), held, k, second, task, now, cluster, r, world.heard)
      ensures second == Some(k) ==> r.Err?
    {
      hide ClaimWorld.Valid, Names, SecondsApart, TakeoverAllowed, Wins, Won;
      NotNamed(Mine(), k);
      var acquired := AcquirePrimary(k, task);
      if acquired.Err? {
        EndOperation();
        return Err(acquired.error);
      }
      SameNames(old(Mine()), Mine(), k);
      if second.Some? { SameNames(old(Mine()), Mine(), second.value); }
      r := FinishClaim(k, second, task, acquired.value, now);
    }

    /** Replaces an expired claim, not before the grace period has passed on this cluster's
        clock; an absent one is created.  `previous` is the task of the record that was
        replaced. */
    method TakeoverPair(primary: Key, second: Option<Key>, task: TaskId)
      returns (r: Result<Held, Failure>, previous: TaskId, ghost clock: int, ghost now: int)
      requires Valid() && Quiet(Mine()) && !world.ticking
      modifies this`held, world
      ensures Valid() && Quiet(Mine()) && world.Went(cluster)
      ensures !Addressable(primary, second) ==> r == Err(OtherError) && held == old(held)
      ensures second == Some(primary) ==> r.Err?
      ensures Addressable(primary, second) && (old(Names(Mine(), primary)) || (second.Some? && old(Names(Mine(), second.value))))
              ==> r == Err(LeaseConflict) && held == old(held)
      ensures Addressable(primary, second) && !old(Names(Mine(), primary)) && (second.Some? ==> !old(Names(Mine(), second.value)))
              ==> TakeoverOutcome(old(held), held, primary, second, task, clock, now, cluster, r, previous, world.heard)
    {
      hide ClaimWorld.Valid, Names, SecondsApart, ClaimKeys.TargetFromKey, CreateOutcome, AcquireOutcome;
      previous, clock, now := "", 0, 0;
      world.Hush();
      if ClaimKeys.TargetFromKey(primary).None? || (second.Some? && ClaimKeys.TargetFromKey(second.value).None?) { return Err(OtherError), previous, clock, now; }
      AddressesAreNotEmpty(primary, second);
      var conflict := Conflicts(primary, second);
      if conflict { return Err(LeaseConflict), previous, clock, now; }
      NotNamed(Mine(), primary);
      var reading := world.Clock(cluster);
      clock, now := reading, reading;
      var found := world.LookUp(cluster, primary, reading);
      SameNames(old(Mine()), Mine(), primary);
      if second.Some? { SameNames(old(Mine()), Mine(), second.value); }
      if found.ReadFailed? { return Err(OtherError), previous, clock, now; }
      if found.Free_? {
        r, now := ClaimFree(primary, second, task);
        return;
      }
      if !TakeoverAllowed(reading, found.rec) {
        EndOperation();
        assert LookedUp(primary, Found_(found.rec)) in world.heard;
        return Err(LeaseNotExpired), previous, clock, now;
      }
      previous := found.rec.task;
      r := AcquireAndFinish(primary, second, task, reading);
      assert LookedUp(primary, Found_(found.rec)) in world.heard;
    }

    /** What a reply showed this manager of its own records was issued to it. */
    lemma KnowsOwn(k: Key)
      requires Valid() && k in Mine().own
      ensures Mine().own[k].token.holder == cluster
    {
      RunKeepsInv(world.skew, world.run, |world.run.steps|);
      assert LocalOk(world.skew, world.w.server, cluster, Mine());
      assert OwnOk(world.w.server, cluster, Mine());
    }

    // ---- release ----

    /** The deadline of the next request of a release: the one given, or a fresh one. */
    method DeadlineFor(d: Option<Deadline>) returns (e: Deadline)
      requires Valid() && (d.Some? ==> world.Allows(held, d.value))
      modifies world
      ensures Valid() && world.Moved(cluster) && Mine() == old(Mine()) && world.Allows(held, e)
      ensures d.Some? ==> world.Allows(held, d.value)
    {
      if d.Some? { e := d.value; } else { e := RequestContext(); }
    }

    /** Releases both refs of a claim that is about to be dropped, under one deadline or a
        fresh one each.  A failure on either leaves the whole claim pending release. */
    method FinishRelease(k: Key, d: Option<Deadline>) returns (ok: bool)
      requires Valid() && k in held && k in Mine().releasing && (d.Some? ==> world.Allows(held, d.value))
      modifies this`held, world
      ensures Valid() && world.Moved(cluster)
      ensures OnlyAt(old(held), held, k) && EndOfRelease(old(held)[k], held, k, world.heard) && (ok <==> k !in held)
      ensures Mine().releasing == old(Mine()).releasing - {k} && Mine().look == old(Mine()).look
           && Mine().fence == old(Mine()).fence
    {
      hide ClaimWorld.Valid, Bounded, RefToken, SecondsApart;
      KnowsTokens();
      ok := ReleaseRefs(k, d);
      if ok { Drop(k); } else { MarkReleasePending(k); }
    }

    /** Releases both refs of a claim; false when either request failed. */
    method ReleaseRefs(k: Key, d: Option<Deadline>) returns (ok: bool)
      requires Valid() && k in held && k in Mine().releasing && (d.Some? ==> world.Allows(held, d.value))
      requires held[k].token.holder == cluster && SecondOk(cluster, held[k])
      modifies world
      ensures Valid() && world.Moved(cluster) && Mine() == old(Mine()).(own := Mine().own)
      ensures if ok then LetGo(held[k], k, world.heard) else Stuck(held[k], k, world.heard)
    {
      hide ClaimWorld.Valid, Bounded, RefToken, SecondsApart;
      var h := held[k];
      var r := ReleaseRef(k, h.token, d);
      if r.ReleaseFailed? { return false; }
      FreedBy(k, r, world.heard);
      if h.second.Some? {
        SecondIsOther(held, k);
        var q := ReleaseRef(h.second.value.key, h.second.value.token, d);
        if q.ReleaseFailed? { return false; }
        FreedBy(h.second.value.key, q, world.heard);
      }
      ok := true;
    }

    /** Releases one ref. */
    method ReleaseRef(key: Key, token: Token, d: Option<Deadline>) returns (r: ReleaseReply)
      requires Valid() && token.holder == cluster && !Live(Mine(), key) && (d.Some? ==> world.Allows(held, d.value))
      modifies world
      ensures Valid() && world.Moved(cluster) && Mine() == old(Mine()).(own := Mine().own)
      ensures ReleaseSent(key, r) in world.heard && (d.Some? ==> world.Allows(held, d.value))
    {
      hide ClaimWorld.Valid, Bounded, SecondsApart, Live;
      var e := DeadlineFor(d);
      r := world.Release(cluster, key, token, e);
    }

    /** Releases a claim unless its Job may still be running; `clock` is past its hold. */
    method ReleaseLocked(k: Key, clock: int, d: Deadline) returns (r: Result<(), Failure>)
      requires Valid() && k in held && HoldOver(held[k], clock) && world.Allows(held, d)
      modifies this`held, world
      ensures Valid() && world.Moved(cluster)
      ensures OnlyAt(old(held), held, k) && Settles(old(held)[k], held, k, world.heard)
      ensures r.Ok? ==> k !in held || Asked(old(held)[k].task, Running) in world.heard
      ensures r.Err? ==> Asked(old(held)[k].task, Unknown) in world.heard || Stuck(old(held)[k], k, world.heard)
      ensures Mine().releasing == old(Mine()).releasing - {k} || Mine().releasing == old(Mine()).releasing
      ensures Mine().look == old(Mine()).look && Mine().fence == old(Mine()).fence
    {
      hide ClaimWorld.Valid, Bounded, RefToken, HoldOver, SecondsApart, Stuck, LetGo;
      var answer := world.IsJobRunning(cluster, held[k].task);
      if answer.Unknown? { return Err(OtherError); }
      if answer.Running? { return Ok(()); }
      assert k in Mine().seen;
      BeginDrop(k, HoldEnded(clock));
      var done := FinishRelease(k, Some(d));
      assert Asked(old(held)[k].task, NotRunning) in world.heard;
      r := if done then Ok(()) else Err(OtherError);
    }

    /** Releases the claim that owns key, unless it is inside its success hold at the
        clock reading `now`. */
    method Release(key: Key) returns (r: Result<(), Failure>, ghost owner: Option<Key>, ghost now: int)
      requires Valid() && Quiet(Mine()) && !world.ticking
      modifies this`held, world
      ensures Valid() && Quiet(Mine()) && world.Went(cluster)
      ensures owner.None? <==> !Owned(old(held), key)
      ensures owner.None? ==> held == old(held) && r.Ok?
      ensures owner.Some? ==> OwnerOf(old(held), owner.value, key) && (key in old(held) ==> owner == Some(key))
      ensures owner.Some? ==> ReleaseOutcome(old(held), held, owner.value, now, world.heard)
    {
      hide ClaimWorld.Valid, Owned, Bounded, SecondsApart, Settles;
      now := 0;
      world.Hush();
      var found := FindHeld(key);
      owner := found;
      if found.None? { return Ok(()), owner, now; }
      var clock := world.Clock(cluster);
      now := clock;
      if !HoldOver(held[found.value], clock) { return Ok(()), owner, now; }
      AnyCallerDeadline(held);
      r := ReleaseLocked(found.value, clock, Caller);
    }

    /** Like Release, but the claim stays held until the grace period after completedAt
        has passed.  A hold is extended, never shortened. */
    method ReleaseAfterSuccess(key: Key, completedAt: int)
      returns (r: Result<(), Failure>, ghost owner: Option<Key>, ghost now: int)
      requires Valid() && Quiet(Mine()) && !world.ticking
      modifies this`held, world
      ensures Valid() && Quiet(Mine()) && world.Went(cluster)
      ensures owner.None? <==> !Owned(old(held), key)
      ensures owner.None? ==> held == old(held) && r.Ok?
      ensures owner.Some? ==> OwnerOf(old(held), owner.value, key) && (key in old(held) ==> owner == Some(key))
      ensures owner.Some? ==> SuccessOutcome(old(held), held, owner.value, completedAt, now, world.heard)
      ensures owner.Some? && now < completedAt + 300 ==> r.Ok?
    {
      hide ClaimWorld.Valid, Owned, Bounded, SecondsApart, Settles;
      now := 0;
      world.Hush();
      var found := FindHeld(key);
      owner := found;
      if found.None? { return Ok(()), owner, now; }
      var k := found.value;
      var clock := world.Clock(cluster);
      now := clock;
      var until := HoldEnd(completedAt, clock);
      if clock < until {
        if held[k].holdUntil.None? || held[k].holdUntil.value < until {
          SetHold(k, until);
        }
        return Ok(()), owner, now;
      }
      if !HoldOver(held[k], clock) { return Ok(()), owner, now; }
      AnyCallerDeadline(held);
      r := ReleaseLocked(k, clock, Caller);
    }

    method SetHold(k: Key, until: int)
      requires Valid() && k in held && (held[k].holdUntil.None? || held[k].holdUntil.value < until)
      requires until <= world.w.server.now + world.skew.fast + SUCCESS_GRACE
      modifies this`held, world
      ensures Valid() && world.Moved(cluster)
      ensures held == old(held)[k := old(held)[k].(holdUntil := Some(until))] && Mine() == old(Mine()).(held := held)
    {
      held := held[k := held[k].(holdUntil := Some(until))];
      world.Change(cluster, Hold(k, until));
    }

    // ---- recovery after a restart ----

    /** Adds an adopted claim, or one whose Job could not be deleted. */
    method StoreRecovered(g: Group, recs: map<Key, Rec>, h: Held, clock: int)
      requires Valid() && Quiet(Mine()) && Unheld(Mine(), recs, g) && FromGroup(h, recs, g, clock)
      requires h.pendingDeletion || (!LeaseShort(recs, g, clock) && clock >= Mine().lastFence - world.skew.slow)
      modifies this`held, world
      ensures Valid() && Quiet(Mine()) && world.Moved(cluster)
      ensures held == old(held)[g.primary := h] && Mine().own == old(Mine()).own
    {
      KnowsOwn(g.primary);
      if g.second.Some? { KnowsOwn(g.second.value); }
      held := held[g.primary := h];
      if h.pendingDeletion {
        world.Change(cluster, StorePending(g.primary, h));
      } else {
        world.Change(cluster, Adopt(g.primary, h, clock));
      }
    }

    /** Releases the refs of a group that is not held; without best effort, a failed first
        release leaves the second ref alone. */
    method ReleaseGroup(g: Group, recs: map<Key, Rec>, d: Deadline, bestEffort: bool)
      requires Valid() && Quiet(Mine()) && Unheld(Mine(), recs, g) && world.Allows(held, d)
      modifies world
      ensures Valid() && Quiet(Mine()) && world.Moved(cluster) && Mine().held == held
      ensures KeepsOwn(old(Mine()), Mine(), g)
      ensures GroupTried(g, world.heard) || (!bestEffort && ReleaseSent(g.primary, ReleaseFailed) in world.heard)
    {
      hide ClaimWorld.Valid, Bounded, SecondsApart, Names;
      NotNamed(Mine(), g.primary);
      KnowsOwn(g.primary);
      if g.second.Some? { KnowsOwn(g.second.value); NotNamed(Mine(), g.second.value); }
      var r := world.Release(cluster, g.primary, recs[g.primary].token, d);
      ReleaseWasTried(g.primary, r, world.heard);
      if g.second.Some? && (bestEffort || !r.ReleaseFailed?) {
        var q := world.Release(cluster, g.second.value, recs[g.second.value].token, d);
        ReleaseWasTried(g.second.value, q, world.heard);
      }
    }

    /** Stops the Job of a group too close to its lease end and lets both refs go; a
        failed deletion leaves the claim held, pending. */
    method RecoverFenceGroup(g: Group, recs: map<Key, Rec>, now: int)
      requires Valid() && Quiet(Mine()) && Unheld(Mine(), recs, g) && LeaseShort(recs, g, now)
      modifies this`held, world
      ensures Valid() && Quiet(Mine()) && world.Moved(cluster) && KeepsOwn(old(Mine()), Mine(), g)
      ensures FencedGroup(old(held), held, recs, g, now, world.heard)
    {
      hide ClaimWorld.Valid, Bounded, SecondsApart, Names, LeaseShort, GroupTried, EarliestLease;
      var task := recs[g.primary].task;
      var answer := world.IsJobRunning(cluster, task);
      SameUnheld(old(Mine()), Mine(), recs, g);
      if !answer.NotRunning? {
        var ok := world.DeleteJob(cluster, task);
        SameUnheld(old(Mine()), Mine(), recs, g);
        assert Asked(task, answer) in world.heard && Deleted(task, ok) in world.heard;
        if !ok {
          StoreRecovered(g, recs, PendingGroup(recs, g, now), now);
          return;
        }
      }
      var d := RequestContext();
      ReleaseGroup(g, recs, d, true);
      assert answer.NotRunning? ==> Asked(task, NotRunning) in world.heard;
    }

    /** Adopts the claim of a Job that may still be running, or releases it. */
    method RecoverAdoptGroup(g: Group, recs: map<Key, Rec>, now: int)
      requires Valid() && Quiet(Mine()) && Unheld(Mine(), recs, g) && !world.ticking
      requires !LeaseShort(recs, g, now) && now >= Mine().lastFence - world.skew.slow
      modifies this`held, world
      ensures Valid() && Quiet(Mine()) && world.Moved(cluster) && KeepsOwn(old(Mine()), Mine(), g)
      ensures AdoptedOrReleased(old(held), held, recs, g, now, world.heard)
    {
      hide ClaimWorld.Valid, Bounded, SecondsApart, Names, LeaseShort, GroupTried, EarliestLease;
      var answer := world.IsJobRunning(cluster, recs[g.primary].task);
      SameUnheld(old(Mine()), Mine(), recs, g);
      assert Asked(recs[g.primary].task, answer) in world.heard;
      if !answer.NotRunning? {
        StoreRecovered(g, recs, AdoptedGroup(recs, g, now, answer.Unknown?), now);
        return;
      }
      AnyCallerDeadline(held);
      ReleaseGroup(g, recs, Caller, false);
    }

    /** Applies the restart rule to one group. */
    method RecoverGroup(g: Group, recs: map<Key, Rec>) returns (ghost now: int)
      requires Valid() && Quiet(Mine()) && Unheld(Mine(), recs, g) && !world.ticking
      modifies this`held, world
      ensures Valid() && Quiet(Mine()) && world.Moved(cluster) && KeepsOwn(old(Mine()), Mine(), g)
      ensures now >= old(world.w).server.now - world.skew.slow
      ensures GroupIn(recs, g) && GroupOutcome(old(held), held, recs, g, now, world.heard)
    {
      hide ClaimWorld.Valid, SecondsApart, Names, FenceDue, FencedGroup, AdoptedOrReleased;
      var clock := world.Clock(cluster);
      now := clock;
      DueIsShort(recs, g, clock);
      if FenceDue(clock, GroupLease(recs, g, clock)) {
        RecoverFenceGroup(g, recs, clock);
      } else {
        RecoverAdoptGroup(g, recs, clock);
      }
    }

    /** Recovers one group and counts its keys as done. */
    method RecoverOne(g: Group, recs: map<Key, Rec>, ghost start: int, ghost todo: set<Key>)
      requires Valid() && Quiet(Mine()) && !world.ticking && start <= world.w.server.now - world.skew.slow
      requires IsGroup(recs, g) && Issued(recs, cluster) && (forall k :: Member(g, k) ==> k in todo)
      requires Progress(Mine(), recs, start, todo, world.heard)
      modifies this`held, world
      ensures Valid() && Quiet(Mine()) && world.Moved(cluster)
      ensures Progress(Mine(), recs, start, (set k | k in todo && !Member(g, k)), world.heard)
    {
      hide ClaimWorld.Valid, SecondsApart, Names, FenceDue, Progress, IsGroup, KeepsOwn, Quiet, GroupOutcome;
      ProgressUnheld(cluster, Mine(), recs, start, todo, g, world.heard);
      NotNamed(Mine(), g.primary);
      ghost var now := RecoverGroup(g, recs);
      ProgressOne(old(Mine()), Mine(), recs, start, now, todo, g, old(world.heard), world.heard);
    }

    /** Splits one task's claims into groups and recovers each. */
    method RecoverTaskGroup(task: TaskId, recs: map<Key, Rec>, ghost start: int, ghost tasks: set<TaskId>)
      requires Valid() && Quiet(Mine()) && !world.ticking && start <= world.w.server.now - world.skew.slow
      requires Issued(recs, cluster) && task in tasks
      requires Progress(Mine(), recs, start, KeysOf(recs, tasks), world.heard)
      modifies this`held, world
      ensures Valid() && Quiet(Mine()) && world.Moved(cluster)
      ensures Progress(Mine(), recs, start, KeysOf(recs, tasks - {task}), world.heard)
    {
      hide ClaimWorld.Valid, SecondsApart, Progress, Quiet, IsPair;
      var keys := TaskKeys(recs, task);
      if r, q :| r in keys && q in keys && IsPair(recs, task, r, q) {
        PairKeys(recs, tasks, task, r, q);
        RecoverOne(Group(r, Some(q)), recs, start, KeysOf(recs, tasks));
        assert KeysOf(recs, tasks - {task}) == set k | k in KeysOf(recs, tasks) && !Member(Group(r, Some(q)), k);
        return;
      }
      SinglesAreGroups(recs, task);
      ghost var todo := KeysOf(recs, tasks);
      while keys != {}
        invariant Valid() && Quiet(Mine()) && world.Moved(cluster)
        invariant keys <= TaskKeys(recs, task) && todo == KeysOf(recs, tasks - {task}) + keys
        invariant Progress(Mine(), recs, start, todo, world.heard)
      {
        var k :| k in keys;
        RecoverOne(Group(k, None), recs, start, todo);
        assert (set j | j in todo && !Member(Group(k, None), j)) == todo - {k};
        keys, todo := keys - {k}, todo - {k};
      }
      assert todo == KeysOf(recs, tasks - {task});
    }

    /** Re-adopts, releases or fences the claims this cluster held before a restart.  Every
        listed claim is dealt with, in the one group it belongs to, and nothing else is held. */
    method Recover() returns (ok: bool, ghost recs: map<Key, Rec>)
      requires Valid() && Quiet(Mine()) && held == map[] && !world.ticking
      modifies this`held, world
      ensures Valid() && Quiet(Mine()) && world.Went(cluster)
      ensures ListSent(if ok then Listed(recs) else ListFailed) in world.heard
      ensures !ok ==> held == map[]
      ensures ok ==> forall k :: k in recs ==>
                       Settled(held, recs, old(world.w).server.now - world.skew.slow, k, world.heard)
      ensures ok ==> forall p :: p in held ==> IsGroup(recs, GroupAt(p, held[p]))
    {
      hide ClaimWorld.Valid, SecondsApart, Progress, Names, IsGroup, Settled;
      recs := map[];
      world.Hush();
      ghost var start := world.w.server.now - world.skew.slow;
      var reply := world.ListClaims(cluster);
      if reply.ListFailed? { return false, recs; }
      recs := reply.recs;
      var tasks := set k | k in reply.recs :: reply.recs[k].task;
      assert KeysOf(recs, tasks) == recs.Keys;
      RecoverBegins(Mine(), recs, start, world.heard);
      while tasks != {}
        invariant Valid() && Quiet(Mine()) && world.Went(cluster) && !world.ticking && ListSent(reply) in world.heard
        invariant start <= world.w.server.now - world.skew.slow
        invariant Progress(Mine(), recs, start, KeysOf(recs, tasks), world.heard)
      {
        var task :| task in tasks;
        RecoverTaskGroup(task, reply.recs, start, tasks);
        tasks := tasks - {task};
      }
      RecoverDone(Mine(), recs, start, world.heard);
      EndOperation();
      ok := true;
    }

    // ---- fence ----

    /** Releases both refs and ignores the outcome. */
    method BestEffortRelease(k: Key)
      requires Valid() && k in held && k in Mine().releasing
      modifies world
      ensures Valid() && world.Moved(cluster) && Mine() == old(Mine()).(own := Mine().own)
      ensures Attempted(held[k], k, world.heard)
    {
      hide ClaimWorld.Valid, Bounded;
      var h := held[k];
      KnowsTokens();
      var d := RequestContext();
      var r := world.Release(cluster, k, h.token, d);
      ReleaseWasTried(k, r, world.heard);
      if h.second.Some? {
        var q := world.Release(cluster, h.second.value.key, h.second.value.token, d);
        ReleaseWasTried(h.second.value.key, q, world.heard);
      }
    }

    /** Drops a claim whose Job is stopped, after a best-effort release of its refs. */
    method ReleaseAndDrop(k: Key)
      requires Valid() && k in held && CauseHolds(Mine(), k, Fenced)
      modifies this`held, world
      ensures Valid() && world.Moved(cluster) && held == old(held) - {k} && Attempted(old(held)[k], k, world.heard)
      ensures Mine().releasing == old(Mine()).releasing - {k} && Mine().look == old(Mine()).look
           && Mine().fence == old(Mine()).fence
    {
      hide ClaimWorld.Valid, CauseHolds, SecondsApart;
      BeginDrop(k, Fenced);
      BestEffortRelease(k);
      Drop(k);
    }

    /** Stops the Job of a claim that reached its fence point and drops the claim; a
        failed deletion leaves it pending. */
    method FenceClaim(k: Key)
      requires Valid() && k in held && !held[k].pendingDeletion && Mine().releasing == {} && Mine().look.None?
      requires Mine().fence.Some? && FenceDue(Mine().fence.value.clock, held[k].lease)
      modifies this`held, world
      ensures Valid() && world.Moved(cluster) && Mine().releasing == {} && Mine().look.None?
      ensures Mine().fence == old(Mine()).fence
      ensures OnlyAt(old(held), held, k)
      ensures FenceOutcome(old(held)[k], held, k, old(Mine()).fence.value.clock, world.heard)
    {
      hide ClaimWorld.Valid, Attempted, SecondsApart;
      if held[k].releasePending {
        ReleaseAndDrop(k);
        return;
      }
      var ok := world.DeleteJob(cluster, held[k].task);
      if !ok {
        MarkPendingDeletion(k, true);
        return;
      }
      assert k in Mine().seen;
      ReleaseAndDrop(k);
      assert Deleted(old(held)[k].task, true) in world.heard;
    }

    /** Fences every claim that is due at one clock reading, and no other. */
    method EvaluateFence() returns (clock: int)
      requires Valid() && Mine().releasing == {} && Mine().look.None?
      modifies this`held, world
      ensures Valid() && world.Moved(cluster) && Quiet(Mine()) && ClockRead(clock) in world.heard
      ensures FencedAt(old(held), held, clock, {}, world.heard)
    {
      hide ClaimWorld.Valid, Ages, Unfenced, FencedAt, SecondsApart, FenceOutcome, KeepsFlags;
      clock := world.StartFence(cluster);
      var todo := held.Keys;
      FenceBegins(held, clock, world.heard);
      while todo != {}
        invariant Valid() && world.Moved(cluster) && Mine().releasing == {} && Mine().look.None?
        invariant Mine().fence.Some? && Mine().fence.value.clock == clock && ClockRead(clock) in world.heard
        invariant todo <= old(held).Keys && FencedAt(old(held), held, clock, todo, world.heard)
      {
        var k :| k in todo;
        FenceTurn(k, clock, old(held), todo);
        todo := todo - {k};
      }
      FencedAtAges(old(held), held, clock, world.heard);
      EndFence(clock);
    }

    /** One claim's turn in a fence evaluation. */
    method FenceTurn(k: Key, clock: int, ghost was: map<Key, Held>, ghost todo: set<Key>)
      requires Valid() && Mine().releasing == {} && Mine().look.None?
      requires Mine().fence.Some? && Mine().fence.value.clock == clock
      requires k in todo && k in was && FencedAt(was, held, clock, todo, world.heard)
      modifies this`held, world
      ensures Valid() && world.Moved(cluster) && Mine().releasing == {} && Mine().look.None? && Mine().fence == old(Mine()).fence
      ensures FencedAt(was, held, clock, todo - {k}, world.heard)
    {
      hide ClaimWorld.Valid, FencedAt, SecondsApart;
      FenceKeeps(was, held, clock, todo, k, world.heard);
      if !held[k].pendingDeletion && FenceDue(clock, held[k].lease) {
        FenceClaim(k);
      }
      hide FenceOutcome;
      FenceOne(was, old(held), held, clock, todo, k, old(world.heard), world.heard);
    }

    method EndFence(clock: int)
      requires Valid() && Mine().releasing == {} && Mine().look.None? && Unfenced(held, clock)
      requires Mine().fence.Some? && Mine().fence.value.clock == clock
      modifies world
      ensures Valid() && world.Moved(cluster) && Quiet(Mine()) && world.heard == old(world.heard)
    {
      world.Change(cluster, LeaseProtocol.EndFence);
    }

    // ---- the phases of a tick ----

    /** Retries the Job deletion of a claim that waits for one, and drops it once done. */
    method RetryDeletion(k: Key)
      requires Valid() && Quiet(Mine()) && k in held
      modifies this`held, world
      ensures Valid() && Quiet(Mine()) && world.Moved(cluster)
      ensures OnlyAt(old(held), held, k) && Outcome(Deletions, old(held)[k], held, k, world.heard)
    {
      hide ClaimWorld.Valid, Bounded, Attempted, SecondsApart;
      if !held[k].pendingDeletion { return; }
      var ok := world.DeleteJob(cluster, held[k].task);
      if !ok { return; }
      assert k in Mine().seen;
      if held[k].fencePath {
        ReleaseAndDrop(k);
      } else {
        BeginDrop(k, Lost);
        Drop(k);
      }
      assert Deleted(old(held)[k].task, true) in world.heard;
    }

    /** Retries the pending Job deletions. */
    method RetryPendingDeletions()
      requires Valid() && Quiet(Mine())
      modifies this`held, world
      ensures Valid() && Quiet(Mine()) && world.Moved(cluster) && Passed(Deletions, old(held), held, {}, world.heard)
    {
      hide ClaimWorld.Valid, Passed, Outcome, SecondsApart, OnlyAt;
      var todo := held.Keys;
      PassBegins(Deletions, held, world.heard);
      while todo != {}
        invariant Valid() && Quiet(Mine()) && world.Moved(cluster) && todo <= old(held).Keys
        invariant Passed(Deletions, old(held), held, todo, world.heard)
      {
        var k :| k in todo;
        PassKeeps(Deletions, old(held), held, todo, k, world.heard);
        ghost var mid, heard := held, world.heard;
        RetryDeletion(k);
        PassOne(Deletions, old(held), mid, held, todo, k, heard, world.heard);
        todo := todo - {k};
      }
    }

    /** Retries a failed release. */
    method RetryRelease(k: Key)
      requires Valid() && Quiet(Mine()) && k in held
      modifies this`held, world
      ensures Valid() && Quiet(Mine()) && world.Moved(cluster)
      ensures OnlyAt(old(held), held, k) && Outcome(Releases, old(held)[k], held, k, world.heard)
    {
      hide ClaimWorld.Valid, Bounded, Stuck, LetGo, SecondsApart;
      if !held[k].releasePending { return; }
      BeginDrop(k, RetriedRelease);
      var _ := FinishRelease(k, None);
      assert old(held)[k].(releasePending := true) == old(held)[k];
    }

    /** Retries the failed releases. */
    method RetryPendingReleases()
      requires Valid() && Quiet(Mine())
      modifies this`held, world
      ensures Valid() && Quiet(Mine()) && world.Moved(cluster) && Passed(Releases, old(held), held, {}, world.heard)
    {
      hide ClaimWorld.Valid, Passed, Outcome, SecondsApart, OnlyAt;
      var todo := held.Keys;
      PassBegins(Releases, held, world.heard);
      while todo != {}
        invariant Valid() && Quiet(Mine()) && world.Moved(cluster) && todo <= old(held).Keys
        invariant Passed(Releases, old(held), held, todo, world.heard)
      {
        var k :| k in todo;
        PassKeeps(Releases, old(held), held, todo, k, world.heard);
        ghost var mid, heard := held, world.heard;
        RetryRelease(k);
        PassOne(Releases, old(held), mid, held, todo, k, heard, world.heard);
        todo := todo - {k};
      }
    }

    /** Releases a claim whose success hold is over at `now`. */
    method ReleaseHold(k: Key, now: int)
      requires Valid() && Quiet(Mine()) && k in held
      modifies this`held, world
      ensures Valid() && Quiet(Mine()) && world.Moved(cluster)
      ensures OnlyAt(old(held), held, k) && Outcome(Holds(now), old(held)[k], held, k, world.heard)
    {
      hide ClaimWorld.Valid, Bounded, Settles, SecondsApart;
      if held[k].holdUntil.None? || now < held[k].holdUntil.value { return; }
      var d := RequestContext();
      var _ := ReleaseLocked(k, now, d);
    }

    /** Releases the claims whose success hold has run out. */
    method ReleaseExpiredHolds() returns (ghost now: int)
      requires Valid() && Quiet(Mine())
      modifies this`held, world
      ensures Valid() && Quiet(Mine()) && world.Moved(cluster) && ClockRead(now) in world.heard
      ensures Passed(Holds(now), old(held), held, {}, world.heard)
    {
      hide ClaimWorld.Valid, Passed, Outcome, SecondsApart, OnlyAt;
      var clock := world.Clock(cluster);
      now := clock;
      var todo := held.Keys;
      PassBegins(Holds(clock), held, world.heard);
      while todo != {}
        invariant Valid() && Quiet(Mine()) && world.Moved(cluster) && todo <= old(held).Keys && ClockRead(clock) in world.heard
        invariant Passed(Holds(clock), old(held), held, todo, world.heard)
      {
        var k :| k in todo;
        PassKeeps(Holds(clock), old(held), held, todo, k, world.heard);
        ghost var mid, heard := held, world.heard;
        ReleaseHold(k, clock);
        PassOne(Holds(clock), old(held), mid, held, todo, k, heard, world.heard);
        todo := todo - {k};
      }
    }

    /** Re-asks the running check of a claim adopted with an unknown Job state. */
    method RecheckOne(k: Key)
      requires Valid() && Quiet(Mine()) && k in held
      modifies this`held, world
      ensures Valid() && Quiet(Mine()) && world.Moved(cluster)
      ensures OnlyAt(old(held), held, k) && Outcome(Recheck, old(held)[k], held, k, world.heard)
    {
      hide ClaimWorld.Valid, Bounded, SecondsApart, EndOfRelease;
      if !held[k].needsRunningCheck { return; }
      var answer := world.IsJobRunning(cluster, held[k].task);
      assert Asked(old(held)[k].task, answer) in world.heard;
      if answer.Running? {
        Confirm(k);
      } else if answer.NotRunning? {
        assert k in Mine().seen;
        BeginDrop(k, Rechecked);
        var _ := FinishRelease(k, None);
      }
    }

    /** Re-asks the running checks that had no answer. */
    method RecheckRunning()
      requires Valid() && Quiet(Mine())
      modifies this`held, world
      ensures Valid() && Quiet(Mine()) && world.Moved(cluster) && Passed(Recheck, old(held), held, {}, world.heard)
    {
      hide ClaimWorld.Valid, Passed, Outcome, SecondsApart, OnlyAt;
      var todo := held.Keys;
      PassBegins(Recheck, held, world.heard);
      while todo != {}
        invariant Valid() && Quiet(Mine()) && world.Moved(cluster) && todo <= old(held).Keys
        invariant Passed(Recheck, old(held), held, todo, world.heard)
      {
        var k :| k in todo;
        PassKeeps(Recheck, old(held), held, todo, k, world.heard);
        ghost var mid, heard := held, world.heard;
        RecheckOne(k);
        PassOne(Recheck, old(held), mid, held, todo, k, heard, world.heard);
        todo := todo - {k};
      }
    }

    /** Of the keys still to check, one whose last check is oldest. */
    method Oldest(todo: set<Key>) returns (k: Key)
      requires todo != {} && todo <= held.Keys
      ensures k in todo && forall j :: j in todo ==> !Older(held[j].lastJoblessCheckAt, held[k].lastJoblessCheckAt)
    {
      k :| k in todo;
      var rest := todo - {k};
      while rest != {}
        invariant k in todo && rest <= todo
        invariant forall j :: j in todo - rest ==> !Older(held[j].lastJoblessCheckAt, held[k].lastJoblessCheckAt)
      {
        var j :| j in rest;
        rest := rest - {j};
        if Older(held[j].lastJoblessCheckAt, held[k].lastJoblessCheckAt) { k := j; }
      }
    }

    /** Whether the jobless pass has to stop: the context is done or ten seconds have passed
        since it started.  It goes on only by a clock reading of its own. */
    method MustStop(start: int) returns (stop: bool, ghost reading: int)
      requires Valid() && Quiet(Mine())
      modifies world
      ensures Valid() && world.Moved(cluster) && Mine() == old(Mine())
      ensures stop ==> CtxDone in world.heard || exists t :: ClockRead(t) in world.heard && t >= start + 10
      ensures !stop ==> ClockRead(reading) in world.heard && reading < start + 10
                        && reading >= old(world.w).server.now - world.skew.slow
      ensures !stop ==> CtxDone !in world.heard
    {
      hide ClaimWorld.Valid, SecondsApart;
      reading := 0;
      stop := world.Done(cluster);
      if stop { return; }
      var clock := world.Clock(cluster);
      reading := clock;
      assert ClockRead(clock) in world.heard;
      stop := clock - start >= JOBLESS_PASS_BUDGET;
    }

    /** Releases claims whose Job has been absent for the jobless grace.  The pass stops early
        when the context is done or its budget is spent, but never checks a claim before an
        eligible one whose last check is older. */
    method ReleaseJoblessClaims() returns (ghost now: int, ghost checked: set<Key>)
      requires Valid() && Quiet(Mine())
      modifies this`held, world
      ensures Valid() && Quiet(Mine()) && world.Moved(cluster) && ClockRead(now) in world.heard
      ensures Passed(JoblessPass(now), old(held), held, DueKeys(old(held), now) - checked, world.heard)
      ensures Fair(old(held), checked, now) && Enough(old(held), checked, now, world.heard)
    {
      hide ClaimWorld.Valid, Passed, Outcome, SecondsApart, Older, Quiet, JoblessDue, Fair, OnlyAt;
      checked := {};
      var start := world.Clock(cluster);
      now := start;
      var todo := DueKeys(held, start);
      JoblessPassBegins(held, start, world.heard);
      while todo != {}
        invariant Valid() && Quiet(Mine()) && world.Moved(cluster) && ClockRead(start) in world.heard
        invariant todo + checked == DueKeys(old(held), start) && todo !! checked
        invariant Passed(JoblessPass(start), old(held), held, todo, world.heard)
        invariant forall a, b :: a in checked && b in todo ==>
            !Older(old(held)[b].lastJoblessCheckAt, old(held)[a].lastJoblessCheckAt)
        decreases todo
      {
        var stop, _ := MustStop(start);
        PassHeardMore(JoblessPass(start), old(held), held, todo, world.heard);
        if stop { break; }
        forall j | j in todo ensures j in held && held[j] == old(held)[j] {
          PassKeeps(JoblessPass(start), old(held), held, todo, j, world.heard);
        }
        var k := Oldest(todo);
        ghost var mid, heard := held, world.heard;
        CheckJobless(k, start);
        PassOne(JoblessPass(start), old(held), mid, held, todo, k, heard, world.heard);
        todo, checked := todo - {k}, checked + {k};
      }
      FairCheck(old(held), checked, todo, start);
      assert DueKeys(old(held), start) - checked == todo;
    }

    /** One claim's turn in the jobless pass. */
    method CheckJobless(k: Key, now: int)
      requires Valid() && Quiet(Mine()) && k in held && JoblessDue(held[k], now)
      modifies this`held, world
      ensures Valid() && Quiet(Mine()) && world.Moved(cluster)
      ensures OnlyAt(old(held), held, k) && Outcome(JoblessPass(now), old(held)[k], held, k, world.heard)
    {
      hide ClaimWorld.Valid, Bounded, SecondsApart, Outcome, CauseHolds, EndOfRelease;
      var answer := AskJobless(k, now);
      if !answer.Unknown? {
        NoteChecked(k, now, answer.Running?);
        if answer.NotRunning? && now - held[k].joblessSince.value >= JOBLESS_GRACE {
          JoblessCause(Mine(), k, now);
          ReleaseJoblessClaim(k, now);
        }
      }
      JoblessOutcome(old(held)[k], held, k, now, answer, world.heard);
    }

    /** Asks whether a claim's Job is running and remembers when. */
    method AskJobless(k: Key, now: int) returns (answer: Answer)
      requires Valid() && Quiet(Mine()) && k in held
      modifies this`held, world
      ensures Valid() && Quiet(Mine()) && world.Moved(cluster) && Asked(old(held)[k].task, answer) in world.heard
      ensures held == old(held)[k := old(held)[k].(lastJoblessCheckAt := Some(now))]
      ensures answer.NotRunning? ==> k in Mine().seen
    {
      hide ClaimWorld.Valid, Bounded, SecondsApart;
      KnowsTokens();
      Touch(k, held[k].(lastJoblessCheckAt := Some(now)));
      var _ := RequestContext();
      answer := world.IsJobRunning(cluster, held[k].task);
    }

    /** Releases a claim whose Job has been absent for the jobless grace. */
    method ReleaseJoblessClaim(k: Key, now: int)
      requires Valid() && Quiet(Mine()) && k in held && CauseHolds(Mine(), k, Jobless(now))
      modifies this`held, world
      ensures Valid() && Quiet(Mine()) && world.Moved(cluster)
      ensures OnlyAt(old(held), held, k) && EndOfRelease(old(held)[k], held, k, world.heard)
    {
      hide ClaimWorld.Valid, Bounded, SecondsApart, CauseHolds, EndOfRelease;
      BeginDrop(k, Jobless(now));
      var _ := FinishRelease(k, None);
    }

    method NoteChecked(k: Key, now: int, running: bool)
      requires Valid() && k in held
      modifies this`held, world
      ensures Valid() && world.Moved(cluster)
      ensures held == old(held)[k := old(held)[k].(joblessSince := JoblessSince(old(held)[k], now, running))]
      ensures Mine() == old(Mine()).(held := held, idle := Mine().idle)
      ensures !running ==> k in Mine().idle && Mine().idle[k] == now
    {
      held := held[k := held[k].(joblessSince := JoblessSince(held[k], now, running))];
      world.Change(cluster, Checked(k, now, running));
    }

    // ---- renew ----

    /** Deletes the Job of a claim the server no longer has and drops the claim; a failed
        deletion leaves it pending. */
    method ClaimLost(k: Key)
      requires Valid() && Quiet(Mine()) && k in held && k in Mine().refused
      modifies this`held, world
      ensures Valid() && Quiet(Mine()) && world.Moved(cluster)
      ensures (held == old(held) - {k} && Deleted(old(held)[k].task, true) in world.heard)
           || (&& held == old(held)[k := old(held)[k].(pendingDeletion := true, fencePath := false)]
               && Deleted(old(held)[k].task, false) in world.heard)
      ensures LostOrFenced(old(held), held, k, world.heard)
    {
      hide ClaimWorld.Valid, Bounded, SecondsApart;
      var ok := world.DeleteJob(cluster, held[k].task);
      assert Deleted(old(held)[k].task, ok) in world.heard;
      if !ok {
        MarkPendingDeletion(k, false);
        return;
      }
      assert k in Mine().seen;
      BeginDrop(k, Lost);
      Drop(k);
    }

    /** Takes over the lease a renewal or a read showed. */
    method TakeLease(k: Key, rec: Rec)
      requires Valid() && Quiet(Mine()) && k in held && !held[k].releasePending
      requires k in Mine().own && Mine().own[k] == rec
      modifies this`held, world
      ensures Valid() && Quiet(Mine()) && world.Moved(cluster)
      ensures held == old(held)[k := old(held)[k].(token := rec.token, lease := Until(rec))]
      ensures k !in Mine().moved && Aged(old(held)[k], held[k])
    {
      hide ClaimWorld.Valid, SecondsApart;
      KnowsLater(k);
      SetLease(k, rec);
    }

    /** Decides a failed primary renewal from a fresh read, after another fence. */
    method RenewReadBack(k: Key) returns (r: Renewal)
      requires Valid() && Quiet(Mine()) && k in held && !held[k].releasePending
      modifies this`held, world
      ensures Valid() && Quiet(Mine()) && world.Moved(cluster) && RenewOutcome(old(held), held, k, r, world.heard)
      ensures DecidedBy(r, k, old(held)[k].token, cluster, world.heard)
           || (r.Gone? && FencedOut(old(held)[k], world.heard))
      ensures !r.Done? && (r.Recovered? ==> k !in Mine().moved)
      ensures !r.Gone? ==> k in held && held[k].second == old(held)[k].second
      ensures r.NotRenewed? ==> SameLease(old(held)[k], held[k])
    {
      hide ClaimWorld.Valid, Bounded, SecondsApart, FencedAt, RenewOutcome, DecidedBy;
      var clock := EvaluateFence();
      FenceIsRenewOutcome(old(held), held, k, clock, world.heard);
      if k !in held { return Gone; }
      r := DecideFromRead(k, old(held), world.heard);
    }

    /** A fresh read of a held claim's key. */
    method ReadOwn(k: Key) returns (seen: ReadReply)
      requires Valid() && Quiet(Mine()) && k in held
      modifies world
      ensures Valid() && Quiet(Mine()) && world.Moved(cluster) && ReadBack(k, seen) in world.heard
      ensures seen.Found_? && seen.rec.holder == cluster ==> k in Mine().own && Mine().own[k] == seen.rec
      ensures seen.Free_? || (seen.Found_? && seen.rec.holder != cluster) ==> k in Mine().refused
    {
      hide ClaimWorld.Valid, Bounded, SecondsApart;
      var d := RequestContext();
      seen := world.Read(cluster, k, d);
    }

    /** What the read after a failed renewal says: nothing new, our renewal, or a lost claim. */
    method DecideFromRead(k: Key, ghost was: map<Key, Held>, ghost heard: Replies) returns (r: Renewal)
      requires Valid() && Quiet(Mine()) && k in held && !held[k].releasePending && heard == world.heard
      requires RenewOutcome(was, held, k, NotRenewed, heard)
      modifies this`held, world
      ensures Valid() && Quiet(Mine()) && world.Moved(cluster) && RenewOutcome(was, held, k, r, world.heard)
      ensures !r.Done? && DecidedBy(r, k, old(held)[k].token, cluster, world.heard) && (r.Recovered? ==> k !in Mine().moved)
      ensures !r.Gone? ==> k in held && held[k].second == old(held)[k].second
      ensures r.NotRenewed? ==> held[k] == old(held)[k]
    {
      hide ClaimWorld.Valid, Bounded, SecondsApart, RenewOutcome, DecidedBy, LostOrFenced, Aged;
      var seen := ReadOwn(k);
      if seen.ReadFailed? || (seen.Found_? && seen.rec.holder == cluster && seen.rec.token == held[k].token) {
        RenewStays(was, held, k, heard, world.heard);
        Decided(NotRenewed, k, held[k].token, cluster, seen, world.heard);
        return NotRenewed;
      }
      if seen.Found_? && seen.rec.holder == cluster {
        TakeLease(k, seen.rec);
        RenewTakes(was, old(held), held, k, seen.rec, Recovered, heard, world.heard);
        Decided(Recovered, k, old(held)[k].token, cluster, seen, world.heard);
        return Recovered;
      }
      ClaimLost(k);
      RenewLoses(was, old(held), held, k, heard, world.heard);
      Decided(Gone, k, old(held)[k].token, cluster, seen, world.heard);
      r := Gone;
    }

    method SendPrimary(k: Key) returns (reply: RenewReply)
      requires Valid() && Quiet(Mine()) && k in held
      modifies world
      ensures Valid() && Quiet(Mine()) && world.MovedOn(cluster) && RenewSent(k, reply) in world.heard
      ensures reply.Renewed? ==> k in Mine().own && Mine().own[k] == reply.rec
      ensures world.renewed == old(world.renewed) + {k}
      ensures reply.LeaseLost? ==> k in Mine().refused
    {
      hide ClaimWorld.Valid, Bounded, SecondsApart;
      var d := RequestContext();
      reply := world.Renew(cluster, k, k, held[k].token, d);
    }

    /** Renews the primary ref of a claim. */
    method RenewPrimary(k: Key) returns (r: Renewal)
      requires Valid() && Quiet(Mine()) && k in held && !held[k].releasePending
      modifies this`held, world
      ensures Valid() && Quiet(Mine()) && world.MovedOn(cluster) && RenewOutcome(old(held), held, k, r, world.heard)
      ensures RenewTried(k, world.heard) && world.renewed == old(world.renewed) + {k}
      ensures r.Done? || r.Recovered? ==> k !in Mine().moved
      ensures !r.Gone? ==> k in held && held[k].second == old(held)[k].second
      ensures r.NotRenewed? ==> SameLease(old(held)[k], held[k])
      ensures PrimaryDecided(r, old(held)[k], k, cluster, world.heard)
    {
      hide ClaimWorld.Valid, Bounded, SecondsApart, RenewOutcome, DecidedBy, FencedOut, LostOrFenced, Aged;
      ghost var heard := world.heard;
      NothingRenewed(held, k, heard);
      var reply := SendPrimary(k);
      if reply.Renewed? {
        TakeLease(k, reply.rec);
        RenewTakes(old(held), old(held), held, k, reply.rec, Done, heard, world.heard);
        return Done;
      }
      if reply.LeaseLost? {
        ClaimLost(k);
        RenewLoses(old(held), old(held), held, k, heard, world.heard);
        return Gone;
      }
      r := RenewReadBack(k);
      assert RenewSent(k, RenewFailed) in world.heard;
    }

    /** Renews the second ref of a claim: its token is taken over, a lost one loses the claim,
        and a failure asks for another try at the next tick. */
    method RenewSecond(k: Key) returns (reply: RenewReply)
      requires Valid() && Quiet(Mine()) && k in held && held[k].second.Some?
      modifies this`held, world
      ensures Valid() && Quiet(Mine()) && world.MovedOn(cluster) && OnlyAt(old(held), held, k)
      ensures world.renewed == old(world.renewed) + {old(held)[k].second.value.key}
      ensures SecondOutcome(old(held), held, k, reply, world.heard)
      ensures k !in old(Mine()).moved && k in held && !reply.LeaseLost? ==> k !in Mine().moved
    {
      hide ClaimWorld.Valid, Bounded, SecondsApart, RefToken, LostOrFenced, SecondOutcome, OnlyAt, SecondOk;
      SecondIsOther(held, k);
      var ref := held[k].second.value;
      reply := SendSecond(k);
      if reply.Renewed? {
        NewSecondOk(cluster, held[k], reply.rec.token);
        TouchSecond(k, held[k].(second := Some(Ref(ref.key, reply.rec.token))));
      } else if reply.LeaseLost? {
        ClaimLost(k);
      } else {
        TouchSecond(k, held[k].(renewNextTick := true));
      }
      SecondOutcomes(old(held), held, k, reply, world.heard);
    }

    method SendSecond(k: Key) returns (reply: RenewReply)
      requires Valid() && Quiet(Mine()) && k in held && held[k].second.Some? && held[k].second.value.key != k
      modifies world
      ensures Valid() && Quiet(Mine()) && world.MovedOn(cluster) && RenewSent(held[k].second.value.key, reply) in world.heard
      ensures reply.Renewed? ==> reply.rec.token.holder == cluster && reply.rec.token.key == held[k].second.value.key
      ensures world.renewed == old(world.renewed) + {held[k].second.value.key}
      ensures reply.LeaseLost? ==> k in Mine().refused
      ensures Mine().moved <= old(Mine()).moved + {held[k].second.value.key}
    {
      hide ClaimWorld.Valid, Bounded, SecondsApart;
      var d := RequestContext();
      reply := world.Renew(cluster, held[k].second.value.key, k, held[k].second.value.token, d);
    }

    /** A change of scheduling fields or of the second ref's token. */
    method TouchSecond(k: Key, h: Held)
      requires Valid() && Quiet(Mine()) && k in held && SameCore(held[k], h) && held[k].second.Some?
      requires h.second == held[k].second
            || (h.second.Some? && h.second.value.key == held[k].second.value.key && SecondOk(cluster, h))
      modifies this`held, world
      ensures Valid() && Quiet(Mine()) && world.Moved(cluster)
      ensures held == old(held)[k := h] && Mine().moved == old(Mine()).moved
    {
      hide ClaimWorld.Valid, Bounded, SecondsApart;
      KnowsTokens();
      Touch(k, h);
    }

    /** Renews both refs of a claim.  After a renewal that counts as done or recovered the
        memory has taken over the server's token. */
    method RenewClaim(k: Key, now: int) returns (r: Renewal)
      requires Valid() && Quiet(Mine()) && k in held && !held[k].releasePending
      modifies this`held, world
      ensures Valid() && Quiet(Mine()) && world.MovedOn(cluster) && RenewTried(k, world.heard)
      ensures RenewOutcome(old(held)[k := old(held)[k].(lastRenewAt := now, renewNextTick := false)], held, k, r, world.heard)
      ensures old(world.renewed) + {k} <= world.renewed <= old(world.renewed) + {k} + SecondKeys(old(held)[k])
      ensures r.Done? || r.Recovered? ==> k !in Mine().moved
      ensures !r.Gone? && old(held)[k].second.Some? ==> RenewTried(old(held)[k].second.value.key, world.heard)
    {
      hide ClaimWorld.Valid, Bounded, SecondsApart, RenewOutcome, SecondOutcome, OnlyAt, RenewTried;
      KnowsTokens();
      Touch(k, held[k].(lastRenewAt := now, renewNextTick := false));
      ghost var was := held;
      r := RenewPrimary(k);
      if r.Gone? || held[k].second.None? { return; }
      ghost var mid, heard := held, world.heard;
      var second := RenewSecond(k);
      RenewTwice(was, mid, held, k, r, second, heard, world.heard);
      RenewHeardMore(k, heard, world.heard);
      if second.LeaseLost? { r := Gone; } else if second.RenewFailed? { r := NotRenewed; }
    }

    /** One claim's turn in the renew pass; `now` is the clock reading it was judged by. */
    method RenewIfDue(k: Key) returns (ghost now: int)
      requires Valid() && Quiet(Mine()) && k in held
      modifies this`held, world
      ensures Valid() && Quiet(Mine()) && world.MovedOn(cluster)
      ensures TurnTaken(old(held), held, k, now, world.heard)
      ensures TurnSent(old(held)[k], k, now, old(world.renewed), world.renewed)
    {
      hide ClaimWorld.Valid, SecondsApart, RenewOutcome, FencedAt, TurnTaken, RenewTried;
      ghost var was := held;
      now := 0;
      if held[k].pendingDeletion || held[k].releasePending {
        TurnSkipped(held, k, now, world.heard);
        return;
      }
      var clock := world.Clock(cluster);
      now := clock;
      if !held[k].renewNextTick && !RenewDue(clock, held[k].lastRenewAt) {
        TurnSkipped(held, k, now, world.heard);
        return;
      }
      var r := RenewClaim(k, clock);
      ghost var mid, heard := held, world.heard;
      var fence := EvaluateFence();
      RenewHeardMore(k, heard, world.heard);
      TurnRenewed(was, mid, held, k, clock, r, fence, heard, world.heard);
    }

    /** Renews every claim that is owed a renewal at the reading of its own turn, and no
        other, one after another, with a fence after each. */
    method RenewDueClaims() returns (ghost turns: map<Key, int>)
      requires Valid() && Quiet(Mine())
      modifies this`held, world
      ensures Valid() && Quiet(Mine()) && world.MovedOn(cluster)
      ensures RenewedAll(old(held), held, turns, {}, world.heard)
      ensures SentAll(old(held), turns, {}, old(world.renewed), world.renewed)
    {
      hide ClaimWorld.Valid, SecondsApart, TurnTaken, TurnSent, RenewedAll, SentAll, Quiet;
      var todo := held.Keys;
      turns := map[];
      RenewBegins(held, world.heard, world.renewed);
      while todo != {}
        invariant Valid() && Quiet(Mine()) && world.MovedOn(cluster)
        invariant todo <= old(held).Keys && RenewedAll(old(held), held, turns, todo, world.heard)
        invariant SentAll(old(held), turns, todo, old(world.renewed), world.renewed)
      {
        var k :| k in todo;
        ghost var mid, heard, then_ := held, world.heard, world.renewed;
        ghost var now := 0;
        if k in held {
          now := RenewIfDue(k);
          SentOne(old(held), mid, turns, todo, k, now, heard, old(world.renewed), then_, world.renewed);
        } else {
          NoneSent(old(held), turns, todo, k, now, old(world.renewed), then_);
        }
        RenewOne(old(held), mid, held, turns, todo, k, now, heard, world.heard);
        turns := turns[k := now];
        todo := todo - {k};
      }
    }

    // ---- the tick ----

    /** The passes between the fence and the renewals. */
    method ReleasePasses() returns (ghost now: int)
      requires Valid() && Quiet(Mine())
      modifies this`held, world
      ensures Valid() && Quiet(Mine()) && world.Moved(cluster) && Ages(old(held), held) && KeepsTerms(old(held), held) && ClockRead(now) in world.heard
      ensures ReleasesAttended(old(held), held, now, world.heard)
    {
      hide ClaimWorld.Valid, SecondsApart, Quiet, Ages, Passed, KeepsFlags, KeepsTerms, ReleasesAttended, DueKeys, Fair, Enough;
      RetryPendingReleases();
      ghost var a, heardA := held, world.heard;
      PassedAges(Releases, old(held), a, {}, heardA);
      now := ReleaseExpiredHolds();
      ghost var b, heardB := held, world.heard;
      PassedAges(Holds(now), a, b, {}, heardB);
      ghost var start, checked := ReleaseJoblessClaims();
      ghost var c := held;
      PassedAges(JoblessPass(start), b, c, DueKeys(b, start) - checked, world.heard);
      RecheckRunning();
      PassedAges(Recheck, c, held, {}, world.heard);
      AgesTrans(old(held), a, b);
      AgesTrans(old(held), b, c);
      AgesTrans(old(held), c, held);
      KeepsTermsTrans(old(held), a, b);
      KeepsTermsTrans(old(held), b, c);
      KeepsTermsTrans(old(held), c, held);
      ReleasesWereAttended(old(held), a, b, c, held, now, heardA, heardB, world.heard);
    }

    method TickPhases() returns (ok: bool, ghost fence: int, ghost now: int, ghost turns: map<Key, int>)
      requires Valid() && Quiet(Mine()) && world.renewed == {}
      modifies this`held, world
      ensures Valid() && Quiet(Mine()) && world.MovedOn(cluster) && Ages(old(held), held)
      ensures ok <==> CtxDone !in world.heard
      ensures ok ==> Unfenced(held, fence) && AllAttended(old(held), held, now, world.heard)
      ensures ok ==> RenewalsKept(old(held), held, turns, world.heard, world.renewed)
      ensures ok ==> ClockRead(fence) in world.heard && ClockRead(now) in world.heard
    {
      hide ClaimWorld.Valid, SecondsApart, Ages, Unfenced, Passed, RenewedAll, SentAll, RenewalsKept,
        FencedAt, KeepsFlags, KeepsTerms, ReleasesAttended, AllAttended;
      ok, fence, now, turns := false, 0, 0, map[];
      RetryPendingDeletions();
      ghost var a, heardA := held, world.heard;
      PassedAges(Deletions, old(held), a, {}, heardA);
      var done := world.Done(cluster);
      if done { return; }
      fence := EvaluateFence();
      ghost var b := held;
      FencedAtAges(a, b, fence, world.heard);
      AgesTrans(old(held), a, b);
      KeepsTermsTrans(old(held), a, b);
      done := world.Done(cluster);
      if done { return; }
      now := ReleasePasses();
      ghost var c, heardC := held, world.heard;
      AgesTrans(old(held), b, c);
      KeepsTermsTrans(old(held), b, c);
      done := world.Done(cluster);
      if done { return; }
      turns := RenewDueClaims();
      ghost var heardD := world.heard;
      RenewedAges(c, held, turns, heardD);
      AgesTrans(b, c, held);
      AgesTrans(old(held), b, held);
      AgesUnfenced(b, held, fence);
      done := world.Done(cluster);
      RenewalsWereKept(old(held), c, held, turns, heardD, world.heard, world.renewed);
      AllWereAttended(old(held), a, b, c, held, now, heardA, heardC, world.heard);
      ok := !done;
    }

    /** One pass of the lease loop.  It fails exactly when the context is done; otherwise every
        claim that is not waiting for its Job's deletion has a lease that ends at least seventy
        seconds (the fence's margin and lead) after the first fence's clock reading, a renewal was sent for
        exactly the claims that were owed one when their turn came, and whatever else a claim
        was owed has been tried. */
    method Tick() returns (ok: bool, ghost fence: int, ghost now: int, ghost turns: map<Key, int>)
      requires Valid() && Quiet(Mine()) && !world.ticking
      modifies this`held, world
      ensures Valid() && Quiet(Mine()) && world.Went(cluster) && Ages(old(held), held)
      ensures ok <==> CtxDone !in world.heard
      ensures ok ==> ClockRead(fence) in world.heard && ClockRead(now) in world.heard
      ensures ok ==> forall k :: k in held && !held[k].pendingDeletion ==>
                       held[k].lease >= fence + 70
      ensures ok ==> RenewalsKept(old(held), held, turns, world.heard, world.renewed)
      ensures ok ==> AllAttended(old(held), held, now, world.heard)
    {
      hide ClaimWorld.Valid, SecondsApart, Quiet, Ages, Unfenced, RenewalsKept, AllAttended;
      world.Hush();
      world.NewContext();
      world.SetTicking(true);
      ok, fence, now, turns := TickPhases();
      world.SetTicking(false);
      if ok { MarginOf(held, fence); }
    }

    method Confirm(k: Key)
      requires Valid() && k in held
      modifies this`held, world
      ensures Valid() && world.Moved(cluster)
      ensures held == old(held)[k := old(held)[k].(needsRunningCheck := false)] && Mine() == old(Mine()).(held := held)
    {
      held := held[k := held[k].(needsRunningCheck := false)];
      world.Change(cluster, LeaseProtocol.Confirm(k));
    }
  }
}
