/**
 What every reachable world of the claim protocol satisfies: the memory of each
 manager refines the server.
 */
module LeaseInvariants {
  import opened Wrappers
  import opened LeaseProtocol

  // ---- the invariant ----

  /** A record met after a read is the one the read found, or was granted since. */
  predicate Since(look: Look, rec: Rec) {
    look.before == Some(rec) ||
    (&& rec.lease.Some? && rec.lease.value >= look.at + LEASE_DURATION
     && (look.before.Some? ==> rec.token != look.before.value.token))
  }

  /** The read that started the current operation. */
  predicate LookOk(skew: Skew, v: Server, l: Local) {
    l.look.Some? ==>
      var look := l.look.value;
      && l.lastFence <= look.at <= v.now && look.clock <= look.at + skew.fast
      && look.key !in l.held
      && (look.before.Some? ==> look.before.value.token.serial < v.issued)
      && (look.key in v.recs ==> Since(look, v.recs[look.key]))
      && (look.key in l.own ==> Since(look, l.own[look.key]))
  }

  /** rec is the server's record, or one that a late request of the holder has replaced
      since by a longer lease. */
  predicate CurrentOr(v: Server, k: Key, rec: Rec)
    requires k in v.recs
  {
    || rec == v.recs[k]
    || (&& v.recs[k].token.serial in v.late && v.recs[k].lease.Some?
        && (rec.lease.Some? ==> rec.lease.value <= v.recs[k].lease.value))
  }

  /** Records a reply showed are this cluster's own and, unless a peer or a late request of
      its own has replaced them, current. */
  predicate OwnOk(v: Server, c: Cluster, l: Local) {
    forall k :: k in l.own ==>
      && l.own[k].holder == c && l.own[k].token.key == k && l.own[k].token.holder == c
      && l.own[k].token.serial < v.issued
      && (l.own[k].lease.Some? ==> l.own[k].lease.value <= v.now + LEASE_DURATION)
      && (k in v.recs && v.recs[k].holder == c ==> CurrentOr(v, k, l.own[k]))
  }

  /** While the server's record names this cluster and the claim is in no pending
      deletion or release, the remembered lease is no later than the server's, and
      the remembered token is the server's or one that our own lost-reply renewal or a
      late request of ours replaced. */
  predicate MemoryRefines(v: Server, c: Cluster, l: Local, k: Key) {
    (&& k in l.held && !l.held[k].pendingDeletion && !l.held[k].releasePending
     && k in v.recs && v.recs[k].holder == c)
    ==>
      && v.recs[k].lease.Some? && l.held[k].lease <= v.recs[k].lease.value
      && (l.held[k].token == v.recs[k].token || k in l.moved || v.recs[k].token.serial in v.late)
  }

  /** A record learnt for a claim is never older than what the claim remembers. */
  predicate LearntLater(l: Local, k: Key)
    requires k in l.held
  {
    (k in l.own && !l.held[k].pendingDeletion && !l.held[k].releasePending) ==>
      l.own[k].lease.Some? && l.held[k].lease <= l.own[k].lease.value
  }

  predicate ClaimOk(v: Server, c: Cluster, l: Local, k: Key)
    requires k in l.held
  {
    && l.held[k].token.key == k && l.held[k].token.holder == c && SecondOk(c, l.held[k])
    && MemoryRefines(v, c, l, k) && LearntLater(l, k)
    && (l.held[k].releasePending ==> k in l.seen)
    && (l.held[k].pendingDeletion || l.held[k].releasePending || l.held[k].lease <= v.now + LEASE_DURATION)
  }

  predicate HeldOk(v: Server, c: Cluster, l: Local) { forall k :: k in l.held ==> ClaimOk(v, c, l, k) }

  predicate TimesOk(skew: Skew, v: Server, l: Local) {
    && l.lastFence <= v.now
    && (l.fence.Some? ==> l.lastFence <= l.fence.value.at <= v.now
                          && l.fence.value.clock >= l.fence.value.at - skew.slow)
  }

  predicate ClockOk(skew: Skew, v: Server, l: Local) {
    TimesOk(skew, v, l) && l.releasing <= l.seen && l.seen <= l.held.Keys
  }

  ghost predicate LocalOk(skew: Skew, v: Server, c: Cluster, l: Local) {
    && ClockOk(skew, v, l) && LookOk(skew, v, l) && OwnOk(v, c, l) && HeldOk(v, c, l)
  }

  ghost predicate Inv(skew: Skew, w: World) {
    && ServerOk(w.server)
    && forall c :: c in w.local ==> LocalOk(skew, w.server, c, w.local[c])
  }

  // ---- it is inductive ----

  /** The claim takes a token from a record a reply has shown. */
  predicate Takes(m: Change, k: Key) { (m.Store? || m.Adopt? || m.StorePending? || m.SetLease?) && m.k == k }

  lemma TakesOwnToken(skew: Skew, v: Server, c: Cluster, l: Local, m: Change, k: Key)
    requires Takes(m, k) && MayDo(skew, v, c, l, m) && k in Changed(v, l, m).held
    ensures k in l.own && Changed(v, l, m).held[k].token == l.own[k].token
  {
    hide SecondOk, TakeoverAllowed, FenceDue;
  }

  lemma ChangeKeepsSecond(skew: Skew, v: Server, c: Cluster, l: Local, m: Change, k: Key)
    requires MayDo(skew, v, c, l, m) && k in Changed(v, l, m).held && (k in l.held ==> SecondOk(c, l.held[k]))
    ensures SecondOk(c, Changed(v, l, m).held[k])
  {
    hide TakeoverAllowed, FenceDue, CauseHolds;
  }

  /** A claim pending release has been seen without its Job. */
  lemma ChangeKeepsPending(skew: Skew, v: Server, c: Cluster, l: Local, m: Change, k: Key)
    requires MayDo(skew, v, c, l, m) && k in Changed(v, l, m).held && l.releasing <= l.seen
    requires k in l.held && l.held[k].releasePending ==> k in l.seen
    ensures Changed(v, l, m).held[k].releasePending ==> k in Changed(v, l, m).seen
  {
    hide TakeoverAllowed, FenceDue, CauseHolds, SecondOk;
  }

  lemma ChangeKeepsTokens(skew: Skew, v: Server, c: Cluster, l: Local, m: Change, k: Key)
    requires OwnOk(v, c, l) && l.releasing <= l.seen && MayDo(skew, v, c, l, m)
    requires k in l.held ==> ClaimOk(v, c, l, k)
    requires k in Changed(v, l, m).held
    ensures var l' := Changed(v, l, m);
            && l'.held[k].token.key == k && l'.held[k].token.holder == c && SecondOk(c, l'.held[k])
            && (l'.held[k].releasePending ==> k in l'.seen)
  {
    hide MayDo, Changed, MemoryRefines, LearntLater, SecondOk;
    ChangeKeepsSecond(skew, v, c, l, m, k);
    ChangeKeepsPending(skew, v, c, l, m, k);
    if Takes(m, k) { TakesOwnToken(skew, v, c, l, m, k); } else { OtherKeepsMemory(skew, v, c, l, m, k); }
  }

  /** A claim enters the held map with a record a reply has shown. */
  lemma EnterKeepsMemory(skew: Skew, v: Server, c: Cluster, l: Local, m: Change, k: Key)
    requires Takes(m, k)
    requires ServerOk(v) && OwnOk(v, c, l) && LookOk(skew, v, l) && MayDo(skew, v, c, l, m)
    requires k in l.held ==> ClaimOk(v, c, l, k)
    requires k in Changed(v, l, m).held
    ensures MemoryRefines(v, c, Changed(v, l, m), k)
  {
    hide SecondOk;
  }

  /** No other change gives a claim a new token or lease. */
  lemma OtherKeepsMemory(skew: Skew, v: Server, c: Cluster, l: Local, m: Change, k: Key)
    requires !Takes(m, k)
    requires MayDo(skew, v, c, l, m) && k in Changed(v, l, m).held
    ensures k in l.held && SameLeaseAt(l, Changed(v, l, m), k)
  {
    hide SecondOk, CauseHolds, TakeoverAllowed, FenceDue;
  }

  /** The same token and lease, and no pending state or replaced token forgotten. */
  predicate SameLeaseAt(l: Local, m: Local, k: Key)
    requires k in l.held && k in m.held
  {
    && m.held[k].token == l.held[k].token && m.held[k].lease == l.held[k].lease
    && (l.held[k].pendingDeletion ==> m.held[k].pendingDeletion) && (l.held[k].releasePending ==> m.held[k].releasePending)
    && (k in l.moved ==> k in m.moved)
  }

  lemma ChangeKeepsMemory(skew: Skew, v: Server, c: Cluster, l: Local, m: Change, k: Key)
    requires ServerOk(v) && OwnOk(v, c, l) && LookOk(skew, v, l) && MayDo(skew, v, c, l, m)
    requires k in l.held ==> ClaimOk(v, c, l, k)
    requires k in Changed(v, l, m).held
    ensures MemoryRefines(v, c, Changed(v, l, m), k)
  {
    hide MayDo, Changed, SecondOk, LearntLater, ServerOk, OwnOk, LookOk;
    if Takes(m, k) {
      EnterKeepsMemory(skew, v, c, l, m, k);
    } else {
      OtherKeepsMemory(skew, v, c, l, m, k);
    }
  }

  lemma ChangeKeepsLearnt(skew: Skew, v: Server, c: Cluster, l: Local, m: Change, k: Key)
    requires LookOk(skew, v, l) && MayDo(skew, v, c, l, m)
    requires k in l.held ==> ClaimOk(v, c, l, k)
    requires k in Changed(v, l, m).held
    ensures LearntLater(Changed(v, l, m), k)
  {
    hide SecondOk, MemoryRefines;
  }

  lemma ChangeKeepsBound(skew: Skew, v: Server, c: Cluster, l: Local, m: Change, k: Key)
    requires OwnOk(v, c, l) && LookOk(skew, v, l) && MayDo(skew, v, c, l, m)
    requires k in l.held ==> ClaimOk(v, c, l, k)
    requires k in Changed(v, l, m).held
    ensures var h := Changed(v, l, m).held[k]; h.pendingDeletion || h.releasePending || h.lease <= v.now + LEASE_DURATION
  {
    if Takes(m, k) {
      TakesBoundedLease(skew, v, c, l, m, k);
    } else {
      hide MayDo, Changed, SecondOk, MemoryRefines, LearntLater, OwnOk, LookOk;
      OtherKeepsMemory(skew, v, c, l, m, k);
    }
  }

  lemma TakesBoundedLease(skew: Skew, v: Server, c: Cluster, l: Local, m: Change, k: Key)
    requires Takes(m, k) && OwnOk(v, c, l) && LookOk(skew, v, l) && MayDo(skew, v, c, l, m)
    requires k in l.held ==> LearntLater(l, k)
    requires k in Changed(v, l, m).held
    ensures var h := Changed(v, l, m).held[k]; h.pendingDeletion || h.releasePending || h.lease <= v.now + LEASE_DURATION
  {
    hide SecondOk, FenceDue;
  }

  lemma ChangeKeepsClaim(skew: Skew, v: Server, c: Cluster, l: Local, m: Change, k: Key)
    requires ServerOk(v) && OwnOk(v, c, l) && LookOk(skew, v, l) && l.releasing <= l.seen && MayDo(skew, v, c, l, m)
    requires k in l.held ==> ClaimOk(v, c, l, k)
    requires k in Changed(v, l, m).held
    ensures ClaimOk(v, c, Changed(v, l, m), k)
  {
    hide MayDo, Changed, MemoryRefines, LearntLater, ServerOk, OwnOk, LookOk;
    ChangeKeepsTokens(skew, v, c, l, m, k);
    ChangeKeepsMemory(skew, v, c, l, m, k);
    ChangeKeepsLearnt(skew, v, c, l, m, k);
    ChangeKeepsBound(skew, v, c, l, m, k);
  }

  lemma ChangeKeepsTimes(skew: Skew, v: Server, c: Cluster, l: Local, m: Change)
    requires TimesOk(skew, v, l) && MayDo(skew, v, c, l, m)
    ensures TimesOk(skew, v, Changed(v, l, m))
  {
    hide CauseHolds, SecondOk, FenceDue, TakeoverAllowed, SameCore, Entering;
  }

  /** Only held claims are seen without their Job, and only such claims are let go. */
  lemma ChangeKeepsSets(skew: Skew, v: Server, c: Cluster, l: Local, m: Change)
    requires l.releasing <= l.seen <= l.held.Keys && MayDo(skew, v, c, l, m)
    requires forall k :: k in l.held && l.held[k].releasePending ==> k in l.seen
    ensures var l' := Changed(v, l, m); l'.releasing <= l'.seen <= l'.held.Keys
  {
    hide SecondOk, FenceDue, TakeoverAllowed, SameCore, Entering, HoldOver, JoblessEligible;
  }

  lemma ChangeKeepsClock(skew: Skew, v: Server, c: Cluster, l: Local, m: Change)
    requires LocalOk(skew, v, c, l) && MayDo(skew, v, c, l, m)
    ensures ClockOk(skew, v, Changed(v, l, m))
  {
    hide LookOk, OwnOk, MayDo, Changed, MemoryRefines, LearntLater;
    forall k | k in l.held && l.held[k].releasePending ensures k in l.seen { assert ClaimOk(v, c, l, k); }
    ChangeKeepsTimes(skew, v, c, l, m);
    ChangeKeepsSets(skew, v, c, l, m);
  }

  lemma ChangeKeepsLook(skew: Skew, v: Server, c: Cluster, l: Local, m: Change)
    requires ServerOk(v) && LocalOk(skew, v, c, l) && MayDo(skew, v, c, l, m)
    ensures LookOk(skew, v, Changed(v, l, m))
  {
    hide OwnOk, HeldOk, ServerOk;
  }

  /** A change never adds to what replies have shown. */
  lemma ChangeKeepsOwnRecs(skew: Skew, v: Server, c: Cluster, l: Local, m: Change, k: Key)
    requires MayDo(skew, v, c, l, m) && k in Changed(v, l, m).own
    ensures k in l.own && Changed(v, l, m).own[k] == l.own[k]
  {
    hide CauseHolds, SecondOk, FenceDue, TakeoverAllowed, SameCore, Entering;
  }

  lemma ChangeKeepsOwn(skew: Skew, v: Server, c: Cluster, l: Local, m: Change)
    requires OwnOk(v, c, l) && MayDo(skew, v, c, l, m)
    ensures OwnOk(v, c, Changed(v, l, m))
  {
    hide MayDo, Changed;
    forall k | k in Changed(v, l, m).own ensures k in l.own && Changed(v, l, m).own[k] == l.own[k] {
      ChangeKeepsOwnRecs(skew, v, c, l, m, k);
    }
  }

  // The server changes in two ways only: a grant of one key, or a freed key.

  lemma GrantKeepsServer(v: Server, c: Cluster, k: Key, task: TaskId)
    requires ServerOk(v)
    ensures ServerOk(Granted(v, c, k, task))
  {}

  function Forget(l: Local, k: Key): Local { l.(own := l.own - {k}) }

  /** A grant to a peer. */
  lemma GrantKeepsPeer(skew: Skew, v: Server, c: Cluster, k: Key, task: TaskId, d: Cluster, l: Local)
    requires ServerOk(v) && LocalOk(skew, v, d, l) && d != c
    ensures LocalOk(skew, Granted(v, c, k, task), d, l)
  {}

  /** A grant to the cluster itself, before it learns of it. */
  lemma GrantKeepsHolder(skew: Skew, v: Server, c: Cluster, k: Key, task: TaskId, l: Local)
    requires ServerOk(v) && LocalOk(skew, v, c, l)
    ensures var v' := Granted(v, c, k, task);
            ClockOk(skew, v', l) && LookOk(skew, v', Forget(l, k)) && OwnOk(v', c, Forget(l, k))
    ensures k !in l.held ==> HeldOk(Granted(v, c, k, task), c, Forget(l, k))
  {}

  /** Learning a record of its own leaves the rest of what a cluster knows in order. */
  lemma LearnKeepsRest(skew: Skew, v: Server, c: Cluster, l: Local, k: Key, reply: bool, moved: set<Key>)
    requires ServerOk(v) && k in v.recs && v.recs[k].holder == c
    requires ClockOk(skew, v, l) && LookOk(skew, v, Forget(l, k)) && OwnOk(v, c, Forget(l, k))
    ensures var m := Learn(l, v, k, reply).(moved := moved); ClockOk(skew, v, m) && LookOk(skew, v, m) && OwnOk(v, c, m)
  {
    var m := Learn(l, v, k, reply).(moved := moved);
    assert m.look == l.look && m.held == l.held;
    assert forall p :: p in m.own ==> p == k || (p in Forget(l, k).own && m.own[p] == Forget(l, k).own[p]);
  }

  /** Learning a record of its own that the server holds. */
  lemma LearnKeepsLocal(skew: Skew, v: Server, c: Cluster, l: Local, k: Key)
    requires ServerOk(v) && LocalOk(skew, v, c, Forget(l, k))
    requires k in v.recs && v.recs[k].holder == c && k !in l.held
    ensures LocalOk(skew, v, c, Learn(l, v, k, true))
  {
    var m := Learn(l, v, k, true);
    LearnKeepsRest(skew, v, c, l, k, true, l.moved);
    assert m == m.(moved := l.moved);
    hide LookOk, OwnOk, ClockOk;
    forall p | p in m.held ensures ClaimOk(v, c, m, p) { assert ClaimOk(v, c, Forget(l, k), p); }
  }

  lemma FreeKeepsLocal(skew: Skew, v: Server, k: Key, d: Cluster, l: Local)
    requires ServerOk(v) && LocalOk(skew, v, d, l)
    ensures LocalOk(skew, v.(recs := v.recs - {k}), d, l)
  {}

  lemma RenewKeepsHeld(skew: Skew, v: Server, c: Cluster, l: Local, q: Request)
    requires q.Renew? && ServerOk(v) && LocalOk(skew, v, c, l) && MayLand(skew, v, c, l, q)
    ensures var v' := Landed(v, c, q); HeldOk(v', c, Replied(v', c, l, q))
  {}

  lemma LookKeepsSender(skew: Skew, v: Server, c: Cluster, l: Local, q: Request)
    requires q.Look_? && ServerOk(v) && LocalOk(skew, v, c, l) && MayLand(skew, v, c, l, q)
    ensures LocalOk(skew, v, c, Replied(v, c, l, q))
  {
    var m := Replied(v, c, l, q);
    assert LookOk(skew, v, m) && OwnOk(v, c, m) && ClockOk(skew, v, m);
    hide LookOk, OwnOk, ClockOk, ServerOk;
    forall k | k in m.held ensures ClaimOk(v, c, m, k) { assert ClaimOk(v, c, l, k); }
  }

  lemma ShowKeepsSender(skew: Skew, v: Server, c: Cluster, l: Local, q: Request)
    requires q.Show? && ServerOk(v) && LocalOk(skew, v, c, l) && MayLand(skew, v, c, l, q)
    ensures LocalOk(skew, v, c, Replied(v, c, l, q))
  {
    var m := Replied(v, c, l, q);
    assert m == Learn(l, v, q.k, true).(moved := l.moved);
    assert LookOk(skew, v, Forget(l, q.k)) && OwnOk(v, c, Forget(l, q.k));
    LearnKeepsRest(skew, v, c, l, q.k, true, l.moved);
    hide LookOk, OwnOk, ClockOk, ServerOk;
    forall k | k in m.held ensures ClaimOk(v, c, m, k) { assert ClaimOk(v, c, l, k); }
  }

  lemma ListKeepsSender(skew: Skew, v: Server, c: Cluster, l: Local, q: Request)
    requires q.List? && ServerOk(v) && LocalOk(skew, v, c, l) && MayLand(skew, v, c, l, q)
    ensures LocalOk(skew, v, c, Replied(v, c, l, q))
  {
    var m := Replied(v, c, l, q);
    assert LookOk(skew, v, m) && OwnOk(v, c, m) && ClockOk(skew, v, m);
    hide LookOk, OwnOk, ClockOk, ServerOk;
    forall k | k in m.held ensures ClaimOk(v, c, m, k) { assert ClaimOk(v, c, l, k); }
  }

  lemma RefuseKeepsSender(skew: Skew, v: Server, c: Cluster, l: Local, q: Request)
    requires q.Refuse? && LocalOk(skew, v, c, l)
    ensures LocalOk(skew, v, c, Replied(v, c, l, q))
  {
    var m := Replied(v, c, l, q);
    forall k | k in m.held ensures ClaimOk(v, c, m, k) { assert ClaimOk(v, c, l, k); }
  }

  lemma AcquireKeepsSender(skew: Skew, v: Server, c: Cluster, l: Local, q: Request)
    requires ServerOk(v) && LocalOk(skew, v, c, l) && MayLand(skew, v, c, l, q)
    requires q.Acquire? || q.AcquireSecond?
    ensures var v' := Landed(v, c, q); ServerOk(v') && LocalOk(skew, v', c, Replied(v', c, l, q))
  {
    var v' := Granted(v, c, q.k, q.task);
    assert q.k !in l.held && q.k in v'.recs && v'.recs[q.k].holder == c;
    hide Granted, LookOk, OwnOk, HeldOk, ServerOk, MayLand;
    GrantKeepsServer(v, c, q.k, q.task);
    GrantKeepsHolder(skew, v, c, q.k, q.task, l);
    assert LocalOk(skew, v', c, Forget(l, q.k));
    LearnKeepsLocal(skew, v', c, l, q.k);
  }

  /** A request landing on the server, seen from the cluster that sent it. */
  lemma RequestKeepsSender(skew: Skew, v: Server, c: Cluster, l: Local, q: Request)
    requires ServerOk(v) && LocalOk(skew, v, c, l) && MayLand(skew, v, c, l, q)
    ensures var v' := Landed(v, c, q); ServerOk(v') && LocalOk(skew, v', c, Replied(v', c, l, q))
  {
    match q
    case Acquire(k, task, reply) => AcquireKeepsSender(skew, v, c, l, q);
    case AcquireSecond(k, task, reply) => AcquireKeepsSender(skew, v, c, l, q);
    case Renew(k, primary, reply) => RenewKeepsSender(skew, v, c, l, q);
    case Free(k, token) => FreeKeepsSender(skew, v, c, l, q);
    case Lose(x) => LoseKeepsLocal(skew, v, c, l, x);
    case Look_(k, clock) => LookKeepsSender(skew, v, c, l, q);
    case Show(k) => ShowKeepsSender(skew, v, c, l, q);
    case List => ListKeepsSender(skew, v, c, l, q);
    case Refuse(k) => RefuseKeepsSender(skew, v, c, l, q);
  }

  lemma RenewKeepsSender(skew: Skew, v: Server, c: Cluster, l: Local, q: Request)
    requires q.Renew? && ServerOk(v) && LocalOk(skew, v, c, l) && MayLand(skew, v, c, l, q)
    ensures var v' := Landed(v, c, q); ServerOk(v') && LocalOk(skew, v', c, Replied(v', c, l, q))
  {
    var v' := Granted(v, c, q.k, v.recs[q.k].task);
    assert v' == Landed(v, c, q) && q.k in v'.recs && v'.recs[q.k].holder == c;
    assert Replied(v', c, l, q) == Learn(l, v', q.k, q.reply).(moved := l.moved + {q.k});
    hide Granted, Landed, Replied, Learn, MayLand, HeldOk, ServerOk, OwnOk, LookOk, ClockOk;
    GrantKeepsServer(v, c, q.k, v.recs[q.k].task);
    GrantKeepsHolder(skew, v, c, q.k, v.recs[q.k].task, l);
    RenewKeepsHeld(skew, v, c, l, q);
    LearnKeepsRest(skew, v', c, l, q.k, q.reply, l.moved + {q.k});
  }

  lemma FreeKeepsSender(skew: Skew, v: Server, c: Cluster, l: Local, q: Request)
    requires q.Free? && ServerOk(v) && LocalOk(skew, v, c, l) && MayLand(skew, v, c, l, q)
    ensures var v' := Landed(v, c, q); ServerOk(v') && LocalOk(skew, v', c, Replied(v', c, l, q))
  {
    FreeKeepsLocal(skew, v, q.k, c, l);
  }

  /** A request landing on the server, seen from every other cluster. */
  lemma RequestKeepsPeer(skew: Skew, v: Server, c: Cluster, l: Local, q: Request, d: Cluster, m: Local)
    requires ServerOk(v) && MayLand(skew, v, c, l, q) && d != c && LocalOk(skew, v, d, m)
    ensures LocalOk(skew, Landed(v, c, q), d, m)
  {
    match q
    case Acquire(k, task, reply) => GrantKeepsPeer(skew, v, c, k, task, d, m);
    case AcquireSecond(k, task, reply) => GrantKeepsPeer(skew, v, c, k, task, d, m);
    case Renew(k, primary, reply) => GrantKeepsPeer(skew, v, c, k, v.recs[k].task, d, m);
    case Free(k, token) => FreeKeepsLocal(skew, v, k, d, m);
    case Lose(x) => LoseKeepsLocal(skew, v, d, m, x);
    case _ =>
  }

  lemma LoseKeepsLocal(skew: Skew, v: Server, d: Cluster, m: Local, x: Late)
    requires ServerOk(v) && LocalOk(skew, v, d, m)
    ensures var v' := v.(pending := v.pending + {x}); ServerOk(v') && LocalOk(skew, v', d, m)
  {}

  // ---- late requests ----

  /** The server after a late grant of k to c. */
  function LateGranted(v: Server, c: Cluster, k: Key, task: TaskId): Server {
    Granted(v, c, k, task).(late := v.late + {v.issued})
  }

  lemma LateGrantKeepsServer(v: Server, c: Cluster, k: Key, task: TaskId)
    requires ServerOk(v)
    ensures ServerOk(LateGranted(v, c, k, task))
  {}

  /** A late grant leaves every cluster's knowledge in order, the sender's too: it knows
      nothing of the new token, but what it knows is no longer than the new lease. */
  lemma LateGrantKeepsLocal(skew: Skew, v: Server, c: Cluster, k: Key, task: TaskId, d: Cluster, l: Local)
    requires ServerOk(v) && LocalOk(skew, v, d, l)
    ensures LocalOk(skew, LateGranted(v, c, k, task), d, l)
  {
    var v' := LateGranted(v, c, k, task);
    assert LookOk(skew, v', l);
    assert OwnOk(v', d, l);
    hide LookOk, OwnOk;
    forall p | p in l.held ensures ClaimOk(v', d, l, p) { assert ClaimOk(v, d, l, p); }
  }

  lemma ArrivalKeepsServer(v: Server, x: Late)
    requires ServerOk(v) && MayArrive(v, x)
    ensures ServerOk(Arrived(v, x))
  {
    var u := v.(pending := v.pending - {x});
    match x
    case LateAcquire(c, k, task) => LateGrantKeepsServer(u, c, k, task);
    case LateRenew(c, k, token) => LateGrantKeepsServer(u, c, k, u.recs[k].task);
    case LateRelease(c, k, token) =>
  }

  lemma ArrivalKeepsLocal(skew: Skew, v: Server, x: Late, d: Cluster, l: Local)
    requires ServerOk(v) && MayArrive(v, x) && LocalOk(skew, v, d, l)
    ensures LocalOk(skew, Arrived(v, x), d, l)
  {
    var u := v.(pending := v.pending - {x});
    assert ServerOk(u);
    FewerPending(skew, v, x, d, l);
    match x
    case LateAcquire(c, k, task) => LateGrantKeepsLocal(skew, u, c, k, task, d, l);
    case LateRenew(c, k, token) => LateGrantKeepsLocal(skew, u, c, k, u.recs[k].task, d, l);
    case LateRelease(c, k, token) => FreeKeepsLocal(skew, u, k, d, l);
  }

  lemma FewerPending(skew: Skew, v: Server, x: Late, d: Cluster, l: Local)
    requires LocalOk(skew, v, d, l)
    ensures LocalOk(skew, v.(pending := v.pending - {x}), d, l)
  {}

  lemma DoKeepsInv(skew: Skew, w: World, c: Cluster, m: Change)
    requires Inv(skew, w) && c in w.local && MayDo(skew, w.server, c, w.local[c], m)
    ensures LocalOk(skew, w.server, c, Changed(w.server, w.local[c], m))
  {
    assert LocalOk(skew, w.server, c, w.local[c]);
    hide Changed, MayDo, ClaimOk, LookOk, OwnOk, ServerOk;
    var l, l' := w.local[c], Changed(w.server, w.local[c], m);
    assert l.releasing <= l.seen;
    forall k | k in l'.held ensures ClaimOk(w.server, c, l', k) {
      ChangeKeepsClaim(skew, w.server, c, l, m, k);
    }
    ChangeKeepsClock(skew, w.server, c, l, m);
    ChangeKeepsLook(skew, w.server, c, l, m);
    ChangeKeepsOwn(skew, w.server, c, l, m);
  }

  lemma TimeKeepsLocal(skew: Skew, v: Server, t: int, c: Cluster, l: Local)
    requires LocalOk(skew, v, c, l) && t >= v.now
    ensures LocalOk(skew, v.(now := t), c, l)
  {
    var v' := v.(now := t);
    forall k | k in l.held ensures ClaimOk(v', c, l, k) { assert ClaimOk(v, c, l, k); }
  }

  lemma StepKeepsInv(skew: Skew, w: World, s: Step)
    requires Inv(skew, w) && Enabled(skew, w, s)
    ensures Inv(skew, Apply(w, s))
  {
    hide LocalOk, MayDo, MayLand, MayArrive, Changed, Replied, Landed, Arrived;
    match s
    case Advance(t) =>
      forall c | c in w.local ensures LocalOk(skew, Apply(w, s).server, c, w.local[c]) {
        TimeKeepsLocal(skew, w.server, t, c, w.local[c]);
      }
    case Do(c, m) => DoKeepsInv(skew, w, c, m);
    case Send(c, q) =>
      RequestKeepsSender(skew, w.server, c, w.local[c], q);
      forall d | d in w.local && d != c ensures LocalOk(skew, Apply(w, s).server, d, w.local[d]) {
        RequestKeepsPeer(skew, w.server, c, w.local[c], q, d, w.local[d]);
      }
    case Land(x) =>
      ArrivalKeepsServer(w.server, x);
      forall d | d in w.local ensures LocalOk(skew, Apply(w, s).server, d, w.local[d]) {
        ArrivalKeepsLocal(skew, w.server, x, d, w.local[d]);
      }
  }

  lemma {:induction false} RunKeepsInv(skew: Skew, run: Run, i: nat)
    requires IsRun(skew, run) && i < |run.states|
    ensures Inv(skew, run.states[i])
  {
    if i > 0 {
      RunKeepsInv(skew, run, i - 1);
      StepKeepsInv(skew, run.states[i - 1], run.steps[i - 1]);
    }
  }
}
