/**
 Cross-cluster exclusion: when it holds, for every run, and exactly when it does.  Two
 settings are told apart: requests that land while their caller waits, and requests that may
 land at any time after their caller gave up.
 */
module LeaseExclusion {
  import opened Wrappers
  import opened LeaseProtocol
  import opened LeaseInvariants

  /** Every cluster completes a fence evaluation, counted from the instant its clock
      was read, less than d seconds after the previous one. */
  ghost predicate Timely(run: Run, d: nat) {
    forall i, c :: 0 <= i < |run.states| && c in run.states[i].local ==>
      run.states[i].server.now - run.states[i].local[c].lastFence < d
  }

  /** An acquire lands less than one lease length after the read it rests on. */
  predicate Prompt(w: World, s: Step) {
    s.Send? && s.q.Acquire? && s.c in w.local && w.local[s.c].look.Some? ==>
      w.server.now - w.local[s.c].look.value.at < LEASE_DURATION
  }

  /** The manager does not take over with the very token its read had found, which is
      what reading back an acquire that never landed shows it for its own old record. */
  predicate Fresh(w: World, s: Step) {
    s.Do? && s.m.Store? && s.c in w.local && w.local[s.c].look.Some? && w.local[s.c].look.value.before.Some?
    && s.m.k in w.local[s.c].own ==>
      w.local[s.c].own[s.m.k].token != w.local[s.c].look.value.before.value.token
  }

  /** Single-ref claims only: the second ref of a pair is acquired without a read. */
  predicate SingleRef(s: Step) { !(s.Send? && s.q.AcquireSecond?) }

  /** A release that outlived its caller does not land on a claim its cluster has taken up
      again, or has just read as its own. */
  predicate LetGoFirst(w: World, s: Step) {
    s.Land? && s.late.LateRelease? && s.late.c in w.local ==>
      !Live(w.local[s.late.c], s.late.k) && s.late.k !in w.local[s.late.c].own
  }

  /** With late requests, acquires may land whenever they like; without, each lands while its
      caller waits and within a lease length of its read. */
  predicate Disciplined(w: World, s: Step, late: bool) {
    Fresh(w, s) && SingleRef(s) && LetGoFirst(w, s) && (late || (Prompt(w, s) && !s.Land?))
  }

  ghost predicate DisciplinedRun(run: Run, late: bool) {
    |run.states| == |run.steps| + 1 && forall i :: 0 <= i < |run.steps| ==> Disciplined(run.states[i], run.steps[i], late)
  }

  /** No two clusters hold one key live at the same time. */
  ghost predicate Exclusive(w: World) {
    forall a, b, k :: a in w.local && b in w.local && a != b ==> !(Live(w.local[a], k) && Live(w.local[b], k))
  }

  function TakeoverDelay(skew: Skew): nat { if skew.fast < TAKEOVER_GRACE then TAKEOVER_GRACE - skew.fast else 0 }

  /** How long after a lease's end the server may grant its key to a peer: the client's grace
      protects it only from requests that land while their caller waits. */
  function Delay(skew: Skew, late: bool): nat { if late then 0 else TakeoverDelay(skew) }

  /** The fence of the slowest holder comes before the takeover of the fastest peer. */
  predicate FenceBeatsTakeover(skew: Skew, d: nat, late: bool) {
    d + skew.slow <= FENCE_MARGIN + FENCE_LEAD + Delay(skew, late)
  }

  // ---- the invariant behind it ----

  /** A lease until `lease` granted to c on k is respected: the server still names c
      at least that long, or no peer could have taken it before now. */
  predicate Respected(delay: nat, v: Server, c: Cluster, k: Key, lease: int) {
    || (k in v.recs && v.recs[k].holder == c && v.recs[k].lease.Some? && v.recs[k].lease.value >= lease)
    || v.now >= lease + delay
  }

  predicate KeyGuarded(skew: Skew, delay: nat, v: Server, c: Cluster, l: Local, k: Key) {
    && (Live(l, k) ==>
          && Respected(delay, v, c, k, l.held[k].lease)
          && l.held[k].lease >= l.lastFence - skew.slow + FENCE_MARGIN + FENCE_LEAD)
    && (k in l.own && l.own[k].lease.Some? ==> Respected(delay, v, c, k, l.own[k].lease.value))
  }

  ghost predicate Guarded(skew: Skew, delay: nat, w: World) {
    forall c, k :: c in w.local ==> KeyGuarded(skew, delay, w.server, c, w.local[c], k)
  }

  lemma ChangeKeepsGuard(skew: Skew, delay: nat, w: World, c: Cluster, m: Change, k: Key)
    requires Inv(skew, w) && c in w.local && MayDo(skew, w.server, c, w.local[c], m)
    requires Fresh(w, Do(c, m)) && KeyGuarded(skew, delay, w.server, c, w.local[c], k)
    ensures KeyGuarded(skew, delay, w.server, c, Changed(w.server, w.local[c], m), k)
  {
    assert LocalOk(skew, w.server, c, w.local[c]);
    var l, l' := w.local[c], Changed(w.server, w.local[c], m);
    if k in l'.own { ChangeKeepsOwnRecs(skew, w.server, c, l, m, k); }
    if Live(l', k) { ChangeKeepsLive(skew, w.server, c, l, m, k); }
  }

  /** A live claim remembers the lease it had, or one a reply has shown, and either way it is
      far enough ahead of the last fence. */
  lemma ChangeKeepsLive(skew: Skew, v: Server, c: Cluster, l: Local, m: Change, k: Key)
    requires LocalOk(skew, v, c, l) && MayDo(skew, v, c, l, m) && Live(Changed(v, l, m), k)
    requires Live(l, k) ==> l.held[k].lease >= l.lastFence - skew.slow + FENCE_MARGIN + FENCE_LEAD
    requires m.Store? && l.look.value.before.Some? ==> l.own[m.k].token != l.look.value.before.value.token
    ensures var l' := Changed(v, l, m);
            && l'.held[k].lease >= l'.lastFence - skew.slow + FENCE_MARGIN + FENCE_LEAD
            && (|| (Live(l, k) && l'.held[k].lease == l.held[k].lease)
                || (k in l.own && l.own[k].lease.Some? && l'.held[k].lease <= l.own[k].lease.value))
  {
    if k in l.held { assert ClaimOk(v, c, l, k); }
    assert TimesOk(skew, v, l);
    assert l.look.Some? ==>
        l.look.value.at >= l.lastFence && (l.look.value.key in l.own ==> Since(l.look.value, l.own[l.look.value.key]));
    hide LocalOk, ClaimOk;
    if Takes(m, k) { TakesLiveLease(skew, v, c, l, m, k); } else { OthersKeepLive(skew, v, c, l, m, k); }
  }

  /** A claim that enters the held map or takes a new lease does so from a reply. */
  lemma TakesLiveLease(skew: Skew, v: Server, c: Cluster, l: Local, m: Change, k: Key)
    requires Takes(m, k) && MayDo(skew, v, c, l, m) && Live(Changed(v, l, m), k)
    requires k in l.held ==> LearntLater(l, k)
    requires l.look.Some? ==>
               l.look.value.at >= l.lastFence && (l.look.value.key in l.own ==> Since(l.look.value, l.own[l.look.value.key]))
    requires Live(l, k) ==> l.held[k].lease >= l.lastFence - skew.slow + FENCE_MARGIN + FENCE_LEAD
    requires m.Store? && l.look.value.before.Some? ==> l.own[m.k].token != l.look.value.before.value.token
    ensures var l' := Changed(v, l, m);
            && l'.held[k].lease >= l'.lastFence - skew.slow + FENCE_MARGIN + FENCE_LEAD
            && k in l.own && l.own[k].lease.Some? && l'.held[k].lease <= l.own[k].lease.value
  {
    hide SecondOk;
  }

  /** Any other claim that is live was live with the same lease, and a completed fence
      evaluation left it far enough ahead. */
  lemma OthersKeepLive(skew: Skew, v: Server, c: Cluster, l: Local, m: Change, k: Key)
    requires !Takes(m, k) && TimesOk(skew, v, l) && MayDo(skew, v, c, l, m) && Live(Changed(v, l, m), k)
    requires Live(l, k) ==> l.held[k].lease >= l.lastFence - skew.slow + FENCE_MARGIN + FENCE_LEAD
    ensures var l' := Changed(v, l, m);
            && l'.held[k].lease >= l'.lastFence - skew.slow + FENCE_MARGIN + FENCE_LEAD
            && Live(l, k) && l'.held[k].lease == l.held[k].lease
  {
    hide SecondOk, CauseHolds, TakeoverAllowed, Entering;
  }

  /** What a cluster's own request leaves of a lease it had: its own grants only lengthen it. */
  lemma RequestKeepsOwnRespect(skew: Skew, delay: nat, w: World, c: Cluster, q: Request, k: Key, lease: int)
    requires Inv(skew, w) && c in w.local && MayLand(skew, w.server, c, w.local[c], q)
    requires Respected(delay, w.server, c, k, lease) && (q.Free? ==> q.k != k)
    ensures Respected(delay, Landed(w.server, c, q), c, k, lease)
  {
    hide LocalOk;
  }

  /** What a request teaches its sender of a key: nothing new, or the server's record. */
  lemma RequestTeaches(skew: Skew, w: World, c: Cluster, q: Request, k: Key)
    requires c in w.local && MayLand(skew, w.server, c, w.local[c], q)
    ensures var v := Landed(w.server, c, q); var l, l' := w.local[c], Replied(v, c, w.local[c], q);
            && l'.held == l.held && l'.releasing == l.releasing && l'.lastFence == l.lastFence
            && (k in l'.own ==>
                  || (k in l.own && l'.own[k] == l.own[k] && !(q.Free? && q.k == k))
                  || (k in v.recs && v.recs[k].holder == c && l'.own[k] == v.recs[k]))
  {
    hide Names, Gone, Acquirable, TakeoverAllowed, RefToken, MayLose;
  }

  lemma RequestKeepsOwnGuard(skew: Skew, delay: nat, w: World, c: Cluster, q: Request, k: Key)
    requires Inv(skew, w) && c in w.local && MayLand(skew, w.server, c, w.local[c], q)
    requires KeyGuarded(skew, delay, w.server, c, w.local[c], k)
    ensures var v' := Landed(w.server, c, q); KeyGuarded(skew, delay, v', c, Replied(v', c, w.local[c], q), k)
  {
    hide Landed, Replied, Inv;
    var l := w.local[c];
    RequestTeaches(skew, w, c, q, k);
    if Live(l, k) { RequestKeepsOwnRespect(skew, delay, w, c, q, k, l.held[k].lease); }
    if k in l.own && l.own[k].lease.Some? && !(q.Free? && q.k == k) {
      RequestKeepsOwnRespect(skew, delay, w, c, q, k, l.own[k].lease.value);
    }
    hide MayLand;
  }

  /** A peer's request leaves every respected lease respected: a peer replaces a record only
      once its lease is over, and while its caller waits only after the grace it read in the
      listed lease. */
  lemma RequestKeepsRespect(skew: Skew, late: bool, w: World, c: Cluster, q: Request, d: Cluster, k: Key, lease: int)
    requires Inv(skew, w) && c in w.local && MayLand(skew, w.server, c, w.local[c], q)
    requires Disciplined(w, Send(c, q), late) && d != c && Respected(Delay(skew, late), w.server, d, k, lease)
    ensures Respected(Delay(skew, late), Landed(w.server, c, q), d, k, lease)
  {
    assert LocalOk(skew, w.server, c, w.local[c]);
  }

  /** So does a late request, of a peer or of the holder itself. */
  lemma ArrivalKeepsGuard(skew: Skew, w: World, x: Late, d: Cluster, k: Key)
    requires Inv(skew, w) && MayArrive(w.server, x) && LetGoFirst(w, Land(x)) && d in w.local
    requires KeyGuarded(skew, 0, w.server, d, w.local[d], k)
    ensures KeyGuarded(skew, 0, Arrived(w.server, x), d, w.local[d], k)
  {
    hide LocalOk;
  }

  lemma StepKeepsGuard(skew: Skew, late: bool, w: World, s: Step)
    requires Inv(skew, w) && Enabled(skew, w, s) && Disciplined(w, s, late) && Guarded(skew, Delay(skew, late), w)
    ensures Guarded(skew, Delay(skew, late), Apply(w, s))
  {
    hide Inv, MayDo, MayLand, MayArrive, Changed, Replied, Landed, Arrived, Fresh, Prompt, LetGoFirst, TakeoverDelay;
    var w', delay := Apply(w, s), Delay(skew, late);
    forall d, k | d in w'.local ensures KeyGuarded(skew, delay, w'.server, d, w'.local[d], k) {
      assert KeyGuarded(skew, delay, w.server, d, w.local[d], k);
      match s
      case Advance(t) =>
      case Do(c, m) => if d == c { ChangeKeepsGuard(skew, delay, w, c, m, k); }
      case Land(x) => ArrivalKeepsGuard(skew, w, x, d, k);
      case Send(c, q) =>
        if d == c {
          RequestKeepsOwnGuard(skew, delay, w, c, q, k);
        } else {
          if Live(w.local[d], k) { RequestKeepsRespect(skew, late, w, c, q, d, k, w.local[d].held[k].lease); }
          if k in w.local[d].own && w.local[d].own[k].lease.Some? {
            RequestKeepsRespect(skew, late, w, c, q, d, k, w.local[d].own[k].lease.value);
          }
        }
    }
  }

  lemma {:induction false} RunKeepsGuard(skew: Skew, late: bool, run: Run, i: nat)
    requires IsRun(skew, run) && DisciplinedRun(run, late) && i < |run.states|
    ensures Guarded(skew, Delay(skew, late), run.states[i])
  {
    hide Enabled, Apply, Disciplined, Delay;
    if i > 0 {
      RunKeepsInv(skew, run, i - 1);
      RunKeepsGuard(skew, late, run, i - 1);
      StepKeepsGuard(skew, late, run.states[i - 1], run.steps[i - 1]);
    }
  }

  // ---- the theorem ----

  lemma ExclusionHolds(skew: Skew, late: bool, run: Run, d: nat, i: nat)
    requires IsRun(skew, run) && DisciplinedRun(run, late) && Timely(run, d) && FenceBeatsTakeover(skew, d, late)
    requires i < |run.states|
    ensures Exclusive(run.states[i])
  {
    RunKeepsGuard(skew, late, run, i);
    hide IsRun, DisciplinedRun;
    var w, delay := run.states[i], Delay(skew, late);
    forall a, b, k | a in w.local && b in w.local && a != b ensures !(Live(w.local[a], k) && Live(w.local[b], k)) {
      assert KeyGuarded(skew, delay, w.server, a, w.local[a], k) && KeyGuarded(skew, delay, w.server, b, w.local[b], k);
    }
  }

  /** While a claim is live, the server's record names its holder, so a peer's acquire
      of the key is refused or the holder has already let go. */
  lemma LiveIsOnServer(skew: Skew, late: bool, run: Run, d: nat, i: nat, c: Cluster, k: Key)
    requires IsRun(skew, run) && DisciplinedRun(run, late) && Timely(run, d) && FenceBeatsTakeover(skew, d, late)
    requires i < |run.states| && c in run.states[i].local && Live(run.states[i].local[c], k)
    ensures var v := run.states[i].server; k in v.recs && v.recs[k].holder == c
  {
    RunKeepsGuard(skew, late, run, i);
    hide IsRun, DisciplinedRun;
    assert KeyGuarded(skew, Delay(skew, late), run.states[i].server, c, run.states[i].local[c], k);
  }
}
