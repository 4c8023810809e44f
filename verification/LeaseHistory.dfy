/**
 What a run's past says about a claim that is dropped, held after success or released
 for want of a Job.
 */
module LeaseHistory {
  import opened Wrappers
  import opened LeaseProtocol
  import opened LeaseInvariants

  /** k is held by c, for one task, in every state from index i to index j. */
  ghost predicate HeldThroughout(run: Run, c: Cluster, k: Key, task: TaskId, i: nat, j: nat) {
    i <= j < |run.states| &&
    forall n :: i <= n <= j ==>
      c in run.states[n].local && k in run.states[n].local[c].held && run.states[n].local[c].held[k].task == task
  }

  /** Step e of c saw the task's Job deleted or not running. */
  predicate JobStopped(run: Run, e: nat, c: Cluster, task: TaskId) {
    e < |run.steps| && (run.steps[e] == Do(c, JobDeleted(task)) || run.steps[e] == Do(c, Answered(task, false)))
  }

  /** The parts of a cluster's side that only its own changes touch. */
  predicate SameClaims(l: Local, m: Local) {
    l.held == m.held && l.seen == m.seen && l.idle == m.idle && l.releasing == m.releasing && l.fence == m.fence
  }

  /** A step either changes c's own side or leaves its claims alone. */
  lemma StepFrame(skew: Skew, w: World, s: Step, c: Cluster)
    requires Enabled(skew, w, s) && c in w.local
    ensures c in Apply(w, s).local
    ensures s.Do? && s.c == c ==>
              MayDo(skew, w.server, c, w.local[c], s.m) && Apply(w, s).local[c] == Changed(w.server, w.local[c], s.m)
    ensures !(s.Do? && s.c == c) ==> SameClaims(w.local[c], Apply(w, s).local[c])
  {
    hide MayDo, MayLand, MayArrive, Changed, Replied, Landed, Arrived;
    if s.Send? { ReplyFrame(Landed(w.server, s.c, s.q), s.c, w.local[s.c], s.q); }
  }

  lemma ReplyFrame(v: Server, c: Cluster, l: Local, q: Request)
    ensures SameClaims(l, Replied(v, c, l, q))
  {}

  lemma RunStep(skew: Skew, run: Run, i: nat)
    requires IsRun(skew, run) && 0 < i < |run.states|
    ensures i <= |run.steps| && Enabled(skew, run.states[i - 1], run.steps[i - 1])
    ensures run.states[i] == Apply(run.states[i - 1], run.steps[i - 1])
  {}

  /** The set of clusters never changes. */
  lemma SameClusters(skew: Skew, w: World, s: Step)
    requires Enabled(skew, w, s)
    ensures Apply(w, s).local.Keys == w.local.Keys
  {}

  lemma ChangeKeepsSeen(skew: Skew, v: Server, c: Cluster, l: Local, m: Change, k: Key)
    requires MayDo(skew, v, c, l, m) && l.seen <= l.held.Keys && k in Changed(v, l, m).seen
    ensures var l' := Changed(v, l, m);
            && k in l.held && k in l'.held && l'.held[k].task == l.held[k].task
            && (k in l.seen || m == JobDeleted(l.held[k].task) || m == Answered(l.held[k].task, false))
  {}

  lemma SeenAreHeld(skew: Skew, w: World, c: Cluster)
    requires Inv(skew, w) && c in w.local
    ensures w.local[c].releasing <= w.local[c].seen <= w.local[c].held.Keys
  {
    assert LocalOk(skew, w.server, c, w.local[c]);
  }

  lemma StartIsEmpty(skew: Skew, run: Run, c: Cluster)
    requires IsRun(skew, run) && c in run.states[0].local
    ensures run.states[0].local[c] == Local(map[], None, map[], {}, {}, {}, map[], {}, None, run.states[0].server.now)
  {}

  lemma ThroughoutNext(run: Run, c: Cluster, k: Key, task: TaskId, e: nat, i: nat)
    requires 0 < i < |run.states| && (e == i - 1 || HeldThroughout(run, c, k, task, e, i - 1))
    requires forall n :: i - 1 <= n <= i ==>
        c in run.states[n].local && k in run.states[n].local[c].held && run.states[n].local[c].held[k].task == task
    ensures HeldThroughout(run, c, k, task, e, i)
  {}

  /** A claim marked as seen has its evidence in the past, and has been held since. */
  lemma {:induction false} SeenHasEvidence(skew: Skew, run: Run, i: nat, c: Cluster, k: Key) returns (e: nat)
    requires IsRun(skew, run) && i < |run.states| && c in run.states[i].local && k in run.states[i].local[c].seen
    ensures e < i && k in run.states[i].local[c].held
    ensures JobStopped(run, e, c, run.states[i].local[c].held[k].task)
    ensures HeldThroughout(run, c, k, run.states[i].local[c].held[k].task, e, i)
  {
    hide Apply, Enabled, MayDo, MayLand, Changed, Init, Inv, HeldThroughout;
    if i == 0 { StartIsEmpty(skew, run, c); }
    var w, s := run.states[i - 1], run.steps[i - 1];
    assert run.states[i] == Apply(w, s) && Enabled(skew, w, s);
    RunKeepsInv(skew, run, i - 1);
    SameClusters(skew, w, s);
    SeenAreHeld(skew, w, c);
    StepFrame(skew, w, s, c);
    if s.Do? && s.c == c { ChangeKeepsSeen(skew, w.server, c, w.local[c], s.m, k); }
    if k in w.local[c].seen {
      e := SeenHasEvidence(skew, run, i - 1, c, k);
    } else {
      e := i - 1;
    }
    ThroughoutNext(run, c, k, w.local[c].held[k].task, e, i);
  }

  lemma OnlyDropRemoves(skew: Skew, v: Server, c: Cluster, l: Local, m: Change, k: Key)
    requires MayDo(skew, v, c, l, m) && k in l.held && k !in Changed(v, l, m).held
    ensures m == Drop(k) && k in l.releasing
  {}

  /** No silent drop: every claim removed from the held map was preceded, while it was
      held, by a Job deletion that succeeded or by an answer that its Job is not running. */
  lemma NoSilentDrop(skew: Skew, run: Run, i: nat, c: Cluster, k: Key) returns (e: nat)
    requires IsRun(skew, run) && i < |run.steps|
    requires c in run.states[i].local && k in run.states[i].local[c].held
    requires k !in run.states[i + 1].local[c].held
    ensures e < i && JobStopped(run, e, c, run.states[i].local[c].held[k].task)
    ensures HeldThroughout(run, c, k, run.states[i].local[c].held[k].task, e, i)
  {
    hide Apply, Enabled, MayDo, MayLand, Changed, Init, Inv;
    var w, s := run.states[i], run.steps[i];
    assert run.states[i + 1] == Apply(w, s) && Enabled(skew, w, s);
    RunKeepsInv(skew, run, i);
    SeenAreHeld(skew, w, c);
    StepFrame(skew, w, s, c);
    OnlyDropRemoves(skew, w.server, c, w.local[c], s.m, k);
    e := SeenHasEvidence(skew, run, i, c, k);
  }

  // ---- the hold after a success ----

  /** The claim is under a success hold until at least `until` and no other path owns it. */
  predicate UnderHold(l: Local, k: Key, until: int) {
    && k in l.held && k !in l.releasing
    && !l.held[k].pendingDeletion && !l.held[k].releasePending && !l.held[k].needsRunningCheck
    && l.held[k].holdUntil.Some? && l.held[k].holdUntil.value >= until
  }

  /** c fences k, loses its lease, or acts on a clock reading that is past `until`. */
  predicate EndsHold(s: Step, c: Cluster, k: Key, until: int) {
    s.Do? && s.c == c &&
    match s.m
    case MarkPendingDeletion(key, fence) => key == k
    case BeginDrop(key, cause) =>
      key == k && (cause.Fenced? || cause.Lost? || (cause.HoldEnded? && cause.clock >= until))
    case _ => false
  }

  lemma ChangeKeepsHold(skew: Skew, v: Server, c: Cluster, l: Local, m: Change, k: Key, until: int)
    requires MayDo(skew, v, c, l, m) && UnderHold(l, k, until) && !EndsHold(Do(c, m), c, k, until)
    ensures UnderHold(Changed(v, l, m), k, until)
  {}

  /** No step from i to j ends the hold. */
  predicate HoldGoesOn(run: Run, i: nat, j: nat, c: Cluster, k: Key, until: int) {
    j <= |run.steps| && forall n :: i <= n < j ==> !EndsHold(run.steps[n], c, k, until)
  }

  /** One step that does not end the hold. */
  lemma HoldStays(skew: Skew, w: World, s: Step, c: Cluster, k: Key, until: int)
    requires Enabled(skew, w, s) && c in w.local && UnderHold(w.local[c], k, until) && !EndsHold(s, c, k, until)
    ensures c in Apply(w, s).local && UnderHold(Apply(w, s).local[c], k, until)
  {
    hide Apply, Enabled, MayDo, MayLand, Changed, EndsHold;
    StepFrame(skew, w, s, c);
    if s.Do? && s.c == c { ChangeKeepsHold(skew, w.server, c, w.local[c], s.m, k, until); }
  }

  /** Before its hold is over a claim leaves the held map only by fence or lost lease:
      no release, success release or tick in between drops or shortens it. */
  lemma {:induction false} HoldOutlastsReleases(skew: Skew, run: Run, i: nat, j: nat, c: Cluster, k: Key, until: int)
    requires IsRun(skew, run) && i <= j < |run.states| && c in run.states[i].local
    requires UnderHold(run.states[i].local[c], k, until)
    requires HoldGoesOn(run, i, j, c, k, until)
    ensures c in run.states[j].local && UnderHold(run.states[j].local[c], k, until)
  {
    hide IsRun, Apply, Enabled, UnderHold, EndsHold;
    if i < j {
      HoldOutlastsReleases(skew, run, i, j - 1, c, k, until);
      RunStep(skew, run, j);
      HoldStays(skew, run.states[j - 1], run.steps[j - 1], c, k, until);
    }
  }

  lemma ChangeBoundsHold(skew: Skew, v: Server, c: Cluster, l: Local, m: Change, k: Key)
    requires MayDo(skew, v, c, l, m) && k in Changed(v, l, m).held
    ensures var until := Changed(v, l, m).held[k].holdUntil;
            || (k in l.held && l.held[k].holdUntil == until)
            || (until.Some? ==> until.value <= v.now + skew.fast + SUCCESS_GRACE)
  {}

  lemma TimeAdvances(skew: Skew, w: World, s: Step)
    requires Enabled(skew, w, s)
    ensures w.server.now <= Apply(w, s).server.now
  {}

  predicate HoldWithin(skew: Skew, h: Held, now: int) {
    h.holdUntil.Some? ==> h.holdUntil.value <= now + skew.fast + SUCCESS_GRACE
  }

  lemma HoldStaysWithin(skew: Skew, now: int, later: int)
    requires now <= later
    ensures forall h, g: Held :: HoldWithin(skew, h, now) && g.holdUntil == h.holdUntil ==> HoldWithin(skew, g, later)
  {}

  /** One step back from a held claim: it was held with the same hold, or its hold is within
      the bound. */
  lemma HoldStep(skew: Skew, run: Run, i: nat, c: Cluster, k: Key)
    requires IsRun(skew, run) && 0 < i < |run.states| && c in run.states[i].local && k in run.states[i].local[c].held
    ensures c in run.states[i - 1].local && run.states[i - 1].server.now <= run.states[i].server.now
    ensures var h, l := run.states[i].local[c].held[k], run.states[i - 1].local[c];
            HoldWithin(skew, h, run.states[i].server.now) || (k in l.held && l.held[k].holdUntil == h.holdUntil)
  {
    hide Apply, Enabled, MayDo, MayLand, Changed, IsRun;
    RunStep(skew, run, i);
    var w, s := run.states[i - 1], run.steps[i - 1];
    SameClusters(skew, w, s);
    StepFrame(skew, w, s, c);
    TimeAdvances(skew, w, s);
    if s.Do? && s.c == c { ChangeBoundsHold(skew, w.server, c, w.local[c], s.m, k); }
  }

  /** A hold never reaches further than the grace period from the latest clock reading. */
  lemma {:induction false} HoldIsBounded(skew: Skew, run: Run, i: nat, c: Cluster, k: Key)
    requires IsRun(skew, run) && i < |run.states| && c in run.states[i].local && k in run.states[i].local[c].held
    ensures HoldWithin(skew, run.states[i].local[c].held[k], run.states[i].server.now)
  {
    hide IsRun, HoldWithin;
    if i == 0 {
      StartIsEmpty(skew, run, c);
    } else {
      HoldStep(skew, run, i, c, k);
      HoldStaysWithin(skew, run.states[i - 1].server.now, run.states[i].server.now);
      if k in run.states[i - 1].local[c].held { HoldIsBounded(skew, run, i - 1, c, k); }
    }
  }

  // ---- the fence ----

  lemma ChangeKeepsFence(v: Server, l: Local, m: Change)
    ensures !m.StartFence? && Changed(v, l, m).fence.Some? ==> l.fence == Changed(v, l, m).fence
    ensures m.StartFence? ==> Changed(v, l, m).fence == Some(Fence(m.clock, v.now))
  {}

  /** A fence evaluation under way was started at its clock reading. */
  lemma {:induction false} FenceWasStarted(skew: Skew, run: Run, i: nat, c: Cluster) returns (n: nat)
    requires IsRun(skew, run) && i < |run.states| && c in run.states[i].local && run.states[i].local[c].fence.Some?
    ensures n < i <= |run.steps| && run.steps[n] == Do(c, StartFence(run.states[i].local[c].fence.value.clock))
  {
    if i == 0 { StartIsEmpty(skew, run, c); }
    hide IsRun, Enabled, Apply, Changed, MayDo;
    RunStep(skew, run, i);
    var w, s := run.states[i - 1], run.steps[i - 1];
    SameClusters(skew, w, s);
    StepFrame(skew, w, s, c);
    if s.Do? && s.c == c { ChangeKeepsFence(w.server, w.local[c], s.m); }
    if s.Do? && s.c == c && s.m.StartFence? { n := i - 1; } else { n := FenceWasStarted(skew, run, i - 1, c); }
  }

  /** A claim is only ever let go by the fence when it waits for its Job's deletion already, or
      when the clock reading its evaluation started with was within seventy seconds of its
      lease end. */
  lemma FenceIsJustified(skew: Skew, run: Run, i: nat, c: Cluster, k: Key) returns (n: nat)
    requires IsRun(skew, run) && i < |run.steps| && run.steps[i] == Do(c, BeginDrop(k, Fenced))
    ensures c in run.states[i].local && k in run.states[i].local[c].held
    ensures var h := run.states[i].local[c].held[k];
            h.pendingDeletion ||
            (n < i && run.steps[n].Do? && run.steps[n].c == c && run.steps[n].m.StartFence? && run.steps[n].m.clock > h.lease - 70)
  {
    assert Enabled(skew, run.states[i], run.steps[i]);
    hide IsRun;
    n := 0;
    if !run.states[i].local[c].held[k].pendingDeletion { n := FenceWasStarted(skew, run, i, c); }
  }

  // ---- the jobless release ----

  predicate SawRunning(run: Run, n: nat, c: Cluster, k: Key) {
    n < |run.steps| && run.steps[n].Do? && run.steps[n].c == c && run.steps[n].m.Checked?
    && run.steps[n].m.k == k && run.steps[n].m.running
  }

  predicate SawIdle(run: Run, n: nat, c: Cluster, k: Key, pass: int) {
    n < |run.steps| && run.steps[n] == Do(c, Checked(k, pass, false))
  }

  /** Step e was a jobless check at `pass` that saw no Job, and none since saw one. */
  ghost predicate IdleSince(run: Run, e: nat, i: nat, c: Cluster, k: Key, pass: int) {
    e < i && SawIdle(run, e, c, k, pass) && forall n :: e < n < i ==> !SawRunning(run, n, c, k)
  }

  lemma ChangeKeepsJobless(skew: Skew, v: Server, c: Cluster, l: Local, m: Change, k: Key)
    requires MayDo(skew, v, c, l, m)
    ensures var l' := Changed(v, l, m);
            && (k in l'.held && l'.held[k].joblessSince.Some? ==>
                  (k in l.held && l.held[k].joblessSince == l'.held[k].joblessSince
                   && !(m.Checked? && m.k == k && m.running))
                  || m == Checked(k, l'.held[k].joblessSince.value, false))
            && (k in l'.idle ==>
                  (k in l.idle && l.idle[k] == l'.idle[k] && !(m.Checked? && m.k == k))
                  || m == Checked(k, l'.idle[k], false))
  {}

  lemma IdleStill(run: Run, e: nat, i: nat, c: Cluster, k: Key, pass: int)
    requires i > 0 && !SawRunning(run, i - 1, c, k)
    requires if e == i - 1 then SawIdle(run, e, c, k, pass) else IdleSince(run, e, i - 1, c, k, pass)
    ensures IdleSince(run, e, i, c, k, pass)
  {}

  /** One step back from a claim whose Job is absent since some pass. */
  lemma JoblessStep(skew: Skew, run: Run, i: nat, c: Cluster, k: Key)
    requires IsRun(skew, run) && i < |run.states| && c in run.states[i].local && k in run.states[i].local[c].held
    requires run.states[i].local[c].held[k].joblessSince.Some?
    ensures i > 0 && c in run.states[i - 1].local && !SawRunning(run, i - 1, c, k)
    ensures var since := run.states[i].local[c].held[k].joblessSince; var l := run.states[i - 1].local[c];
            SawIdle(run, i - 1, c, k, since.value) || (k in l.held && l.held[k].joblessSince == since)
  {
    if i == 0 {
      StartIsEmpty(skew, run, c);
    } else {
      hide Apply, Enabled, MayDo, MayLand, Changed, IsRun;
      RunStep(skew, run, i);
      var w, s := run.states[i - 1], run.steps[i - 1];
      SameClusters(skew, w, s);
      StepFrame(skew, w, s, c);
      if s.Do? && s.c == c { ChangeKeepsJobless(skew, w.server, c, w.local[c], s.m, k); }
    }
  }

  lemma IdleStep(skew: Skew, run: Run, i: nat, c: Cluster, k: Key)
    requires IsRun(skew, run) && i < |run.states| && c in run.states[i].local && k in run.states[i].local[c].idle
    ensures i > 0 && c in run.states[i - 1].local && !SawRunning(run, i - 1, c, k)
    ensures var pass := run.states[i].local[c].idle[k]; var l := run.states[i - 1].local[c];
            SawIdle(run, i - 1, c, k, pass) || (k in l.idle && l.idle[k] == pass)
  {
    if i == 0 {
      StartIsEmpty(skew, run, c);
    } else {
      hide Apply, Enabled, MayDo, MayLand, Changed, IsRun;
      RunStep(skew, run, i);
      var w, s := run.states[i - 1], run.steps[i - 1];
      SameClusters(skew, w, s);
      StepFrame(skew, w, s, c);
      if s.Do? && s.c == c { ChangeKeepsJobless(skew, w.server, c, w.local[c], s.m, k); }
    }
  }

  lemma {:induction false} JoblessSinceWasSeen(skew: Skew, run: Run, i: nat, c: Cluster, k: Key) returns (e: nat)
    requires IsRun(skew, run) && i < |run.states| && c in run.states[i].local && k in run.states[i].local[c].held
    requires run.states[i].local[c].held[k].joblessSince.Some?
    ensures IdleSince(run, e, i, c, k, run.states[i].local[c].held[k].joblessSince.value)
  {
    hide IsRun, IdleSince, SawIdle, SawRunning;
    JoblessStep(skew, run, i, c, k);
    var since := run.states[i].local[c].held[k].joblessSince;
    e := i - 1;
    if !SawIdle(run, i - 1, c, k, since.value) {
      e := JoblessSinceWasSeen(skew, run, i - 1, c, k);
      IdleIsBefore(run, e, i - 1, c, k, since.value);
    }
    IdleStill(run, e, i, c, k, since.value);
  }

  lemma {:induction false} IdleWasSeen(skew: Skew, run: Run, i: nat, c: Cluster, k: Key) returns (e: nat)
    requires IsRun(skew, run) && i < |run.states| && c in run.states[i].local && k in run.states[i].local[c].idle
    ensures IdleSince(run, e, i, c, k, run.states[i].local[c].idle[k])
  {
    hide IsRun, IdleSince, SawIdle, SawRunning;
    IdleStep(skew, run, i, c, k);
    var pass := run.states[i].local[c].idle[k];
    e := i - 1;
    if !SawIdle(run, i - 1, c, k, pass) {
      e := IdleWasSeen(skew, run, i - 1, c, k);
      IdleIsBefore(run, e, i - 1, c, k, pass);
    }
    IdleStill(run, e, i, c, k, pass);
  }

  lemma IdleIsBefore(run: Run, e: nat, i: nat, c: Cluster, k: Key, pass: int)
    requires IdleSince(run, e, i, c, k, pass)
    ensures e < i
  {}

  /** The jobless pass drops a claim only after two of its own not-running answers at
      pass times at least the grace apart, with no running answer from the first on. */
  lemma JoblessReleaseIsJustified(skew: Skew, run: Run, i: nat, c: Cluster, k: Key, pass: int) returns (first: nat, last: nat)
    requires IsRun(skew, run) && i < |run.steps| && run.steps[i] == Do(c, BeginDrop(k, Jobless(pass)))
    ensures exists since :: pass - since >= JOBLESS_GRACE && IdleSince(run, first, i, c, k, since)
    ensures IdleSince(run, last, i, c, k, pass) && first != last
  {
    assert Enabled(skew, run.states[i], run.steps[i]);
    first := JoblessSinceWasSeen(skew, run, i, c, k);
    last := IdleWasSeen(skew, run, i, c, k);
  }
}
