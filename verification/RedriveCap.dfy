/**
 The re-drive cap: what it decides from the count and the reasons, what that means for the
 history, and how many failures it lets through.
 */
module RedriveCap {
  import opened Wrappers
  import opened ClaimKeys
  import opened RefStores
  import opened RefReads
  import opened RefWrites
  import opened Redrive
  import opened RedriveLedgers

  const MAX_REDRIVES := 3
  const TRANSIENT_BUDGET := 3

  datatype Class = Unknown | Broken | Transient

  predicate IsBroken(reason: string) {
    reason == "pod_crash_no_stdout" || reason == "pod_oom_killed" || reason == "type_mismatch"
  }

  predicate AllAre(reasons: seq<string>, value: string) { forall i :: 0 <= i < |reasons| ==> reasons[i] == value }

  /** The most recent `count` reasons, or all of them. */
  function Window(reasons: seq<string>, count: nat): (recent: seq<string>)
    ensures |recent| == if count > |reasons| then |reasons| else count
  {
    if count > |reasons| then reasons else reasons[|reasons| - count..]
  }

  /** Why a streak reached the cap, from the most recent `count` reasons. */
  function Classify(reasons: seq<string>, count: nat): Class {
    if count < 1 || reasons == [] then Unknown
    else
      var recent := Window(reasons, count);
      if AllAre(recent, UNKNOWN) then Unknown
      else if |recent| >= MAX_REDRIVES && AllAre(recent, recent[0]) && IsBroken(recent[0]) then Broken
      else Transient
  }

  datatype Verdict = Spawn | Refuse | Abort(class_: Class)

  /** Whether a spawn is allowed, refused, or refused with the record closed. */
  function Decide(count: nat, reasons: seq<string>): Verdict {
    if count < MAX_REDRIVES then Spawn
    else
      var c := Classify(reasons, count);
      if c.Transient? && count < MAX_REDRIVES + TRANSIENT_BUDGET then Spawn
      else if c.Unknown? then Refuse
      else Abort(c)
  }

  lemma UnknownIsNotBroken(recent: seq<string>)
    requires recent != [] && AllAre(recent, UNKNOWN)
    ensures !IsBroken(recent[0])
  {}

  /** A record is closed as broken exactly when the window holds at least the cap's worth
      of reasons and they are all one broken value. */
  lemma BrokenExactly(reasons: seq<string>, count: nat)
    ensures Decide(count, reasons) == Abort(Broken) <==>
      (&& count >= MAX_REDRIVES && |reasons| >= MAX_REDRIVES
       && exists v :: IsBroken(v) && AllAre(Window(reasons, count), v))
  {
    hide IsBroken, Window;
    var recent := Window(reasons, count);
    if recent != [] && AllAre(recent, UNKNOWN) { UnknownIsNotBroken(recent); }
    if recent != [] { assert forall v :: AllAre(recent, v) ==> v == recent[0]; }
  }

  /** A spawn is refused without closing the record exactly when the cap is reached and the
      window holds no known reason. */
  lemma RefuseExactly(reasons: seq<string>, count: nat)
    ensures Decide(count, reasons) == Refuse <==> count >= MAX_REDRIVES && AllAre(Window(reasons, count), UNKNOWN)
  {
    hide IsBroken, Window;
  }

  /** Among the most recent `count` reasons, or all of them, at index i. */
  predicate IsRecent(reasons: seq<string>, count: nat, i: int) { 0 <= i < |reasons| && |reasons| - count <= i }

  /** One of the most recent reasons says something. */
  predicate SomeKnown(reasons: seq<string>, count: nat) {
    exists i :: 0 <= i < |reasons| && IsRecent(reasons, count, i) && reasons[i] != "unknown"
  }

  /** There are three reasons at least, and the most recent ones are all the one that never
      goes away by itself. */
  predicate AllBroken(reasons: seq<string>, count: nat) {
    |reasons| >= 3
    && (var last := reasons[|reasons| - 1];
        && (last == "pod_crash_no_stdout" || last == "pod_oom_killed" || last == "type_mismatch")
        && forall i :: 0 <= i < |reasons| && IsRecent(reasons, count, i) ==> reasons[i] == last)
  }

  lemma WindowIsRecent(reasons: seq<string>, count: nat, v: string)
    ensures AllAre(Window(reasons, count), v) <==>
            forall i :: 0 <= i < |reasons| && IsRecent(reasons, count, i) ==> reasons[i] == v
  {
    var recent := Window(reasons, count);
    var from := |reasons| - |recent|;
    forall i | 0 <= i < |reasons| && IsRecent(reasons, count, i) ensures reasons[i] == recent[i - from] {}
  }

  lemma BrokenWindow(reasons: seq<string>, count: nat)
    requires count >= 3 && |reasons| >= 3
    ensures AllBroken(reasons, count) <==>
            var recent := Window(reasons, count); AllAre(recent, recent[0]) && IsBroken(recent[0])
  {
    var recent, last := Window(reasons, count), reasons[|reasons| - 1];
    assert recent[|recent| - 1] == last && IsRecent(reasons, count, |reasons| - 1);
    WindowIsRecent(reasons, count, last);
    hide Window;
    assert AllAre(recent, recent[0]) <==> AllAre(recent, last);
  }

  /** When each decision is taken: below three failures a spawn is always let through, below
      six as long as some reason is known and they are not all one broken value. */
  lemma SpawnExactly(reasons: seq<string>, count: nat)
    ensures Decide(count, reasons) == Spawn <==>
            count < 3 || (count < 6 && SomeKnown(reasons, count) && !AllBroken(reasons, count))
    ensures Decide(count, reasons) == Abort(Transient) <==>
            count >= 6 && SomeKnown(reasons, count) && !AllBroken(reasons, count)
    ensures Decide(count, reasons) == Abort(Broken) <==> count >= 3 && AllBroken(reasons, count)
    ensures Decide(count, reasons) == Refuse <==> count >= 3 && !SomeKnown(reasons, count)
  {
    WindowIsRecent(reasons, count, UNKNOWN);
    if count >= 3 && |reasons| >= 3 { BrokenWindow(reasons, count); }
    if AllBroken(reasons, count) && count >= 3 { assert IsRecent(reasons, count, |reasons| - 1); }
    hide Window, AllBroken, IsBroken;
    BrokenExactly(reasons, count);
  }

  /** The decision as the history sees it. */
  function DecideOn(s: seq<Failure>): Verdict { Decide(|s|, ReasonsIn(s)) }

  /** The decision taken from the store is the one the failures inside the window call for. */
  lemma DecisionFollowsHistory(refs: map<string, Lease>, task: string, h: seq<Event>, phase: string, now: int, r: seq<string>)
    requires TaskOk(refs, task, h) && ValidComponent(task) && Past(h, now)
    requires InOrder(r, Live(refs, Reasons, task, phase, None))
    ensures Decide(|Live(refs, Streaks, task, phase, Some(now))|, r) == DecideOn(Streak(h, phase, now))
  {
    hide Live, InOrder, TaskOk, ValidComponent, Past, Streak;
    EvidenceMatchesCount(refs, task, h, phase, now, r);
    var n, s := |Live(refs, Streaks, task, phase, Some(now))|, Streak(h, phase, now);
    assert ReasonsIn(s)[|s| - n..] == ReasonsIn(s);
  }

  /** What the check takes for the count: the store's, or the floor kept in memory when the
      store cannot be read. */
  ghost predicate CountTaken(server: RefServer, floor: RedriveFloor, task: string, phase: string, now: int, read: bool, n: nat)
    reads server, floor
  {
    n == if read then |Live(server.refs, Streaks, task, Component(phase), Some(now))|
         else FloorCount(floor.Of(task), phase, now)
  }

  /** What it takes for the reasons: the store's, or none when they cannot be read. */
  ghost predicate ReasonsTaken(server: RefServer, task: string, phase: string, read: bool, r: seq<string>)
    reads server
  {
    if read then InOrder(r, Live(server.refs, Reasons, task, Component(phase), None)) else r == []
  }

  /** The cap check of a spawn, with the count and the reasons it reports.  A name the stores
      refuse, or a store that does not answer, counts as unread. */
  method CheckCap(server: RefServer, floor: RedriveFloor, task: string, phase: string, now: int)
    returns (v: Verdict, counted: bool, reasoned: bool, n: nat, r: seq<string>)
    requires floor.Valid()
    ensures v == Decide(n, r) && CountTaken(server, floor, task, phase, now, counted, n)
    ensures n >= MAX_REDRIVES ==> ReasonsTaken(server, task, phase, reasoned, r)
    ensures !ValidRequest(task, phase) ==> !counted && !reasoned
    ensures server.reliable && ValidRequest(task, phase) ==> counted && (n >= MAX_REDRIVES ==> reasoned)
  {
    hide Live, InOrder, ValidComponent, FloorCount, Classify;
    reasoned, r := false, [];
    var stored := server.Count(task, phase, now);
    counted := stored.Ok?;
    if counted { n := stored.value; } else { n := floor.Count(task, phase, now); }
    if n < MAX_REDRIVES { return Spawn, counted, reasoned, n, r; }
    var reasons := server.ReasonsOf(task, phase);
    reasoned := reasons.Ok?;
    if reasoned { r := reasons.value; }
    v := Decide(n, r);
  }

  /** While the stores can be read, the check decides as the history does. */
  method CheckCapOf(ledger: FailureLedger, floor: RedriveFloor, task: string, phase: string, now: int) returns (v: Verdict)
    requires ledger.Valid() && floor.Valid() && ledger.clock <= now && ValidRequest(task, phase)
    ensures v == DecideOn(Streak(ledger.Of(task), Component(phase), now))
  {
    hide Live, InOrder, TaskOk, Matches, ValidComponent, Past, Streak, FloorCount, Classify;
    var counted, reasoned, n, r;
    v, counted, reasoned, n, r := CheckCap(ledger.server, floor, task, phase, now);
    PastLater(ledger.Of(task), ledger.clock, now);
    if n >= MAX_REDRIVES {
      DecisionFollowsHistory(ledger.server.refs, task, ledger.Of(task), Component(phase), now, r);
    } else {
      var a, e, b := Positions(ledger.server.refs, task, ledger.Of(task));
      CountIsStreak(ledger.server.refs, task, ledger.Of(task), a, e, b, Component(phase), now);
    }
  }

  // ---- the floor in memory ----

  /** One spawn: the phase of its task and when it happened. */
  datatype Spawned = Spawned(phase: string, at: int)

  /** The run of spawns the floor counts: all at one phase, none a whole window after the one
      before it. */
  function Attempts(h: seq<Spawned>): (s: seq<Spawned>)
    ensures h != [] ==> s != [] && s[|s| - 1] == h[|h| - 1]
    ensures forall i :: 0 <= i < |s| ==> s[i].phase == s[0].phase
  {
    if h == [] then []
    else
      var last, s := h[|h| - 1], Attempts(h[..|h| - 1]);
      if s == [] || s[0].phase != last.phase || last.at >= s[|s| - 1].at + WINDOW then [last] else s + [last]
  }

  function FloorCount(h: seq<Spawned>, phase: string, now: int): nat {
    var s := Attempts(h);
    if s == [] || s[0].phase != phase || now >= s[|s| - 1].at + WINDOW then 0 else |s|
  }

  predicate SpawnsInTime(h: seq<Spawned>) { forall i, j :: 0 <= i <= j < |h| ==> h[i].at <= h[j].at }

  /** The spawns at the end of the history that are all at the phase. */
  function AtPhase(h: seq<Spawned>, phase: string): seq<Spawned> {
    if h == [] || h[|h| - 1].phase != phase then [] else AtPhase(h[..|h| - 1], phase) + [h[|h| - 1]]
  }

  function InWindow(s: seq<Spawned>, now: int): nat {
    if s == [] then 0 else InWindow(s[..|s| - 1], now) + if now < s[|s| - 1].at + WINDOW then 1 else 0
  }

  /** The floor never counts less than the unbroken spawns at the phase inside the window, so
      falling back to it never weakens the cap. */
  lemma {:induction false} FloorNeverWeaker(h: seq<Spawned>, phase: string, now: int)
    requires SpawnsInTime(h) && (h != [] ==> h[|h| - 1].at <= now)
    ensures InWindow(AtPhase(h, phase), now) <= FloorCount(h, phase, now)
  {
    if h != [] && h[|h| - 1].phase == phase {
      var m, last := h[..|h| - 1], h[|h| - 1];
      var s := AtPhase(m, phase);
      assert AtPhase(h, phase)[..|s|] == s;
      FloorNeverWeaker(m, phase, now);
      if now >= last.at + WINDOW {
        OldAreOut(m, phase, last.at, now);
      } else if Attempts(m) != [] && last.at >= m[|m| - 1].at + WINDOW {
        OldAreOut(m, phase, m[|m| - 1].at, now);
      }
    }
  }

  /** Spawns up to an instant a window ago have left the window. */
  lemma OldAreOut(h: seq<Spawned>, phase: string, at: int, now: int)
    requires (forall i :: 0 <= i < |h| ==> h[i].at <= at) && now >= at + WINDOW
    ensures InWindow(AtPhase(h, phase), now) == 0
  {
    AtPhaseIsTail(h, phase);
    NoneInWindow(AtPhase(h, phase), now);
  }

  lemma {:induction false} AtPhaseIsTail(h: seq<Spawned>, phase: string)
    ensures |AtPhase(h, phase)| <= |h| && AtPhase(h, phase) == h[|h| - |AtPhase(h, phase)|..]
  {
    if h != [] && h[|h| - 1].phase == phase { AtPhaseIsTail(h[..|h| - 1], phase); }
  }

  lemma {:induction false} NoneInWindow(s: seq<Spawned>, now: int)
    requires forall i :: 0 <= i < |s| ==> now >= s[i].at + WINDOW
    ensures InWindow(s, now) == 0
  {
    if s != [] { NoneInWindow(s[..|s| - 1], now); }
  }

  datatype FloorStreak = FloorStreak(count: nat, phase: string, since: int)

  /** The spawns this process has counted per task since it last cleared it. */
  class RedriveFloor {
    var streaks: map<string, FloorStreak>
    ghost var spawns: map<string, seq<Spawned>>

    ghost function Of(task: string): seq<Spawned> reads this { if task in spawns then spawns[task] else [] }

    ghost predicate Valid() reads this {
      forall task :: Says(streaks, task, Attempts(Of(task)))
    }

    constructor ()
      ensures Valid() && spawns == map[]
    {
      streaks, spawns := map[], map[];
    }

    method Count(task: string, phase: string, now: int) returns (n: nat)
      requires Valid()
      ensures n == FloorCount(Of(task), phase, now)
    {
      assert Says(streaks, task, Attempts(Of(task)));
      n := if task !in streaks || streaks[task].phase != phase || now >= streaks[task].since + WINDOW then 0
           else streaks[task].count;
    }

    /** Counts a spawn; a new phase or an expired window starts again at one. */
    method RecordSpawn(task: string, phase: string, now: int)
      requires Valid()
      modifies this
      ensures Valid() && spawns == old(spawns)[task := old(Of(task)) + [Spawned(phase, now)]]
    {
      ghost var h := Of(task);
      assert Says(streaks, task, Attempts(h));
      assert (h + [Spawned(phase, now)])[..|h|] == h;
      var anew := task !in streaks || streaks[task].phase != phase || now >= streaks[task].since + WINDOW;
      streaks := streaks[task := FloorStreak(if anew then 1 else streaks[task].count + 1, phase, now)];
      spawns := spawns[task := h + [Spawned(phase, now)]];
      forall other ensures Says(streaks, other, Attempts(Of(other))) {
        if other != task { assert old(Says(streaks, other, Attempts(Of(other)))); }
      }
    }

    method Clear(task: string)
      requires Valid()
      modifies this
      ensures Valid() && spawns == old(spawns) - {task}
    {
      streaks, spawns := streaks - {task}, spawns - {task};
      forall other ensures Says(streaks, other, Attempts(Of(other))) {
        if other != task { assert old(Says(streaks, other, Attempts(Of(other)))); }
      }
    }
  }

  predicate Says(streaks: map<string, FloorStreak>, task: string, s: seq<Spawned>) {
    if s == [] then task !in streaks else task in streaks && streaks[task] == FloorStreak(|s|, s[0].phase, s[|s| - 1].at)
  }

  // ---- the rate bound ----

  /** Each failure belongs to one spawn, which the cap let through after every earlier
      failure had been recorded. */
  ghost predicate Admitted(h: seq<Event>) {
    forall i :: 0 <= i < |h| && h[i].Failed? ==> AdmittedAt(h, i)
  }

  ghost predicate AdmittedAt(h: seq<Event>, i: nat)
    requires i < |h| && h[i].Failed?
  {
    var f := h[i].f;
    Past(h[..i], f.spawned) && f.spawned <= f.at && DecideOn(Streak(h[..i], f.phase, f.spawned)) == Spawn
  }

  predicate FailedAt(ev: Event, phase: string) { ev.Failed? && ev.f.phase == phase }

  /** The current run is the end of the history. */
  lemma {:induction false} CurrentIsTail(h: seq<Event>)
    ensures forall j :: 0 <= j < |Current(h)| ==> h[|h| - |Current(h)| + j] == Failed(Current(h)[j])
  {
    if h != [] && h[|h| - 1].Failed? { CurrentIsTail(h[..|h| - 1]); }
  }

  /** And it is all of the end that has one phase. */
  lemma {:induction false} CurrentIsLongest(h: seq<Event>, lo: nat, phase: string)
    requires lo < |h| && forall i :: lo <= i < |h| ==> FailedAt(h[i], phase)
    ensures |Current(h)| >= |h| - lo && Current(h)[0].phase == phase
  {
    var m := h[..|h| - 1];
    if lo < |m| {
      assert forall i :: lo <= i < |m| ==> m[i] == h[i];
      CurrentIsLongest(m, lo, phase);
    }
    assert FailedAt(h[|h| - 1], phase);
  }

  lemma {:induction false} UnexpiredAtLeast(s: seq<Failure>, k: nat, now: int)
    requires k <= |s| && forall i :: |s| - k <= i < |s| ==> Counts(s[i], now)
    ensures |Unexpired(s, now)| >= k
  {
    if s != [] {
      var t := s[1..];
      assert forall i :: 0 <= i < |t| ==> t[i] == s[i + 1];
      UnexpiredAtLeast(t, if k == |s| then k - 1 else k, now);
    }
  }

  /** The last `n` events of the task are failures at the phase, none older than six hours. */
  predicate LastInWindow(h: seq<Event>, n: nat, phase: string, now: int) {
    |h| >= n && forall i :: |h| - n <= i < |h| ==> h[i].Failed? && h[i].f.phase == phase && now < h[i].f.at + 21600
  }

  /** The reasons of the failures, as the cap takes them. */
  predicate StreakKnown(s: seq<Failure>) { exists i :: 0 <= i < |s| && s[i].reason != "unknown" }

  predicate StreakBroken(s: seq<Failure>) {
    && s != [] && (forall i :: 0 <= i < |s| ==> s[i].reason == s[0].reason)
    && (s[0].reason == "pod_crash_no_stdout" || s[0].reason == "pod_oom_killed" || s[0].reason == "type_mismatch")
  }

  /** A spawn is let through while the last three events of the task are not all failures at
      its phase inside the window; and while the last six are not, if some reason in the streak
      is known and they are not all one broken value.  So it is refused whatever the reasons
      exactly when the last six are: a failure at another phase or a reset among them lets it
      through. */
  lemma CapBitesExactly(h: seq<Event>, phase: string, now: int)
    requires InTime(Current(h))
    ensures var s := Streak(h, phase, now);
            && (DecideOn(s) == Spawn <==>
                  || !LastInWindow(h, 3, phase, now)
                  || (!LastInWindow(h, 6, phase, now) && StreakKnown(s) && !StreakBroken(s)))
            && ((forall reasons :: Decide(|s|, reasons) != Spawn) <==> LastInWindow(h, 6, phase, now))
  {
    var s := Streak(h, phase, now);
    StreakLength(h, 3, phase, now);
    StreakLength(h, 6, phase, now);
    ReasonsOfStreak(s);
    hide Streak, LastInWindow, Decide;
    SpawnExactly(ReasonsIn(s), |s|);
    forall reasons ensures |s| >= 6 ==> Decide(|s|, reasons) != Spawn { SpawnExactly(reasons, |s|); }
    var mixed := ["unknown", "job_failed"];
    SpawnExactly(mixed, |s|);
    assert |s| >= 1 ==> IsRecent(mixed, |s|, 1);
  }

  lemma ReasonsOfStreak(s: seq<Failure>)
    ensures SomeKnown(ReasonsIn(s), |s|) <==> StreakKnown(s)
    ensures |s| >= 3 ==> (AllBroken(ReasonsIn(s), |s|) <==> StreakBroken(s))
  {
    var r := ReasonsIn(s);
    if i :| 0 <= i < |s| && s[i].reason != "unknown" { assert IsRecent(r, |s|, i) && r[i] == s[i].reason; }
    if |s| >= 3 && AllBroken(r, |s|) {
      forall i | 0 <= i < |s| ensures s[i].reason == r[|s| - 1] { assert IsRecent(r, |s|, i) && r[i] == s[i].reason; }
    }
  }

  lemma StreakLength(h: seq<Event>, n: nat, phase: string, now: int)
    requires InTime(Current(h)) && n > 0
    ensures |Streak(h, phase, now)| >= n <==> LastInWindow(h, n, phase, now)
  {
    if |Streak(h, phase, now)| >= n { LongStreak(h, n, phase, now); }
    if LastInWindow(h, n, phase, now) { LastCount(h, n, phase, now); }
  }

  /** A long streak is the end of the current run. */
  lemma LongStreakIsTail(h: seq<Event>, n: nat, phase: string, now: int)
    requires InTime(Current(h)) && |Streak(h, phase, now)| >= n > 0
    ensures var s := Current(h); |s| >= n && s[0].phase == phase && Gone(s, now) <= |s| - n
  {
    hide Counts, InTime, Current, Unexpired;
    UnexpiredIsSuffix(Current(h), now);
  }

  lemma TailEvent(h: seq<Event>, phase: string, now: int, i: nat)
    requires var s := Current(h); InTime(s) && s != [] && s[0].phase == phase && |h| - (|s| - Gone(s, now)) <= i < |h|
    ensures FailedAt(h[i], phase) && Counts(h[i].f, now)
  {
    hide Counts, InTime, Current;
    CurrentIsTail(h);
    var s, j := Current(h), i - (|h| - |Current(h)|);
    assert h[|h| - |s| + j] == Failed(s[j]);
  }

  lemma LongStreak(h: seq<Event>, n: nat, phase: string, now: int)
    requires InTime(Current(h)) && |Streak(h, phase, now)| >= n > 0
    ensures LastInWindow(h, n, phase, now)
  {
    hide InTime, Current, Streak;
    LongStreakIsTail(h, n, phase, now);
    forall i | |h| - n <= i < |h| ensures FailedAt(h[i], phase) && Counts(h[i].f, now) { TailEvent(h, phase, now, i); }
  }

  lemma LastCount(h: seq<Event>, n: nat, phase: string, now: int)
    requires n > 0 && LastInWindow(h, n, phase, now)
    ensures |Streak(h, phase, now)| >= n
  {
    hide Unexpired;
    var s := Current(h);
    CurrentIsTail(h);
    CurrentIsLongest(h, |h| - n, phase);
    hide Current;
    forall j | |s| - n <= j < |s| ensures Counts(s[j], now) { assert h[|h| - |s| + j] == Failed(s[j]); }
    UnexpiredAtLeast(s, n, now);
  }

  /** Consecutive failures at one phase inside any span of six hours are at most six: with no phase change and no reset in between, the cap bounds the rate. */
  lemma RateBound(h: seq<Event>, lo: nat, hi: nat, phase: string, start: int)
    requires Admitted(h) && lo <= hi <= |h|
    requires forall i :: lo <= i < hi ==> FailedAt(h[i], phase) && start <= h[i].f.at < start + 21600
    ensures hi - lo <= 6
  {
    if hi - lo > 6 {
      var last, g := h[hi - 1].f, h[..hi - 1];
      assert AdmittedAt(h, hi - 1);
      assert LastInWindow(g, 6, phase, last.spawned);
      LastCount(g, 6, phase, last.spawned);
    }
  }

  // ---- where the bound fails ----

  /** A task that changes phase with every failure, all at one instant. */
  function Hops(k: nat): (h: seq<Event>)
    ensures |h| == k
    ensures forall i :: 0 <= i < k ==> h[i] == Failed(Failure(if i % 2 == 0 then "planning" else "execution", UNKNOWN, 0, 0, 0))
  {
    if k == 0 then []
    else Hops(k - 1) + [Failed(Failure(if (k - 1) % 2 == 0 then "planning" else "execution", UNKNOWN, 0, 0, 0))]
  }

  /** A spawn at a phase the last failure was not at is always let through. */
  lemma OtherPhaseIsFree(h: seq<Event>, phase: string, now: int)
    requires h == [] || !FailedAt(h[|h| - 1], phase)
    ensures Streak(h, phase, now) == [] && DecideOn(Streak(h, phase, now)) == Spawn
  {
    if h != [] && h[|h| - 1].Failed? {
      var s := Current(h);
      assert s[|s| - 1] == h[|h| - 1].f;
    }
  }

  /** Every failure at a new phase deletes the refs of the old one, so a task that keeps
      changing phase is never capped: there is no bound on the failures of one phase in
      one span. */
  lemma HoppingIsUnbounded(n: nat)
    ensures var h := Hops(2 * n);
            && Admitted(h)
            && |set i | 0 <= i < |h| && FailedAt(h[i], "planning") && h[i].f.at == 0| == n
  {
    HopsAreAdmitted(2 * n);
    EvenHops(2 * n);
    Evens(n);
  }

  lemma HopsAreAdmitted(k: nat)
    ensures Admitted(Hops(k))
  {
    hide Streak, DecideOn, Hops, FailedAt;
    var h := Hops(k);
    forall i | 0 <= i < |h| && h[i].Failed? ensures AdmittedAt(h, i) {
      var g := h[..i];
      assert Past(g, 0);
      if i > 0 { HopChangesPhase(k, i); }
      OtherPhaseIsFree(g, h[i].f.phase, 0);
    }
  }

  lemma HopChangesPhase(k: nat, i: nat)
    requires 0 < i < k
    ensures !FailedAt(Hops(k)[i - 1], Hops(k)[i].f.phase)
  {
    assert (i - 1) % 2 != i % 2 && "planning"[0] != "execution"[0];
  }

  lemma EvenHops(k: nat)
    ensures var h := Hops(k);
            (set i | 0 <= i < |h| && FailedAt(h[i], "planning") && h[i].f.at == 0) == (set i | 0 <= i < k && i % 2 == 0)
  {
    var h := Hops(k);
    assert forall i :: 0 <= i < k ==> h[i].Failed? && h[i].f.at == 0 && (h[i].f.phase == "planning" <==> i % 2 == 0) by {
      assert "planning"[0] != "execution"[0];
    }
  }

  lemma {:induction false} Evens(n: nat)
    ensures |set i | 0 <= i < 2 * n && i % 2 == 0| == n
  {
    if n > 0 {
      Evens(n - 1);
      assert (set i | 0 <= i < 2 * n && i % 2 == 0) == (set i | 0 <= i < 2 * (n - 1) && i % 2 == 0) + {2 * (n - 1)};
    }
  }
}
