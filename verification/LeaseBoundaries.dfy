/**
 Where exclusion ends: the timing bound is exact, and the one takeover that stores a
 claim already past its own fence is singled out by comparing two tokens.
 */
module LeaseBoundaries {
  import opened Wrappers
  import opened LeaseProtocol
  import opened LeaseInvariants
  import opened LeaseExclusion

  const K := "claims/task/t"
  const IDLE := Local(map[], None, map[], {}, {}, {}, map[], {}, None, 0)

  /** A claim as ClaimPair and TakeoverPair store it. */
  function Entered(rec: Rec, now: int, running: bool): Held {
    Held(rec.task, rec.token, Until(rec), None, now, running, false, false, false, false, None, None, None)
  }

  /** Two clusters, a leftover record of a, and requests of earlier processes on their way. */
  function Start(lease: int, pending: set<Late>): World {
    World(Server(0, map[K := Rec("a", "t", Token(0, K, "a"), Some(lease))], 1, pending, {}), map["a" := IDLE, "b" := IDLE])
  }

  /** The world after a took or adopted K with a record of token 0. */
  predicate AHolds(w: World, now: int, rec: Rec) {
    && w.server == Server(now, map[K := rec], 1, {}, {}) && rec.token == Token(0, K, "a") && rec.holder == "a"
    && w.local.Keys == {"a", "b"} && Live(w.local["a"], K)
    && w.local["a"].lastFence == 0 && w.local["b"] == IDLE
  }

  lemma PeerLooks(skew: Skew, w: World, now: int, rec: Rec, clock: int) returns (w': World)
    requires AHolds(w, now, rec) && clock <= now + skew.fast
    ensures Enabled(skew, w, Send("b", Look_(K, clock))) && w' == Apply(w, Send("b", Look_(K, clock)))
    ensures w' == w.(local := w.local["b" := IDLE.(look := Some(Look(K, clock, now, Some(rec))))])
  {
    w' := Apply(w, Send("b", Look_(K, clock)));
  }

  function Stolen(now: int): Rec { Rec("b", "t", Token(1, K, "b"), Some(now + LEASE_DURATION)) }

  lemma PeerAcquires(skew: Skew, w: World, l: Local, now: int, rec: Rec, clock: int) returns (w': World)
    requires w.server == Server(now, map[K := rec], 1, {}, {}) && w.local.Keys == {"a", "b"}
    requires l == IDLE.(look := Some(Look(K, clock, now, Some(rec)))) && w.local["b"] == l
    requires TakeoverAllowed(clock, rec) && rec.lease.value <= now
    ensures Enabled(skew, w, Send("b", Acquire(K, "t", true))) && w' == Apply(w, Send("b", Acquire(K, "t", true)))
    ensures w' == World(Server(now, map[K := Stolen(now)], 2, {}, {}), w.local["b" := l.(own := map[K := Stolen(now)])])
  {
    w' := Apply(w, Send("b", Acquire(K, "t", true)));
  }

  lemma PeerStores(skew: Skew, w: World, l: Local, now: int, rec: Rec, clock: int) returns (w': World)
    requires w.local.Keys == {"a", "b"} && w.local["b"] == l && TakeoverAllowed(clock, rec)
    requires l == IDLE.(look := Some(Look(K, clock, now, Some(rec))), own := map[K := Stolen(now)])
    ensures var s := Do("b", Store(K, Entered(Stolen(now), now, false)));
            Enabled(skew, w, s) && w' == Apply(w, s) && w'.server == w.server
    ensures w'.local.Keys == {"a", "b"} && w'.local["a"] == w.local["a"]
    ensures Live(w'.local["b"], K) && w'.local["b"].lastFence == 0
  {
    w' := Apply(w, Do("b", Store(K, Entered(Stolen(now), now, false))));
  }

  /** Whenever b may take K over from a, it does so in three disciplined steps, and both
      clusters hold K live. */
  lemma PeerTakesOver(skew: Skew, w: World, now: int, rec: Rec, clock: int) returns (states: seq<World>, steps: seq<Step>)
    requires AHolds(w, now, rec) && TakeoverAllowed(clock, rec) && rec.lease.value <= now && clock <= now + skew.fast
    ensures |steps| == 3 && |states| == 4 && states[0] == w && !Exclusive(states[3])
    ensures forall i :: 0 <= i < 3 ==> Enabled(skew, states[i], steps[i]) && states[i + 1] == Apply(states[i], steps[i])
    ensures forall i :: 0 <= i < 3 ==> Disciplined(states[i], steps[i], false)
    ensures forall i :: 0 <= i <= 3 ==> AtZero(states[i], now)
  {
    hide Apply, Enabled, MayDo, MayLand, Live, TakeoverAllowed;
    var w1 := PeerLooks(skew, w, now, rec, clock);
    var l1 := w1.local["b"];
    var w2 := PeerAcquires(skew, w1, l1, now, rec, clock);
    var l2 := w2.local["b"];
    var w3 := PeerStores(skew, w2, l2, now, rec, clock);
    assert Live(w3.local["a"], K) && Live(w3.local["b"], K);
    states := [w, w1, w2, w3];
    steps := [Send("b", Look_(K, clock)), Send("b", Acquire(K, "t", true)), Do("b", Store(K, Entered(Stolen(now), now, false)))];
  }

  /** Nobody has evaluated its fence since instant 0. */
  predicate AtZero(w: World, now: int) {
    w.server.now == now && forall c :: c in w.local ==> w.local[c].lastFence == 0
  }

  /** A run up to a world in which a holds K, followed by b's takeover. */
  lemma ThenPeerTakesOver(skew: Skew, states: seq<World>, steps: seq<Step>, now: int, rec: Rec, clock: int) returns (run: Run)
    requires |states| == |steps| + 1 && Init(states[0])
    requires forall i :: 0 <= i < |steps| ==> Enabled(skew, states[i], steps[i]) && states[i + 1] == Apply(states[i], steps[i])
    requires AHolds(states[|steps|], now, rec)
    requires TakeoverAllowed(clock, rec) && rec.lease.value <= now && clock <= now + skew.fast
    ensures IsRun(skew, run) && steps <= run.steps && states <= run.states && !Exclusive(run.states[|run.states| - 1])
    ensures forall i :: |steps| <= i < |run.steps| ==> Disciplined(run.states[i], run.steps[i], false)
    ensures forall i :: |steps| <= i < |run.states| ==> AtZero(run.states[i], now)
  {
    hide Apply, Enabled, MayDo, MayLand, Init, AHolds, TakeoverAllowed, AtZero, Disciplined, Exclusive;
    var more, acts := PeerTakesOver(skew, states[|steps|], now, rec, clock);
    run := Run(states[..|steps|] + more, steps + acts);
    assert forall i :: |steps| <= i < |run.steps| ==> run.steps[i] == acts[i - |steps|];
  }

  /** The record a adopts just before its fence point on the slowest clock. */
  function LateRec(skew: Skew): Rec { Rec("a", "t", Token(0, K, "a"), Some(FENCE_MARGIN + FENCE_LEAD - skew.slow)) }

  function LateStart(skew: Skew, pending: set<Late>): World { Start(FENCE_MARGIN + FENCE_LEAD - skew.slow, pending) }

  function AdoptLate(skew: Skew): Step { Do("a", Adopt(K, Entered(LateRec(skew), 0, true), 0 - skew.slow)) }

  lemma HolderLists(skew: Skew, pending: set<Late>) returns (w: World)
    ensures var w0 := LateStart(skew, pending);
            && Init(w0) && Enabled(skew, w0, Send("a", List)) && w == Apply(w0, Send("a", List))
            && w == w0.(local := w0.local["a" := IDLE.(own := map[K := LateRec(skew)])])
  {
    w := Apply(LateStart(skew, pending), Send("a", List));
    assert w.local["a"].own == map[K := LateRec(skew)];
  }

  lemma HolderAdopts(skew: Skew, pending: set<Late>, w: World) returns (w': World)
    requires var w0 := LateStart(skew, pending);
             w == w0.(local := w0.local["a" := IDLE.(own := map[K := LateRec(skew)])])
    ensures Enabled(skew, w, AdoptLate(skew)) && w' == Apply(w, AdoptLate(skew)) && w'.server == w.server
    ensures w'.local.Keys == {"a", "b"} && Live(w'.local["a"], K) && w'.local["a"].lastFence == 0 && w'.local["b"] == IDLE
  {
    w' := Apply(w, AdoptLate(skew));
  }

  /** Holder a adopts its record just before its fence point on the slowest clock, and
      peer b takes it over, on the fastest clock, d - 1 seconds later. */
  lemma SlowFenceOverlaps(skew: Skew, d: nat) returns (run: Run)
    requires d >= 1 && !FenceBeatsTakeover(skew, d, false)
    ensures IsRun(skew, run) && DisciplinedRun(run, false) && Timely(run, d) && !Exclusive(run.states[|run.states| - 1])
  {
    hide MayDo, MayLand, Changed, Landed, Replied, Init, Live;
    var w0 := LateStart(skew, {});
    var w1 := HolderLists(skew, {});
    var w2 := HolderAdopts(skew, {}, w1);
    var w3 := w2.(server := w2.server.(now := d - 1));
    run := ThenPeerTakesOver(skew, [w0, w1, w2, w3], [Send("a", List), AdoptLate(skew), Advance(d - 1)], d - 1,
                             LateRec(skew), d - 1 + skew.fast);
  }

  /** What b acquired before it went down lands once the lease of a is over. */
  function Orphan(): Late { LateAcquire("b", K, "t") }

  lemma OrphanLands(skew: Skew, w: World, now: int) returns (w': World)
    requires w.server == Server(now, map[K := LateRec(skew)], 1, {Orphan()}, {}) && LateRec(skew).lease.value <= now
    ensures Enabled(skew, w, Land(Orphan())) && w' == Apply(w, Land(Orphan()))
    ensures w'.local == w.local && w'.server == Server(now, map[K := Stolen(now)], 2, {}, {1})
  {
    w' := Apply(w, Land(Orphan()));
    assert {Orphan()} - {Orphan()} == {};
  }

  lemma PeerLists(skew: Skew, w: World, now: int) returns (w': World)
    requires w.server == Server(now, map[K := Stolen(now)], 2, {}, {1}) && w.local.Keys == {"a", "b"} && w.local["b"] == IDLE
    ensures Enabled(skew, w, Send("b", List)) && w' == Apply(w, Send("b", List)) && w'.server == w.server
    ensures w'.local == w.local["b" := IDLE.(own := map[K := Stolen(now)])]
  {
    w' := Apply(w, Send("b", List));
    assert w'.local["b"].own == map[K := Stolen(now)];
  }

  lemma PeerAdopts(skew: Skew, w: World, now: int) returns (w': World)
    requires now >= 0 && w.local.Keys == {"a", "b"} && w.local["b"] == IDLE.(own := map[K := Stolen(now)])
    ensures var s := Do("b", Adopt(K, Entered(Stolen(now), now, true), now)); Enabled(skew, w, s) && w' == Apply(w, s)
    ensures w'.server == w.server && w'.local.Keys == {"a", "b"} && w'.local["a"] == w.local["a"]
    ensures Live(w'.local["b"], K) && w'.local["b"].lastFence == 0
  {
    w' := Apply(w, Do("b", Adopt(K, Entered(Stolen(now), now, true), now)));
  }

  /** With late requests the grace does not help: an acquire that b's earlier process gave up
      on lands the moment the lease of a is over, and the restarted b adopts it. */
  lemma LateAcquireOverlaps(skew: Skew, d: nat) returns (run: Run)
    requires d >= 1 && !FenceBeatsTakeover(skew, d, true)
    ensures IsRun(skew, run) && DisciplinedRun(run, true) && Timely(run, d) && !Exclusive(run.states[|run.states| - 1])
  {
    hide MayDo, MayLand, MayArrive, Changed, Landed, Replied, Arrived, Init, Live;
    var now := d - 1;
    var w0 := LateStart(skew, {Orphan()});
    var w1 := HolderLists(skew, {Orphan()});
    var w2 := HolderAdopts(skew, {Orphan()}, w1);
    var w3 := w2.(server := w2.server.(now := now));
    var more, acts := OrphanIsAdopted(skew, w3, now);
    run := Continued(skew, true, d, [w0, w1, w2, w3], [Send("a", List), AdoptLate(skew), Advance(now)], more, acts);
  }

  predicate OnTime(w: World, d: nat) { forall c :: c in w.local ==> w.server.now - w.local[c].lastFence < d }

  predicate StepOk(skew: Skew, late: bool, w: World, s: Step, w': World) {
    Enabled(skew, w, s) && w' == Apply(w, s) && Disciplined(w, s, late)
  }

  /** A stretch of a run, on time throughout. */
  ghost predicate Stretch(skew: Skew, late: bool, d: nat, states: seq<World>, steps: seq<Step>) {
    && |states| == |steps| + 1
    && (forall i :: 0 <= i < |steps| ==> StepOk(skew, late, states[i], steps[i], states[i + 1]))
    && forall i :: 0 <= i < |states| ==> OnTime(states[i], d)
  }

  /** A stretch goes on from where it stood. */
  lemma Joined(
    skew: Skew, late: bool, d: nat, states: seq<World>, steps: seq<Step>, more: seq<World>, acts: seq<Step>, run: Run)
    requires Stretch(skew, late, d, states, steps) && Stretch(skew, late, d, more, acts) && more[0] == states[|steps|]
    requires run == Run(states[..|steps|] + more, steps + acts)
    ensures Stretch(skew, late, d, run.states, run.steps)
  {
    hide StepOk, OnTime;
    forall i | 0 <= i < |run.steps| ensures StepOk(skew, late, run.states[i], run.steps[i], run.states[i + 1]) {
      if i < |steps| {
        assert run.states[i] == states[i] && run.states[i + 1] == states[i + 1] && run.steps[i] == steps[i];
      } else {
        var j := i - |steps|;
        assert run.states[i] == more[j] && run.states[i + 1] == more[j + 1] && run.steps[i] == acts[j];
      }
    }
    forall i | 0 <= i < |run.states| ensures OnTime(run.states[i], d) {
      assert run.states[i] == if i < |steps| then states[i] else more[i - |steps|];
    }
  }

  lemma StretchIsRun(skew: Skew, late: bool, d: nat, run: Run)
    requires Stretch(skew, late, d, run.states, run.steps) && Init(run.states[0])
    ensures IsRun(skew, run) && DisciplinedRun(run, late) && Timely(run, d)
  {
    hide Enabled, Apply, Disciplined, Init;
    forall i | 0 <= i < |run.steps|
      ensures Enabled(skew, run.states[i], run.steps[i]) && run.states[i + 1] == Apply(run.states[i], run.steps[i])
      ensures Disciplined(run.states[i], run.steps[i], late)
    {
      assert StepOk(skew, late, run.states[i], run.steps[i], run.states[i + 1]);
    }
    forall i, c | 0 <= i < |run.states| && c in run.states[i].local
      ensures run.states[i].server.now - run.states[i].local[c].lastFence < d
    {
      assert OnTime(run.states[i], d);
    }
  }

  /** A run goes on from where it stood. */
  lemma Continued(skew: Skew, late: bool, d: nat, states: seq<World>, steps: seq<Step>, more: seq<World>, acts: seq<Step>)
    returns (run: Run)
    requires Stretch(skew, late, d, states, steps) && Stretch(skew, late, d, more, acts) && more[0] == states[|steps|]
    requires Init(states[0])
    ensures IsRun(skew, run) && DisciplinedRun(run, late) && Timely(run, d)
    ensures run.states[|run.states| - 1] == more[|acts|]
  {
    hide StepOk, OnTime, Init, Enabled, Apply, Disciplined;
    run := Run(states[..|steps|] + more, steps + acts);
    Joined(skew, late, d, states, steps, more, acts, run);
    assert run.states[0] == states[0];
    StretchIsRun(skew, late, d, run);
  }

  /** From a world in which a holds K live and its lease is over to one in which b does too. */
  lemma OrphanIsAdopted(skew: Skew, w: World, now: int) returns (states: seq<World>, steps: seq<Step>)
    requires now >= 0 && w.server == Server(now, map[K := LateRec(skew)], 1, {Orphan()}, {}) && LateRec(skew).lease.value <= now
    requires w.local.Keys == {"a", "b"} && Live(w.local["a"], K) && w.local["a"].lastFence == 0 && w.local["b"] == IDLE
    ensures |steps| == 3 && |states| == 4 && states[0] == w && !Exclusive(states[3])
    ensures forall i :: 0 <= i < 3 ==> Enabled(skew, states[i], steps[i]) && states[i + 1] == Apply(states[i], steps[i])
    ensures forall i :: 0 <= i < 3 ==> Disciplined(states[i], steps[i], true)
    ensures forall i :: 0 <= i <= 3 ==> AtZero(states[i], now)
  {
    hide Apply, Enabled, MayDo, MayLand, MayArrive, Live;
    var w1 := OrphanLands(skew, w, now);
    var w2 := PeerLists(skew, w1, now);
    var w3 := PeerAdopts(skew, w2, now);
    assert Live(w3.local["a"], K) && Live(w3.local["b"], K);
    states := [w, w1, w2, w3];
    steps := [Land(Orphan()), Send("b", List), Do("b", Adopt(K, Entered(Stolen(now), now, true), now))];
  }

  /** The bound is exact: exclusion holds in every disciplined, timely run if and only
      if the slowest holder's fence comes before the fastest peer's takeover, with the grace
      when requests land while their caller waits and without it when they may land later. */
  lemma ExclusionExactly(skew: Skew, d: nat, late: bool)
    requires d >= 1
    ensures FenceBeatsTakeover(skew, d, late) <==>
            forall run, i :: IsRun(skew, run) && DisciplinedRun(run, late) && Timely(run, d) && 0 <= i < |run.states| ==>
              Exclusive(run.states[i])
  {
    hide Exclusive, DisciplinedRun, Timely;
    if FenceBeatsTakeover(skew, d, late) {
      forall run, i | IsRun(skew, run) && DisciplinedRun(run, late) && Timely(run, d) && 0 <= i < |run.states|
        ensures Exclusive(run.states[i])
      {
        ExclusionHolds(skew, late, run, d, i);
      }
    } else if late {
      var run := LateAcquireOverlaps(skew, d);
    } else {
      var run := SlowFenceOverlaps(skew, d);
    }
  }

  // ---- a late release ----

  const TOKEN := Token(0, K, "a")
  const OWN := Rec("a", "t", TOKEN, Some(LEASE_DURATION))

  function Unsent(): Late { LateRelease("a", K, TOKEN) }

  lemma OwnerAdopts() returns (states: seq<World>, steps: seq<Step>)
    ensures |states| == 3 && |steps| == 2 && Init(states[0])
    ensures forall i :: 0 <= i < 2 ==>
        Enabled(Skew(0, 0), states[i], steps[i]) && states[i + 1] == Apply(states[i], steps[i])
        && Disciplined(states[i], steps[i], true)
    ensures forall i :: 0 <= i <= 2 ==> AtZero(states[i], 0)
    ensures states[2].server == Server(0, map[K := OWN], 1, {Unsent()}, {}) && states[2].local.Keys == {"a", "b"}
    ensures Live(states[2].local["a"], K) && states[2].local["a"].lastFence == 0 && states[2].local["b"] == IDLE
  {
    var w0 := Start(LEASE_DURATION, {Unsent()});
    steps := [Send("a", List), Do("a", Adopt(K, Entered(OWN, 0, true), 0))];
    var w1 := Apply(w0, steps[0]);
    assert w1.local["a"].own == map[K := OWN];
    states := [w0, w1, Apply(w1, steps[1])];
  }

  lemma ReleaseLands(w: World) returns (w': World)
    requires w.server == Server(0, map[K := OWN], 1, {Unsent()}, {})
    ensures Enabled(Skew(0, 0), w, Land(Unsent())) && w' == Apply(w, Land(Unsent()))
    ensures w'.local == w.local && w'.server == Server(0, map[], 1, {}, {})
  {
    w' := Apply(w, Land(Unsent()));
    assert {Unsent()} - {Unsent()} == {} && map[K := OWN] - {K} == map[];
  }

  const FREE_LOOK := Look(K, 0, 0, None)

  lemma PeerFindsFree(w: World) returns (w': World)
    requires w.server == Server(0, map[], 1, {}, {}) && w.local.Keys == {"a", "b"} && w.local["b"] == IDLE
    ensures Enabled(Skew(0, 0), w, Send("b", Look_(K, 0))) && w' == Apply(w, Send("b", Look_(K, 0)))
    ensures w' == w.(local := w.local["b" := IDLE.(look := Some(FREE_LOOK))])
  {
    w' := Apply(w, Send("b", Look_(K, 0)));
  }

  lemma PeerIsGranted(w: World) returns (w': World)
    requires w.server == Server(0, map[], 1, {}, {}) && w.local.Keys == {"a", "b"}
    requires w.local["b"] == IDLE.(look := Some(FREE_LOOK))
    ensures Enabled(Skew(0, 0), w, Send("b", Acquire(K, "t", true))) && w' == Apply(w, Send("b", Acquire(K, "t", true)))
    ensures w'.local == w.local["b" := IDLE.(look := Some(FREE_LOOK), own := map[K := Stolen(0)])] && w'.server.now == 0
  {
    w' := Apply(w, Send("b", Acquire(K, "t", true)));
    assert w'.local["b"].own == map[K := Stolen(0)];
  }

  lemma PeerStoresFree(w: World) returns (w': World)
    requires w.local.Keys == {"a", "b"} && w.local["b"] == IDLE.(look := Some(FREE_LOOK), own := map[K := Stolen(0)])
    ensures var s := Do("b", Store(K, Entered(Stolen(0), 0, false))); Enabled(Skew(0, 0), w, s) && w' == Apply(w, s)
    ensures w'.server == w.server && w'.local.Keys == {"a", "b"} && w'.local["a"] == w.local["a"]
    ensures Live(w'.local["b"], K) && w'.local["b"].lastFence == 0
  {
    w' := Apply(w, Do("b", Store(K, Entered(Stolen(0), 0, false))));
  }

  lemma PeerCreates(w: World) returns (states: seq<World>, steps: seq<Step>)
    requires w.server == Server(0, map[], 1, {}, {}) && w.local.Keys == {"a", "b"} && w.local["b"] == IDLE
    requires w.local["a"].lastFence == 0
    ensures |states| == 4 && |steps| == 3 && states[0] == w
    ensures forall i :: 0 <= i < 3 ==>
        Enabled(Skew(0, 0), states[i], steps[i]) && states[i + 1] == Apply(states[i], steps[i])
        && Disciplined(states[i], steps[i], true)
    ensures forall i :: 0 <= i <= 3 ==> AtZero(states[i], 0)
    ensures states[3].local.Keys == {"a", "b"} && states[3].local["a"] == w.local["a"] && Live(states[3].local["b"], K)
  {
    hide Apply, Enabled, MayDo, MayLand, Live;
    var w1 := PeerFindsFree(w);
    var w2 := PeerIsGranted(w1);
    var w3 := PeerStoresFree(w2);
    steps := [Send("b", Look_(K, 0)), Send("b", Acquire(K, "t", true)), Do("b", Store(K, Entered(Stolen(0), 0, false)))];
    states := [w, w1, w2, w3];
  }

  /** With perfect clocks and a fence evaluation every second, exclusion fails when a release
      that a's earlier process gave up on lands after the restarted a has adopted the claim
      with the same token: the key is free while a runs, and b creates it. */
  lemma LateReleaseOverlaps() returns (run: Run)
    ensures IsRun(Skew(0, 0), run) && Timely(run, 1) && FenceBeatsTakeover(Skew(0, 0), 1, true)
    ensures forall i :: 0 <= i < |run.steps| ==>
        run.steps[i] == Land(Unsent()) || Disciplined(run.states[i], run.steps[i], true)
    ensures !Exclusive(run.states[|run.states| - 1])
  {
    hide MayDo, MayLand, MayArrive, Changed, Landed, Replied, Arrived, Apply, Enabled, Init, Live, AtZero;
    var before, first := OwnerAdopts();
    var w := ReleaseLands(before[2]);
    var after, rest := PeerCreates(w);
    hide Disciplined;
    run := Spliced(before, first, Land(Unsent()), after, rest);
    assert Live(run.states[6].local["a"], K) && Live(run.states[6].local["b"], K);
  }

  /** Two stretches of a run joined by one step, with what holds of every step and state of
      both. */
  lemma Spliced(before: seq<World>, first: seq<Step>, s: Step, after: seq<World>, rest: seq<Step>) returns (run: Run)
    requires |before| == 3 && |first| == 2 && |after| == 4 && |rest| == 3 && Init(before[0])
    requires forall i :: 0 <= i < 2 ==>
        Enabled(Skew(0, 0), before[i], first[i]) && before[i + 1] == Apply(before[i], first[i])
        && Disciplined(before[i], first[i], true)
    requires forall i :: 0 <= i < 3 ==>
        Enabled(Skew(0, 0), after[i], rest[i]) && after[i + 1] == Apply(after[i], rest[i])
        && Disciplined(after[i], rest[i], true)
    requires Enabled(Skew(0, 0), before[2], s) && after[0] == Apply(before[2], s)
    requires (forall i :: 0 <= i <= 2 ==> AtZero(before[i], 0)) && forall i :: 0 <= i <= 3 ==> AtZero(after[i], 0)
    ensures run == Run(before + after, first + [s] + rest) && IsRun(Skew(0, 0), run) && Timely(run, 1)
    ensures forall i :: 0 <= i < |run.steps| ==> (i == 2 && run.steps[i] == s) || Disciplined(run.states[i], run.steps[i], true)
  {
    hide Apply, Enabled, Init, Disciplined;
    run := Run(before + after, first + [s] + rest);
    forall i | 0 <= i < |run.steps|
      ensures Enabled(Skew(0, 0), run.states[i], run.steps[i]) && run.states[i + 1] == Apply(run.states[i], run.steps[i])
      ensures (i == 2 && run.steps[i] == s) || Disciplined(run.states[i], run.steps[i], true)
    {
      if i < 2 {
        assert run.states[i] == before[i] && run.states[i + 1] == before[i + 1] && run.steps[i] == first[i];
      } else if i > 2 {
        assert run.states[i] == after[i - 3] && run.states[i + 1] == after[i - 2] && run.steps[i] == rest[i - 3];
      }
    }
    forall i | 0 <= i < |run.states| ensures AtZero(run.states[i], 0) {
      assert run.states[i] == if i < 3 then before[i] else after[i - 3];
    }
  }

  /** The three steps by which a cluster creates a claim on a free key at instant `now`. */
  function CreateSteps(b: Cluster, k: Key, task: TaskId, v: Server): seq<Step> {
    var rec := Grant(v, b, k, task);
    [Send(b, Look_(k, v.now)), Send(b, Acquire(k, task, true)), Do(b, Store(k, Entered(rec, v.now, false)))]
  }

  lemma FreeLook(skew: Skew, w: World, b: Cluster, k: Key) returns (w': World)
    requires b in w.local && k !in w.server.recs && !Names(w.local[b], k)
    ensures var s := Send(b, Look_(k, w.server.now)); Enabled(skew, w, s) && w' == Apply(w, s)
    ensures w' == w.(local := w.local[b := w.local[b].(look := Some(Look(k, w.server.now, w.server.now, None)), own := map[])])
  {
    w' := Apply(w, Send(b, Look_(k, w.server.now)));
  }

  lemma FreeAcquire(skew: Skew, w: World, b: Cluster, k: Key, task: TaskId) returns (w': World)
    requires b in w.local && k !in w.server.recs && w.local[b].own == map[]
    requires w.local[b].look == Some(Look(k, w.server.now, w.server.now, None))
    ensures var s := Send(b, Acquire(k, task, true)); Enabled(skew, w, s) && w' == Apply(w, s)
    ensures w'.local == w.local[b := w.local[b].(own := map[k := Grant(w.server, b, k, task)])]
  {
    w' := Apply(w, Send(b, Acquire(k, task, true)));
  }

  lemma FreeStore(skew: Skew, w: World, b: Cluster, k: Key, rec: Rec, now: int) returns (w': World)
    requires b in w.local && w.local[b].own == map[k := rec] && k !in w.local[b].held
    requires w.local[b].look.Some? && w.local[b].look.value.key == k && w.local[b].look.value.before.None?
    ensures var s := Do(b, Store(k, Entered(rec, now, false))); Enabled(skew, w, s) && w' == Apply(w, s)
    ensures b in w'.local && Live(w'.local[b], k) && forall c :: c in w.local && c != b ==> c in w'.local && w'.local[c] == w.local[c]
  {
    w' := Apply(w, Do(b, Store(k, Entered(rec, now, false))));
  }

  /** Landing only on claims that were let go is necessary: from any world in which a late
      release lands on a claim its cluster holds live, any peer that does not hold the key has
      it live too three steps later. */
  lemma LateReleaseOnLiveOverlaps(skew: Skew, w: World, x: Late, b: Cluster, task: TaskId) returns (last: World)
    requires x.LateRelease? && MayArrive(w.server, x) && x.c in w.local && Live(w.local[x.c], x.k)
    requires b in w.local && b != x.c && !Names(w.local[b], x.k)
    ensures Enabled(skew, w, Land(x)) && !Exclusive(last)
    ensures var w0 := Apply(w, Land(x)); var s := CreateSteps(b, x.k, task, w0.server);
            && Enabled(skew, w0, s[0]) && Enabled(skew, Apply(w0, s[0]), s[1])
            && Enabled(skew, Apply(Apply(w0, s[0]), s[1]), s[2])
            && last == Apply(Apply(Apply(w0, s[0]), s[1]), s[2])
  {
    var w0 := Apply(w, Land(x));
    assert w0.local == w.local && x.k !in w0.server.recs && Enabled(skew, w, Land(x));
    hide Enabled, Apply, MayArrive, Names, Live, Grant;
    NamesByHeld(w.local[b], x.k);
    var w1 := FreeLook(skew, w0, b, x.k);
    var w2 := FreeAcquire(skew, w1, b, x.k, task);
    last := FreeStore(skew, w2, b, x.k, Grant(w0.server, b, x.k, task), w0.server.now);
    assert last.local[x.c] == w.local[x.c];
    assert Live(last.local[x.c], x.k) && Live(last.local[b], x.k);
  }

  /** A renewal that outlived its caller lands exactly while its token is the server's and its
      sender the holder; the key then has a fresh lease under a token its sender does not know. */
  lemma LateRenewalLands(skew: Skew, w: World, c: Cluster, k: Key, token: Token)
    requires token.holder == c && c in w.local
    ensures var lose := Send(c, Lose(LateRenew(c, k, token)));
            && Enabled(skew, w, lose)
            && (Enabled(skew, Apply(w, lose), Land(LateRenew(c, k, token))) <==>
                  k in w.server.recs && w.server.recs[k].token == token && w.server.recs[k].holder == c)
    ensures ServerOk(w.server) && k in w.server.recs && w.server.recs[k].token == token && w.server.recs[k].holder == c ==>
              var last := Apply(Apply(w, Send(c, Lose(LateRenew(c, k, token)))), Land(LateRenew(c, k, token)));
              && last.local == w.local && k in last.server.recs && last.server.recs[k].token != token
              && last.server.recs[k].holder == c && last.server.recs[k].lease == Some(w.server.now + 300)
  {
    var x := LateRenew(c, k, token);
    var next := Apply(w, Send(c, Lose(x)));
    assert next.server == w.server.(pending := w.server.pending + {x});
    assert next.local == w.local by { assert w.local[c := w.local[c]] == w.local; }
  }

  lemma NamesByHeld(l: Local, k: Key)
    requires !Names(l, k)
    ensures k !in l.held
  {}

  const STALE := Rec("a", "t", TOKEN, Some(0 - TAKEOVER_GRACE))
  const STALE_LOOK := Look(K, 0, 0, Some(STALE))

  lemma OwnerLooks() returns (w: World)
    ensures var w0, s := Start(-TAKEOVER_GRACE, {}), Send("a", Look_(K, 0));
            && Init(w0) && Enabled(Skew(0, 0), w0, s) && w == Apply(w0, s)
            && w == w0.(local := w0.local["a" := IDLE.(look := Some(STALE_LOOK))])
  {
    w := Apply(Start(-TAKEOVER_GRACE, {}), Send("a", Look_(K, 0)));
  }

  lemma OwnerReadsBack(w: World) returns (w': World)
    requires var w0 := Start(-TAKEOVER_GRACE, {}); w == w0.(local := w0.local["a" := IDLE.(look := Some(STALE_LOOK))])
    ensures Enabled(Skew(0, 0), w, Send("a", Show(K))) && w' == Apply(w, Send("a", Show(K)))
    ensures w' == w.(local := w.local["a" := IDLE.(look := Some(STALE_LOOK), own := map[K := STALE])])
  {
    w' := Apply(w, Send("a", Show(K)));
    assert w'.local["a"].own == map[K := STALE];
  }

  lemma OwnerStores(w: World) returns (w': World)
    requires w.server == Server(0, map[K := STALE], 1, {}, {}) && w.local.Keys == {"a", "b"} && w.local["b"] == IDLE
    requires w.local["a"] == IDLE.(look := Some(STALE_LOOK), own := map[K := STALE])
    ensures var s := Do("a", Store(K, Entered(STALE, 0, false))); Enabled(Skew(0, 0), w, s) && w' == Apply(w, s)
    ensures AHolds(w', 0, STALE)
  {
    w' := Apply(w, Do("a", Store(K, Entered(STALE, 0, false))));
  }

  /** Cluster a reads its own leftover record, past its grace, and stores it as read. */
  lemma OwnRecordStored() returns (states: seq<World>, steps: seq<Step>)
    ensures |states| == 4 && |steps| == 3 && Init(states[0]) && AHolds(states[3], 0, STALE)
    ensures forall i :: 0 <= i < 3 ==>
        Enabled(Skew(0, 0), states[i], steps[i]) && states[i + 1] == Apply(states[i], steps[i])
        && Prompt(states[i], steps[i]) && SingleRef(steps[i]) && !steps[i].Land?
    ensures forall i :: 0 <= i <= 3 ==> AtZero(states[i], 0)
  {
    hide Apply, Enabled, MayDo, MayLand, Init, Live;
    var w1 := OwnerLooks();
    var w2 := OwnerReadsBack(w1);
    var w3 := OwnerStores(w2);
    steps := [Send("a", Look_(K, 0)), Send("a", Show(K)), Do("a", Store(K, Entered(STALE, 0, false)))];
    states := [Start(-TAKEOVER_GRACE, {}), w1, w2, w3];
  }

  /** With perfect clocks and a fence evaluation every second, exclusion still fails when
      a cluster takes over its own leftover record, the acquire does not land and the
      read-back returns that same record: the claim is stored with its old lease. */
  lemma StaleRecoveryOverlaps() returns (run: Run)
    ensures IsRun(Skew(0, 0), run) && Timely(run, 1) && FenceBeatsTakeover(Skew(0, 0), 1, false)
    ensures forall i :: 0 <= i < |run.steps| ==>
        Prompt(run.states[i], run.steps[i]) && SingleRef(run.steps[i]) && !run.steps[i].Land?
    ensures !Exclusive(run.states[|run.states| - 1])
  {
    var skew := Skew(0, 0);
    var states, steps := OwnRecordStored();
    run := ThenPeerTakesOver(skew, states, steps, 0, STALE, 0);
  }

  /** Whenever a takeover stores a claim, that claim is already past its fence point on
      every clock reading if and only if the stored token is the one its read had found. */
  lemma StoredPastFenceExactly(skew: Skew, run: Run, d: nat, i: nat)
    requires IsRun(skew, run) && Timely(run, d) && d <= 200 && skew.slow + skew.fast < 100
    requires i < |run.steps| && run.steps[i].Do? && run.steps[i].m.Store?
    requires run.states[i].local[run.steps[i].c].look.value.before.Some?
    ensures var w, s := run.states[i], run.steps[i];
            var l := w.local[s.c];
            (forall clock :: w.server.now - skew.slow <= clock <= w.server.now + skew.fast ==>
               FenceDue(clock, s.m.h.lease))
            <==> l.own[s.m.k].token == l.look.value.before.value.token
  {
    RunKeepsInv(skew, run, i);
    var w, s := run.states[i], run.steps[i];
    assert LocalOk(skew, w.server, s.c, w.local[s.c]);
    assert FenceDue(w.server.now - skew.slow, s.m.h.lease) ==>
        forall clock :: w.server.now - skew.slow <= clock ==> FenceDue(clock, s.m.h.lease);
  }
}
