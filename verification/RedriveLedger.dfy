/** Publishing failures and clearing streaks: every sequential run keeps the refs of every
    task in line with its history. */
module RedriveLedgers {
  import opened Wrappers
  import opened Text
  import opened ClaimKeys
  import opened RefStores
  import opened RefReads
  import opened RefWrites
  import opened RedriveEntries
  import opened Redrive

  function Extended(s: seq<Failure>, f: Failure): seq<Failure> {
    if s != [] && s[0].phase == f.phase then s + [f] else [f]
  }

  // ---- the streak refs across one failure ----

  /** Pruning drops the failures that have left the window. */
  lemma PruneStreak(refs: map<string, Lease>, task: string, s: seq<Failure>, e: nat, b: nat, now: int)
    requires e <= b <= |s| && InTime(s) && b <= Gone(s, now)
    requires Exactly(refs, Streaks, task, StreakEntries(task, s, e, b))
    ensures Exactly(Without(refs, Streaks, task, Stale(now)), Streaks, task, StreakEntries(task, s, e, Gone(s, now)))
  {
    hide Exactly, Without, InTime;
    var entries := StreakEntries(task, s, e, b);
    WithoutEntries(refs, Streaks, task, Stale(now), entries);
    StreakTail(task, s, e, b, now);
  }

  lemma StreakTail(task: string, s: seq<Failure>, e: nat, b: nat, now: int)
    requires e <= b <= |s| && InTime(s) && b <= Gone(s, now)
    ensures var entries := StreakEntries(task, s, e, b);
            Staying(entries, Stale(now)) == StreakEntries(task, s, e, Gone(s, now))
  {
    hide StreakEntries, InTime;
    var entries, g := StreakEntries(task, s, e, b), Gone(s, now);
    var kept := Staying(entries, Stale(now));
    var tail := StreakEntries(task, s, e, g);
    forall p | p in kept ensures p in tail && tail[p] == kept[p] {
      var i := StreakIndex(task, s, e, b, p);
      assert Counts(s[i], now);
      StreakEntry(task, s, e, g, i);
    }
    forall p | p in tail ensures p in kept {
      var i := StreakIndex(task, s, e, g, p);
      assert Counts(s[i], now);
      StreakEntry(task, s, e, b, i);
    }
  }

  /** Whether a streak goes on: the phase is the same and some ref is left. */
  predicate GoesOn(s: seq<Failure>, g: nat, phase: string) { g < |s| && s[0].phase == phase }

  lemma NextStreak(refs: map<string, Lease>, task: string, s: seq<Failure>, e: nat, g: nat, phase: string, n: int)
    requires e <= g <= |s| && Exactly(refs, Streaks, task, StreakEntries(task, s, e, g)) && IsNext(refs, Streaks, task, phase, n)
    requires forall i :: 0 <= i < |s| ==> s[i].phase == s[0].phase
    ensures n == if GoesOn(s, g, phase) then |s| - e + 1 else 1
  {
    hide Exactly, IsNext, StreakEntries;
    var entries := StreakEntries(task, s, e, g);
    if GoesOn(s, g, phase) {
      var top := StreakOf(task, s, e, |s| - 1);
      StreakEntry(task, s, e, g, |s| - 1);
      forall p | p in entries ensures p.n <= top.n { var i := StreakIndex(task, s, e, g, p); }
      NextAfter(refs, Streaks, task, phase, n, entries, top);
    } else {
      forall p | p in entries ensures p.phase != phase { var i := StreakIndex(task, s, e, g, p); }
      FirstNumber(refs, Streaks, task, phase, n, entries);
    }
  }

  lemma RecordStreak(refs: map<string, Lease>, task: string, s: seq<Failure>, e: nat, g: nat, f: Failure, n: int)
    requires e <= g <= |s| && |s| < MAX_INT && Exactly(refs, Streaks, task, StreakEntries(task, s, e, g))
    requires ValidComponent(task) && ValidComponent(f.phase)
    requires forall i :: 0 <= i < |s| ==> s[i].phase == s[0].phase
    requires n == if GoesOn(s, g, f.phase) then |s| - e + 1 else 1
    ensures var t := Extended(s, f); var p := Parsed(task, f.phase, "", n);
            Exactly(Recorded(refs, Streaks, p, f.at + WINDOW), Streaks, task,
                    if GoesOn(s, g, f.phase) then StreakEntries(task, t, e, g) else StreakEntries(task, t, |t| - 1, |t| - 1))
  {
    hide Exactly, Recorded, ValidComponent;
    var p := Parsed(task, f.phase, "", n);
    RecordedEntries(refs, Streaks, p, f.at + WINDOW, StreakEntries(task, s, e, g));
    MoreStreak(task, s, e, g, f);
  }

  lemma MoreStreak(task: string, s: seq<Failure>, e: nat, g: nat, f: Failure)
    requires e <= g <= |s| && forall i :: 0 <= i < |s| ==> s[i].phase == s[0].phase
    ensures var t := Extended(s, f);
            var p := Parsed(task, f.phase, "", if GoesOn(s, g, f.phase) then |s| - e + 1 else 1);
            PhaseOnly(StreakEntries(task, s, e, g)[p := Ends(f.at + WINDOW)], f.phase)
            == if GoesOn(s, g, f.phase) then StreakEntries(task, t, e, g) else StreakEntries(task, t, |t| - 1, |t| - 1)
  {
    hide StreakEntries;
    var t, on := Extended(s, f), GoesOn(s, g, f.phase);
    var p := Parsed(task, f.phase, "", if on then |s| - e + 1 else 1);
    var kept := PhaseOnly(StreakEntries(task, s, e, g)[p := Ends(f.at + WINDOW)], f.phase);
    var e', g' := if on then e else |t| - 1, if on then g else |t| - 1;
    var next := StreakEntries(task, t, e', g');
    StreakEntry(task, t, e', g', |t| - 1);
    assert StreakOf(task, t, e', |t| - 1) == p;
    forall q | q in kept ensures q in next && next[q] == kept[q] {
      if q != p {
        var i := StreakIndex(task, s, e, g, q);
        StreakEntry(task, t, e', g', i);
      }
    }
    forall q | q in next ensures q in kept {
      var i := StreakIndex(task, t, e', g', q);
      if i < |t| - 1 { StreakEntry(task, s, e, g, i); }
    }
  }

  // ---- the reason refs across one failure ----

  lemma NextReason(refs: map<string, Lease>, task: string, s: seq<Failure>, a: nat, phase: string, n: int)
    requires a <= |s| && Exactly(refs, Reasons, task, ReasonEntries(task, s, a)) && IsNext(refs, Reasons, task, phase, n)
    requires forall i :: 0 <= i < |s| ==> s[i].phase == s[0].phase
    ensures n == if GoesOn(s, a, phase) then |s| - a + 1 else 1
  {
    hide Exactly, IsNext, ReasonEntries;
    var entries := ReasonEntries(task, s, a);
    if GoesOn(s, a, phase) {
      var top := ReasonAt(task, s, a, |s| - 1);
      ReasonEntry(task, s, a, |s| - 1);
      forall p | p in entries ensures p.n <= top.n { var i := ReasonIndex(task, s, a, p); }
      NextAfter(refs, Reasons, task, phase, n, entries, top);
    } else {
      forall p | p in entries ensures p.phase != phase { var i := ReasonIndex(task, s, a, p); }
      FirstNumber(refs, Reasons, task, phase, n, entries);
    }
  }

  lemma RecordReason(refs: map<string, Lease>, task: string, s: seq<Failure>, a: nat, f: Failure, n: int)
    requires a <= |s| && |s| < MAX_INT && Exactly(refs, Reasons, task, ReasonEntries(task, s, a))
    requires ValidComponent(task) && ValidComponent(f.phase) && ValidComponent(f.reason)
    requires forall i :: 0 <= i < |s| ==> s[i].phase == s[0].phase
    requires n == if GoesOn(s, a, f.phase) then |s| - a + 1 else 1
    ensures var t := Extended(s, f); var p := Parsed(task, f.phase, f.reason, n);
            Exactly(Recorded(refs, Reasons, p, f.noted + WINDOW), Reasons, task,
                    ReasonEntries(task, t, if GoesOn(s, a, f.phase) then a else |t| - 1))
  {
    hide Exactly, Recorded, ValidComponent;
    var p := Parsed(task, f.phase, f.reason, n);
    RecordedEntries(refs, Reasons, p, f.noted + WINDOW, ReasonEntries(task, s, a));
    MoreReasons(task, s, a, f);
  }

  lemma MoreReasons(task: string, s: seq<Failure>, a: nat, f: Failure)
    requires a <= |s| && forall i :: 0 <= i < |s| ==> s[i].phase == s[0].phase
    ensures var t := Extended(s, f);
            var p := Parsed(task, f.phase, f.reason, if GoesOn(s, a, f.phase) then |s| - a + 1 else 1);
            PhaseOnly(ReasonEntries(task, s, a)[p := Ends(f.noted + WINDOW)], f.phase)
            == ReasonEntries(task, t, if GoesOn(s, a, f.phase) then a else |t| - 1)
  {
    hide ReasonEntries;
    var t, on := Extended(s, f), GoesOn(s, a, f.phase);
    var p := Parsed(task, f.phase, f.reason, if on then |s| - a + 1 else 1);
    var kept := PhaseOnly(ReasonEntries(task, s, a)[p := Ends(f.noted + WINDOW)], f.phase);
    var a' := if on then a else |t| - 1;
    var next := ReasonEntries(task, t, a');
    ReasonEntry(task, t, a', |t| - 1);
    assert ReasonAt(task, t, a', |t| - 1) == p;
    forall q | q in kept ensures q in next && next[q] == kept[q] {
      if q != p {
        var i := ReasonIndex(task, s, a, q);
        ReasonEntry(task, t, a', i);
      }
    }
    forall q | q in next ensures q in kept {
      var i := ReasonIndex(task, t, a', q);
      if i < |t| - 1 { ReasonEntry(task, s, a, i); }
    }
  }

  // ---- one published failure ----

  /** What one published failure does to the store: a new streak clears the task's reasons,
      expired streak refs are pruned, then the streak and the reason are recorded. */
  function Published(
    refs: map<string, Lease>, task: string, f: Failure, anew: bool, pruned: int, n: nat, m: nat): map<string, Lease>
  {
    Recorded(Noticed(refs, task, f, anew, pruned, n), Reasons, Parsed(task, f.phase, f.reason, m), f.noted + WINDOW)
  }

  function Prepared(refs: map<string, Lease>, task: string, anew: bool, pruned: int): map<string, Lease> {
    Without(if anew then Without(refs, Reasons, task, All) else refs, Streaks, task, Stale(pruned))
  }

  function Noticed(refs: map<string, Lease>, task: string, f: Failure, anew: bool, pruned: int, n: nat): map<string, Lease> {
    Recorded(Prepared(refs, task, anew, pruned), Streaks, Parsed(task, f.phase, "", n), f.at + WINDOW)
  }

  predicate Sound(task: string, f: Failure) { ValidComponent(task) && ValidComponent(f.phase) && ValidComponent(f.reason) }

  /** A peer's refs are untouched. */
  lemma PublishedPeer(
    refs: map<string, Lease>, task: string, f: Failure, anew: bool, pruned: int, n: nat, m: nat,
    space: Space, peer: string, entries: Entries)
    requires Sound(task, f) && 1 <= n <= MAX_INT && 1 <= m <= MAX_INT && peer != task && Exactly(refs, space, peer, entries)
    ensures Exactly(Published(refs, task, f, anew, pruned, n, m), space, peer, entries)
  {
    hide Exactly, Without, Recorded, ValidComponent;
    var r1 := if anew then Without(refs, Reasons, task, All) else refs;
    if anew { WithoutOthers(refs, Reasons, task, All, space, peer, entries); }
    WithoutOthers(r1, Streaks, task, Stale(pruned), space, peer, entries);
    RecordedOthers(Prepared(refs, task, anew, pruned), Streaks, Parsed(task, f.phase, "", n), f.at + WINDOW, space, peer, entries);
    RecordedOthers(Noticed(refs, task, f, anew, pruned, n), Reasons, Parsed(task, f.phase, f.reason, m), f.noted + WINDOW,
                   space, peer, entries);
  }

  /** The task's own streak refs once the expired ones are pruned. */
  lemma PreparedStreak(refs: map<string, Lease>, task: string, s: seq<Failure>, e: nat, b: nat, anew: bool, pruned: int)
    requires e <= b <= |s| && InTime(s) && b <= Gone(s, pruned)
    requires Exactly(refs, Streaks, task, StreakEntries(task, s, e, b))
    ensures Exactly(Prepared(refs, task, anew, pruned), Streaks, task, StreakEntries(task, s, e, Gone(s, pruned)))
  {
    hide Exactly, Without, InTime, StreakEntries;
    if anew { WithoutOthers(refs, Reasons, task, All, Streaks, task, StreakEntries(task, s, e, b)); }
    PruneStreak(if anew then Without(refs, Reasons, task, All) else refs, task, s, e, b, pruned);
  }

  /** The task's own reason refs: all of them, or none when a new streak begins. */
  lemma PreparedReasons(refs: map<string, Lease>, task: string, s: seq<Failure>, a: nat, anew: bool, pruned: int)
    requires a <= |s| && Exactly(refs, Reasons, task, ReasonEntries(task, s, a))
    ensures Exactly(Prepared(refs, task, anew, pruned), Reasons, task, ReasonEntries(task, s, if anew then |s| else a))
  {
    hide Exactly, Without;
    var entries := ReasonEntries(task, s, if anew then |s| else a);
    var r1 := if anew then Without(refs, Reasons, task, All) else refs;
    if anew {
      WithoutEntries(refs, Reasons, task, All, ReasonEntries(task, s, a));
      assert Staying(ReasonEntries(task, s, a), All) == entries;
    }
    WithoutOthers(r1, Streaks, task, Stale(pruned), Reasons, task, entries);
  }

  /** The numbers the failure is recorded under. */
  function StreakNumber(s: seq<Failure>, e: nat, pruned: int, phase: string): int
    requires InTime(s)
  {
    if GoesOn(s, Gone(s, pruned), phase) then |s| - e + 1 else 1
  }

  function ReasonNumber(s: seq<Failure>, a: nat, phase: string): int {
    if GoesOn(s, a, phase) then |s| - a + 1 else 1
  }

  /** The task's streak refs after the failure. */
  lemma PublishedStreak(
    refs: map<string, Lease>, task: string, s: seq<Failure>, e: nat, b: nat, f: Failure, anew: bool, pruned: int, n: nat, m: nat)
    requires e <= b <= |s| && GoodRun(s) && b <= Gone(s, pruned) && Sound(task, f) && 1 <= m <= MAX_INT
    requires forall i :: 0 <= i < |s| ==> s[i].phase == s[0].phase
    requires Exactly(refs, Streaks, task, StreakEntries(task, s, e, b)) && n == StreakNumber(s, e, pruned, f.phase)
    ensures var t, on := Extended(s, f), GoesOn(s, Gone(s, pruned), f.phase);
            Exactly(Published(refs, task, f, anew, pruned, n, m), Streaks, task,
                    if on then StreakEntries(task, t, e, Gone(s, pruned)) else StreakEntries(task, t, |t| - 1, |t| - 1))
  {
    hide Exactly, Without, Recorded, ValidComponent, StreakEntries, InTime, Prepared;
    var t, g := Extended(s, f), Gone(s, pruned);
    PreparedStreak(refs, task, s, e, b, anew, pruned);
    RecordStreak(Prepared(refs, task, anew, pruned), task, s, e, g, f, n);
    RecordedOthers(Noticed(refs, task, f, anew, pruned, n), Reasons, Parsed(task, f.phase, f.reason, m), f.noted + WINDOW,
                   Streaks, task,
                   if GoesOn(s, g, f.phase) then StreakEntries(task, t, e, g) else StreakEntries(task, t, |t| - 1, |t| - 1));
  }

  /** The task's reason refs after the failure. */
  lemma PublishedReasons(
    refs: map<string, Lease>, task: string, s: seq<Failure>, a: nat, f: Failure, anew: bool, pruned: int, n: nat, m: nat)
    requires a <= |s| && GoodRun(s) && Sound(task, f) && 1 <= n <= MAX_INT
    requires forall i :: 0 <= i < |s| ==> s[i].phase == s[0].phase
    requires Exactly(refs, Reasons, task, ReasonEntries(task, s, a))
    requires m == ReasonNumber(s, if anew then |s| else a, f.phase)
    ensures var t, from := Extended(s, f), if anew then |s| else a;
            Exactly(Published(refs, task, f, anew, pruned, n, m), Reasons, task,
                    ReasonEntries(task, t, if GoesOn(s, from, f.phase) then from else |t| - 1))
  {
    hide Exactly, Without, Recorded, ValidComponent, ReasonEntries, InTime, Prepared;
    var from := if anew then |s| else a;
    PreparedReasons(refs, task, s, a, anew, pruned);
    RecordedOthers(Prepared(refs, task, anew, pruned), Streaks, Parsed(task, f.phase, "", n), f.at + WINDOW,
                   Reasons, task, ReasonEntries(task, s, from));
    RecordReason(Noticed(refs, task, f, anew, pruned, n), task, s, from, f, m);
  }

  /** One published failure keeps the task's refs in line with its history. */
  lemma PublishedTask(
    refs: map<string, Lease>, task: string, h: seq<Event>, a: nat, e: nat, b: nat,
    f: Failure, anew: bool, counted: int, pruned: int, n: nat, m: nat)
    requires Matches(refs, task, h, a, e, b) && Sound(task, f) && |h| + 1 < MAX_INT
    requires Past(h, counted) && counted <= pruned <= f.at && anew == (Streak(h, f.phase, counted) == [])
    requires var s := Current(h);
             n == StreakNumber(s, e, pruned, f.phase) && m == ReasonNumber(s, if anew then |s| else a, f.phase)
    ensures TaskOk(Published(refs, task, f, anew, pruned, n, m), task, h + [Failed(f)])
  {
    hide Exactly, Published, ValidComponent, StreakEntries, ReasonEntries, Past, Streak, Counts, InTime;
    var s, t := Current(h), Extended(Current(h), f);
    var g, from := Gone(s, pruned), if anew then |s| else a;
    PastLater(h, counted, pruned);
    PrunedAreGone(h, b, counted);
    PrunedAreGone(h, b, pruned);
    PublishedStreak(refs, task, s, e, b, f, anew, pruned, n, m);
    PublishedReasons(refs, task, s, a, f, anew, pruned, n, m);
    CurrentExtends(h, f);
    ExtendedRun(h, f, counted, pruned);
    FreshMeansGone(h, f.phase, counted, pruned);
    hide Current, GoodRun;
    if GoesOn(s, g, f.phase) {
      assert Matches(Published(refs, task, f, anew, pruned, n, m), task, h + [Failed(f)], a, e, g);
    } else if GoesOn(s, from, f.phase) {
      assert Matches(Published(refs, task, f, anew, pruned, n, m), task, h + [Failed(f)], a, |t| - 1, |t| - 1);
    } else {
      assert Matches(Published(refs, task, f, anew, pruned, n, m), task, h + [Failed(f)], |t| - 1, |t| - 1, |t| - 1);
    }
  }

  lemma CurrentExtends(h: seq<Event>, f: Failure)
    ensures Current(h + [Failed(f)]) == Extended(Current(h), f)
  {
    assert (h + [Failed(f)])[..|h|] == h;
  }

  lemma PastLater(h: seq<Event>, now: int, later: int)
    requires Past(h, now) && now <= later
    ensures Past(h, later)
  {}

  /** The extended run is still in time, and what was gone at the pruning stays gone. */
  lemma ExtendedRun(h: seq<Event>, f: Failure, counted: int, pruned: int)
    requires GoodRun(Current(h)) && Past(h, counted) && counted <= pruned <= f.at
    requires ValidComponent(f.phase) && ValidComponent(f.reason) && |h| + 1 < MAX_INT
    ensures GoodRun(Extended(Current(h), f))
    ensures var g := Gone(Current(h), pruned); g > 0 ==> !Counts(Current(h)[g - 1], f.at)
  {
    CurrentPast(h, counted);
  }

  /** When nothing counts at the phase, nothing is left of it after the pruning; when
      something does, the run goes on and its reasons were kept. */
  lemma FreshMeansGone(h: seq<Event>, phase: string, counted: int, pruned: int)
    requires InTime(Current(h)) && counted <= pruned
    ensures Streak(h, phase, counted) == [] ==> !GoesOn(Current(h), Gone(Current(h), pruned), phase)
    ensures Streak(h, phase, counted) != [] ==>
      Current(h) != [] && Current(h)[0].phase == phase && Gone(Current(h), counted) < |Current(h)|
  {
    UnexpiredIsSuffix(Current(h), counted);
    var s, g := Current(h), Gone(Current(h), pruned);
    if g < |s| { assert Counts(s[g], pruned) && Counts(s[g], counted); }
  }

  lemma NoticedReasons(
    refs: map<string, Lease>, task: string, s: seq<Failure>, a: nat, f: Failure, anew: bool, pruned: int, n: nat)
    requires a <= |s| && Sound(task, f) && 1 <= n <= MAX_INT && Exactly(refs, Reasons, task, ReasonEntries(task, s, a))
    ensures Exactly(Noticed(refs, task, f, anew, pruned, n), Reasons, task, ReasonEntries(task, s, if anew then |s| else a))
  {
    hide Exactly, Without, Recorded, ValidComponent, ReasonEntries, Prepared;
    PreparedReasons(refs, task, s, a, anew, pruned);
    RecordedOthers(Prepared(refs, task, anew, pruned), Streaks, Parsed(task, f.phase, "", n), f.at + WINDOW,
                   Reasons, task, ReasonEntries(task, s, if anew then |s| else a));
  }

  /** The numbers a publication finds are those the history gives. */
  lemma StreakNumberFound(
    refs: map<string, Lease>, task: string, h: seq<Event>, a: nat, e: nat, b: nat, anew: bool, counted: int, pruned: int,
    phase: string, n: int)
    requires Matches(refs, task, h, a, e, b) && Past(h, counted) && counted <= pruned
    requires IsNext(Prepared(refs, task, anew, pruned), Streaks, task, phase, n)
    ensures n == StreakNumber(Current(h), e, pruned, phase) && 1 <= n <= |h| + 1
  {
    hide Exactly, Prepared, ValidComponent, StreakEntries, ReasonEntries, Past, Streak, Counts, InTime, IsNext;
    PastLater(h, counted, pruned);
    PrunedAreGone(h, b, pruned);
    PreparedStreak(refs, task, Current(h), e, b, anew, pruned);
    NextStreak(Prepared(refs, task, anew, pruned), task, Current(h), e, Gone(Current(h), pruned), phase, n);
  }

  lemma ReasonNumberFound(
    refs: map<string, Lease>, task: string, h: seq<Event>, a: nat, e: nat, b: nat, f: Failure, anew: bool, pruned: int, n: nat, m: int)
    requires Matches(refs, task, h, a, e, b) && Sound(task, f) && 1 <= n <= MAX_INT
    requires IsNext(Noticed(refs, task, f, anew, pruned, n), Reasons, task, f.phase, m)
    ensures m == ReasonNumber(Current(h), if anew then |Current(h)| else a, f.phase) && 1 <= m <= |h| + 1
  {
    hide Exactly, Noticed, ValidComponent, StreakEntries, ReasonEntries, InTime, IsNext;
    NoticedReasons(refs, task, Current(h), a, f, anew, pruned, n);
    NextReason(Noticed(refs, task, f, anew, pruned, n), task, Current(h), if anew then |Current(h)| else a, f.phase, m);
  }

  // ---- clearing ----

  function BothCleared(refs: map<string, Lease>, task: string): map<string, Lease> {
    Without(Without(refs, Streaks, task, All), Reasons, task, All)
  }

  lemma AllGone(refs: map<string, Lease>, space: Space, task: string, entries: Entries)
    requires Exactly(refs, space, task, entries)
    ensures Exactly(Without(refs, space, task, All), space, task, map[])
  {
    hide Exactly, Without;
    WithoutEntries(refs, space, task, All, entries);
    assert Staying(entries, All) == map[];
  }

  lemma ClearedTask(refs: map<string, Lease>, task: string, h: seq<Event>)
    requires TaskOk(refs, task, h)
    ensures TaskOk(BothCleared(refs, task), task, h + [Reset])
  {
    hide Exactly, Without, ValidComponent, StreakEntries, ReasonEntries, InTime, Counts;
    var a, e, b := Positions(refs, task, h);
    var s, r1 := Current(h), Without(refs, Streaks, task, All);
    AllGone(refs, Streaks, task, StreakEntries(task, s, e, b));
    WithoutOthers(refs, Streaks, task, All, Reasons, task, ReasonEntries(task, s, a));
    AllGone(r1, Reasons, task, ReasonEntries(task, s, a));
    WithoutOthers(r1, Reasons, task, All, Streaks, task, map[]);
    EmptyMatches(BothCleared(refs, task), task, h + [Reset]);
  }

  lemma ClearedPeer(refs: map<string, Lease>, task: string, peer: string, h: seq<Event>)
    requires peer != task && TaskOk(refs, peer, h)
    ensures TaskOk(BothCleared(refs, task), peer, h)
  {
    hide Exactly, Without, TaskOk;
    forall space: Space, entries: Entries | Exactly(refs, space, peer, entries)
      ensures Exactly(BothCleared(refs, task), space, peer, entries)
    {
      WithoutOthers(refs, Streaks, task, All, space, peer, entries);
      WithoutOthers(Without(refs, Streaks, task, All), Reasons, task, All, space, peer, entries);
    }
    PeerOk(refs, BothCleared(refs, task), peer, h);
  }

  lemma EmptyMatches(refs: map<string, Lease>, task: string, h: seq<Event>)
    requires Exactly(refs, Streaks, task, map[]) && Exactly(refs, Reasons, task, map[]) && Current(h) == []
    ensures TaskOk(refs, task, h)
  {
    hide Exactly;
    assert StreakEntries(task, [], 0, 0) == map[] && ReasonEntries(task, [], 0) == map[];
    assert Matches(refs, task, h, 0, 0, 0);
  }

  lemma NothingStored(task: string)
    ensures TaskOk(map[], task, [])
  {
    assert Exactly(map[], Streaks, task, map[]) && Exactly(map[], Reasons, task, map[]);
    EmptyMatches(map[], task, []);
  }

  /** A peer of a task whose failure is published or whose streak is cleared. */
  lemma PeerOk(refs: map<string, Lease>, refs': map<string, Lease>, peer: string, h: seq<Event>)
    requires TaskOk(refs, peer, h)
    requires forall space: Space, entries: Entries :: Exactly(refs, space, peer, entries) ==> Exactly(refs', space, peer, entries)
    ensures TaskOk(refs', peer, h)
  {
    hide Exactly;
    var a: nat, e: nat, b: nat :| Matches(refs, peer, h, a, e, b);
    assert Matches(refs', peer, h, a, e, b);
  }

  lemma StillOk(
    refs: map<string, Lease>, task: string, f: Failure, anew: bool, pruned: int, n: nat, m: nat, peer: string, h: seq<Event>)
    requires Sound(task, f) && 1 <= n <= MAX_INT && 1 <= m <= MAX_INT && peer != task && TaskOk(refs, peer, h)
    ensures TaskOk(Published(refs, task, f, anew, pruned, n, m), peer, h)
  {
    hide Exactly, Published, ValidComponent, TaskOk;
    var refs' := Published(refs, task, f, anew, pruned, n, m);
    forall space: Space, entries: Entries | Exactly(refs, space, peer, entries) ensures Exactly(refs', space, peer, entries) {
      PublishedPeer(refs, task, f, anew, pruned, n, m, space, peer, entries);
    }
    PeerOk(refs, refs', peer, h);
  }

  lemma PastMore(h: seq<Event>, clock: int, f: Failure)
    requires Past(h, clock) && clock <= f.at
    ensures Past(h + [Failed(f)], f.at)
  {}

  // ---- the ledger ----

  /** The failure path of the result publisher and the clearing of a finished task, with
      the history of every task beside them. */
  class FailureLedger {
    const server: RefServer
    ghost var history: map<string, seq<Event>>
    ghost var clock: int

    ghost function Of(task: string): seq<Event> reads this { if task in history then history[task] else [] }

    /** The store answers every request, as in a run without faults. */
    ghost predicate Valid() reads this, server {
      server.reliable && forall task :: TaskOk(server.refs, task, Of(task)) && Past(Of(task), clock)
    }

    constructor (server: RefServer)
      requires server.refs == map[] && server.reliable
      ensures Valid() && this.server == server && history == map[]
    {
      this.server, this.history, this.clock := server, map[], 0;
      new;
      forall task ensures TaskOk(server.refs, task, Of(task)) { NothingStored(task); }
    }

    /** Records one published failure: counted, pruned, at and noted are the clock readings
        of its four store accesses. */
    method PublishFailure(task: string, phase: string, reason: string, spawned: int, counted: int, pruned: int, at: int, noted: int)
      requires Valid() && clock <= counted <= pruned <= at <= noted && |Of(task)| + 2 < MAX_INT
      requires reason == "" || ValidComponent(reason)
      modifies server, this`history, this`clock
      ensures Valid()
      ensures !ValidRequest(task, phase) ==> server.refs == old(server.refs) && history == old(history)
      ensures ValidRequest(task, phase) ==>
                var f := Failure(if phase == "" then "none" else phase, if reason == "" then "unknown" else reason,
                                 spawned, at, noted);
                history == old(history)[task := old(Of(task)) + [Failed(f)]] && clock == at
    {
      hide TaskOk, Matches, Past, ValidComponent, Published, Streak, StreakNumber, ReasonNumber;
      if !ValidRequest(task, phase) { return; }
      ghost var h, refs := Of(task), server.refs;
      var f := FailureOf(phase, reason, spawned, at, noted);
      UnknownIsValid();
      ghost var a, e, b := Positions(refs, task, h);
      PastLater(h, clock, counted);
      ghost var anew, n, m := Store(task, phase, reason, f, h, a, e, b, counted, pruned);
      PublishedTask(refs, task, h, a, e, b, f, anew, counted, pruned, n, m);
      PastMore(h, clock, f);
      history, clock := history[task := h + [Failed(f)]], at;
      forall peer ensures TaskOk(server.refs, peer, Of(peer)) && Past(Of(peer), clock) {
        if peer != task {
          assert Of(peer) == old(Of(peer)) && TaskOk(refs, peer, old(Of(peer)));
          StillOk(refs, task, f, anew, pruned, n, m, peer, Of(peer));
          PastLater(Of(peer), old(clock), clock);
        }
      }
    }

    /** The store accesses of one published failure. */
    method Store(
      task: string, phase: string, reason: string, f: Failure, ghost h: seq<Event>, ghost a: nat, ghost e: nat, ghost b: nat,
      counted: int, pruned: int)
      returns (ghost anew: bool, ghost n: nat, ghost m: nat)
      requires server.reliable && ValidRequest(task, phase) && Sound(task, f) && f.phase == Component(phase) && f.reason == Reason(reason)
      requires Matches(server.refs, task, h, a, e, b) && Past(h, counted) && counted <= pruned <= f.at && |h| + 2 < MAX_INT
      modifies server
      ensures anew == (Streak(h, f.phase, counted) == []) && 1 <= n <= MAX_INT && 1 <= m <= MAX_INT
      ensures n == StreakNumber(Current(h), e, pruned, f.phase)
      ensures m == ReasonNumber(Current(h), if anew then |Current(h)| else a, f.phase)
      ensures server.refs == Published(old(server.refs), task, f, anew, pruned, n, m)
    {
      hide ValidComponent, Live, IsNext, Past, Streak, Exactly, Recorded, Without, StreakNumber, ReasonNumber, StreakEntries;
      ghost var refs := server.refs;
      var c := server.Count(task, phase, counted);
      CountIsStreak(refs, task, h, a, e, b, f.phase, counted);
      if c.value == 0 {
        var _ := DeleteRefs(server, Reasons, task, All);
      }
      var _ := DeleteRefs(server, Streaks, task, Stale(pruned));
      anew := c.value == 0;
      var _, n', _ := RecordRef(server, Streaks, task, Component(phase), "", f.at + WINDOW);
      StreakNumberFound(refs, task, h, a, e, b, anew, counted, pruned, f.phase, n');
      n := n';
      var _, m', _ := RecordRef(server, Reasons, task, Component(phase), f.reason, f.noted + WINDOW);
      ReasonNumberFound(refs, task, h, a, e, b, f, anew, pruned, n, m');
      m := m';
    }

    /** Ends a task's streak in both stores. */
    method ClearStreak(task: string)
      requires Valid()
      modifies server, this`history
      ensures Valid()
      ensures !ValidComponent(task) ==> server.refs == old(server.refs) && history == old(history)
      ensures ValidComponent(task) ==> history == old(history)[task := old(Of(task)) + [Reset]]
    {
      hide TaskOk, ValidComponent, Without;
      if !ValidComponent(task) { return; }
      ghost var refs := server.refs;
      var _ := DeleteRefs(server, Streaks, task, All);
      var _ := DeleteRefs(server, Reasons, task, All);
      history := history[task := Of(task) + [Reset]];
      forall peer ensures TaskOk(server.refs, peer, Of(peer)) && Past(Of(peer), clock) {
        assert TaskOk(refs, peer, old(Of(peer))) && old(Past(Of(peer), clock));
        if peer == task { ClearedTask(refs, task, old(Of(task))); } else { ClearedPeer(refs, task, peer, old(Of(peer))); }
      }
    }
  }

  const UNKNOWN := "unknown"

  function Reason(reason: string): string { if reason == "" then UNKNOWN else reason }

  function FailureOf(phase: string, reason: string, spawned: int, at: int, noted: int): Failure {
    Failure(Component(phase), Reason(reason), spawned, at, noted)
  }

  lemma UnknownIsValid()
    ensures ValidComponent(UNKNOWN)
  {
    assert !HasSuffix(UNKNOWN, ".lock") by { assert UNKNOWN[2] != '.'; }
  }

  lemma Positions(refs: map<string, Lease>, task: string, h: seq<Event>) returns (a: nat, e: nat, b: nat)
    requires TaskOk(refs, task, h)
    ensures Matches(refs, task, h, a, e, b)
  {
    a, e, b :| Matches(refs, task, h, a, e, b);
  }
}
