/**
 The re-drive evidence.  A task's published failures are a history; the streak and reason
 refs written along the way are proved to say what the history says: the last Count entries
 of Reasons are the reasons of the failures still inside the window, in order.
 */
module Redrive {
  import opened Wrappers
  import opened Text
  import opened ClaimKeys
  import opened RefStores
  import opened RefReads
  import opened RefWrites
  import opened RedriveEntries

  /** One recorded failure: its phase component and reason, the instant its spawn passed
      the cap, and the clock readings its streak and its reason ref were written at. */
  datatype Failure = Failure(phase: string, reason: string, spawned: int, at: int, noted: int)

  datatype Event = Failed(f: Failure) | Reset

  // ---- what the history says ----

  /** The failures since the last reset or phase change. */
  function Current(h: seq<Event>): (s: seq<Failure>)
    ensures forall i :: 0 <= i < |s| ==> s[i].phase == s[0].phase
    ensures |s| <= |h|
  {
    if h == [] || h[|h| - 1].Reset? then []
    else
      var f := h[|h| - 1].f;
      var s := Current(h[..|h| - 1]);
      if s != [] && s[0].phase == f.phase then s + [f] else [f]
  }

  predicate Counts(f: Failure, now: int) { now < f.at + WINDOW }

  /** The failures still inside the window. */
  function Unexpired(s: seq<Failure>, now: int): seq<Failure> {
    if s == [] then []
    else if Counts(s[0], now) then [s[0]] + Unexpired(s[1..], now) else Unexpired(s[1..], now)
  }

  /** The failures that count for a task at a phase. */
  function Streak(h: seq<Event>, phase: string, now: int): seq<Failure> {
    var s := Current(h);
    if s != [] && s[0].phase == phase then Unexpired(s, now) else []
  }

  function ReasonsIn(s: seq<Failure>): (r: seq<string>)
    ensures |r| == |s|
  {
    seq(|s|, i requires 0 <= i < |s| => s[i].reason)
  }

  predicate InTime(s: seq<Failure>) { forall i, j :: 0 <= i <= j < |s| ==> s[i].at <= s[j].at }

  lemma TailInTime(s: seq<Failure>)
    requires InTime(s) && s != []
    ensures InTime(s[1..])
  {
    forall i, j | 0 <= i <= j < |s[1..]| ensures s[1..][i].at <= s[1..][j].at { assert s[i + 1].at <= s[j + 1].at; }
  }

  /** How many failures at the front of a run have left the window. */
  function Gone(s: seq<Failure>, now: int): (n: nat)
    requires InTime(s)
    ensures n <= |s| && (forall i :: 0 <= i < |s| ==> (Counts(s[i], now) <==> n <= i))
  {
    if s == [] || Counts(s[0], now) then 0
    else
      TailInTime(s);
      var n := Gone(s[1..], now);
      assert forall i :: 1 <= i < |s| ==> s[i] == s[1..][i - 1];
      1 + n
  }

  lemma {:induction false} UnexpiredIsSuffix(s: seq<Failure>, now: int)
    requires InTime(s)
    ensures Unexpired(s, now) == s[Gone(s, now)..]
  {
    if s != [] {
      TailInTime(s);
      UnexpiredIsSuffix(s[1..], now);
      if Counts(s[0], now) {
        GoneAtFront(s, now);
        assert s == [s[0]] + s[1..];
      }
    }
  }

  /** When the first failure counts, all later ones do. */
  lemma GoneAtFront(s: seq<Failure>, now: int)
    requires InTime(s) && s != [] && Counts(s[0], now) && InTime(s[1..])
    ensures Gone(s[1..], now) == 0
  {
    if |s| > 1 { assert Counts(s[1], now) && s[1] == s[1..][0]; }
  }

  // ---- what the store says ----

  /** What the streak ref and the reason ref of one failure of a run say, numbered from
      index e and from index a. */
  function StreakOf(task: string, s: seq<Failure>, e: nat, i: nat): Parsed
    requires e <= i < |s|
  {
    Parsed(task, s[i].phase, "", i - e + 1)
  }

  function ReasonAt(task: string, s: seq<Failure>, a: nat, i: nat): Parsed
    requires a <= i < |s|
  {
    Parsed(task, s[i].phase, s[i].reason, i - a + 1)
  }

  /** The streak refs of a run: those from index b on. */
  function StreakEntries(task: string, s: seq<Failure>, e: nat, b: nat): Entries
    requires e <= b
  {
    map i | b <= i < |s| :: StreakOf(task, s, e, i) := Ends(s[i].at + WINDOW)
  }

  /** The reason refs of a run: those from index a on. */
  function ReasonEntries(task: string, s: seq<Failure>, a: nat): Entries {
    map i | a <= i < |s| :: ReasonAt(task, s, a, i) := Ends(s[i].noted + WINDOW)
  }

  lemma StreakEntry(task: string, s: seq<Failure>, e: nat, b: nat, i: nat)
    requires e <= b <= i < |s|
    ensures var entries := StreakEntries(task, s, e, b);
            StreakOf(task, s, e, i) in entries && entries[StreakOf(task, s, e, i)] == Ends(s[i].at + WINDOW)
  {}

  /** Every streak entry is that of the failure its number names. */
  lemma StreakIndex(task: string, s: seq<Failure>, e: nat, b: nat, p: Parsed) returns (i: nat)
    requires e <= b && p in StreakEntries(task, s, e, b)
    ensures b <= i < |s| && p == StreakOf(task, s, e, i) && StreakEntries(task, s, e, b)[p] == Ends(s[i].at + WINDOW)
  {
    i := p.n + e - 1;
  }

  lemma StreakShape(task: string, s: seq<Failure>, e: nat, b: nat, phase: string)
    requires e <= b && forall i :: 0 <= i < |s| ==> s[i].phase == phase
    ensures forall p :: p in StreakEntries(task, s, e, b) ==> p.n >= 1 && p.phase == phase
  {
    forall p | p in StreakEntries(task, s, e, b) ensures p.n >= 1 && p.phase == phase {
      var i := StreakIndex(task, s, e, b, p);
    }
  }

  lemma ReasonEntry(task: string, s: seq<Failure>, a: nat, i: nat)
    requires a <= i < |s|
    ensures var entries := ReasonEntries(task, s, a);
            ReasonAt(task, s, a, i) in entries && entries[ReasonAt(task, s, a, i)] == Ends(s[i].noted + WINDOW)
  {}

  lemma ReasonIndex(task: string, s: seq<Failure>, a: nat, p: Parsed) returns (i: nat)
    requires p in ReasonEntries(task, s, a)
    ensures a <= i < |s| && p == ReasonAt(task, s, a, i) && ReasonEntries(task, s, a)[p] == Ends(s[i].noted + WINDOW)
  {
    i := p.n + a - 1;
  }

  lemma ReasonShape(task: string, s: seq<Failure>, a: nat, phase: string)
    requires forall i :: 0 <= i < |s| ==> s[i].phase == phase
    ensures forall p :: p in ReasonEntries(task, s, a) ==> p.n >= 1 && p.phase == phase
  {
    forall p | p in ReasonEntries(task, s, a) ensures p.n >= 1 && p.phase == phase {
      var i := ReasonIndex(task, s, a, p);
    }
  }

  predicate GoodRun(s: seq<Failure>) {
    InTime(s) && |s| < MAX_INT && forall i :: 0 <= i < |s| ==> ValidComponent(s[i].phase) && ValidComponent(s[i].reason)
  }

  /** The refs of a task match its history: reasons kept from index a on, streak numbers
      counted from index e on, streak refs pruned below index b. */
  ghost predicate Matches(refs: map<string, Lease>, task: string, h: seq<Event>, a: nat, e: nat, b: nat) {
    var s := Current(h);
    && GoodRun(s) && a <= e <= b <= |s|
    && Exactly(refs, Streaks, task, StreakEntries(task, s, e, b))
    && Exactly(refs, Reasons, task, ReasonEntries(task, s, a))
    && (b > 0 ==> !Counts(s[b - 1], s[|s| - 1].at))
  }

  ghost predicate TaskOk(refs: map<string, Lease>, task: string, h: seq<Event>) {
    exists a: nat, e: nat, b: nat :: Matches(refs, task, h, a, e, b)
  }

  /** No event is later than the clock. */
  predicate Past(h: seq<Event>, clock: int) { forall i :: 0 <= i < |h| && h[i].Failed? ==> h[i].f.at <= clock }

  lemma {:induction false} CurrentPast(h: seq<Event>, clock: int)
    requires Past(h, clock)
    ensures forall i :: 0 <= i < |Current(h)| ==> Current(h)[i].at <= clock
  {
    if h != [] && h[|h| - 1].Failed? { CurrentPast(h[..|h| - 1], clock); }
  }

  // ---- the evidence ----

  /** The streak ref of one failure of a run. */
  function StreakRef(task: string, s: seq<Failure>, e: nat, i: nat): string
    requires e <= i < |s|
  {
    REFS + BuildKey(Streaks, StreakOf(task, s, e, i))
  }

  lemma StreakRefsDiffer(task: string, s: seq<Failure>, e: nat, i: nat, j: nat)
    requires e <= i < j < |s| && ValidComponent(task) && GoodRun(s)
    ensures StreakRef(task, s, e, i) != StreakRef(task, s, e, j)
  {
    hide BuildKey, ValidComponent, Parse;
    ParseBuild(Streaks, StreakOf(task, s, e, i));
    ParseBuild(Streaks, StreakOf(task, s, e, j));
  }

  /** The refs of consecutive failures are as many as the failures. */
  lemma {:induction false} RefsOfRun(task: string, s: seq<Failure>, e: nat, u: nat, v: nat)
    requires e <= u <= v <= |s| && ValidComponent(task) && GoodRun(s)
    ensures |set i | u <= i < v :: StreakRef(task, s, e, i)| == v - u
  {
    hide StreakRef, ValidComponent, GoodRun;
    if u < v {
      RefsOfRun(task, s, e, u, v - 1);
      forall i | u <= i < v - 1 ensures StreakRef(task, s, e, i) != StreakRef(task, s, e, v - 1) {
        StreakRefsDiffer(task, s, e, i, v - 1);
      }
      assert (set i | u <= i < v :: StreakRef(task, s, e, i))
          == (set i | u <= i < v - 1 :: StreakRef(task, s, e, i)) + {StreakRef(task, s, e, v - 1)};
    }
  }

  /** The refs a count sees are those of the failures inside the window. */
  lemma SeenOfRun(task: string, s: seq<Failure>, e: nat, b: nat, phase: string, now: int)
    requires e <= b <= |s| && InTime(s) && b <= Gone(s, now)
    requires forall i :: 0 <= i < |s| ==> s[i].phase == phase
    ensures (forall p :: p in StreakEntries(task, s, e, b) ==> p.n >= 0)
         && Seen(StreakEntries(task, s, e, b), phase, now) == (set i | Gone(s, now) <= i < |s| :: StreakRef(task, s, e, i))
  {
    hide BuildKey, StreakEntries, InTime;
    var entries := StreakEntries(task, s, e, b);
    StreakShape(task, s, e, b, phase);
    var keys := set i | Gone(s, now) <= i < |s| :: StreakRef(task, s, e, i);
    forall i | Gone(s, now) <= i < |s| ensures StreakRef(task, s, e, i) in Seen(entries, phase, now) {
      StreakEntry(task, s, e, b, i);
      assert Counts(s[i], now);
    }
    forall p | p in entries && p.phase == phase && !Expired(entries[p], now) ensures REFS + BuildKey(Streaks, p) in keys {
      var i := StreakIndex(task, s, e, b, p);
      assert Counts(s[i], now) && REFS + BuildKey(Streaks, p) == StreakRef(task, s, e, i);
    }
  }

  /** The refs among the entries that a count at a phase sees. */
  function Seen(entries: Entries, phase: string, now: int): set<string>
    requires forall p :: p in entries ==> p.n >= 0
  {
    set p | p in entries && p.phase == phase && !Expired(entries[p], now) :: REFS + BuildKey(Streaks, p)
  }

  /** Everything below b has left the window for good. */
  lemma PrunedAreGone(h: seq<Event>, b: nat, now: int)
    requires var s := Current(h);
             InTime(s) && b <= |s| && (b > 0 ==> !Counts(s[b - 1], s[|s| - 1].at)) && Past(h, now)
    ensures b <= Gone(Current(h), now)
  {
    CurrentPast(h, now);
    if b > 0 { assert !Counts(Current(h)[b - 1], now); }
  }

  /** Count is the number of failures that count. */
  lemma CountIsStreak(refs: map<string, Lease>, task: string, h: seq<Event>, a: nat, e: nat, b: nat, phase: string, now: int)
    requires Matches(refs, task, h, a, e, b) && ValidComponent(task) && Past(h, now)
    ensures |Live(refs, Streaks, task, phase, Some(now))| == |Streak(h, phase, now)|
    ensures b <= Gone(Current(h), now)
    ensures Streak(h, phase, now) != [] ==> Streak(h, phase, now) == Current(h)[Gone(Current(h), now)..]
  {
    hide BuildKey, ValidComponent, Live, Exactly, StreakRef, Past, Counts, StreakEntries, InTime, ReasonEntries, Current;
    var s := Current(h);
    PrunedAreGone(h, b, now);
    UnexpiredIsSuffix(s, now);
    CountOfRun(refs, task, s, e, b, phase, now);
  }

  lemma CountOfRun(refs: map<string, Lease>, task: string, s: seq<Failure>, e: nat, b: nat, phase: string, now: int)
    requires e <= b <= |s| && GoodRun(s) && ValidComponent(task) && b <= Gone(s, now)
    requires forall i :: 0 <= i < |s| ==> s[i].phase == s[0].phase
    requires Exactly(refs, Streaks, task, StreakEntries(task, s, e, b))
    ensures |Live(refs, Streaks, task, phase, Some(now))|
         == if s != [] && s[0].phase == phase then |s| - Gone(s, now) else 0
  {
    hide BuildKey, ValidComponent, Live, Exactly, StreakRef, Counts, StreakEntries, InTime;
    var entries := StreakEntries(task, s, e, b);
    StreakShape(task, s, e, b, if s == [] then phase else s[0].phase);
    LiveEntries(refs, Streaks, task, phase, Some(now), entries);
    assert Live(refs, Streaks, task, phase, Some(now)) == Seen(entries, phase, now);
    if s != [] && s[0].phase == phase {
      SeenOfRun(task, s, e, b, phase, now);
      RefsOfRun(task, s, e, Gone(s, now), |s|);
    } else if s == [] {
      NoStreak(task, e, b);
    } else {
      assert Seen(entries, phase, now) == {};
    }
  }

  lemma NoStreak(task: string, e: nat, b: nat)
    requires e <= b
    ensures StreakEntries(task, [], e, b) == map[]
  {}

  /** The reason ref of one failure of a run. */
  function ReasonRef(task: string, s: seq<Failure>, a: nat, i: nat): string
    requires a <= i < |s|
  {
    REFS + BuildKey(Reasons, ReasonAt(task, s, a, i))
  }

  lemma ReasonRefSays(task: string, s: seq<Failure>, a: nat, i: nat)
    requires a <= i < |s| && ValidComponent(task) && GoodRun(s)
    ensures NumberOf(ReasonRef(task, s, a, i)) == i - a + 1 && ReasonOf(ReasonRef(task, s, a, i)) == s[i].reason
  {
    hide BuildKey, ValidComponent, Parse;
    ParseBuild(Reasons, ReasonAt(task, s, a, i));
  }

  function ReasonRefs(task: string, s: seq<Failure>, a: nat): seq<string>
    requires a <= |s|
  {
    seq(|s| - a, i requires 0 <= i < |s| - a => ReasonRef(task, s, a, a + i))
  }

  /** The refs a reason read sees are those of the run, and their numbers are in order. */
  lemma SeenReasons(refs: map<string, Lease>, task: string, s: seq<Failure>, a: nat, phase: string)
    requires a <= |s| && GoodRun(s) && ValidComponent(task) && Exactly(refs, Reasons, task, ReasonEntries(task, s, a))
    requires forall i :: 0 <= i < |s| ==> s[i].phase == phase
    ensures forall r :: r in Live(refs, Reasons, task, phase, None) <==> r in ReasonRefs(task, s, a)
  {
    hide BuildKey, ValidComponent, Live, Exactly, InTime, ReasonEntries;
    var entries := ReasonEntries(task, s, a);
    var ks := ReasonRefs(task, s, a);
    ReasonShape(task, s, a, phase);
    LiveEntries(refs, Reasons, task, phase, None, entries);
    forall r | r in Live(refs, Reasons, task, phase, None) ensures r in ReasonRefs(task, s, a) {
      var p :| p in entries && p.phase == phase && r == REFS + BuildKey(Reasons, p);
      var i := ReasonIndex(task, s, a, p);
      assert r == ReasonRef(task, s, a, i) == ks[i - a];
    }
    forall r | r in ReasonRefs(task, s, a) ensures r in Live(refs, Reasons, task, phase, None) {
      var i :| 0 <= i < |ks| && r == ks[i];
      ReasonEntry(task, s, a, a + i);
      assert ks[i] == ReasonRef(task, s, a, a + i);
    }
  }

  /** Reasons gives the reasons of the run in order. */
  lemma ReasonsOfRun(refs: map<string, Lease>, task: string, s: seq<Failure>, a: nat, phase: string, r: seq<string>)
    requires a <= |s| && GoodRun(s) && ValidComponent(task) && Exactly(refs, Reasons, task, ReasonEntries(task, s, a))
    requires forall i :: 0 <= i < |s| ==> s[i].phase == phase
    requires InOrder(r, Live(refs, Reasons, task, phase, None))
    ensures r == ReasonsIn(s[a..])
  {
    hide Live, Exactly, InOrder, ReasonRef, GoodRun, NumberOf, ReasonOf, ReasonEntries, ValidComponent;
    var live, ks := Live(refs, Reasons, task, phase, None), ReasonRefs(task, s, a);
    SeenReasons(refs, task, s, a, phase);
    forall i | a <= i < |s|
      ensures NumberOf(ReasonRef(task, s, a, i)) == i - a + 1 && ReasonOf(ReasonRef(task, s, a, i)) == s[i].reason
    {
      ReasonRefSays(task, s, a, i);
    }
    assert forall i :: 0 <= i < |ks| ==> NumberOf(ks[i]) == i + 1;
    assert Sorting(ks, live);
    assert ReasonsAlong(ks) == ReasonsIn(s[a..]);
    SortedInOrder(ks, live);
    InOrderUnique(r, ReasonsAlong(ks), live);
  }

  lemma TailReasons(s: seq<Failure>, a: nat, g: nat)
    requires a <= g <= |s|
    ensures ReasonsIn(s[a..])[g - a..] == ReasonsIn(s[g..])
  {}

  lemma SortedInOrder(ks: seq<string>, refs: set<string>)
    requires Sorting(ks, refs)
    ensures InOrder(ReasonsAlong(ks), refs)
  {}

  /** The evidence matches the count: for every history the last Count entries of Reasons
      are the reasons of the failures inside the window, in order. */
  lemma EvidenceMatchesCount(refs: map<string, Lease>, task: string, h: seq<Event>, phase: string, now: int, r: seq<string>)
    requires TaskOk(refs, task, h) && ValidComponent(task) && Past(h, now)
    requires InOrder(r, Live(refs, Reasons, task, phase, None))
    ensures var n := |Live(refs, Streaks, task, phase, Some(now))|;
            n == |Streak(h, phase, now)| && n <= |r| && r[|r| - n..] == ReasonsIn(Streak(h, phase, now))
  {
    hide Live, Exactly, InOrder, InTime, StreakEntries, ReasonEntries, ValidComponent, Current, Past, Unexpired, Counts;
    var a: nat, e: nat, b: nat :| Matches(refs, task, h, a, e, b);
    var s := Current(h);
    CountIsStreak(refs, task, h, a, e, b, phase, now);
    if Streak(h, phase, now) != [] {
      ReasonsOfRun(refs, task, s, a, phase, r);
      TailReasons(s, a, Gone(s, now));
    }
  }
}
