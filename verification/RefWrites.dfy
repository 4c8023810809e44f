/** The writes of the re-drive stores, and what they leave of one task's refs. */
module RefWrites {
  import opened Wrappers
  import opened Text
  import opened ClaimKeys
  import opened RefStores
  import opened RefReads

  const WINDOW := 21600
  const MAX_CREATES := 3

  // ---- what a write does to the store ----

  /** A key that parses as one of a task's. */
  predicate OfTask(space: Space, key: string, task: string) {
    var p := Parse(space, REFS + key);
    p.Some? && p.value.task == task
  }

  predicate OfPhase(space: Space, key: string, task: string, phase: string) {
    OfTask(space, key, task) && Parse(space, REFS + key).value.phase == phase
  }

  /** n is one more than the highest number of the task at the phase. */
  ghost predicate IsNext(refs: map<string, Lease>, space: Space, task: string, phase: string, n: int) {
    && n >= 1
    && (forall k :: k in refs && OfPhase(space, k, task, phase) ==> Parse(space, REFS + k).value.n < n)
    && (n == 1 || exists k :: k in refs && OfPhase(space, k, task, phase) && Parse(space, REFS + k).value.n == n - 1)
  }

  /** Which of a task's refs a deletion is after. */
  datatype Which = OtherPhases(phase: string) | All | Stale(now: int)

  predicate Doomed(space: Space, r: ClaimRef, task: string, which: Which) {
    var p := Parse(space, r.ref);
    && p.Some? && p.value.task == task
    && match which
       case OtherPhases(phase) => p.value.phase != phase
       case All => true
       case Stale(now) => Expired(r.lease, now)
  }

  /** The store without those refs. */
  function Without(refs: map<string, Lease>, space: Space, task: string, which: Which): map<string, Lease> {
    map k | k in refs && !Doomed(space, ClaimRef(REFS + k, refs[k]), task, which) :: refs[k]
  }

  /** The store after one more ref was recorded: the task's other phases are gone. */
  function Recorded(refs: map<string, Lease>, space: Space, p: Parsed, until: int): map<string, Lease>
    requires p.n >= 0
  {
    Without(refs[BuildKey(space, p) := Ends(until)], space, p.task, OtherPhases(p.phase))
  }

  // ---- the writes ----

  method NextNumber(list: seq<ClaimRef>, space: Space, task: string, phase: string, ghost refs: map<string, Lease>)
    returns (n: int)
    requires Lists(list, refs, Prefix(space) + task)
    ensures IsNext(refs, space, task, phase, n)
  {
    hide Lists, Parse, Under;
    var highest, i := 0, 0;
    while i < |list|
      invariant 0 <= i <= |list| && highest >= 0
      invariant forall j :: 0 <= j < i && Hit(space, list[j], task, phase, None) ==> Parse(space, list[j].ref).value.n <= highest
      invariant highest == 0
             || exists j :: 0 <= j < |list| && Hit(space, list[j], task, phase, None) && Parse(space, list[j].ref).value.n == highest
    {
      if Hit(space, list[i], task, phase, None) && Parse(space, list[i].ref).value.n > highest {
        highest := Parse(space, list[i].ref).value.n;
      }
      i := i + 1;
    }
    HighestIsNext(list, space, task, phase, refs, highest);
    n := highest + 1;
  }

  lemma HighestIsNext(list: seq<ClaimRef>, space: Space, task: string, phase: string, refs: map<string, Lease>, highest: int)
    requires Lists(list, refs, Prefix(space) + task) && highest >= 0
    requires forall j :: 0 <= j < |list| && Hit(space, list[j], task, phase, None) ==> Parse(space, list[j].ref).value.n <= highest
    requires highest == 0
          || exists j :: 0 <= j < |list| && Hit(space, list[j], task, phase, None) && Parse(space, list[j].ref).value.n == highest
    ensures IsNext(refs, space, task, phase, highest + 1)
  {
    hide Parse, Under;
    forall k | k in refs && OfPhase(space, k, task, phase) ensures Parse(space, REFS + k).value.n < highest + 1 {
      ParsedIsUnder(space, k);
      var j :| 0 <= j < |list| && list[j] == ClaimRef(REFS + k, refs[k]);
      assert Hit(space, list[j], task, phase, None);
    }
    if highest != 0 {
      var j :| 0 <= j < |list| && Hit(space, list[j], task, phase, None) && Parse(space, list[j].ref).value.n == highest;
      assert Shows(list[j], refs, Prefix(space) + task);
      var k :| k in refs && Under(k, Prefix(space) + task) && list[j] == ClaimRef(REFS + k, refs[k]);
      assert OfPhase(space, k, task, phase);
    }
  }

  /** The keys among the first i of a listing that a deletion is after. */
  function DoomedKeys(list: seq<ClaimRef>, i: nat, space: Space, task: string, which: Which): set<string>
    requires i <= |list|
  {
    set j | 0 <= j < i && Doomed(space, list[j], task, which) :: TrimPrefix(list[j].ref, REFS)
  }

  lemma DoomedAreGone(
    list: seq<ClaimRef>, listed: map<string, Lease>, refs: map<string, Lease>, space: Space, task: string, which: Which)
    requires Lists(list, listed, Prefix(space) + task)
    requires forall k :: k in refs ==>
      (k in listed && listed[k] == refs[k]) || !(k in listed || Doomed(space, ClaimRef(REFS + k, refs[k]), task, which))
    ensures refs - DoomedKeys(list, |list|, space, task, which) == Without(refs, space, task, which)
  {
    hide Parse, Under;
    forall k | k in refs
      ensures k in DoomedKeys(list, |list|, space, task, which) <==> Doomed(space, ClaimRef(REFS + k, refs[k]), task, which)
    {
      if k in DoomedKeys(list, |list|, space, task, which) {
        var j :| 0 <= j < |list| && Doomed(space, list[j], task, which) && k == TrimPrefix(list[j].ref, REFS);
        assert Shows(list[j], listed, Prefix(space) + task);
        var q :| q in listed && Under(q, Prefix(space) + task) && list[j] == ClaimRef(REFS + q, listed[q]);
        PrefixOfSum(REFS, q);
      }
      if Doomed(space, ClaimRef(REFS + k, refs[k]), task, which) {
        ParsedIsUnder(space, k);
        PrefixOfSum(REFS, k);
        var j :| 0 <= j < |list| && list[j] == ClaimRef(REFS + k, listed[k]);
      }
    }
  }

  /** refs lies between a smaller and a larger store and agrees with the larger one. */
  predicate Between(low: map<string, Lease>, refs: map<string, Lease>, high: map<string, Lease>) {
    && low.Keys <= refs.Keys <= high.Keys
    && forall k :: k in refs ==> refs[k] == high[k]
  }

  /** Deletes the listed refs a deletion is after; what was created since the listing must
      not be among them.  Whatever fails, no other ref goes. */
  method DeleteListed(
    server: RefServer, list: seq<ClaimRef>, space: Space, task: string, which: Which, ghost listed: map<string, Lease>)
    requires Lists(list, listed, Prefix(space) + task)
    requires forall k :: k in server.refs ==>
      (k in listed && listed[k] == server.refs[k])
      || !(k in listed || Doomed(space, ClaimRef(REFS + k, server.refs[k]), task, which))
    modifies server`refs
    ensures Between(Without(old(server.refs), space, task, which), server.refs, old(server.refs))
    ensures server.reliable ==> server.refs == Without(old(server.refs), space, task, which)
  {
    hide Lists, Parse, Under, Doomed, DoomedKeys, Without;
    var i := 0;
    ghost var gone: set<string> := {};
    NoneDoomed(list, space, task, which);
    while i < |list|
      invariant 0 <= i <= |list| && server.refs == old(server.refs) - gone
      invariant gone <= DoomedKeys(list, i, space, task, which)
      invariant server.reliable ==> gone == DoomedKeys(list, i, space, task, which)
    {
      NextDoomed(list, i, space, task, which);
      if Doomed(space, list[i], task, which) {
        gone := DeleteOne(server, TrimPrefix(list[i].ref, REFS), gone, old(server.refs));
      }
      i := i + 1;
    }
    DoomedAreGone(list, listed, old(server.refs), space, task, which);
    assert Between(old(server.refs) - DoomedKeys(list, |list|, space, task, which), server.refs, old(server.refs));
  }

  /** One deletion, which may fail on a server that is not reliable. */
  method DeleteOne(server: RefServer, k: string, ghost gone: set<string>, ghost start: map<string, Lease>)
    returns (ghost more: set<string>)
    requires server.refs == start - gone
    modifies server`refs
    ensures server.refs == start - more && gone <= more <= gone + {k} && (server.reliable ==> more == gone + {k})
  {
    server.Delete(k);
    more := if server.refs == start - gone - {k} then gone + {k} else gone;
  }

  lemma NoneDoomed(list: seq<ClaimRef>, space: Space, task: string, which: Which)
    ensures DoomedKeys(list, 0, space, task, which) == {}
  {}

  lemma NextDoomed(list: seq<ClaimRef>, i: nat, space: Space, task: string, which: Which)
    requires i < |list|
    ensures DoomedKeys(list, i + 1, space, task, which)
         == DoomedKeys(list, i, space, task, which)
            + (if Doomed(space, list[i], task, which) then {TrimPrefix(list[i].ref, REFS)} else {})
  {}

  /** Removes the refs of a task, all of them or the expired ones; false when they could not
      be listed. */
  method DeleteRefs(server: RefServer, space: Space, task: string, which: Which) returns (ok: bool)
    modifies server`refs
    ensures Between(Without(old(server.refs), space, task, which), server.refs, old(server.refs))
    ensures server.reliable ==> ok && server.refs == Without(old(server.refs), space, task, which)
    ensures !ok ==> server.refs == old(server.refs)
  {
    hide Lists, Doomed;
    var list: seq<ClaimRef>;
    ok, list := server.List(Prefix(space) + task);
    if !ok { return; }
    DeleteListed(server, list, space, task, which, server.refs);
  }

  /** What a record leaves of the store whatever fails: at most the new ref more and the
      task's refs at other phases fewer. */
  predicate RecordedAtMost(refs: map<string, Lease>, new_: map<string, Lease>, space: Space, p: Parsed, until: int)
    requires p.n >= 0
  {
    Between(Without(refs, space, p.task, OtherPhases(p.phase)), new_, refs[BuildKey(space, p) := Ends(until)])
  }

  /** Appends one ref under the next number, trying a refused create three times, then deletes
      the task's refs at every other phase. */
  method RecordRef(server: RefServer, space: Space, task: string, phase: string, detail: string, until: int)
    returns (ok: bool, ghost n: int, ghost refused: nat)
    requires ValidComponent(task) && ValidComponent(phase) && (if space.Reasons? then ValidComponent(detail) else detail == "")
    modifies server`refs
    ensures IsNext(old(server.refs), space, task, phase, n)
    ensures var p := Parsed(task, phase, detail, n);
            && (ok ==> BuildKey(space, p) in server.refs && server.refs[BuildKey(space, p)] == Ends(until))
            && (server.refs == old(server.refs) || RecordedAtMost(old(server.refs), server.refs, space, p, until))
            && (server.reliable ==>
                  server.refs == if ok then Recorded(old(server.refs), space, p, until) else old(server.refs))
    ensures server.reliable && n <= MAX_INT ==> ok
    ensures refused <= 3 && (server.reliable && !ok ==> refused == 3)
  {
    hide Lists, Doomed, Parse, ValidComponent, BuildKey, IsNext, Between, Without;
    var attempt := 1;
    ok, refused := false, 0;
    n := SomeNext(server.refs, space, task, phase);
    NextExists(server.refs, space, task, phase, n);
    var answered, list := server.List(Prefix(space) + task);
    if !answered { return; }
    var next := NextNumber(list, space, task, phase, server.refs);
    NextExists(server.refs, space, task, phase, next);
    while attempt <= MAX_CREATES
      invariant 1 <= attempt <= MAX_CREATES + 1 && server.refs == old(server.refs) && !ok
      invariant IsNext(server.refs, space, task, phase, next) && IsNext(server.refs, space, task, phase, n) && next >= 1
      invariant Lists(list, server.refs, Prefix(space) + task)
      invariant refused == attempt - 1 && (attempt > 1 ==> n > MAX_INT)
    {
      NextIsUnique(server.refs, space, task, phase, next, n);
      var p := Parsed(task, phase, detail, next);
      if next <= MAX_INT { NextIsFree(server.refs, space, p); }
      ghost var listed := server.refs;
      var reply := server.Create(BuildKey(space, p), Ends(until));
      if reply.CreateFailed? {
        if server.refs != listed { CreatedAtMost(listed, space, p, until); }
        return;
      }
      if reply.Created? {
        FreshIsKept(listed, space, p, until);
        DeleteListed(server, list, space, task, OtherPhases(phase), listed);
        RecordedIsAtMost(listed, server.refs, space, p, until);
        ok := true;
        return;
      }
      refused := refused + 1;
      answered, list := server.List(Prefix(space) + task);
      if !answered { return; }
      next := NextNumber(list, space, task, phase, server.refs);
      NextExists(server.refs, space, task, phase, next);
      attempt := attempt + 1;
    }
  }

  /** There is always a next number. */
  lemma {:induction false} SomeNext(refs: map<string, Lease>, space: Space, task: string, phase: string) returns (n: int)
    ensures IsNext(refs, space, task, phase, n)
    decreases |refs|
  {
    hide Parse;
    if k :| k in refs {
      var rest := refs - {k};
      assert |rest.Keys| < |refs.Keys| by { assert rest.Keys == refs.Keys - {k}; }
      n := SomeNext(rest, space, task, phase);
      if OfPhase(space, k, task, phase) && Parse(space, REFS + k).value.n >= n { n := Parse(space, REFS + k).value.n + 1; }
    } else {
      n := 1;
    }
  }

  lemma CreatedAtMost(refs: map<string, Lease>, space: Space, p: Parsed, until: int)
    requires p.n >= 0 && BuildKey(space, p) !in refs
    ensures RecordedAtMost(refs, refs[BuildKey(space, p) := Ends(until)], space, p, until)
  {
    hide BuildKey, Doomed;
  }

  /** Deleting at most the other phases after a create is a record, and keeps its ref. */
  lemma RecordedIsAtMost(refs: map<string, Lease>, new_: map<string, Lease>, space: Space, p: Parsed, until: int)
    requires p.n >= 0 && BuildKey(space, p) !in refs
    requires Between(Recorded(refs, space, p, until), new_, refs[BuildKey(space, p) := Ends(until)])
    requires !Doomed(space, ClaimRef(REFS + BuildKey(space, p), Ends(until)), p.task, OtherPhases(p.phase))
    ensures RecordedAtMost(refs, new_, space, p, until)
    ensures BuildKey(space, p) in new_ && new_[BuildKey(space, p)] == Ends(until)
  {
    hide BuildKey, Doomed;
    assert BuildKey(space, p) in Recorded(refs, space, p, until);
    forall k | k in Without(refs, space, p.task, OtherPhases(p.phase)) ensures k in new_ {
      assert k in Recorded(refs, space, p, until);
    }
  }

  lemma NextExists(refs: map<string, Lease>, space: Space, task: string, phase: string, n: int)
    requires IsNext(refs, space, task, phase, n)
    ensures n >= 1
  {}

  lemma NextIsUnique(refs: map<string, Lease>, space: Space, task: string, phase: string, m: int, n: int)
    requires IsNext(refs, space, task, phase, m) && IsNext(refs, space, task, phase, n)
    ensures m == n
  {}

  /** The key under the next number is not taken. */
  lemma NextIsFree(refs: map<string, Lease>, space: Space, p: Parsed)
    requires Buildable(space, p) && IsNext(refs, space, p.task, p.phase, p.n)
    ensures BuildKey(space, p) !in refs
  {
    hide Parse, BuildKey;
    ParseBuild(space, p);
  }

  /** A ref just created is not one of another phase. */
  lemma FreshIsKept(refs: map<string, Lease>, space: Space, p: Parsed, until: int)
    requires p.n >= 1 && ValidComponent(p.task) && ValidComponent(p.phase)
    requires if space.Reasons? then ValidComponent(p.detail) else p.detail == ""
    ensures var r := ClaimRef(REFS + BuildKey(space, p), Ends(until)); !Doomed(space, r, p.task, OtherPhases(p.phase))
  {
    PartsAreClean(space, p);
    PrefixOfSum(REFS, BuildKey(space, p));
    SplitJoin(KeyParts(space, p), '/');
    assert KeyParts(space, p)[3] == p.phase;
  }
}
