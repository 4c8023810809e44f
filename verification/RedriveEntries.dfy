/** One task's refs in one space as a map from what their keys say to their leases. */
module RedriveEntries {
  import opened Wrappers
  import opened Text
  import opened ClaimKeys
  import opened RefStores
  import opened RefReads
  import opened RefWrites

  type Entries = map<Parsed, Lease>

  /** The task's refs in the space are exactly the entries, each under its built key. */
  ghost predicate Exactly(refs: map<string, Lease>, space: Space, task: string, entries: Entries) {
    && (forall p :: p in entries ==>
          p.task == task && Buildable(space, p) && BuildKey(space, p) in refs && refs[BuildKey(space, p)] == entries[p])
    && (forall k :: k in refs && OfTask(space, k, task) ==>
          Parse(space, REFS + k).value in entries && k == BuildKey(space, Parse(space, REFS + k).value))
  }

  lemma BuiltIsOf(space: Space, p: Parsed)
    requires Buildable(space, p)
    ensures OfTask(space, BuildKey(space, p), p.task) && Parse(space, REFS + BuildKey(space, p)) == Some(p)
    ensures forall other :: other != space ==> Parse(other, REFS + BuildKey(space, p)) == None
  {
    hide Split, Join, ParseNumber;
    ParseBuild(space, p);
  }

  /** No key says something in two spaces. */
  lemma OneSpace(space: Space, other: Space, ref: string)
    requires Parse(space, ref).Some? && Parse(other, ref).Some?
    ensures space == other
  {
    hide Split, ParseNumber;
  }

  /** Another task's refs, or the task's refs in another space, are left alone. */
  lemma WithoutOthers(
    refs: map<string, Lease>, space: Space, task: string, which: Which, other: Space, peer: string, entries: Entries)
    requires Exactly(refs, other, peer, entries) && (other != space || peer != task)
    ensures Exactly(Without(refs, space, task, which), other, peer, entries)
  {
    hide Parse, BuildKey, ValidComponent;
    forall p | p in entries ensures BuildKey(other, p) in Without(refs, space, task, which) {
      BuiltIsOf(other, p);
      if Parse(space, REFS + BuildKey(other, p)).Some? { OneSpace(space, other, REFS + BuildKey(other, p)); }
    }
  }

  lemma RecordedOthers(
    refs: map<string, Lease>, space: Space, p: Parsed, until: int, other: Space, peer: string, entries: Entries)
    requires Exactly(refs, other, peer, entries) && (other != space || peer != p.task) && Buildable(space, p)
    ensures Exactly(Recorded(refs, space, p, until), other, peer, entries)
  {
    hide Parse, BuildKey, ValidComponent;
    var more := refs[BuildKey(space, p) := Ends(until)];
    BuiltIsOf(space, p);
    forall q | q in entries ensures BuildKey(other, q) != BuildKey(space, p) { BuiltIsOf(other, q); }
    assert Exactly(more, other, peer, entries);
    WithoutOthers(more, space, p.task, OtherPhases(p.phase), other, peer, entries);
  }

  predicate Goes(p: Parsed, lease: Lease, which: Which) {
    match which
    case OtherPhases(phase) => p.phase != phase
    case All => true
    case Stale(now) => Expired(lease, now)
  }

  function Staying(entries: Entries, which: Which): Entries {
    map p | p in entries && !Goes(p, entries[p], which) :: entries[p]
  }

  lemma WithoutEntries(refs: map<string, Lease>, space: Space, task: string, which: Which, entries: Entries)
    requires Exactly(refs, space, task, entries)
    ensures Exactly(Without(refs, space, task, which), space, task, Staying(entries, which))
  {
    hide Parse, BuildKey, ValidComponent;
    forall p | p in entries
      ensures Doomed(space, ClaimRef(REFS + BuildKey(space, p), refs[BuildKey(space, p)]), task, which)
         <==> Goes(p, entries[p], which)
    {
      BuiltIsOf(space, p);
    }
  }

  function PhaseOnly(entries: Entries, phase: string): Entries {
    map q | q in entries && q.phase == phase :: entries[q]
  }

  /** Recording at the next number adds one entry and drops the other phases. */
  lemma RecordedEntries(refs: map<string, Lease>, space: Space, p: Parsed, until: int, entries: Entries)
    requires Exactly(refs, space, p.task, entries) && Buildable(space, p)
    ensures Exactly(Recorded(refs, space, p, until), space, p.task, PhaseOnly(entries[p := Ends(until)], p.phase))
  {
    hide Parse, BuildKey, ValidComponent;
    BuiltIsOf(space, p);
    var more := refs[BuildKey(space, p) := Ends(until)];
    forall q | q in entries && q != p ensures BuildKey(space, q) != BuildKey(space, p) { BuiltIsOf(space, q); }
    assert Exactly(more, space, p.task, entries[p := Ends(until)]);
    WithoutEntries(more, space, p.task, OtherPhases(p.phase), entries[p := Ends(until)]);
    var all := entries[p := Ends(until)];
    assert Staying(all, OtherPhases(p.phase)) == PhaseOnly(all, p.phase);
  }

  /** With no entry at the phase the next number is 1. */
  lemma FirstNumber(refs: map<string, Lease>, space: Space, task: string, phase: string, n: int, entries: Entries)
    requires Exactly(refs, space, task, entries) && IsNext(refs, space, task, phase, n)
    requires forall p :: p in entries ==> p.phase != phase
    ensures n == 1
  {
    hide Parse, BuildKey, ValidComponent;
  }

  /** With a highest entry at the phase the next number is one more. */
  lemma NextAfter(refs: map<string, Lease>, space: Space, task: string, phase: string, n: int, entries: Entries, top: Parsed)
    requires Exactly(refs, space, task, entries) && IsNext(refs, space, task, phase, n)
    requires top in entries && top.phase == phase && forall p :: p in entries && p.phase == phase ==> p.n <= top.n
    ensures n == top.n + 1
  {
    hide Parse, BuildKey, ValidComponent;
    BuiltIsOf(space, top);
    assert OfPhase(space, BuildKey(space, top), task, phase);
  }

  /** What a read sees of the entries. */
  lemma LiveEntries(refs: map<string, Lease>, space: Space, task: string, phase: string, now: Option<int>, entries: Entries)
    requires Exactly(refs, space, task, entries)
    ensures Live(refs, space, task, phase, now)
         == set p | p in entries && p.phase == phase && (now.Some? ==> !Expired(entries[p], now.value))
              :: REFS + BuildKey(space, p)
  {
    hide Parse, BuildKey, ValidComponent;
    var seen := set p | p in entries && p.phase == phase && (now.Some? ==> !Expired(entries[p], now.value))
                  :: REFS + BuildKey(space, p);
    forall r | r in Live(refs, space, task, phase, now) ensures r in seen {
      var k :| k in refs && Hit(space, ClaimRef(REFS + k, refs[k]), task, phase, now) && r == REFS + k;
      assert OfTask(space, k, task);
    }
    forall r | r in seen ensures r in Live(refs, space, task, phase, now) {
      var p :| p in entries && p.phase == phase && (now.Some? ==> !Expired(entries[p], now.value)) && r == REFS + BuildKey(space, p);
      BuiltIsOf(space, p);
      assert Hit(space, ClaimRef(REFS + BuildKey(space, p), refs[BuildKey(space, p)]), task, phase, now);
    }
  }
}
