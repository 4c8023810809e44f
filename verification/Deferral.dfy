/**
 Deferred respawns and their removal epochs.  Every method is one critical section of the
 deferral mutex, so a sequence of calls is an interleaving of the consumer, the deferred loop
 and the reconcile passes; the log records what each section decided.
 */
module Deferral {
  import opened Wrappers

  type TaskId = string

  datatype Entry = Entry(snapshot: string, retryAfter: int)

  /** What a replay or a reconcile candidate was collected with. */
  datatype Claim = Claim(id: TaskId, epoch: nat)

  datatype Replay = Replay(entry: Entry, claim: Claim)

  /** A removal, or a claim used to park an entry or to pass the last check. */
  datatype Op = Removed(id: TaskId) | Used(claim: Claim) | Unclaimed

  /** How often the task was removed in the first n operations. */
  function Removals(log: seq<Op>, n: nat, id: TaskId): nat
    requires n <= |log|
  {
    if n == 0 then 0 else Removals(log, n - 1, id) + if log[n - 1] == Removed(id) then 1 else 0
  }

  /** A claim is only ever used while its epoch is the number of removals so far. */
  ghost predicate UsedInTime(log: seq<Op>) {
    forall k :: 0 <= k < |log| && log[k].Used? ==> log[k].claim.epoch == Removals(log, k, log[k].claim.id)
  }

  lemma {:induction false} RemovalsGrow(log: seq<Op>, m: nat, n: nat, id: TaskId)
    requires m <= n <= |log|
    ensures Removals(log, m, id) <= Removals(log, n, id)
  {
    if m < n { RemovalsGrow(log, m, n - 1, id); }
  }

  lemma {:induction false} RemovalsOfPrefix(log: seq<Op>, more: seq<Op>, n: nat, id: TaskId)
    requires n <= |log| <= |more| && more[..|log|] == log
    ensures Removals(more, n, id) == Removals(log, n, id)
  {
    if n > 0 {
      RemovalsOfPrefix(log, more, n - 1, id);
      assert more[n - 1] == more[..|log|][n - 1];
    }
  }

  /** Eviction wins: a claim captured before a removal of its task is never used after it,
      neither to park the task again nor to pass the last check before its Job. */
  lemma EvictionWins(log: seq<Op>, captured: nat, removed: nat, used: nat, id: TaskId)
    requires UsedInTime(log) && captured <= removed < used < |log| && log[removed] == Removed(id)
    ensures log[used] != Used(Claim(id, Removals(log, captured, id)))
  {
    RemovalsGrow(log, captured, removed, id);
    RemovalsGrow(log, removed + 1, used, id);
  }

  class DeferredRespawns {
    var parked: map<TaskId, Entry>
    var epochs: map<TaskId, nat>
    var stamps: map<TaskId, string>
    ghost var log: seq<Op>

    function Epoch(id: TaskId): nat reads this { if id in epochs then epochs[id] else 0 }

    ghost predicate Valid() reads this {
      UsedInTime(log) && forall id :: Epoch(id) == Removals(log, |log|, id)
    }

    constructor ()
      ensures Valid() && parked == map[] && log == []
    {
      parked, epochs, stamps, log := map[], map[], map[], [];
    }

    /** Adds an operation that is no removal. */
    ghost method Note(op: Op)
      requires Valid() && !op.Removed? && (op.Used? ==> Stands(op.claim))
      modifies this`log
      ensures Valid() && log == old(log) + [op]
    {
      log := log + [op];
      LogKept(old(log), op);
    }

    predicate Stands(claim: Claim) reads this { Epoch(claim.id) == claim.epoch }

    /** Whether a claim, or the absence of one, lets its caller go on. */
    predicate Current(claim: Option<Claim>) reads this { claim.Some? ==> Stands(claim.value) }

    /** Removes a task's entry and invalidates every claim captured so far, even when there
        is no entry. */
    method RemoveEntry(id: TaskId)
      requires Valid()
      modifies this
      ensures Valid() && parked == old(parked) - {id} && stamps == old(stamps) - {id}
      ensures log == old(log) + [Removed(id)]
      ensures forall c: Claim :: c.id == id && old(Stands(c)) ==> !Stands(c)
      ensures forall c: Claim :: c.id != id ==> Stands(c) == old(Stands(c))
    {
      parked, stamps := parked - {id}, stamps - {id};
      epochs := epochs[id := Epoch(id) + 1];
      log := log + [Removed(id)];
      LogKept(old(log), Removed(id));
    }

    /** The claim of a reconcile candidate. */
    method Capture(id: TaskId) returns (claim: Claim)
      requires Valid()
      ensures claim == Claim(id, Removals(log, |log|, id)) && Stands(claim)
    {
      claim := Claim(id, Epoch(id));
    }

    /** Takes the due entries out, each with the claim it had at that moment. */
    method Collect(now: int) returns (ready: map<TaskId, Replay>)
      requires Valid()
      modifies this`parked
      ensures Valid()
      ensures forall id :: id in ready <==> id in old(parked) && now >= old(parked)[id].retryAfter
      ensures forall id :: id in ready ==> ready[id] == Replay(old(parked)[id], Claim(id, Removals(log, |log|, id)))
      ensures parked == map id | id in old(parked) && now < old(parked)[id].retryAfter :: old(parked)[id]
    {
      ready := map[];
      var todo := parked.Keys;
      while todo != {}
        invariant todo <= old(parked).Keys && Valid()
        invariant forall id :: id in ready <==> id in old(parked) && id !in todo && now >= old(parked)[id].retryAfter
        invariant forall id :: id in ready ==> ready[id] == Replay(old(parked)[id], Claim(id, Removals(log, |log|, id)))
        invariant parked == map id | id in old(parked) && (id in todo || now < old(parked)[id].retryAfter) :: old(parked)[id]
      {
        var id :| id in todo;
        if now >= parked[id].retryAfter {
          ready := ready[id := Replay(parked[id], Claim(id, Epoch(id)))];
          parked := parked - {id};
        }
        todo := todo - {id};
      }
    }

    /** Parks a task that found its agent at the cap.  An evicted claim parks nothing, and a
        claimed replay never overwrites an entry a newer event has parked. */
    method ParkAtCap(id: TaskId, entry: Entry, claim: Option<Claim>) returns (stored: bool)
      requires Valid() && (claim.Some? ==> claim.value.id == id)
      modifies this`parked, this`log
      ensures Valid()
      ensures stored <==> (claim.Some? ==> claim.value.epoch == Removals(old(log), |old(log)|, id) && id !in old(parked))
      ensures parked == if stored then old(parked)[id := entry] else old(parked)
      ensures log == old(log) + if !stored then [] else if claim.Some? then [Used(claim.value)] else [Unclaimed]
    {
      if !Current(claim) { return false; }
      if claim.Some? && id in parked { return false; }
      Note(Use(claim));
      parked := parked[id := entry];
      stored := true;
    }

    /** Parks a task inside its grace window, unless its claim was evicted. */
    method ParkForGrace(id: TaskId, entry: Entry, claim: Option<Claim>) returns (stored: bool)
      requires Valid() && (claim.Some? ==> claim.value.id == id)
      modifies this`parked, this`log
      ensures Valid()
      ensures stored <==> (claim.Some? ==> claim.value.epoch == Removals(old(log), |old(log)|, id))
      ensures parked == if stored then old(parked)[id := entry] else old(parked)
      ensures log == old(log) + if !stored then [] else if claim.Some? then [Used(claim.value)] else [Unclaimed]
    {
      if !Current(claim) { return false; }
      Note(Use(claim));
      parked := parked[id := entry];
      stored := true;
    }

    /** The last check before the Job is created. */
    method StillValid(claim: Option<Claim>) returns (pass: bool)
      requires Valid()
      modifies this`log
      ensures Valid()
      ensures pass <==> (claim.Some? ==> claim.value.epoch == Removals(old(log), |old(log)|, claim.value.id))
      ensures log == old(log) + if !pass then [] else if claim.Some? then [Used(claim.value)] else [Unclaimed]
    {
      pass := Current(claim);
      if pass { Note(Use(claim)); }
    }

    /** Drops a task's queue stamp unless its entry still needs it. */
    method ClearStampIfNotParked(id: TaskId)
      requires Valid()
      modifies this`stamps
      ensures Valid() && stamps == if id in parked then old(stamps) else old(stamps) - {id}
    {
      if id !in parked { stamps := stamps - {id}; }
    }
  }

  function Use(claim: Option<Claim>): Op { if claim.Some? then Used(claim.value) else Unclaimed }

  lemma LogKept(log: seq<Op>, op: Op)
    requires UsedInTime(log) && (op.Used? ==> op.claim.epoch == Removals(log, |log|, op.claim.id))
    ensures UsedInTime(log + [op])
    ensures forall id :: Removals(log + [op], |log| + 1, id) == Removals(log, |log|, id) + if op == Removed(id) then 1 else 0
  {
    var more := log + [op];
    forall k | 0 <= k < |more| && more[k].Used?
      ensures more[k].claim.epoch == Removals(more, k, more[k].claim.id)
    {
      RemovalsOfPrefix(log, more, k, more[k].claim.id);
      if k < |log| { assert more[k] == log[k]; }
    }
    forall id ensures Removals(more, |log| + 1, id) == Removals(log, |log|, id) + if op == Removed(id) then 1 else 0 {
      RemovalsOfPrefix(log, more, |log|, id);
    }
  }
}
