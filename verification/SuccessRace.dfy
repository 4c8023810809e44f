/**
 Concurrent recording of successes.  Any number of Record calls interleave their put, their
 listing and each of their deletions, any of which may fail or lose its reply; the newest
 completion ever put is never lost.
 */
module SuccessRace {
  import opened Wrappers
  import opened RefStores
  import opened RefReads

  /** Where a Record call stands: about to put its key, about to list, deleting what its
      listing called for, or finished. */
  datatype Stage = Putting | Listing | Deleting(todo: set<string>) | Finished

  datatype Call = Call(task: string, key: string, stage: Stage)

  /** The keys in the store, every key ever put, and the calls. */
  datatype State = State(store: set<string>, ever: set<string>, calls: map<nat, Call>)

  datatype Step =
    | Begin(id: nat, task: string, key: string)
    | Put(id: nat, replied: bool)
    | GiveUp(id: nat)
    | List(id: nat)
    | Delete(id: nat, key: string, landed: bool)

  function Said(key: string): Option<Parsed> { Parse(Successes, REFS + key) }

  /** k is a success of the task that completed strictly before the one under `keep`. */
  predicate Superseded(task: string, keep: string, k: string) {
    && Said(keep).Some? && Said(k).Some? && Said(k).value.task == task && k != keep
    && Said(k).value.n < Said(keep).value.n
  }

  predicate Enabled(st: State, s: Step) {
    match s
    case Begin(id, task, key) => id !in st.calls && (Said(key).Some? ==> Said(key).value.task == task)
    case Put(id, _) => id in st.calls && st.calls[id].stage == Putting
    case GiveUp(id) => id in st.calls
    case List(id) => id in st.calls && st.calls[id].stage == Listing
    case Delete(id, key, _) => id in st.calls && st.calls[id].stage.Deleting? && key in st.calls[id].stage.todo
  }

  function To(st: State, id: nat, stage: Stage): State
    requires id in st.calls
  {
    st.(calls := st.calls[id := st.calls[id].(stage := stage)])
  }

  function Apply(st: State, s: Step): State
    requires Enabled(st, s)
  {
    match s
    case Begin(id, task, key) => st.(calls := st.calls[id := Call(task, key, Putting)])
    case Put(id, replied) =>
      // a conflict means the same completion is already recorded, and the call goes on
      To(st, id, if replied then Listing else Finished)
      .(store := st.store + {st.calls[id].key}, ever := st.ever + {st.calls[id].key})
    case GiveUp(id) => To(st, id, Finished)
    case List(id) =>
      var c := st.calls[id];
      To(st, id, Deleting(set k | k in st.store && Superseded(c.task, c.key, k)))
    case Delete(id, key, landed) =>
      To(st, id, Deleting(st.calls[id].stage.todo - {key})).(store := if landed then st.store - {key} else st.store)
  }

  ghost predicate IsRun(states: seq<State>, steps: seq<Step>) {
    && |states| == |steps| + 1 && states[0].calls == map[] && states[0].ever == states[0].store
    && forall i :: 0 <= i < |steps| ==> Enabled(states[i], steps[i]) && states[i + 1] == Apply(states[i], steps[i])
  }

  /** Two keys record successes of one task, the second completed later. */
  predicate Later(k: string, j: string) {
    Said(k).Some? && Said(j).Some? && Said(k).value.task == Said(j).value.task && Said(k).value.n < Said(j).value.n
  }

  /** What was put is still there unless a later success of the task was put, and what a
      call is about to delete is superseded by the success it recorded. */
  ghost predicate Inv(st: State) {
    && st.store <= st.ever
    && (forall k :: k in st.ever ==> k in st.store || exists j :: j in st.ever && Later(k, j))
    && (forall id :: id in st.calls ==>
          var c := st.calls[id];
          && (Said(c.key).Some? ==> Said(c.key).value.task == c.task)
          && (c.stage.Listing? || c.stage.Deleting? ==> c.key in st.ever)
          && (c.stage.Deleting? ==> forall k :: k in c.stage.todo ==> Superseded(c.task, c.key, k)))
  }

  lemma StepKeepsInv(st: State, s: Step)
    requires Inv(st) && Enabled(st, s)
    ensures Inv(Apply(st, s))
  {
    hide Said;
    var next := Apply(st, s);
    forall k | k in next.ever ensures k in next.store || exists j :: j in next.ever && Later(k, j) {
      if k in st.ever && k !in st.store {
        var j :| j in st.ever && Later(k, j);
        assert j in next.ever;
      } else if s.Delete? && k == s.key && k !in next.store {
        assert Later(k, st.calls[s.id].key);
      }
    }
  }

  lemma {:induction false} RunKeepsInv(states: seq<State>, steps: seq<Step>, i: nat)
    requires IsRun(states, steps) && i < |states|
    ensures Inv(states[i])
  {
    if i > 0 {
      RunKeepsInv(states, steps, i - 1);
      StepKeepsInv(states[i - 1], steps[i - 1]);
    }
  }

  /** No success of the key's task that was ever put completed later. */
  ghost predicate NewestEver(st: State, key: string) {
    key in st.ever && forall j :: j in st.ever ==> !Later(key, j)
  }

  /** The newest completion ever put is always present. */
  lemma NewestSurvives(states: seq<State>, steps: seq<Step>, i: nat, key: string)
    requires IsRun(states, steps) && i < |states| && NewestEver(states[i], key)
    ensures key in states[i].store
  {
    RunKeepsInv(states, steps, i);
  }

  /** So a lookup at its phase returns it while its lease runs. */
  lemma LookupSeesNewest(
    states: seq<State>, steps: seq<Step>, i: nat, key: string, refs: map<string, Lease>, now: int, at: Option<int>)
    requires IsRun(states, steps) && i < |states| && NewestEver(states[i], key) && Said(key).Some?
    requires refs.Keys == states[i].store && (key in refs ==> !Expired(refs[key], now))
    requires Newest(at, Live(refs, Successes, Said(key).value.task, Said(key).value.phase, Some(now)))
    ensures at == Some(Said(key).value.n)
  {
    hide Parse;
    RunKeepsInv(states, steps, i);
    var p := Said(key).value;
    var live := Live(refs, Successes, p.task, p.phase, Some(now));
    assert Hit(Successes, ClaimRef(REFS + key, refs[key]), p.task, p.phase, Some(now));
    assert REFS + key in live;
    forall r | r in live ensures SecondOf(r) <= p.n {
      var k :| k in refs && Hit(Successes, ClaimRef(REFS + k, refs[k]), p.task, p.phase, Some(now)) && r == REFS + k;
      assert !Later(key, k);
    }
  }

  // ---- what a call that gets through has done ----

  /** The superseded keys a call's listing, step l of the run, found in the store. */
  function Doomed(st: State, id: nat): set<string>
    requires id in st.calls
  {
    set k | k in st.store && Superseded(st.calls[id].task, st.calls[id].key, k)
  }

  /** Step l is the call's listing and what it found superseded has been asked to be deleted
      by step i, or is still to be. */
  ghost predicate ListedAt(states: seq<State>, steps: seq<Step>, i: nat, id: nat, l: nat) {
    && l < i < |states| == |steps| + 1 && steps[l] == List(id) && id in states[l].calls
    && id in states[i].calls && states[i].calls[id].key == states[l].calls[id].key && states[i].calls[id].stage.Deleting?
    && forall k :: k in Doomed(states[l], id) ==>
         k in states[i].calls[id].stage.todo || exists j :: l < j < i && IsDelete(steps[j], id, k)
  }

  predicate IsDelete(s: Step, id: nat, key: string) { s.Delete? && s.id == id && s.key == key }

  lemma {:induction false} DeletingHasListed(states: seq<State>, steps: seq<Step>, i: nat, id: nat) returns (l: nat)
    requires IsRun(states, steps) && i < |states| && id in states[i].calls && states[i].calls[id].stage.Deleting?
    ensures ListedAt(states, steps, i, id, l)
  {
    hide Superseded;
    var s := steps[i - 1];
    if s == List(id) {
      l := i - 1;
    } else {
      l := DeletingHasListed(states, steps, i - 1, id);
      forall k | k in Doomed(states[l], id)
        ensures k in states[i].calls[id].stage.todo || exists j :: l < j < i && IsDelete(steps[j], id, k)
      {
        if j :| l < j < i - 1 && IsDelete(steps[j], id, k) {
        } else if k !in states[i].calls[id].stage.todo {
          assert IsDelete(s, id, k);
        }
      }
    }
  }

  /** A call with nothing left to delete has asked for the deletion of every older success of
      its task that its listing found, and each of those that landed was gone then. */
  lemma CleansUp(states: seq<State>, steps: seq<Step>, i: nat, id: nat) returns (l: nat)
    requires IsRun(states, steps) && i < |states| && id in states[i].calls && states[i].calls[id].stage == Deleting({})
    ensures |states| == |steps| + 1 && l < i && steps[l] == List(id) && id in states[l].calls && states[l].calls[id].key == states[i].calls[id].key
    ensures forall k :: k in states[l].store && Later(k, states[l].calls[id].key) ==>
              exists j :: l < j < i && IsDelete(steps[j], id, k) && (steps[j].landed ==> k !in states[j + 1].store)
  {
    l := DeletingHasListed(states, steps, i, id);
    RunKeepsInv(states, steps, l);
    var task, key := states[l].calls[id].task, states[l].calls[id].key;
    assert Said(key).Some? ==> Said(key).value.task == task;
    hide Said, Inv, IsRun;
    forall k | k in states[l].store && Later(k, states[l].calls[id].key)
      ensures exists j :: l < j < i && IsDelete(steps[j], id, k) && (steps[j].landed ==> k !in states[j + 1].store)
    {
      assert k in Doomed(states[l], id);
      var j :| l < j < i && IsDelete(steps[j], id, k);
      if steps[j].landed { DeletionLands(states, steps, j); }
    }
  }

  lemma DeletionLands(states: seq<State>, steps: seq<Step>, j: nat)
    requires IsRun(states, steps) && j < |steps| && steps[j].Delete? && steps[j].landed
    ensures steps[j].key !in states[j + 1].store
  {}

  /** The steps, taken one after another from st, are all enabled and end in `end`. */
  ghost predicate Reaches(st: State, steps: seq<Step>, end: State)
    decreases |steps|
  {
    if steps == [] then st == end else Enabled(st, steps[0]) && Reaches(Apply(st, steps[0]), steps[1..], end)
  }

  lemma DeletionsRun(st: State, id: nat) returns (steps: seq<Step>, end: State)
    requires id in st.calls && st.calls[id].stage.Deleting?
    ensures Reaches(st, steps, end)
    ensures end == To(st, id, Deleting({})).(store := st.store - st.calls[id].stage.todo)
    decreases if id in st.calls && st.calls[id].stage.Deleting? then |st.calls[id].stage.todo| else 0
  {
    var todo := st.calls[id].stage.todo;
    if todo == {} {
      steps, end := [], st;
      assert To(st, id, Deleting({})).calls == st.calls;
    } else {
      var k :| k in todo;
      var next := Apply(st, Delete(id, k, true));
      var rest;
      rest, end := DeletionsRun(next, id);
      steps := [Delete(id, k, true)] + rest;
    }
  }

  /** A call that nothing disturbs puts its success and leaves no older one of its task. */
  lemma RecordRunsThrough(st: State, id: nat) returns (steps: seq<Step>, end: State)
    requires id in st.calls && st.calls[id].stage == Putting
    requires Said(st.calls[id].key).Some? ==> Said(st.calls[id].key).value.task == st.calls[id].task
    ensures Reaches(st, steps, end) && id in end.calls && end.calls[id].stage == Deleting({})
    ensures end.store == (set k | k in st.store && !Later(k, st.calls[id].key)) + {st.calls[id].key}
  {
    hide Said;
    var a := Apply(st, Put(id, true));
    var b := Apply(a, List(id));
    var rest;
    rest, end := DeletionsRun(b, id);
    steps := [Put(id, true), List(id)] + rest;
    assert steps[1..] == [List(id)] + rest && steps[1..][1..] == rest;
  }
}
