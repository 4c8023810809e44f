/**
 The ref server and the reads of the three stores.  Every read, per task or from one
 listing of the whole space, is tied to the same set of live refs, so the two agree for
 every content of the store and every clock reading.
 */
module RefReads {
  import opened Wrappers
  import opened Text
  import opened ClaimKeys
  import opened RefStores

  type Table<T> = map<string, map<string, T>>

  /** What a nested map says of a task at a phase component. */
  function At<T>(m: Table<T>, task: string, phase: string): Option<T> {
    if task in m && phase in m[task] then Some(m[task][phase]) else None
  }

  function Put<T>(m: Table<T>, task: string, phase: string, v: T): (n: Table<T>)
    ensures At(n, task, phase) == Some(v)
    ensures forall t, p :: (t, p) != (task, phase) ==> At(n, t, p) == At(m, t, p)
  {
    m[task := (if task in m then m[task] else map[])[phase := v]]
  }

  function OrZero(n: Option<nat>): nat { if n.Some? then n.value else 0 }

  function OrEmpty<T>(s: Option<seq<T>>): seq<T> { if s.Some? then s.value else [] }

  /** The newest number of a set of success refs. */
  ghost predicate Newest(at: Option<int>, refs: set<string>) {
    match at
    case None => refs == {}
    case Some(n) =>
      && (exists r :: r in refs && SecondOf(r) == n)
      && forall r :: r in refs ==> SecondOf(r) <= n
  }

  function SecondOf(ref: string): int {
    var p := Parse(Successes, ref);
    if p.Some? then p.value.n else 0
  }

  lemma NewestUnique(a: Option<int>, b: Option<int>, refs: set<string>)
    requires Newest(a, refs) && Newest(b, refs)
    ensures a == b
  {}

  function Later(at: Option<int>, n: int): Option<int> { if at.None? || at.value < n then Some(n) else at }

  lemma NewestMore(at: Option<int>, refs: set<string>, r: string)
    requires Newest(at, refs)
    ensures Newest(Later(at, SecondOf(r)), refs + {r})
  {
    if !(at.None? || at.value < SecondOf(r)) {
      var q :| q in refs && SecondOf(q) == at.value;
      assert q in refs + {r};
    }
  }

  /** What one more ref of a listing does to the records, seen from one task and phase. */
  lemma RecordOne(was: Table<int>, records: Table<int>, list: seq<ClaimRef>, i: nat, t: string, c: string, now: int)
    requires i < |list| && forall i, j :: 0 <= i < j < |list| ==> list[i].ref != list[j].ref
    requires Newest(At(was, t, c), Hits(list, i, Successes, t, c, Some(now)))
    requires At(records, t, c) == (if Hit(Successes, list[i], t, c, Some(now)) then Later(At(was, t, c), SecondOf(list[i].ref))
                                   else At(was, t, c))
    ensures Newest(At(records, t, c), Hits(list, i + 1, Successes, t, c, Some(now)))
  {
    hide Hit, Hits, At, Parse;
    NextHit(list, i, Successes, t, c, Some(now));
    NewestMore(At(was, t, c), Hits(list, i, Successes, t, c, Some(now)), list[i].ref);
  }

  lemma CountOne(was: Table<nat>, counts: Table<nat>, list: seq<ClaimRef>, i: nat, t: string, c: string, now: int)
    requires i < |list| && forall i, j :: 0 <= i < j < |list| ==> list[i].ref != list[j].ref
    requires OrZero(At(was, t, c)) == |Hits(list, i, Streaks, t, c, Some(now))|
    requires OrZero(At(counts, t, c))
          == OrZero(At(was, t, c)) + if Hit(Streaks, list[i], t, c, Some(now)) then 1 else 0
    ensures OrZero(At(counts, t, c)) == |Hits(list, i + 1, Streaks, t, c, Some(now))|
  {
    hide Hit, Hits, At, Parse;
    NextHit(list, i, Streaks, t, c, Some(now));
  }

  predicate ValidRequest(task: string, phase: string) { ValidComponent(task) && ValidComponent(Component(phase)) }

  /** A listing that has not yet looked at the keys in `todo`. */
  ghost predicate ListsBut(list: seq<ClaimRef>, refs: map<string, Lease>, prefix: string, todo: set<string>) {
    && (forall j :: 0 <= j < |list| ==> Shows(list[j], refs, prefix))
    && (forall k :: k in refs && k in todo ==> ClaimRef(REFS + k, refs[k]) !in list)
    && (forall k :: k in refs && k !in todo && Under(k, prefix) ==> ClaimRef(REFS + k, refs[k]) in list)
    && (forall i, j :: 0 <= i < j < |list| ==> list[i].ref != list[j].ref)
  }

  lemma SameRef(j: string, k: string)
    requires REFS + j == REFS + k
    ensures j == k
  {
    PrefixOfSum(REFS, j);
    PrefixOfSum(REFS, k);
  }

  lemma ListOne(list: seq<ClaimRef>, refs: map<string, Lease>, prefix: string, todo: set<string>, k: string)
    requires ListsBut(list, refs, prefix, todo) && k in todo && k in refs
    ensures var more := if Under(k, prefix) then list + [ClaimRef(REFS + k, refs[k])] else list;
            ListsBut(more, refs, prefix, todo - {k})
  {
    hide Under;
    if Under(k, prefix) {
      var r := ClaimRef(REFS + k, refs[k]);
      forall j | 0 <= j < |list| ensures list[j].ref != r.ref {
        var q :| q in refs && Under(q, prefix) && list[j] == ClaimRef(REFS + q, refs[q]);
        if list[j].ref == r.ref { SameRef(q, k); }
      }
      forall q | q in refs && q in todo - {k} ensures ClaimRef(REFS + q, refs[q]) !in list + [r] {
        if REFS + q == REFS + k { SameRef(q, k); }
      }
    }
  }

  /** Why a read has no answer. */
  datatype ReadError = BadName | Unavailable

  datatype CreateReply = Created | Exists | CreateFailed

  class RefServer {
    /** A reliable server answers every request; any other may fail a request, or carry it
        out and lose the reply. */
    const reliable: bool
    var refs: map<string, Lease>

    constructor (reliable: bool)
      ensures refs == map[] && this.reliable == reliable
    {
      this.reliable, this.refs := reliable, map[];
    }

    /** Every ref under a prefix, in any order. */
    method List(prefix: string) returns (answered: bool, list: seq<ClaimRef>)
      ensures reliable ==> answered
      ensures answered ==> Lists(list, refs, prefix) && forall i, j :: 0 <= i < j < |list| ==> list[i].ref != list[j].ref
    {
      answered, list := true, [];
      if !reliable {
        answered := *;
        if !answered { return; }
      }
      var todo := refs.Keys;
      while todo != {}
        invariant todo <= refs.Keys && ListsBut(list, refs, prefix, todo)
      {
        var k :| k in todo;
        ListOne(list, refs, prefix, todo, k);
        todo := todo - {k};
        if Under(k, prefix) {
          list := list + [ClaimRef(REFS + k, refs[k])];
        }
      }
    }

    /** Creates a ref; refused when the key exists.  A failed request may have landed. */
    method Create(key: string, lease: Lease) returns (r: CreateReply)
      modifies this`refs
      ensures reliable ==> !r.CreateFailed?
      ensures r.Created? ==> key !in old(refs) && refs == old(refs)[key := lease]
      ensures r.Exists? ==> key in old(refs) && refs == old(refs)
      ensures r.CreateFailed? ==> refs == old(refs) || (key !in old(refs) && refs == old(refs)[key := lease])
    {
      var fails, lands: bool := *, *;
      if reliable { fails, lands := false, true; }
      r := if fails then CreateFailed else if key in refs then Exists else Created;
      if key !in refs && (lands || !fails) { refs := refs[key := lease]; }
    }

    /** Deletes a ref; a failure is only logged. */
    method Delete(key: string)
      modifies this`refs
      ensures refs == old(refs) - {key} || (!reliable && refs == old(refs))
    {
      var lands: bool := *;
      if reliable || lands { refs := refs - {key}; }
    }

    // ---- per task ----

    /** How many unexpired streak refs a task has at a phase. */
    method Count(task: string, phase: string, now: int) returns (r: Result<nat, ReadError>)
      ensures r == Err(BadName) <==> !ValidRequest(task, phase)
      ensures r == Err(Unavailable) ==> !reliable
      ensures reliable && ValidRequest(task, phase) ==> r.Ok?
      ensures r.Ok? ==> r.value == |Live(refs, Streaks, task, Component(phase), Some(now))|
    {
      hide Hits, Hit, Live, Lists;
      if !ValidRequest(task, phase) { return Err(BadName); }
      var c := Component(phase);
      var answered, list := List(STREAK + task);
      if !answered { return Err(Unavailable); }
      var count, i := 0, 0;
      NoHits(list, Streaks, task, c, Some(now));
      while i < |list|
        invariant 0 <= i <= |list| && count == |Hits(list, i, Streaks, task, c, Some(now))|
      {
        NextHit(list, i, Streaks, task, c, Some(now));
        if Hit(Streaks, list[i], task, c, Some(now)) { count := count + 1; }
        i := i + 1;
      }
      AllHits(list, refs, STREAK + task, Streaks, task, c, Some(now));
      r := Ok(count);
    }

    /** The newest unexpired success of a task at a phase. */
    method Lookup(task: string, phase: string, now: int) returns (r: Result<Option<int>, ReadError>)
      ensures r == Err(BadName) <==> !ValidRequest(task, phase)
      ensures r == Err(Unavailable) ==> !reliable
      ensures reliable && ValidRequest(task, phase) ==> r.Ok?
      ensures r.Ok? ==> Newest(r.value, Live(refs, Successes, task, Component(phase), Some(now)))
    {
      hide Hits, Hit, Live, Lists, Parse;
      if !ValidRequest(task, phase) { return Err(BadName); }
      var c := Component(phase);
      var answered, list := List(SUCCESS + task);
      if !answered { return Err(Unavailable); }
      var latest: Option<int>, i := None, 0;
      NoHits(list, Successes, task, c, Some(now));
      while i < |list|
        invariant 0 <= i <= |list| && Newest(latest, Hits(list, i, Successes, task, c, Some(now)))
      {
        NextHit(list, i, Successes, task, c, Some(now));
        if Hit(Successes, list[i], task, c, Some(now)) {
          var at := SecondOf(list[i].ref);
          if latest.None? || latest.value < at { latest := Some(at); }
        }
        i := i + 1;
      }
      AllHits(list, refs, SUCCESS + task, Successes, task, c, Some(now));
      r := Ok(latest);
    }

    /** The reasons of a task at a phase by ascending attempt number. */
    method ReasonsOf(task: string, phase: string) returns (r: Result<seq<string>, ReadError>)
      ensures r == Err(BadName) <==> !ValidRequest(task, phase)
      ensures r == Err(Unavailable) ==> !reliable
      ensures reliable && ValidRequest(task, phase) ==> r.Ok?
      ensures r.Ok? ==> InOrder(r.value, Live(refs, Reasons, task, Component(phase), None))
    {
      hide Hits, Hit, Live, Lists, Parse;
      if !ValidRequest(task, phase) { return Err(BadName); }
      var c := Component(phase);
      var answered, list := List(REASON + task);
      if !answered { return Err(Unavailable); }
      var entries: set<string>, i := {}, 0;
      NoHits(list, Reasons, task, c, None);
      while i < |list|
        invariant 0 <= i <= |list| && entries == Hits(list, i, Reasons, task, c, None)
      {
        NextHit(list, i, Reasons, task, c, None);
        if Hit(Reasons, list[i], task, c, None) { entries := entries + {list[i].ref}; }
        i := i + 1;
      }
      AllHits(list, refs, REASON + task, Reasons, task, c, None);
      var reasons := Sorted(entries);
      r := Ok(reasons);
    }

    // ---- from one listing ----

    /** The streak counts of every task and phase. */
    method StreakSnapshot(now: int) returns (answered: bool, counts: Table<nat>)
      ensures reliable ==> answered
      ensures answered ==> forall t, c :: OrZero(At(counts, t, c)) == |Live(refs, Streaks, t, c, Some(now))|
    {
      hide Hits, Hit, Live, Lists, At;
      counts := map[];
      var list: seq<ClaimRef>;
      answered, list := List(STREAK);
      if !answered { return; }
      var i := 0;
      forall t, c ensures OrZero(At(counts, t, c)) == |Hits(list, 0, Streaks, t, c, Some(now))| {
        NoHits(list, Streaks, t, c, Some(now));
        EmptyTable<nat>(t, c);
      }
      while i < |list|
        invariant 0 <= i <= |list|
        invariant forall t, c :: OrZero(At(counts, t, c)) == |Hits(list, i, Streaks, t, c, Some(now))|
      {
        var p := Parse(Streaks, list[i].ref);
        ghost var was := counts;
        if p.Some? && !Expired(list[i].lease, now) {
          counts := Put<nat>(counts, p.value.task, p.value.phase, OrZero(At(counts, p.value.task, p.value.phase)) + 1);
        }
        forall t, c ensures OrZero(At(counts, t, c)) == |Hits(list, i + 1, Streaks, t, c, Some(now))| {
          HitIs(Streaks, list[i], t, c, Some(now));
          CountOne(was, counts, list, i, t, c, now);
        }
        i := i + 1;
      }
      forall t, c ensures OrZero(At(counts, t, c)) == |Live(refs, Streaks, t, c, Some(now))| {
        AllHits(list, refs, STREAK, Streaks, t, c, Some(now));
      }
    }

    /** The newest success of every task and phase. */
    method SuccessSnapshot(now: int) returns (answered: bool, records: Table<int>)
      ensures reliable ==> answered
      ensures answered ==> forall t, c :: Newest(At(records, t, c), Live(refs, Successes, t, c, Some(now)))
    {
      hide Hits, Hit, Live, Lists, At, Parse;
      records := map[];
      var list: seq<ClaimRef>;
      answered, list := List(SUCCESS);
      if !answered { return; }
      var i := 0;
      forall t, c ensures Newest(At(records, t, c), Hits(list, 0, Successes, t, c, Some(now))) {
        NoHits(list, Successes, t, c, Some(now));
        EmptyTable<int>(t, c);
      }
      while i < |list|
        invariant 0 <= i <= |list|
        invariant forall t, c :: Newest(At(records, t, c), Hits(list, i, Successes, t, c, Some(now)))
      {
        var p := Parse(Successes, list[i].ref);
        ghost var was := records;
        if p.Some? && !Expired(list[i].lease, now) {
          var prev := At(records, p.value.task, p.value.phase);
          if prev.None? || prev.value < p.value.n {
            records := Put(records, p.value.task, p.value.phase, p.value.n);
          }
        }
        forall t, c ensures Newest(At(records, t, c), Hits(list, i + 1, Successes, t, c, Some(now))) {
          NextHit(list, i, Successes, t, c, Some(now));
          HitIs(Successes, list[i], t, c, Some(now));
          RecordOne(was, records, list, i, t, c, now);
        }
        i := i + 1;
      }
      forall t, c ensures Newest(At(records, t, c), Live(refs, Successes, t, c, Some(now))) {
        AllHits(list, refs, SUCCESS, Successes, t, c, Some(now));
      }
    }

    /** The reason refs of every task and phase, unsorted. */
    method ReasonEntries() returns (answered: bool, entries: Table<set<string>>)
      ensures reliable ==> answered
      ensures answered ==> forall t, c :: OrNone(At(entries, t, c)) == Live(refs, Reasons, t, c, None)
    {
      hide Hits, Hit, Live, Lists, At;
      entries := map[];
      var list: seq<ClaimRef>;
      answered, list := List(REASON);
      if !answered { return; }
      var i := 0;
      forall t, c ensures OrNone(At(entries, t, c)) == Hits(list, 0, Reasons, t, c, None) {
        NoHits(list, Reasons, t, c, None);
        EmptyTable<set<string>>(t, c);
      }
      while i < |list|
        invariant 0 <= i <= |list|
        invariant forall t, c :: OrNone(At(entries, t, c)) == Hits(list, i, Reasons, t, c, None)
      {
        var p := Parse(Reasons, list[i].ref);
        if p.Some? {
          entries := Put(entries, p.value.task, p.value.phase, OrNone(At(entries, p.value.task, p.value.phase)) + {list[i].ref});
        }
        forall t, c ensures OrNone(At(entries, t, c)) == Hits(list, i + 1, Reasons, t, c, None) {
          NextHit(list, i, Reasons, t, c, None);
          HitIs(Reasons, list[i], t, c, None);
        }
        i := i + 1;
      }
      forall t, c ensures OrNone(At(entries, t, c)) == Live(refs, Reasons, t, c, None) {
        AllHits(list, refs, REASON, Reasons, t, c, None);
      }
    }

    /** The reasons of every task and phase, each by ascending attempt number. */
    method ReasonSnapshot() returns (answered: bool, snapshot: Table<seq<string>>)
      ensures reliable ==> answered
      ensures answered ==> forall t, c :: InOrder(OrEmpty(At(snapshot, t, c)), Live(refs, Reasons, t, c, None))
    {
      hide Live, InOrder, At;
      snapshot := map[];
      var entries: Table<set<string>>;
      answered, entries := ReasonEntries();
      if !answered { return; }
      var todo := set t, c | t in entries && c in entries[t] :: (t, c);
      forall t, c | (t, c) !in todo ensures InOrder(OrEmpty(At(snapshot, t, c)), OrNone(At(entries, t, c))) {
        NothingAt(entries, t, c);
        EmptyTable<seq<string>>(t, c);
        NothingInOrder();
      }
      while todo != {}
        invariant forall t, c :: (t, c) !in todo ==> InOrder(OrEmpty(At(snapshot, t, c)), OrNone(At(entries, t, c)))
      {
        var e :| e in todo;
        var (t, c) := e;
        var sorted := Sorted(OrNone(At(entries, t, c)));
        snapshot := Put(snapshot, t, c, sorted);
        todo := todo - {e};
      }
      forall t, c ensures InOrder(OrEmpty(At(snapshot, t, c)), Live(refs, Reasons, t, c, None)) {
        assert OrNone(At(entries, t, c)) == Live(refs, Reasons, t, c, None);
      }
    }
  }

  lemma NothingAt<T>(m: Table<T>, task: string, phase: string)
    requires task !in m || phase !in m[task]
    ensures At(m, task, phase) == None
  {}

  function OrNone<T>(s: Option<set<T>>): set<T> { if s.Some? then s.value else {} }

  lemma NothingInOrder()
    ensures InOrder([], {})
  {
    assert Sorting([], {}) && ReasonsAlong([]) == [];
  }

  lemma EmptyTable<T>(task: string, phase: string)
    ensures At<T>(map[], task, phase) == None
  {}

  lemma NoHits(list: seq<ClaimRef>, space: Space, task: string, phase: string, now: Option<int>)
    ensures Hits(list, 0, space, task, phase, now) == {}
  {}

  lemma HitIs(space: Space, r: ClaimRef, task: string, phase: string, now: Option<int>)
    ensures Hit(space, r, task, phase, now)
       <==> var p := Parse(space, r.ref);
            p.Some? && p.value.task == task && p.value.phase == phase && (now.Some? ==> !Expired(r.lease, now.value))
  {}

  /** Orders reason refs by their attempt number and keeps the reasons. */
  method Sorted(entries: set<string>) returns (reasons: seq<string>)
    ensures InOrder(reasons, entries)
  {
    var todo := entries;
    ghost var ks := [];
    reasons := [];
    while todo != {}
      invariant todo <= entries && Sorting(ks, entries - todo) && reasons == ReasonsAlong(ks)
      invariant forall i, k :: 0 <= i < |ks| && k in todo ==> NumberOf(ks[i]) <= NumberOf(k)
    {
      var k := Lowest(todo);
      assert entries - (todo - {k}) == entries - todo + {k};
      reasons := reasons + [ReasonOf(k)];
      ks := ks + [k];
      todo := todo - {k};
    }
    assert entries - {} == entries;
  }

  method Lowest(refs: set<string>) returns (k: string)
    requires refs != {}
    ensures k in refs && forall j :: j in refs ==> NumberOf(k) <= NumberOf(j)
  {
    k :| k in refs;
    var rest := refs - {k};
    while rest != {}
      invariant k in refs && rest <= refs
      invariant forall j :: j in refs - rest ==> NumberOf(k) <= NumberOf(j)
    {
      var j :| j in rest;
      rest := rest - {j};
      if NumberOf(j) < NumberOf(k) { k := j; }
    }
  }

  // ---- one pass's snapshots ----

  /** A snapshot asked for once: not yet, refused, or taken. */
  datatype Once<T> = Unasked | Refused | Taken(value: T)

  /** The re-drive snapshots of one reconcile pass, each asked for on first use.  A failed one
      stays failed for the pass. */
  class PassRedriveCache {
    const server: RefServer
    var counts: Once<Table<nat>>
    var reasons: Once<Table<seq<string>>>
    ghost var countedRefs: map<string, Lease>
    ghost var countedAt: int
    ghost var reasonRefs: map<string, Lease>

    /** Each snapshot says of every task and phase what the store said when it was taken. */
    ghost predicate Valid() reads this {
      && (counts.Taken? ==> forall t, c ::
            OrZero(At(counts.value, t, c)) == |Live(countedRefs, Streaks, t, c, Some(countedAt))|)
      && (reasons.Taken? ==> forall t, c ::
            InOrder(OrEmpty(At(reasons.value, t, c)), Live(reasonRefs, Reasons, t, c, None)))
      && (server.reliable ==> counts != Refused && reasons != Refused)
    }

    constructor (server: RefServer)
      ensures Valid() && this.server == server && counts == Unasked && reasons == Unasked
    {
      this.server, this.counts, this.reasons := server, Unasked, Unasked;
      this.countedRefs, this.countedAt, this.reasonRefs := map[], 0, map[];
    }

    /** The count a live read would have given when the pass first asked for any.  Only for a
        name a live read refuses do the two differ: the snapshot answers it. */
    method Count(task: string, phase: string, now: int) returns (r: Result<nat, ReadError>)
      requires Valid()
      modifies this`counts, this`countedRefs, this`countedAt
      ensures Valid() && !counts.Unasked?
      ensures old(counts).Unasked? ==> countedRefs == server.refs && countedAt == now
      ensures !old(counts).Unasked? ==> counts == old(counts) && countedRefs == old(countedRefs) && countedAt == old(countedAt)
      ensures r == if counts.Refused? then Err(Unavailable)
                   else Ok(|Live(countedRefs, Streaks, task, Component(phase), Some(countedAt))|)
    {
      hide Live, InOrder, At;
      if counts.Unasked? {
        var answered, snapshot := server.StreakSnapshot(now);
        counts, countedRefs, countedAt := if answered then Taken(snapshot) else Refused, server.refs, now;
      }
      r := if counts.Refused? then Err(Unavailable) else Ok(OrZero(At(counts.value, task, Component(phase))));
    }

    /** The reasons a live read would have given when the pass first asked for any. */
    method ReasonsFor(task: string, phase: string) returns (r: Result<seq<string>, ReadError>)
      requires Valid()
      modifies this`reasons, this`reasonRefs
      ensures Valid() && !reasons.Unasked?
      ensures old(reasons).Unasked? ==> reasonRefs == server.refs
      ensures !old(reasons).Unasked? ==> reasons == old(reasons) && reasonRefs == old(reasonRefs)
      ensures r.Err? <==> reasons.Refused?
      ensures r.Ok? ==> InOrder(r.value, Live(reasonRefs, Reasons, task, Component(phase), None))
    {
      hide Live, InOrder, At;
      if reasons.Unasked? {
        var answered, snapshot := server.ReasonSnapshot();
        reasons, reasonRefs := if answered then Taken(snapshot) else Refused, server.refs;
      }
      r := if reasons.Refused? then Err(Unavailable) else Ok(OrEmpty(At(reasons.value, task, Component(phase))));
    }
  }

  /** The success snapshot of one reconcile pass, asked for on first use. */
  class PassSuccessCache {
    const server: RefServer
    var records: Once<Table<int>>
    ghost var takenRefs: map<string, Lease>
    ghost var takenAt: int

    ghost predicate Valid() reads this {
      && (records.Taken? ==> forall t, c ::
            Newest(At(records.value, t, c), Live(takenRefs, Successes, t, c, Some(takenAt))))
      && (server.reliable ==> records != Refused)
    }

    constructor (server: RefServer)
      ensures Valid() && this.server == server && records == Unasked
    {
      this.server, this.records, this.takenRefs, this.takenAt := server, Unasked, map[], 0;
    }

    /** The success a live read would have given when the pass first asked for any. */
    method Lookup(task: string, phase: string, now: int) returns (r: Result<Option<int>, ReadError>)
      requires Valid()
      modifies this
      ensures Valid() && !records.Unasked?
      ensures old(records).Unasked? ==> takenRefs == server.refs && takenAt == now
      ensures !old(records).Unasked? ==> records == old(records) && takenRefs == old(takenRefs) && takenAt == old(takenAt)
      ensures r.Err? <==> records.Refused?
      ensures r.Ok? ==> Newest(r.value, Live(takenRefs, Successes, task, Component(phase), Some(takenAt)))
    {
      hide Live, At, Newest;
      if records.Unasked? {
        var answered, snapshot := server.SuccessSnapshot(now);
        records, takenRefs, takenAt := if answered then Taken(snapshot) else Refused, server.refs, now;
      }
      r := if records.Refused? then Err(Unavailable) else Ok(At(records.value, task, Component(phase)));
    }
  }
}
