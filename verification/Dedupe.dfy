/**
 The bounded publish dedupe, what its order says about its history, and why re-delivered
 failures of a Job whose task has left the store are counted once.
 */
module Dedupe {
  import opened Wrappers

  const DEDUPE_TTL := 3600
  const STORE_MISS_WINDOW := 1800

  predicate NoDuplicates(s: seq<string>) { forall i, j :: 0 <= i < j < |s| ==> s[i] != s[j] }

  /** The last n elements, or all of them. */
  function Last<T>(s: seq<T>, n: nat): seq<T> { if |s| <= n then s else s[|s| - n..] }

  /** At least n insertions followed the one of k at index i. */
  predicate PushedOut(insertions: seq<string>, n: nat, k: string) {
    exists i :: 0 <= i < |insertions| && insertions[i] == k && |insertions| - i > n
  }

  /** Fewer than n insertions followed one of k. */
  predicate Recent(insertions: seq<string>, n: nat, k: string) {
    exists i :: 0 <= i < |insertions| && insertions[i] == k && |insertions| - i <= n
  }

  lemma InLast(s: seq<string>, n: nat, k: string)
    ensures k in Last(s, n) <==> Recent(s, n, k)
  {
    var last := Last(s, n);
    if k in last {
      var i :| 0 <= i < |last| && last[i] == k;
      assert s[|s| - |last| + i] == k;
    }
    if Recent(s, n, k) {
      var i :| 0 <= i < |s| && s[i] == k && |s| - i <= n;
      assert last[i - (|s| - |last|)] == k;
    }
  }

  class TtlDedupe {
    const capacity: nat
    var order: seq<string>
    var seen: map<string, int>
    /** Every insertion ever made, and when each key was last recorded, evicted or not. */
    ghost var insertions: seq<string>
    ghost var recorded: map<string, int>

    ghost predicate Valid() reads this {
      && capacity > 0 && Consistent(order, seen, insertions, capacity)
      && (forall k :: k in seen ==> k in recorded && seen[k] == recorded[k])
      && (forall k :: k in recorded <==> k in insertions)
    }

    constructor (capacity: nat)
      requires capacity > 0
      ensures Valid() && this.capacity == capacity && insertions == [] && recorded == map[]
    {
      this.capacity, this.order, this.seen, this.insertions, this.recorded := capacity, [], map[], [], map[];
    }

    /** A key is present exactly when fewer than capacity insertions followed its latest
        one, whatever refreshed it in between. */
    lemma PresentExactly(k: string)
      requires Valid()
      ensures k in seen <==> Recent(insertions, capacity, k)
    {
      InLast(insertions, capacity, k);
    }

    /** A key recorded once is still recent or was pushed out. */
    lemma RecentOrPushedOut(k: string)
      requires Valid() && k in recorded
      ensures Recent(insertions, capacity, k) || PushedOut(insertions, capacity, k)
    {
      var i :| 0 <= i < |insertions| && insertions[i] == k;
    }

    /** A key counts as seen until one hour after it was last recorded, unless capacity
        insertions have followed its own. */
    ghost predicate Seen(k: string, now: int) reads this {
      k in recorded && now < recorded[k] + 3600 && Recent(insertions, capacity, k)
    }

    method Check(k: string, now: int) returns (hit: bool)
      requires Valid()
      ensures hit <==> Seen(k, now)
    {
      PresentExactly(k);
      hit := k in seen && now - seen[k] < DEDUPE_TTL;
    }

    /** Inserts or refreshes a key; an insertion at capacity evicts the oldest. */
    method Record(k: string, now: int)
      requires Valid()
      modifies this
      ensures Valid() && |order| <= capacity && recorded == old(recorded)[k := now] && k in seen
      ensures insertions == if k in old(seen) then old(insertions) else old(insertions) + [k]
      ensures k in old(seen) ==> order == old(order)
    {
      hide Consistent, PushedOut;
      recorded := recorded[k := now];
      if k in seen {
        RefreshKeeps(order, seen, insertions, capacity, k, now);
        seen := seen[k := now];
        WithinCapacity(order, seen, insertions, capacity);
        return;
      }
      if |order| >= capacity {
        ReplaceKeeps(order, seen, insertions, capacity, k, now);
        seen := seen - {order[0]};
        order := order[1..];
      } else {
        InsertKeeps(order, seen, insertions, capacity, k, now);
      }
      order, seen, insertions := order + [k], seen[k := now], insertions + [k];
      WithinCapacity(order, seen, insertions, capacity);
    }
  }

  /** The order is duplicate-free, has the keys of `seen` and is the end of everything ever
      inserted. */
  ghost predicate Consistent(order: seq<string>, seen: map<string, int>, insertions: seq<string>, capacity: nat) {
    NoDuplicates(order) && order == Last(insertions, capacity) && forall k :: k in seen <==> k in order
  }

  lemma WithinCapacity(order: seq<string>, seen: map<string, int>, insertions: seq<string>, n: nat)
    requires Consistent(order, seen, insertions, n)
    ensures |order| <= n
  {}

  lemma TailMembers(s: seq<string>)
    requires NoDuplicates(s) && s != []
    ensures NoDuplicates(s[1..]) && forall j :: j in s[1..] <==> j in s && j != s[0]
  {
    forall j ensures j in s[1..] <==> j in s && j != s[0] {
      if j in s && j != s[0] {
        var i :| 0 <= i < |s| && s[i] == j;
        assert s[1..][i - 1] == j;
      }
    }
  }

  lemma AppendMembers(s: seq<string>, k: string)
    requires NoDuplicates(s) && k !in s
    ensures NoDuplicates(s + [k]) && forall j :: j in s + [k] <==> j in s || j == k
  {}

  lemma RefreshKeeps(order: seq<string>, seen: map<string, int>, insertions: seq<string>, n: nat, k: string, now: int)
    requires Consistent(order, seen, insertions, n) && k in seen
    ensures Consistent(order, seen[k := now], insertions, n)
  {}

  /** Inserting a new key at the end. */
  lemma InsertKeeps(order: seq<string>, seen: map<string, int>, insertions: seq<string>, n: nat, k: string, now: int)
    requires n > 0 && Consistent(order, seen, insertions, n) && k !in seen && |order| < n
    ensures Consistent(order + [k], seen[k := now], insertions + [k], n)
  {
    Shifted(insertions, n, k);
    AppendMembers(order, k);
    hide Last, NoDuplicates;
  }

  /** Inserting a new key in place of the oldest one. */
  lemma ReplaceKeeps(order: seq<string>, seen: map<string, int>, insertions: seq<string>, n: nat, k: string, now: int)
    requires n > 0 && Consistent(order, seen, insertions, n) && k !in seen && |order| >= n
    ensures Consistent(order[1..] + [k], (seen - {order[0]})[k := now], insertions + [k], n)
  {
    Shifted(insertions, n, k);
    TailMembers(order);
    AppendMembers(order[1..], k);
    hide Last, NoDuplicates;
  }

  lemma Shifted(s: seq<string>, n: nat, k: string)
    requires n > 0
    ensures Last(s + [k], n) == (if |Last(s, n)| >= n then Last(s, n)[1..] else Last(s, n)) + [k]
  {}

  /** A Job whose increment was sent has been recorded since. */
  predicate Remembered(firstSent: map<string, int>, recorded: map<string, int>) {
    forall j :: j in firstSent ==> j in recorded && firstSent[j] <= recorded[j]
  }

  function LagOf(lag: map<string, nat>, job: string): nat { if job in lag then lag[job] else 0 }

  /** A Job's failure time lies so far ahead of its first send, or one of its deliveries
      waited so long between its two clock readings, that the window outlasts the dedupe
      entry. */
  predicate Outlasts(firstSent: map<string, int>, lag: nat, failed: Option<int>, job: string) {
    job in firstSent && failed.Some? && failed.value + lag > firstSent[job] + 1800
  }

  /** A failure is known, newer than the watcher and inside the window. */
  predicate FreshFailure(failed: Option<int>, startedAt: int, now: int) {
    failed.Some? && failed.value > startedAt && now - failed.value < STORE_MISS_WINDOW
  }

  /** The failure path of the Job watcher and the result publisher, beside everything else
      that goes through the same dedupe. */
  class FailureWatcher {
    const dedupe: TtlDedupe
    const startedAt: int
    const failedAt: string -> Option<int>
    /** The latest clock reading, when each Job's increment was first sent, how often the
        store-miss path sent it, and the longest wait inside one of its deliveries. */
    ghost var clock: int
    ghost var firstSent: map<string, int>
    ghost var missSends: multiset<string>
    ghost var lag: map<string, nat>

    /** Whether a Job may be sent twice: its entry was pushed out by capacity insertions, or
        the window outlasts it. */
    ghost predicate Excused(job: string) reads this, dedupe {
      || PushedOut(dedupe.insertions, dedupe.capacity, job)
      || Outlasts(firstSent, LagOf(lag, job), failedAt(job), job)
    }

    ghost predicate Valid() reads this, dedupe {
      && dedupe.Valid() && Remembered(firstSent, dedupe.recorded)
      && (forall j :: j in firstSent ==> firstSent[j] <= clock)
      && (forall j :: missSends[j] > 0 ==> j in firstSent)
      && forall j :: missSends[j] <= 1 || Excused(j)
    }

    constructor (dedupe: TtlDedupe, startedAt: int, failedAt: string -> Option<int>)
      requires dedupe.Valid()
      ensures Valid() && this.dedupe == dedupe && missSends == multiset{}
    {
      this.dedupe, this.startedAt, this.failedAt := dedupe, startedAt, failedAt;
      this.clock, this.firstSent, this.missSends, this.lag := startedAt, map[], multiset{}, map[];
    }

    /** A key of any publisher is recorded: every excuse stands. */
    method Remember(key: string, now: int)
      requires Valid() && clock <= now
      modifies dedupe, this`clock
      ensures Valid() && clock == now && dedupe.recorded == old(dedupe.recorded)[key := now]
      ensures forall j :: old(Excused(j)) ==> Excused(j)
    {
      hide TtlDedupe.Valid, PushedOut, Outlasts;
      ghost var was := dedupe.insertions;
      clock := now;
      dedupe.Record(key, now);
      StillPushedOut(was, dedupe.insertions, dedupe.capacity);
    }

    /** Clearing a Job's name, refusing a trigger or aborting a record goes through the same
        dedupe: it sends no increment and records its key, which may be a Job's own name. */
    method PublishOther(key: string, checkedAt: int, recordedAt: int, sendOk: bool) returns (ok: bool, ghost sent: bool)
      requires Valid() && clock <= checkedAt <= recordedAt
      modifies dedupe, this`clock
      ensures Valid() && firstSent == old(firstSent) && missSends == old(missSends)
      ensures sent <==> sendOk && !old(dedupe.Seen(key, checkedAt))
      ensures ok <==> sendOk || old(dedupe.Seen(key, checkedAt))
      ensures dedupe.recorded == if sent then old(dedupe.recorded)[key := recordedAt] else old(dedupe.recorded)
      ensures forall j :: old(Excused(j)) ==> Excused(j)
    {
      hide TtlDedupe.Valid, PushedOut, Outlasts, TtlDedupe.Seen;
      sent := false;
      var hit := dedupe.Check(key, checkedAt);
      clock := checkedAt;
      if hit { return true, sent; }
      if !sendOk { return false, sent; }
      Remember(key, recordedAt);
      ok, sent := true, true;
    }

    /** Publishes a failure once per Job: an entry is recorded only after both messages were
        sent.  `sent` says whether the increment was. */
    method PublishFailure(job: string, checkedAt: int, recordedAt: int, updateOk: bool, incrementOk: bool)
      returns (ok: bool, ghost sent: bool)
      requires Valid() && clock <= checkedAt <= recordedAt
      modifies dedupe, this`clock, this`firstSent
      ensures Valid()
      ensures sent <==> updateOk && incrementOk && !old(dedupe.Seen(job, checkedAt))
      ensures ok <==> sent || old(dedupe.Seen(job, checkedAt))
      ensures firstSent == if sent && job !in old(firstSent) then old(firstSent)[job := recordedAt] else old(firstSent)
      ensures dedupe.recorded == if sent then old(dedupe.recorded)[job := recordedAt] else old(dedupe.recorded)
      ensures forall j :: old(Excused(j)) ==> Excused(j)
    {
      hide TtlDedupe.Valid, PushedOut, TtlDedupe.Seen, Outlasts, Remembered;
      sent := false;
      var hit := dedupe.Check(job, checkedAt);
      clock := checkedAt;
      if hit { return true, sent; }
      if !updateOk { return false, sent; }
      if !incrementOk { return false, sent; }
      Remember(job, recordedAt);
      NoteSent(job);
      ok, sent := true, true;
    }

    /** The first send of a Job's increment is noted. */
    ghost method NoteSent(job: string)
      requires Valid() && job in dedupe.recorded && dedupe.recorded[job] == clock
      modifies this`firstSent
      ensures Valid() && firstSent == if job in old(firstSent) then old(firstSent) else old(firstSent)[job := clock]
      ensures forall j :: old(Excused(j)) ==> Excused(j)
    {
      hide TtlDedupe.Valid, PushedOut;
      if job !in firstSent { firstSent := firstSent[job := clock]; }
    }

    /** A send of the store-miss path is noted. */
    ghost method NoteMiss(job: string)
      requires Valid() && job in firstSent && (missSends[job] > 0 ==> Excused(job))
      modifies this`missSends
      ensures Valid() && missSends == old(missSends) + multiset{job}
    {
      hide TtlDedupe.Valid, PushedOut, Outlasts, Remembered;
      missSends := missSends + multiset{job};
    }

    /** The wait between judging a failure fresh and asking the dedupe is noted. */
    ghost method NoteLag(job: string, wait: nat)
      requires Valid()
      modifies this`lag
      ensures Valid() && LagOf(lag, job) >= wait && forall j :: old(Excused(j)) ==> Excused(j)
    {
      if wait > LagOf(lag, job) { lag := lag[job := wait]; }
    }

    /** A re-delivered failure of a Job whose task has left the store: it is sent on if it
        happened after the watcher started and less than half an hour ago.  Unless it is excused,
        at most one increment is ever sent for it this way, and none after one sent by any
        path. */
    method DeliverStoreMiss(
      job: string, judgedAt: int, active: Option<bool>, checkedAt: int, recordedAt: int, updateOk: bool, incrementOk: bool)
      returns (handled: bool, ghost sent: bool)
      requires Valid() && clock <= judgedAt <= checkedAt <= recordedAt
      modifies dedupe, this`clock, this`firstSent, this`missSends, this`lag
      ensures Valid()
      ensures missSends == old(missSends) + (if sent then multiset{job} else multiset{})
      ensures sent ==> job !in old(firstSent) || Excused(job)
      ensures handled <==>
                && failedAt(job).Some? && startedAt < failedAt(job).value && judgedAt < failedAt(job).value + 1800
                && active.Some?
      ensures sent <==>
                && failedAt(job).Some? && startedAt < failedAt(job).value && judgedAt < failedAt(job).value + 1800
                && active == Some(false) && updateOk && incrementOk && !old(dedupe.Seen(job, checkedAt))
    {
      hide TtlDedupe.Valid, PushedOut, TtlDedupe.Seen, Outlasts, Remembered;
      sent := false;
      if !FreshFailure(failedAt(job), startedAt, judgedAt) { return false, sent; }
      if active.None? { return false, sent; }
      if active.value { return true, sent; }
      NoteLag(job, checkedAt - judgedAt);
      SecondSendIsExcused(job, judgedAt, checkedAt);
      var _, s := PublishFailure(job, checkedAt, recordedAt, updateOk, incrementOk);
      sent := s;
      if sent { NoteMiss(job); }
      handled := true;
    }

    /** A Job sent before and judged fresh is still seen, unless it is excused. */
    lemma SecondSendIsExcused(job: string, judgedAt: int, checkedAt: int)
      requires Valid() && FreshFailure(failedAt(job), startedAt, judgedAt) && LagOf(lag, job) >= checkedAt - judgedAt
      ensures job in firstSent ==> dedupe.Seen(job, checkedAt) || Excused(job)
    {
      if job in firstSent { dedupe.RecentOrPushedOut(job); }
    }
  }

  /** Further insertions never bring a key back from having been pushed out. */
  lemma StillPushedOut(s: seq<string>, t: seq<string>, n: nat)
    requires |s| <= |t| && t[..|s|] == s
    ensures forall k :: PushedOut(s, n, k) ==> PushedOut(t, n, k)
  {
    forall k | PushedOut(s, n, k) ensures PushedOut(t, n, k) {
      var i :| 0 <= i < |s| && s[i] == k && |s| - i > n;
      assert t[i] == t[..|s|][i];
    }
  }
}
