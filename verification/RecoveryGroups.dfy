/** How a restarted manager groups the claims the server lists for it. */
module RecoveryGroups {
  import opened Wrappers
  import opened Text
  import opened LeaseProtocol
  import ClaimKeys

  /** One recovery group: a single claim, or a repository claim with its per-PR partner. */
  datatype Group = Group(primary: Key, second: Option<Key>)

  predicate Member(g: Group, k: Key) { k == g.primary || g.second == Some(k) }

  function TaskKeys(recs: map<Key, Rec>, task: TaskId): set<Key> { set k | k in recs && recs[k].task == task }

  /** The claims of a task are exactly one repository claim and one per-PR claim. */
  predicate IsPair(recs: map<Key, Rec>, task: TaskId, r: Key, q: Key) {
    HasPrefix(r, ClaimKeys.REPO) && HasPrefix(q, ClaimKeys.PR) && TaskKeys(recs, task) == {r, q}
  }

  ghost predicate IsGroup(recs: map<Key, Rec>, g: Group) {
    && g.primary in recs
    && match g.second
       case Some(q) => IsPair(recs, recs[g.primary].task, g.primary, q)
       case None => forall r, q :: !IsPair(recs, recs[g.primary].task, r, q)
  }

  lemma PairMembers(recs: map<Key, Rec>, task: TaskId, r: Key, q: Key)
    requires IsPair(recs, task, r, q)
    ensures r in recs && q in recs && recs[r].task == task && recs[q].task == task && r != q
  {
    assert r in TaskKeys(recs, task) && q in TaskKeys(recs, task);
    assert r[7] == 'r' && q[7] == 'p';
  }

  /** A repository claim and a pull-request claim are one group exactly when they are all the
      listed claims of one task. */
  lemma PairExactly(recs: map<Key, Rec>, r: Key, q: Key)
    ensures IsGroup(recs, Group(r, Some(q))) <==>
            && r in recs && q in recs && recs[q].task == recs[r].task
            && (exists a: string :: r == "claims/repo/" + a) && (exists b: string :: q == "claims/pr/" + b)
            && forall k :: k in recs && recs[k].task == recs[r].task ==> k == r || k == q
  {
    if r in recs {
      PrefixExactly(r, ClaimKeys.REPO);
      PrefixExactly(q, ClaimKeys.PR);
      var keys := TaskKeys(recs, recs[r].task);
      if IsPair(recs, recs[r].task, r, q) {
        PairMembers(recs, recs[r].task, r, q);
        forall k | k in recs && recs[k].task == recs[r].task ensures k == r || k == q { assert k in keys; }
      }
    }
  }

  lemma PrefixExactly(s: string, p: string)
    ensures HasPrefix(s, p) <==> exists rest: string :: s == p + rest
  {
    if HasPrefix(s, p) { assert s == p + s[|p|..]; }
  }

  /** Every listed claim lands in exactly one group. */
  lemma GroupsPartition(recs: map<Key, Rec>, k: Key)
    requires k in recs
    ensures exists g :: IsGroup(recs, g) && Member(g, k)
    ensures forall g, h :: IsGroup(recs, g) && Member(g, k) && IsGroup(recs, h) && Member(h, k) ==> g == h
  {
    if r, q :| IsPair(recs, recs[k].task, r, q) {
      PairMembers(recs, recs[k].task, r, q);
      assert k in TaskKeys(recs, recs[k].task);
      assert IsGroup(recs, Group(r, Some(q))) && Member(Group(r, Some(q)), k);
    } else {
      assert IsGroup(recs, Group(k, None)) && Member(Group(k, None), k);
    }
    forall g, h | IsGroup(recs, g) && Member(g, k) && IsGroup(recs, h) && Member(h, k) ensures g == h {
      GroupTask(recs, g, k);
      GroupTask(recs, h, k);
      if g.second.Some? && h.second.Some? { SamePair(recs, recs[k].task, g.primary, g.second.value, h.primary, h.second.value); }
    }
  }

  lemma GroupTask(recs: map<Key, Rec>, g: Group, k: Key)
    requires IsGroup(recs, g) && Member(g, k)
    ensures k in recs && recs[k].task == recs[g.primary].task
  {
    if g.second.Some? { PairMembers(recs, recs[g.primary].task, g.primary, g.second.value); }
  }

  lemma SamePair(recs: map<Key, Rec>, task: TaskId, r: Key, q: Key, r': Key, q': Key)
    requires IsPair(recs, task, r, q) && IsPair(recs, task, r', q')
    ensures r == r' && q == q'
  {
    PairMembers(recs, task, r, q);
    PairMembers(recs, task, r', q');
    assert r[7] == 'r' && q[7] == 'p' && r'[7] == 'r' && q'[7] == 'p';
    assert r' in {r, q} && q' in {r, q};
  }

  /** The lease a recovered claim is judged by; an unreadable one counts as over. */
  function RecoveredLease(now: int, rec: Rec): int {
    if rec.lease.Some? then rec.lease.value else now - LEASE_DURATION
  }

  function GroupLease(recs: map<Key, Rec>, g: Group, now: int): (lease: int)
    requires g.primary in recs && (g.second.Some? ==> g.second.value in recs)
    ensures EarliestLease(lease, recs, g, now)
  {
    var a := RecoveredLease(now, recs[g.primary]);
    if g.second.None? then a
    else
      var b := RecoveredLease(now, recs[g.second.value]);
      if b < a then b else a
  }

  /** The lease end of one of the group's claims, no later than that of any; one that could
      not be read counts as over for five minutes. */
  predicate EarliestLease(lease: int, recs: map<Key, Rec>, g: Group, now: int)
    requires g.primary in recs && (g.second.Some? ==> g.second.value in recs)
  {
    && (EndsAt(lease, recs[g.primary], now) || (g.second.Some? && EndsAt(lease, recs[g.second.value], now)))
    && EndsBy(lease, recs[g.primary], now) && (g.second.Some? ==> EndsBy(lease, recs[g.second.value], now))
  }

  predicate EndsAt(end: int, rec: Rec, now: int) {
    match rec.lease
    case Some(t) => end == t
    case None => end == now - 300
  }

  predicate EndsBy(end: int, rec: Rec, now: int) {
    match rec.lease
    case Some(t) => end <= t
    case None => end <= now - 300
  }

  /** A lease of the group could not be read or ends within seventy seconds. */
  predicate LeaseShort(recs: map<Key, Rec>, g: Group, now: int)
    requires g.primary in recs && (g.second.Some? ==> g.second.value in recs)
  {
    RunsShort(recs[g.primary], now) || (g.second.Some? && RunsShort(recs[g.second.value], now))
  }

  predicate RunsShort(rec: Rec, now: int) { rec.lease.None? || rec.lease.value < now + 70 }

  /** The fence decides on the earlier lease exactly when one of them is short. */
  lemma DueIsShort(recs: map<Key, Rec>, g: Group, now: int)
    requires g.primary in recs && (g.second.Some? ==> g.second.value in recs)
    ensures FenceDue(now, GroupLease(recs, g, now)) <==> LeaseShort(recs, g, now)
  {}
}
