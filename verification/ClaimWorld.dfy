/**
 The outside world of one lease manager: the claim server, Job control, the clock and
 every other cluster.  Each call lets the others take any number of protocol steps
 before and after its own request lands, may lose the request or its reply, and records
 every step in a ghost run.  A request lost on its way, of any cluster, may land during any
 later call.
 */
module ClaimWorlds {
  import opened Wrappers
  import opened LeaseProtocol
  import opened LeaseInvariants

  const REQUEST_TIMEOUT := 30

  datatype AcquireReply = Got(rec: Rec) | ClaimHeld | AcquireFailed
  datatype ReadReply = Free_ | Found_(rec: Rec) | ReadFailed
  datatype RenewReply = Renewed(rec: Rec) | LeaseLost | RenewFailed
  datatype ReleaseReply = Released | AlreadyReleased | ReleaseFailed
  datatype ListReply = Listed(recs: map<Key, Rec>) | ListFailed
  datatype Answer = Running | NotRunning | Unknown

  /** The deadline of a request: the caller's own, or one derived inside a tick. */
  datatype Deadline = Caller | By(clock: int, t: int)

  /** A tick's request ends within thirty seconds, and a minute before the first lease end. */
  predicate Bounded(held: map<Key, Held>, d: Deadline) {
    d.By? ==>
      && d.t <= d.clock + 30
      && forall k :: k in held && !held[k].pendingDeletion ==> d.t <= held[k].lease - 60
  }

  /** What the outside has answered. */
  datatype Reply =
    | LookedUp(k: Key, read: ReadReply)
    | ReadBack(k: Key, read: ReadReply)
    | ListSent(list: ListReply)
    | Acquired(k: Key, acquire: AcquireReply)
    | RenewSent(k: Key, renew: RenewReply)
    | ReleaseSent(k: Key, release: ReleaseReply)
    | Asked(task: TaskId, answer: Answer)
    | Deleted(task: TaskId, ok: bool)
    | ClockRead(clock: int)
    | CtxDone

  class ClaimWorld {
    const skew: Skew
    var w: World
    ghost var run: Run
    /** Every reply since a caller last asked to start afresh. */
    ghost var heard: set<Reply>
    /** The keys a renewal was sent for since then. */
    ghost var renewed: set<Key>
    /** The caller's context is done, and stays so. */
    var cancelled: bool
    /** A lease tick is under way: every request to the claim server must carry a deadline. */
    ghost var ticking: bool

    /** The present is the end of a run of the protocol. */
    ghost predicate Valid() reads this {
      IsRun(skew, run) && w == run.states[|run.steps|] && (CtxDone in heard ==> cancelled)
    }

    /** Whether a request may be sent with deadline d by a manager that holds `held`. */
    ghost predicate Allows(held: map<Key, Held>, d: Deadline) reads this {
      Bounded(held, d) && (ticking ==> d.By?)
    }

    ghost predicate Ready(c: Cluster) reads this { Valid() && c in w.local }

    /** A call of c leaves the world ready, and time has not gone back. */
    twostate predicate Went(c: Cluster) reads this {
      Ready(c) && ticking == old(ticking) && old(w).server.now <= w.server.now
    }

    /** And no reply was forgotten. */
    twostate predicate MovedOn(c: Cluster) reads this { Went(c) && old(heard) <= heard }

    /** And no renewal was sent. */
    twostate predicate Moved(c: Cluster) reads this { MovedOn(c) && renewed == old(renewed) }

    /** A lease granted during a call runs for five minutes. */
    twostate predicate FreshLease(rec: Rec) reads this {
      rec.lease.Some? && old(w).server.now + 300 <= rec.lease.value <= w.server.now + 300
    }

    constructor (skew: Skew, w: World)
      requires Init(w)
      ensures Valid() && this.w == w && this.skew == skew && run == Run([w], []) && heard == {} && renewed == {} && !ticking
    {
      this.skew, this.w, this.run := skew, w, Run([w], []);
      this.heard, this.renewed, this.cancelled, this.ticking := {}, {}, false, false;
    }

    /** Forgets the replies so far. */
    ghost method Hush()
      requires Valid()
      modifies `heard, `renewed
      ensures Valid() && heard == {} && renewed == {}
    {
      heard, renewed := {}, {};
    }

    ghost method Hear(r: Reply)
      requires Valid() && (r == CtxDone ==> cancelled)
      modifies `heard
      ensures Valid() && heard == old(heard) + {r}
    {
      heard := heard + {r};
    }

    ghost method NoteRenewal(k: Key)
      requires Valid()
      modifies `renewed
      ensures Valid() && renewed == old(renewed) + {k}
    {
      renewed := renewed + {k};
    }

    ghost method SetTicking(on: bool)
      requires Valid()
      modifies `ticking
      ensures Valid() && ticking == on
    {
      ticking := on;
    }

    /** One protocol step. */
    method Take(s: Step)
      requires Valid() && Enabled(skew, w, s)
      modifies this
      ensures Valid() && w == Apply(old(w), s)
      ensures run == Run(old(run).states + [w], old(run).steps + [s])
      ensures heard == old(heard) && renewed == old(renewed) && ticking == old(ticking) && cancelled == old(cancelled)
    {
      w := Apply(w, s);
      run := Run(run.states + [w], run.steps + [s]);
    }

    /** Any number of steps of the other clusters and of time. */
    method Others(c: Cluster)
      requires Ready(c)
      modifies this
      ensures Moved(c) && w.local[c] == old(w).local[c] && heard == old(heard)
    {
      var n: nat :| true;
      while n > 0
        invariant Moved(c) && w.local[c] == old(w).local[c] && heard == old(heard)
      {
        var s: Step := *;
        if !ActsFor(s, c) && Enabled(skew, w, s) {
          Take(s);
        }
        n := n - 1;
      }
    }

    /** A change of c's own side. */
    method Change(c: Cluster, m: Change)
      requires Ready(c) && MayDo(skew, w.server, c, w.local[c], m)
      modifies this
      ensures Moved(c) && w.local[c] == Changed(old(w).server, old(w).local[c], m) && heard == old(heard)
    {
      hide ClaimWorld.Valid;
      Take(Do(c, m));
    }

    /** A request that did not land in time is gone, or still on its way. */
    method MayStray(c: Cluster, x: Late)
      requires Ready(c) && x.c == c && MayLose(w.local[c], x)
      modifies this
      ensures Moved(c) && w.local[c] == old(w).local[c] && heard == old(heard)
    {
      hide ClaimWorld.Valid;
      if * { Take(Send(c, Lose(x))); }
    }

    // ---- requests to the claim server ----

    /** The read a claim or takeover starts with; `clock` was read before it. */
    method LookUp(c: Cluster, k: Key, clock: int) returns (r: ReadReply)
      requires Ready(c) && !ticking && clock <= w.server.now + skew.fast && !Names(w.local[c], k)
      modifies this
      ensures Moved(c) && heard == old(heard) + {LookedUp(k, r)}
      ensures r.ReadFailed? ==> w.local[c] == old(w).local[c]
      ensures !r.ReadFailed? ==>
                var look := w.local[c].look;
                && look.Some? && w.local[c] == old(w).local[c].(look := look, own := map[])
                && look.value.key == k && look.value.clock == clock
                && look.value.before == (if r.Found_? then Some(r.rec) else None)
    {
      hide ClaimWorld.Valid;
      Others(c);
      if * {
        r := ReadFailed;
      } else {
        r := if k in w.server.recs then Found_(w.server.recs[k]) else Free_;
        Take(Send(c, Look_(k, clock)));
      }
      Hear(LookedUp(k, r));
      Others(c);
    }

    /** A read of a key c believes to be its own.  A held claim the server no longer
        has is noted as refused. */
    method Read(c: Cluster, k: Key, d: Deadline) returns (r: ReadReply)
      requires Ready(c) && Allows(w.local[c].held, d)
      requires k in w.local[c].held || w.local[c].look.Some?
      modifies this
      ensures Moved(c) && heard == old(heard) + {ReadBack(k, r)}
      ensures r.Found_? && r.rec.holder == c ==>
                w.local[c] == old(w).local[c].(own := old(w).local[c].own[k := r.rec])
      ensures (r.Free_? || (r.Found_? && r.rec.holder != c)) ==>
                w.local[c] == (if k in old(w).local[c].held
                               then old(w).local[c].(refused := old(w).local[c].refused + {k})
                               else old(w).local[c])
      ensures r.ReadFailed? ==> w.local[c] == old(w).local[c]
    {
      hide ClaimWorld.Valid;
      Others(c);
      if * {
        r := ReadFailed;
      } else if k in w.server.recs {
        r := Found_(w.server.recs[k]);
        if w.server.recs[k].holder == c {
          Take(Send(c, Show(k)));
        } else if k in w.local[c].held {
          Take(Send(c, Refuse(k)));
        }
      } else {
        r := Free_;
        if k in w.local[c].held {
          Take(Send(c, Refuse(k)));
        }
      }
      Hear(ReadBack(k, r));
      Others(c);
    }

    /** Acquire of the key the operation looked up.  A live claim is refused; a request
        or its reply may be lost. */
    method Acquire(c: Cluster, k: Key, task: TaskId) returns (r: AcquireReply)
      requires Ready(c) && !ticking && w.local[c].look.Some? && w.local[c].look.value.key == k && k !in w.local[c].own
      requires w.local[c].look.value.before.None?
            || TakeoverAllowed(w.local[c].look.value.clock, w.local[c].look.value.before.value)
      modifies this
      ensures Moved(c) && heard == old(heard) + {Acquired(k, r)}
      ensures r.Got? ==> FreshLease(r.rec) && r.rec.holder == c && r.rec.task == task && r.rec.token.holder == c
                         && w.local[c] == old(w).local[c].(own := old(w).local[c].own[k := r.rec])
      ensures !r.Got? ==> w.local[c] == old(w).local[c]
    {
      hide ClaimWorld.Valid;
      Others(c);
      if Acquirable(w.server, k) {
        var lands: bool, answers: bool := *, *;
        r := AcquireFailed;
        if lands {
          r := if answers then Got(Grant(w.server, c, k, task)) else AcquireFailed;
          assert w.local[c].own - {k} == w.local[c].own;
          Take(Send(c, LeaseProtocol.Acquire(k, task, answers)));
        } else {
          MayStray(c, LateAcquire(c, k, task));
        }
      } else {
        if * { r := ClaimHeld; } else { r := AcquireFailed; MayStray(c, LateAcquire(c, k, task)); }
      }
      Hear(Acquired(k, r));
      Others(c);
    }

    /** Acquire of the second ref of a pair, which no read precedes.  When it is the key just
        granted, the server refuses it: that lease is still running. */
    method AcquireSecond(c: Cluster, k: Key, task: TaskId) returns (r: AcquireReply)
      requires Ready(c) && !ticking && w.local[c].look.Some? && !Names(w.local[c], k)
      requires k != w.local[c].look.value.key ==> k !in w.local[c].own
      requires k == w.local[c].look.value.key ==>
                 w.local[c].look.value.before.None?
                 || TakeoverAllowed(w.local[c].look.value.clock, w.local[c].look.value.before.value)
      modifies this
      ensures Moved(c) && heard == old(heard) + {Acquired(k, r)}
      ensures r.Got? ==> k != old(w).local[c].look.value.key && r.rec.holder == c && r.rec.task == task && r.rec.token.holder == c
                         && r.rec.token.key == k && FreshLease(r.rec)
                         && w.local[c] == old(w).local[c].(own := old(w).local[c].own[k := r.rec])
      ensures !r.Got? ==> w.local[c] == old(w).local[c]
    {
      hide ClaimWorld.Valid;
      Others(c);
      var lands: bool, answers: bool := *, *;
      if k != w.local[c].look.value.key && Acquirable(w.server, k) && lands {
        r := if answers then Got(Grant(w.server, c, k, task)) else AcquireFailed;
        assert w.local[c].own - {k} == w.local[c].own;
        Take(Send(c, LeaseProtocol.AcquireSecond(k, task, answers)));
      } else if k != w.local[c].look.value.key && Acquirable(w.server, k) {
        r := AcquireFailed;
        MayStray(c, LateAcquire(c, k, task));
      } else {
        if * { r := ClaimHeld; } else { r := AcquireFailed; MayStray(c, LateAcquire(c, k, task)); }
      }
      Hear(Acquired(k, r));
      Others(c);
    }

    /** Renewal of one ref of a held claim.  A stale token is answered "lease lost". */
    method Renew(c: Cluster, k: Key, primary: Key, token: Token, d: Deadline) returns (r: RenewReply)
      requires Ready(c) && Allows(w.local[c].held, d)
      requires primary in w.local[c].held && RefToken(w.local[c].held[primary], primary, k) == Some(token)
      modifies this
      ensures MovedOn(c) && heard == old(heard) + {RenewSent(k, r)} && renewed == old(renewed) + {k}
      ensures r.Renewed? ==>
                && r.rec.token.holder == c && r.rec.token.key == k && r.rec.holder == c && FreshLease(r.rec)
                && w.local[c] == old(w).local[c].(own := old(w).local[c].own[k := r.rec],
                                                  moved := old(w).local[c].moved + {k})
      ensures r.LeaseLost? ==> w.local[c] == old(w).local[c].(refused := old(w).local[c].refused + {primary})
      ensures r.RenewFailed? ==>
                || w.local[c] == old(w).local[c]
                || w.local[c] == old(w).local[c].(own := old(w).local[c].own - {k},
                                                  moved := old(w).local[c].moved + {k})
    {
      hide ClaimWorld.Valid;
      Others(c);
      if * {
        r := RenewFailed;
        if token.holder == c { MayStray(c, LateRenew(c, k, token)); }
      } else if k in w.server.recs && w.server.recs[k].token == token {
        var answers: bool := *;
        r := if answers then Renewed(Grant(w.server, c, k, w.server.recs[k].task)) else RenewFailed;
        Take(Send(c, LeaseProtocol.Renew(k, primary, answers)));
      } else {
        r := LeaseLost;
        Take(Send(c, Refuse(primary)));
      }
      Hear(RenewSent(k, r));
      NoteRenewal(k);
      Others(c);
    }

    /** Release of one ref.  The caller must have let go of the claim first. */
    method Release(c: Cluster, k: Key, token: Token, d: Deadline) returns (r: ReleaseReply)
      requires Ready(c) && Allows(w.local[c].held, d)
      requires token.holder == c && !Live(w.local[c], k)
      modifies this
      ensures Moved(c) && heard == old(heard) + {ReleaseSent(k, r)}
      ensures w.local[c] == old(w).local[c] || w.local[c] == old(w).local[c].(own := old(w).local[c].own - {k})
    {
      hide ClaimWorld.Valid;
      Others(c);
      if * {
        r := ReleaseFailed;
        MayStray(c, LateRelease(c, k, token));
      } else if k in w.server.recs && w.server.recs[k].token == token {
        if * { r := Released; } else { r := ReleaseFailed; }
        Take(Send(c, Free(k, token)));
      } else {
        r := AlreadyReleased;
      }
      Hear(ReleaseSent(k, r));
      Others(c);
    }

    /** Every claim the server has for c. */
    method ListClaims(c: Cluster) returns (r: ListReply)
      requires Ready(c) && !ticking
      modifies this
      ensures Moved(c) && heard == old(heard) + {ListSent(r)}
      ensures r.Listed? ==> w.local[c] == old(w).local[c].(look := None, own := r.recs)
      ensures r.ListFailed? ==> w.local[c] == old(w).local[c]
      ensures r.Listed? ==> forall k :: k in r.recs ==>
                r.recs[k].holder == c && r.recs[k].token.holder == c && r.recs[k].token.key == k
    {
      Others(c);
      if * {
        r := ListFailed;
      } else {
        r := Listed(map k | k in w.server.recs && w.server.recs[k].holder == c :: w.server.recs[k]);
        RunKeepsInv(skew, run, |run.steps|);
        Take(Send(c, List));
      }
      Hear(ListSent(r));
      Others(c);
    }

    // ---- Job control ----

    method IsJobRunning(c: Cluster, task: TaskId) returns (r: Answer)
      requires Ready(c)
      modifies this
      ensures Moved(c) && heard == old(heard) + {Asked(task, r)}
      ensures w.local[c] == if r.NotRunning? then Stopped(old(w).local[c], task) else old(w).local[c]
    {
      hide ClaimWorld.Valid;
      Others(c);
      if * {
        r := Unknown;
      } else {
        if * { r := Running; } else { r := NotRunning; }
        Take(Do(c, Answered(task, r.Running?)));
      }
      Hear(Asked(task, r));
      Others(c);
    }

    method DeleteJob(c: Cluster, task: TaskId) returns (ok: bool)
      requires Ready(c)
      modifies this
      ensures Moved(c) && heard == old(heard) + {Deleted(task, ok)}
      ensures w.local[c] == if ok then Stopped(old(w).local[c], task) else old(w).local[c]
    {
      hide ClaimWorld.Valid;
      Others(c);
      ok := *;
      if ok {
        Take(Do(c, JobDeleted(task)));
      }
      Hear(Deleted(task, ok));
      Others(c);
    }

    // ---- the clock ----

    /** A clock reading.  It stays within the skew of the server's clock as time passes. */
    method Clock(c: Cluster) returns (clock: int)
      requires Ready(c)
      modifies this
      ensures Moved(c) && heard == old(heard) + {ClockRead(clock)} && w.local[c] == old(w).local[c]
      ensures w.local[c].lastFence - skew.slow <= clock <= w.server.now + skew.fast
      ensures clock >= old(w).server.now - skew.slow
    {
      Others(c);
      var off: int :| 0 - skew.slow <= off <= skew.fast;
      clock := w.server.now + off;
      RunKeepsInv(skew, run, |run.steps|);
      assert LocalOk(skew, w.server, c, w.local[c]);
      Hear(ClockRead(clock));
      Others(c);
    }

    /** Another call, with a context of its own. */
    method NewContext()
      requires Valid() && CtxDone !in heard
      modifies `cancelled
      ensures Valid()
    {
      cancelled := *;
    }

    /** Whether the caller's context is done. */
    method Done(c: Cluster) returns (done: bool)
      requires Ready(c)
      modifies this
      ensures Moved(c) && w == old(w) && (done <==> CtxDone in heard)
      ensures heard == old(heard) + (if done then {CtxDone} else {})
    {
      if !cancelled { cancelled := *; }
      done := cancelled;
      if done { Hear(CtxDone); }
    }

    /** The reading a fence evaluation starts with. */
    method StartFence(c: Cluster) returns (clock: int)
      requires Ready(c) && w.local[c].look.None?
      modifies this
      ensures Moved(c) && heard == old(heard) + {ClockRead(clock)} && w.local[c].fence.Some? && w.local[c].fence.value.clock == clock
      ensures w.local[c] == old(w).local[c].(fence := w.local[c].fence)
    {
      Others(c);
      var off: int :| 0 - skew.slow <= off <= skew.fast;
      clock := w.server.now + off;
      Take(Do(c, LeaseProtocol.StartFence(clock)));
      Hear(ClockRead(clock));
      Others(c);
    }
  }

  /** What c knows of its claims once the Job of `task` was seen stopped. */
  function Stopped(l: Local, task: TaskId): Local { l.(seen := l.seen + KeysOfTask(l, task)) }
}
