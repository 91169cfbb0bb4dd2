/** Thread locks that no worker will give back: when a step leaves one behind, and that it then blocks its thread until
    it expires. */
module OrphanedLocks {
  import opened Optional
  import opened RunQueue

  /** The worker holds the lock of the thread, which is in place for its run. */
  predicate Guards(s: State, w: nat, t: ThreadID) {
    && w in s.workers && Holds(s.workers[w]) && s.workers[w].thread == t
    && t in s.redis.locks && s.redis.locks[t] == s.workers[w].run
  }

  ghost predicate Orphaned(s: State, t: ThreadID) {
    t in s.redis.locks && forall w :: w in s.workers ==> !Guards(s, w, t)
  }

  /** Another worker than w holds the thread for the same run. */
  ghost predicate SharedWith(s: State, w: nat, t: ThreadID, run: RunID) {
    exists v :: v != w && v in s.workers && Holds(s.workers[v]) && s.workers[v].thread == t && s.workers[v].run == run
  }

  /** The answer to SETNX is lost although the lock was taken; the release is not carried out; or the holder stops. */
  predicate Abandons(s: State, a: Action, t: ThreadID) {
    match a
    case Work(w, reply, _) =>
      w in s.workers && match s.workers[w] {
        case Locking(_, thread) => thread == t && reply == Error(true) && t !in s.redis.locks
        case Releasing(_, _) => reply == Error(false) && Guards(s, w, t)
        case _ => false
      }
    case Die(w) => Guards(s, w, t)
    case _ => false
  }

  ghost predicate Orphans(s: State, a: Action, t: ThreadID) {
    Abandons(s, a, t) && !SharedWith(s, a.worker, t, s.workers[a.worker].run)
  }

  // One step -----------------------------------------------------------------------------------------

  /** What the worker's own step makes of its hold on a thread. */
  lemma {:induction false} OwnHold(s: State, a: Action)
    requires Enabled(s, a) && a.Work?
    ensures var p, u := s.workers[a.worker], Apply(s, a);
            && (a.worker in u.workers && Holds(p) ==>
                  Holds(u.workers[a.worker]) && u.workers[a.worker].thread == p.thread
                      && u.workers[a.worker].run == p.run)
            && (Holds(p) && !p.Releasing? ==> a.worker in u.workers)
            && (p.Releasing? ==> a.worker !in u.workers)
  {
    hide Without, WithoutFirst, Command;
  }

  /** The workers that do not step, and the locks under a step that is no worker's. */
  lemma {:induction false} OthersHold(s: State, a: Action, w: nat)
    requires Enabled(s, a)
    ensures w in Apply(s, a).workers && !((a.Work? || a.Pop?) && a.worker == w) ==>
        w in s.workers && Apply(s, a).workers[w] == s.workers[w]
    ensures w in s.workers && !((a.Work? || a.Die?) && a.worker == w) ==>
        w in Apply(s, a).workers && Apply(s, a).workers[w] == s.workers[w]
    ensures a.Pop? ==> Apply(s, a).workers[a.worker].Popped?
  {
    hide Command, NextPhase, CallCommand, NextCall;
  }

  lemma {:induction false} OtherLocks(s: State, a: Action)
    requires Enabled(s, a) && !a.Work? && !a.Expire?
    ensures Apply(s, a).redis.locks == s.redis.locks
  {
    hide Without, WithoutFirst;
  }

  /** What a worker's step does to the lock of a thread, exactly. */
  lemma {:induction false} LockAfterWork(s: State, a: Action, t: ThreadID)
    requires Enabled(s, a) && a.Work?
    ensures var p, locks, later := s.workers[a.worker], s.redis.locks, Apply(s, a).redis.locks;
            if p.Locking? && p.thread == t && t !in locks && a.reply != Error(false) then t in later
                && later[t] == p.run
            else if p.Releasing? && p.thread == t && t in locks && locks[t] == p.run && a.reply != Error(false)
                then t !in later
            else (t in later <==> t in locks) && (t in locks ==> later[t] == locks[t])
  {
    hide Without, WithoutFirst, NextPhase;
  }

  /** The taker of a free lock comes to hold it exactly when it gets the answer. */
  lemma {:induction false} TakerHolds(s: State, a: Action)
    requires Enabled(s, a) && a.Work? && s.workers[a.worker].Locking?
    ensures var p, u := s.workers[a.worker], Apply(s, a);
            && a.worker in u.workers && u.workers[a.worker].run == p.run
            && (Holds(u.workers[a.worker]) <==> a.reply.Done? && p.thread !in s.redis.locks)
            && (Holds(u.workers[a.worker]) ==> u.workers[a.worker].thread == p.thread)
  {
    hide Command;
  }

  lemma {:induction false} StillGuards(s: State, a: Action, w: nat, t: ThreadID)
    requires Enabled(s, a) && w in s.workers && Holds(s.workers[w]) && s.workers[w].thread == t
    requires !((a.Work? || a.Die?) && a.worker == w)
    requires t in Apply(s, a).redis.locks && Apply(s, a).redis.locks[t] == s.workers[w].run
    ensures w in Apply(s, a).workers && Guards(Apply(s, a), w, t)
  {
    hide Apply;
    OthersHold(s, a, w);
  }

  /** Whoever guards after a step and did not step guarded the same run before, as far as its own hold goes. */
  lemma {:induction false} GuardedBefore(s: State, a: Action, w: nat, t: ThreadID)
    requires Enabled(s, a) && Guards(Apply(s, a), w, t) && !(a.Work? && a.worker == w)
    ensures w in s.workers && Holds(s.workers[w]) && s.workers[w].thread == t
    ensures s.workers[w].run == Apply(s, a).redis.locks[t] && !(a.Die? && a.worker == w)
  {
    hide Command, NextPhase, CallCommand, NextCall;
  }

  lemma {:induction false} AbandonedLockStays(s: State, a: Action, t: ThreadID)
    requires Enabled(s, a) && Abandons(s, a, t)
    ensures var run, u := s.workers[a.worker].run, Apply(s, a);
            t in u.redis.locks && u.redis.locks[t] == run && !Guards(u, a.worker, t)
  {
    hide Apply;
    if a.Work? {
      LockAfterWork(s, a, t);
      if s.workers[a.worker].Locking? { TakerHolds(s, a); } else { OwnHold(s, a); }
    } else {
      OtherLocks(s, a);
      Gone(s, a);
    }
  }

  lemma {:induction false} Gone(s: State, a: Action)
    requires Enabled(s, a) && a.Die?
    ensures a.worker !in Apply(s, a).workers
  {
  }

  lemma {:induction false} OrphansLeaveNone(s: State, a: Action, t: ThreadID)
    requires Enabled(s, a) && Orphans(s, a, t)
    ensures Orphaned(Apply(s, a), t)
  {
    hide Apply, Guards;
    AbandonedLockStays(s, a, t);
    var u := Apply(s, a);
    forall w | w in u.workers
      ensures !Guards(u, w, t)
    {
      if Guards(u, w, t) && w != a.worker {
        GuardedBefore(s, a, w, t);
      }
    }
  }

  /** The lock is new: its taker did not get the answer. */
  lemma {:induction false} NewOrphan(s: State, a: Action, t: ThreadID)
    requires Enabled(s, a) && t !in s.redis.locks && Orphaned(Apply(s, a), t)
    ensures Abandons(s, a, t) && Apply(s, a).redis.locks[t] == s.workers[a.worker].run
  {
    hide Apply;
    if a.Work? {
      LockAfterWork(s, a, t);
      if s.workers[a.worker].Locking? {
        TakerHolds(s, a);
        assert !Guards(Apply(s, a), a.worker, t);
      }
    } else if !a.Expire? {
      OtherLocks(s, a);
    } else {
      ExpiredIsGone(s, a);
    }
  }

  lemma {:induction false} ExpiredIsGone(s: State, a: Action)
    requires Enabled(s, a) && a.Expire?
    ensures Apply(s, a).redis.locks == s.redis.locks - {a.thread}
  {
  }

  lemma {:induction false} LockKept(s: State, a: Action, t: ThreadID)
    requires Enabled(s, a) && t in s.redis.locks && t in Apply(s, a).redis.locks
    ensures Apply(s, a).redis.locks[t] == s.redis.locks[t]
  {
    hide Apply;
    if a.Work? {
      LockAfterWork(s, a, t);
    } else if a.Expire? {
      ExpiredIsGone(s, a);
    } else {
      OtherLocks(s, a);
    }
  }

  /** The lock is old: its guard has stopped, or its release was not carried out. */
  lemma {:induction false} LeftOrphan(s: State, a: Action, t: ThreadID, w: nat)
    requires Enabled(s, a) && Guards(s, w, t) && Orphaned(Apply(s, a), t)
    ensures Abandons(s, a, t) && a.worker == w
  {
    hide Apply;
    LockKept(s, a, t);
    var u := Apply(s, a);
    if !((a.Work? || a.Die?) && a.worker == w) {
      StillGuards(s, a, w, t);
    } else if a.Work? {
      OwnHold(s, a);
      LockAfterWork(s, a, t);
      assert a.worker in u.workers ==> !Guards(u, a.worker, t);
    }
  }

  lemma {:induction false} OrphansExactly(s: State, a: Action, t: ThreadID)
    requires Enabled(s, a) && !Orphaned(s, t)
    ensures Orphaned(Apply(s, a), t) <==> Orphans(s, a, t)
  {
    hide Apply, Guards;
    if Orphans(s, a, t) {
      OrphansLeaveNone(s, a, t);
    } else if Orphaned(Apply(s, a), t) {
      if t !in s.redis.locks {
        NewOrphan(s, a, t);
      } else {
        var w :| w in s.workers && Guards(s, w, t);
        LeftOrphan(s, a, t, w);
      }
      AbandonedLockStays(s, a, t);
      forall v | v != a.worker && v in s.workers && Holds(s.workers[v]) && s.workers[v].thread == t
        ensures s.workers[v].run != s.workers[a.worker].run
      {
        if s.workers[v].run == s.workers[a.worker].run { StillGuards(s, a, v, t); }
      }
    }
  }

  // An orphaned lock stays until it expires --------------------------------------------------------------

  lemma {:induction false} OrphanStaysExactly(s: State, a: Action, t: ThreadID)
    requires Enabled(s, a) && Orphaned(s, t)
    ensures Orphaned(Apply(s, a), t) <==> a != Expire(t)
    ensures a != Expire(t) ==> Apply(s, a).redis.locks[t] == s.redis.locks[t]
  {
    hide Apply;
    var u := Apply(s, a);
    if a == Expire(t) {
      ExpiredIsGone(s, a);
    } else {
      OrphanLockStays(s, a, t);
      forall w | w in u.workers
        ensures !Guards(u, w, t)
      {
        if Guards(u, w, t) { GuardedAlready(s, a, w, t); }
      }
    }
  }

  lemma {:induction false} OrphanLockStays(s: State, a: Action, t: ThreadID)
    requires Enabled(s, a) && Orphaned(s, t) && a != Expire(t)
    ensures t in Apply(s, a).redis.locks && Apply(s, a).redis.locks[t] == s.redis.locks[t]
  {
    hide Apply;
    if a.Work? {
      LockAfterWork(s, a, t);
      assert !Guards(s, a.worker, t);
    } else if a.Expire? {
      ExpiredIsGone(s, a);
    } else {
      OtherLocks(s, a);
    }
  }

  /** While a lock stays in place nobody comes to guard it. */
  lemma {:induction false} GuardedAlready(s: State, a: Action, w: nat, t: ThreadID)
    requires Enabled(s, a) && Guards(Apply(s, a), w, t) && t in s.redis.locks
    requires Apply(s, a).redis.locks[t] == s.redis.locks[t]
    ensures w in s.workers && Guards(s, w, t)
  {
    hide Apply;
    if a.Work? && a.worker == w {
      WorkOnHolding(s, a);
    } else {
      GuardedBefore(s, a, w, t);
    }
  }

  // Whole runs --------------------------------------------------------------------------------------------

  predicate NeverExpires(acts: seq<Action>, t: ThreadID) {
    forall i :: 0 <= i < |acts| ==> acts[i] != Expire(t)
  }

  ghost predicate NeverOrphans(s: State, acts: seq<Action>, t: ThreadID)
    requires Run(s, acts)
    decreases |acts|
  {
    acts == [] || (!Orphans(s, acts[0], t) && NeverOrphans(Apply(s, acts[0]), acts[1..], t))
  }

  /** The worker takes itself to hold the thread. */
  predicate HoldsThread(s: State, w: nat, t: ThreadID) {
    w in s.workers && Holds(s.workers[w]) && s.workers[w].thread == t
  }

  /** An orphaned lock stays, with its run, and no worker comes to hold the thread, for as long as the lock does not
      expire. */
  lemma {:induction false} OrphanBlocksThread(s: State, acts: seq<Action>, t: ThreadID)
    requires Orphaned(s, t) && Run(s, acts) && NeverExpires(acts, t)
    ensures var u := After(s, acts); Orphaned(u, t) && u.redis.locks[t] == s.redis.locks[t]
    ensures forall w :: HoldsThread(After(s, acts), w, t) ==> HoldsThread(s, w, t)
    decreases |acts|
  {
    hide Apply, Orphaned, HoldsThread;
    if acts != [] {
      OrphanStaysExactly(s, acts[0], t);
      NoNewHolder(s, acts[0], t);
      OrphanBlocksThread(Apply(s, acts[0]), acts[1..], t);
    }
  }

  lemma {:induction false} NoNewHolder(s: State, a: Action, t: ThreadID)
    requires Enabled(s, a) && Orphaned(s, t)
    ensures t in s.redis.locks
    ensures forall w :: HoldsThread(Apply(s, a), w, t) ==> HoldsThread(s, w, t)
  {
    hide Apply;
    forall w | HoldsThread(Apply(s, a), w, t)
      ensures HoldsThread(s, w, t)
    {
      if a.Work? && a.worker == w { WorkOnHolding(s, a); } else { OthersHold(s, a, w); }
    }
  }

  lemma {:induction false} OrphanedInRun(s: State, acts: seq<Action>, t: ThreadID)
    requires Run(s, acts) && NeverExpires(acts, t)
    ensures Orphaned(After(s, acts), t) <==> Orphaned(s, t) || !NeverOrphans(s, acts, t)
    decreases |acts|
  {
    hide Enabled, Apply, Orphaned, Orphans;
    if acts != [] {
      if Orphaned(s, t) {
        OrphanStaysExactly(s, acts[0], t);
      } else {
        OrphansExactly(s, acts[0], t);
      }
      OrphanedInRun(Apply(s, acts[0]), acts[1..], t);
    }
  }

  /** The exact condition for a run: as long as the thread's lock does not expire, it is left without a holder at the
      end if and only if on the way an answer to SETNX was lost, a release was not carried out, or a holder stopped,
      with no other worker holding the thread for the same run. */
  lemma {:induction false} LockOrphanedExactly(acts: seq<Action>, t: ThreadID)
    requires Run(INIT, acts) && NeverExpires(acts, t)
    ensures Orphaned(After(INIT, acts), t) <==> !NeverOrphans(INIT, acts, t)
  {
    hide Run, After, Enabled, Apply, NeverOrphans;
    OrphanedInRun(INIT, acts, t);
  }
}
