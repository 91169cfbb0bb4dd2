/** What each operation on the request queue does to the Redis keys when no other process acts and no command fails. */
module QueueLaws {
  import opened Optional
  import opened RunQueue
  import opened RunWorker

  // LREM ---------------------------------------------------------------------------------------------------------

  /** With count 1 the first occurrence goes and nothing else. */
  lemma {:induction false} WithoutFirstExactly(front: seq<RunID>, run: RunID, back: seq<RunID>)
    requires run !in front
    ensures WithoutFirst(front + [run] + back, run) == front + back
    ensures WithoutFirst(front, run) == front
  {
    var list := front + [run] + back;
    if front == [] {
      assert list[1..] == back;
    } else {
      assert list[1..] == front[1..] + [run] + back;
      WithoutFirstExactly(front[1..], run, back);
    }
  }

  /** With count 0 every occurrence goes; what stands between them stays in order. */
  lemma {:induction false} WithoutExactly(front: seq<RunID>, run: RunID, back: seq<RunID>)
    requires run !in front
    ensures Without(front + [run] + back, run) == front + Without(back, run)
    ensures Without(front, run) == front
  {
    var list := front + [run] + back;
    if front == [] {
      assert list[1..] == back;
    } else {
      assert list[1..] == front[1..] + [run] + back;
      WithoutExactly(front[1..], run, back);
    }
  }

  // Calls --------------------------------------------------------------------------------------------------------

  lemma {:induction false} Standing(s: State)
    ensures Leads(s, [], s)
  {
  }

  /** The state in which call c stands at k and the keys are r. */
  function CallAt(s: State, c: nat, k: Call, r: Redis): State {
    State(r, s.workers, s.calls[c := k])
  }

  lemma {:induction false} Begin(s: State, c: nat, a: Action, k: Call, r: Redis)
    requires c !in s.calls && Enabled(s, a) && Apply(s, a) == CallAt(s, c, k, r)
    ensures Leads(s, [a], CallAt(s, c, k, r))
  {
    hide Leads, Enabled, Apply;
    Standing(s);
    LeadsOn(s, [], s, a);
    assert [] + [a] == [a];
  }

  lemma {:induction false} GoOn(s: State, c: nat, acts: seq<Action>, k: Call, r: Redis, next: Call)
    requires c !in s.calls && Leads(s, acts, CallAt(s, c, k, r)) && NextCall(k) == Some(next)
    ensures Leads(s, acts + [Continue(c, Done)], CallAt(s, c, next, CallCommand(r, k)))
  {
    hide Leads, CallCommand, NextCall;
    LeadsOn(s, acts, CallAt(s, c, k, r), Continue(c, Done));
    assert s.calls[c := k][c := next] == s.calls[c := next];
  }

  lemma {:induction false} Return(s: State, c: nat, acts: seq<Action>, k: Call, r: Redis)
    requires c !in s.calls && Leads(s, acts, CallAt(s, c, k, r)) && NextCall(k) == None
    ensures Leads(s, acts + [Continue(c, Done)], s.(redis := CallCommand(r, k)))
  {
    hide Leads, CallCommand, NextCall;
    LeadsOn(s, acts, CallAt(s, c, k, r), Continue(c, Done));
    assert s.calls[c := k] - {c} == s.calls;
  }

  /** Enqueued: the hash holds the thread, the run stands at the end of the list, and all else is as before. */
  lemma {:induction false} EnqueueExactly(s: State, c: nat, run: RunID, thread: ThreadID)
    requires c !in s.calls && run != ""
    ensures var r := s.redis;
            Leads(s, [Enqueue(c, run, thread)] + [Continue(c, Done)],
                  s.(redis := Redis(r.list + [run], r.queued[run := thread], r.locks, r.paused)))
  {
    hide Leads, CallAt;
    var r := s.redis.(queued := s.redis.queued[run := thread]);
    assert Apply(s, Enqueue(c, run, thread)) == CallAt(s, c, Pushing(run), r) by { CallIs(s, c, Pushing(run), r); }
    Begin(s, c, Enqueue(c, run, thread), Pushing(run), r);
    Return(s, c, [Enqueue(c, run, thread)], Pushing(run), r);
  }

  lemma {:induction false} CallIs(s: State, c: nat, k: Call, r: Redis)
    ensures CallAt(s, c, k, r) == State(r, s.workers, s.calls[c := k])
  {
  }

  /** Steered: the run stands at the head of the list, and no longer at its first place there; all else is as before. */
  lemma {:induction false} SteerExactly(s: State, c: nat, run: RunID)
    requires c !in s.calls && run in s.redis.queued
    ensures Leads(s, [Steer(c, run)] + [Continue(c, Done)] + [Continue(c, Done)],
                  s.(redis := s.redis.(list := [run] + WithoutFirst(s.redis.list, run))))
  {
    hide Leads, CallAt, WithoutFirst;
    var a := [Steer(c, run)];
    CallIs(s, c, Taking(run), s.redis);
    Begin(s, c, Steer(c, run), Taking(run), s.redis);
    GoOn(s, c, a, Taking(run), s.redis, Lifting(run));
    Return(s, c, a + [Continue(c, Done)], Lifting(run), CallCommand(s.redis, Taking(run)));
  }

  /** Removed: neither the list nor the hash has the run any more, and all else is as before. */
  lemma {:induction false} RemoveExactly(s: State, c: nat, run: RunID)
    requires c !in s.calls && run in s.redis.queued
    ensures Leads(s, [Remove(c, run)] + [Continue(c, Done)] + [Continue(c, Done)],
                  s.(redis := Redis(Without(s.redis.list, run), s.redis.queued - {run}, s.redis.locks, s.redis.paused)))
  {
    hide Leads, CallAt, Without;
    var a := [Remove(c, run)];
    CallIs(s, c, Clearing(run), s.redis);
    Begin(s, c, Remove(c, run), Clearing(run), s.redis);
    GoOn(s, c, a, Clearing(run), s.redis, Erasing(run));
    Return(s, c, a + [Continue(c, Done)], Erasing(run), CallCommand(s.redis, Clearing(run)));
  }

  // Workers ------------------------------------------------------------------------------------------------------

  /** The state in which worker w stands at p and the keys are r. */
  function Standpoint(s: State, w: nat, p: Phase, r: Redis): State {
    State(r, s.workers[w := p], s.calls)
  }

  /** n commands of worker w in a row, the run being runnable or not. */
  function Works(w: nat, runnable: bool, n: nat): seq<Action> {
    if n == 0 then [] else Works(w, runnable, n - 1) + [Work(w, Done, runnable)]
  }

  lemma {:induction false} OneMore(s: State, first: Action, w: nat, runnable: bool, n: nat, u: State)
    requires Leads(s, [first] + Works(w, runnable, n), u) && w in u.workers
    ensures Leads(s, [first] + Works(w, runnable, n + 1), Apply(u, Work(w, Done, runnable)))
  {
    hide Leads, Apply;
    LeadsOn(s, [first] + Works(w, runnable, n), u, Work(w, Done, runnable));
    assert [first] + Works(w, runnable, n) + [Work(w, Done, runnable)] == [first] + Works(w, runnable, n + 1);
  }

  lemma {:induction false} Popping(s: State, w: nat, runnable: bool, front: seq<RunID>, run: RunID)
    requires w !in s.workers && s.redis.list == front + [run]
    ensures Leads(s, [Pop(w)] + Works(w, runnable, 0),
                  Standpoint(s, w, Popped(run), Redis(front, s.redis.queued, s.redis.locks, s.redis.paused)))
  {
    hide Leads;
    Standing(s);
    LeadsOn(s, [], s, Pop(w));
    assert [] + [Pop(w)] == [Pop(w)] + Works(w, runnable, 0);
    assert s.redis.list[..|front|] == front;
  }

  /** The worker's next command, from one standpoint to the next. */
  lemma {:induction false} Advance(s: State, w: nat, n: nat, p: Phase, at: Redis, q: Phase, to: Redis)
    requires w !in s.workers && Leads(s, [Pop(w)] + Works(w, true, n), Standpoint(s, w, p, at))
    requires Command(at, p) == to && NextPhase(at, p, Done, true) == Some(q)
    ensures Leads(s, [Pop(w)] + Works(w, true, n + 1), Standpoint(s, w, q, to))
  {
    hide Leads, Command, NextPhase;
    OneMore(s, Pop(w), w, true, n, Standpoint(s, w, p, at));
    assert s.workers[w := p][w := q] == s.workers[w := q];
  }

  /** The worker's last command. */
  lemma {:induction false} Leave(s: State, w: nat, n: nat, p: Phase, at: Redis, to: Redis)
    requires w !in s.workers && Leads(s, [Pop(w)] + Works(w, true, n), Standpoint(s, w, p, at))
    requires Command(at, p) == to && NextPhase(at, p, Done, true) == None
    ensures Leads(s, [Pop(w)] + Works(w, true, n + 1), s.(redis := to))
  {
    hide Leads, Command, NextPhase;
    OneMore(s, Pop(w), w, true, n, Standpoint(s, w, p, at));
    assert s.workers[w := p] - {w} == s.workers;
  }

  /** A worker takes the run at the end of the list, takes the lock of its thread, and comes to execute it; by then
      neither list nor hash has the run. */
  lemma {:induction false} ExecutesExactly(s: State, w: nat, front: seq<RunID>, run: RunID, thread: ThreadID)
    requires w !in s.workers && s.redis.list == front + [run]
    requires run in s.redis.queued && s.redis.queued[run] == thread
    requires thread !in s.redis.paused && thread !in s.redis.locks
    ensures Leads(s, [Pop(w)] + Works(w, true, 7),
                  Standpoint(s, w, Executing(run, thread),
                             Redis(Without(front, run), s.redis.queued - {run}, s.redis.locks[thread := run],
                                   s.redis.paused)))
  {
    hide Leads, Without, Works, Standpoint;
    var q, locks, paused := s.redis.queued, s.redis.locks[thread := run], s.redis.paused;
    var r0, r1 := Redis(front, q, s.redis.locks, paused), Redis(front, q, locks, paused);
    var r2 := Redis(Without(front, run), q, locks, paused);
    var r3 := Redis(Without(front, run), q - {run}, locks, paused);
    Popping(s, w, true, front, run);
    Advance(s, w, 0, Popped(run), r0, Checking(run, thread), r0);
    Advance(s, w, 1, Checking(run, thread), r0, Locking(run, thread), r0);
    Advance(s, w, 2, Locking(run, thread), r0, Looking(run, thread), r1);
    Advance(s, w, 3, Looking(run, thread), r1, Unlinking(run, thread), r1);
    Advance(s, w, 4, Unlinking(run, thread), r1, Deleting(run, thread), r2);
    Advance(s, w, 5, Deleting(run, thread), r2, Loading(run, thread), r3);
    Advance(s, w, 6, Loading(run, thread), r3, Executing(run, thread), r3);
  }

  /** Once it has executed the run, the lock is given back and nothing is left of it. */
  lemma {:induction false} FinishesExactly(s: State, w: nat, front: seq<RunID>, run: RunID, thread: ThreadID)
    requires w !in s.workers && s.redis.list == front + [run]
    requires run in s.redis.queued && s.redis.queued[run] == thread
    requires thread !in s.redis.paused && thread !in s.redis.locks
    ensures Leads(s, [Pop(w)] + Works(w, true, 9),
                  s.(redis := Redis(Without(front, run), s.redis.queued - {run}, s.redis.locks, s.redis.paused)))
  {
    hide Leads, Without, Works, Standpoint;
    var q, locks, paused := s.redis.queued - {run}, s.redis.locks[thread := run], s.redis.paused;
    var r := Redis(Without(front, run), q, locks, paused);
    ExecutesExactly(s, w, front, run, thread);
    Advance(s, w, 7, Executing(run, thread), r, Releasing(run, thread), r);
    assert locks - {thread} == s.redis.locks;
    Leave(s, w, 8, Releasing(run, thread), r, Redis(Without(front, run), q, s.redis.locks, paused));
  }

  /** A run whose thread is paused, or locked by another worker, goes back to where it was. */
  lemma {:induction false} GoesBackExactly(s: State, w: nat, front: seq<RunID>, run: RunID, thread: ThreadID)
    requires w !in s.workers && s.redis.list == front + [run]
    requires run in s.redis.queued && s.redis.queued[run] == thread
    ensures thread in s.redis.paused ==> Leads(s, [Pop(w)] + Works(w, true, 3), s)
    ensures thread !in s.redis.paused && thread in s.redis.locks ==> Leads(s, [Pop(w)] + Works(w, true, 4), s)
  {
    hide Leads, Works, Standpoint;
    var r := Redis(front, s.redis.queued, s.redis.locks, s.redis.paused);
    Popping(s, w, true, front, run);
    Advance(s, w, 0, Popped(run), r, Checking(run, thread), r);
    if thread in s.redis.paused {
      Advance(s, w, 1, Checking(run, thread), r, Requeueing(run), r);
      Leave(s, w, 2, Requeueing(run), r, s.redis);
    } else if thread in s.redis.locks {
      Advance(s, w, 1, Checking(run, thread), r, Locking(run, thread), r);
      Advance(s, w, 2, Locking(run, thread), r, Requeueing(run), r);
      Leave(s, w, 3, Requeueing(run), r, s.redis);
    }
  }

  /** A run that is in the list but has no hash is dropped. */
  lemma {:induction false} UnknownIsDropped(s: State, w: nat, front: seq<RunID>, run: RunID)
    requires w !in s.workers && s.redis.list == front + [run] && run !in s.redis.queued
    ensures Leads(s, [Pop(w)] + Works(w, true, 1), s.(redis := s.redis.(list := front)))
  {
    hide Leads, Works, Standpoint;
    var r := Redis(front, s.redis.queued, s.redis.locks, s.redis.paused);
    Popping(s, w, true, front, run);
    Leave(s, w, 0, Popped(run), r, r);
  }

  // What may go wrong ----------------------------------------------------------------------------------------------

  /** At any time a thread is paused or resumed, a lock expires, a worker dies or a call is given up. */
  lemma {:induction false} InterferenceExactly(s: State, t: ThreadID, w: nat, c: nat)
    ensures Enabled(s, Pause(t)) && Apply(s, Pause(t)) == s.(redis := s.redis.(paused := s.redis.paused + {t}))
    ensures Enabled(s, Resume(t)) && Apply(s, Resume(t)) == s.(redis := s.redis.(paused := s.redis.paused - {t}))
    ensures Enabled(s, Expire(t)) && Apply(s, Expire(t)) == s.(redis := s.redis.(locks := s.redis.locks - {t}))
    ensures w in s.workers ==> Enabled(s, Die(w)) && Apply(s, Die(w)) == s.(workers := s.workers - {w})
    ensures c in s.calls ==> Enabled(s, GiveUp(c)) && Apply(s, GiveUp(c)) == s.(calls := s.calls - {c})
  {
  }

  /** Where a worker goes on when its command ends in an error: a failed read of the hash drops the run, a failed pause
      check counts as not paused, a failed SETNX as a lock that is taken, and every other error is ignored. */
  predicate GoesOn(p: Phase, runnable: bool, next: Option<Phase>) {
    match p
    case Popped(_) => next == None
    case Checking(run, thread) => next == Some(Locking(run, thread))
    case Locking(run, _) => next == Some(Requeueing(run))
    case Requeueing(_) => next == None
    case Looking(run, thread) => next == Some(Loading(run, thread))
    case Unlinking(run, thread) => next == Some(Deleting(run, thread))
    case Deleting(run, thread) => next == Some(Loading(run, thread))
    case Loading(run, thread) => next == Some(if runnable then Executing(run, thread) else Releasing(run, thread))
    case Executing(run, thread) => next == Some(Releasing(run, thread))
    case Releasing(_, _) => next == None
  }

  /** And the command itself may or may not have been carried out. */
  lemma {:induction false} ErrorExactly(s: State, w: nat, applied: bool, runnable: bool)
    requires w in s.workers
    ensures var a := Work(w, Error(applied), runnable);
            && Enabled(s, a)
            && GoesOn(s.workers[w], runnable, if w in Apply(s, a).workers then Some(Apply(s, a).workers[w]) else None)
            && Apply(s, a).redis == (if applied then Apply(s, Work(w, Done, runnable)).redis else s.redis)
            && Apply(s, a).calls == s.calls && Apply(s, a).workers - {w} == s.workers - {w}
  {
    hide Without, WithoutFirst;
  }
}
