/** Worker.process and the methods of RequestQueue as imperative code over shared Redis keys, each command a step of
    RunQueue. */
module RunWorker {
  import opened Optional
  import opened RunQueue

  datatype Process = WorkerAt(worker: nat) | Caller(call: nat)

  function Actor(a: Action): Option<Process> {
    match a
    case Pop(w) => Some(WorkerAt(w))
    case Work(w, _, _) => Some(WorkerAt(w))
    case Die(w) => Some(WorkerAt(w))
    case Enqueue(c, _, _) => Some(Caller(c))
    case Steer(c, _) => Some(Caller(c))
    case Remove(c, _) => Some(Caller(c))
    case Continue(c, _) => Some(Caller(c))
    case GiveUp(c) => Some(Caller(c))
    case _ => None
  }

  predicate SameFor(s: State, u: State, me: Process) {
    match me
    case WorkerAt(w) => (w in s.workers <==> w in u.workers) && (w in s.workers ==> s.workers[w] == u.workers[w])
    case Caller(c) => (c in s.calls <==> c in u.calls) && (c in s.calls ==> s.calls[c] == u.calls[c])
  }

  lemma {:induction false} OthersLeaveMe(s: State, a: Action, me: Process)
    requires Enabled(s, a) && Actor(a) != Some(me)
    ensures SameFor(s, Apply(s, a), me)
  {
    hide Command, NextPhase, CallCommand;
  }

  ghost predicate Leads(s: State, acts: seq<Action>, u: State) {
    Run(s, acts) && After(s, acts) == u
  }

  lemma {:induction false} LeadsOn(s: State, acts: seq<Action>, u: State, a: Action)
    requires Leads(s, acts, u) && Enabled(u, a)
    ensures Leads(s, acts + [a], Apply(u, a))
    decreases |acts|
  {
    hide Enabled, Apply;
    if acts == [] {
      assert acts + [a] == [a] && [a][1..] == [] && u == s;
      assert Run(Apply(s, a), []) && After(Apply(s, a), []) == Apply(s, a);
      assert Run(s, [a]);
    } else {
      assert (acts + [a])[1..] == acts[1..] + [a];
      LeadsOn(Apply(s, acts[0]), acts[1..], u, a);
    }
  }

  lemma {:induction false} LRemNext(list: seq<RunID>, run: RunID, i: nat)
    requires i < |list|
    ensures Without(list[i..], run) == (if list[i] == run then [] else [list[i]]) + Without(list[i + 1..], run)
    ensures WithoutFirst(list[i..], run)
         == if list[i] == run then list[i + 1..] else [list[i]] + WithoutFirst(list[i + 1..], run)
  {
    assert list[i..][1..] == list[i + 1..];
  }

  lemma {:induction false} LRemStep(list: seq<RunID>, run: RunID, i: nat, kept: seq<RunID>)
    requires i < |list|
    ensures list[i] == run ==> kept + Without(list[i..], run) == kept + Without(list[i + 1..], run)
    ensures list[i] == run ==> WithoutFirst(list[i..], run) == list[i + 1..]
    ensures list[i] != run ==> kept + Without(list[i..], run) == (kept + [list[i]]) + Without(list[i + 1..], run)
    ensures list[i] != run ==>
        kept + WithoutFirst(list[i..], run) == (kept + [list[i]]) + WithoutFirst(list[i + 1..], run)
  {
    hide Without, WithoutFirst;
    LRemNext(list, run, i);
    var a, b := Without(list[i + 1..], run), WithoutFirst(list[i + 1..], run);
    assert kept + ([list[i]] + a) == (kept + [list[i]]) + a && kept + ([list[i]] + b) == (kept + [list[i]]) + b;
  }

  /** LREM on a list, from the left: the first occurrence, or all. */
  method RemoveFrom(list: seq<RunID>, run: RunID, all: bool) returns (kept: seq<RunID>)
    ensures kept == if all then Without(list, run) else WithoutFirst(list, run)
  {
    hide Without, WithoutFirst;
    kept := [];
    var i := 0;
    assert list[0..] == list;
    while i < |list| && (all || list[i] != run)
      invariant i <= |list|
      invariant kept + Without(list[i..], run) == Without(list, run)
      invariant !all ==> kept + WithoutFirst(list[i..], run) == WithoutFirst(list, run)
    {
      LRemStep(list, run, i, kept);
      if list[i] != run {
        kept := kept + [list[i]];
      }
      i := i + 1;
    }
    if i < |list| {
      LRemStep(list, run, i, kept);
      kept := kept + list[i + 1..];
    } else {
      NothingToRemove(list, run);
    }
  }

  lemma {:induction false} NoneStands(list: seq<RunID>, run: RunID)
    ensures run !in Without(list, run)
  {
    if list != [] { NoneStands(list[1..], run); }
  }

  lemma {:induction false} NothingToRemove(list: seq<RunID>, run: RunID)
    ensures Without(list[|list|..], run) == [] && WithoutFirst(list[|list|..], run) == []
  {
  }

  predicate Stops(a: Action, me: Process) {
    (a.Die? || a.GiveUp?) && Actor(a) == Some(me)
  }

  /** The process takes the action on a reply that is an error. */
  predicate Errs(a: Action, me: Process) {
    (a.Work? || a.Continue?) && a.reply.Error? && Actor(a) == Some(me)
  }

  datatype Outcome = Skipped | Requeued | NotRunnable | Executed

  /** RequestQueue: the Redis keys, with the processes that use them. How commands end and what others do is
      arbitrary. */
  class RequestQueue {
    const replies: nat -> Reply
    const others: nat -> seq<Action>
    const runnable: nat -> bool
    var clock: nat
    var list: seq<RunID>
    var queued: map<RunID, ThreadID>
    var locks: map<ThreadID, RunID>
    var paused: set<ThreadID>
    var workers: map<nat, Phase>
    var calls: map<nat, Call>
    ghost var trace: seq<Action>
    // the runs this code has executed, and how many of its commands have ended in an error
    ghost var executions: seq<RunID>
    ghost var refused: nat

    constructor (replies: nat -> Reply, others: nat -> seq<Action>, runnable: nat -> bool)
      ensures Valid() && Now() == INIT && trace == [] && executions == [] && refused == 0
    {
      this.replies, this.others, this.runnable := replies, others, runnable;
      clock, list, queued, locks, paused := 0, [], map[], map[], {};
      workers, calls, trace, executions, refused := map[], map[], [], [], 0;
    }

    function Keys(): Redis
      reads this
    {
      Redis(list, queued, locks, paused)
    }

    function Now(): State
      reads this
    {
      State(Keys(), workers, calls)
    }

    ghost predicate Valid()
      reads this
    {
      Leads(INIT, trace, Now())
    }

    /** The queue went on by a run of the machine, in which this process did not stop half way, executed just these
        runs, and had an error only if one of its commands ended in one. */
    twostate predicate Ran(me: Process, runs: seq<RunID>)
      reads this
    {
      && Valid() && old(trace) <= trace && executions == old(executions) + runs && old(refused) <= refused
      && old(clock) <= clock
      && forall i :: |old(trace)| <= i < |trace| ==>
           !Stops(trace[i], me) && (Errs(trace[i], me) ==> old(refused) < refused)
    }

    twostate predicate Served(me: Process)
      reads this
    {
      Ran(me, [])
    }

    /** The action was taken since the trace had the given length. */
    ghost predicate Took(from: nat, a: Action)
      reads this
    {
      exists i :: from <= i < |trace| && trace[i] == a
    }

    /** Records that the change just made to the keys was the action a. */
    method Commit(a: Action, before: State)
      requires Leads(INIT, trace, before) && Enabled(before, a) && before.workers == workers && before.calls == calls
      requires Keys() == Apply(before, a).redis
      modifies `workers, `calls, `trace
      ensures Valid() && Now() == Apply(before, a) && trace == old(trace) + [a]
    {
      hide Enabled, Apply, Leads;
      LeadsOn(INIT, trace, before, a);
      workers, calls := Apply(before, a).workers, Apply(before, a).calls;
      trace := trace + [a];
    }

    method Enact(a: Action)
      requires Valid() && Enabled(Now(), a)
      modifies this
      ensures executions == old(executions) && refused == old(refused) && clock == old(clock)
      ensures Valid() && Now() == Apply(old(Now()), a) && trace == old(trace) + [a]
    {
      hide Enabled, Apply, Leads;
      LeadsOn(INIT, trace, Now(), a);
      var u := Apply(Now(), a);
      list, queued, locks, paused := u.redis.list, u.redis.queued, u.redis.locks, u.redis.paused;
      workers, calls := u.workers, u.calls;
      trace := trace + [a];
    }

    /** Before a command: the other processes act; then the command's own fate. */
    method Turn(me: Process) returns (reply: Reply)
      requires Valid()
      modifies this
      ensures Served(me) && SameFor(old(Now()), Now(), me)
      ensures forall i :: |old(trace)| <= i < |trace| ==> Actor(trace[i]) != Some(me)
      ensures clock == old(clock) + 1 && reply == replies(clock) && refused == old(refused) + if reply.Error? then 1
          else 0
    {
      hide Enabled, Apply, Leads;
      clock := clock + 1;
      var acts := others(clock);
      for i := 0 to |acts|
        invariant Served(me) && SameFor(old(Now()), Now(), me) && refused == old(refused) && clock == old(clock) + 1
        invariant forall i :: |old(trace)| <= i < |trace| ==> Actor(trace[i]) != Some(me)
      {
        if Actor(acts[i]) != Some(me) && Enabled(Now(), acts[i]) {
          OthersLeaveMe(Now(), acts[i], me);
          Enact(acts[i]);
        }
      }
      reply := replies(clock);
      if reply.Error? {
        refused := refused + 1;
      }
    }

    // Commands ---------------------------------------------------------------------------------

    method RPush(run: RunID)
      modifies `list
      ensures Keys() == RunQueue.RPush(old(Keys()), run)
    {
      list := list + [run];
    }

    method LPush(run: RunID)
      modifies `list
      ensures Keys() == RunQueue.LPush(old(Keys()), run)
    {
      list := [run] + list;
    }

    /** LREM with count 1, or 0 for all. */
    method LRem(run: RunID, all: bool)
      modifies `list
      ensures Keys() == if all then LRemAll(old(Keys()), run) else LRemFirst(old(Keys()), run)
    {
      list := RemoveFrom(list, run, all);
    }

    method Del(run: RunID)
      modifies `queued
      ensures Keys() == RunQueue.Del(old(Keys()), run)
    {
      queued := queued - {run};
    }

    method SetNX(thread: ThreadID, run: RunID) returns (ok: bool)
      modifies `locks
      ensures Keys() == RunQueue.SetNX(old(Keys()), thread, run) && ok == (thread !in old(locks))
    {
      ok := thread !in locks;
      if ok {
        locks := locks[thread := run];
      }
    }

    method ReleaseScript(thread: ThreadID, run: RunID)
      modifies `locks
      ensures Keys() == ReleaseLock(old(Keys()), thread, run)
    {
      if thread in locks && locks[thread] == run {
        locks := locks - {thread};
      }
    }

    /** The next command of a call, with the other processes acting before it. */
    method Step(c: nat, k: Call) returns (reply: Reply)
      requires Valid() && c in calls && calls[c] == k
      modifies this
      ensures Served(Caller(c))
      ensures if NextCall(k).Some? then c in calls && calls[c] == NextCall(k).value else c !in calls
      ensures reply.Done? ==>
          (k.Pushing? ==> list != [] && list[|list| - 1] == k.run) && (k.Lifting? ==> list != [] && list[0] == k.run)
      ensures reply.Done? ==> (k.Clearing? ==> k.run !in list) && (k.Erasing? ==> k.run !in queued)
      ensures reply.Error? ==> old(refused) < refused
    {
      hide Leads, Without, WithoutFirst;
      reply := Turn(Caller(c));
      var before := Now();
      NoneStands(list, k.run);
      if reply != Error(false) {
        match k {
          case Pushing(run) => RPush(run);
          case Taking(run) => LRem(run, false);
          case Lifting(run) => LPush(run);
          case Clearing(run) => LRem(run, true);
          case Erasing(run) => Del(run);
        }
      }
      Commit(Continue(c, reply), before);
    }

    // The calls of the API ---------------------------------------------------------------------------

    /** HSET, EXPIRE, RPUSH: enqueued means that the hash was written with this thread and the run put into the list. */
    method Enqueue(c: nat, run: RunID, thread: ThreadID) returns (ok: bool)
      requires Valid() && c !in calls
      modifies this
      ensures Valid() && old(trace) <= trace && c !in calls && old(refused) <= refused
      ensures ok ==> list != [] && list[|list| - 1] == run && Took(|old(trace)|, RunQueue.Enqueue(c, run, thread))
      ensures !ok && run != "" ==> old(refused) < refused
      ensures run == "" ==> !ok && Now() == old(Now())
    {
      hide Leads;
      if run == "" {
        return false;
      }
      var stored := StoreItem(c, run, thread);
      if !stored {
        return false;
      }
      ghost var written :| |old(trace)| <= written < |trace| && trace[written] == RunQueue.Enqueue(c, run, thread);
      var expiry := Turn(Caller(c));
      if expiry.Error? {
        Commit(GiveUp(c), Now());
        return false;
      }
      var reply := Step(c, Pushing(run));
      assert trace[written] == RunQueue.Enqueue(c, run, thread);
      return reply.Done?;
    }

    /** HSET; after an error nothing more is done, whether or not the hash was written. */
    method StoreItem(c: nat, run: RunID, thread: ThreadID) returns (ok: bool)
      requires Valid() && c !in calls && run != ""
      modifies this
      ensures Valid() && old(trace) <= trace && old(refused) <= refused && (!ok ==> old(refused) < refused)
      ensures if ok then c in calls && calls[c] == Pushing(run) && Took(|old(trace)|, RunQueue.Enqueue(c, run, thread))
          else c !in calls
    {
      hide Leads;
      var reply := Turn(Caller(c));
      var before := Now();
      if reply != Error(false) {
        queued := queued[run := thread];
        Commit(RunQueue.Enqueue(c, run, thread), before);
        assert trace[|trace| - 1] == RunQueue.Enqueue(c, run, thread);
      }
      if reply == Error(true) {
        Commit(GiveUp(c), Now());
      }
      ok := reply.Done?;
    }

    method Steer(c: nat, run: RunID) returns (ok: bool)
      requires Valid() && c !in calls
      modifies this
      ensures Served(Caller(c)) && c !in calls
      ensures ok ==> list != [] && list[0] == run
      ensures ok ==> Took(|old(trace)|, RunQueue.Steer(c, run))
      ensures !ok ==> old(refused) < refused || run !in queued
    {
      hide Leads;
      var reply := Turn(Caller(c));
      if reply.Error? || run !in queued {
        return false;
      }
      Commit(RunQueue.Steer(c, run), Now());
      ghost var taken := |trace| - 1;
      reply := Step(c, Taking(run));
      reply := Step(c, Lifting(run));
      assert trace[taken] == RunQueue.Steer(c, run);
      return reply.Done?;
    }

    method Remove(c: nat, run: RunID) returns (found: bool)
      requires Valid() && c !in calls
      modifies this
      ensures Served(Caller(c)) && c !in calls
      ensures found <==> Took(|old(trace)|, RunQueue.Remove(c, run))
      ensures old(refused) < refused || run !in queued
    {
      hide Leads;
      var reply := Turn(Caller(c));
      if reply.Error? || run !in queued {
        return false;
      }
      Commit(RunQueue.Remove(c, run), Now());
      ghost var taken := |trace| - 1;
      reply := Step(c, Clearing(run));
      reply := Step(c, Erasing(run));
      assert trace[taken] == RunQueue.Remove(c, run);
      return true;
    }

    // The worker -------------------------------------------------------------------------------------

    /** BRPOP; when its answer is lost, the popped run is in nobody's hands. */
    method Dequeue(w: nat) returns (run: Option<RunID>)
      requires Valid() && w !in workers
      modifies this
      ensures Valid() && old(trace) <= trace && executions == old(executions)
      ensures run.Some? ==> Served(WorkerAt(w)) && w in workers && workers[w] == Popped(run.value)
      ensures run.None? ==> w !in workers && (old(refused) < refused || list == [])
      ensures if Took(|old(trace)|, Pop(w)) then replies(clock) != Error(false)
              else replies(clock) == Error(false) || list == []
    {
      hide Leads;
      var reply := Turn(WorkerAt(w));
      assert !Took(|old(trace)|, Pop(w));
      if reply == Error(false) || list == [] {
        return None;
      }
      var before := Now();
      ghost var popped := |trace|;
      run := Some(list[|list| - 1]);
      list := list[..|list| - 1];
      Commit(Pop(w), before);
      if reply.Error? {
        Commit(Die(w), Now());
        run := None;
      }
      assert trace[popped] == Pop(w);
    }

    /** The thread of a queued run; nothing when the read fails or the run is not queued. */
    method GetQueued(w: nat, run: RunID) returns (thread: Option<ThreadID>)
      requires Valid() && w in workers && workers[w] == Popped(run)
      modifies this
      ensures Served(WorkerAt(w))
      ensures if thread.Some? then w in workers && workers[w] == Checking(run, thread.value) && run in queued
          && queued[run] == thread.value
              else w !in workers && (old(refused) < refused || run !in queued)
    {
      hide Leads;
      var reply := Turn(WorkerAt(w));
      thread := if reply.Done? && run in queued then Some(queued[run]) else None;
      Commit(Work(w, reply, false), Now());
    }

    method IsThreadPaused(w: nat, run: RunID, thread: ThreadID) returns (isPaused: bool)
      requires Valid() && w in workers && workers[w] == Checking(run, thread)
      modifies this
      ensures Served(WorkerAt(w)) && w in workers && workers[w] == if isPaused then Requeueing(run)
          else Locking(run, thread)
      ensures isPaused ==> thread in paused
      ensures !isPaused ==> old(refused) < refused || thread !in paused
    {
      hide Leads;
      var reply := Turn(WorkerAt(w));
      isPaused := reply.Done? && thread in paused;
      Commit(Work(w, reply, false), Now());
    }

    method AcquireThreadLock(w: nat, run: RunID, thread: ThreadID) returns (acquired: bool)
      requires Valid() && w in workers && workers[w] == Locking(run, thread)
      modifies this
      ensures Served(WorkerAt(w)) && w in workers && workers[w] == if acquired then Looking(run, thread)
          else Requeueing(run)
      ensures acquired ==> thread in locks && locks[thread] == run
      ensures !acquired ==> old(refused) < refused || thread in locks
    {
      hide Leads;
      var reply := Turn(WorkerAt(w));
      var before := Now();
      acquired := false;
      if reply != Error(false) {
        acquired := SetNX(thread, run);
      }
      acquired := acquired && reply.Done?;
      Commit(Work(w, reply, false), before);
    }

    /** An error is ignored. */
    method Requeue(w: nat, run: RunID)
      requires Valid() && w in workers && workers[w] == Requeueing(run)
      modifies this
      ensures Served(WorkerAt(w)) && w !in workers && (old(refused) < refused || run in list)
    {
      hide Leads;
      var reply := Turn(WorkerAt(w));
      var before := Now();
      if reply != Error(false) {
        RPush(run);
      }
      Commit(Work(w, reply, false), before);
    }

    /** Remove, as the worker calls it once it has the lock; errors are ignored. */
    method RemoveLocked(w: nat, run: RunID, thread: ThreadID)
      requires Valid() && w in workers && workers[w] == Looking(run, thread)
      modifies this
      ensures Served(WorkerAt(w)) && w in workers && workers[w] == Loading(run, thread)
      ensures old(refused) < refused || run !in queued
    {
      hide Leads;
      var present := Exists(w, run, thread);
      if present {
        Unlink(w, run, thread);
        Erase(w, run, thread);
      }
    }

    method Exists(w: nat, run: RunID, thread: ThreadID) returns (present: bool)
      requires Valid() && w in workers && workers[w] == Looking(run, thread)
      modifies this
      ensures Served(WorkerAt(w)) && w in workers && workers[w] == if present then Unlinking(run, thread)
          else Loading(run, thread)
      ensures !present ==> old(refused) < refused || run !in queued
    {
      hide Leads;
      var reply := Turn(WorkerAt(w));
      present := reply.Done? && run in queued;
      Commit(Work(w, reply, false), Now());
    }

    method Unlink(w: nat, run: RunID, thread: ThreadID)
      requires Valid() && w in workers && workers[w] == Unlinking(run, thread)
      modifies this
      ensures Served(WorkerAt(w)) && w in workers && workers[w] == Deleting(run, thread)
    {
      hide Leads;
      var reply := Turn(WorkerAt(w));
      var before := Now();
      if reply != Error(false) {
        LRem(run, true);
      }
      Commit(Work(w, reply, false), before);
    }

    method Erase(w: nat, run: RunID, thread: ThreadID)
      requires Valid() && w in workers && workers[w] == Deleting(run, thread)
      modifies this
      ensures Served(WorkerAt(w)) && w in workers && workers[w] == Loading(run, thread)
      ensures old(refused) < refused || run !in queued
    {
      hide Leads;
      var reply := Turn(WorkerAt(w));
      var before := Now();
      if reply != Error(false) {
        Del(run);
      }
      Commit(Work(w, reply, false), before);
    }

    /** The run's row, as it is when it is read: absent, unreadable or finished rows are not executed. */
    method LoadRun(w: nat, run: RunID, thread: ThreadID) returns (canRun: bool)
      requires Valid() && w in workers && workers[w] == Loading(run, thread)
      modifies this
      ensures Served(WorkerAt(w)) && w in workers && workers[w] == if canRun then Executing(run, thread)
          else Releasing(run, thread)
      ensures old(clock) < clock && canRun == runnable(clock)
    {
      hide Leads;
      var reply := Turn(WorkerAt(w));
      canRun := runnable(clock);
      Commit(Work(w, reply, canRun), Now());
    }

    method Execute(w: nat, run: RunID, thread: ThreadID)
      requires Valid() && w in workers && workers[w] == Executing(run, thread)
      modifies this
      ensures Ran(WorkerAt(w), [run]) && w in workers && workers[w] == Releasing(run, thread)
    {
      hide Leads;
      var reply := Turn(WorkerAt(w));
      executions := executions + [run];
      Commit(Work(w, reply, false), Now());
    }

    method ReleaseThreadLock(w: nat, run: RunID, thread: ThreadID) returns (released: bool)
      requires Valid() && w in workers && workers[w] == Releasing(run, thread)
      modifies this
      ensures Served(WorkerAt(w)) && w !in workers
      ensures released ==> !(thread in locks && locks[thread] == run)
      ensures !released ==> old(refused) < refused
    {
      hide Leads;
      var reply := Turn(WorkerAt(w));
      var before := Now();
      if reply != Error(false) {
        ReleaseScript(thread, run);
      }
      Commit(Work(w, reply, false), before);
      released := reply.Done?;
    }

    /** Everything that happens under the lock: the run is executed exactly when its row, as read at that time, can
        run. */
    method RunLocked(w: nat, run: RunID, thread: ThreadID) returns (outcome: Outcome, ghost loadedAt: nat)
      requires Valid() && w in workers && workers[w] == Looking(run, thread)
      modifies this
      ensures Ran(WorkerAt(w), if outcome.Executed? then [run] else []) && w !in workers
      ensures old(clock) < loadedAt <= clock && outcome == if runnable(loadedAt) then Executed else NotRunnable
      ensures old(refused) < refused || !(thread in locks && locks[thread] == run)
    {
      hide Leads;
      RemoveLocked(w, run, thread);
      var canRun := LoadRun(w, run, thread);
      loadedAt := clock;
      if canRun {
        Execute(w, run, thread);
      }
      var released := ReleaseThreadLock(w, run, thread);
      outcome := if canRun then Executed else NotRunnable;
    }

    /** The pause check, then the lock; a run that does not get it goes back into the list. */
    method LockOrRequeue(w: nat, run: RunID, thread: ThreadID) returns (locked: bool)
      requires Valid() && w in workers && workers[w] == Checking(run, thread)
      modifies this
      ensures Served(WorkerAt(w))
      ensures if locked then w in workers && workers[w] == Looking(run, thread)
              else w !in workers && (old(refused) < refused || run in list)
    {
      hide Leads;
      var isPaused := IsThreadPaused(w, run, thread);
      if isPaused {
        Requeue(w, run);
        return false;
      }
      locked := AcquireThreadLock(w, run, thread);
      if !locked {
        Requeue(w, run);
      }
    }

    /** Worker.process. Without an error, a run is skipped only when it is not queued, and a requeued run is in the
        list. */
    method Process(w: nat, run: RunID) returns (outcome: Outcome, ghost loadedAt: nat)
      requires Valid() && w in workers && workers[w] == Popped(run)
      modifies this
      ensures Ran(WorkerAt(w), if outcome.Executed? then [run] else []) && w !in workers
      ensures outcome.Skipped? ==> old(refused) < refused || run !in queued
      ensures outcome.Requeued? ==> old(refused) < refused || run in list
      ensures outcome.Executed? || outcome.NotRunnable? ==>
          old(clock) < loadedAt <= clock && (outcome.Executed? <==> runnable(loadedAt))
    {
      hide Leads;
      loadedAt := 0;
      var item := GetQueued(w, run);
      if item.None? {
        return Skipped, 0;
      }
      var thread := item.value;
      var locked := LockOrRequeue(w, run, thread);
      if !locked {
        return Requeued, 0;
      }
      outcome, loadedAt := RunLocked(w, run, thread);
    }
  }

  /** Whatever the code above has done, while no lock has expired one worker at most executes a run of a thread. */
  lemma {:induction false} ExecutesAlone(q: RequestQueue, v: nat, w: nat)
    requires q.Valid() && NoExpiry(q.trace)
    requires v in q.workers && w in q.workers && q.workers[v].Executing? && q.workers[w].Executing?
        && q.workers[v].thread == q.workers[w].thread
    ensures v == w
  {
    hide Run, After, Enabled, Apply, NoExpiry;
    OneRunPerThread(q.trace, v, w);
  }
}
