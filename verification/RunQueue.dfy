/** internal/run/queue.go and internal/run/worker.go: the request queue and the per-thread lock in Redis, with several
    workers and any number of callers that enqueue, steer and remove. One Redis command is one step; every other process
    may act in between. */
module RunQueue {
  import opened Optional

  type RunID = string
  type ThreadID = string

  /** What a worker has in hand, and its next command. */
  datatype Phase = Popped(run: RunID)
                 | Checking(run: RunID, thread: ThreadID)
                 | Locking(run: RunID, thread: ThreadID)
                 | Requeueing(run: RunID)
                 | Looking(run: RunID, thread: ThreadID)
                 | Unlinking(run: RunID, thread: ThreadID)
                 | Deleting(run: RunID, thread: ThreadID)
                 | Loading(run: RunID, thread: ThreadID)
                 | Executing(run: RunID, thread: ThreadID)
                 | Releasing(run: RunID, thread: ThreadID)

  /** A call of Enqueue, Steer or Remove between two commands. */
  datatype Call = Pushing(run: RunID) | Taking(run: RunID) | Lifting(run: RunID)
                | Clearing(run: RunID) | Erasing(run: RunID)

  datatype Redis = Redis(list: seq<RunID>, queued: map<RunID, ThreadID>, locks: map<ThreadID, RunID>,
                         paused: set<ThreadID>)

  datatype State = State(redis: Redis, workers: map<nat, Phase>, calls: map<nat, Call>)

  const INIT := State(Redis([], map[], map[], {}), map[], map[])

  /** How a command ends. An error may come although Redis carried the command out. */
  datatype Reply = Done | Error(applied: bool)

  datatype Action = Pop(worker: nat)
                  | Work(worker: nat, reply: Reply, runnable: bool)
                  | Die(worker: nat)
                  | Enqueue(call: nat, run: RunID, thread: ThreadID)
                  | Steer(call: nat, run: RunID)
                  | Remove(call: nat, run: RunID)
                  | Continue(call: nat, reply: Reply)
                  | GiveUp(call: nat)
                  | Pause(thread: ThreadID)
                  | Resume(thread: ThreadID)
                  | Expire(thread: ThreadID)

  // Redis commands ------------------------------------------------------------------------------

  function RPush(r: Redis, run: RunID): Redis { r.(list := r.list + [run]) }

  function LPush(r: Redis, run: RunID): Redis { r.(list := [run] + r.list) }

  /** LREM 1: the first occurrence goes. */
  function WithoutFirst(list: seq<RunID>, run: RunID): seq<RunID> {
    if list == [] then [] else if list[0] == run then list[1..] else [list[0]] + WithoutFirst(list[1..], run)
  }

  /** LREM 0: every occurrence goes. */
  function Without(list: seq<RunID>, run: RunID): seq<RunID> {
    if list == [] then [] else if list[0] == run then Without(list[1..], run) else [list[0]] + Without(list[1..], run)
  }

  function LRemFirst(r: Redis, run: RunID): Redis { r.(list := WithoutFirst(r.list, run)) }

  function LRemAll(r: Redis, run: RunID): Redis { r.(list := Without(r.list, run)) }

  function Del(r: Redis, run: RunID): Redis { r.(queued := r.queued - {run}) }

  /** SET NX */
  function SetNX(r: Redis, thread: ThreadID, run: RunID): Redis {
    if thread in r.locks then r else r.(locks := r.locks[thread := run])
  }

  /** The compare-and-delete script. */
  function ReleaseLock(r: Redis, thread: ThreadID, run: RunID): Redis {
    if thread in r.locks && r.locks[thread] == run then r.(locks := r.locks - {thread}) else r
  }

  // Workers --------------------------------------------------------------------------------------

  function Command(r: Redis, p: Phase): Redis {
    match p
    case Locking(run, thread) => SetNX(r, thread, run)
    case Requeueing(run) => RPush(r, run)
    case Unlinking(run, _) => LRemAll(r, run)
    case Deleting(run, _) => Del(r, run)
    case Releasing(run, thread) => ReleaseLock(r, thread, run)
    case _ => r
  }

  /** Where the worker goes on after its command, None when it is through with the run. */
  function NextPhase(r: Redis, p: Phase, reply: Reply, runnable: bool): Option<Phase> {
    match p
    case Popped(run) => if reply.Done? && run in r.queued then Some(Checking(run, r.queued[run])) else None
    case Checking(run, thread) => if reply.Done? && thread in r.paused then Some(Requeueing(run))
        else Some(Locking(run, thread))
    case Locking(run, thread) => if reply.Done? && thread !in r.locks then Some(Looking(run, thread))
        else Some(Requeueing(run))
    case Requeueing(_) => None
    case Looking(run, thread) => if reply.Done? && run in r.queued then Some(Unlinking(run, thread))
        else Some(Loading(run, thread))
    case Unlinking(run, thread) => Some(Deleting(run, thread))
    case Deleting(run, thread) => Some(Loading(run, thread))
    case Loading(run, thread) => Some(if runnable then Executing(run, thread) else Releasing(run, thread))
    case Executing(run, thread) => Some(Releasing(run, thread))
    case Releasing(_, _) => None
  }

  // Callers --------------------------------------------------------------------------------------

  function CallCommand(r: Redis, k: Call): Redis {
    match k
    case Pushing(run) => RPush(r, run)
    case Taking(run) => LRemFirst(r, run)
    case Lifting(run) => LPush(r, run)
    case Clearing(run) => LRemAll(r, run)
    case Erasing(run) => Del(r, run)
  }

  function NextCall(k: Call): Option<Call> {
    match k
    case Taking(run) => Some(Lifting(run))
    case Clearing(run) => Some(Erasing(run))
    case _ => None
  }

  // The machine ------------------------------------------------------------------------------------

  predicate Enabled(s: State, a: Action) {
    match a
    case Pop(w) => w !in s.workers && s.redis.list != []
    case Work(w, _, _) => w in s.workers
    case Die(w) => w in s.workers
    case Enqueue(c, run, _) => c !in s.calls && run != ""
    case Steer(c, run) => c !in s.calls && run in s.redis.queued
    case Remove(c, run) => c !in s.calls && run in s.redis.queued
    case Continue(c, _) => c in s.calls
    case GiveUp(c) => c in s.calls
    case _ => true
  }

  function Applied(before: Redis, after: Redis, reply: Reply): Redis {
    if reply == Error(false) then before else after
  }

  function Apply(s: State, a: Action): State
    requires Enabled(s, a)
  {
    match a
    case Pop(w) =>
      var n := |s.redis.list| - 1;
      s.(redis := s.redis.(list := s.redis.list[..n]), workers := s.workers[w := Popped(s.redis.list[n])])
    case Work(w, reply, runnable) =>
      var p := s.workers[w];
      var next := NextPhase(s.redis, p, reply, runnable);
      s.(redis := Applied(s.redis, Command(s.redis, p), reply),
         workers := if next.Some? then s.workers[w := next.value] else s.workers - {w})
    case Die(w) => s.(workers := s.workers - {w})
    case Enqueue(c, run, thread) => s.(redis := s.redis.(queued := s.redis.queued[run := thread]),
                                       calls := s.calls[c := Pushing(run)])
    case Steer(c, run) => s.(calls := s.calls[c := Taking(run)])
    case Remove(c, run) => s.(calls := s.calls[c := Clearing(run)])
    case Continue(c, reply) =>
      var k := s.calls[c];
      var next := NextCall(k);
      s.(redis := Applied(s.redis, CallCommand(s.redis, k), reply),
         calls := if next.Some? then s.calls[c := next.value] else s.calls - {c})
    case GiveUp(c) => s.(calls := s.calls - {c})
    case Pause(t) => s.(redis := s.redis.(paused := s.redis.paused + {t}))
    case Resume(t) => s.(redis := s.redis.(paused := s.redis.paused - {t}))
    case Expire(t) => s.(redis := s.redis.(locks := s.redis.locks - {t}))
  }

  predicate Run(s: State, acts: seq<Action>)
    decreases |acts|
  {
    acts == [] || (Enabled(s, acts[0]) && Run(Apply(s, acts[0]), acts[1..]))
  }

  function After(s: State, acts: seq<Action>): State
    requires Run(s, acts)
    decreases |acts|
  {
    if acts == [] then s else After(Apply(s, acts[0]), acts[1..])
  }

  // Mutual exclusion ---------------------------------------------------------------------------------

  /** From taking the lock to giving it back. */
  predicate Holds(p: Phase) {
    p.Looking? || p.Unlinking? || p.Deleting? || p.Loading? || p.Executing? || p.Releasing?
  }

  predicate Locked(s: State, p: Phase) {
    Holds(p) ==> p.thread in s.redis.locks && s.redis.locks[p.thread] == p.run
  }

  /** Every holder's lock is in place, and no two workers hold the same thread. */
  ghost predicate Exclusive(s: State) {
    && (forall w :: w in s.workers ==> Locked(s, s.workers[w]))
    && (forall v, w :: v in s.workers && w in s.workers && Holds(s.workers[v]) && Holds(s.workers[w])
                       && s.workers[v].thread == s.workers[w].thread ==>
                       v == w)
  }

  /** A worker's step changes the locks by its own lock or release only. */
  lemma {:induction false} WorkOnLocks(s: State, a: Action)
    requires Enabled(s, a) && a.Work?
    ensures var p, locks, u := s.workers[a.worker], s.redis.locks, Apply(s, a);
            && (!p.Locking? && !p.Releasing? ==> u.redis.locks == locks)
            && (p.Locking? ==>
                  u.redis.locks == locks || (p.thread !in locks && u.redis.locks == locks[p.thread := p.run]))
            && (p.Releasing? ==> u.redis.locks == locks || (p.thread in locks && u.redis.locks == locks - {p.thread}))
  {
    hide Without, WithoutFirst, NextPhase;
  }

  /** A worker holds its thread after its step only if it held it before, or if it has just taken a free lock. */
  lemma {:induction false} WorkOnHolding(s: State, a: Action)
    requires Enabled(s, a) && a.Work? && a.worker in Apply(s, a).workers && Holds(Apply(s, a).workers[a.worker])
    ensures var p, q, u := s.workers[a.worker], Apply(s, a).workers[a.worker], Apply(s, a);
            || (Holds(p) && !p.Releasing? && q.thread == p.thread && q.run == p.run)
            || (p.Locking? && q.thread == p.thread && q.run == p.run && p.thread !in s.redis.locks
                && u.redis.locks == s.redis.locks[p.thread := p.run])
  {
    hide Without, WithoutFirst;
  }

  lemma {:induction false} OthersUnmoved(s: State, a: Action, w: nat)
    requires Enabled(s, a) && a.Work? && w in Apply(s, a).workers
    ensures w in s.workers && (w != a.worker ==> Apply(s, a).workers[w] == s.workers[w])
  {
    hide Command, NextPhase;
  }

  lemma {:induction false} ExclusiveWork(s: State, a: Action)
    requires Enabled(s, a) && Exclusive(s) && a.Work?
    ensures Exclusive(Apply(s, a))
  {
    hide Apply;
    var u := Apply(s, a);
    WorkOnLocks(s, a);
    forall w | w in u.workers
      ensures Locked(u, u.workers[w])
    {
      OthersUnmoved(s, a, w);
      assert Locked(s, s.workers[w]);
      if w == a.worker && Holds(u.workers[w]) {
        WorkOnHolding(s, a);
      }
    }
    forall v, w | v in u.workers && w in u.workers && Holds(u.workers[v]) && Holds(u.workers[w])
        && u.workers[v].thread == u.workers[w].thread
      ensures v == w
    {
      OthersUnmoved(s, a, v);
      OthersUnmoved(s, a, w);
      assert Locked(s, s.workers[v]) && Locked(s, s.workers[w]);
      if v == a.worker || w == a.worker {
        WorkOnHolding(s, a);
      }
    }
  }

  /** Steps of callers and of the environment leave holders and locks alone. */
  lemma {:induction false} ExclusiveStep(s: State, a: Action)
    requires Enabled(s, a) && Exclusive(s) && !a.Expire?
    ensures Exclusive(Apply(s, a))
  {
    hide Without, WithoutFirst, Command, NextPhase;
    if a.Work? { ExclusiveWork(s, a); }
  }

  predicate NoExpiry(acts: seq<Action>) {
    forall i :: 0 <= i < |acts| ==> !acts[i].Expire?
  }

  lemma {:induction false} ExclusiveRun(s: State, acts: seq<Action>)
    requires Exclusive(s) && Run(s, acts) && NoExpiry(acts)
    ensures Exclusive(After(s, acts))
    decreases |acts|
  {
    hide Exclusive, Enabled, Apply;
    if acts != [] {
      ExclusiveStep(s, acts[0]);
      ExclusiveRun(Apply(s, acts[0]), acts[1..]);
    }
  }

  /** Without lock expiry at most one worker executes a run of a thread, whatever is requeued, steered, removed or
      fails. */
  lemma {:induction false} OneRunPerThread(acts: seq<Action>, v: nat, w: nat)
    requires Run(INIT, acts) && NoExpiry(acts)
    requires var s := After(INIT, acts);
             v in s.workers && w in s.workers && s.workers[v].Executing? && s.workers[w].Executing?
                 && s.workers[v].thread == s.workers[w].thread
    ensures v == w
  {
    hide Run, After, Enabled, Apply;
    assert Exclusive(INIT);
    ExclusiveRun(INIT, acts);
  }

  // Locks with expiry ----------------------------------------------------------------------------------

  /** The worker's next command is the release of the lock of thread t as run r. */
  predicate Releases(s: State, a: Action, t: ThreadID, r: RunID) {
    a.Work? && a.worker in s.workers && s.workers[a.worker] == Releasing(r, t)
  }

  /** Even with expiry, a lock in place goes only when it expires or when a worker of its own run releases it. */
  lemma {:induction false} LockGoesOnlyByOwnRun(s: State, a: Action, t: ThreadID)
    requires Enabled(s, a) && t in s.redis.locks
    ensures !(t in Apply(s, a).redis.locks && Apply(s, a).redis.locks[t] == s.redis.locks[t])
       <==> a == Expire(t) || (Releases(s, a, t, s.redis.locks[t]) && a.reply != Error(false))
  {
    hide Without, WithoutFirst;
  }

  /** No step of the run is an expiry of t's lock or a release of it as run r. */
  predicate Spares(s: State, acts: seq<Action>, t: ThreadID, r: RunID)
    requires Run(s, acts)
    decreases |acts|
  {
    acts == [] || (acts[0] != Expire(t) && !Releases(s, acts[0], t, r) && Spares(Apply(s, acts[0]), acts[1..], t, r))
  }

  /** The lock one run holds survives any number of releases by other runs of the same thread. */
  lemma {:induction false} OtherRunsNeverUnlock(s: State, acts: seq<Action>, t: ThreadID, r: RunID)
    requires Run(s, acts) && t in s.redis.locks && s.redis.locks[t] == r && Spares(s, acts, t, r)
    ensures t in After(s, acts).redis.locks && After(s, acts).redis.locks[t] == r
    decreases |acts|
  {
    hide Enabled, Apply, Releases;
    if acts != [] {
      LockGoesOnlyByOwnRun(s, acts[0], t);
      OtherRunsNeverUnlock(Apply(s, acts[0]), acts[1..], t, r);
    }
  }

  // When a queued run is lost ----------------------------------------------------------------------------

  predicate Carries(p: Phase, run: RunID) {
    p.run == run && !p.Loading? && !p.Executing? && !p.Releasing?
  }

  predicate Keeps(k: Call, run: RunID) {
    k.run == run && (k.Pushing? || k.Lifting? || k.Erasing?)
  }

  predicate CarriedBy(s: State, w: nat, run: RunID) {
    w in s.workers && Carries(s.workers[w], run)
  }

  predicate KeptBy(s: State, c: nat, run: RunID) {
    c in s.calls && Keeps(s.calls[c], run)
  }

  /** The run is in the list, or in the hands of a worker or a caller that will put it there or take it out of the
      hash. */
  ghost predicate Reachable(s: State, run: RunID) {
    run in s.redis.list || (exists w :: CarriedBy(s, w, run)) || (exists c :: KeptBy(s, c, run))
  }

  ghost predicate NoneLost(s: State) {
    forall run :: run in s.redis.queued ==> Reachable(s, run)
  }

  /** The action takes the run out of the hands of the process that takes it, and puts it nowhere: the read of the hash
      fails after the pop, the push back or the deletion is not carried out, the existence check fails, or the process
      stops. */
  predicate Drops(s: State, a: Action, run: RunID) {
    match a
    case Work(w, reply, _) =>
      CarriedBy(s, w, run) && match s.workers[w] {
        case Popped(_) => reply.Error?
        case Looking(_, _) => reply.Error?
        case Requeueing(_) => reply == Error(false)
        case Deleting(_, _) => reply == Error(false)
        case _ => false
      }
    case Die(w) => CarriedBy(s, w, run)
    case Continue(c, reply) => KeptBy(s, c, run) && reply == Error(false)
    case GiveUp(c) => KeptBy(s, c, run)
    case _ => false
  }

  /** A copy of the run is in the list or in the hands of another process. */
  ghost predicate HeldElsewhere(s: State, a: Action, run: RunID) {
    || run in s.redis.list
    || (exists w :: CarriedBy(s, w, run) && !((a.Work? || a.Die?) && a.worker == w))
    || (exists c :: KeptBy(s, c, run) && !((a.Continue? || a.GiveUp?) && a.call == c))
  }

  /** The last copy of a queued run is dropped. */
  ghost predicate Loses(s: State, a: Action, run: RunID) {
    run in s.redis.queued && Drops(s, a, run) && !HeldElsewhere(s, a, run)
  }

  lemma {:induction false} WithoutKeeps(list: seq<RunID>, run: RunID, other: RunID)
    requires other in list && other != run
    ensures other in Without(list, run) && other in WithoutFirst(list, run)
  {
    if list[0] != other {
      WithoutKeeps(list[1..], run, other);
    }
  }

  lemma {:induction false} ListedStays(s: State, a: Action, run: RunID)
    requires Enabled(s, a) && run in s.redis.list
    ensures Reachable(Apply(s, a), run)
  {
    hide Without, WithoutFirst;
    var u := Apply(s, a);
    if a.Pop? && run !in u.redis.list {
      assert CarriedBy(u, a.worker, run);
    }
    if a.Work? && s.workers[a.worker].Unlinking? {
      if s.workers[a.worker].run == run {
        assert CarriedBy(u, a.worker, run);
      } else {
        WithoutKeeps(s.redis.list, s.workers[a.worker].run, run);
      }
    }
    if a.Continue? && (s.calls[a.call].Clearing? || s.calls[a.call].Taking?) {
      if s.calls[a.call].run == run {
        assert KeptBy(u, a.call, run);
      } else {
        WithoutKeeps(s.redis.list, s.calls[a.call].run, run);
      }
    }
  }

  lemma {:induction false} CarriedStays(s: State, a: Action, w: nat, run: RunID)
    requires Enabled(s, a) && CarriedBy(s, w, run)
    requires (a.Work? || a.Die?) && a.worker == w ==> !Drops(s, a, run)
    ensures run in Apply(s, a).redis.queued ==> Reachable(Apply(s, a), run)
  {
    hide Without, WithoutFirst;
    var u := Apply(s, a);
    assert w in u.workers ==> CarriedBy(u, w, run) || u.workers[w].Loading?;
  }

  lemma {:induction false} KeptStays(s: State, a: Action, c: nat, run: RunID)
    requires Enabled(s, a) && KeptBy(s, c, run)
    requires (a.Continue? || a.GiveUp?) && a.call == c ==> !Drops(s, a, run)
    ensures run in Apply(s, a).redis.queued ==> Reachable(Apply(s, a), run)
  {
    hide Without, WithoutFirst;
    var u := Apply(s, a);
    assert c in u.calls ==> KeptBy(u, c, run);
  }

  lemma {:induction false} NotLost(s: State, a: Action, run: RunID)
    requires Enabled(s, a) && Reachable(s, run) && (!Drops(s, a, run) || HeldElsewhere(s, a, run))
    ensures run in Apply(s, a).redis.queued ==> Reachable(Apply(s, a), run)
  {
    hide Enabled, Apply, Drops, CarriedBy, KeptBy;
    if run in s.redis.list {
      ListedStays(s, a, run);
    } else if w :| CarriedBy(s, w, run) && !((a.Work? || a.Die?) && a.worker == w) {
      CarriedStays(s, a, w, run);
    } else if c :| KeptBy(s, c, run) && !((a.Continue? || a.GiveUp?) && a.call == c) {
      KeptStays(s, a, c, run);
    } else if w :| CarriedBy(s, w, run) {
      CarriedStays(s, a, w, run);
    } else {
      var c :| KeptBy(s, c, run);
      KeptStays(s, a, c, run);
    }
  }

  /** What a dropping step leaves behind. */
  lemma {:induction false} DropLeavesOthers(s: State, a: Action, run: RunID)
    requires Enabled(s, a) && Drops(s, a, run)
    ensures var u := Apply(s, a);
            && u.redis.list == s.redis.list && u.redis.queued == s.redis.queued
            && (forall w :: CarriedBy(u, w, run) ==> CarriedBy(s, w, run) && !((a.Work? || a.Die?) && a.worker == w))
            && (forall c :: KeptBy(u, c, run) ==> KeptBy(s, c, run) && !((a.Continue? || a.GiveUp?) && a.call == c))
  {
  }

  /** Exactly when a step loses a queued run: it drops it, and there is no other copy. */
  lemma {:induction false} StepLosesExactly(s: State, a: Action, run: RunID)
    requires Enabled(s, a) && run in s.redis.queued && Reachable(s, run)
    ensures run in Apply(s, a).redis.queued && !Reachable(Apply(s, a), run) <==> Loses(s, a, run)
  {
    hide Enabled, Apply, Drops, CarriedBy, KeptBy;
    if Drops(s, a, run) && !HeldElsewhere(s, a, run) {
      DropLeavesOthers(s, a, run);
    } else {
      NotLost(s, a, run);
    }
  }

  lemma {:induction false} NoneLostStep(s: State, a: Action)
    requires Enabled(s, a) && NoneLost(s)
    ensures NoneLost(Apply(s, a)) <==> forall run :: !Loses(s, a, run)
  {
    hide Enabled, Apply, Reachable, Loses;
    var u := Apply(s, a);
    if forall run :: !Loses(s, a, run) {
      forall run | run in u.redis.queued
        ensures Reachable(u, run)
      {
        if run in s.redis.queued {
          StepLosesExactly(s, a, run);
        } else {
          NewlyQueued(s, a, run);
        }
      }
    } else {
      var run :| Loses(s, a, run);
      LosesQueued(s, a, run);
      StepLosesExactly(s, a, run);
    }
  }

  lemma {:induction false} LosesQueued(s: State, a: Action, run: RunID)
    requires Loses(s, a, run)
    ensures run in s.redis.queued
  {
  }

  lemma {:induction false} OnlyEnqueueAdds(s: State, a: Action, run: RunID)
    requires Enabled(s, a) && run in Apply(s, a).redis.queued && run !in s.redis.queued
    ensures a.Enqueue? && a.run == run
  {
    hide Without, WithoutFirst;
  }

  lemma {:induction false} NewlyQueued(s: State, a: Action, run: RunID)
    requires Enabled(s, a) && run in Apply(s, a).redis.queued && run !in s.redis.queued
    ensures Reachable(Apply(s, a), run)
  {
    hide Command, NextPhase, CallCommand;
    OnlyEnqueueAdds(s, a, run);
    var c := a.call;
    assert KeptBy(Apply(s, a), c, run);
  }

  /** No step of the run drops the last copy of a queued run. */
  ghost predicate LossFree(s: State, acts: seq<Action>)
    requires Run(s, acts)
    decreases |acts|
  {
    acts == [] || ((forall run :: !Loses(s, acts[0], run)) && LossFree(Apply(s, acts[0]), acts[1..]))
  }

  /** No queued run is lost at any point of the run. */
  ghost predicate NeverLost(s: State, acts: seq<Action>)
    requires Run(s, acts)
    decreases |acts|
  {
    NoneLost(s) && (acts == [] || NeverLost(Apply(s, acts[0]), acts[1..]))
  }

  lemma {:induction false} NeverLostExactly(s: State, acts: seq<Action>)
    requires NoneLost(s) && Run(s, acts)
    ensures NeverLost(s, acts) <==> LossFree(s, acts)
    ensures LossFree(s, acts) ==> NoneLost(After(s, acts))
    decreases |acts|
  {
    hide NoneLost, Enabled, Apply, Loses;
    if acts != [] {
      NoneLostStep(s, acts[0]);
      if NoneLost(Apply(s, acts[0])) {
        NeverLostExactly(Apply(s, acts[0]), acts[1..]);
      } else {
        LostAtOnce(Apply(s, acts[0]), acts[1..]);
      }
    }
  }

  lemma {:induction false} LostAtOnce(s: State, acts: seq<Action>)
    requires Run(s, acts) && !NoneLost(s)
    ensures !NeverLost(s, acts)
  {
  }

  /** From the start, queued runs stay in the list or in the hands of a process throughout a run if and only if no step
      of it drops the last copy of one; requeueing, steering, removal and all other failures lose nothing. */
  lemma {:induction false} NoQueuedRunIsLost(acts: seq<Action>)
    requires Run(INIT, acts)
    ensures NeverLost(INIT, acts) <==> LossFree(INIT, acts)
    ensures LossFree(INIT, acts) ==> forall run :: run in After(INIT, acts).redis.queued ==>
        Reachable(After(INIT, acts), run)
  {
    hide Run, After, Enabled, Apply, Reachable, LossFree, NeverLost;
    assert NoneLost(INIT);
    NeverLostExactly(INIT, acts);
  }

  /** A run that loses one: it is enqueued and popped, and then the read of its hash fails. */
  lemma {:induction false} PoppedRunCanBeLost()
    ensures var acts := [Enqueue(0, "r", "t"), Continue(0, Done), Pop(0), Work(0, Error(false), false)];
            Run(INIT, acts) && "r" in After(INIT, acts).redis.queued && !Reachable(After(INIT, acts), "r")
  {
    var s1 := Apply(INIT, Enqueue(0, "r", "t"));
    var s2 := Apply(s1, Continue(0, Done));
    var s3 := Apply(s2, Pop(0));
    var s4 := Apply(s3, Work(0, Error(false), false));
    assert s2.redis.list == ["r"] && s2.calls == map[];
    assert s3.redis.list == [] && s3.workers == map[0 := Popped("r")];
    assert s4 == State(Redis([], map["r" := "t"], map[], {}), map[], map[]);
    assert Run(s3, [Work(0, Error(false), false)]);
    assert Run(s2, [Pop(0), Work(0, Error(false), false)]);
  }
}
