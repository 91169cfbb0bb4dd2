/** Concrete runs of the request queue from its initial state: one that leaves a thread locked by nobody, and one that
    executes a run twice. */
module QueueRuns {
  import opened Optional
  import opened RunQueue
  import opened OrphanedLocks
  import opened RunCopies

  /** The run leads from s to u, and executes "r" so many times after so many blind steers. */
  ghost predicate Traced(s: State, acts: seq<Action>, u: State, executions: nat, steers: nat) {
    Run(s, acts) && After(s, acts) == u && Executions(s, acts, "r") == executions && BlindSteers(s, acts, "r") == steers
  }

  lemma {:induction false} TracedOn(s: State, acts: seq<Action>, u: State, n: nat, m: nat, a: Action, v: State)
    requires Traced(s, acts, u, n, m) && Enabled(u, a) && Apply(u, a) == v
    ensures Traced(s, acts + [a], v, n + One(Starts(u, a, "r")), m + One(SteersBlindly(u, a, "r")))
    decreases |acts|
  {
    hide Enabled, Apply, Starts, SteersBlindly;
    if acts == [] {
      assert acts + [a] == [a] && [a][1..] == [] && u == s;
      assert Run(v, []) && After(v, []) == v && Executions(v, [], "r") == 0 && BlindSteers(v, [], "r") == 0;
      assert Run(s, [a]);
    } else {
      assert (acts + [a])[1..] == acts[1..] + [a] && (acts + [a])[0] == acts[0];
      var t := Apply(s, acts[0]);
      TracedOn(t, acts[1..], u, n - One(Starts(s, acts[0], "r")), m - One(SteersBlindly(s, acts[0], "r")), a, v);
    }
  }

  function Scene(list: seq<RunID>, queued: map<RunID, ThreadID>, locks: map<ThreadID, RunID>, workers: map<nat, Phase>,
      calls: map<nat, Call>): State
  {
    State(Redis(list, queued, locks, {}), workers, calls)
  }

  const HASH: map<RunID, ThreadID> := map["r" := "t"]
  const LOCK: map<ThreadID, RunID> := map["t" := "r"]
  const NEXT := Work(0, Done, false)

  // A lock without a holder ---------------------------------------------------------------------------------

  const TAKEN: seq<Action> := [Enqueue(0, "r", "t"), Continue(0, Done), Pop(0)]

  function OneTaken(): State { Scene([], HASH, map[], map[0 := Popped("r")], map[]) }

  lemma {:induction false} TakenTraced()
    ensures Traced(INIT, TAKEN, OneTaken(), 0, 0)
  {
    hide Traced;
    var s1 := Scene([], HASH, map[], map[], map[0 := Pushing("r")]);
    var s2 := Scene(["r"], HASH, map[], map[], map[]);
    NothingTraced(INIT);
    assert map[0 := Pushing("r")] - {0} == map[];
    TracedOn(INIT, [], INIT, 0, 0, Enqueue(0, "r", "t"), s1);
    TracedOn(INIT, [] + [Enqueue(0, "r", "t")], s1, 0, 0, Continue(0, Done), s2);
    TracedOn(INIT, [] + [Enqueue(0, "r", "t")] + [Continue(0, Done)], s2, 0, 0, Pop(0), OneTaken());
    assert [] + [Enqueue(0, "r", "t")] + [Continue(0, Done)] + [Pop(0)] == TAKEN;
  }

  lemma {:induction false} NothingTraced(s: State)
    ensures Traced(s, [], s, 0, 0)
  {
  }

  const LOST_ANSWER: seq<Action> := TAKEN + [NEXT] + [NEXT] + [Work(0, Error(true), false)] + [NEXT]

  /** The answer to SETNX is lost: the run goes back into the list, its own lock stays, and nobody holds it. */
  lemma {:induction false} LostAnswerOrphans()
    ensures Run(INIT, LOST_ANSWER) && NeverExpires(LOST_ANSWER, "t")
    ensures var u := After(INIT, LOST_ANSWER);
            Orphaned(u, "t") && u.redis.locks["t"] == "r" && u.redis.list == ["r"] && u.workers == map[]
  {
    LostAnswerTraced();
  }

  lemma {:induction false} LostAnswerTraced()
    ensures Traced(INIT, LOST_ANSWER, Scene(["r"], HASH, LOCK, map[], map[]), 0, 0)
  {
    hide Traced;
    var s1 := Scene([], HASH, map[], map[0 := Checking("r", "t")], map[]);
    var s2 := Scene([], HASH, map[], map[0 := Locking("r", "t")], map[]);
    var s3 := Scene([], HASH, LOCK, map[0 := Requeueing("r")], map[]);
    TakenTraced();
    TracedOn(INIT, TAKEN, OneTaken(), 0, 0, NEXT, s1);
    TracedOn(INIT, TAKEN + [NEXT], s1, 0, 0, NEXT, s2);
    TracedOn(INIT, TAKEN + [NEXT] + [NEXT], s2, 0, 0, Work(0, Error(true), false), s3);
    assert s3.workers - {0} == map[];
    TracedOn(INIT, TAKEN + [NEXT] + [NEXT] + [Work(0, Error(true), false)], s3, 0, 0, NEXT,
             Scene(["r"], HASH, LOCK, map[], map[]));
  }

  // A run executed twice --------------------------------------------------------------------------------------

  /** Another worker comes by a copy, and reads the hash. */
  const STEERED: seq<Action> := TAKEN + [Steer(0, "r")] + [Continue(0, Done)] + [Continue(0, Done)] + [Pop(1)]
      + [Work(1, Done, false)]

  function Two(p: Phase): map<nat, Phase> { map[0 := p, 1 := Checking("r", "t")] }

  lemma {:induction false} SteeredTraced()
    ensures Traced(INIT, STEERED, Scene([], HASH, map[], Two(Popped("r")), map[]), 0, 1)
  {
    hide Traced;
    var workers := map[0 := Popped("r")];
    var s1 := Scene([], HASH, map[], workers, map[0 := Taking("r")]);
    var s2 := Scene([], HASH, map[], workers, map[0 := Lifting("r")]);
    var s3 := Scene(["r"], HASH, map[], workers, map[]);
    var s4 := Scene([], HASH, map[], map[0 := Popped("r"), 1 := Popped("r")], map[]);
    TakenTraced();
    TracedOn(INIT, TAKEN, OneTaken(), 0, 0, Steer(0, "r"), s1);
    TracedOn(INIT, TAKEN + [Steer(0, "r")], s1, 0, 0, Continue(0, Done), s2);
    assert s2.calls - {0} == map[];
    TracedOn(INIT, TAKEN + [Steer(0, "r")] + [Continue(0, Done)], s2, 0, 1, Continue(0, Done), s3);
    var p := TAKEN + [Steer(0, "r")] + [Continue(0, Done)] + [Continue(0, Done)];
    TracedOn(INIT, p, s3, 0, 1, Pop(1), s4);
    assert s4.workers[1 := Checking("r", "t")] == Two(Popped("r"));
    TracedOn(INIT, p + [Pop(1)], s4, 0, 1, Work(1, Done, false), Scene([], HASH, map[], Two(Popped("r")), map[]));
  }

  const LOCKED_FIRST: seq<Action> := STEERED + [NEXT] + [NEXT] + [NEXT]

  lemma {:induction false} TwoMoves(p: Phase, q: Phase)
    ensures Two(p)[0 := q] == Two(q) && Two(p) - {0} == map[1 := Checking("r", "t")]
  {
  }

  lemma {:induction false} LockedFirstTraced()
    ensures Traced(INIT, LOCKED_FIRST, Scene([], HASH, LOCK, Two(Looking("r", "t")), map[]), 0, 1)
  {
    hide Traced, Two;
    var s0 := Scene([], HASH, map[], Two(Popped("r")), map[]);
    var s1 := Scene([], HASH, map[], Two(Checking("r", "t")), map[]);
    var s2 := Scene([], HASH, map[], Two(Locking("r", "t")), map[]);
    SteeredTraced();
    TwoFirst(Popped("r"));
    TwoFirst(Checking("r", "t"));
    TwoFirst(Locking("r", "t"));
    TwoMoves(Popped("r"), Checking("r", "t"));
    TwoMoves(Checking("r", "t"), Locking("r", "t"));
    TwoMoves(Locking("r", "t"), Looking("r", "t"));
    TracedOn(INIT, STEERED, s0, 0, 1, NEXT, s1);
    TracedOn(INIT, STEERED + [NEXT], s1, 0, 1, NEXT, s2);
    TracedOn(INIT, STEERED + [NEXT] + [NEXT], s2, 0, 1, NEXT, Scene([], HASH, LOCK, Two(Looking("r", "t")), map[]));
  }

  lemma {:induction false} TwoFirst(p: Phase)
    ensures 0 in Two(p) && Two(p)[0] == p
  {
  }

  const REMOVED_FIRST: seq<Action> := LOCKED_FIRST + [NEXT] + [NEXT] + [NEXT]

  lemma {:induction false} RemovedFirstTraced()
    ensures Traced(INIT, REMOVED_FIRST, Scene([], map[], LOCK, Two(Loading("r", "t")), map[]), 0, 1)
  {
    hide Traced, Two;
    var s0 := Scene([], HASH, LOCK, Two(Looking("r", "t")), map[]);
    var s1 := Scene([], HASH, LOCK, Two(Unlinking("r", "t")), map[]);
    var s2 := Scene([], HASH, LOCK, Two(Deleting("r", "t")), map[]);
    LockedFirstTraced();
    TwoFirst(Looking("r", "t"));
    TwoFirst(Unlinking("r", "t"));
    TwoFirst(Deleting("r", "t"));
    TwoMoves(Looking("r", "t"), Unlinking("r", "t"));
    TwoMoves(Unlinking("r", "t"), Deleting("r", "t"));
    TwoMoves(Deleting("r", "t"), Loading("r", "t"));
    assert HASH - {"r"} == map[];
    TracedOn(INIT, LOCKED_FIRST, s0, 0, 1, NEXT, s1);
    TracedOn(INIT, LOCKED_FIRST + [NEXT], s1, 0, 1, NEXT, s2);
    TracedOn(INIT, LOCKED_FIRST + [NEXT] + [NEXT], s2, 0, 1, NEXT,
             Scene([], map[], LOCK, Two(Loading("r", "t")), map[]));
  }

  const EXECUTED_FIRST: seq<Action> := REMOVED_FIRST + [Work(0, Done, true)] + [NEXT] + [NEXT]

  lemma {:induction false} ExecutedFirstTraced()
    ensures Traced(INIT, EXECUTED_FIRST, Scene([], map[], map[], map[1 := Checking("r", "t")], map[]), 1, 1)
  {
    hide Traced, Two;
    var s0 := Scene([], map[], LOCK, Two(Loading("r", "t")), map[]);
    var s1 := Scene([], map[], LOCK, Two(Executing("r", "t")), map[]);
    var s2 := Scene([], map[], LOCK, Two(Releasing("r", "t")), map[]);
    RemovedFirstTraced();
    TwoFirst(Loading("r", "t"));
    TwoFirst(Executing("r", "t"));
    TwoFirst(Releasing("r", "t"));
    TwoMoves(Loading("r", "t"), Executing("r", "t"));
    TwoMoves(Executing("r", "t"), Releasing("r", "t"));
    TwoMoves(Releasing("r", "t"), Releasing("r", "t"));
    assert LOCK - {"t"} == map[];
    TracedOn(INIT, REMOVED_FIRST, s0, 0, 1, Work(0, Done, true), s1);
    TracedOn(INIT, REMOVED_FIRST + [Work(0, Done, true)], s1, 1, 1, NEXT, s2);
    TracedOn(INIT, REMOVED_FIRST + [Work(0, Done, true)] + [NEXT], s2, 1, 1, NEXT,
             Scene([], map[], map[], map[1 := Checking("r", "t")], map[]));
  }

  const EXECUTED_TWICE: seq<Action> := EXECUTED_FIRST + [Work(1, Done, false)] + [Work(1, Done, false)]
      + [Work(1, Done, false)]
      + [Work(1, Done, true)]

  lemma {:induction false} ExecutedTwiceTraced()
    ensures Traced(INIT, EXECUTED_TWICE, Scene([], map[], LOCK, map[1 := Executing("r", "t")], map[]), 2, 1)
  {
    hide Traced;
    var again := Work(1, Done, false);
    var s0 := Scene([], map[], map[], map[1 := Checking("r", "t")], map[]);
    var s1 := Scene([], map[], map[], map[1 := Locking("r", "t")], map[]);
    var s2 := Scene([], map[], LOCK, map[1 := Looking("r", "t")], map[]);
    var s3 := Scene([], map[], LOCK, map[1 := Loading("r", "t")], map[]);
    ExecutedFirstTraced();
    TracedOn(INIT, EXECUTED_FIRST, s0, 1, 1, again, s1);
    TracedOn(INIT, EXECUTED_FIRST + [again], s1, 1, 1, again, s2);
    TracedOn(INIT, EXECUTED_FIRST + [again] + [again], s2, 1, 1, again, s3);
    TracedOn(INIT, EXECUTED_FIRST + [again] + [again] + [again], s3, 1, 1, Work(1, Done, true),
             Scene([], map[], LOCK, map[1 := Executing("r", "t")], map[]));
  }

  predicate NoErrors(acts: seq<Action>) {
    forall i :: 0 <= i < |acts| ==>
      && !acts[i].Die? && !acts[i].GiveUp? && !acts[i].Expire?
          && (acts[i].Work? || acts[i].Continue? ==> acts[i].reply.Done?)
  }

  /** Without any error, expiry or stopping process a run that was enqueued once is executed twice: it was steered after
      it had been popped, and the second worker read its hash before the first one deleted it. */
  lemma {:induction false} ExecutedTwice()
    ensures Run(INIT, EXECUTED_TWICE) && NoErrors(EXECUTED_TWICE) && Enqueued(EXECUTED_TWICE, "r") == 1
    ensures Executions(INIT, EXECUTED_TWICE, "r") == 2 && BlindSteers(INIT, EXECUTED_TWICE, "r") == 1
  {
    hide Run, Executions, BlindSteers, After;
    ExecutedTwiceTraced();
    EnqueuedOnce();
  }

  lemma {:induction false} NoneEnqueued(acts: seq<Action>)
    requires forall i :: 0 <= i < |acts| ==> !Enqueues(acts[i], "r")
    ensures Enqueued(acts, "r") == 0
  {
    hide Enqueues;
    if acts != [] {
      assert forall i :: 0 <= i < |acts[1..]| ==> acts[1..][i] == acts[i + 1];
      NoneEnqueued(acts[1..]);
    }
  }

  lemma {:induction false} EnqueuedOnce()
    ensures Enqueued(EXECUTED_TWICE, "r") == 1
  {
    var acts := EXECUTED_TWICE;
    assert forall i :: 0 < i < |acts| ==> !acts[i].Enqueue?;
    assert forall i :: 0 <= i < |acts[1..]| ==> acts[1..][i] == acts[i + 1];
    NoneEnqueued(acts[1..]);
  }
}
