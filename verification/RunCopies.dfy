/** How often a run is executed: its copies in the list and in the hands of processes are conserved, and only enqueueing
    it and steering it while it is in nobody's list make new ones. */
module RunCopies {
  import opened Optional
  import opened RunQueue

  /** The worker has the run and has not started to execute it. */
  predicate ToRun(p: Phase, run: RunID) {
    p.run == run && !p.Executing? && !p.Releasing?
  }

  predicate ToPush(k: Call, run: RunID) {
    k.run == run && (k.Pushing? || k.Lifting?)
  }

  function Takers(s: State, run: RunID): set<nat> {
    set w | w in s.workers && ToRun(s.workers[w], run)
  }

  function Pushers(s: State, run: RunID): set<nat> {
    set c | c in s.calls && ToPush(s.calls[c], run)
  }

  function Listed(list: seq<RunID>, run: RunID): nat { multiset(list)[run] }

  /** The copies of a run: in the list, with workers, with callers about to push it. */
  function Copies(s: State, run: RunID): nat {
    Listed(s.redis.list, run) + |Takers(s, run)| + |Pushers(s, run)|
  }

  /** The worker starts to execute the run. */
  predicate Starts(s: State, a: Action, run: RunID) {
    a.Work? && a.runnable && a.worker in s.workers && s.workers[a.worker].Loading? && s.workers[a.worker].run == run
  }

  /** A steering call goes on to push the run although its LREM took none out of the list. */
  predicate SteersBlindly(s: State, a: Action, run: RunID) {
    a.Continue? && a.call in s.calls && s.calls[a.call] == Taking(run)
        && (run !in s.redis.list || a.reply == Error(false))
  }

  predicate Enqueues(a: Action, run: RunID) { a.Enqueue? && a.run == run }

  function One(b: bool): nat { if b then 1 else 0 }

  // The list --------------------------------------------------------------------------------------------

  lemma {:induction false} FirstGoes(list: seq<RunID>, run: RunID, other: RunID)
    ensures Listed(WithoutFirst(list, run), other) == Listed(list, other) - One(other == run && run in list)
  {
    if list != [] {
      assert list == [list[0]] + list[1..];
      if list[0] != run { FirstGoes(list[1..], run, other); }
    }
  }

  lemma {:induction false} AllGo(list: seq<RunID>, run: RunID, other: RunID)
    ensures Listed(Without(list, run), other) <= Listed(list, other)
  {
    if list != [] {
      assert list == [list[0]] + list[1..];
      AllGo(list[1..], run, other);
    }
  }

  lemma {:induction false} LastGoes(list: seq<RunID>, run: RunID)
    requires list != []
    ensures Listed(list, run) == Listed(list[..|list| - 1], run) + One(list[|list| - 1] == run)
  {
    assert list == list[..|list| - 1] + [list[|list| - 1]];
  }

  lemma {:induction false} Pushed(list: seq<RunID>, x: RunID, run: RunID)
    ensures Listed(list + [x], run) == Listed(list, run) + One(x == run)
    ensures Listed([x] + list, run) == Listed(list, run) + One(x == run)
  {
  }

  // One step --------------------------------------------------------------------------------------------

  /** Only the process that steps changes its place in a set. */
  lemma {:induction false} OneChanges(before: set<nat>, after: set<nat>, w: nat)
    requires forall v :: v != w ==> (v in before <==> v in after)
    ensures |after| + One(w in before) == |before| + One(w in after)
  {
    if w in before && w !in after {
      assert after == before - {w};
    } else if w !in before && w in after {
      assert before == after - {w};
    } else {
      assert before == after;
    }
  }

  lemma {:induction false} WorkersChange(s: State, a: Action, run: RunID)
    requires Enabled(s, a) && (a.Pop? || a.Work? || a.Die?)
    ensures var u := Apply(s, a);
            && |Takers(u, run)| + One(a.worker in Takers(s, run)) == |Takers(s, run)| + One(a.worker in Takers(u, run))
            && Pushers(u, run) == Pushers(s, run)
  {
    hide Command, NextPhase, ToRun;
    OneChanges(Takers(s, run), Takers(Apply(s, a), run), a.worker);
  }

  lemma {:induction false} CallersChange(s: State, a: Action, run: RunID)
    requires Enabled(s, a) && (a.Enqueue? || a.Steer? || a.Remove? || a.Continue? || a.GiveUp?)
    ensures var u := Apply(s, a);
            && |Pushers(u, run)| + One(a.call in Pushers(s, run)) == |Pushers(s, run)| + One(a.call in Pushers(u, run))
            && Takers(u, run) == Takers(s, run)
  {
    hide CallCommand, NextCall, ToPush;
    OneChanges(Pushers(s, run), Pushers(Apply(s, a), run), a.call);
  }

  lemma {:induction false} WorkConserves(s: State, a: Action, run: RunID)
    requires Enabled(s, a) && a.Work?
    ensures Copies(Apply(s, a), run) + One(Starts(s, a, run)) <= Copies(s, run)
  {
    hide Without, WithoutFirst, Listed;
    WorkersChange(s, a, run);
    var p := s.workers[a.worker];
    Pushed(s.redis.list, p.run, run);
    AllGo(s.redis.list, p.run, run);
  }

  lemma {:induction false} PopConserves(s: State, a: Action, run: RunID)
    requires Enabled(s, a) && (a.Pop? || a.Die?)
    ensures Copies(Apply(s, a), run) <= Copies(s, run)
  {
    hide Listed;
    WorkersChange(s, a, run);
    if a.Pop? { LastGoes(s.redis.list, run); }
  }

  lemma {:induction false} CallConserves(s: State, a: Action, run: RunID)
    requires Enabled(s, a) && (a.Enqueue? || a.Steer? || a.Remove? || a.Continue? || a.GiveUp?)
    ensures Copies(Apply(s, a), run) <= Copies(s, run) + One(Enqueues(a, run)) + One(SteersBlindly(s, a, run))
  {
    hide Without, WithoutFirst, Listed;
    CallersChange(s, a, run);
    if a.Continue? {
      var k := s.calls[a.call];
      Pushed(s.redis.list, k.run, run);
      AllGo(s.redis.list, k.run, run);
      FirstGoes(s.redis.list, k.run, run);
    }
  }

  /** A start uses up a copy; only enqueueing and blind steering make one. */
  lemma {:induction false} CopiesConserved(s: State, a: Action, run: RunID)
    requires Enabled(s, a)
    ensures Copies(Apply(s, a), run) + One(Starts(s, a, run))
         <= Copies(s, run) + One(Enqueues(a, run)) + One(SteersBlindly(s, a, run))
  {
    hide Copies;
    if a.Work? {
      WorkConserves(s, a, run);
    } else if a.Pop? || a.Die? {
      PopConserves(s, a, run);
    } else if a.Pause? || a.Resume? || a.Expire? {
      EnvironmentConserves(s, a, run);
    } else {
      CallConserves(s, a, run);
    }
  }

  lemma {:induction false} EnvironmentConserves(s: State, a: Action, run: RunID)
    requires Enabled(s, a) && (a.Pause? || a.Resume? || a.Expire?)
    ensures Copies(Apply(s, a), run) == Copies(s, run)
  {
  }

  // Whole runs ------------------------------------------------------------------------------------------

  function Executions(s: State, acts: seq<Action>, run: RunID): nat
    requires Run(s, acts)
    decreases |acts|
  {
    if acts == [] then 0 else One(Starts(s, acts[0], run)) + Executions(Apply(s, acts[0]), acts[1..], run)
  }

  function Enqueued(acts: seq<Action>, run: RunID): nat {
    if acts == [] then 0 else One(Enqueues(acts[0], run)) + Enqueued(acts[1..], run)
  }

  function BlindSteers(s: State, acts: seq<Action>, run: RunID): nat
    requires Run(s, acts)
    decreases |acts|
  {
    if acts == [] then 0 else One(SteersBlindly(s, acts[0], run)) + BlindSteers(Apply(s, acts[0]), acts[1..], run)
  }

  lemma {:induction false} ExecutionsFrom(s: State, acts: seq<Action>, run: RunID)
    requires Run(s, acts)
    ensures Executions(s, acts, run) + Copies(After(s, acts), run)
         <= Copies(s, run) + Enqueued(acts, run) + BlindSteers(s, acts, run)
    decreases |acts|
  {
    hide Enabled, Apply, Copies, Starts, Enqueues, SteersBlindly;
    if acts != [] {
      CopiesConserved(s, acts[0], run);
      ExecutionsFrom(Apply(s, acts[0]), acts[1..], run);
    }
  }

  /** In every run of the machine, failing commands, dying processes and expiring locks included, a run is executed at
      most as often as it was enqueued or steered while it stood in no list; the copies still to be executed count as
      well. */
  lemma {:induction false} ExecutedAtMostAsOftenAsPut(acts: seq<Action>, run: RunID)
    requires Run(INIT, acts)
    ensures Executions(INIT, acts, run) + Copies(After(INIT, acts), run)
         <= Enqueued(acts, run) + BlindSteers(INIT, acts, run)
  {
    hide Run, After, Enabled, Apply, Executions, Enqueued, BlindSteers;
    ExecutionsFrom(INIT, acts, run);
    NothingAtFirst(run);
  }

  lemma {:induction false} NothingAtFirst(run: RunID)
    ensures Copies(INIT, run) == 0
  {
  }

  // After the hash is gone -----------------------------------------------------------------------------

  /** The worker has read the hash of the run, and is not about to push the run back. */
  predicate HasRead(s: State, w: nat, run: RunID) {
    w in s.workers && s.workers[w].run == run && !s.workers[w].Popped? && !s.workers[w].Requeueing?
  }

  lemma {:induction false} ReadBefore(s: State, a: Action, run: RunID, w: nat)
    requires Enabled(s, a) && run !in s.redis.queued && HasRead(Apply(s, a), w, run)
    ensures HasRead(s, w, run) && Apply(s, a).workers[w].thread == s.workers[w].thread
  {
    hide Command, CallCommand, NextCall;
  }

  /** Once the hash of a run has been deleted, and unless the run is enqueued again, it is executed only by workers that
      had read the hash before. */
  lemma {:induction false} LateExecutionsReadEarlier(s: State, acts: seq<Action>, run: RunID, w: nat)
    requires Run(s, acts) && run !in s.redis.queued && Enqueued(acts, run) == 0
    requires HasRead(After(s, acts), w, run)
    ensures HasRead(s, w, run) && After(s, acts).workers[w].thread == s.workers[w].thread
    decreases |acts|
  {
    hide Enabled, Apply, HasRead;
    if acts != [] {
      var u := Apply(s, acts[0]);
      if run in u.redis.queued {
        OnlyEnqueueAdds(s, acts[0], run);
      }
      LateExecutionsReadEarlier(u, acts[1..], run, w);
      ReadBefore(s, acts[0], run, w);
    }
  }
}
