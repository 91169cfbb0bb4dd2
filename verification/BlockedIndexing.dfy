/** Index jobs that no worker can finish any more: the job is active, but its file has left index_queued and indexing,
    so the first transition and the failure transition both meet a state conflict and the message is never
    acknowledged. */
module BlockedIndexing {
  import opened Optional
  import opened Protocol
  import opened ProtocolSafety
  import opened MidwayFiles

  /** The task is about to mark the job. */
  predicate Closes(s: State, task: Task, id: JobId) {
    (task.phase.Failing? || task.phase.Succeeding?) && task.entry < |s.stream.entries|
        && s.stream.entries[task.entry] == id
  }

  predicate IsActiveIndexJob(s: State, key: FileKey, id: JobId) {
    id in s.db.jobs && s.db.jobs[id].key == key && s.db.jobs[id].jobType.IndexJob? && Active(s.db.jobs[id])
  }

  ghost predicate NoCloser(s: State, id: JobId) {
    forall t :: t in s.tasks ==> !Closes(s, s.tasks[t], id)
  }

  ghost predicate Blocked(s: State, key: FileKey, id: JobId) {
    IsActiveIndexJob(s, key, id) && key in s.db.files && !Held(s.db.files, key, IndexJob) && NoCloser(s, id)
  }

  // A reclaimed message ------------------------------------------------------------------------

  /** The exact condition under which starting an index job ends without acknowledgement when nobody interferes: the
      file is neither queued for indexing nor being indexed. Then nothing has changed. */
  lemma {:induction false} EndsUnacknowledgedExactly(s: State, tid: nat, r: World)
    requires Enabled(s, Work(tid, r)) && s.tasks[tid].phase.IndexStart? && s.tasks[tid].job.Some?
    ensures Enabled(WorkStep(s, tid, r), Work(tid, r))
    ensures var key := s.tasks[tid].job.value.key;
            tid !in TwoSteps(s, tid, r).tasks <==> !Held(s.db.files, key, IndexJob)
    ensures tid !in TwoSteps(s, tid, r).tasks ==> TwoSteps(s, tid, r) == s.(tasks := s.tasks - {tid})
  {
    hide HasActive;
    var u := WorkStep(s, tid, r);
    assert u.tasks - {tid} == s.tasks - {tid};
  }

  // What frees a blocked job ---------------------------------------------------------------------

  /** Removing the file, or cancelling or failing the job from a service. */
  predicate Frees(s: State, a: Action, key: FileKey, id: JobId) {
    match a
    case RemoveFile(c) => c in s.clients && s.clients[c] == Removing(key)
    case UndoUpload(c, ok) => ok && c in s.clients && s.clients[c] == Undoing(key)
    case MarkUnpublished(c, ok) => ok && c in s.clients && s.clients[c] == Unpublished(id)
    case CancelJobs(c) => c in s.clients && s.clients[c] == Cancelling(key) && id in s.db.jobs
        && s.db.jobs[id].status.Pending?
    case _ => false
  }

  lemma {:induction false} BlockedFile(s: State, a: Action, key: FileKey, id: JobId)
    requires Enabled(s, a) && IsActiveIndexJob(s, key, id) && key in s.db.files && !Held(s.db.files, key, IndexJob)
    ensures !Held(Apply(s, a).db.files, key, IndexJob)
    ensures key !in Apply(s, a).db.files ==> Frees(s, a, key, id)
    ensures (a.RemoveFile? || a.UndoUpload?) && Frees(s, a, key, id) ==> key !in Apply(s, a).db.files
  {
    hide NextOf, JobsAfter, MarkFailed, CancelPending;
    assert HasActive(s.db.jobs, key, IndexJob);
  }

  lemma {:induction false} BlockedJob(s: State, a: Action, key: FileKey, id: JobId)
    requires Enabled(s, a) && IsActiveIndexJob(s, key, id) && NoCloser(s, id)
    ensures var u := Apply(s, a);
            && id in u.db.jobs && u.db.jobs[id].key == key && u.db.jobs[id].jobType.IndexJob?
            && (!Active(u.db.jobs[id]) ==> Frees(s, a, key, id))
            && ((a.MarkUnpublished? || a.CancelJobs?) && Frees(s, a, key, id) ==> !Active(u.db.jobs[id]))
  {
    hide NextOf, FilesAfter, Transition, HasActive;
    if a.Work? { assert !Closes(s, s.tasks[a.task], id); }
  }

  /** The next step of a task of the job does not bring it closer to marking the job. */
  lemma {:induction false} BlockedWork(s: State, tid: nat, r: World, key: FileKey, id: JobId)
    requires Enabled(s, Work(tid, r)) && TasksOk(s) && JobsOk(s) && IndexReadable(s)
    requires IsActiveIndexJob(s, key, id) && key in s.db.files && !Held(s.db.files, key, IndexJob)
    requires !s.tasks[tid].phase.Failing? && !s.tasks[tid].phase.Succeeding?
    requires tid in WorkStep(s, tid, r).tasks
    ensures !Closes(WorkStep(s, tid, r), WorkStep(s, tid, r).tasks[tid], id)
  {
    hide HasActive, TasksOk, JobsOk, IndexReadable, FilesAfter, JobsAfter, OneActive;
    NextTaskFacts(s, tid);
  }

  lemma {:induction false} BlockedTasks(s: State, a: Action, key: FileKey, id: JobId)
    requires Enabled(s, a) && Sound(s) && Blocked(s, key, id)
    ensures NoCloser(Apply(s, a), id)
  {
    hide Enabled, Apply, Held, Sound, Active, Closes, WorkStep, JobsOk, TasksOk, IndexReadable;
    SoundParts(s);
    WorkEnabled(s, a);
    var u := Apply(s, a);
    StepEvolves(s, a);
    forall t | t in u.tasks ensures !Closes(u, u.tasks[t], id) {
      TaskOrigin(s, a, t);
      if t in s.tasks && u.tasks[t] == s.tasks[t] {
        NotClosingStays(s, u, t, id);
      } else if a.Work? && !s.tasks[t].phase.Failing? && !s.tasks[t].phase.Succeeding? {
        WorkApplies(s, t, a.result);
        BlockedWork(s, t, a.result, key, id);
      } else {
        NotClosesYet(u, u.tasks[t], id);
      }
    }
  }

  lemma {:induction false} NotClosingStays(s: State, u: State, t: nat, id: JobId)
    requires t in s.tasks && TasksOk(s) && s.stream.entries <= u.stream.entries && !Closes(s, s.tasks[t], id)
    ensures !Closes(u, s.tasks[t], id)
  {
    assert TaskOk(s, s.tasks[t]);
  }

  lemma {:induction false} NotClosesYet(s: State, task: Task, id: JobId)
    requires task.phase.Claiming? || task.phase.Acking?
    ensures !Closes(s, task, id)
  {
  }

  /** A step frees a blocked job if and only if it is one of the four. */
  lemma {:induction false} BlockedStep(s: State, a: Action, key: FileKey, id: JobId)
    requires Enabled(s, a) && Sound(s) && Blocked(s, key, id)
    ensures Blocked(Apply(s, a), key, id) <==> !Frees(s, a, key, id)
    ensures Frees(s, a, key, id) ==> Gone(Apply(s, a), key, id)
  {
    hide Enabled, Apply, Held, Active, NoCloser, JobsOk, FilesOk, IndexReadable, StreamOk, ClientsOk, TasksOk,
        AckedFinished;
    BlockedFile(s, a, key, id);
    BlockedJob(s, a, key, id);
    BlockedTasks(s, a, key, id);
    StepEvolves(s, a);
    KeysKnown(s, id);
  }

  lemma {:induction false} KeysKnown(s: State, id: JobId)
    requires Sound(s) && id in s.db.jobs
    ensures s.db.jobs[id].key in s.known
  {
  }

  // A freed job stays free ------------------------------------------------------------------------

  /** The job is finished, or its file is gone. */
  predicate Gone(s: State, key: FileKey, id: JobId) {
    id in s.db.jobs && key in s.known && (!Active(s.db.jobs[id]) || key !in s.db.files)
  }

  lemma {:induction false} GoneStep(s: State, a: Action, key: FileKey, id: JobId)
    requires Enabled(s, a) && Sound(s) && Gone(s, key, id)
    ensures Gone(Apply(s, a), key, id)
  {
    hide Enabled, Apply, Active, JobsOk, FilesOk, IndexReadable, StreamOk, ClientsOk, TasksOk, AckedFinished;
    StepEvolves(s, a);
    if key in Apply(s, a).db.files { MarkdownStays(s, a, key); }
  }

  lemma {:induction false} GoneForEver(s: State, acts: seq<Action>, key: FileKey, id: JobId)
    requires Sound(s) && Gone(s, key, id) && Run(s, acts)
    ensures Gone(After(s, acts), key, id)
    decreases |acts|
  {
    hide Enabled, Apply, Gone, Sound;
    if acts != [] {
      SoundStep(s, acts[0]);
      GoneStep(s, acts[0], key, id);
      GoneForEver(Apply(s, acts[0]), acts[1..], key, id);
    }
  }

  predicate NeverFreed(s: State, acts: seq<Action>, key: FileKey, id: JobId)
    requires Run(s, acts)
    decreases |acts|
  {
    acts == [] || (!Frees(s, acts[0], key, id) && NeverFreed(Apply(s, acts[0]), acts[1..], key, id))
  }

  /** A blocked job is still blocked at the end of a run if and only if no step of the run freed it, whatever the
      workers and the services do, publishes that fail and deletions included. */
  lemma {:induction false} BlockedUntilFreed(s: State, acts: seq<Action>, key: FileKey, id: JobId)
    requires Sound(s) && Blocked(s, key, id) && Run(s, acts)
    ensures Blocked(After(s, acts), key, id) <==> NeverFreed(s, acts, key, id)
    decreases |acts|
  {
    hide Enabled, Apply, Sound, Frees, Blocked, Gone;
    if acts != [] {
      var u := Apply(s, acts[0]);
      SoundStep(s, acts[0]);
      BlockedStep(s, acts[0], key, id);
      if Frees(s, acts[0], key, id) {
        GoneForEver(u, acts[1..], key, id);
        GoneIsNotBlocked(After(u, acts[1..]), key, id);
      } else {
        BlockedUntilFreed(u, acts[1..], key, id);
      }
    }
  }

  lemma {:induction false} GoneIsNotBlocked(s: State, key: FileKey, id: JobId)
    requires Gone(s, key, id)
    ensures !Blocked(s, key, id)
  {
  }

  /** While a job is blocked no index job can be created for its file, from whatever statuses, and none of its delivered
      entries is acknowledged. */
  lemma {:induction false} BlockedRefusesAll(s: State, key: FileKey, id: JobId)
    requires Sound(s) && Blocked(s, key, id)
    ensures forall from: set<FileStatus> :: !CanCreate(s.db, key, IndexJob, from)
    ensures forall e :: 0 <= e < s.stream.cursor && e < |s.stream.entries| && s.stream.entries[e] == id ==>
        e in s.stream.pending
  {
    hide Active, Held, JobsOk, FilesOk, IndexReadable, StreamOk, ClientsOk, TasksOk, NoCloser;
    assert HasActive(s.db.jobs, key, IndexJob);
  }

  /** Without failed publishes and deletions a blocked job stays blocked for ever. */
  lemma {:induction false} BlockedForEver(s: State, acts: seq<Action>, key: FileKey, id: JobId)
    requires Sound(s) && Blocked(s, key, id) && Run(s, acts) && CalmRun(acts)
    ensures Blocked(After(s, acts), key, id)
    ensures forall from: set<FileStatus> :: !CanCreate(After(s, acts).db, key, IndexJob, from)
    decreases |acts|
  {
    hide Enabled, Apply, Sound, Blocked, Frees, CanCreate, Calm;
    if acts == [] {
      BlockedRefusesAll(s, key, id);
    } else {
      SoundStep(s, acts[0]);
      BlockedStep(s, acts[0], key, id);
      CalmFreesNothing(s, acts[0], key, id);
      BlockedForEver(Apply(s, acts[0]), acts[1..], key, id);
    }
  }

  lemma {:induction false} CalmFreesNothing(s: State, a: Action, key: FileKey, id: JobId)
    requires Calm(a)
    ensures !Frees(s, a, key, id)
  {
  }

  // When a job becomes blocked ----------------------------------------------------------------------

  /** Every job still has its file. */
  ghost predicate FilesPresent(s: State) {
    forall id :: id in s.db.jobs ==> s.db.jobs[id].key in s.db.files
  }

  lemma {:induction false} FilesPresentStep(s: State, a: Action)
    requires Enabled(s, a) && Calm(a) && FilesPresent(s)
    ensures FilesPresent(Apply(s, a))
  {
    hide NextOf, HasActive;
  }

  /** The only task about to mark the job stops. */
  predicate Stops(s: State, a: Action, id: JobId) {
    && a.Abandon? && a.task in s.tasks && Closes(s, s.tasks[a.task], id)
    && forall t :: t in s.tasks && t != a.task ==> !Closes(s, s.tasks[t], id)
  }

  /** The task of another job, left over from before, moves the file on. */
  predicate Overtakes(s: State, a: Action, key: FileKey, id: JobId) {
    && a.Work? && a.task in s.tasks && s.tasks[a.task].job.Some? && s.tasks[a.task].job.value.key == key
    && s.tasks[a.task].entry < |s.stream.entries| && s.stream.entries[s.tasks[a.task].entry] != id
    && (  (s.tasks[a.task].phase.IndexEnd? && CanTransition(s.db.files, key, {Indexing}))
       || (s.tasks[a.task].phase.IndexFail? && CanTransition(s.db.files, key, {IndexQueued, Indexing})))
  }

  predicate Blocks(s: State, a: Action, key: FileKey, id: JobId) {
    IsActiveIndexJob(s, key, id) && (Stops(s, a, id) || Overtakes(s, a, key, id))
  }

  /** What calm runs keep. */
  ghost predicate Steady(s: State) {
    Sound(s) && Covered(s, IndexJob) && ClosersOk(s, IndexJob) && FilesPresent(s)
  }

  lemma {:induction false} SteadyStep(s: State, a: Action)
    requires Enabled(s, a) && Calm(a) && Steady(s)
    ensures Steady(Apply(s, a))
  {
    hide Enabled, Apply, Calm, Sound, Covered, ClosersOk, FilesPresent;
    SoundStep(s, a);
    CoveredStep(s, a, IndexJob);
    ClosersStep(s, a, IndexJob);
    FilesPresentStep(s, a);
  }

  lemma {:induction false} StopBlocks(s: State, a: Action, key: FileKey, id: JobId)
    requires Enabled(s, a) && Steady(s) && IsActiveIndexJob(s, key, id) && Stops(s, a, id)
    ensures !Blocked(s, key, id) && Blocked(Apply(s, a), key, id)
  {
    hide Sound, Covered, Active, Held;
    assert CloserOk(s, s.tasks[a.task], IndexJob);
  }

  lemma {:induction false} OvertakeBlocks(s: State, a: Action, key: FileKey, id: JobId)
    requires Enabled(s, a) && Steady(s) && IsActiveIndexJob(s, key, id) && Overtakes(s, a, key, id)
    ensures !Blocked(s, key, id) && Blocked(Apply(s, a), key, id)
  {
    hide Sound, Covered, Active, HasActive, CloserOk;
    var u := Apply(s, a);
    forall t | t in u.tasks ensures !Closes(u, u.tasks[t], id) {
      if t != a.task { HeldHasNoCloser(s, t, key, id); }
    }
  }

  lemma {:induction false} HeldHasNoCloser(s: State, t: nat, key: FileKey, id: JobId)
    requires Steady(s) && IsActiveIndexJob(s, key, id) && Held(s.db.files, key, IndexJob) && t in s.tasks
    ensures !Closes(s, s.tasks[t], id)
  {
    hide Sound, Covered, Active, Held;
    assert CloserOk(s, s.tasks[t], IndexJob);
  }

  lemma {:induction false} OnlyWorkReleases(s: State, a: Action, key: FileKey)
    requires Enabled(s, a) && Calm(a) && ClientsOk(s) && FilesOk(s)
    requires Held(s.db.files, key, IndexJob) && !Held(Apply(s, a).db.files, key, IndexJob)
    ensures a.Work? && a.task in s.tasks
  {
    hide HasActive, NextOf, JobsAfter;
  }

  /** Only the last transition or the failure transition of some task takes a file out of index_queued and indexing. */
  lemma {:induction false} HeldEnds(s: State, tid: nat, r: World, key: FileKey)
    requires Enabled(s, Work(tid, r))
    requires Held(s.db.files, key, IndexJob) && !Held(WorkStep(s, tid, r).db.files, key, IndexJob)
    ensures var t := s.tasks[tid];
            && t.job.Some? && t.job.value.key == key
            && (  (t.phase.IndexEnd? && CanTransition(s.db.files, key, {Indexing}))
               || (t.phase.IndexFail? && CanTransition(s.db.files, key, {IndexQueued, Indexing})))
  {
    hide NextOf, JobsAfter;
  }

  /** After that transition the task is about to mark its job. */
  lemma {:induction false} ReleaserCloses(s: State, tid: nat, r: World, key: FileKey)
    requires Enabled(s, Work(tid, r)) && s.tasks[tid].job.Some? && s.tasks[tid].job.value.key == key
    requires (s.tasks[tid].phase.IndexEnd? && CanTransition(s.db.files, key, {Indexing}))
          || (s.tasks[tid].phase.IndexFail? && CanTransition(s.db.files, key, {IndexQueued, Indexing}))
    ensures tid in WorkStep(s, tid, r).tasks
    ensures Closes(WorkStep(s, tid, r), WorkStep(s, tid, r).tasks[tid], s.stream.entries[s.tasks[tid].entry])
  {
    hide CanTransition, FilesAfter, JobsAfter;
  }

  lemma {:induction false} OvertakenIfReleased(s: State, a: Action, key: FileKey, id: JobId)
    requires Enabled(s, a) && Calm(a) && Steady(s) && Held(s.db.files, key, IndexJob)
    requires !Held(Apply(s, a).db.files, key, IndexJob) && NoCloser(Apply(s, a), id)
    ensures Overtakes(s, a, key, id)
  {
    hide Apply, Calm, JobsOk, FilesOk, IndexReadable, StreamOk, AckedFinished, TasksOk, Covered, ClosersOk,
        FilesPresent, Held,
        WorkStep, CanTransition, Closes;
    OnlyWorkReleases(s, a, key);
    WorkApplies(s, a.task, a.result);
    HeldEnds(s, a.task, a.result, key);
    ReleaserCloses(s, a.task, a.result, key);
  }

  lemma {:induction false} ClosingWork(s: State, tid: nat, r: World, id: JobId)
    requires Enabled(s, Work(tid, r)) && Closes(s, s.tasks[tid], id) && id in s.db.jobs
    ensures id in WorkStep(s, tid, r).db.jobs && !Active(WorkStep(s, tid, r).db.jobs[id])
  {
    hide FilesAfter, NextOf;
  }

  /** A task that does not step is still there, unless it stops. */
  lemma {:induction false} TaskRemains(s: State, a: Action, t: nat)
    requires Enabled(s, a) && t in s.tasks && a != Abandon(t) && !(a.Work? && a.task == t)
    ensures t in Apply(s, a).tasks && Apply(s, a).tasks[t] == s.tasks[t]
        && s.stream.entries <= Apply(s, a).stream.entries
  {
    hide NextOf, FilesAfter, JobsAfter, Transition, HasActive, CancelPending;
  }

  lemma {:induction false} CloserEnds(s: State, a: Action, t: nat, id: JobId)
    requires Enabled(s, a) && t in s.tasks && Closes(s, s.tasks[t], id) && id in s.db.jobs
    requires id in Apply(s, a).db.jobs && Active(Apply(s, a).db.jobs[id]) && NoCloser(Apply(s, a), id)
    ensures a == Abandon(t)
  {
    hide Enabled, Apply, Active, WorkStep;
    if a.Work? && a.task == t {
      ClosingWork(s, t, a.result, id);
      WorkApplies(s, t, a.result);
    } else if a != Abandon(t) {
      TaskRemains(s, a, t);
    }
  }

  lemma {:induction false} StoppedIfUnclosed(s: State, a: Action, t: nat, id: JobId)
    requires Enabled(s, a) && t in s.tasks && Closes(s, s.tasks[t], id) && id in s.db.jobs
    requires id in Apply(s, a).db.jobs && Active(Apply(s, a).db.jobs[id]) && NoCloser(Apply(s, a), id)
    ensures Stops(s, a, id)
  {
    hide Enabled, Apply, Active, Closes, NoCloser;
    CloserEnds(s, a, t, id);
    forall v | v in s.tasks && v != t ensures !Closes(s, s.tasks[v], id) {
      if Closes(s, s.tasks[v], id) { CloserEnds(s, a, v, id); }
    }
  }

  lemma {:induction false} NewJobIsHeld(s: State, a: Action, key: FileKey, id: JobId)
    requires Enabled(s, a) && id !in s.db.jobs && IsActiveIndexJob(Apply(s, a), key, id)
    ensures Held(Apply(s, a).db.files, key, IndexJob)
  {
    hide HasActive, NextOf, FilesAfter;
  }

  lemma {:induction false} NewlyBlocked(s: State, a: Action, key: FileKey, id: JobId)
    requires Enabled(s, a) && Calm(a) && Steady(s) && !Blocked(s, key, id) && Blocked(Apply(s, a), key, id)
    ensures Blocks(s, a, key, id)
  {
    hide Enabled, Apply, Calm, Sound, Covered, ClosersOk, Active, Held, Closes, Overtakes, Stops;
    StepEvolves(s, a);
    if id !in s.db.jobs {
      NewJobIsHeld(s, a, key, id);
    } else if Held(s.db.files, key, IndexJob) {
      OvertakenIfReleased(s, a, key, id);
    } else {
      var t :| t in s.tasks && Closes(s, s.tasks[t], id);
      StoppedIfUnclosed(s, a, t, id);
    }
  }

  /** The exact condition for a step: an active index job becomes blocked if and only if the only task about to mark it
      stops, or a left-over task of another job moves its file on. */
  lemma {:induction false} BlocksExactly(s: State, a: Action, key: FileKey, id: JobId)
    requires Enabled(s, a) && Calm(a) && Steady(s)
    ensures !Blocked(s, key, id) && Blocked(Apply(s, a), key, id) <==> Blocks(s, a, key, id)
  {
    hide Enabled, Apply, Calm, Steady, Blocked, Stops, Overtakes;
    if Blocks(s, a, key, id) {
      if Stops(s, a, id) { StopBlocks(s, a, key, id); } else { OvertakeBlocks(s, a, key, id); }
    } else if !Blocked(s, key, id) && Blocked(Apply(s, a), key, id) {
      NewlyBlocked(s, a, key, id);
    }
  }

  predicate NeverBlocks(s: State, acts: seq<Action>, key: FileKey, id: JobId)
    requires Run(s, acts)
    decreases |acts|
  {
    acts == [] || (!Blocks(s, acts[0], key, id) && NeverBlocks(Apply(s, acts[0]), acts[1..], key, id))
  }

  lemma {:induction false} BlockedSteadily(s: State, acts: seq<Action>, key: FileKey, id: JobId)
    requires Steady(s) && Run(s, acts) && CalmRun(acts)
    ensures Blocked(After(s, acts), key, id) <==> Blocked(s, key, id) || !NeverBlocks(s, acts, key, id)
    ensures Steady(After(s, acts))
    decreases |acts|
  {
    hide Enabled, Apply, Calm, Blocked, Blocks, Sound, Covered, ClosersOk, FilesPresent;
    if acts != [] {
      SteadyStep(s, acts[0]);
      BlocksExactly(s, acts[0], key, id);
      if Blocked(s, key, id) {
        BlockedStep(s, acts[0], key, id);
        CalmFreesNothing(s, acts[0], key, id);
      }
      BlockedSteadily(Apply(s, acts[0]), acts[1..], key, id);
    }
  }

  /** The exact condition for a run: without failed publishes and deletions, a job is blocked at the end if and only if
      one of those two steps took place on the way. */
  lemma {:induction false} IndexingBlockedExactly(acts: seq<Action>, key: FileKey, id: JobId)
    requires Run(INIT, acts) && CalmRun(acts)
    ensures Blocked(After(INIT, acts), key, id) <==> !NeverBlocks(INIT, acts, key, id)
  {
    hide Run, After, Enabled, Apply, CalmRun, NeverBlocks, Sound, Covered, ClosersOk;
    InitCovered(IndexJob);
    BlockedSteadily(INIT, acts, key, id);
  }

  /** A task that stops before marking an active index job blocks it if and only if no other task is about to mark
      it. */
  lemma {:induction false} StopBlocksExactly(acts: seq<Action>, tid: nat, id: JobId)
    requires Run(INIT, acts) && CalmRun(acts)
    requires var s := After(INIT, acts);
             tid in s.tasks && Closes(s, s.tasks[tid], id) && id in s.db.jobs
                 && IsActiveIndexJob(s, s.db.jobs[id].key, id)
    ensures var s := After(INIT, acts);
            && Enabled(s, Abandon(tid))
            && (Blocked(Apply(s, Abandon(tid)), s.db.jobs[id].key, id)
                <==> forall t :: t in s.tasks && t != tid ==> !Closes(s, s.tasks[t], id))
  {
    hide Run, After, Apply, CalmRun, NeverBlocks, Sound, Covered, ClosersOk, Active, Closes, Held;
    InitCovered(IndexJob);
    var s := After(INIT, acts);
    BlockedSteadily(INIT, acts, s.db.jobs[id].key, id);
    BlocksExactly(s, Abandon(tid), s.db.jobs[id].key, id);
  }
}
