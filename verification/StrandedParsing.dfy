/** When a file is left in parse_queued or parsing without an active parse job, in runs without failed publishes and
    deletions: for each step, and for whole runs, collisions before and reclaims included. */
module StrandedParsing {
  import opened Optional
  import opened Protocol
  import opened ProtocolSafety
  import opened MidwayFiles

  /** A task marks the active parse job of a file that is still in parse_queued or parsing. */
  predicate Strands(s: State, a: Action, key: FileKey) {
    && a.Work? && a.task in s.tasks && (s.tasks[a.task].phase.Failing? || s.tasks[a.task].phase.Succeeding?)
    && s.tasks[a.task].entry < |s.stream.entries| && MarksFor(s, s.stream.entries[s.tasks[a.task].entry], key)
  }

  predicate MarksFor(s: State, id: JobId, key: FileKey) {
    && id in s.db.jobs && s.db.jobs[id].key == key && s.db.jobs[id].jobType.ParseJob? && Active(s.db.jobs[id])
    && Held(s.db.files, key, ParseJob)
  }

  /** A task that is still at work on the file moves it on. */
  predicate Rescues(s: State, a: Action, key: FileKey) {
    && a.Work? && a.task in s.tasks && s.tasks[a.task].job.Some? && s.tasks[a.task].job.value.key == key
    && (  (s.tasks[a.task].phase.ParseEnd? && CanTransition(s.db.files, key, {Parsing}))
       || (s.tasks[a.task].phase.ParseFail? && CanTransition(s.db.files, key, {ParseQueued, Parsing})))
  }

  // Steps ----------------------------------------------------------------------------------------------

  lemma {:induction false} MarkingCloses(s: State, a: Action, key: FileKey)
    requires Enabled(s, a) && Sound(s) && Strands(s, a, key)
    ensures !HasActive(Apply(s, a).db.jobs, key, ParseJob) && Held(Apply(s, a).db.files, key, ParseJob)
  {
    hide JobsOk, FilesOk, IndexReadable, StreamOk, ClientsOk, TasksOk, AckedFinished, NextOf;
    var id := s.stream.entries[s.tasks[a.task].entry];
    var u := Apply(s, a);
    forall i | i in u.db.jobs && u.db.jobs[i].key == key && u.db.jobs[i].jobType == ParseJob
      ensures !Active(u.db.jobs[i])
    {
      if Active(u.db.jobs[i]) { SameJob(s, i, id); }
    }
  }

  /** The exact condition for a step to strand a file. */
  lemma {:induction false} StrandsExactly(s: State, a: Action, key: FileKey)
    requires Enabled(s, a) && Calm(a) && Sound(s) && !Stranded(s, key)
    ensures Stranded(Apply(s, a), key) <==> Strands(s, a, key)
  {
    hide Enabled, Apply, Calm, Active, Held, Sound;
    if Strands(s, a, key) {
      MarkingCloses(s, a, key);
    } else if Stranded(Apply(s, a), key) {
      if Held(s.db.files, key, ParseJob) {
        var id :| id in s.db.jobs && s.db.jobs[id].key == key && s.db.jobs[id].jobType == ParseJob
            && Active(s.db.jobs[id]);
        StepEvolves(s, a);
        WorkEnabled(s, a);
        if !Active(Apply(s, a).db.jobs[id]) { OnlyTasksClose(s, a, id); }
      } else {
        HeldArises(s, a, key, ParseJob);
      }
    }
  }

  lemma {:induction false} CollisionStands(s: State, a: Action)
    requires Enabled(s, a) && Sound(s) && Collides(s, a)
    ensures var t, u := s.tasks[a.task], Apply(s, a);
            && a.task in u.tasks && u.tasks[a.task].phase.Failing? && u.tasks[a.task].entry == t.entry
            && u.db == s.db && u.stream == s.stream && t.entry < |s.stream.entries|
            && s.stream.entries[t.entry] in s.db.jobs && s.db.jobs[s.stream.entries[t.entry]].jobType.ParseJob?
            && Held(s.db.files, s.db.jobs[s.stream.entries[t.entry]].key, ParseJob)
  {
    hide JobsOk, FilesOk, IndexReadable, StreamOk, ClientsOk, AckedFinished, ReadStep, HasActive;
    assert TaskOk(s, s.tasks[a.task]);
  }

  lemma {:induction false} CollidersAreStarting(s: State, a: Action)
    requires Collides(s, a)
    ensures !s.tasks[a.task].phase.Failing? && !s.tasks[a.task].phase.Succeeding?
  {
  }

  /** Whoever strands a file has collided: a task comes to stand before the marking of an active parse job, with its
      file still in parse_queued or parsing, by its own collision and in no other way. */
  lemma {:induction false} OnlyCollidersStrand(s: State, a: Action)
    requires Enabled(s, a) && Calm(a) && Sound(s) && a.Work? && a.task in Apply(s, a).tasks
    ensures !CloserOk(Apply(s, a), Apply(s, a).tasks[a.task], ParseJob)
       <==> Collides(s, a) && Active(s.db.jobs[s.stream.entries[s.tasks[a.task].entry]])
  {
    hide Enabled, Apply, Calm, Active, Held, CloserOk, Collides, Sound;
    WorkEnabled(s, a);
    TaskOrigin(s, a, a.task);
    if Collides(s, a) {
      CollisionStands(s, a);
      CollidersAreStarting(s, a);
      StandsBefore(Apply(s, a), Apply(s, a).tasks[a.task]);
    } else if s.tasks[a.task].phase.Failing? || s.tasks[a.task].phase.Succeeding? {
      NotClosing(Apply(s, a), Apply(s, a).tasks[a.task], ParseJob);
    } else {
      EntersClosing(s, a, ParseJob);
    }
  }

  lemma {:induction false} StandsBefore(s: State, task: Task)
    requires task.phase.Failing? && task.entry < |s.stream.entries| && s.stream.entries[task.entry] in s.db.jobs
    requires var row := s.db.jobs[s.stream.entries[task.entry]];
             row.jobType.ParseJob? && Held(s.db.files, row.key, ParseJob)
    ensures CloserOk(s, task, ParseJob) <==> !Active(s.db.jobs[s.stream.entries[task.entry]])
  {
  }

  /** And a task that stands there did so from its collision on: nobody else brings it about. */
  lemma {:induction false} OthersDoNotHold(s: State, a: Action, tid: nat)
    requires Enabled(s, a) && Calm(a) && Sound(s) && tid in s.tasks && tid in Apply(s, a).tasks
    requires Apply(s, a).tasks[tid] == s.tasks[tid] && CloserOk(s, s.tasks[tid], ParseJob)
    ensures CloserOk(Apply(s, a), s.tasks[tid], ParseJob)
  {
    hide Enabled, Apply, Calm, Active, Held, JobsOk, FilesOk, IndexReadable, StreamOk, ClientsOk, AckedFinished,
        PhaseOk;
    StepEvolves(s, a);
    var task, u := s.tasks[tid], Apply(s, a);
    assert TaskOk(s, task);
    var id := s.stream.entries[task.entry];
    if (task.phase.Failing? || task.phase.Succeeding?) && u.db.jobs[id].jobType == ParseJob && Active(u.db.jobs[id]) {
      if Held(u.db.files, u.db.jobs[id].key, ParseJob) && !Held(s.db.files, u.db.jobs[id].key, ParseJob) {
        HeldArises(s, a, u.db.jobs[id].key, ParseJob);
      }
    }
  }

  /** The task collides at some step of the run. */
  predicate CollidesIn(s: State, acts: seq<Action>, tid: nat)
    requires Run(s, acts)
    decreases |acts|
  {
    acts != [] && ((Collides(s, acts[0]) && acts[0].task == tid) || CollidesIn(Apply(s, acts[0]), acts[1..], tid))
  }

  lemma {:induction false} ComesToStandByCollision(s: State, a: Action, tid: nat)
    requires Enabled(s, a) && Calm(a) && Sound(s) && tid in Apply(s, a).tasks
    requires tid in s.tasks ==> CloserOk(s, s.tasks[tid], ParseJob)
    ensures CloserOk(Apply(s, a), Apply(s, a).tasks[tid], ParseJob) || (Collides(s, a) && a.task == tid)
  {
    hide Enabled, Apply, Calm, CloserOk, Collides, Sound;
    TaskOrigin(s, a, tid);
    if tid in s.tasks && Apply(s, a).tasks[tid] == s.tasks[tid] {
      OthersDoNotHold(s, a, tid);
    } else if a.Work? {
      OnlyCollidersStrand(s, a);
    } else {
      NotClosing(Apply(s, a), Apply(s, a).tasks[tid], ParseJob);
    }
  }

  lemma {:induction false} StandsOnlyAfterCollision(s: State, acts: seq<Action>, tid: nat)
    requires Sound(s) && Run(s, acts) && CalmRun(acts) && (tid in s.tasks ==> CloserOk(s, s.tasks[tid], ParseJob))
    requires tid in After(s, acts).tasks && !CloserOk(After(s, acts), After(s, acts).tasks[tid], ParseJob)
    ensures CollidesIn(s, acts, tid)
    decreases |acts|
  {
    hide Enabled, Apply, Calm, CloserOk, Collides, Sound;
    if acts != [] {
      var u := Apply(s, acts[0]);
      SoundStep(s, acts[0]);
      if tid in u.tasks { ComesToStandByCollision(s, acts[0], tid); }
      if tid !in u.tasks || CloserOk(u, u.tasks[tid], ParseJob) {
        StandsOnlyAfterCollision(u, acts[1..], tid);
      }
    }
  }

  lemma {:induction false} StrandingIsNotOk(s: State, a: Action, key: FileKey)
    requires Strands(s, a, key)
    ensures !CloserOk(s, s.tasks[a.task], ParseJob)
  {
  }

  /** The task that strands a file started to parse, earlier in the run, while its file was already being parsed. */
  lemma {:induction false} StranderHasCollided(acts: seq<Action>, a: Action, key: FileKey)
    requires Run(INIT, acts) && CalmRun(acts) && Strands(After(INIT, acts), a, key)
    ensures CollidesIn(INIT, acts, a.task)
  {
    hide Run, After, Enabled, Apply, CalmRun, Sound, CollidesIn, CloserOk, MarksFor;
    InitCovered(ParseJob);
    StrandingIsNotOk(After(INIT, acts), a, key);
    StandsOnlyAfterCollision(INIT, acts, a.task);
  }

  // When a stranded file is moved on ----------------------------------------------------------------------

  lemma {:induction false} RescueReleases(s: State, a: Action, key: FileKey)
    requires Enabled(s, a) && Rescues(s, a, key)
    ensures !Held(Apply(s, a).db.files, key, ParseJob)
  {
    hide NextOf, JobsAfter;
  }

  lemma {:induction false} OnlyWorkMovesOn(s: State, a: Action, key: FileKey)
    requires Enabled(s, a) && Calm(a) && ClientsOk(s) && FilesOk(s)
    requires Held(s.db.files, key, ParseJob) && !Held(Apply(s, a).db.files, key, ParseJob)
    ensures a.Work? && a.task in s.tasks
  {
    hide HasActive, NextOf, JobsAfter;
  }

  lemma {:induction false} OnlyRescuesMoveOn(s: State, tid: nat, r: World, key: FileKey)
    requires Enabled(s, Work(tid, r))
    requires Held(s.db.files, key, ParseJob) && !Held(WorkStep(s, tid, r).db.files, key, ParseJob)
    ensures Rescues(s, Work(tid, r), key)
  {
    hide NextOf, JobsAfter;
  }

  lemma {:induction false} StillNoJob(s: State, a: Action, key: FileKey)
    requires Enabled(s, a) && Sound(s) && Stranded(s, key)
    ensures !HasActive(Apply(s, a).db.jobs, key, ParseJob)
  {
    hide Enabled, Apply, JobsOk, IndexReadable, StreamOk, AckedFinished, TasksOk, FilesOk, ClientsOk, Active;
    StepEvolves(s, a);
    var u := Apply(s, a);
    forall id | id in u.db.jobs && u.db.jobs[id].key == key && u.db.jobs[id].jobType == ParseJob
      ensures !Active(u.db.jobs[id])
    {
      NewJobNeedsRest(s, a, id);
    }
  }

  /** A stranded file stays stranded until, and only until, a task that is still at work on it moves it on. */
  lemma {:induction false} StaysStrandedExactly(s: State, a: Action, key: FileKey)
    requires Enabled(s, a) && Calm(a) && Sound(s) && Stranded(s, key)
    ensures Stranded(Apply(s, a), key) <==> !Rescues(s, a, key)
  {
    hide Apply, Calm, Held, HasActive, JobsOk, IndexReadable, StreamOk, AckedFinished, TasksOk, FilesOk, ClientsOk,
        Rescues, WorkStep;
    StillNoJob(s, a, key);
    if Rescues(s, a, key) {
      RescueReleases(s, a, key);
    } else if !Held(Apply(s, a).db.files, key, ParseJob) {
      OnlyWorkMovesOn(s, a, key);
      WorkApplies(s, a.task, a.result);
      OnlyRescuesMoveOn(s, a.task, a.result, key);
    }
  }

  // Whole runs ---------------------------------------------------------------------------------------------

  predicate NeverRescued(s: State, acts: seq<Action>, key: FileKey)
    requires Run(s, acts)
    decreases |acts|
  {
    acts == [] || (!Rescues(s, acts[0], key) && NeverRescued(Apply(s, acts[0]), acts[1..], key))
  }

  /** Some step strands the file, and no later one moves it on. */
  predicate StrandsForGood(s: State, acts: seq<Action>, key: FileKey)
    requires Run(s, acts)
    decreases |acts|
  {
    acts != []
    && (  (Strands(s, acts[0], key) && NeverRescued(Apply(s, acts[0]), acts[1..], key))
       || StrandsForGood(Apply(s, acts[0]), acts[1..], key))
  }

  lemma {:induction false} StrandedInRun(s: State, acts: seq<Action>, key: FileKey)
    requires Sound(s) && Run(s, acts) && CalmRun(acts)
    ensures Stranded(After(s, acts), key) <==>
        (Stranded(s, key) && NeverRescued(s, acts, key)) || StrandsForGood(s, acts, key)
    decreases |acts|
  {
    hide Enabled, Apply, Calm, Sound, Stranded, Rescues, Strands;
    if acts != [] {
      var u := Apply(s, acts[0]);
      SoundStep(s, acts[0]);
      StrandedInRun(u, acts[1..], key);
      if Stranded(s, key) {
        StaysStrandedExactly(s, acts[0], key);
        StrandedIsNotStrandedAgain(s, acts[0], key);
      } else {
        StrandsExactly(s, acts[0], key);
      }
    }
  }

  lemma {:induction false} StrandedIsNotStrandedAgain(s: State, a: Action, key: FileKey)
    requires Stranded(s, key)
    ensures !Strands(s, a, key)
  {
  }

  /** The exact condition for a run: without failed publishes and deletions, whatever crashes, is reclaimed or collided
      before, a file is in parse_queued or parsing without an active parse job at the end if and only if on the way a
      task marked the active parse job of the file while it was still there, and no task moved it on after that. */
  lemma {:induction false} ParsingStrandedExactly(acts: seq<Action>, key: FileKey)
    requires Run(INIT, acts) && CalmRun(acts)
    ensures Stranded(After(INIT, acts), key) <==> StrandsForGood(INIT, acts, key)
  {
    hide Run, After, Enabled, Apply, CalmRun, Sound, StrandsForGood;
    InitCovered(ParseJob);
    NothingStrandedAtFirst(key);
    StrandedInRun(INIT, acts, key);
  }

  lemma {:induction false} NothingStrandedAtFirst(key: FileKey)
    ensures !Stranded(INIT, key)
  {
  }
}
