/** Files that are queued or being worked on always have a job that will move them. The index half holds in every run in
    which publishing succeeds and nothing is deleted, whatever crashes and is reclaimed; the parse half holds exactly as
    long as no worker starts to parse a file that is already being parsed. */
module MidwayFiles {
  import opened Optional
  import opened Protocol
  import opened ProtocolSafety

  /** No publish fails and no file is deleted. */
  predicate Calm(a: Action) {
    match a
    case Publish(_, accepted, _) => accepted
    case UndoUpload(_, _) => false
    case MarkUnpublished(_, _) => false
    case RestoreFile(_, _) => false
    case AskDelete(_, _) => false
    case CancelJobs(_) => false
    case RemoveFile(_) => false
    case _ => true
  }

  ghost predicate CalmRun(acts: seq<Action>) {
    forall i :: 0 <= i < |acts| ==> Calm(acts[i])
  }

  predicate Midway(status: FileStatus, t: JobType) {
    if t.ParseJob? then status == ParseQueued || status == Parsing else status == IndexQueued || status == Indexing
  }

  predicate Held(files: Files, key: FileKey, t: JobType) {
    key in files && Midway(files[key].status, t)
  }

  /** The guard of the branch that strands a file: parsing starts while the file is already being parsed. */
  predicate Collides(s: State, a: Action) {
    && a.Work? && a.task in s.tasks && s.tasks[a.task].phase.ParseStart? && s.tasks[a.task].job.Some?
    && s.tasks[a.task].job.value.key in s.db.files && s.db.files[s.tasks[a.task].job.value.key].status.Parsing?
  }

  predicate CollisionFree(s: State, acts: seq<Action>)
    requires Run(s, acts)
    decreases |acts|
  {
    acts == [] || (!Collides(s, acts[0]) && CollisionFree(Apply(s, acts[0]), acts[1..]))
  }

  // Invariants ----------------------------------------------------------------------------

  ghost predicate Covered(s: State, t: JobType) {
    forall key :: Held(s.db.files, key, t) ==> HasActive(s.db.jobs, key, t)
  }

  /** A task that is about to close an active job has already moved the file on. */
  predicate CloserOk(s: State, task: Task, t: JobType) {
    (task.phase.Failing? || task.phase.Succeeding?) && task.entry < |s.stream.entries|
        && s.stream.entries[task.entry] in s.db.jobs ==>
      var row := s.db.jobs[s.stream.entries[task.entry]];
      row.jobType == t && Active(row) ==> !Held(s.db.files, row.key, t)
  }

  ghost predicate ClosersOk(s: State, t: JobType) {
    forall tid :: tid in s.tasks ==> CloserOk(s, s.tasks[tid], t)
  }

  // Steps ----------------------------------------------------------------------------------

  /** A file becomes queued only together with a new job, when there was no active one. */
  lemma {:induction false} HeldArises(s: State, a: Action, key: FileKey, t: JobType)
    requires Enabled(s, a) && Calm(a) && Held(Apply(s, a).db.files, key, t) && !Held(s.db.files, key, t)
    ensures !HasActive(s.db.jobs, key, t) && HasActive(Apply(s, a).db.jobs, key, t)
  {
    hide NextOf, JobsAfter;
    if a.CreateJob? {
      assert a.id in Apply(s, a).db.jobs;
    }
  }

  /** In calm runs only the task of a job closes it. */
  lemma {:induction false} OnlyTasksClose(s: State, a: Action, id: JobId)
    requires Enabled(s, a) && Calm(a) && id in s.db.jobs && Active(s.db.jobs[id])
    requires id in Apply(s, a).db.jobs && !Active(Apply(s, a).db.jobs[id])
    ensures a.Work? && (s.tasks[a.task].phase.Failing? || s.tasks[a.task].phase.Succeeding?)
        && s.stream.entries[s.tasks[a.task].entry] == id
    ensures Apply(s, a).db.files == s.db.files
  {
    hide NextOf, HasActive, Transition;
  }

  lemma {:induction false} CoveredStep(s: State, a: Action, t: JobType)
    requires Enabled(s, a) && Calm(a) && Covered(s, t) && ClosersOk(s, t)
    ensures Covered(Apply(s, a), t)
  {
    hide Enabled, Apply, Calm, Active, Held, CloserOk;
    var u := Apply(s, a);
    forall key | Held(u.db.files, key, t) ensures HasActive(u.db.jobs, key, t) {
      if !Held(s.db.files, key, t) {
        HeldArises(s, a, key, t);
      } else {
        StillActive(s, a, key, t);
      }
    }
  }

  lemma {:induction false} StillActive(s: State, a: Action, key: FileKey, t: JobType)
    requires Enabled(s, a) && Calm(a) && Held(s.db.files, key, t) && HasActive(s.db.jobs, key, t) && ClosersOk(s, t)
    ensures HasActive(Apply(s, a).db.jobs, key, t)
  {
    hide Enabled, Apply, Calm, Active, Held;
    StepEvolves(s, a);
    var id :| id in s.db.jobs && s.db.jobs[id].key == key && s.db.jobs[id].jobType == t && Active(s.db.jobs[id]);
    var u := Apply(s, a);
    WorkEnabled(s, a);
    assert a.Work? ==> CloserOk(s, s.tasks[a.task], t);
    if !Active(u.db.jobs[id]) {
      OnlyTasksClose(s, a, id);
      assert false;
    }
    assert id in u.db.jobs && Active(u.db.jobs[id]);
  }

  lemma {:induction false} WorkEnabled(s: State, a: Action)
    requires Enabled(s, a)
    ensures a.Work? ==> a.task in s.tasks && s.tasks[a.task].entry < |s.stream.entries|
  {
  }

  /** For a task that has read its job: the step before the closing phase moves the file on, unless the task
      collided. */
  lemma {:induction false} ClosesAfterMoving(files: Files, t: Task, r: World, row: JobRow, jobType: JobType)
    requires t.job.Some? && Snapshot(t.job.value, row) && PhaseOk(t, row) && row.jobType == jobType
    requires !(jobType.ParseJob? && t.phase.ParseStart? && row.key in files && files[row.key].status.Parsing?)
    requires ProcessStep(files, t, r).Goes?
    requires var next := ProcessStep(files, t, r).task; next.phase.Failing? || next.phase.Succeeding?
    ensures !Held(FilesAfter(files, t, r), row.key, jobType)
  {
  }

  lemma {:induction false} WorkApplies(s: State, tid: nat, r: World)
    requires Enabled(s, Work(tid, r))
    ensures Apply(s, Work(tid, r)) == WorkStep(s, tid, r)
  {
    hide WorkStep;
  }

  lemma {:induction false} ProcessKeepsEntry(files: Files, t: Task, r: World)
    requires t.job.Some?
    ensures ProcessStep(files, t, r).Goes? ==> ProcessStep(files, t, r).task.entry == t.entry
  {
    hide CanTransition;
  }

  /** A task reaches its closing phase only after moving the file on, unless it collided. */
  lemma {:induction false} EntersClosing(s: State, a: Action, t: JobType)
    requires Enabled(s, a) && a.Work? && Sound(s) && (t.ParseJob? ==> !Collides(s, a))
    requires a.task in Apply(s, a).tasks && !s.tasks[a.task].phase.Failing? && !s.tasks[a.task].phase.Succeeding?
    ensures CloserOk(Apply(s, a), Apply(s, a).tasks[a.task], t)
  {
    hide HasActive, JobsOk, FilesOk, IndexReadable, StreamOk, ClientsOk, AckedFinished, TasksOk, ProcessStep,
        FilesAfter, Held;
    StepEvolves(s, a);
    NextTaskFacts(s, a.task) by { SoundParts(s); }
    var task := s.tasks[a.task];
    var row := s.db.jobs[s.stream.entries[task.entry]];
    if task.job.Some? {
      var next := ProcessStep(s.db.files, task, a.result);
      ProcessKeepsEntry(s.db.files, task, a.result);
      if row.jobType == t && next.Goes? && (next.task.phase.Failing? || next.task.phase.Succeeding?) {
        ClosesAfterMoving(s.db.files, task, a.result, row, t);
      }
    }
  }

  lemma {:induction false} ClosersStep(s: State, a: Action, t: JobType)
    requires Enabled(s, a) && Calm(a) && Sound(s) && ClosersOk(s, t) && (t.ParseJob? ==> !Collides(s, a))
    ensures ClosersOk(Apply(s, a), t)
  {
    hide Enabled, Apply, Calm, Active, Held, CloserOk, Collides, Sound;
    var u := Apply(s, a);
    StepEvolves(s, a);
    forall tid | tid in u.tasks ensures CloserOk(u, u.tasks[tid], t) {
      TaskOrigin(s, a, tid);
      if tid in s.tasks && u.tasks[tid] == s.tasks[tid] {
        CloserPersists(s, a, tid, t);
      } else if a.Work? && !s.tasks[tid].phase.Failing? && !s.tasks[tid].phase.Succeeding? {
        EntersClosing(s, a, t);
      } else {
        NotClosing(u, u.tasks[tid], t);
      }
    }
  }

  lemma {:induction false} NotClosing(s: State, task: Task, t: JobType)
    requires task.phase.Claiming? || task.phase.Acking?
    ensures CloserOk(s, task, t)
  {
  }

  /** A task after a step is an old one, a new one at its start, or the one that stepped. */
  lemma {:induction false} TaskOrigin(s: State, a: Action, tid: nat)
    requires Enabled(s, a) && tid in Apply(s, a).tasks
    ensures a.Work? && a.task == tid ==>
        tid in s.tasks && (s.tasks[tid].phase.Failing? || s.tasks[tid].phase.Succeeding? ==>
        Apply(s, a).tasks[tid].phase.Acking?)
    ensures a.Work? && a.task != tid ==> tid in s.tasks && Apply(s, a).tasks[tid] == s.tasks[tid]
    ensures !a.Work? ==>
        (tid in s.tasks && Apply(s, a).tasks[tid] == s.tasks[tid]) || Apply(s, a).tasks[tid].phase.Claiming?
  {
    hide Transition, ProcessStep, ReadStep, HasActive, FilesAfter, CanTransition, JobsAfter, Claim, CancelPending;
  }

  lemma {:induction false} CloserPersists(s: State, a: Action, tid: nat, t: JobType)
    requires Enabled(s, a) && Calm(a) && Sound(s) && ClosersOk(s, t)
    requires tid in s.tasks && tid in Apply(s, a).tasks && Apply(s, a).tasks[tid] == s.tasks[tid]
    ensures CloserOk(Apply(s, a), s.tasks[tid], t)
  {
    hide Enabled, Apply, Calm, Active, Held, JobsOk, FilesOk, IndexReadable, StreamOk, ClientsOk, AckedFinished,
        PhaseOk;
    StepEvolves(s, a);
    var task := s.tasks[tid];
    assert TaskOk(s, task) && CloserOk(s, task, t);
    var id := s.stream.entries[task.entry];
    var u := Apply(s, a);
    var key := s.db.jobs[id].key;
    if (task.phase.Failing? || task.phase.Succeeding?) && u.db.jobs[id].jobType == t && Active(u.db.jobs[id])
        && Held(u.db.files, key, t) {
      HeldArises(s, a, key, t);
      assert false;
    }
  }

  // Runs -----------------------------------------------------------------------------------

  lemma {:induction false} CoveredRun(s: State, acts: seq<Action>, t: JobType)
    requires Sound(s) && Covered(s, t) && ClosersOk(s, t) && Run(s, acts) && CalmRun(acts) && (t.ParseJob? ==>
        CollisionFree(s, acts))
    ensures Covered(After(s, acts), t) && ClosersOk(After(s, acts), t) && Sound(After(s, acts))
    decreases |acts|
  {
    hide Sound, Enabled, Apply, Covered, ClosersOk, Collides, Calm;
    if acts != [] {
      SoundStep(s, acts[0]);
      CoveredStep(s, acts[0], t);
      ClosersStep(s, acts[0], t);
      CoveredRun(Apply(s, acts[0]), acts[1..], t);
    }
  }

  lemma {:induction false} InitCovered(t: JobType)
    ensures Sound(INIT) && Covered(INIT, t) && ClosersOk(INIT, t)
  {
  }

  /** When publishing succeeds and nothing is deleted, a file in index_queued or indexing always has an active index
      job, across crashes, reclaims and stale workers. */
  lemma {:induction false} IndexingIsNeverStuck(acts: seq<Action>, key: FileKey)
    requires Run(INIT, acts) && CalmRun(acts)
    requires var s := After(INIT, acts); key in s.db.files && s.db.files[key].status in {IndexQueued, Indexing}
    ensures HasActive(After(INIT, acts).db.jobs, key, IndexJob)
  {
    hide Run, After, HasActive, Enabled, Apply, Sound, ClosersOk, CalmRun;
    InitCovered(IndexJob);
    CoveredRun(INIT, acts, IndexJob);
    assert Held(After(INIT, acts).db.files, key, IndexJob);
  }

  /** The same for parsing, as long as no worker starts to parse a file that is already being parsed. */
  lemma {:induction false} ParsingIsNotStuck(acts: seq<Action>, key: FileKey)
    requires Run(INIT, acts) && CalmRun(acts) && CollisionFree(INIT, acts)
    requires var s := After(INIT, acts); key in s.db.files && s.db.files[key].status in {ParseQueued, Parsing}
    ensures HasActive(After(INIT, acts).db.jobs, key, ParseJob)
  {
    hide Run, After, HasActive, Enabled, Apply, Sound, ClosersOk, CalmRun, CollisionFree;
    InitCovered(ParseJob);
    CoveredRun(INIT, acts, ParseJob);
    assert Held(After(INIT, acts).db.files, key, ParseJob);
  }

  // Without reclaim there is no collision ---------------------------------------------------------

  /** Every job is published at most once. */
  ghost predicate PublishedOnce(s: State) {
    && (forall i, j :: 0 <= i < |s.stream.entries| && 0 <= j < |s.stream.entries|
                       && s.stream.entries[i] == s.stream.entries[j] ==>
                       i == j)
    && (forall c :: c in s.clients && s.clients[c].Publishing? ==> s.clients[c].job !in s.stream.entries)
    && (forall c, d :: c in s.clients && d in s.clients && s.clients[c].Publishing? && s.clients[d].Publishing?
                       && s.clients[c].job == s.clients[d].job ==>
                       c == d)
  }

  lemma {:induction false} PublishKeepsOnce(s: State, a: Action)
    requires Enabled(s, a) && a.Publish? && PublishedOnce(s)
    ensures PublishedOnce(Apply(s, a))
  {
  }

  lemma {:induction false} CreateKeepsOnce(s: State, a: Action)
    requires Enabled(s, a) && a.CreateJob? && PublishedOnce(s) && StreamOk(s) && ClientsOk(s)
    ensures PublishedOnce(Apply(s, a))
  {
    hide CanCreate, CreateForTransition;
    var u := Apply(s, a);
    forall c | c in u.clients && u.clients[c].Publishing? && c != a.client ensures u.clients[c].job != a.id {
      assert ClientOk(s, s.clients[c]);
    }
  }

  /** Every other step publishes nothing and lets no client come to publish. */
  lemma {:induction false} OthersPublishNothing(s: State, a: Action)
    requires Enabled(s, a) && !a.Publish? && !a.CreateJob?
    ensures Apply(s, a).stream.entries == s.stream.entries
    ensures forall c :: c in Apply(s, a).clients && Apply(s, a).clients[c].Publishing? ==>
        c in s.clients && s.clients[c] == Apply(s, a).clients[c]
  {
    hide NextOf, FilesAfter, JobsAfter, Transition, CancelPending, MarkFailed;
  }

  lemma {:induction false} PublishedOnceStep(s: State, a: Action)
    requires Enabled(s, a) && PublishedOnce(s) && StreamOk(s) && ClientsOk(s)
    ensures PublishedOnce(Apply(s, a))
  {
    hide Enabled, Apply, StreamOk, ClientsOk;
    if a.Publish? {
      PublishKeepsOnce(s, a);
    } else if a.CreateJob? {
      CreateKeepsOnce(s, a);
    } else {
      OthersPublishNothing(s, a);
    }
  }

  predicate Working(p: Phase) { !p.Claiming? && !p.Reading? && !p.Acking? }

  predicate BeforeStart(p: Phase) { p.Claiming? || p.Reading? || p.Finding? || p.ParseStart? }

  predicate WorkerOk(s: State, task: Task) {
    Working(task.phase) && task.entry < |s.stream.entries| && s.stream.entries[task.entry] in s.db.jobs ==>
        s.db.jobs[s.stream.entries[task.entry]].status.Running?
  }

  /** Each entry is in the hands of one task, whose job is running from the moment its row was read. */
  ghost predicate OneHand(s: State) {
    && (forall t, u :: t in s.tasks && u in s.tasks && s.tasks[t].entry == s.tasks[u].entry ==> t == u)
    && (forall t :: t in s.tasks ==> WorkerOk(s, s.tasks[t]))
  }

  lemma {:induction false} OneHandStep(s: State, a: Action)
    requires Enabled(s, a) && Calm(a) && !a.Reclaim? && Sound(s) && PublishedOnce(s) && OneHand(s)
    ensures OneHand(Apply(s, a))
  {
    hide Enabled, Apply, Calm, JobsOk, FilesOk, IndexReadable, StreamOk, ClientsOk, AckedFinished, PhaseOk, WorkerOk;
    var u := Apply(s, a);
    StepEvolves(s, a);
    forall t | t in u.tasks ensures WorkerOk(u, u.tasks[t]) {
      TaskOrigin(s, a, t);
      if t in s.tasks && u.tasks[t] == s.tasks[t] {
        WorkerPersists(s, a, t);
      } else if a.Work? {
        WorkerSteps(s, a);
      } else {
        NewWorkerOk(u, u.tasks[t]);
      }
    }
    forall t, v | t in u.tasks && v in u.tasks && u.tasks[t].entry == u.tasks[v].entry ensures t == v {
      EntryOrigin(s, a, t);
      EntryOrigin(s, a, v);
      assert t in s.tasks ==> TaskOk(s, s.tasks[t]);
      assert v in s.tasks ==> TaskOk(s, s.tasks[v]);
    }
  }

  lemma {:induction false} EntryOrigin(s: State, a: Action, t: nat)
    requires Enabled(s, a) && !a.Reclaim? && t in Apply(s, a).tasks
    ensures (t in s.tasks && Apply(s, a).tasks[t].entry == s.tasks[t].entry)
         || (a == Consume(t, a.worker) && Apply(s, a).tasks[t].entry == s.stream.cursor)
  {
    hide Transition, HasActive, FilesAfter, CanTransition, JobsAfter, Claim, CancelPending;
  }

  lemma {:induction false} NewWorkerOk(s: State, task: Task)
    requires task.phase.Claiming?
    ensures WorkerOk(s, task)
  {
  }

  /** In calm runs a running job stays running until its task closes it. */
  lemma {:induction false} RunningStays(s: State, a: Action, id: JobId)
    requires Enabled(s, a) && Calm(a) && id in s.db.jobs && s.db.jobs[id].status.Running?
    ensures id in Apply(s, a).db.jobs
    ensures Apply(s, a).db.jobs[id].status.Running?
         || (a.Work? && (s.tasks[a.task].phase.Failing? || s.tasks[a.task].phase.Succeeding?)
             && s.stream.entries[s.tasks[a.task].entry] == id)
  {
    hide NextOf, HasActive, Transition;
  }

  lemma {:induction false} WorkerPersists(s: State, a: Action, t: nat)
    requires Enabled(s, a) && Calm(a) && Sound(s) && PublishedOnce(s) && OneHand(s)
    requires t in s.tasks && t in Apply(s, a).tasks && Apply(s, a).tasks[t] == s.tasks[t]
    ensures WorkerOk(Apply(s, a), s.tasks[t])
  {
    hide Enabled, Apply, Calm, JobsOk, FilesOk, IndexReadable, StreamOk, ClientsOk, AckedFinished, PhaseOk;
    StepEvolves(s, a);
    TaskOrigin(s, a, t);
    WorkEnabled(s, a);
    assert TaskOk(s, s.tasks[t]) && WorkerOk(s, s.tasks[t]);
    assert a.Work? ==> TaskOk(s, s.tasks[a.task]);
    if Working(s.tasks[t].phase) {
      RunningStays(s, a, s.stream.entries[s.tasks[t].entry]);
    }
  }

  lemma {:induction false} WorkerSteps(s: State, a: Action)
    requires Enabled(s, a) && a.Work? && Sound(s) && OneHand(s) && a.task in Apply(s, a).tasks
    ensures WorkerOk(Apply(s, a), Apply(s, a).tasks[a.task])
  {
    hide JobsOk, FilesOk, IndexReadable, StreamOk, ClientsOk, AckedFinished, FilesAfter, CanTransition, PhaseOk,
        OneActive;
    assert TaskOk(s, s.tasks[a.task]) && WorkerOk(s, s.tasks[a.task]);
  }

  /** A file that is being parsed belongs to an active job whose only task has already started. */
  ghost predicate Started(s: State, key: FileKey) {
    exists e: nat :: IsStarted(s, key, e)
  }

  ghost predicate IsStarted(s: State, key: FileKey, e: nat) {
    && e < s.stream.cursor && e < |s.stream.entries| && s.stream.entries[e] in s.db.jobs
    && Active(s.db.jobs[s.stream.entries[e]]) && s.db.jobs[s.stream.entries[e]].key == key
    && s.db.jobs[s.stream.entries[e]].jobType.ParseJob?
    && (forall t :: t in s.tasks && s.tasks[t].entry == e ==> !BeforeStart(s.tasks[t].phase))
  }

  ghost predicate ParsingStarted(s: State) {
    forall key :: key in s.db.files && s.db.files[key].status.Parsing? ==> Started(s, key)
  }

  lemma {:induction false} NoCollision(s: State, a: Action)
    requires Enabled(s, a) && Sound(s) && PublishedOnce(s) && OneHand(s) && ParsingStarted(s)
    ensures !Collides(s, a)
  {
    hide Apply, JobsOk, FilesOk, IndexReadable, StreamOk, ClientsOk, AckedFinished, OneActive;
    if Collides(s, a) {
      var task := s.tasks[a.task];
      assert TaskOk(s, task) && WorkerOk(s, task);
      var key := task.job.value.key;
      var e: nat :| IsStarted(s, key, e);
      SameJob(s, s.stream.entries[e], s.stream.entries[task.entry]);
    }
  }

  lemma {:induction false} SameJob(s: State, i: JobId, j: JobId)
    requires Sound(s) && i in s.db.jobs && j in s.db.jobs && Active(s.db.jobs[i]) && Active(s.db.jobs[j])
    requires s.db.jobs[i].key == s.db.jobs[j].key && s.db.jobs[i].jobType == s.db.jobs[j].jobType
    ensures i == j
  {
  }

  /** A file enters parsing only through the first step of its job's task. */
  lemma {:induction false} ParsingArises(s: State, a: Action, key: FileKey)
    requires Enabled(s, a) && TasksOk(s) && key in Apply(s, a).db.files && Apply(s, a).db.files[key].status.Parsing?
    requires !(key in s.db.files && s.db.files[key].status.Parsing?)
    ensures a.Work? && s.tasks[a.task].phase.ParseStart? && s.tasks[a.task].job.Some?
        && s.tasks[a.task].job.value.key == key
    ensures a.task in Apply(s, a).tasks && Apply(s, a).tasks[a.task] == s.tasks[a.task].(phase := ParseWork)
        && Apply(s, a).db.jobs == s.db.jobs
  {
    hide HasActive, TasksOk, CancelPending, MarkFailed, ReadStep;
  }

  lemma {:induction false} StartsParsing(s: State, a: Action, key: FileKey)
    requires Enabled(s, a) && Sound(s) && PublishedOnce(s) && OneHand(s)
    requires key in Apply(s, a).db.files && Apply(s, a).db.files[key].status.Parsing?
    requires !(key in s.db.files && s.db.files[key].status.Parsing?)
    ensures Started(Apply(s, a), key)
  {
    hide Enabled, Apply, JobsOk, FilesOk, IndexReadable, StreamOk, ClientsOk, AckedFinished;
    ParsingArises(s, a, key);
    WorkEnabled(s, a);
    var u := Apply(s, a);
    StepEvolves(s, a);
    var task := s.tasks[a.task];
    assert TaskOk(s, task) && WorkerOk(s, task);
    forall t | t in u.tasks && u.tasks[t].entry == task.entry ensures !BeforeStart(u.tasks[t].phase) {
      TaskOrigin(s, a, t);
    }
    assert IsStarted(u, key, task.entry);
  }

  lemma {:induction false} StaysStarted(s: State, a: Action, key: FileKey)
    requires Enabled(s, a) && Calm(a) && !a.Reclaim? && Sound(s) && PublishedOnce(s) && OneHand(s)
        && ClosersOk(s, ParseJob)
    requires Started(s, key) && Held(s.db.files, key, ParseJob)
    ensures Started(Apply(s, a), key)
  {
    hide Enabled, Apply, Calm, JobsOk, FilesOk, IndexReadable, StreamOk, ClientsOk, AckedFinished, Active, Held;
    var u := Apply(s, a);
    StepEvolves(s, a);
    WorkEnabled(s, a);
    var e: nat :| IsStarted(s, key, e);
    var id := s.stream.entries[e];
    assert a.Work? ==> CloserOk(s, s.tasks[a.task], ParseJob);
    if !Active(u.db.jobs[id]) {
      OnlyTasksClose(s, a, id);
      assert false;
    }
    forall t | t in u.tasks && u.tasks[t].entry == e ensures !BeforeStart(u.tasks[t].phase) {
      EntryOrigin(s, a, t);
      PhasesAdvance(s, a, t);
    }
    assert IsStarted(u, key, e);
  }

  lemma {:induction false} PhasesAdvance(s: State, a: Action, t: nat)
    requires Enabled(s, a) && t in s.tasks && t in Apply(s, a).tasks && !BeforeStart(s.tasks[t].phase)
    ensures !BeforeStart(Apply(s, a).tasks[t].phase)
  {
    hide Transition, HasActive, FilesAfter, CanTransition, JobsAfter, Claim, CancelPending, ReadStep;
  }

  lemma {:induction false} ParsingStartedStep(s: State, a: Action)
    requires Enabled(s, a) && Calm(a) && !a.Reclaim? && Sound(s) && PublishedOnce(s) && OneHand(s)
        && ClosersOk(s, ParseJob) && ParsingStarted(s)
    ensures ParsingStarted(Apply(s, a))
  {
    hide Enabled, Apply, Calm, Sound, PublishedOnce, OneHand, ClosersOk, Started;
    var u := Apply(s, a);
    forall key | key in u.db.files && u.db.files[key].status.Parsing? ensures Started(u, key) {
      if key in s.db.files && s.db.files[key].status.Parsing? {
        StaysStarted(s, a, key);
      } else {
        StartsParsing(s, a, key);
      }
    }
  }

  ghost predicate Orderly(s: State) {
    Sound(s) && Covered(s, ParseJob) && ClosersOk(s, ParseJob) && PublishedOnce(s) && OneHand(s) && ParsingStarted(s)
  }

  lemma {:induction false} OrderlyStep(s: State, a: Action)
    requires Enabled(s, a) && Calm(a) && !a.Reclaim? && Orderly(s)
    ensures Orderly(Apply(s, a)) && !Collides(s, a)
  {
    hide Enabled, Apply, Calm, Sound, PublishedOnce, OneHand, ClosersOk, ParsingStarted, Covered, Collides;
    NoCollision(s, a);
    SoundStep(s, a);
    CoveredStep(s, a, ParseJob);
    ClosersStep(s, a, ParseJob);
    SoundParts(s);
    PublishedOnceStep(s, a);
    OneHandStep(s, a);
    ParsingStartedStep(s, a);
  }

  ghost predicate ReclaimFree(acts: seq<Action>) {
    forall i :: 0 <= i < |acts| ==> !acts[i].Reclaim?
  }

  lemma {:induction false} OrderlyRun(s: State, acts: seq<Action>)
    requires Orderly(s) && Run(s, acts) && CalmRun(acts) && ReclaimFree(acts)
    ensures CollisionFree(s, acts)
    decreases |acts|
  {
    hide Orderly, Enabled, Apply, Calm, Collides;
    if acts != [] {
      OrderlyStep(s, acts[0]);
      OrderlyRun(Apply(s, acts[0]), acts[1..]);
    }
  }

  /** When publishing succeeds, nothing is deleted and nothing is reclaimed, a file in parse_queued or parsing always
      has an active parse job. */
  lemma {:induction false} ParsingIsNeverStuckWithoutReclaim(acts: seq<Action>, key: FileKey)
    requires Run(INIT, acts) && CalmRun(acts) && ReclaimFree(acts)
    requires var s := After(INIT, acts); key in s.db.files && s.db.files[key].status in {ParseQueued, Parsing}
    ensures HasActive(After(INIT, acts).db.jobs, key, ParseJob)
  {
    hide Run, After, HasActive, Enabled, Apply, CollisionFree, CalmRun, ReclaimFree;
    InitCovered(ParseJob);
    assert Orderly(INIT);
    OrderlyRun(INIT, acts);
    ParsingIsNotStuck(acts, key);
  }

  // Exactly when parsing strands a file -------------------------------------------------------------

  ghost predicate Stranded(s: State, key: FileKey) {
    Held(s.db.files, key, ParseJob) && !HasActive(s.db.jobs, key, ParseJob)
  }

  /** The state after a task's next step and the one after. */
  function TwoSteps(s: State, tid: nat, r: World): State
    requires Enabled(s, Work(tid, r)) && Enabled(WorkStep(s, tid, r), Work(tid, r))
  {
    WorkStep(WorkStep(s, tid, r), tid, r)
  }

  lemma {:induction false} CollidingSteps(s: State, tid: nat, r: World)
    requires Enabled(s, Work(tid, r)) && Sound(s) && Collides(s, Work(tid, r))
    ensures Enabled(WorkStep(s, tid, r), Work(tid, r))
    ensures var u := TwoSteps(s, tid, r);
            var id := s.stream.entries[s.tasks[tid].entry];
            && id in s.db.jobs && s.db.jobs[id].key == s.tasks[tid].job.value.key && s.db.jobs[id].jobType.ParseJob?
            && u.db.files == s.db.files && u.db.jobs == MarkFailed(s.db.jobs, id, StateConflict)
  {
    hide JobsOk, FilesOk, IndexReadable, StreamOk, ClientsOk, AckedFinished, ReadStep;
    assert TaskOk(s, s.tasks[tid]);
  }

  lemma {:induction false} ClosedLeavesNone(s: State, id: JobId, code: ErrorCode)
    requires Sound(s) && id in s.db.jobs && s.db.jobs[id].jobType.ParseJob?
    ensures var key := s.db.jobs[id].key;
            HasActive(MarkFailed(s.db.jobs, id, code), key, ParseJob) <==>
              HasActive(s.db.jobs, key, ParseJob) && !Active(s.db.jobs[id])
  {
    hide FilesOk, IndexReadable, StreamOk, ClientsOk, AckedFinished, TasksOk, RowOk;
    var later := MarkFailed(s.db.jobs, id, code);
    forall i | i in s.db.jobs && Active(s.db.jobs[i]) && i != id ensures i in later && later[i] == s.db.jobs[i] {}
    if HasActive(s.db.jobs, s.db.jobs[id].key, ParseJob) && !Active(s.db.jobs[id]) {
      var i :| i in s.db.jobs && s.db.jobs[i].key == s.db.jobs[id].key && s.db.jobs[i].jobType == ParseJob
          && Active(s.db.jobs[i]);
      assert i in later && Active(later[i]);
    }
  }

  lemma {:induction false} EnabledAgain(s: State, tid: nat, r: World)
    requires Enabled(s, Work(tid, r)) && Sound(s) && s.tasks[tid].phase.ParseStart?
    ensures Enabled(WorkStep(s, tid, Good("path")), Work(tid, Good("path")))
        && !Collides(WorkStep(s, tid, r), Work(tid, r))
  {
    hide JobsOk, FilesOk, IndexReadable, StreamOk, ClientsOk, AckedFinished, ReadStep;
    assert TaskOk(s, s.tasks[tid]);
  }

  /** The exact condition: in a calm run without an earlier collision, a task that starts a parse job and takes its next
      step leaves its file stranded if and only if the file was already being parsed and the job was still active. */
  lemma {:induction false} StrandsExactlyOnCollision(acts: seq<Action>, tid: nat)
    requires Run(INIT, acts) && CalmRun(acts) && CollisionFree(INIT, acts)
    requires var s := After(INIT, acts); tid in s.tasks && s.tasks[tid].phase.ParseStart?
    ensures var s := After(INIT, acts); var start := Work(tid, Good("path"));
            && Enabled(s, start) && Enabled(Apply(s, start), start) && s.tasks[tid].job.Some?
            && s.stream.entries[s.tasks[tid].entry] in s.db.jobs
            && (Stranded(TwoSteps(s, tid, Good("path")), s.tasks[tid].job.value.key)
                <==> Collides(s, start) && Active(s.db.jobs[s.stream.entries[s.tasks[tid].entry]]))
  {
    hide Run, After, HasActive, ClosersOk, CalmRun, CollisionFree, Covered, Collides, Active, Transition, ProcessStep,
        JobsOk, FilesOk, IndexReadable, StreamOk, ClientsOk, AckedFinished;
    InitCovered(ParseJob);
    CoveredRun(INIT, acts, ParseJob);
    var s := After(INIT, acts);
    var start := Work(tid, Good("path"));
    assert TaskOk(s, s.tasks[tid]);
    EnabledAgain(s, tid, Good("path"));
    var id := s.stream.entries[s.tasks[tid].entry];
    var key := s.tasks[tid].job.value.key;
    var u := TwoSteps(s, tid, Good("path"));
    if Collides(s, start) {
      CollidingSteps(s, tid, Good("path"));
      ClosedLeavesNone(s, id, StateConflict);
      CollidingHeld(s, tid, key);
    } else {
      SoundStep(s, start);
      CoveredStep(s, start, ParseJob);
      ClosersStep(s, start, ParseJob);
      CoveredStep(Apply(s, start), start, ParseJob);
      NotStranded(u, key);
    }
  }

  lemma {:induction false} CollidingHeld(s: State, tid: nat, key: FileKey)
    requires Collides(s, Work(tid, Good("path"))) && key == s.tasks[tid].job.value.key && Covered(s, ParseJob)
    ensures Held(s.db.files, key, ParseJob) && HasActive(s.db.jobs, key, ParseJob)
  {
  }

  lemma {:induction false} NotStranded(s: State, key: FileKey)
    requires Covered(s, ParseJob)
    ensures !Stranded(s, key)
  {
  }

  // A stranded file cannot recover ------------------------------------------------------------------

  /** The file is being parsed, no parse job for it is active, and no task still works on one. */
  ghost predicate Abandoned(s: State, key: FileKey) {
    && key in s.db.files && s.db.files[key].status.Parsing? && !HasActive(s.db.jobs, key, ParseJob)
    && forall t :: t in s.tasks ==> !StillParsing(s.tasks[t], key)
  }

  predicate StillParsing(task: Task, key: FileKey) {
    task.job.Some? && task.job.value.key == key && task.job.value.jobType.ParseJob? && !task.phase.Failing?
        && !task.phase.Succeeding? && !task.phase.Acking?
  }

  lemma {:induction false} AbandonedFile(s: State, a: Action, key: FileKey)
    requires Enabled(s, a) && Calm(a) && Sound(s) && Abandoned(s, key)
    ensures key in Apply(s, a).db.files && Apply(s, a).db.files[key].status.Parsing?
  {
    hide JobsOk, IndexReadable, StreamOk, AckedFinished, HasActive, NextOf, JobsAfter, RowOk;
    assert a.Work? && a.task in s.tasks ==> TaskOk(s, s.tasks[a.task]) && !StillParsing(s.tasks[a.task], key);
  }

  lemma {:induction false} AbandonedJobs(s: State, a: Action, key: FileKey)
    requires Enabled(s, a) && Calm(a) && Sound(s) && Abandoned(s, key)
    ensures !HasActive(Apply(s, a).db.jobs, key, ParseJob)
  {
    hide Enabled, Apply, Calm, JobsOk, IndexReadable, StreamOk, AckedFinished, TasksOk, FilesOk, ClientsOk, Active;
    StepEvolves(s, a);
    var u := Apply(s, a);
    if HasActive(u.db.jobs, key, ParseJob) {
      var id :| id in u.db.jobs && u.db.jobs[id].key == key && u.db.jobs[id].jobType == ParseJob
          && Active(u.db.jobs[id]);
      NewJobNeedsRest(s, a, id);
      assert false;
    }
  }

  lemma {:induction false} NewJobNeedsRest(s: State, a: Action, id: JobId)
    requires Enabled(s, a) && Sound(s) && id in Apply(s, a).db.jobs
    ensures var key := Apply(s, a).db.jobs[id].key;
            id in s.db.jobs || (key in s.db.files && s.db.files[key].status in RESTING)
  {
    hide JobsOk, IndexReadable, StreamOk, AckedFinished, HasActive, NextOf, FilesOk, Transition, RowOk;
  }

  lemma {:induction false} AbandonedTasks(s: State, a: Action, key: FileKey, t: nat)
    requires Enabled(s, a) && Sound(s) && Abandoned(s, key) && t in Apply(s, a).tasks
    ensures !StillParsing(Apply(s, a).tasks[t], key)
  {
    hide JobsOk, IndexReadable, StreamOk, AckedFinished, HasActive, FilesAfter, Transition, RowOk, CanTransition,
        JobsAfter, Active, CancelPending;
    assert t in s.tasks ==> TaskOk(s, s.tasks[t]) && !StillParsing(s.tasks[t], key);
    if a.Work? && a.task == t && s.tasks[t].phase.Reading? {
      ReadsActive(s, t, key);
    }
  }

  lemma {:induction false} ReadsActive(s: State, t: nat, key: FileKey)
    requires t in s.tasks && TaskOk(s, s.tasks[t]) && s.tasks[t].phase.Reading? && !HasActive(s.db.jobs, key, ParseJob)
    ensures var next := ReadStep(s.db.jobs, s.stream.entries[s.tasks[t].entry], s.tasks[t]); next.Goes? ==>
        !StillParsing(next.task, key)
  {
  }

  lemma {:induction false} AbandonedStep(s: State, a: Action, key: FileKey)
    requires Enabled(s, a) && Calm(a) && Sound(s) && Abandoned(s, key)
    ensures Abandoned(Apply(s, a), key)
  {
    hide Enabled, Apply, Calm, Sound, HasActive, StillParsing;
    AbandonedFile(s, a, key);
    AbandonedJobs(s, a, key);
    forall t | t in Apply(s, a).tasks ensures !StillParsing(Apply(s, a).tasks[t], key) {
      AbandonedTasks(s, a, key, t);
    }
  }

  /** Once abandoned, a file stays in parsing for ever: no worker moves it, and it can be neither parsed again, nor
      indexed, nor deleted. */
  lemma {:induction false} AbandonedForEver(s: State, acts: seq<Action>, key: FileKey)
    requires Sound(s) && Abandoned(s, key) && Run(s, acts) && CalmRun(acts)
    ensures Abandoned(After(s, acts), key)
    ensures forall c :: !Enabled(After(s, acts), AskParse(c, key)) && !Enabled(After(s, acts), AskIndex(c, key))
    ensures forall c :: !Enabled(After(s, acts), AskDelete(c, key))
    decreases |acts|
  {
    hide Sound, Apply, Calm, HasActive, StillParsing;
    if acts != [] {
      SoundStep(s, acts[0]);
      AbandonedStep(s, acts[0], key);
      AbandonedForEver(Apply(s, acts[0]), acts[1..], key);
    }
  }
}
