/** What holds in every reachable state of the protocol, whatever the interleaving of uploads, retries, deletions,
    claims, reclaims, crashes and stale workers. */
module ProtocolSafety {
  import opened Optional
  import opened Protocol

  /** The file statuses in which a Markdown object must exist. */
  const READABLE := {Parsed, IndexQueued, Indexing, Indexed, IndexFailed}

  /** The statuses from which a service may queue a job. */
  const RESTING := {Uploaded, ParseFailed, Parsed, IndexFailed, Indexed}

  // Invariants ----------------------------------------------------------------------------

  ghost predicate OneActive(jobs: Jobs) {
    forall i, j :: i in jobs && j in jobs && Active(jobs[i]) && Active(jobs[j])
                   && jobs[i].key == jobs[j].key && jobs[i].jobType == jobs[j].jobType ==>
                   i == j
  }

  predicate RowOk(row: JobRow) {
    row.maxAttempts == 1 && row.attempt <= 1 && (row.status.Pending? ==> row.attempt == 0)
  }

  ghost predicate JobsOk(s: State) {
    && OneActive(s.db.jobs)
    && forall id :: id in s.db.jobs ==> RowOk(s.db.jobs[id]) && s.db.jobs[id].key in s.known
  }

  ghost predicate FilesOk(s: State) {
    forall key :: key in s.db.files ==>
        key in s.known && (s.db.files[key].status in READABLE ==> s.db.files[key].markdown != "")
  }

  /** A file for which an index job was ever created keeps its Markdown path. */
  ghost predicate IndexReadable(s: State) {
    forall id :: id in s.db.jobs && s.db.jobs[id].jobType.IndexJob? && s.db.jobs[id].key in s.db.files ==>
        s.db.files[s.db.jobs[id].key].markdown != ""
  }

  ghost predicate StreamOk(s: State) {
    && s.stream.cursor <= |s.stream.entries|
    && (forall e :: 0 <= e < |s.stream.entries| ==> s.stream.entries[e] in s.db.jobs)
    && (forall e :: e in s.stream.pending ==> e < s.stream.cursor)
    && (forall id :: id in s.published ==> id in s.stream.entries)
  }

  predicate ClientOk(s: State, c: Client) {
    match c
    case Creating(key, jobType, from, maxAttempts, _) => key in s.known && maxAttempts == 1 && from <= RESTING
        && (jobType.IndexJob? ==> from <= INDEXABLE)
    case Publishing(id) => id in s.db.jobs
    case Unpublished(id) => id in s.db.jobs
    case Restoring(id) => id in s.db.jobs
    case _ => true
  }

  ghost predicate ClientsOk(s: State) {
    forall c :: c in s.clients ==> ClientOk(s, s.clients[c])
  }

  /** The row a task carries is a snapshot of its job. */
  predicate Snapshot(row: JobRow, current: JobRow) {
    row.key == current.key && row.jobType == current.jobType
  }

  predicate PhaseOk(t: Task, current: JobRow) {
    match t.phase
    case Claiming => t.job.None?
    case Reading => t.job.None?
    case Acking => !Active(current)
    case Finding => t.job.Some?
    case ParseStart => t.job.Some? && current.jobType.ParseJob?
    case ParseWork => t.job.Some? && current.jobType.ParseJob?
    case ParseEnd(text) => t.job.Some? && current.jobType.ParseJob? && text != ""
    case ParseFail(code) => t.job.Some? && current.jobType.ParseJob? && code !in {MaxAttemptsExceeded, MarkdownMissing}
    case IndexStart => t.job.Some? && current.jobType.IndexJob? && t.markdown != ""
    case IndexWork => t.job.Some? && current.jobType.IndexJob?
    case IndexEnd => t.job.Some? && current.jobType.IndexJob?
    case IndexFail(code) => t.job.Some? && current.jobType.IndexJob? && code !in {MaxAttemptsExceeded, MarkdownMissing}
    case Failing(code) => t.job.Some? && code !in {MaxAttemptsExceeded, MarkdownMissing}
    case Succeeding => t.job.Some?
  }

  ghost predicate TaskOk(s: State, t: Task) {
    && t.entry < s.stream.cursor && t.entry < |s.stream.entries|
    && s.stream.entries[t.entry] in s.db.jobs
    && (t.job.Some? ==> Snapshot(t.job.value, s.db.jobs[s.stream.entries[t.entry]]))
    && PhaseOk(t, s.db.jobs[s.stream.entries[t.entry]])
  }

  ghost predicate TasksOk(s: State) {
    forall t :: t in s.tasks ==> TaskOk(s, s.tasks[t])
  }

  /** Delivered and acknowledged entries belong to finished jobs. */
  ghost predicate AckedFinished(s: State) {
    forall e :: 0 <= e < s.stream.cursor && e < |s.stream.entries| && e !in s.stream.pending
                && s.stream.entries[e] in s.db.jobs ==>
                !Active(s.db.jobs[s.stream.entries[e]])
  }

  ghost predicate Sound(s: State) {
    JobsOk(s) && FilesOk(s) && IndexReadable(s) && StreamOk(s) && ClientsOk(s) && TasksOk(s) && AckedFinished(s)
  }

  // Each invariant is kept by each step -------------------------------------------------------

  lemma {:induction false} StreamOkStep(s: State, a: Action)
    requires Enabled(s, a) && StreamOk(s) && ClientsOk(s)
    ensures StreamOk(Apply(s, a))
  {
    hide Transition, NextOf, HasActive, FilesAfter, CanTransition, JobsOk, FilesOk, IndexReadable, TasksOk, RowOk;
    StepEvolves(s, a);
  }

  /** A change that revives no job, keeps every row in order and adds none keeps the job table in order. */
  lemma {:induction false} JobsOkKept(s: State, u: State)
    requires JobsOk(s) && JobsEvolve(s.db.jobs, u.db.jobs) && u.db.jobs.Keys == s.db.jobs.Keys && s.known <= u.known
    requires forall id :: id in u.db.jobs ==> RowOk(u.db.jobs[id])
    ensures JobsOk(u)
  {
    hide RowOk;
    forall i, j | i in u.db.jobs && j in u.db.jobs && Active(u.db.jobs[i]) && Active(u.db.jobs[j])
        && u.db.jobs[i].key == u.db.jobs[j].key && u.db.jobs[i].jobType == u.db.jobs[j].jobType
      ensures i == j
    {
      assert Active(s.db.jobs[i]) && Active(s.db.jobs[j]);
    }
  }

  lemma {:induction false} RowsOkWork(jobs: Jobs, id: JobId, t: Task)
    requires forall i :: i in jobs ==> RowOk(jobs[i])
    ensures JobsAfter(jobs, id, t).Keys == jobs.Keys && forall i :: i in jobs ==> RowOk(JobsAfter(jobs, id, t)[i])
  {
  }

  lemma {:induction false} JobsOkWork(s: State, tid: nat, r: World)
    requires Enabled(s, Work(tid, r)) && JobsOk(s)
    ensures JobsOk(WorkStep(s, tid, r))
  {
    hide FilesAfter, NextOf, JobsAfter, RowOk, OneActive;
    RowsOkWork(s.db.jobs, s.stream.entries[s.tasks[tid].entry], s.tasks[tid]);
    WorkEvolves(s.db.jobs, s.stream.entries[s.tasks[tid].entry], s.tasks[tid]);
    JobsOkKept(s, WorkStep(s, tid, r));
  }

  lemma {:induction false} JobsOkCreate(s: State, a: Action)
    requires Enabled(s, a) && a.CreateJob? && JobsOk(s) && ClientsOk(s)
    ensures JobsOk(Apply(s, a))
  {
    hide Transition, CanTransition;
    assert ClientOk(s, s.clients[a.client]);
  }

  lemma {:induction false} JobsOkStep(s: State, a: Action)
    requires Enabled(s, a) && JobsOk(s) && ClientsOk(s)
    ensures JobsOk(Apply(s, a))
  {
    hide Transition, CanTransition, WorkStep, HasActive, OneActive, ClientsOk, JobsEvolve;
    if a.Work? {
      JobsOkWork(s, a.task, a.result);
    } else if a.CreateJob? {
      JobsOkCreate(s, a);
    } else {
      StepEvolves(s, a);
      JobsOkKept(s, Apply(s, a));
    }
  }

  lemma {:induction false} FilesOkWork(s: State, tid: nat, r: World)
    requires Enabled(s, Work(tid, r)) && FilesOk(s) && TasksOk(s)
    ensures FilesOk(WorkStep(s, tid, r))
  {
    hide NextOf, JobsAfter;
    assert TaskOk(s, s.tasks[tid]);
  }

  lemma {:induction false} FilesOkStep(s: State, a: Action)
    requires Enabled(s, a) && FilesOk(s) && ClientsOk(s) && TasksOk(s)
    ensures FilesOk(Apply(s, a))
  {
    hide WorkStep, HasActive, JobsOk, StreamOk, IndexReadable, MarkFailed, CancelPending, RowOk, TasksOk;
    if a.Work? { FilesOkWork(s, a.task, a.result); }
  }

  lemma {:induction false} ClientOkPersists(s: State, u: State, c: Client)
    requires ClientOk(s, c) && JobsEvolve(s.db.jobs, u.db.jobs) && s.known <= u.known
    ensures ClientOk(u, c)
  {
  }

  /** A client that has just started or moved on. */
  lemma {:induction false} ClientOkMoves(s: State, a: Action, c: nat)
    requires Enabled(s, a) && !a.Work? && ClientsOk(s) && JobsOk(s) && FilesOk(s) && c in Apply(s, a).clients
    requires !(c in s.clients && s.clients[c] == Apply(s, a).clients[c])
    ensures ClientOk(Apply(s, a), Apply(s, a).clients[c])
  {
    hide Transition, HasActive, MarkFailed, CancelPending, OneActive, ClientsOk;
    StepEvolves(s, a);
    if c in s.clients { ClientFact(s, c); }
    if a.AskRetry? { assert RowOk(s.db.jobs[a.failed]); }
  }

  lemma {:induction false} WorkLeavesClients(s: State, a: Action)
    requires Enabled(s, a) && a.Work?
    ensures Apply(s, a).clients == s.clients
  {
    hide NextOf, FilesAfter, JobsAfter;
  }

  lemma {:induction false} ClientFact(s: State, c: nat)
    requires ClientsOk(s) && c in s.clients
    ensures ClientOk(s, s.clients[c])
  {
  }

  lemma {:induction false} ClientsOkStep(s: State, a: Action)
    requires Enabled(s, a) && ClientsOk(s) && JobsOk(s) && FilesOk(s)
    ensures ClientsOk(Apply(s, a))
  {
    hide Enabled, Apply, JobsOk, FilesOk, ClientOk;
    StepEvolves(s, a);
    var u := Apply(s, a);
    forall c | c in u.clients ensures ClientOk(u, u.clients[c]) {
      if c in s.clients && s.clients[c] == u.clients[c] {
        ClientOkPersists(s, u, s.clients[c]);
      } else if a.Work? {
        WorkLeavesClients(s, a);
      } else {
        ClientOkMoves(s, a, c);
      }
    }
  }

  /** No step takes a Markdown path away from a file; only an upload adds a file, under a fresh id. */
  lemma {:induction false} MarkdownStays(s: State, a: Action, key: FileKey)
    requires Enabled(s, a) && TasksOk(s) && FilesOk(s) && key in Apply(s, a).db.files
    ensures key in s.db.files && s.db.files[key].markdown != "" ==> Apply(s, a).db.files[key].markdown != ""
    ensures key !in s.db.files ==> key !in s.known && Apply(s, a).db.jobs == s.db.jobs
  {
    hide NextOf, HasActive, JobsAfter, CancelPending, MarkFailed, RowOk;
    assert a.Work? ==> TaskOk(s, s.tasks[a.task]);
  }

  /** A new index job is only created for a file that has been parsed. */
  lemma {:induction false} NewIndexJobReadable(s: State, a: Action, id: JobId)
    requires Enabled(s, a) && FilesOk(s) && ClientsOk(s)
    requires id in Apply(s, a).db.jobs && id !in s.db.jobs && Apply(s, a).db.jobs[id].jobType.IndexJob?
    ensures var key := Apply(s, a).db.jobs[id].key; key in s.db.files && s.db.files[key].markdown != ""
  {
    hide NextOf, HasActive, FilesAfter, Transition, RowOk;
  }

  lemma {:induction false} IndexReadableStep(s: State, a: Action)
    requires Enabled(s, a) && IndexReadable(s) && JobsOk(s) && FilesOk(s) && ClientsOk(s) && TasksOk(s)
    ensures IndexReadable(Apply(s, a))
  {
    hide Enabled, Apply, FilesOk, ClientsOk, TasksOk, RowOk, Active, OneActive;
    StepEvolves(s, a);
    var u := Apply(s, a);
    forall id | id in u.db.jobs && u.db.jobs[id].jobType.IndexJob? && u.db.jobs[id].key in u.db.files
      ensures u.db.files[u.db.jobs[id].key].markdown != ""
    {
      MarkdownStays(s, a, u.db.jobs[id].key);
      if id !in s.db.jobs { NewIndexJobReadable(s, a, id); }
    }
  }

  /** What a task knows survives any step of any process. */
  lemma {:induction false} TaskOkPersists(s: State, u: State, t: Task)
    requires TaskOk(s, t) && JobsEvolve(s.db.jobs, u.db.jobs) && s.stream.entries <= u.stream.entries
        && s.stream.cursor <= u.stream.cursor
    ensures TaskOk(u, t)
  {
  }

  lemma {:induction false} ProcessStepOk(files: Files, t: Task, r: World, row: JobRow)
    requires t.job.Some? && Snapshot(t.job.value, row) && PhaseOk(t, row)
    requires t.phase.ParseWork? && r.Good? ==> r.text != ""
    requires r.Bad? && (t.phase.ParseWork? || t.phase.IndexStart? || t.phase.IndexWork?) ==>
        r.code !in {MaxAttemptsExceeded, MarkdownMissing}
    requires row.jobType.IndexJob? && row.key in files ==> files[row.key].markdown != ""
    ensures var next := ProcessStep(files, t, r);
            next.Goes? ==> next.task.entry == t.entry && next.task.job == t.job && PhaseOk(next.task, row)
  {
    hide CanTransition, Active;
  }

  lemma {:induction false} ReadStepOk(jobs: Jobs, id: JobId, t: Task)
    requires id in jobs && RowOk(jobs[id]) && t.job.None?
    ensures var next := ReadStep(jobs, id, t);
            next.Goes? ==> next.task.entry == t.entry && (next.task.job.Some? ==>
                next.task.job.value == jobs[id]) && PhaseOk(next.task, jobs[id])
  {
  }

  /** The step after which a task is ready to acknowledge has finished the job. */
  lemma {:induction false} ClosingStep(jobs: Jobs, id: JobId, t: Task)
    requires id in jobs && (t.phase.Failing? || t.phase.Succeeding?)
    ensures id in JobsAfter(jobs, id, t) && !Active(JobsAfter(jobs, id, t)[id])
        && Snapshot(jobs[id], JobsAfter(jobs, id, t)[id])
  {
  }

  /** What a task knows after its own step. */
  lemma {:induction false} NextTaskOk(s: State, tid: nat, r: World)
    requires Enabled(s, Work(tid, r)) && TasksOk(s) && JobsOk(s) && IndexReadable(s)
    ensures var t := s.tasks[tid];
            var next := NextOf(s.db, s.stream.entries[t.entry], t, r);
            next.Goes? ==> next.task.entry == t.entry && TaskOk(WorkStep(s, tid, r), next.task)
  {
    hide Transition, HasActive, FilesAfter, CanTransition, Active, ProcessStep, ReadStep, JobsOk, IndexReadable, Claim,
        TasksOk;
    StepEvolves(s, Work(tid, r));
    var t := s.tasks[tid];
    var id := s.stream.entries[t.entry];
    NextTaskFacts(s, tid);
    if t.phase.Failing? || t.phase.Succeeding? { ClosingStep(s.db.jobs, id, t); }
    if t.phase.Reading? { ReadStepOk(s.db.jobs, id, t); }
    if t.job.Some? { ProcessStepOk(s.db.files, t, r, s.db.jobs[id]); }
  }

  lemma {:induction false} NextTaskFacts(s: State, tid: nat)
    requires tid in s.tasks && s.tasks[tid].entry < |s.stream.entries| && TasksOk(s) && JobsOk(s) && IndexReadable(s)
    ensures TaskOk(s, s.tasks[tid])
    ensures var row := s.db.jobs[s.stream.entries[s.tasks[tid].entry]];
            RowOk(row) && (row.jobType.IndexJob? && row.key in s.db.files ==> s.db.files[row.key].markdown != "")
  {
  }

  lemma {:induction false} TasksOkStep(s: State, a: Action)
    requires Enabled(s, a) && TasksOk(s) && JobsOk(s) && IndexReadable(s) && StreamOk(s)
    ensures TasksOk(Apply(s, a))
  {
    hide Transition, NextOf, HasActive, FilesAfter, CanTransition, JobsAfter, TaskOk, RowOk, JobsOk, IndexReadable,
        Enabled, JobsEvolve, Claim;
    StepEvolves(s, a);
    var u := Apply(s, a);
    forall t | t in u.tasks ensures TaskOk(u, u.tasks[t]) {
      if t in s.tasks && u.tasks[t] == s.tasks[t] {
        TaskOkPersists(s, u, s.tasks[t]);
      } else if a.Work? {
        WorkedTask(s, a.task, a.result, t);
      } else {
        FreshTask(s, a, t);
      }
    }
  }

  lemma {:induction false} WorkedTask(s: State, tid: nat, r: World, t: nat)
    requires Enabled(s, Work(tid, r)) && TasksOk(s) && JobsOk(s) && IndexReadable(s)
    requires t in WorkStep(s, tid, r).tasks && (t !in s.tasks || WorkStep(s, tid, r).tasks[t] != s.tasks[t])
    ensures TaskOk(WorkStep(s, tid, r), WorkStep(s, tid, r).tasks[t])
  {
    hide Transition, NextOf, HasActive, FilesAfter, CanTransition, JobsAfter, TaskOk, TasksOk, RowOk, JobsOk,
        IndexReadable, Claim;
    NextTaskOk(s, tid, r);
  }

  lemma {:induction false} FreshTask(s: State, a: Action, t: nat)
    requires Enabled(s, a) && StreamOk(s) && !a.Work?
    requires t in Apply(s, a).tasks && (t !in s.tasks || Apply(s, a).tasks[t] != s.tasks[t])
    ensures TaskOk(Apply(s, a), Apply(s, a).tasks[t])
  {
    hide Transition, NextOf, HasActive, FilesAfter, CanTransition, JobsAfter, WorkStep, Claim, CancelPending;
  }

  lemma {:induction false} OnlyAckingAcks(db: Tables, id: JobId, t: Task, r: World)
    ensures NextOf(db, id, t, r).Acks? <==> t.phase.Acking?
  {
    hide CanTransition;
  }

  /** Only the last step of a task shrinks the pending list, and only by its own entry. */
  lemma {:induction false} PendingShrinks(s: State, a: Action, e: nat)
    requires Enabled(s, a) && e in s.stream.pending && e !in Apply(s, a).stream.pending
    ensures a.Work? && s.tasks[a.task].entry == e && s.tasks[a.task].phase.Acking?
  {
    hide Transition, HasActive, FilesAfter, CanTransition, JobsAfter, Claim, CancelPending, MarkFailed, Active, NextOf;
    if a.Work? {
      OnlyAckingAcks(s.db, s.stream.entries[s.tasks[a.task].entry], s.tasks[a.task], a.result);
    }
  }

  lemma {:induction false} DeliveredPends(s: State, a: Action)
    requires Enabled(s, a) && s.stream.cursor < Apply(s, a).stream.cursor
    ensures Apply(s, a).stream.cursor == s.stream.cursor + 1 && s.stream.cursor in Apply(s, a).stream.pending
  {
    hide Transition, HasActive, FilesAfter, CanTransition, JobsAfter, Claim, CancelPending, MarkFailed, Active, NextOf;
  }

  lemma {:induction false} AckedFinishedStep(s: State, a: Action)
    requires Enabled(s, a) && AckedFinished(s) && TasksOk(s) && StreamOk(s)
    ensures AckedFinished(Apply(s, a))
  {
    hide Enabled, Apply, Active;
    StepEvolves(s, a);
    var u := Apply(s, a);
    forall e | 0 <= e < u.stream.cursor && e < |u.stream.entries| && e !in u.stream.pending
        && u.stream.entries[e] in u.db.jobs
      ensures !Active(u.db.jobs[u.stream.entries[e]])
    {
      if s.stream.cursor < u.stream.cursor { DeliveredPends(s, a); }
      if e in s.stream.pending {
        PendingShrinks(s, a, e);
        TaskFact(s, a);
      }
    }
  }

  lemma {:induction false} TaskFact(s: State, a: Action)
    requires Enabled(s, a) && a.Work? && TasksOk(s)
    ensures a.task in s.tasks && TaskOk(s, s.tasks[a.task])
  {
    hide TaskOk;
  }

  lemma {:induction false} SoundStep(s: State, a: Action)
    requires Enabled(s, a) && Sound(s)
    ensures Sound(Apply(s, a))
  {
    hide *;
    SoundParts(s);
    StreamOkStep(s, a);
    JobsOkStep(s, a);
    FilesOkStep(s, a);
    ClientsOkStep(s, a);
    IndexReadableStep(s, a);
    TasksOkStep(s, a);
    AckedFinishedStep(s, a);
    SoundParts(Apply(s, a));
  }

  lemma {:induction false} SoundParts(s: State)
    ensures Sound(s) <==>
        JobsOk(s) && FilesOk(s) && IndexReadable(s) && StreamOk(s) && ClientsOk(s) && TasksOk(s) && AckedFinished(s)
  {
  }

  lemma {:induction false} SoundRun(s: State, acts: seq<Action>)
    requires Sound(s) && Run(s, acts)
    ensures Sound(After(s, acts))
    decreases |acts|
  {
    hide Sound, Enabled, Apply;
    if acts != [] {
      SoundStep(s, acts[0]);
      SoundRun(Apply(s, acts[0]), acts[1..]);
    }
  }

  lemma {:induction false} ReachableIsSound(acts: seq<Action>)
    requires Run(INIT, acts)
    ensures Sound(After(INIT, acts))
  {
    hide Run, After, Enabled, Apply;
    SoundRun(INIT, acts);
  }

  // Theorems over every run --------------------------------------------------------------------

  /** At most one pending or running job per (kb, file, job type), in every reachable state. */
  lemma {:induction false} AtMostOneActiveJob(acts: seq<Action>, i: JobId, j: JobId)
    requires Run(INIT, acts)
    requires var jobs := After(INIT, acts).db.jobs;
             && i in jobs && j in jobs && Active(jobs[i]) && Active(jobs[j])
             && jobs[i].key == jobs[j].key && jobs[i].jobType == jobs[j].jobType
    ensures i == j
  {
    hide Run, After, Enabled, Apply, Active;
    ReachableIsSound(acts);
  }

  /** No job is lost: an active job whose publish succeeded has an entry that is undelivered, or delivered and
      unacknowledged. */
  lemma {:induction false} NoJobIsLost(acts: seq<Action>, id: JobId)
    requires Run(INIT, acts)
    requires var s := After(INIT, acts); id in s.published && id in s.db.jobs && Active(s.db.jobs[id])
    ensures var s := After(INIT, acts);
            exists e :: 0 <= e < |s.stream.entries| && s.stream.entries[e] == id
                && (s.stream.cursor <= e || e in s.stream.pending)
  {
    hide Run, After, Enabled, Apply, Active;
    ReachableIsSound(acts);
    var s := After(INIT, acts);
    assert id in s.stream.entries;
  }

  /** An entry leaves the pending list only when its job is finished, and then the job stays finished. */
  lemma {:induction false} AckedOnlyWhenFinished(acts: seq<Action>, a: Action, e: nat)
    requires Run(INIT, acts) && Enabled(After(INIT, acts), a)
    requires e in After(INIT, acts).stream.pending && e !in Apply(After(INIT, acts), a).stream.pending
    ensures var s := After(INIT, acts);
            e < |s.stream.entries| && s.stream.entries[e] in s.db.jobs && !Active(s.db.jobs[s.stream.entries[e]])
  {
    hide Run, After, Enabled, Apply, Active, JobsOk, IndexReadable, FilesOk;
    ReachableIsSound(acts);
    PendingShrinks(After(INIT, acts), a, e);
    TaskFact(After(INIT, acts), a);
  }

  /** A file that has been parsed has a Markdown path, and no worker ever stops at MARKDOWN_MISSING or
      MAX_ATTEMPTS_EXCEEDED. */
  lemma {:induction false} MarkdownAndAttempts(acts: seq<Action>)
    requires Run(INIT, acts)
    ensures var s := After(INIT, acts);
            && (forall key :: key in s.db.files && s.db.files[key].status in READABLE ==>
                s.db.files[key].markdown != "")
            && (forall id :: id in s.db.jobs ==> s.db.jobs[id].attempt <= 1 == s.db.jobs[id].maxAttempts)
            && (forall t :: t in s.tasks ==>
                s.tasks[t].phase !in {Failing(MaxAttemptsExceeded), IndexFail(MarkdownMissing),
                                      Failing(MarkdownMissing)})
  {
    hide Run, After, Enabled, Apply, Active;
    ReachableIsSound(acts);
    var s := After(INIT, acts);
    forall t | t in s.tasks ensures s.tasks[t].phase !in {Failing(MaxAttemptsExceeded), IndexFail(MarkdownMissing),
                                                          Failing(MarkdownMissing)} {
      assert TaskOk(s, s.tasks[t]);
    }
  }
}
