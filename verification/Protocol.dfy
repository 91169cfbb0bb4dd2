/** The document-processing protocol: the file and job tables, the Redis stream with its pending list, the workers and
    the services, as one state machine. Every repository call and every stream command is one atomic step; any process
    may stop, or see a call fail, between two steps. */
module Protocol {
  import opened Optional

  // Tables ---------------------------------------------------------------------------

  type JobId = nat
  type WorkerId = nat
  datatype FileKey = FileKey(kb: nat, file: nat)

  datatype FileStatus = Uploaded | ParseQueued | Parsing | Parsed | ParseFailed
                      | IndexQueued | Indexing | Indexed | IndexFailed
  datatype FileRow = FileRow(status: FileStatus, markdown: string)

  datatype JobType = ParseJob | IndexJob
  datatype JobStatus = Pending | Running | Succeeded | Failed | Cancelled
  datatype ErrorCode = MaxAttemptsExceeded | FileNotFound | StateConflict
                     | StorageReadFailed | ParserFailed | StorageWriteFailed
                     | EmbeddingNotConfigured | MarkdownMissing | RagIndexFailed | QueueEnqueueFailed
  datatype JobRow = JobRow(key: FileKey, jobType: JobType, status: JobStatus, attempt: nat, maxAttempts: nat,
                           worker: Option<WorkerId>, error: Option<ErrorCode>)

  type Files = map<FileKey, FileRow>
  type Jobs = map<JobId, JobRow>
  datatype Tables = Tables(files: Files, jobs: Jobs)

  predicate Active(row: JobRow) { row.status.Pending? || row.status.Running? }

  predicate HasActive(jobs: Jobs, key: FileKey, jobType: JobType) {
    exists id :: id in jobs && jobs[id].key == key && jobs[id].jobType == jobType && Active(jobs[id])
  }

  function Queued(t: JobType): FileStatus { if t.ParseJob? then ParseQueued else IndexQueued }

  function FailedStatus(t: JobType): FileStatus { if t.ParseJob? then ParseFailed else IndexFailed }

  // Repository calls -----------------------------------------------------------------------

  predicate CanTransition(files: Files, key: FileKey, from: set<FileStatus>) {
    key in files && files[key].status in from
  }

  /** TransitionStatus: compare and set. */
  function Transition(files: Files, key: FileKey, from: set<FileStatus>, to: FileStatus,
      markdown: Option<string>): Files
  {
    if CanTransition(files, key, from)
    then files[key := FileRow(to, if markdown.Some? then markdown.value else files[key].markdown)]
    else files
  }

  predicate CanCreate(db: Tables, key: FileKey, jobType: JobType, from: set<FileStatus>) {
    !HasActive(db.jobs, key, jobType) && CanTransition(db.files, key, from)
  }

  /** CreateForFileTransition, one transaction. */
  function CreateForTransition(db: Tables, id: JobId, key: FileKey, jobType: JobType, maxAttempts: nat,
      from: set<FileStatus>): Tables {
    if CanCreate(db, key, jobType, from)
    then Tables(Transition(db.files, key, from, Queued(jobType), None),
                db.jobs[id := JobRow(key, jobType, Pending, 0, maxAttempts, None, None)])
    else db
  }

  /** claimByJobID's update: ClaimByJobID takes pending jobs and counts an attempt, ReclaimByJobID also takes running
      ones. */
  function Claim(jobs: Jobs, id: JobId, worker: WorkerId, reclaimed: bool): Jobs {
    if id in jobs && (jobs[id].status.Pending? || (reclaimed && jobs[id].status.Running?))
    then jobs[id := jobs[id].(status := Running, worker := Some(worker),
                              attempt := jobs[id].attempt + if reclaimed then 0 else 1)]
    else jobs
  }

  /** MarkSucceeded and MarkFailed: no guard on the current status. */
  function MarkSucceeded(jobs: Jobs, id: JobId): Jobs {
    if id in jobs then jobs[id := jobs[id].(status := Succeeded)] else jobs
  }

  function MarkFailed(jobs: Jobs, id: JobId, code: ErrorCode): Jobs {
    if id in jobs then jobs[id := jobs[id].(status := Failed, error := Some(code))] else jobs
  }

  /** CancelPendingByFile */
  function CancelPending(jobs: Jobs, key: FileKey): Jobs {
    map id | id in jobs :: if jobs[id].key == key && jobs[id].status.Pending? then jobs[id].(status := Cancelled)
        else jobs[id]
  }

  // The stream -----------------------------------------------------------------------------

  /** entries[..cursor] have been delivered; pending holds the delivered entries not yet acknowledged. */
  datatype Stream = Stream(entries: seq<JobId>, cursor: nat, pending: map<nat, WorkerId>)

  // Processes ------------------------------------------------------------------------------

  /** Where the handling of one message stands: the next repository call or external operation. */
  datatype Phase = Claiming | Reading | Finding
                 | ParseStart | ParseWork | ParseEnd(text: string) | ParseFail(code: ErrorCode)
                 | IndexStart | IndexWork | IndexEnd | IndexFail(code: ErrorCode)
                 | Failing(code: ErrorCode) | Succeeding | Acking

  /** The handling of one delivered entry; job is the row as read, markdown the path in the file row as read. */
  datatype Task = Task(worker: WorkerId, entry: nat, reclaimed: bool, job: Option<JobRow>, markdown: string,
                       phase: Phase)

  /** A service call between two repository calls. */
  datatype Client = Creating(key: FileKey, jobType: JobType, from: set<FileStatus>, maxAttempts: nat, undo: bool)
                  | Undoing(key: FileKey)
                  | Publishing(job: JobId) | Unpublished(job: JobId) | Restoring(job: JobId)
                  | Cancelling(key: FileKey) | Removing(key: FileKey)

  /** known holds every file id ever issued, published every job whose publish succeeded. */
  datatype State = State(db: Tables, stream: Stream, tasks: map<nat, Task>, clients: map<nat, Client>,
                         known: set<FileKey>, published: set<JobId>)

  const INIT := State(Tables(map[], map[]), Stream([], 0, map[]), map[], map[], {}, {})

  /** The result of storage, parser, indexer: the Markdown path (or nothing of interest), or an error. */
  datatype World = Good(text: string) | Bad(code: ErrorCode)

  datatype Action = Consume(task: nat, worker: WorkerId)
                  | Reclaim(task: nat, worker: WorkerId, entry: nat)
                  | Work(task: nat, result: World)
                  | Abandon(task: nat)
                  | Upload(client: nat, key: FileKey)
                  | AskParse(client: nat, key: FileKey)
                  | AskIndex(client: nat, key: FileKey)
                  | AskRetry(client: nat, failed: JobId)
                  | CreateJob(client: nat, id: JobId)
                  | CreateErrs(client: nat)
                  | UndoUpload(client: nat, ok: bool)
                  | Publish(client: nat, accepted: bool, appended: bool)
                  | MarkUnpublished(client: nat, ok: bool)
                  | RestoreFile(client: nat, ok: bool)
                  | AskDelete(client: nat, key: FileKey)
                  | CancelJobs(client: nat)
                  | RemoveFile(client: nat)
                  | ClientStops(client: nat)

  const PARSEABLE := {ParseFailed, Parsed, IndexFailed, Indexed}
  const INDEXABLE := {Parsed, IndexFailed, Indexed}

  predicate Enabled(s: State, a: Action) {
    match a
    case Consume(t, w) => t !in s.tasks && s.stream.cursor < |s.stream.entries|
    case Reclaim(t, w, e) => t !in s.tasks && e in s.stream.pending && e < |s.stream.entries|
    case Work(t, result) =>
      && t in s.tasks && s.tasks[t].entry < |s.stream.entries|
      && (s.tasks[t].phase.ParseWork? && result.Good? ==> result.text != "")
      && (s.tasks[t].phase.ParseWork? && result.Bad? ==>
          result.code in {StorageReadFailed, ParserFailed, StorageWriteFailed})
      && (s.tasks[t].phase.IndexStart? && result.Bad? ==> result.code.EmbeddingNotConfigured?)
      && (s.tasks[t].phase.IndexWork? && result.Bad? ==> result.code in {StorageReadFailed, RagIndexFailed})
    case Abandon(t) => t in s.tasks
    case Upload(c, key) => c !in s.clients && key !in s.known
    case AskParse(c, key) => c !in s.clients && CanTransition(s.db.files, key, PARSEABLE)
    case AskIndex(c, key) => c !in s.clients && CanTransition(s.db.files, key, INDEXABLE)
    case AskRetry(c, failed) => c !in s.clients && failed in s.db.jobs && s.db.jobs[failed].status.Failed?
    case CreateJob(c, id) => c in s.clients && s.clients[c].Creating? && id !in s.db.jobs
    case CreateErrs(c) => c in s.clients && s.clients[c].Creating?
    case UndoUpload(c, ok) => c in s.clients && s.clients[c].Undoing?
    case Publish(c, accepted, appended) => c in s.clients && s.clients[c].Publishing? && (accepted ==> appended)
    case MarkUnpublished(c, ok) => c in s.clients && s.clients[c].Unpublished?
    case RestoreFile(c, ok) => c in s.clients && s.clients[c].Restoring?
    case AskDelete(c, key) => c !in s.clients && key in s.db.files && s.db.files[key].status !in {Parsing, Indexing}
    case CancelJobs(c) => c in s.clients && s.clients[c].Cancelling?
    case RemoveFile(c) => c in s.clients && s.clients[c].Removing?
    case ClientStops(c) => c in s.clients
  }

  // The worker's steps ---------------------------------------------------------------------

  datatype Next = Goes(task: Task) | Stops | Acks

  function ReadStep(jobs: Jobs, id: JobId, t: Task): Next {
    if id !in jobs || !Active(jobs[id]) then Goes(t.(phase := Acking))
    else
      var row := jobs[id];
      if !row.status.Running? || row.worker != Some(t.worker) then Stops
      else if row.maxAttempts > 0 && row.attempt > row.maxAttempts
          then Goes(t.(job := Some(row), phase := Failing(MaxAttemptsExceeded)))
      else Goes(t.(job := Some(row), phase := Finding))
  }

  function FindStep(files: Files, t: Task): Next
    requires t.job.Some?
  {
    var row := t.job.value;
    if row.key !in files then Goes(t.(phase := Failing(FileNotFound)))
    else Goes(t.(markdown := files[row.key].markdown,
                 phase := if row.jobType.ParseJob? then ParseStart else IndexStart))
  }

  /** What the phase may change in the file table. */
  function FilesAfter(files: Files, t: Task, r: World): Files
    requires t.job.Some?
  {
    var key := t.job.value.key;
    match t.phase
    case ParseStart => Transition(files, key, {ParseQueued}, Parsing, None)
    case ParseEnd(text) => Transition(files, key, {Parsing}, Parsed, Some(text))
    case ParseFail(_) => Transition(files, key, {ParseQueued, Parsing}, ParseFailed, None)
    case IndexStart => if r.Bad? then files else Transition(files, key, {IndexQueued}, Indexing, None)
    case IndexEnd => Transition(files, key, {Indexing}, Indexed, None)
    case IndexFail(_) => Transition(files, key, {IndexQueued, Indexing}, IndexFailed, None)
    case _ => files
  }

  function JobsAfter(jobs: Jobs, id: JobId, t: Task): Jobs {
    match t.phase
    case Claiming => Claim(jobs, id, t.worker, t.reclaimed)
    case Failing(code) => MarkFailed(jobs, id, code)
    case Succeeding => MarkSucceeded(jobs, id)
    case _ => jobs
  }

  /** The steps of processParseJob, processIndexJob, failParseJob and failIndexJob, for a row that has been read. */
  function ProcessStep(files: Files, t: Task, r: World): Next
    requires t.job.Some?
  {
    var key := t.job.value.key;
    match t.phase
    case Finding => FindStep(files, t)
    case ParseStart =>
      Goes(t.(phase := if CanTransition(files, key, {ParseQueued}) then ParseWork else Failing(StateConflict)))
    case ParseWork => Goes(t.(phase := if r.Good? then ParseEnd(r.text) else ParseFail(r.code)))
    case ParseEnd(_) =>
      Goes(t.(phase := if CanTransition(files, key, {Parsing}) then Succeeding else ParseFail(StateConflict)))
    case ParseFail(code) => if CanTransition(files, key, {ParseQueued, Parsing}) then Goes(t.(phase := Failing(code)))
        else Stops
    case IndexStart =>
      Goes(t.(phase := if r.Bad? then IndexFail(r.code)
                       else if !CanTransition(files, key, {IndexQueued}) then IndexFail(StateConflict)
                       else if t.markdown == "" then IndexFail(MarkdownMissing)
                       else IndexWork))
    case IndexWork => Goes(t.(phase := if r.Good? then IndexEnd else IndexFail(r.code)))
    case IndexEnd =>
      Goes(t.(phase := if CanTransition(files, key, {Indexing}) then Succeeding else IndexFail(StateConflict)))
    case IndexFail(code) => if CanTransition(files, key, {IndexQueued, Indexing}) then Goes(t.(phase := Failing(code)))
        else Stops
    case _ => Stops
  }

  function NextOf(db: Tables, id: JobId, t: Task, r: World): Next {
    if t.phase.Claiming? then Goes(t.(phase := Reading))
    else if t.phase.Reading? then ReadStep(db.jobs, id, t)
    else if t.phase.Acking? then Acks
    else if t.phase.Failing? || t.phase.Succeeding? then Goes(t.(phase := Acking))
    else if t.job.None? then Stops
    else ProcessStep(db.files, t, r)
  }

  function WorkStep(s: State, tid: nat, r: World): State
    requires tid in s.tasks && s.tasks[tid].entry < |s.stream.entries|
  {
    var t := s.tasks[tid];
    var id := s.stream.entries[t.entry];
    var next := NextOf(s.db, id, t, r);
    State(
      Tables(if t.job.Some? then FilesAfter(s.db.files, t, r) else s.db.files, JobsAfter(s.db.jobs, id, t)),
      if next.Acks? then s.stream.(pending := s.stream.pending - {t.entry}) else s.stream,
      if next.Goes? then s.tasks[tid := next.task] else s.tasks - {tid},
      s.clients, s.known, s.published)
  }

  function NewTask(worker: WorkerId, entry: nat, reclaimed: bool): Task {
    Task(worker, entry, reclaimed, None, "", Claiming)
  }

  function Apply(s: State, a: Action): State
    requires Enabled(s, a)
  {
    match a
    case Consume(t, w) =>
      var e := s.stream.cursor;
      s.(stream := s.stream.(cursor := e + 1, pending := s.stream.pending[e := w]),
         tasks := s.tasks[t := NewTask(w, e, false)])
    case Reclaim(t, w, e) =>
      s.(stream := s.stream.(pending := s.stream.pending[e := w]), tasks := s.tasks[t := NewTask(w, e, true)])
    case Work(t, result) => WorkStep(s, t, result)
    case Abandon(t) => s.(tasks := s.tasks - {t})
    case Upload(c, key) =>
      s.(db := s.db.(files := s.db.files[key := FileRow(Uploaded, "")]), known := s.known + {key},
         clients := s.clients[c := Creating(key, ParseJob, {Uploaded}, 1, true)])
    case AskParse(c, key) => s.(clients := s.clients[c := Creating(key, ParseJob, PARSEABLE, 1, false)])
    case AskIndex(c, key) => s.(clients := s.clients[c := Creating(key, IndexJob, INDEXABLE, 1, false)])
    case AskRetry(c, failed) =>
      var row := s.db.jobs[failed];
      s.(clients := s.clients[c := Creating(row.key, row.jobType, {FailedStatus(row.jobType)}, row.maxAttempts, false)])
    case CreateJob(c, id) =>
      var k := s.clients[c];
      var created := CanCreate(s.db, k.key, k.jobType, k.from);
      s.(db := CreateForTransition(s.db, id, k.key, k.jobType, k.maxAttempts, k.from),
         clients := if created then s.clients[c := Publishing(id)] else if k.undo then s.clients[c := Undoing(k.key)]
             else s.clients - {c})
    case CreateErrs(c) =>
      var k := s.clients[c];
      s.(clients := if k.undo then s.clients[c := Undoing(k.key)] else s.clients - {c})
    case UndoUpload(c, ok) => s.(db := s.db.(files := if ok then s.db.files - {s.clients[c].key} else s.db.files),
                                 clients := s.clients - {c})
    case Publish(c, accepted, appended) =>
      var id := s.clients[c].job;
      s.(stream := if appended then s.stream.(entries := s.stream.entries + [id]) else s.stream,
         published := if accepted then s.published + {id} else s.published,
         clients := if accepted then s.clients - {c} else s.clients[c := Unpublished(id)])
    case MarkUnpublished(c, ok) =>
      var id := s.clients[c].job;
      s.(db := s.db.(jobs := if ok then MarkFailed(s.db.jobs, id, QueueEnqueueFailed) else s.db.jobs),
         clients := s.clients[c := Restoring(id)])
    case RestoreFile(c, ok) =>
      var id := s.clients[c].job;
      s.(db := s.db.(files := if ok && id in s.db.jobs
                              then Transition(s.db.files, s.db.jobs[id].key, {Queued(s.db.jobs[id].jobType)},
                                              FailedStatus(s.db.jobs[id].jobType), None)
                              else s.db.files),
         clients := s.clients - {c})
    case AskDelete(c, key) =>
      var queued := s.db.files[key].status in {ParseQueued, IndexQueued};
      s.(clients := s.clients[c := if queued then Cancelling(key) else Removing(key)])
    case CancelJobs(c) => s.(db := s.db.(jobs := CancelPending(s.db.jobs, s.clients[c].key)),
                             clients := s.clients[c := Removing(s.clients[c].key)])
    case RemoveFile(c) => s.(db := s.db.(files := s.db.files - {s.clients[c].key}), clients := s.clients - {c})
    case ClientStops(c) => s.(clients := s.clients - {c})
  }

  // Runs -----------------------------------------------------------------------------------

  predicate Run(s: State, acts: seq<Action>)
    decreases |acts|
  {
    acts == [] || (Enabled(s, acts[0]) && Run(Apply(s, acts[0]), acts[1..]))
  }

  function After(s: State, acts: seq<Action>): State
    requires Run(s, acts)
    decreases |acts|
  {
    if acts == [] then s else After(Apply(s, acts[0]), acts[1..])
  }

  /** acts leads from s to u. */
  ghost predicate Leads(s: State, acts: seq<Action>, u: State) {
    Run(s, acts) && After(s, acts) == u
  }

  lemma {:induction false} LeadsOn(s: State, acts: seq<Action>, u: State, a: Action)
    requires Leads(s, acts, u) && Enabled(u, a)
    ensures Leads(s, acts + [a], Apply(u, a))
    decreases |acts|
  {
    hide Enabled, Apply;
    if acts == [] {
      assert acts + [a] == [a] && [a][1..] == [] && u == s;
      assert Run(Apply(s, a), []) && After(Apply(s, a), []) == Apply(s, a);
      assert Run(s, [a]);
    } else {
      assert (acts + [a])[1..] == acts[1..] + [a];
      LeadsOn(Apply(s, acts[0]), acts[1..], u, a);
    }
  }

  // What every step keeps of the job table ---------------------------------------------------

  /** Rows are never removed, keep their identity, and a finished job stays finished. */
  ghost predicate JobsEvolve(jobs: Jobs, later: Jobs) {
    forall id :: id in jobs ==>
      && id in later && later[id].key == jobs[id].key && later[id].jobType == jobs[id].jobType
      && later[id].maxAttempts == jobs[id].maxAttempts
      && (!Active(jobs[id]) ==> !Active(later[id]))
  }

  lemma {:induction false} WorkEvolves(jobs: Jobs, id: JobId, t: Task)
    ensures JobsEvolve(jobs, JobsAfter(jobs, id, t))
  {
  }

  lemma {:induction false} StepEvolves(s: State, a: Action)
    requires Enabled(s, a)
    ensures var u := Apply(s, a);
            && JobsEvolve(s.db.jobs, u.db.jobs)
            && s.stream.entries <= u.stream.entries && s.stream.cursor <= u.stream.cursor
            && s.known <= u.known && s.published <= u.published
  {
    hide Transition, NextOf, ProcessStep, HasActive, FilesAfter, CanTransition, JobsAfter;
    if a.Work? { WorkEvolves(s.db.jobs, s.stream.entries[s.tasks[a.task].entry], s.tasks[a.task]); }
  }

  /** Terminal jobs never become active again. */
  lemma {:induction false} FinishedForever(s: State, acts: seq<Action>, id: JobId)
    requires Run(s, acts) && id in s.db.jobs && !Active(s.db.jobs[id])
    ensures id in After(s, acts).db.jobs && !Active(After(s, acts).db.jobs[id])
    decreases |acts|
  {
    hide Enabled, Apply, Active;
    if acts != [] {
      StepEvolves(s, acts[0]);
      FinishedForever(Apply(s, acts[0]), acts[1..], id);
    }
  }
}
