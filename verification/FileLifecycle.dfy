/** The life of a file row and of a job row, written out status by status: which step may turn what into what, in every
    reachable state and over every run. */
module FileLifecycle {
  import opened Optional
  import opened Protocol
  import opened ProtocolSafety
  import opened MidwayFiles

  // What a task does to its file ---------------------------------------------------------------------------

  /** The statuses from which the task's transition is possible, and the row it leaves. */
  predicate Turns(p: Phase, before: FileRow, after: FileRow) {
    match p
    case ParseStart => before.status == ParseQueued && after == FileRow(Parsing, before.markdown)
    case ParseEnd(text) => before.status == Parsing && after == FileRow(Parsed, text)
    case ParseFail(_) => before.status in {ParseQueued, Parsing} && after == FileRow(ParseFailed, before.markdown)
    case IndexStart => before.status == IndexQueued && after == FileRow(Indexing, before.markdown)
    case IndexEnd => before.status == Indexing && after == FileRow(Indexed, before.markdown)
    case IndexFail(_) => before.status in {IndexQueued, Indexing} && after == FileRow(IndexFailed, before.markdown)
    case _ => false
  }

  /** The phase that follows a transition that took place. */
  predicate Succeeds(p: Phase, markdown: string, next: Phase) {
    match p
    case ParseStart => next == ParseWork
    case ParseEnd(_) => next == Succeeding
    case ParseFail(code) => next == Failing(code)
    case IndexStart => next == if markdown == "" then IndexFail(MarkdownMissing) else IndexWork
    case IndexEnd => next == Succeeding
    case IndexFail(code) => next == Failing(code)
    case _ => false
  }

  /** What follows one that was refused; None when the handling ends there. */
  function Refuses(p: Phase): Option<Phase> {
    match p
    case ParseStart => Some(Failing(StateConflict))
    case ParseEnd(_) => Some(ParseFail(StateConflict))
    case IndexStart => Some(IndexFail(StateConflict))
    case IndexEnd => Some(IndexFail(StateConflict))
    case _ => None
  }

  predicate Transitional(p: Phase, r: World) {
    p.ParseStart? || p.ParseEnd? || p.ParseFail? || (p.IndexStart? && r.Good?) || p.IndexEnd? || p.IndexFail?
  }

  /** A task's transition, exactly: when the file stands in a status that allows it the row is turned and the task goes
      on; otherwise nothing is changed and the task goes where the refusal sends it. */
  lemma {:induction false} TransitionExactly(s: State, tid: nat, r: World)
    requires Enabled(s, Work(tid, r)) && s.tasks[tid].job.Some? && Transitional(s.tasks[tid].phase, r)
    ensures var t, u := s.tasks[tid], Apply(s, Work(tid, r));
            var key := t.job.value.key;
            && u.db.jobs == s.db.jobs && u.stream == s.stream && u.db.files.Keys == s.db.files.Keys
            && (forall k :: k in s.db.files && k != key ==> u.db.files[k] == s.db.files[k])
            && if exists after :: key in s.db.files && Turns(t.phase, s.db.files[key], after) then
                 && Turns(t.phase, s.db.files[key], u.db.files[key])
                 && tid in u.tasks && Succeeds(t.phase, t.markdown, u.tasks[tid].phase)
               else
                 && u.db == s.db
                 && (tid in u.tasks <==> Refuses(t.phase).Some?)
                 && (tid in u.tasks ==> u.tasks[tid].phase == Refuses(t.phase).value)
  {
    var t := s.tasks[tid];
    var key := t.job.value.key;
    if key in s.db.files {
      TurnsExactlyWhen(t.phase, s.db.files[key]);
    }
  }

  /** The statuses, written out. */
  lemma {:induction false} TurnsExactlyWhen(p: Phase, before: FileRow)
    ensures (exists after :: Turns(p, before, after)) <==>
              || (p.ParseStart? && before.status == ParseQueued) || (p.ParseEnd? && before.status == Parsing)
              || (p.ParseFail? && before.status in {ParseQueued, Parsing})
              || (p.IndexStart? && before.status == IndexQueued) || (p.IndexEnd? && before.status == Indexing)
              || (p.IndexFail? && before.status in {IndexQueued, Indexing})
  {
    match p
    case ParseStart => assert before.status == ParseQueued ==> Turns(p, before, FileRow(Parsing, before.markdown));
    case ParseEnd(text) => assert before.status == Parsing ==> Turns(p, before, FileRow(Parsed, text));
    case ParseFail(_) =>
      assert before.status in {ParseQueued, Parsing} ==> Turns(p, before, FileRow(ParseFailed, before.markdown));
    case IndexStart => assert before.status == IndexQueued ==> Turns(p, before, FileRow(Indexing, before.markdown));
    case IndexEnd => assert before.status == Indexing ==> Turns(p, before, FileRow(Indexed, before.markdown));
    case IndexFail(_) =>
      assert before.status in {IndexQueued, Indexing} ==> Turns(p, before, FileRow(IndexFailed, before.markdown));
    case _ =>
  }

  /** A failed parse or index job leaves its file in the failed status of its type, with the path it had: whenever a
      task goes from failing its file to failing its job, and only then. */
  lemma {:induction false} FailingLeavesFailed(s: State, tid: nat, r: World)
    requires Enabled(s, Work(tid, r)) && s.tasks[tid].job.Some?
    requires s.tasks[tid].phase.ParseFail? || s.tasks[tid].phase.IndexFail?
    ensures var t, u := s.tasks[tid], Apply(s, Work(tid, r));
            var key := t.job.value.key;
            if tid in u.tasks then
              && u.tasks[tid].phase == Failing(t.phase.code) && key in s.db.files
              && if t.phase.ParseFail? then
                   s.db.files[key].status in {ParseQueued, Parsing}
                   && u.db.files[key] == FileRow(ParseFailed, s.db.files[key].markdown)
                 else
                   s.db.files[key].status in {IndexQueued, Indexing}
                   && u.db.files[key] == FileRow(IndexFailed, s.db.files[key].markdown)
            else u.db == s.db && u.stream == s.stream
  {
    hide Enabled, Apply;
    TransitionExactly(s, tid, r);
  }

  // Every change of a file row -----------------------------------------------------------------------------

  /** A task's transition, the creation of a job, or the restoring call after a refused publish. */
  predicate MovesFile(s: State, a: Action, key: FileKey, before: FileRow, after: FileRow) {
    match a
    case Work(t, _) =>
      && t in s.tasks && s.tasks[t].job.Some? && s.tasks[t].job.value.key == key
          && Turns(s.tasks[t].phase, before, after)
    case CreateJob(c, id) =>
      && c in s.clients && s.clients[c].Creating? && s.clients[c].key == key && before.status in s.clients[c].from
      && after == FileRow(if s.clients[c].jobType.ParseJob? then ParseQueued else IndexQueued, before.markdown)
    case RestoreFile(c, ok) =>
      && ok && c in s.clients && s.clients[c].Restoring? && s.clients[c].job in s.db.jobs
      && s.db.jobs[s.clients[c].job].key == key
      && if s.db.jobs[s.clients[c].job].jobType.ParseJob? then
           before.status == ParseQueued && after == FileRow(ParseFailed, before.markdown)
         else before.status == IndexQueued && after == FileRow(IndexFailed, before.markdown)
    case _ => false
  }

  lemma {:induction false} OnlyMovesChange(s: State, a: Action, key: FileKey)
    requires Enabled(s, a) && FilesOk(s) && key in s.db.files && key in Apply(s, a).db.files
    requires s.db.files[key] != Apply(s, a).db.files[key]
    ensures MovesFile(s, a, key, s.db.files[key], Apply(s, a).db.files[key])
  {
    hide NextOf, JobsAfter, HasActive, MarkFailed, CancelPending;
  }

  /** A row appears by an upload only, in status uploaded and without Markdown. */
  lemma {:induction false} OnlyUploadsAdd(s: State, a: Action, key: FileKey)
    requires Enabled(s, a) && key !in s.db.files && key in Apply(s, a).db.files
    ensures a.Upload? && a.key == key && key !in s.known && Apply(s, a).db.files[key] == FileRow(Uploaded, "")
  {
    hide NextOf, JobsAfter, HasActive, MarkFailed, CancelPending;
  }

  /** In every reachable state a file comes to stand in uploaded only by its upload. */
  lemma {:induction false} OnlyUploadEntersUploaded(acts: seq<Action>, a: Action, key: FileKey)
    requires Run(INIT, acts) && Enabled(After(INIT, acts), a)
    requires var u := Apply(After(INIT, acts), a); key in u.db.files && u.db.files[key].status == Uploaded
    requires var s := After(INIT, acts); !(key in s.db.files && s.db.files[key].status == Uploaded)
    ensures a.Upload? && a.key == key && key !in After(INIT, acts).known
  {
    hide Run, After, Enabled, Apply;
    ReachableIsSound(acts);
    var s := After(INIT, acts);
    if key in s.db.files {
      OnlyMovesChange(s, a, key);
    } else {
      OnlyUploadsAdd(s, a, key);
    }
  }

  // Uploaded means that no job was ever created -----------------------------------------------------------------

  ghost predicate HasJob(jobs: Jobs, key: FileKey) {
    exists id :: id in jobs && jobs[id].key == key
  }

  ghost predicate UploadedIsNew(s: State) {
    forall key :: key in s.db.files ==> (s.db.files[key].status == Uploaded <==> !HasJob(s.db.jobs, key))
  }

  lemma {:induction false} JobAppears(s: State, a: Action, id: JobId)
    requires Enabled(s, a) && id !in s.db.jobs && id in Apply(s, a).db.jobs
    ensures a.CreateJob? && a.id == id && Apply(s, a).db.jobs[id].key == s.clients[a.client].key
    ensures var key, files := s.clients[a.client].key, Apply(s, a).db.files;
            key in files && files[key].status != Uploaded
    ensures forall other :: other in Apply(s, a).db.jobs && other != id ==> other in s.db.jobs
  {
    hide NextOf, FilesAfter, HasActive;
  }

  lemma {:induction false} HadJob(s: State, a: Action, key: FileKey)
    requires Enabled(s, a)
    ensures HasJob(s.db.jobs, key) ==> HasJob(Apply(s, a).db.jobs, key)
    ensures HasJob(Apply(s, a).db.jobs, key) && !HasJob(s.db.jobs, key) ==>
              a.CreateJob? && s.clients[a.client].key == key && a.id !in s.db.jobs && a.id in Apply(s, a).db.jobs
  {
    hide Enabled, Apply;
    StepEvolves(s, a);
    var u := Apply(s, a);
    if HasJob(s.db.jobs, key) {
      var id :| id in s.db.jobs && s.db.jobs[id].key == key;
      assert u.db.jobs[id].key == key;
    } else if HasJob(u.db.jobs, key) {
      var id :| id in u.db.jobs && u.db.jobs[id].key == key;
      JobAppears(s, a, id);
    }
  }

  lemma {:induction false} CreatingMakesJob(s: State, a: Action, key: FileKey)
    requires Enabled(s, a) && a.CreateJob? && s.clients[a.client].key == key && key in s.db.files
    requires Apply(s, a).db.files != s.db.files
    ensures HasJob(Apply(s, a).db.jobs, key)
  {
    hide HasActive;
    assert a.id in Apply(s, a).db.jobs;
  }

  lemma {:induction false} TasksHaveJobs(s: State, a: Action)
    requires Enabled(s, a) && Sound(s)
    ensures a.Work? && a.task in s.tasks && s.tasks[a.task].job.Some? ==>
        HasJob(s.db.jobs, s.tasks[a.task].job.value.key)
    ensures a.RestoreFile? && s.clients[a.client].job in s.db.jobs ==>
              HasJob(s.db.jobs, s.db.jobs[s.clients[a.client].job].key)
  {
    hide JobsOk, FilesOk, IndexReadable, StreamOk, ClientsOk, AckedFinished, PhaseOk, Apply;
    if a.Work? && a.task in s.tasks { assert TaskOk(s, s.tasks[a.task]); }
  }

  lemma {:induction false} UploadedIsNewStep(s: State, a: Action)
    requires Enabled(s, a) && Sound(s) && UploadedIsNew(s)
    ensures UploadedIsNew(Apply(s, a))
  {
    hide Apply, HasJob, Enabled, JobsOk, IndexReadable, StreamOk, ClientsOk, TasksOk, AckedFinished;
    var u := Apply(s, a);
    forall key | key in u.db.files
      ensures u.db.files[key].status == Uploaded <==> !HasJob(u.db.jobs, key)
    {
      HadJob(s, a, key);
      if key !in s.db.files {
        OnlyUploadsAdd(s, a, key);
        UnknownHasNoJob(s, key);
      } else {
        TasksHaveJobs(s, a);
        if HasJob(u.db.jobs, key) && !HasJob(s.db.jobs, key) { JobAppears(s, a, a.id); }
        if s.db.files[key] != u.db.files[key] {
          OnlyMovesChange(s, a, key);
          if a.CreateJob? { CreatingMakesJob(s, a, key); }
        }
      }
    }
  }

  lemma {:induction false} UnknownHasNoJob(s: State, key: FileKey)
    requires Sound(s) && key !in s.known
    ensures !HasJob(s.db.jobs, key)
  {
  }

  lemma {:induction false} UploadedIsNewRun(s: State, acts: seq<Action>)
    requires Sound(s) && UploadedIsNew(s) && Run(s, acts)
    ensures UploadedIsNew(After(s, acts))
    decreases |acts|
  {
    hide Sound, Enabled, Apply, UploadedIsNew;
    if acts != [] {
      SoundStep(s, acts[0]);
      UploadedIsNewStep(s, acts[0]);
      UploadedIsNewRun(Apply(s, acts[0]), acts[1..]);
    }
  }

  /** Over every run: a file stands in uploaded if and only if no job was ever created for it. */
  lemma {:induction false} UploadedExactly(acts: seq<Action>, key: FileKey)
    requires Run(INIT, acts) && key in After(INIT, acts).db.files
    ensures var s := After(INIT, acts);
            s.db.files[key].status == Uploaded <==> forall id :: id in s.db.jobs ==> s.db.jobs[id].key != key
  {
    hide Run, After, Enabled, Apply, Sound;
    InitCovered(ParseJob);
    UploadedIsNewRun(INIT, acts);
  }

  // Which files the services accept ---------------------------------------------------------------------------

  /** The first check of RetryParse, of an index request and of a deletion, status by status. */
  lemma {:induction false} AskingExactly(s: State, c: nat, key: FileKey)
    requires c !in s.clients
    ensures Enabled(s, AskParse(c, key)) <==>
              key in s.db.files && s.db.files[key].status !in {Uploaded, ParseQueued, Parsing, IndexQueued, Indexing}
    ensures Enabled(s, AskParse(c, key)) <==>
              key in s.db.files && s.db.files[key].status in {ParseFailed, Parsed, IndexFailed, Indexed}
    ensures Enabled(s, AskIndex(c, key)) <==>
              key in s.db.files && s.db.files[key].status in {Parsed, IndexFailed, Indexed}
    ensures Enabled(s, AskDelete(c, key)) <==>
              key in s.db.files && s.db.files[key].status !in {Parsing, Indexing}
  {
    if key in s.db.files {
      var status := s.db.files[key].status;
      assert status.Uploaded? || status.ParseQueued? || status.Parsing? || status.IndexQueued? || status.Indexing?
          || status.ParseFailed? || status.Parsed? || status.IndexFailed? || status.Indexed?;
    }
  }

  /** In runs without failed publishes and deletions a file without an active job can be parsed again, unless no job was
      ever created for it or a collision has stranded it; there is no other way to become unparseable. */
  lemma {:induction false} ParseableExactly(acts: seq<Action>, c: nat, key: FileKey)
    requires Run(INIT, acts) && CalmRun(acts)
    requires var s := After(INIT, acts);
             && c !in s.clients && key in s.db.files
             && !HasActive(s.db.jobs, key, ParseJob) && !HasActive(s.db.jobs, key, IndexJob)
    ensures var s := After(INIT, acts);
            Enabled(s, AskParse(c, key)) <==> HasJob(s.db.jobs, key) && !Stranded(s, key)
  {
    hide Run, After, Apply, Enabled, HasActive, CalmRun, Sound;
    var s := After(INIT, acts);
    AskingExactly(s, c, key);
    UploadedExactly(acts, key);
    if s.db.files[key].status in {IndexQueued, Indexing} { IndexingIsNeverStuck(acts, key); }
  }
}
