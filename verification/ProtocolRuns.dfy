/** Runs of the protocol from its initial state that end in a file or a job nobody can finish: a parser that stopped in
    mid-parse, an indexer that stopped before its last call, and an indexer overtaken by the worker it was taken over
    from. */
module ProtocolRuns {
  import opened Optional
  import opened Protocol
  import opened ProtocolSafety
  import opened MidwayFiles
  import opened BlockedIndexing

  const KEY := FileKey(0, 0)
  const OK := Good("path")

  // Putting runs together -------------------------------------------------------------------------

  predicate Moves(s: State, a: Action, u: State) {
    Enabled(s, a) && Apply(s, a) == u
  }

  lemma {:induction false} MoveLeads(s: State, a: Action, u: State)
    requires Moves(s, a, u)
    ensures Leads(s, [a], u)
  {
    hide Enabled, Apply;
    LeadsOn(s, [], s, a);
    assert [] + [a] == [a];
  }

  lemma {:induction false} LeadsAppend(s: State, first: seq<Action>, u: State, second: seq<Action>, v: State)
    requires Leads(s, first, u) && Leads(u, second, v)
    ensures Leads(s, first + second, v)
    decreases |first|
  {
    hide Enabled, Apply;
    if first == [] {
      assert first + second == second;
    } else {
      assert (first + second)[1..] == first[1..] + second;
      LeadsAppend(Apply(s, first[0]), first[1..], u, second, v);
    }
  }

  /** No process stops and no call fails. */
  predicate Smooth(a: Action) {
    Calm(a) && !a.Abandon? && !a.ClientStops? && !a.CreateErrs? && (a.Work? ==> a.result.Good?)
  }

  ghost predicate SmoothRun(acts: seq<Action>) {
    forall i :: 0 <= i < |acts| ==> Smooth(acts[i])
  }

  lemma {:induction false} SmoothAppend(first: seq<Action>, second: seq<Action>)
    requires SmoothRun(first) && SmoothRun(second)
    ensures SmoothRun(first + second)
  {
    hide Smooth;
  }

  lemma {:induction false} SmoothIsCalm(acts: seq<Action>)
    requires SmoothRun(acts)
    ensures CalmRun(acts)
  {
  }

  // One task at work -------------------------------------------------------------------------------

  /** What a task works on: itself, its file and its job's row. */
  datatype View = View(task: Task, file: FileRow, row: JobRow)

  predicate Shows(s: State, tid: nat, v: View) {
    && tid in s.tasks && s.tasks[tid] == v.task && v.task.entry < |s.stream.entries|
    && KEY in s.db.files && s.db.files[KEY] == v.file && v.row.key == KEY
    && (v.task.job.Some? ==> v.task.job.value.key == KEY)
    && s.stream.entries[v.task.entry] in s.db.jobs && s.db.jobs[s.stream.entries[v.task.entry]] == v.row
  }

  function Put(s: State, tid: nat, v: View): State
    requires v.task.entry < |s.stream.entries|
  {
    s.(db := Tables(s.db.files[KEY := v.file], s.db.jobs[s.stream.entries[v.task.entry] := v.row]),
       tasks := s.tasks[tid := v.task])
  }

  function Files1(v: View): Files { map[KEY := v.file] }

  function Jobs1(v: View): Jobs { map[0 := v.row] }

  /** One successful step, on a database of one file and one job. */
  predicate Follows(v: View, w: View) {
    && NextOf(Tables(Files1(v), Jobs1(v)), 0, v.task, OK) == Goes(w.task) && w.task.entry == v.task.entry
    && (if v.task.job.Some? then FilesAfter(Files1(v), v.task, OK) else Files1(v)) == Files1(w)
    && JobsAfter(Jobs1(v), 0, v.task) == Jobs1(w)
  }

  lemma {:induction false} NextIsLocal(db: Tables, id: JobId, v: View)
    requires KEY in db.files && db.files[KEY] == v.file && id in db.jobs && db.jobs[id] == v.row
    requires v.row.key == KEY && (v.task.job.Some? ==> v.task.job.value.key == KEY)
    ensures NextOf(db, id, v.task, OK) == NextOf(Tables(Files1(v), Jobs1(v)), 0, v.task, OK)
  {
    hide Active;
  }

  lemma {:induction false} FilesAreLocal(files: Files, v: View, w: View)
    requires KEY in files && files[KEY] == v.file && v.task.job.Some? && v.task.job.value.key == KEY
    requires FilesAfter(Files1(v), v.task, OK) == Files1(w)
    ensures FilesAfter(files, v.task, OK) == files[KEY := w.file]
  {
    assert Files1(w)[KEY] == w.file;
  }

  lemma {:induction false} JobsAreLocal(jobs: Jobs, id: JobId, v: View, w: View)
    requires id in jobs && jobs[id] == v.row && JobsAfter(Jobs1(v), 0, v.task) == Jobs1(w)
    ensures JobsAfter(jobs, id, v.task) == jobs[id := w.row]
  {
    assert Jobs1(w)[0] == w.row;
  }

  lemma {:induction false} FollowMoves(s: State, tid: nat, v: View, w: View)
    requires Shows(s, tid, v) && Follows(v, w)
    ensures Moves(s, Work(tid, OK), Put(s, tid, w))
  {
    hide NextOf, FilesAfter, JobsAfter;
    var id := s.stream.entries[v.task.entry];
    NextIsLocal(s.db, id, v);
    JobsAreLocal(s.db.jobs, id, v, w);
    if v.task.job.Some? {
      FilesAreLocal(s.db.files, v, w);
    } else {
      assert Files1(v)[KEY] == v.file && Files1(w)[KEY] == w.file;
      assert s.db.files[KEY := w.file] == s.db.files;
    }
  }

  lemma {:induction false} PutShows(s: State, tid: nat, v: View)
    requires v.task.entry < |s.stream.entries| && v.row.key == KEY && (v.task.job.Some? ==> v.task.job.value.key == KEY)
    ensures Shows(Put(s, tid, v), tid, v)
  {
  }

  lemma {:induction false} PutAgain(s: State, tid: nat, v: View, w: View)
    requires v.task.entry < |s.stream.entries| && v.task.entry == w.task.entry
    ensures Put(Put(s, tid, v), tid, w) == Put(s, tid, w)
  {
    var id := s.stream.entries[v.task.entry];
    assert s.db.files[KEY := v.file][KEY := w.file] == s.db.files[KEY := w.file];
    assert s.db.jobs[id := v.row][id := w.row] == s.db.jobs[id := w.row];
    assert s.tasks[tid := v.task][tid := w.task] == s.tasks[tid := w.task];
  }

  lemma {:induction false} ShowsPut(s: State, tid: nat, v: View)
    requires Shows(s, tid, v)
    ensures Put(s, tid, v) == s
  {
    assert s.db.files[KEY := v.file] == s.db.files;
    assert s.db.jobs[s.stream.entries[v.task.entry] := v.row] == s.db.jobs;
    assert s.tasks[tid := v.task] == s.tasks;
  }

  predicate OnKey(v: View) {
    v.row.key == KEY && (v.task.job.Some? ==> v.task.job.value.key == KEY)
  }

  function Works(tid: nat, n: nat): seq<Action> { seq(n, _ => Work(tid, OK)) }

  lemma {:induction false} FollowKeepsEntry(v: View, w: View)
    requires Follows(v, w)
    ensures v.task.entry == w.task.entry
  {
  }

  lemma {:induction false} OneWorkLeads(s: State, tid: nat, v: View, w: View)
    requires Shows(s, tid, v) && Follows(v, w) && OnKey(w)
    ensures v.task.entry == w.task.entry && Leads(s, Works(tid, 1), Put(s, tid, w)) && Shows(Put(s, tid, w), tid, w)
  {
    hide Follows, Moves, Leads;
    FollowKeepsEntry(v, w);
    FollowMoves(s, tid, v, w);
    MoveLeads(s, Work(tid, OK), Put(s, tid, w));
    PutShows(s, tid, w);
    assert Works(tid, 1) == [Work(tid, OK)];
  }

  lemma {:induction false} TwoWorksLead(s: State, tid: nat, v: View, w: View, x: View)
    requires Shows(s, tid, v) && Follows(v, w) && Follows(w, x) && OnKey(w) && OnKey(x)
    ensures v.task.entry == x.task.entry && v.task.entry < |s.stream.entries|
    ensures Leads(s, Works(tid, 2), Put(s, tid, x)) && Shows(Put(s, tid, x), tid, x)
  {
    hide Follows, Leads, OnKey;
    OneWorkLeads(s, tid, v, w);
    OneWorkLeads(Put(s, tid, w), tid, w, x);
    PutAgain(s, tid, w, x);
    LeadsAppend(s, Works(tid, 1), Put(s, tid, w), Works(tid, 1), Put(s, tid, x));
    assert Works(tid, 1) + Works(tid, 1) == Works(tid, 2);
  }

  lemma {:induction false} ThreeWorksLead(s: State, tid: nat, v: View, w: View, x: View, y: View)
    requires Shows(s, tid, v) && Follows(v, w) && Follows(w, x) && Follows(x, y) && OnKey(w) && OnKey(x) && OnKey(y)
    ensures v.task.entry == y.task.entry && v.task.entry < |s.stream.entries|
    ensures Leads(s, Works(tid, 3), Put(s, tid, y)) && Shows(Put(s, tid, y), tid, y)
  {
    hide Follows, Leads, OnKey, Shows, Put;
    TwoWorksLead(s, tid, v, w, x);
    OneWorkLeads(Put(s, tid, x), tid, x, y);
    PutAgain(s, tid, x, y);
    LeadsAppend(s, Works(tid, 2), Put(s, tid, x), Works(tid, 1), Put(s, tid, y));
    assert Works(tid, 2) + Works(tid, 1) == Works(tid, 3);
  }

  /** The last step acknowledges. */
  lemma {:induction false} AckMoves(s: State, tid: nat)
    requires tid in s.tasks && s.tasks[tid].phase.Acking? && s.tasks[tid].entry < |s.stream.entries|
    ensures Moves(s, Work(tid, OK),
                  s.(stream := s.stream.(pending := s.stream.pending - {s.tasks[tid].entry}), tasks := s.tasks - {tid}))
  {
    hide FilesAfter;
    assert s.tasks[tid].job.Some? ==>
        FilesAfter(s.db.files, s.tasks[tid], OK) == s.db.files by { AckLeavesFiles(s.db.files, s.tasks[tid]); }
  }

  lemma {:induction false} AckLeavesFiles(files: Files, t: Task)
    requires t.phase.Acking?
    ensures t.job.Some? ==> FilesAfter(files, t, OK) == files
  {
  }

  // The steps of a handling ------------------------------------------------------------------------

  function Taken(row: JobRow, worker: WorkerId, reclaimed: bool): JobRow {
    row.(status := Running, worker := Some(worker), attempt := row.attempt + if reclaimed then 0 else 1)
  }

  function Claimed(worker: WorkerId, entry: nat, reclaimed: bool): Task {
    Task(worker, entry, reclaimed, None, "", Reading)
  }

  function Picked(worker: WorkerId, entry: nat, reclaimed: bool, file: FileRow, row: JobRow): Task {
    Task(worker, entry, reclaimed, Some(row), file.markdown, if row.jobType.ParseJob? then ParseStart else IndexStart)
  }

  lemma {:induction false} ClaimFollows(worker: WorkerId, entry: nat, reclaimed: bool, file: FileRow, row: JobRow)
    requires row.status.Pending? || (reclaimed && row.status.Running?)
    ensures Follows(View(NewTask(worker, entry, reclaimed), file, row),
                    View(Claimed(worker, entry, reclaimed), file, Taken(row, worker, reclaimed)))
  {
  }

  lemma {:induction false} ReadFollows(worker: WorkerId, entry: nat, reclaimed: bool, file: FileRow, row: JobRow)
    requires row.status.Running? && row.worker == Some(worker) && row.attempt <= row.maxAttempts
    ensures Follows(View(Claimed(worker, entry, reclaimed), file, row),
                    View(Task(worker, entry, reclaimed, Some(row), "", Finding), file, row))
  {
  }

  lemma {:induction false} FindFollows(worker: WorkerId, entry: nat, reclaimed: bool, file: FileRow, row: JobRow)
    requires row.key == KEY
    ensures Follows(View(Task(worker, entry, reclaimed, Some(row), "", Finding), file, row),
                    View(Picked(worker, entry, reclaimed, file, row), file, row))
  {
  }

  lemma {:induction false} PickLeads(s: State, tid: nat, worker: WorkerId, entry: nat, reclaimed: bool, file: FileRow,
      row: JobRow)
    requires Shows(s, tid, View(NewTask(worker, entry, reclaimed), file, row))
    requires row.status.Pending? || (reclaimed && row.status.Running?)
    requires Taken(row, worker, reclaimed).attempt <= row.maxAttempts
    ensures var taken := Taken(row, worker, reclaimed);
            Leads(s, Works(tid, 3), Put(s, tid, View(Picked(worker, entry, reclaimed, file, taken), file, taken)))
  {
    hide Follows, Leads, Put;
    var taken := Taken(row, worker, reclaimed);
    ClaimFollows(worker, entry, reclaimed, file, row);
    ReadFollows(worker, entry, reclaimed, file, taken);
    FindFollows(worker, entry, reclaimed, file, taken);
    ThreeWorksLead(s, tid, View(NewTask(worker, entry, reclaimed), file, row),
                   View(Claimed(worker, entry, reclaimed), file, taken),
                   View(Task(worker, entry, reclaimed, Some(taken), "", Finding), file, taken),
                   View(Picked(worker, entry, reclaimed, file, taken), file, taken));
  }

  /** The task after the first transition, and the file. */
  function Working(t: Task): Task { t.(phase := if t.phase.ParseStart? then ParseWork else IndexWork) }

  function WorkedOn(t: Task, file: FileRow): FileRow {
    file.(status := if t.phase.ParseStart? then Parsing else Indexing)
  }

  lemma {:induction false} StartFollows(t: Task, file: FileRow, row: JobRow)
    requires t.job.Some? && t.job.value.key == KEY
    requires (t.phase.ParseStart? && file.status.ParseQueued?)
          || (t.phase.IndexStart? && file.status.IndexQueued? && t.markdown != "")
    ensures Follows(View(t, file, row), View(Working(t), WorkedOn(t, file), row))
  {
  }

  lemma {:induction false} CollisionFollows(t: Task, file: FileRow, row: JobRow)
    requires t.job.Some? && t.job.value.key == KEY
    requires (t.phase.ParseStart? && file.status.Parsing?) || (t.phase.IndexStart? && file.status.Indexing?)
    ensures Follows(View(t, file, row),
                    View(t.(phase := if t.phase.ParseStart? then Failing(StateConflict) else IndexFail(StateConflict)),
                         file, row))
  {
  }

  lemma {:induction false} WorkFollows(t: Task, file: FileRow, row: JobRow)
    requires t.job.Some? && (t.phase.ParseWork? || t.phase.IndexWork?)
    ensures Follows(View(t, file, row),
                    View(t.(phase := if t.phase.ParseWork? then ParseEnd("path") else IndexEnd), file, row))
  {
  }

  lemma {:induction false} EndFollows(t: Task, file: FileRow, row: JobRow)
    requires t.job.Some? && t.job.value.key == KEY
    requires (t.phase == ParseEnd("path") && file.status.Parsing?) || (t.phase.IndexEnd? && file.status.Indexing?)
    ensures Follows(View(t, file, row),
                    View(t.(phase := Succeeding),
                         if t.phase.IndexEnd? then file.(status := Indexed) else FileRow(Parsed, "path"), row))
  {
  }

  lemma {:induction false} IndexFailFollows(t: Task, file: FileRow, row: JobRow)
    requires t.job.Some? && t.job.value.key == KEY && t.phase == IndexFail(StateConflict) && file.status.Indexing?
    ensures Follows(View(t, file, row), View(t.(phase := Failing(StateConflict)), file.(status := IndexFailed), row))
  {
  }

  lemma {:induction false} CloseFollows(t: Task, file: FileRow, row: JobRow)
    requires t.job.Some? && t.job.value.key == KEY && (t.phase == Failing(StateConflict) || t.phase.Succeeding?)
    ensures Follows(View(t, file, row),
                    View(t.(phase := Acking), file, if t.phase.Succeeding? then row.(status := Succeeded)
                                                    else row.(status := Failed, error := Some(StateConflict))))
  {
  }

  // Requests ---------------------------------------------------------------------------------------

  function NewRow(t: JobType): JobRow { JobRow(KEY, t, Pending, 0, 1, None, None) }

  function Created(s: State, c: nat, id: JobId, t: JobType): State
    requires KEY in s.db.files
  {
    s.(db := Tables(s.db.files[KEY := FileRow(Queued(t), s.db.files[KEY].markdown)], s.db.jobs[id := NewRow(t)]),
       clients := s.clients[c := Publishing(id)])
  }

  function Published(s: State, c: nat, id: JobId): State {
    s.(stream := s.stream.(entries := s.stream.entries + [id]), published := s.published + {id},
       clients := s.clients - {c})
  }

  function Consumed(s: State, tid: nat, worker: WorkerId): State {
    s.(stream := s.stream.(cursor := s.stream.cursor + 1, pending := s.stream.pending[s.stream.cursor := worker]),
       tasks := s.tasks[tid := NewTask(worker, s.stream.cursor, false)])
  }

  /** A service call creates and publishes a job of the file, and a worker takes the message. */
  function Request(c: nat, id: JobId, tid: nat, worker: WorkerId): seq<Action> {
    [CreateJob(c, id), Publish(c, true, true), Consume(tid, worker)]
  }

  lemma {:induction false} CreateMoves(s: State, c: nat, id: JobId, t: JobType)
    requires c in s.clients && s.clients[c].Creating? && s.clients[c].key == KEY && s.clients[c].jobType == t
        && s.clients[c].maxAttempts == 1
    requires CanTransition(s.db.files, KEY, s.clients[c].from) && id !in s.db.jobs && !HasActive(s.db.jobs, KEY, t)
    ensures Moves(s, CreateJob(c, id), Created(s, c, id, t))
  {
    hide HasActive;
  }

  lemma {:induction false} PublishMoves(s: State, c: nat, id: JobId)
    requires c in s.clients && s.clients[c] == Publishing(id)
    ensures Moves(s, Publish(c, true, true), Published(s, c, id))
  {
  }

  lemma {:induction false} ConsumeMoves(s: State, tid: nat, worker: WorkerId)
    requires tid !in s.tasks && s.stream.cursor < |s.stream.entries|
    ensures Moves(s, Consume(tid, worker), Consumed(s, tid, worker))
  {
  }

  lemma {:induction false} RequestLeads(s: State, c: nat, id: JobId, t: JobType, tid: nat, worker: WorkerId)
    requires c in s.clients && s.clients[c].Creating? && s.clients[c].key == KEY && s.clients[c].jobType == t
        && s.clients[c].maxAttempts == 1
    requires CanTransition(s.db.files, KEY, s.clients[c].from) && id !in s.db.jobs && !HasActive(s.db.jobs, KEY, t)
    requires tid !in s.tasks && s.stream.cursor == |s.stream.entries|
    ensures Leads(s, Request(c, id, tid, worker), Consumed(Published(Created(s, c, id, t), c, id), tid, worker))
  {
    hide Moves, HasActive, Leads;
    var s1 := Created(s, c, id, t);
    var s2 := Published(s1, c, id);
    var s3 := Consumed(s2, tid, worker);
    CreateMoves(s, c, id, t);
    PublishMoves(s1, c, id);
    ConsumeMoves(s2, tid, worker);
    MoveLeads(s, CreateJob(c, id), s1);
    MoveLeads(s1, Publish(c, true, true), s2);
    MoveLeads(s2, Consume(tid, worker), s3);
    LeadsAppend(s, [CreateJob(c, id)], s1, [Publish(c, true, true)], s2);
    LeadsAppend(s, [CreateJob(c, id)] + [Publish(c, true, true)], s2, [Consume(tid, worker)], s3);
    assert [CreateJob(c, id)] + [Publish(c, true, true)] + [Consume(tid, worker)] == Request(c, id, tid, worker);
  }

  lemma {:induction false} WorksAreSmooth(tid: nat, n: nat)
    ensures SmoothRun(Works(tid, n))
  {
  }

  lemma {:induction false} RequestIsSmooth(ask: Action, c: nat, id: JobId, tid: nat, worker: WorkerId)
    requires Smooth(ask)
    ensures SmoothRun([ask] + Request(c, id, tid, worker))
  {
  }

  // From the upload to a worker parsing the file ------------------------------------------------------

  function Scene(file: FileRow, jobs: Jobs, stream: Stream, tasks: map<nat, Task>): State {
    State(Tables(map[KEY := file], jobs), stream, tasks, map[], {KEY}, jobs.Keys)
  }

  lemma {:induction false} PutScene(file: FileRow, jobs: Jobs, stream: Stream, tasks: map<nat, Task>, tid: nat, v: View)
    requires v.task.entry < |stream.entries| && stream.entries[v.task.entry] in jobs
    ensures Put(Scene(file, jobs, stream, tasks), tid, v) == Scene(v.file, jobs[stream.entries[v.task.entry] := v.row],
                                                                   stream, tasks[tid := v.task])
  {
    var id := stream.entries[v.task.entry];
    assert jobs[id := v.row].Keys == jobs.Keys;
    assert map[KEY := file][KEY := v.file] == map[KEY := v.file];
  }

  /** Claim, read, find and one step more. */
  lemma {:induction false} PickAndGo(s: State, tid: nat, worker: WorkerId, entry: nat, reclaimed: bool, file: FileRow,
      row: JobRow, w: View)
    requires Shows(s, tid, View(NewTask(worker, entry, reclaimed), file, row)) && OnKey(w)
    requires row.status.Pending? || (reclaimed && row.status.Running?)
    requires Taken(row, worker, reclaimed).attempt <= row.maxAttempts
    requires var taken := Taken(row, worker, reclaimed);
             Follows(View(Picked(worker, entry, reclaimed, file, taken), file, taken), w)
    ensures w.task.entry == entry && Leads(s, Works(tid, 4), Put(s, tid, w))
  {
    hide Follows, Leads;
    var taken := Taken(row, worker, reclaimed);
    var v := View(Picked(worker, entry, reclaimed, file, taken), file, taken);
    PickLeads(s, tid, worker, entry, reclaimed, file, row);
    PutShows(s, tid, v);
    OneWorkLeads(Put(s, tid, v), tid, v, w);
    PutAgain(s, tid, v, w);
    LeadsAppend(s, Works(tid, 3), Put(s, tid, v), Works(tid, 1), Put(s, tid, w));
    assert Works(tid, 3) + Works(tid, 1) == Works(tid, 4);
  }

  function Row(t: JobType, status: JobStatus, worker: WorkerId, error: Option<ErrorCode>): JobRow {
    JobRow(KEY, t, status, 1, 1, Some(worker), error)
  }

  function Runs(t: JobType, worker: WorkerId): JobRow { Row(t, Running, worker, None) }

  function TaskOf(worker: WorkerId, entry: nat, reclaimed: bool, t: JobType, phase: Phase): Task {
    Task(worker, entry, reclaimed, Some(Runs(t, worker)), if t.ParseJob? then "" else "path", phase)
  }

  function JustUploaded(): State { Apply(INIT, Upload(0, KEY)) }

  function Delivered(): State {
    Scene(FileRow(ParseQueued, ""), map[0 := NewRow(ParseJob)], Stream([0], 1, map[0 := 1]),
          map[0 := NewTask(1, 0, false)])
  }

  function BeingParsed(): State {
    Scene(FileRow(Parsing, ""), map[0 := Runs(ParseJob, 1)], Stream([0], 1, map[0 := 1]),
          map[0 := TaskOf(1, 0, false, ParseJob, ParseWork)])
  }

  lemma {:induction false} UploadLeads()
    ensures Leads(INIT, [Upload(0, KEY)] + Request(0, 0, 0, 1), Delivered())
  {
    hide Leads, HasActive;
    var s := JustUploaded();
    MoveLeads(INIT, Upload(0, KEY), s);
    assert !HasActive(s.db.jobs, KEY, ParseJob) by { NoJobs(s.db.jobs); }
    RequestLeads(s, 0, 0, ParseJob, 0, 1);
    LeadsAppend(INIT, [Upload(0, KEY)], s, Request(0, 0, 0, 1),
                Consumed(Published(Created(s, 0, 0, ParseJob), 0, 0), 0, 1));
    UploadedState();
  }

  lemma {:induction false} UploadedState()
    ensures Consumed(Published(Created(JustUploaded(), 0, 0, ParseJob), 0, 0), 0, 1) == Delivered()
  {
    var s := JustUploaded();
    assert s.db.files[KEY := FileRow(ParseQueued, "")] == map[KEY := FileRow(ParseQueued, "")];
    assert s.clients[0 := Publishing(0)] - {0} == map[];
  }

  lemma {:induction false} NoJobs(jobs: Jobs)
    requires jobs == map[]
    ensures !HasActive(jobs, KEY, ParseJob) && !HasActive(jobs, KEY, IndexJob)
  {
  }

  lemma {:induction false} ParserStarts()
    ensures Leads(Delivered(), Works(0, 4), BeingParsed())
  {
    hide Leads, Follows, Put;
    var queued, parsing := FileRow(ParseQueued, ""), FileRow(Parsing, "");
    var w := View(TaskOf(1, 0, false, ParseJob, ParseWork), parsing, Runs(ParseJob, 1));
    StartFollows(TaskOf(1, 0, false, ParseJob, ParseStart), queued, Runs(ParseJob, 1));
    PickAndGo(Delivered(), 0, 1, 0, false, queued, NewRow(ParseJob), w);
    PutScene(queued, map[0 := NewRow(ParseJob)], Stream([0], 1, map[0 := 1]), map[0 := NewTask(1, 0, false)], 0, w);
    assert map[0 := NewRow(ParseJob)][0 := w.row] == map[0 := w.row];
    assert map[0 := NewTask(1, 0, false)][0 := w.task] == map[0 := w.task];
  }

  // The parser that stopped ------------------------------------------------------------------------

  const UPLOAD: seq<Action> := [Upload(0, KEY)] + Request(0, 0, 0, 1)

  /** A file is uploaded; a first worker starts to parse it and stops; a second one reclaims the message. */
  const STOPPED_PARSER: seq<Action> := UPLOAD + Works(0, 4) + [Abandon(0)] + [Reclaim(0, 2, 0)] + Works(0, 4)
      + Works(0, 1) + Works(0, 1)

  /** Tasks and jobs of the stopped run; the one message is with the given worker. */
  function MidParse(row: JobRow, worker: WorkerId, tasks: map<nat, Task>): State {
    Scene(FileRow(Parsing, ""), map[0 := row], Stream([0], 1, map[0 := worker]), tasks)
  }

  function Reparser(phase: Phase): Task { TaskOf(2, 0, true, ParseJob, phase) }

  function Left(): State {
    Scene(FileRow(Parsing, ""), map[0 := Row(ParseJob, Failed, 2, Some(StateConflict))], Stream([0], 1, map[]), map[])
  }

  lemma {:induction false} ParserStops()
    ensures Leads(BeingParsed(), [Abandon(0)], MidParse(Runs(ParseJob, 1), 1, map[]))
  {
    hide Leads;
    assert BeingParsed().tasks - {0} == map[];
    MoveLeads(BeingParsed(), Abandon(0), MidParse(Runs(ParseJob, 1), 1, map[]));
  }

  lemma {:induction false} ParserReclaimed()
    ensures Leads(MidParse(Runs(ParseJob, 1), 1, map[]), [Reclaim(0, 2, 0)],
                  MidParse(Runs(ParseJob, 1), 2, map[0 := NewTask(2, 0, true)]))
  {
    hide Leads;
    assert map[0 := 1 as WorkerId][0 := 2] == map[0 := 2];
    MoveLeads(MidParse(Runs(ParseJob, 1), 1, map[]), Reclaim(0, 2, 0),
              MidParse(Runs(ParseJob, 1), 2, map[0 := NewTask(2, 0, true)]));
  }

  lemma {:induction false} ReparserCollides()
    ensures Leads(MidParse(Runs(ParseJob, 1), 2, map[0 := NewTask(2, 0, true)]), Works(0, 4),
                  MidParse(Runs(ParseJob, 2), 2, map[0 := Reparser(Failing(StateConflict))]))
  {
    hide Leads, Follows, Put;
    var file, row := FileRow(Parsing, ""), Runs(ParseJob, 1);
    var w := View(Reparser(Failing(StateConflict)), file, Runs(ParseJob, 2));
    CollisionFollows(Reparser(ParseStart), file, Runs(ParseJob, 2));
    PickAndGo(MidParse(row, 2, map[0 := NewTask(2, 0, true)]), 0, 2, 0, true, file, row, w);
    PutScene(file, map[0 := row], Stream([0], 1, map[0 := 2]), map[0 := NewTask(2, 0, true)], 0, w);
    assert map[0 := row][0 := w.row] == map[0 := w.row];
    assert map[0 := NewTask(2, 0, true)][0 := w.task] == map[0 := w.task];
  }

  lemma {:induction false} ReparserFails()
    ensures Leads(MidParse(Runs(ParseJob, 2), 2, map[0 := Reparser(Failing(StateConflict))]), Works(0, 1),
                  MidParse(Row(ParseJob, Failed, 2, Some(StateConflict)), 2, map[0 := Reparser(Acking)]))
  {
    hide Leads, Follows, Put;
    var file, row, t := FileRow(Parsing, ""), Runs(ParseJob, 2), Reparser(Failing(StateConflict));
    var w := View(Reparser(Acking), file, Row(ParseJob, Failed, 2, Some(StateConflict)));
    CloseFollows(t, file, row);
    OneWorkLeads(MidParse(row, 2, map[0 := t]), 0, View(t, file, row), w);
    PutScene(file, map[0 := row], Stream([0], 1, map[0 := 2]), map[0 := t], 0, w);
    assert map[0 := row][0 := w.row] == map[0 := w.row];
    assert map[0 := t][0 := w.task] == map[0 := w.task];
  }

  lemma {:induction false} AckLeads(s: State, tid: nat)
    requires tid in s.tasks && s.tasks[tid].phase.Acking? && s.tasks[tid].entry < |s.stream.entries|
    ensures Leads(s, Works(tid, 1),
                  s.(stream := s.stream.(pending := s.stream.pending - {s.tasks[tid].entry}), tasks := s.tasks - {tid}))
  {
    hide Leads, Moves;
    AckMoves(s, tid);
    assert Works(tid, 1) == [Work(tid, OK)];
    MoveLeads(s, Work(tid, OK),
              s.(stream := s.stream.(pending := s.stream.pending - {s.tasks[tid].entry}), tasks := s.tasks - {tid}));
  }

  lemma {:induction false} ReparserAcks()
    ensures Leads(MidParse(Row(ParseJob, Failed, 2, Some(StateConflict)), 2, map[0 := Reparser(Acking)]), Works(0, 1),
                  Left())
  {
    hide Leads;
    AckLeads(MidParse(Row(ParseJob, Failed, 2, Some(StateConflict)), 2, map[0 := Reparser(Acking)]), 0);
    assert map[0 := 2 as WorkerId] - {0} == map[] && map[0 := Reparser(Acking)] - {0} == map[];
  }

  lemma {:induction false} StoppedParserLeads()
    ensures Leads(INIT, STOPPED_PARSER, Left())
  {
    hide Leads, Works, Request, Delivered, BeingParsed, MidParse, Left, Row, Reparser, NewTask;
    UploadLeads();
    ParserStarts();
    LeadsAppend(INIT, UPLOAD, Delivered(), Works(0, 4), BeingParsed());
    ParserStops();
    LeadsAppend(INIT, UPLOAD + Works(0, 4), BeingParsed(), [Abandon(0)], MidParse(Runs(ParseJob, 1), 1, map[]));
    ParserReclaimed();
    var p := UPLOAD + Works(0, 4) + [Abandon(0)];
    LeadsAppend(INIT, p, MidParse(Runs(ParseJob, 1), 1, map[]), [Reclaim(0, 2, 0)],
                MidParse(Runs(ParseJob, 1), 2, map[0 := NewTask(2, 0, true)]));
    ReparserEnds(p + [Reclaim(0, 2, 0)]);
  }

  lemma {:induction false} ReparserEnds(p: seq<Action>)
    requires Leads(INIT, p, MidParse(Runs(ParseJob, 1), 2, map[0 := NewTask(2, 0, true)]))
    ensures Leads(INIT, p + Works(0, 4) + Works(0, 1) + Works(0, 1), Left())
  {
    hide Leads, Works, MidParse, Left, Row, Reparser, NewTask;
    ReparserCollides();
    LeadsAppend(INIT, p, MidParse(Runs(ParseJob, 1), 2, map[0 := NewTask(2, 0, true)]), Works(0, 4),
                MidParse(Runs(ParseJob, 2), 2, map[0 := Reparser(Failing(StateConflict))]));
    ReparserFails();
    LeadsAppend(INIT, p + Works(0, 4), MidParse(Runs(ParseJob, 2), 2, map[0 := Reparser(Failing(StateConflict))]),
                Works(0, 1),
                MidParse(Row(ParseJob, Failed, 2, Some(StateConflict)), 2, map[0 := Reparser(Acking)]));
    ReparserAcks();
    LeadsAppend(INIT, p + Works(0, 4) + Works(0, 1),
                MidParse(Row(ParseJob, Failed, 2, Some(StateConflict)), 2, map[0 := Reparser(Acking)]),
                Works(0, 1), Left());
  }

  /** The parse half fails when a message is reclaimed after its worker stopped in mid-parse, although no publish
      failed, nothing was deleted and the first worker was gone: the file is left in parsing without an active job, and
      so abandoned. */
  lemma {:induction false} ReclaimedParseIsAbandoned()
    ensures Run(INIT, STOPPED_PARSER) && CalmRun(STOPPED_PARSER)
    ensures Abandoned(After(INIT, STOPPED_PARSER), KEY) && Stranded(After(INIT, STOPPED_PARSER), KEY)
  {
    hide Run, After;
    StoppedParserLeads();
  }

  // The indexer that stopped -----------------------------------------------------------------------

  /** The file is parsed, then queued for indexing, and a worker starts on it. */
  const TO_INDEXING: seq<Action> := UPLOAD + Works(0, 4) + Works(0, 3) + Works(0, 1)
      + ([AskIndex(0, KEY)] + Request(0, 1, 0, 1)) + Works(0, 4)

  /** The worker moves the file to indexed and stops before it marks the job. */
  const STOPPED_INDEXER: seq<Action> := TO_INDEXING + Works(0, 2) + [Abandon(0)]

  const PARSE_DONE := Row(ParseJob, JobStatus.Succeeded, 1, None)

  function ParseAcking(): State {
    Scene(FileRow(Parsed, "path"), map[0 := PARSE_DONE], Stream([0], 1, map[0 := 1]),
          map[0 := TaskOf(1, 0, false, ParseJob, Acking)])
  }

  function ParsedScene(): State { Scene(FileRow(Parsed, "path"), map[0 := PARSE_DONE], Stream([0], 1, map[]), map[]) }

  /** The file with its finished parse job and its index job, whose message was last taken by the worker. */
  function IndexScene(status: FileStatus, row: JobRow, worker: WorkerId, tasks: map<nat, Task>): State {
    Scene(FileRow(status, "path"), map[0 := PARSE_DONE, 1 := row], Stream([0, 1], 2, map[1 := worker]), tasks)
  }

  function Indexer(phase: Phase): Task { TaskOf(1, 1, false, IndexJob, phase) }

  lemma {:induction false} ParserFinishes()
    ensures Leads(BeingParsed(), Works(0, 3), ParseAcking())
  {
    hide Leads, Follows, Put;
    var t, parsing, row := TaskOf(1, 0, false, ParseJob, ParseWork), FileRow(Parsing, ""), Runs(ParseJob, 1);
    var parsed := FileRow(Parsed, "path");
    var w := View(t.(phase := Acking), parsed, PARSE_DONE);
    WorkFollows(t, parsing, row);
    EndFollows(t.(phase := ParseEnd("path")), parsing, row);
    CloseFollows(t.(phase := Succeeding), parsed, row);
    ThreeWorksLead(BeingParsed(), 0, View(t, parsing, row), View(t.(phase := ParseEnd("path")), parsing, row),
                   View(t.(phase := Succeeding), parsed, row), w);
    PutScene(parsing, map[0 := row], Stream([0], 1, map[0 := 1]), map[0 := t], 0, w);
    assert map[0 := row][0 := w.row] == map[0 := w.row];
    assert map[0 := t][0 := w.task] == map[0 := w.task];
  }

  lemma {:induction false} ParserAcks()
    ensures Leads(ParseAcking(), Works(0, 1), ParsedScene())
  {
    hide Leads;
    AckLeads(ParseAcking(), 0);
    assert map[0 := 1 as WorkerId] - {0} == map[] && ParseAcking().tasks - {0} == map[];
  }

  function IndexAsked(): State { ParsedScene().(clients := map[0 := Creating(KEY, IndexJob, INDEXABLE, 1, false)]) }

  lemma {:induction false} IndexRequested()
    ensures Leads(ParsedScene(), [AskIndex(0, KEY)] + Request(0, 1, 0, 1),
                  IndexScene(IndexQueued, NewRow(IndexJob), 1, map[0 := NewTask(1, 1, false)]))
  {
    hide Leads, HasActive;
    var s := IndexAsked();
    MoveLeads(ParsedScene(), AskIndex(0, KEY), s);
    NoIndexJobYet();
    RequestLeads(s, 0, 1, IndexJob, 0, 1);
    var u := Consumed(Published(Created(s, 0, 1, IndexJob), 0, 1), 0, 1);
    LeadsAppend(ParsedScene(), [AskIndex(0, KEY)], s, Request(0, 1, 0, 1), u);
    IndexRequestedState();
  }

  lemma {:induction false} NoIndexJobYet()
    ensures !HasActive(IndexAsked().db.jobs, KEY, IndexJob)
  {
  }

  lemma {:induction false} IndexRequestedState()
    ensures Consumed(Published(Created(IndexAsked(), 0, 1, IndexJob), 0, 1), 0, 1)
         == IndexScene(IndexQueued, NewRow(IndexJob), 1, map[0 := NewTask(1, 1, false)])
  {
    var s := IndexAsked();
    assert s.db.files[KEY := FileRow(IndexQueued, "path")] == map[KEY := FileRow(IndexQueued, "path")];
    assert s.db.jobs[1 := NewRow(IndexJob)] == map[0 := PARSE_DONE, 1 := NewRow(IndexJob)];
    assert s.clients[0 := Publishing(1)] - {0} == map[];
    assert {0} + {1} == map[0 := PARSE_DONE, 1 := NewRow(IndexJob)].Keys;
  }

  lemma {:induction false} PutIndexScene(status: FileStatus, row: JobRow, worker: WorkerId, tasks: map<nat, Task>,
      tid: nat, v: View)
    requires v.task.entry == 1 && v.file.markdown == "path"
    ensures Put(IndexScene(status, row, worker, tasks), tid, v) == IndexScene(v.file.status, v.row, worker,
        tasks[tid := v.task])
  {
    hide Put;
    PutScene(FileRow(status, "path"), map[0 := PARSE_DONE, 1 := row], Stream([0, 1], 2, map[1 := worker]), tasks, tid,
             v);
    assert map[0 := PARSE_DONE, 1 := row][1 := v.row] == map[0 := PARSE_DONE, 1 := v.row];
  }

  lemma {:induction false} IndexerStarts()
    ensures Leads(IndexScene(IndexQueued, NewRow(IndexJob), 1, map[0 := NewTask(1, 1, false)]), Works(0, 4),
                  IndexScene(Indexing, Runs(IndexJob, 1), 1, map[0 := Indexer(IndexWork)]))
  {
    hide Leads, Follows, Put;
    var queued := FileRow(IndexQueued, "path");
    var w := View(Indexer(IndexWork), FileRow(Indexing, "path"), Runs(IndexJob, 1));
    StartFollows(Indexer(IndexStart), queued, Runs(IndexJob, 1));
    PickAndGo(IndexScene(IndexQueued, NewRow(IndexJob), 1, map[0 := NewTask(1, 1, false)]), 0, 1, 1, false, queued,
              NewRow(IndexJob), w);
    PutIndexScene(IndexQueued, NewRow(IndexJob), 1, map[0 := NewTask(1, 1, false)], 0, w);
    assert map[0 := NewTask(1, 1, false)][0 := w.task] == map[0 := w.task];
  }

  lemma {:induction false} ToParsed()
    ensures Leads(INIT, UPLOAD + Works(0, 4) + Works(0, 3) + Works(0, 1), ParsedScene())
  {
    hide Leads, Works, Request, Delivered, BeingParsed, ParseAcking, ParsedScene;
    UploadLeads();
    ParserStarts();
    LeadsAppend(INIT, UPLOAD, Delivered(), Works(0, 4), BeingParsed());
    ParserFinishes();
    LeadsAppend(INIT, UPLOAD + Works(0, 4), BeingParsed(), Works(0, 3), ParseAcking());
    ParserAcks();
    LeadsAppend(INIT, UPLOAD + Works(0, 4) + Works(0, 3), ParseAcking(), Works(0, 1), ParsedScene());
  }

  lemma {:induction false} ToIndexing()
    ensures Leads(INIT, TO_INDEXING, IndexScene(Indexing, Runs(IndexJob, 1), 1, map[0 := Indexer(IndexWork)]))
  {
    hide Leads, Works, Request, ParsedScene, IndexScene;
    var p := UPLOAD + Works(0, 4) + Works(0, 3) + Works(0, 1);
    var queued := IndexScene(IndexQueued, NewRow(IndexJob), 1, map[0 := NewTask(1, 1, false)]);
    ToParsed();
    IndexRequested();
    LeadsAppend(INIT, p, ParsedScene(), [AskIndex(0, KEY)] + Request(0, 1, 0, 1), queued);
    IndexerStarts();
    LeadsAppend(INIT, p + ([AskIndex(0, KEY)] + Request(0, 1, 0, 1)), queued, Works(0, 4),
                IndexScene(Indexing, Runs(IndexJob, 1), 1, map[0 := Indexer(IndexWork)]));
  }

  lemma {:induction false} IndexerEnds()
    ensures Leads(IndexScene(Indexing, Runs(IndexJob, 1), 1, map[0 := Indexer(IndexWork)]), Works(0, 2),
                  IndexScene(Indexed, Runs(IndexJob, 1), 1, map[0 := Indexer(Succeeding)]))
  {
    hide Leads, Follows, Put;
    var file, row := FileRow(Indexing, "path"), Runs(IndexJob, 1);
    var w := View(Indexer(Succeeding), FileRow(Indexed, "path"), row);
    WorkFollows(Indexer(IndexWork), file, row);
    EndFollows(Indexer(IndexEnd), file, row);
    TwoWorksLead(IndexScene(Indexing, row, 1, map[0 := Indexer(IndexWork)]), 0, View(Indexer(IndexWork), file, row),
                 View(Indexer(IndexEnd), file, row), w);
    PutIndexScene(Indexing, row, 1, map[0 := Indexer(IndexWork)], 0, w);
    assert map[0 := Indexer(IndexWork)][0 := w.task] == map[0 := w.task];
  }

  lemma {:induction false} IndexerStops()
    ensures Leads(IndexScene(Indexed, Runs(IndexJob, 1), 1, map[0 := Indexer(Succeeding)]), [Abandon(0)],
                  IndexScene(Indexed, Runs(IndexJob, 1), 1, map[]))
  {
    hide Leads;
    var s := IndexScene(Indexed, Runs(IndexJob, 1), 1, map[0 := Indexer(Succeeding)]);
    assert s.tasks - {0} == map[];
    MoveLeads(s, Abandon(0), IndexScene(Indexed, Runs(IndexJob, 1), 1, map[]));
  }

  /** A worker that stops between its last transition and its last update leaves an index job that nobody can finish,
      and so a file that can never be indexed again. */
  lemma {:induction false} StoppedIndexerBlocks()
    ensures Run(INIT, STOPPED_INDEXER) && CalmRun(STOPPED_INDEXER)
    ensures Blocked(After(INIT, STOPPED_INDEXER), KEY, 1) && After(INIT, STOPPED_INDEXER).db.files[KEY].status.Indexed?
  {
    hide Run, After, Works, Request;
    ToIndexing();
    IndexerEnds();
    LeadsAppend(INIT, TO_INDEXING, IndexScene(Indexing, Runs(IndexJob, 1), 1, map[0 := Indexer(IndexWork)]),
                Works(0, 2),
                IndexScene(Indexed, Runs(IndexJob, 1), 1, map[0 := Indexer(Succeeding)]));
    IndexerStops();
    LeadsAppend(INIT, TO_INDEXING + Works(0, 2),
                IndexScene(Indexed, Runs(IndexJob, 1), 1, map[0 := Indexer(Succeeding)]), [Abandon(0)],
                IndexScene(Indexed, Runs(IndexJob, 1), 1, map[]));
    ToIndexingIsSmooth();
    WorksAreSmooth(0, 2);
    SmoothAppend(TO_INDEXING, Works(0, 2));
    SmoothIsCalm(TO_INDEXING + Works(0, 2));
  }

  lemma {:induction false} ToIndexingIsSmooth()
    ensures SmoothRun(TO_INDEXING)
  {
    hide SmoothRun, Works, Request;
    var p := UPLOAD + Works(0, 4) + Works(0, 3) + Works(0, 1);
    RequestIsSmooth(Upload(0, KEY), 0, 0, 0, 1);
    WorksAreSmooth(0, 4);
    SmoothAppend(UPLOAD, Works(0, 4));
    WorksAreSmooth(0, 3);
    SmoothAppend(UPLOAD + Works(0, 4), Works(0, 3));
    WorksAreSmooth(0, 1);
    SmoothAppend(UPLOAD + Works(0, 4) + Works(0, 3), Works(0, 1));
    RequestIsSmooth(AskIndex(0, KEY), 0, 1, 0, 1);
    SmoothAppend(p, [AskIndex(0, KEY)] + Request(0, 1, 0, 1));
    SmoothAppend(p + ([AskIndex(0, KEY)] + Request(0, 1, 0, 1)), Works(0, 4));
  }

  // The indexer that was overtaken -----------------------------------------------------------------

  /** A slow worker is indexing; its message is reclaimed, and the second worker meets the conflict and fails the job;
      the job is retried, and while the new job is being worked on the slow worker finishes. */
  const OVERTAKEN_INDEXER: seq<Action> := TO_INDEXING + [Reclaim(1, 2, 1)] + Works(1, 4) + Works(1, 2) + Works(1, 1)
      + ([AskRetry(0, 1)] + Request(0, 2, 1, 2)) + Works(1, 4) + Works(0, 2)

  const INDEX_FAILED := Row(IndexJob, JobStatus.Failed, 2, Some(StateConflict))

  function Reclaimer(phase: Phase): Task { TaskOf(2, 1, true, IndexJob, phase) }

  function Retrier(phase: Phase): Task { TaskOf(2, 2, false, IndexJob, phase) }

  function Both(task: Task): map<nat, Task> { map[0 := Indexer(IndexWork), 1 := task] }

  lemma {:induction false} IndexReclaimed()
    ensures Leads(IndexScene(Indexing, Runs(IndexJob, 1), 1, map[0 := Indexer(IndexWork)]), [Reclaim(1, 2, 1)],
                  IndexScene(Indexing, Runs(IndexJob, 1), 2, Both(NewTask(2, 1, true))))
  {
    hide Leads;
    var s := IndexScene(Indexing, Runs(IndexJob, 1), 1, map[0 := Indexer(IndexWork)]);
    assert map[1 := 1 as WorkerId][1 := 2] == map[1 := 2];
    assert s.tasks[1 := NewTask(2, 1, true)] == Both(NewTask(2, 1, true));
    MoveLeads(s, Reclaim(1, 2, 1), IndexScene(Indexing, Runs(IndexJob, 1), 2, Both(NewTask(2, 1, true))));
  }

  lemma {:induction false} BothPut(t: Task, w: Task)
    ensures Both(t)[1 := w] == Both(w)
  {
  }

  lemma {:induction false} ReclaimerCollides()
    ensures Leads(IndexScene(Indexing, Runs(IndexJob, 1), 2, Both(NewTask(2, 1, true))), Works(1, 4),
                  IndexScene(Indexing, Runs(IndexJob, 2), 2, Both(Reclaimer(IndexFail(StateConflict)))))
  {
    hide Leads, Follows, Put;
    var file, row := FileRow(Indexing, "path"), Runs(IndexJob, 1);
    var w := View(Reclaimer(IndexFail(StateConflict)), file, Runs(IndexJob, 2));
    CollisionFollows(Reclaimer(IndexStart), file, Runs(IndexJob, 2));
    PickAndGo(IndexScene(Indexing, row, 2, Both(NewTask(2, 1, true))), 1, 2, 1, true, file, row, w);
    PutIndexScene(Indexing, row, 2, Both(NewTask(2, 1, true)), 1, w);
    BothPut(NewTask(2, 1, true), w.task);
  }

  lemma {:induction false} ReclaimerFails()
    ensures Leads(IndexScene(Indexing, Runs(IndexJob, 2), 2, Both(Reclaimer(IndexFail(StateConflict)))), Works(1, 2),
                  IndexScene(IndexFailed, INDEX_FAILED, 2, Both(Reclaimer(Acking))))
  {
    hide Leads, Follows, Put;
    var file, row, t := FileRow(Indexing, "path"), Runs(IndexJob, 2), Reclaimer(IndexFail(StateConflict));
    var w := View(Reclaimer(Acking), FileRow(IndexFailed, "path"), INDEX_FAILED);
    IndexFailFollows(t, file, row);
    CloseFollows(Reclaimer(Failing(StateConflict)), w.file, row);
    TwoWorksLead(IndexScene(Indexing, row, 2, Both(t)), 1, View(t, file, row),
                 View(Reclaimer(Failing(StateConflict)), w.file, row), w);
    PutIndexScene(Indexing, row, 2, Both(t), 1, w);
    BothPut(t, w.task);
  }

  function FailedScene(): State {
    Scene(FileRow(IndexFailed, "path"), map[0 := PARSE_DONE, 1 := INDEX_FAILED], Stream([0, 1], 2, map[]),
          map[0 := Indexer(IndexWork)])
  }

  lemma {:induction false} ReclaimerAcks()
    ensures Leads(IndexScene(IndexFailed, INDEX_FAILED, 2, Both(Reclaimer(Acking))), Works(1, 1), FailedScene())
  {
    hide Leads;
    AckLeads(IndexScene(IndexFailed, INDEX_FAILED, 2, Both(Reclaimer(Acking))), 1);
    assert map[1 := 2 as WorkerId] - {1} == map[] && Both(Reclaimer(Acking)) - {1} == map[0 := Indexer(IndexWork)];
  }

  /** The file with its three jobs, the last of them the retried one. */
  function RetryScene(status: FileStatus, row: JobRow, tasks: map<nat, Task>): State {
    Scene(FileRow(status, "path"), map[0 := PARSE_DONE, 1 := INDEX_FAILED, 2 := row], Stream([0, 1, 2], 3, map[2 := 2]),
          tasks)
  }

  function RetryAsked(): State { FailedScene().(clients := map[0 := Creating(KEY, IndexJob, {IndexFailed}, 1, false)]) }

  lemma {:induction false} RetryRequested()
    ensures Leads(FailedScene(), [AskRetry(0, 1)] + Request(0, 2, 1, 2),
                  RetryScene(IndexQueued, NewRow(IndexJob), Both(NewTask(2, 2, false))))
  {
    hide Leads, HasActive;
    var s := RetryAsked();
    MoveLeads(FailedScene(), AskRetry(0, 1), s);
    NoIndexJobLeft();
    RequestLeads(s, 0, 2, IndexJob, 1, 2);
    var u := Consumed(Published(Created(s, 0, 2, IndexJob), 0, 2), 1, 2);
    LeadsAppend(FailedScene(), [AskRetry(0, 1)], s, Request(0, 2, 1, 2), u);
    RetryRequestedState();
  }

  lemma {:induction false} NoIndexJobLeft()
    ensures !HasActive(RetryAsked().db.jobs, KEY, IndexJob)
  {
  }

  lemma {:induction false} RetryRequestedState()
    ensures Consumed(Published(Created(RetryAsked(), 0, 2, IndexJob), 0, 2), 1, 2)
         == RetryScene(IndexQueued, NewRow(IndexJob), Both(NewTask(2, 2, false)))
  {
    var s := RetryAsked();
    assert s.db.files[KEY := FileRow(IndexQueued, "path")] == map[KEY := FileRow(IndexQueued, "path")];
    assert s.db.jobs[2 := NewRow(IndexJob)] == map[0 := PARSE_DONE, 1 := INDEX_FAILED, 2 := NewRow(IndexJob)];
    assert s.clients[0 := Publishing(2)] - {0} == map[];
    assert {0, 1} + {2} == map[0 := PARSE_DONE, 1 := INDEX_FAILED, 2 := NewRow(IndexJob)].Keys;
    assert s.tasks[1 := NewTask(2, 2, false)] == Both(NewTask(2, 2, false));
  }

  lemma {:induction false} RetrierStarts()
    ensures Leads(RetryScene(IndexQueued, NewRow(IndexJob), Both(NewTask(2, 2, false))), Works(1, 4),
                  RetryScene(Indexing, Runs(IndexJob, 2), Both(Retrier(IndexWork))))
  {
    hide Leads, Follows, Put;
    var queued, row := FileRow(IndexQueued, "path"), NewRow(IndexJob);
    var w := View(Retrier(IndexWork), FileRow(Indexing, "path"), Runs(IndexJob, 2));
    StartFollows(Retrier(IndexStart), queued, Runs(IndexJob, 2));
    PickAndGo(RetryScene(IndexQueued, row, Both(NewTask(2, 2, false))), 1, 2, 2, false, queued, row, w);
    PutScene(queued, map[0 := PARSE_DONE, 1 := INDEX_FAILED, 2 := row], Stream([0, 1, 2], 3, map[2 := 2]),
             Both(NewTask(2, 2, false)), 1, w);
    assert map[0 := PARSE_DONE, 1 := INDEX_FAILED, 2 := row][2 := w.row] == map[0 := PARSE_DONE, 1 := INDEX_FAILED,
        2 := w.row];
    BothPut(NewTask(2, 2, false), w.task);
  }

  function Overtaken(): State {
    RetryScene(Indexed, Runs(IndexJob, 2), map[0 := Indexer(Succeeding), 1 := Retrier(IndexWork)])
  }

  lemma {:induction false} SlowIndexerEnds()
    ensures Leads(RetryScene(Indexing, Runs(IndexJob, 2), Both(Retrier(IndexWork))), Works(0, 2), Overtaken())
  {
    hide Leads, Follows, Put;
    var file, jobs := FileRow(Indexing, "path"), map[0 := PARSE_DONE, 1 := INDEX_FAILED, 2 := Runs(IndexJob, 2)];
    var w := View(Indexer(Succeeding), FileRow(Indexed, "path"), INDEX_FAILED);
    WorkFollows(Indexer(IndexWork), file, INDEX_FAILED);
    EndFollows(Indexer(IndexEnd), file, INDEX_FAILED);
    TwoWorksLead(RetryScene(Indexing, Runs(IndexJob, 2), Both(Retrier(IndexWork))), 0,
                 View(Indexer(IndexWork), file, INDEX_FAILED),
                 View(Indexer(IndexEnd), file, INDEX_FAILED), w);
    PutScene(file, jobs, Stream([0, 1, 2], 3, map[2 := 2]), Both(Retrier(IndexWork)), 0, w);
    assert jobs[1 := w.row] == jobs;
    assert Both(Retrier(IndexWork))[0 := w.task] == Overtaken().tasks;
  }

  lemma {:induction false} ToIndexFailed()
    ensures Leads(INIT, TO_INDEXING + [Reclaim(1, 2, 1)] + Works(1, 4) + Works(1, 2) + Works(1, 1), FailedScene())
  {
    hide Leads, Works, IndexScene, FailedScene, Both, Reclaimer;
    var p := TO_INDEXING + [Reclaim(1, 2, 1)];
    ToIndexing();
    IndexReclaimed();
    LeadsAppend(INIT, TO_INDEXING, IndexScene(Indexing, Runs(IndexJob, 1), 1, map[0 := Indexer(IndexWork)]),
                [Reclaim(1, 2, 1)],
                IndexScene(Indexing, Runs(IndexJob, 1), 2, Both(NewTask(2, 1, true))));
    ReclaimerCollides();
    LeadsAppend(INIT, p, IndexScene(Indexing, Runs(IndexJob, 1), 2, Both(NewTask(2, 1, true))), Works(1, 4),
                IndexScene(Indexing, Runs(IndexJob, 2), 2, Both(Reclaimer(IndexFail(StateConflict)))));
    ReclaimerFails();
    LeadsAppend(INIT, p + Works(1, 4),
                IndexScene(Indexing, Runs(IndexJob, 2), 2, Both(Reclaimer(IndexFail(StateConflict)))), Works(1, 2),
                IndexScene(IndexFailed, INDEX_FAILED, 2, Both(Reclaimer(Acking))));
    ReclaimerAcks();
    LeadsAppend(INIT, p + Works(1, 4) + Works(1, 2), IndexScene(IndexFailed, INDEX_FAILED, 2, Both(Reclaimer(Acking))),
                Works(1, 1), FailedScene());
  }

  lemma {:induction false} OvertakenLeads()
    ensures Leads(INIT, OVERTAKEN_INDEXER, Overtaken())
  {
    hide Leads, Works, Request, FailedScene, RetryScene, Overtaken, Both;
    var p := TO_INDEXING + [Reclaim(1, 2, 1)] + Works(1, 4) + Works(1, 2) + Works(1, 1);
    var ask := [AskRetry(0, 1)] + Request(0, 2, 1, 2);
    ToIndexFailed();
    RetryRequested();
    LeadsAppend(INIT, p, FailedScene(), ask, RetryScene(IndexQueued, NewRow(IndexJob), Both(NewTask(2, 2, false))));
    RetrierStarts();
    LeadsAppend(INIT, p + ask, RetryScene(IndexQueued, NewRow(IndexJob), Both(NewTask(2, 2, false))), Works(1, 4),
                RetryScene(Indexing, Runs(IndexJob, 2), Both(Retrier(IndexWork))));
    SlowIndexerEnds();
    LeadsAppend(INIT, p + ask + Works(1, 4), RetryScene(Indexing, Runs(IndexJob, 2), Both(Retrier(IndexWork))),
                Works(0, 2), Overtaken());
  }

  lemma {:induction false} OvertakenIsSmooth()
    ensures SmoothRun(OVERTAKEN_INDEXER)
  {
    hide SmoothRun, Works, Request;
    var p := TO_INDEXING + [Reclaim(1, 2, 1)];
    var ask := [AskRetry(0, 1)] + Request(0, 2, 1, 2);
    ToIndexingIsSmooth();
    ReclaimIsSmooth();
    SmoothAppend(TO_INDEXING, [Reclaim(1, 2, 1)]);
    WorksAreSmooth(1, 4);
    SmoothAppend(p, Works(1, 4));
    WorksAreSmooth(1, 2);
    SmoothAppend(p + Works(1, 4), Works(1, 2));
    WorksAreSmooth(1, 1);
    SmoothAppend(p + Works(1, 4) + Works(1, 2), Works(1, 1));
    var q := p + Works(1, 4) + Works(1, 2) + Works(1, 1);
    RequestIsSmooth(AskRetry(0, 1), 0, 2, 1, 2);
    SmoothAppend(q, ask);
    SmoothAppend(q + ask, Works(1, 4));
    WorksAreSmooth(0, 2);
    SmoothAppend(q + ask + Works(1, 4), Works(0, 2));
  }

  lemma {:induction false} ReclaimIsSmooth()
    ensures SmoothRun([Reclaim(1, 2, 1)])
  {
  }

  /** No process stops and no call fails, and still a job ends up that nobody can finish: the retried job, whose file
      was moved to indexed by the slow worker of the job that had been failed. */
  lemma {:induction false} OvertakenIndexerBlocks()
    ensures Run(INIT, OVERTAKEN_INDEXER) && SmoothRun(OVERTAKEN_INDEXER)
    ensures Blocked(After(INIT, OVERTAKEN_INDEXER), KEY, 2)
        && After(INIT, OVERTAKEN_INDEXER).db.files[KEY].status.Indexed?
  {
    hide Run, After, Works, Request, SmoothRun;
    OvertakenLeads();
    OvertakenIsSmooth();
  }
}
