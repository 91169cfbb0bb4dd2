/** The document worker and the services that feed it, as imperative code over shared tables. Between any two repository
    calls every other process may act; each call is shown to be one step of the protocol, so that whatever is proved of
    runs of the protocol holds of this code. */
module DocumentProcessing {
  import opened Optional
  import opened Protocol
  import opened ProtocolSafety

  // Shared state ------------------------------------------------------------------------------

  class FileRepository {
    var files: Files

    constructor ()
      ensures files == map[]
    {
      files := map[];
    }

    method Find(key: FileKey) returns (row: Option<FileRow>)
      ensures row == if key in files then Some(files[key]) else None
    {
      row := if key in files then Some(files[key]) else None;
    }

    method Create(key: FileKey)
      modifies this
      ensures files == old(files)[key := FileRow(Uploaded, "")]
    {
      files := files[key := FileRow(Uploaded, "")];
    }

    method TransitionStatus(key: FileKey, from: set<FileStatus>, to: FileStatus, markdown: Option<string>)
        returns (ok: bool)
      modifies this
      ensures files == Transition(old(files), key, from, to, markdown)
      ensures ok == CanTransition(old(files), key, from)
      ensures ok <==> key in old(files) && old(files)[key].status in from
      ensures files == if !ok then old(files)
                       else old(files)[key := FileRow(to,
                                                      if markdown.Some? then markdown.value
                                                          else old(files)[key].markdown)]
    {
      ok := key in files && files[key].status in from;
      if ok {
        files := files[key := FileRow(to, if markdown.Some? then markdown.value else files[key].markdown)];
      }
    }

    method Delete(key: FileKey)
      modifies this
      ensures files == old(files) - {key}
    {
      files := files - {key};
    }
  }

  class JobRepository {
    const fileRepo: FileRepository
    var jobs: Jobs

    constructor (fileRepo: FileRepository)
      ensures this.fileRepo == fileRepo && jobs == map[]
    {
      this.fileRepo := fileRepo;
      jobs := map[];
    }

    method FindByJobID(id: JobId) returns (row: Option<JobRow>)
      ensures row == if id in jobs then Some(jobs[id]) else None
    {
      row := if id in jobs then Some(jobs[id]) else None;
    }

    /** The update of claimByJobID. */
    method ClaimUpdate(id: JobId, worker: WorkerId, statuses: set<JobStatus>, incrementAttempt: bool)
      modifies this
      ensures jobs == if id in old(jobs) && old(jobs)[id].status in statuses
                      then old(jobs)[id := old(jobs)[id].(status := Running, worker := Some(worker),
                                                          attempt := old(jobs)[id].attempt + if incrementAttempt then 1
                                                              else 0)]
                      else old(jobs)
    {
      if id in jobs && jobs[id].status in statuses {
        var row := jobs[id];
        jobs := jobs[id := row.(status := Running, worker := Some(worker),
                                attempt := row.attempt + if incrementAttempt then 1 else 0)];
      }
    }

    method MarkSucceeded(id: JobId)
      modifies this
      ensures jobs == Protocol.MarkSucceeded(old(jobs), id)
      ensures jobs == if id in old(jobs) then old(jobs)[id := old(jobs)[id].(status := JobStatus.Succeeded)]
          else old(jobs)
    {
      if id in jobs {
        jobs := jobs[id := jobs[id].(status := Succeeded)];
      }
    }

    method MarkFailed(id: JobId, code: ErrorCode)
      modifies this
      ensures jobs == Protocol.MarkFailed(old(jobs), id, code)
      ensures jobs == if id !in old(jobs) then old(jobs)
                      else old(jobs)[id := old(jobs)[id].(status := JobStatus.Failed, error := Some(code))]
    {
      if id in jobs {
        jobs := jobs[id := jobs[id].(status := Failed, error := Some(code))];
      }
    }

    method CreateForFileTransition(id: JobId, key: FileKey, jobType: JobType, maxAttempts: nat,
        from: set<FileStatus>) returns (created: bool)
      modifies this, fileRepo
      ensures Tables(fileRepo.files, jobs) == CreateForTransition(Tables(old(fileRepo.files), old(jobs)), id, key,
                                                                  jobType, maxAttempts, from)
      ensures created == CanCreate(Tables(old(fileRepo.files), old(jobs)), key, jobType, from)
      ensures created <==>
                && key in old(fileRepo.files) && old(fileRepo.files)[key].status in from
                && forall i :: i in old(jobs) && old(jobs)[i].key == key && old(jobs)[i].jobType == jobType ==>
                                 old(jobs)[i].status !in {JobStatus.Pending, Running}
      ensures created ==>
                && jobs == old(jobs)[id := JobRow(key, jobType, Pending, 0, maxAttempts, None, None)]
                && fileRepo.files[key].status == (if jobType.ParseJob? then ParseQueued else IndexQueued)
    {
      if HasActive(jobs, key, jobType) {
        return false;
      }
      var moved := fileRepo.TransitionStatus(key, from, Queued(jobType), None);
      if !moved {
        return false;
      }
      jobs := jobs[id := JobRow(key, jobType, Pending, 0, maxAttempts, None, None)];
      return true;
    }

    method CancelPendingByFile(key: FileKey)
      modifies this
      ensures jobs == CancelPending(old(jobs), key)
      ensures jobs.Keys == old(jobs).Keys
      ensures forall id :: id in jobs ==>
                jobs[id] == if old(jobs)[id].key == key && old(jobs)[id].status.Pending?
                            then old(jobs)[id].(status := JobStatus.Cancelled) else old(jobs)[id]
    {
      jobs := map id | id in jobs :: if jobs[id].key == key && jobs[id].status.Pending?
          then jobs[id].(status := Cancelled) else jobs[id];
    }
  }

  class DocumentStream {
    var stream: Stream

    constructor ()
      ensures stream == Stream([], 0, map[])
    {
      stream := Stream([], 0, map[]);
    }

    method Append(id: JobId)
      modifies this
      ensures stream == old(stream).(entries := old(stream).entries + [id])
    {
      stream := stream.(entries := stream.entries + [id]);
    }

    method Deliver(worker: WorkerId) returns (entry: nat)
      requires stream.cursor < |stream.entries|
      modifies this
      ensures entry == old(stream).cursor
      ensures stream == old(stream).(cursor := entry + 1, pending := old(stream).pending[entry := worker])
    {
      entry := stream.cursor;
      stream := stream.(cursor := entry + 1, pending := stream.pending[entry := worker]);
    }

    method Claim(entry: nat, worker: WorkerId)
      modifies this
      ensures stream == old(stream).(pending := old(stream).pending[entry := worker])
    {
      stream := stream.(pending := stream.pending[entry := worker]);
    }

    method Ack(entry: nat)
      modifies this
      ensures stream == old(stream).(pending := old(stream).pending - {entry})
    {
      stream := stream.(pending := stream.pending - {entry});
    }
  }

  // The rest of the world -------------------------------------------------------------------------

  /** An answer of the database, the stream or an external service: it works, or the call fails. */
  datatype Answer = Works(name: string) | Fails

  /** What nobody controls: how calls end, and what the other processes do between two calls. Both are arbitrary. */
  class World {
    const answers: nat -> Answer
    const others: nat -> seq<Action>
    var clock: nat
    // how many database and stream calls have failed
    ghost var refused: nat

    constructor (answers: nat -> Answer, others: nat -> seq<Action>)
      ensures clock == 0 && refused == 0
    {
      this.answers := answers;
      this.others := others;
      clock := 0;
      refused := 0;
    }

    /** An answer of an external service. */
    method Ask() returns (a: Answer)
      modifies this
      ensures refused == old(refused) && clock == old(clock) + 1 && a == answers(clock)
    {
      clock := clock + 1;
      a := answers(clock);
    }

    /** An answer of the database or the stream. */
    method Call() returns (a: Answer)
      modifies this
      ensures refused == old(refused) + if a.Fails? then 1 else 0
    {
      a := Ask();
      if a.Fails? {
        refused := refused + 1;
      }
    }

    method Others() returns (acts: seq<Action>)
      modifies this
      ensures refused == old(refused)
    {
      clock := clock + 1;
      acts := others(clock);
    }
  }

  /** The process that takes an action. */
  datatype Process = Handling(task: nat) | Calling(client: nat)

  function Actor(a: Action): Process {
    match a
    case Consume(t, _) => Handling(t)
    case Reclaim(t, _, _) => Handling(t)
    case Work(t, _) => Handling(t)
    case Abandon(t) => Handling(t)
    case _ => Calling(a.client)
  }

  /** The actions that one process has taken. */
  function Own(trace: seq<Action>, me: Process): seq<Action> {
    if trace == [] then []
    else
      var n := |trace| - 1;
      Own(trace[..n], me) + if Actor(trace[n]) == me then [trace[n]] else []
  }

  lemma {:induction false} OwnSnoc(trace: seq<Action>, a: Action, me: Process)
    ensures Own(trace + [a], me) == if Actor(a) == me then Own(trace, me) + [a] else Own(trace, me)
  {
    assert (trace + [a])[..|trace|] == trace;
  }

  lemma {:induction false} OwnPrefix(first: seq<Action>, second: seq<Action>, me: Process)
    requires first <= second
    ensures Own(first, me) <= Own(second, me)
    decreases |second|
  {
    if first != second {
      OwnPrefix(first, second[..|second| - 1], me);
    }
  }

  /** What a process knows is its own. */
  predicate SameFor(s: State, u: State, me: Process) {
    match me
    case Handling(t) => (t in s.tasks <==> t in u.tasks) && (t in s.tasks ==> s.tasks[t] == u.tasks[t])
    case Calling(c) => (c in s.clients <==> c in u.clients) && (c in s.clients ==> s.clients[c] == u.clients[c])
  }

  lemma {:induction false} OthersLeaveMe(s: State, a: Action, me: Process)
    requires Enabled(s, a) && Actor(a) != me
    ensures SameFor(s, Apply(s, a), me)
  {
    hide Transition, HasActive, FilesAfter, CanTransition, JobsAfter, Claim, CancelPending, NextOf;
  }

  /** The stream is only appended to, published jobs stay published, and jobs keep their identity. */
  ghost predicate Grows(s: State, u: State) {
    s.stream.entries <= u.stream.entries && s.published <= u.published && JobsEvolve(s.db.jobs, u.db.jobs)
  }

  lemma {:induction false} GrowsNowhere(s: State)
    ensures Grows(s, s)
  {
  }

  lemma {:induction false} GrowsOn(s: State, u: State, a: Action)
    requires Grows(s, u) && Enabled(u, a)
    ensures Grows(s, Apply(u, a))
  {
    hide Enabled, Apply, Active;
    StepEvolves(u, a);
  }

  lemma {:induction false} TraceGrows(start: State, first: seq<Action>, s: State, second: seq<Action>, u: State)
    requires Leads(start, first, s) && Leads(start, second, u) && first <= second
    ensures Grows(s, u)
    decreases |second|
  {
    hide Enabled, Apply, Grows;
    if first != [] {
      TraceGrows(Apply(start, first[0]), first[1..], s, second[1..], u);
    } else if second == [] {
      GrowsNowhere(s);
    } else {
      StepGrows(s, second[0]);
      TraceGrows(Apply(s, second[0]), [], Apply(s, second[0]), second[1..], u);
      GrowsTransitive(s, Apply(s, second[0]), u);
    }
  }

  lemma {:induction false} StepGrows(s: State, a: Action)
    requires Enabled(s, a)
    ensures Grows(s, Apply(s, a))
  {
    hide Enabled, Apply;
    StepEvolves(s, a);
  }

  lemma {:induction false} GrowsTransitive(s: State, u: State, v: State)
    requires Grows(s, u) && Grows(u, v)
    ensures Grows(s, v)
  {
    hide Active;
  }

  class Cluster {
    const files: FileRepository
    const jobs: JobRepository
    const queue: DocumentStream
    const world: World

    // Where every process stands, and how the cluster got here.
    var tasks: map<nat, Task>
    var clients: map<nat, Client>
    var known: set<FileKey>
    var published: set<JobId>
    ghost var trace: seq<Action>

    constructor (world: World)
      ensures Valid() && trace == [] && Now() == INIT && this.world == world
    {
      var fileRepo := new FileRepository();
      files := fileRepo;
      jobs := new JobRepository(fileRepo);
      queue := new DocumentStream();
      this.world := world;
      tasks, clients, known, published, trace := map[], map[], {}, {}, [];
    }

    function Now(): State
      reads this, files, jobs, queue
    {
      State(Tables(files.files, jobs.jobs), queue.stream, tasks, clients, known, published)
    }

    /** The cluster has come by a run of the protocol to the state s. */
    ghost predicate At(s: State)
      reads this
    {
      jobs.fileRepo == files && Leads(INIT, trace, s)
    }

    ghost predicate Valid()
      reads this, files, jobs, queue
    {
      At(Now())
    }

    /** What a process may rely on: the cluster went on by a run of the protocol, and this task was given up only if a
        database or stream call failed. */
    twostate predicate Served(tid: nat)
      reads this, files, jobs, queue, world
    {
      && Valid() && old(trace) <= trace && old(world.refused) <= world.refused
      && forall i :: |old(trace)| <= i < |trace| && trace[i] == Abandon(tid) ==> old(world.refused) < world.refused
    }

    /** Records that the change just made to the tables and the stream was the action a. */
    method Commit(a: Action, before: State)
      requires At(before) && Enabled(before, a)
      requires before.tasks == tasks && before.clients == clients && before.known == known
          && before.published == published
      requires Now().db == Apply(before, a).db && Now().stream == Apply(before, a).stream
      modifies this
      ensures Valid() && Now() == Apply(before, a) && trace == old(trace) + [a]
      ensures Own(trace, Actor(a)) == Own(old(trace), Actor(a)) + [a]
    {
      hide Enabled, Apply, Leads, Own;
      LeadsOn(INIT, trace, before, a);
      OwnSnoc(trace, a, Actor(a));
      var u := Apply(before, a);
      tasks, clients, known, published := u.tasks, u.clients, u.known, u.published;
      trace := trace + [a];
    }

    method Enact(a: Action)
      requires Valid() && Enabled(Now(), a)
      modifies this, files, jobs, queue
      ensures Valid() && Now() == Apply(old(Now()), a) && trace == old(trace) + [a]
    {
      hide Enabled, Apply, Leads;
      LeadsOn(INIT, trace, Now(), a);
      var u := Apply(Now(), a);
      files.files := u.db.files;
      jobs.jobs := u.db.jobs;
      queue.stream := u.stream;
      tasks, clients, known, published := u.tasks, u.clients, u.known, u.published;
      trace := trace + [a];
    }

    /** The other processes act: any finite number of enabled actions of theirs. */
    method Interfere(me: Process)
      requires Valid()
      modifies this, files, jobs, queue, world
      ensures Valid() && old(trace) <= trace && SameFor(old(Now()), Now(), me) && Grows(old(Now()), Now())
      ensures world.refused == old(world.refused) && forall i :: |old(trace)| <= i < |trace| ==> Actor(trace[i]) != me
      ensures Own(trace, me) == Own(old(trace), me)
    {
      hide Enabled, Apply, Leads, Grows, Own;
      GrowsNowhere(Now());
      var acts := world.Others();
      for i := 0 to |acts|
        invariant Valid() && old(trace) <= trace && SameFor(old(Now()), Now(), me) && Grows(old(Now()), Now())
        invariant Own(trace, me) == Own(old(trace), me)
        invariant world.refused == old(world.refused) && forall i :: |old(trace)| <= i < |trace| ==>
            Actor(trace[i]) != me
      {
        if Actor(acts[i]) != me && Enabled(Now(), acts[i]) {
          OthersLeaveMe(Now(), acts[i], me);
          GrowsOn(old(Now()), Now(), acts[i]);
          OwnSnoc(trace, acts[i], me);
          Enact(acts[i]);
        }
      }
    }
  }

  /** However the code below and the other processes have brought the cluster here, at most one job per file and type is
      active, and no published job that is still active has lost its message. */
  lemma {:induction false} ClusterIsSafe(c: Cluster, id: JobId)
    requires c.Valid()
    ensures OneActive(c.jobs.jobs)
    ensures id in c.published && id in c.jobs.jobs && Active(c.jobs.jobs[id]) ==>
              exists e :: 0 <= e < |c.queue.stream.entries| && c.queue.stream.entries[e] == id
                          && (c.queue.stream.cursor <= e || e in c.queue.stream.pending)
  {
    hide Run, After, Active;
    ReachableIsSound(c.trace);
    if id in c.published && id in c.jobs.jobs && Active(c.jobs.jobs[id]) {
      NoJobIsLost(c.trace, id);
    }
  }

  // The worker ----------------------------------------------------------------------------------

  /** Task tid handles an entry of job id and stands at t. */
  predicate On(s: State, tid: nat, id: JobId, t: Task) {
    tid in s.tasks && s.tasks[tid] == t && t.entry < |s.stream.entries| && s.stream.entries[t.entry] == id
  }

  const DONE := Good("done")

  lemma {:induction false} StepOf(s: State, tid: nat, id: JobId, t: Task, r: Protocol.World)
    requires On(s, tid, id, t) && Enabled(s, Work(tid, r))
    ensures var u := Apply(s, Work(tid, r));
            var next := NextOf(s.db, id, t, r);
            && u.db == Tables(if t.job.Some? then FilesAfter(s.db.files, t, r) else s.db.files,
                              JobsAfter(s.db.jobs, id, t))
            && u.stream == (if next.Acks? then s.stream.(pending := s.stream.pending - {t.entry}) else s.stream)
            && (next.Goes? ==> On(u, tid, id, next.task))
            && (!next.Goes? ==> tid !in u.tasks)
  {
    hide FilesAfter, JobsAfter, CanTransition, Active;
  }

  /** The results an external call can have at a phase. */
  predicate Answers(p: Phase, r: Protocol.World) {
    && (p.ParseWork? ==> if r.Good? then r.text != "" else r.code in {StorageReadFailed, ParserFailed,
                                                                      StorageWriteFailed})
    && (p.IndexStart? && r.Bad? ==> r.code.EmbeddingNotConfigured?)
    && (p.IndexWork? && r.Bad? ==> r.code in {StorageReadFailed, RagIndexFailed})
  }

  lemma {:induction false} MayStep(s: State, tid: nat, id: JobId, t: Task, r: Protocol.World)
    requires On(s, tid, id, t) && Answers(t.phase, r)
    ensures Enabled(s, Work(tid, r))
  {
  }

  lemma {:induction false} Consumes(s: State, tid: nat, worker: WorkerId)
    requires Enabled(s, Consume(tid, worker))
    ensures var u := Apply(s, Consume(tid, worker));
            && On(u, tid, s.stream.entries[s.stream.cursor], NewTask(worker, s.stream.cursor, false)) && u.db == s.db
            && u.stream == s.stream.(cursor := s.stream.cursor + 1,
                                     pending := s.stream.pending[s.stream.cursor := worker])
  {
  }

  lemma {:induction false} Reclaims(s: State, tid: nat, worker: WorkerId, entry: nat)
    requires Enabled(s, Reclaim(tid, worker, entry))
    ensures var u := Apply(s, Reclaim(tid, worker, entry));
            On(u, tid, s.stream.entries[entry], NewTask(worker, entry, true)) && u.db == s.db
                && u.stream == s.stream.(pending := s.stream.pending[entry := worker])
  {
  }

  /** A task that is ready to acknowledge has a finished job, whatever the others did. */
  lemma {:induction false} SettledIsFinished(s: State, trace: seq<Action>, tid: nat, id: JobId, t: Task)
    requires Leads(INIT, trace, s) && On(s, tid, id, t) && t.phase.Acking?
    ensures id in s.db.jobs && !Active(s.db.jobs[id])
  {
    hide Run, After, Active;
    ReachableIsSound(trace);
    assert TaskOk(s, s.tasks[tid]);
  }

  /** What the worker does about the row it has read. */
  function AfterReading(found: Option<JobRow>, t: Task): Next {
    if found.None? || found.value.status in {Succeeded, Failed, Cancelled} then Goes(t.(phase := Acking))
    else
      var row := found.value;
      if !row.status.Running? || row.worker != Some(t.worker) then Stops
      else if row.maxAttempts > 0 && row.attempt > row.maxAttempts
          then Goes(t.(job := found, phase := Failing(MaxAttemptsExceeded)))
      else Goes(t.(job := found, phase := Finding))
  }

  lemma {:induction false} ReadNext(db: Tables, id: JobId, t: Task)
    requires t.phase.Reading?
    ensures JobsAfter(db.jobs, id, t) == db.jobs
    ensures NextOf(db, id, t, DONE) == AfterReading(if id in db.jobs then Some(db.jobs[id]) else None, t)
  {
  }

  /** What reading, parsing and storing come to: the code of the first of the three calls that fails, or the stored
      path. */
  function ParseOutcome(answers: nat -> Answer, clock: nat): Protocol.World {
    if answers(clock + 1).Fails? then Bad(StorageReadFailed)
    else if answers(clock + 2).Fails? then Bad(ParserFailed)
    else if answers(clock + 3).Fails? then Bad(StorageWriteFailed)
    else Good("knowledge-internal/" + answers(clock + 3).name)
  }

  /** What reading and indexing come to. */
  function IndexOutcome(answers: nat -> Answer, clock: nat): Protocol.World {
    if answers(clock + 1).Fails? then Bad(StorageReadFailed)
    else if answers(clock + 2).Fails? then Bad(RagIndexFailed)
    else DONE
  }

  class DocumentWorker {
    const cluster: Cluster
    const indexerConfigured: bool

    constructor (cluster: Cluster, indexerConfigured: bool)
      ensures this.cluster == cluster && this.indexerConfigured == indexerConfigured
    {
      this.cluster := cluster;
      this.indexerConfigured := indexerConfigured;
    }

    /** This is the next action of the handling. */
    twostate predicate Next(tid: nat, a: Action)
      reads this, cluster
    {
      Own(old(cluster.trace), Handling(tid)) + [a] <= Own(cluster.trace, Handling(tid))
    }

    /** The row of the file, as it is now. */
    ghost predicate StandsAt(key: FileKey, status: FileStatus)
      reads this, cluster, cluster.files
    {
      key in cluster.files.files && cluster.files.files[key].status == status
    }

    /** Before a call: the others act, and the call itself may fail. */
    method Turn(tid: nat, ghost id: JobId, ghost t: Task) returns (answer: Answer)
      requires cluster.Valid() && On(cluster.Now(), tid, id, t)
      modifies cluster, cluster.files, cluster.jobs, cluster.queue, cluster.world
      ensures cluster.Served(tid) && On(cluster.Now(), tid, id, t) && (answer.Fails? ==>
          old(cluster.world.refused) < cluster.world.refused)
      ensures forall i :: |old(cluster.trace)| <= i < |cluster.trace| ==> cluster.trace[i] != Abandon(tid)
      ensures Own(cluster.trace, Handling(tid)) == Own(old(cluster.trace), Handling(tid))
    {
      hide Enabled, Apply, Leads, Own;
      cluster.Interfere(Handling(tid));
      answer := cluster.world.Call();
    }

    /** The handling ends without an acknowledgement. */
    method GiveUp(tid: nat)
      requires cluster.Valid() && tid in cluster.tasks
      modifies cluster
      ensures cluster.Valid() && cluster.trace == old(cluster.trace) + [Abandon(tid)] && tid !in cluster.tasks
    {
      hide Leads, Own;
      cluster.Commit(Abandon(tid), cluster.Now());
    }

    /** Records that the change just made was the task's next step. */
    method Record(tid: nat, ghost id: JobId, before: State, r: Protocol.World, ghost t: Task)
      requires cluster.At(before) && On(before, tid, id, t) && Answers(t.phase, r)
      requires before.tasks == cluster.tasks && before.clients == cluster.clients && before.known == cluster.known
          && before.published == cluster.published
      requires cluster.Now().db == Tables(if t.job.Some? then FilesAfter(before.db.files, t, r) else before.db.files,
                                          JobsAfter(before.db.jobs, id, t))
      requires cluster.Now().stream == if NextOf(before.db, id, t, r).Acks?
          then before.stream.(pending := before.stream.pending - {t.entry}) else before.stream
      modifies cluster
      ensures cluster.Valid() && cluster.trace == old(cluster.trace) + [Work(tid, r)]
      ensures Own(cluster.trace, Handling(tid)) == Own(old(cluster.trace), Handling(tid)) + [Work(tid, r)]
      ensures cluster.Now().db == old(cluster.Now()).db && cluster.Now().stream == old(cluster.Now()).stream
      ensures var next := NextOf(before.db, id, t, r); if next.Goes? then On(cluster.Now(), tid, id, next.task)
          else tid !in cluster.tasks
    {
      hide Leads, Enabled, Apply, NextOf, FilesAfter, JobsAfter, Own;
      MayStep(before, tid, id, t, r);
      StepOf(before, tid, id, t, r);
      cluster.Commit(Work(tid, r), before);
    }

    /** The task is ready to acknowledge. */
    ghost predicate Settled(tid: nat, id: JobId, entry: nat)
      reads this, cluster, cluster.files, cluster.jobs, cluster.queue
    {
      tid in cluster.tasks && cluster.tasks[tid].phase.Acking? && cluster.tasks[tid].entry == entry
          && On(cluster.Now(), tid, id, cluster.tasks[tid])
    }

    method FailJob(tid: nat, id: JobId, code: ErrorCode, ghost t: Task) returns (ack: bool, err: bool)
      requires cluster.Valid() && On(cluster.Now(), tid, id, t) && t.phase == Failing(code)
      modifies cluster, cluster.files, cluster.jobs, cluster.queue, cluster.world
      ensures cluster.Served(tid) && ack == !err
      ensures if ack then Settled(tid, id, t.entry) else tid !in cluster.tasks
    {
      hide Leads, Enabled, Apply, Own;
      var answer := Turn(tid, id, t);
      if answer.Fails? {
        GiveUp(tid);
        return false, true;
      }
      var before := cluster.Now();
      cluster.jobs.MarkFailed(id, code);
      Record(tid, id, before, DONE, t);
      return true, false;
    }

    /** The transition of a failing parse job; on a conflict the handling ends. */
    method MoveParseFailed(tid: nat, id: JobId, job: JobRow, ghost t: Task) returns (ok: bool, failed: bool)
      requires cluster.Valid() && On(cluster.Now(), tid, id, t) && t.phase.ParseFail? && t.job == Some(job)
      modifies cluster, cluster.files, cluster.jobs, cluster.queue, cluster.world
      ensures cluster.Served(tid)
      ensures if failed then old(cluster.world.refused) < cluster.world.refused else Next(tid, Work(tid, DONE))
      ensures if failed || !ok then tid !in cluster.tasks
          else On(cluster.Now(), tid, id, t.(phase := Failing(t.phase.code)))
      ensures !failed && ok ==> StandsAt(job.key, ParseFailed)
    {
      hide Leads, Enabled, Apply, Transition, CanTransition, Own;
      var answer := Turn(tid, id, t);
      if answer.Fails? {
        GiveUp(tid);
        return false, true;
      }
      var before := cluster.Now();
      ok := cluster.files.TransitionStatus(job.key, {ParseQueued, Parsing}, ParseFailed, None);
      Record(tid, id, before, DONE, t);
      failed := false;
    }

    method FailParseJob(tid: nat, id: JobId, job: JobRow, code: ErrorCode, ghost t: Task) returns (ack: bool, err: bool)
      requires cluster.Valid() && On(cluster.Now(), tid, id, t) && t.phase == ParseFail(code) && t.job == Some(job)
      modifies cluster, cluster.files, cluster.jobs, cluster.queue, cluster.world
      ensures cluster.Served(tid) && ack == !err
      ensures if ack then Settled(tid, id, t.entry) else tid !in cluster.tasks
    {
      hide Leads, Enabled, Apply, Own;
      var transitioned, failed := MoveParseFailed(tid, id, job, t);
      if failed || !transitioned {
        return false, true;
      }
      ack, err := FailJob(tid, id, code, t.(phase := Failing(code)));
    }

    /** The transition of a failing index job; on a conflict the handling ends. */
    method MoveIndexFailed(tid: nat, id: JobId, job: JobRow, ghost t: Task) returns (ok: bool, failed: bool)
      requires cluster.Valid() && On(cluster.Now(), tid, id, t) && t.phase.IndexFail? && t.job == Some(job)
      modifies cluster, cluster.files, cluster.jobs, cluster.queue, cluster.world
      ensures cluster.Served(tid)
      ensures if failed then old(cluster.world.refused) < cluster.world.refused else Next(tid, Work(tid, DONE))
      ensures if failed || !ok then tid !in cluster.tasks
          else On(cluster.Now(), tid, id, t.(phase := Failing(t.phase.code)))
      ensures !failed && ok ==> StandsAt(job.key, IndexFailed)
    {
      hide Leads, Enabled, Apply, Transition, CanTransition, Own;
      var answer := Turn(tid, id, t);
      if answer.Fails? {
        GiveUp(tid);
        return false, true;
      }
      var before := cluster.Now();
      ok := cluster.files.TransitionStatus(job.key, {IndexQueued, Indexing}, IndexFailed, None);
      Record(tid, id, before, DONE, t);
      failed := false;
    }

    method FailIndexJob(tid: nat, id: JobId, job: JobRow, code: ErrorCode, ghost t: Task) returns (ack: bool, err: bool)
      requires cluster.Valid() && On(cluster.Now(), tid, id, t) && t.phase == IndexFail(code) && t.job == Some(job)
      modifies cluster, cluster.files, cluster.jobs, cluster.queue, cluster.world
      ensures cluster.Served(tid) && ack == !err
      ensures if ack then Settled(tid, id, t.entry) else tid !in cluster.tasks
    {
      hide Leads, Enabled, Apply, Own;
      var transitioned, failed := MoveIndexFailed(tid, id, job, t);
      if failed || !transitioned {
        return false, true;
      }
      ack, err := FailJob(tid, id, code, t.(phase := Failing(code)));
    }

    /** The last call of both kinds of job. */
    method Succeed(tid: nat, id: JobId, ghost t: Task) returns (ack: bool, err: bool)
      requires cluster.Valid() && On(cluster.Now(), tid, id, t) && t.phase.Succeeding?
      modifies cluster, cluster.files, cluster.jobs, cluster.queue, cluster.world
      ensures cluster.Served(tid) && ack == !err
      ensures if ack then Settled(tid, id, t.entry) else tid !in cluster.tasks
    {
      hide Leads, Enabled, Apply, Own;
      var answer := Turn(tid, id, t);
      if answer.Fails? {
        GiveUp(tid);
        return false, true;
      }
      var before := cluster.Now();
      cluster.jobs.MarkSucceeded(id);
      Record(tid, id, before, DONE, t);
      return true, false;
    }

    /** Reading, parsing and uploading: the path of the Markdown object, or the code of the first call that fails. */
    method ParseAndStore(key: FileKey) returns (result: Protocol.World)
      modifies cluster.world
      ensures cluster.world.refused == old(cluster.world.refused) && Answers(ParseWork, result)
      ensures result == ParseOutcome(cluster.world.answers, old(cluster.world.clock))
      ensures var answers, now := cluster.world.answers, old(cluster.world.clock);
              && (result == Bad(StorageReadFailed) <==> answers(now + 1).Fails?)
              && (result == Bad(ParserFailed) <==> answers(now + 1).Works? && answers(now + 2).Fails?)
              && (result == Bad(StorageWriteFailed) <==>
                    answers(now + 1).Works? && answers(now + 2).Works? && answers(now + 3).Fails?)
              && (result.Good? ==> result.text == "knowledge-internal/" + answers(now + 3).name)
    {
      var content := cluster.world.Ask();
      if content.Fails? {
        return Bad(StorageReadFailed);
      }
      var markdown := cluster.world.Ask();
      if markdown.Fails? {
        return Bad(ParserFailed);
      }
      var stored := cluster.world.Ask();
      if stored.Fails? {
        return Bad(StorageWriteFailed);
      }
      return Good("knowledge-internal/" + stored.name);
    }

    method ReadAndIndex(markdown: string) returns (result: Protocol.World)
      modifies cluster.world
      ensures cluster.world.refused == old(cluster.world.refused) && Answers(IndexWork, result)
      ensures result == IndexOutcome(cluster.world.answers, old(cluster.world.clock))
      ensures var answers, now := cluster.world.answers, old(cluster.world.clock);
              && (result == Bad(StorageReadFailed) <==> answers(now + 1).Fails?)
              && (result == Bad(RagIndexFailed) <==> answers(now + 1).Works? && answers(now + 2).Fails?)
              && (result.Good? <==> answers(now + 1).Works? && answers(now + 2).Works?)
    {
      var content := cluster.world.Ask();
      if content.Fails? {
        return Bad(StorageReadFailed);
      }
      var indexed := cluster.world.Ask();
      if indexed.Fails? {
        return Bad(RagIndexFailed);
      }
      return DONE;
    }

    /** The first transition of a parse job. */
    method StartParsing(tid: nat, id: JobId, job: JobRow, ghost t: Task) returns (ok: bool, failed: bool)
      requires cluster.Valid() && On(cluster.Now(), tid, id, t) && t.phase.ParseStart? && t.job == Some(job)
      modifies cluster, cluster.files, cluster.jobs, cluster.queue, cluster.world
      ensures cluster.Served(tid)
      ensures if failed then old(cluster.world.refused) < cluster.world.refused else Next(tid, Work(tid, DONE))
      ensures if failed then tid !in cluster.tasks
          else On(cluster.Now(), tid, id, t.(phase := if ok then ParseWork else Failing(StateConflict)))
      ensures !failed && ok ==> StandsAt(job.key, Parsing)
    {
      hide Leads, Enabled, Apply, Transition, CanTransition, Own;
      var answer := Turn(tid, id, t);
      if answer.Fails? {
        GiveUp(tid);
        return false, true;
      }
      var before := cluster.Now();
      ok := cluster.files.TransitionStatus(job.key, {ParseQueued}, Parsing, None);
      Record(tid, id, before, DONE, t);
      failed := false;
    }

    method ProcessParseJob(tid: nat, id: JobId, job: JobRow, ghost t: Task) returns (ack: bool, err: bool)
      requires cluster.Valid() && On(cluster.Now(), tid, id, t) && t.phase.ParseStart? && t.job == Some(job)
      modifies cluster, cluster.files, cluster.jobs, cluster.queue, cluster.world
      ensures cluster.Served(tid) && ack == !err
      ensures Next(tid, Work(tid, DONE)) || old(cluster.world.refused) < cluster.world.refused
      ensures if ack then Settled(tid, id, t.entry) else tid !in cluster.tasks
    {
      hide Leads, Enabled, Apply, Own;
      var ok, failed := StartParsing(tid, id, job, t);
      if failed {
        return false, true;
      }
      ghost var recorded := cluster.trace;
      if !ok {
        ack, err := FailJob(tid, id, StateConflict, t.(phase := Failing(StateConflict)));
      } else {
        ack, err := FinishParseJob(tid, id, job, t.(phase := ParseWork));
      }
      OwnPrefix(recorded, cluster.trace, Handling(tid));
    }

    method FinishParseJob(tid: nat, id: JobId, job: JobRow, ghost t: Task) returns (ack: bool, err: bool)
      requires cluster.Valid() && On(cluster.Now(), tid, id, t) && t.phase.ParseWork? && t.job == Some(job)
      modifies cluster, cluster.files, cluster.jobs, cluster.queue, cluster.world
      ensures cluster.Served(tid) && ack == !err
      ensures Next(tid, Work(tid, ParseOutcome(cluster.world.answers, old(cluster.world.clock))))
      ensures if ack then Settled(tid, id, t.entry) else tid !in cluster.tasks
    {
      hide Leads, Enabled, Apply, Transition, CanTransition, Own;
      var result := ParseAndStore(job.key);
      var before := cluster.Now();
      Record(tid, id, before, result, t);
      ghost var recorded := cluster.trace;
      if result.Bad? {
        ack, err := FailParseJob(tid, id, job, result.code, t.(phase := ParseFail(result.code)));
        OwnPrefix(recorded, cluster.trace, Handling(tid));
        return;
      }
      ack, err := CompleteParseJob(tid, id, job, result.text, t.(phase := ParseEnd(result.text)));
      OwnPrefix(recorded, cluster.trace, Handling(tid));
    }

    /** The last transition of a parse job, with the path of the Markdown object. */
    method StoreParsed(tid: nat, id: JobId, job: JobRow, path: string, ghost t: Task) returns (ok: bool, failed: bool)
      requires cluster.Valid() && On(cluster.Now(), tid, id, t) && t.phase == ParseEnd(path) && t.job == Some(job)
      modifies cluster, cluster.files, cluster.jobs, cluster.queue, cluster.world
      ensures cluster.Served(tid)
      ensures if failed then tid !in cluster.tasks
              else On(cluster.Now(), tid, id, t.(phase := if ok then Succeeding else ParseFail(StateConflict)))
      ensures !failed && ok ==> StandsAt(job.key, Parsed) && cluster.files.files[job.key].markdown == path
    {
      hide Leads, Enabled, Apply, Transition, CanTransition, Own;
      var answer := Turn(tid, id, t);
      if answer.Fails? {
        GiveUp(tid);
        return false, true;
      }
      var before := cluster.Now();
      ok := cluster.files.TransitionStatus(job.key, {Parsing}, Parsed, Some(path));
      Record(tid, id, before, DONE, t);
      failed := false;
    }

    method CompleteParseJob(tid: nat, id: JobId, job: JobRow, path: string, ghost t: Task)
        returns (ack: bool, err: bool)
      requires cluster.Valid() && On(cluster.Now(), tid, id, t) && t.phase == ParseEnd(path) && t.job == Some(job)
      modifies cluster, cluster.files, cluster.jobs, cluster.queue, cluster.world
      ensures cluster.Served(tid) && ack == !err
      ensures if ack then Settled(tid, id, t.entry) else tid !in cluster.tasks
    {
      hide Leads, Enabled, Apply, Own;
      var ok, failed := StoreParsed(tid, id, job, path, t);
      if failed {
        return false, true;
      }
      if !ok {
        ack, err := FailParseJob(tid, id, job, StateConflict, t.(phase := ParseFail(StateConflict)));
        return;
      }
      ack, err := Succeed(tid, id, t.(phase := Succeeding));
    }

    /** No embedding model: the job fails before any transition. */
    method FailUnconfigured(tid: nat, id: JobId, job: JobRow, ghost t: Task) returns (ack: bool, err: bool)
      requires cluster.Valid() && On(cluster.Now(), tid, id, t) && t.phase.IndexStart? && t.job == Some(job)
      modifies cluster, cluster.files, cluster.jobs, cluster.queue, cluster.world
      ensures cluster.Served(tid) && ack == !err
      ensures Next(tid, Work(tid, Bad(EmbeddingNotConfigured)))
      ensures if ack then Settled(tid, id, t.entry) else tid !in cluster.tasks
    {
      hide Leads, Enabled, Apply, CanTransition, Own;
      Record(tid, id, cluster.Now(), Bad(EmbeddingNotConfigured), t);
      ghost var recorded := cluster.trace;
      ack, err := FailIndexJob(tid, id, job, EmbeddingNotConfigured, t.(phase := IndexFail(EmbeddingNotConfigured)));
      OwnPrefix(recorded, cluster.trace, Handling(tid));
    }

    /** The first transition of an index job; nothing came of it when the call failed. */
    method StartIndexing(tid: nat, id: JobId, job: JobRow, markdown: string, ghost t: Task)
        returns (ok: bool, failed: bool)
      requires cluster.Valid() && On(cluster.Now(), tid, id, t) && t.phase.IndexStart? && t.job == Some(job)
          && t.markdown == markdown
      modifies cluster, cluster.files, cluster.jobs, cluster.queue, cluster.world
      ensures cluster.Served(tid)
      ensures if failed then old(cluster.world.refused) < cluster.world.refused else Next(tid, Work(tid, DONE))
      ensures if failed then tid !in cluster.tasks
              else On(cluster.Now(), tid, id,
                      t.(phase := if !ok then IndexFail(StateConflict)
                                  else if markdown == "" then IndexFail(MarkdownMissing)
                                  else IndexWork))
      ensures !failed && ok ==> StandsAt(job.key, Indexing)
    {
      hide Leads, Enabled, Apply, Transition, CanTransition, Own;
      var answer := Turn(tid, id, t);
      if answer.Fails? {
        GiveUp(tid);
        return false, true;
      }
      var before := cluster.Now();
      ok := cluster.files.TransitionStatus(job.key, {IndexQueued}, Indexing, None);
      Record(tid, id, before, DONE, t);
      failed := false;
    }

    /** Without an embedding model the job fails before any transition; then come the first transition and the check of
        the path. */
    method ProcessIndexJob(tid: nat, id: JobId, job: JobRow, markdown: string, ghost t: Task)
        returns (ack: bool, err: bool)
      requires cluster.Valid() && On(cluster.Now(), tid, id, t) && t.phase.IndexStart? && t.job == Some(job)
          && t.markdown == markdown
      modifies cluster, cluster.files, cluster.jobs, cluster.queue, cluster.world
      ensures cluster.Served(tid) && ack == !err
      ensures !indexerConfigured ==> Next(tid, Work(tid, Bad(EmbeddingNotConfigured)))
      ensures indexerConfigured ==> Next(tid, Work(tid, DONE)) || old(cluster.world.refused) < cluster.world.refused
      ensures if ack then Settled(tid, id, t.entry) else tid !in cluster.tasks
    {
      hide Leads, Enabled, Apply, Own;
      if !indexerConfigured {
        ack, err := FailUnconfigured(tid, id, job, t);
        return;
      }
      var ok, failed := StartIndexing(tid, id, job, markdown, t);
      if failed {
        return false, true;
      }
      ghost var recorded := cluster.trace;
      if !ok {
        ack, err := FailIndexJob(tid, id, job, StateConflict, t.(phase := IndexFail(StateConflict)));
      } else if markdown == "" {
        ack, err := FailIndexJob(tid, id, job, MarkdownMissing, t.(phase := IndexFail(MarkdownMissing)));
      } else {
        ack, err := FinishIndexJob(tid, id, job, markdown, t.(phase := IndexWork));
      }
      OwnPrefix(recorded, cluster.trace, Handling(tid));
    }

    method FinishIndexJob(tid: nat, id: JobId, job: JobRow, markdown: string, ghost t: Task)
        returns (ack: bool, err: bool)
      requires cluster.Valid() && On(cluster.Now(), tid, id, t) && t.phase.IndexWork? && t.job == Some(job)
      modifies cluster, cluster.files, cluster.jobs, cluster.queue, cluster.world
      ensures cluster.Served(tid) && ack == !err
      ensures Next(tid, Work(tid, IndexOutcome(cluster.world.answers, old(cluster.world.clock))))
      ensures if ack then Settled(tid, id, t.entry) else tid !in cluster.tasks
    {
      hide Leads, Enabled, Apply, Transition, CanTransition, Own;
      var result := ReadAndIndex(markdown);
      var before := cluster.Now();
      Record(tid, id, before, result, t);
      ghost var recorded := cluster.trace;
      if result.Bad? {
        ack, err := FailIndexJob(tid, id, job, result.code, t.(phase := IndexFail(result.code)));
        OwnPrefix(recorded, cluster.trace, Handling(tid));
        return;
      }
      ack, err := CompleteIndexJob(tid, id, job, t.(phase := IndexEnd));
      OwnPrefix(recorded, cluster.trace, Handling(tid));
    }

    /** The last transition of an index job. */
    method StoreIndexed(tid: nat, id: JobId, job: JobRow, ghost t: Task) returns (ok: bool, failed: bool)
      requires cluster.Valid() && On(cluster.Now(), tid, id, t) && t.phase.IndexEnd? && t.job == Some(job)
      modifies cluster, cluster.files, cluster.jobs, cluster.queue, cluster.world
      ensures cluster.Served(tid)
      ensures if failed then tid !in cluster.tasks
              else On(cluster.Now(), tid, id, t.(phase := if ok then Succeeding else IndexFail(StateConflict)))
      ensures !failed && ok ==> StandsAt(job.key, Indexed)
    {
      hide Leads, Enabled, Apply, Transition, CanTransition, Own;
      var answer := Turn(tid, id, t);
      if answer.Fails? {
        GiveUp(tid);
        return false, true;
      }
      var before := cluster.Now();
      ok := cluster.files.TransitionStatus(job.key, {Indexing}, Indexed, None);
      Record(tid, id, before, DONE, t);
      failed := false;
    }

    method CompleteIndexJob(tid: nat, id: JobId, job: JobRow, ghost t: Task) returns (ack: bool, err: bool)
      requires cluster.Valid() && On(cluster.Now(), tid, id, t) && t.phase.IndexEnd? && t.job == Some(job)
      modifies cluster, cluster.files, cluster.jobs, cluster.queue, cluster.world
      ensures cluster.Served(tid) && ack == !err
      ensures if ack then Settled(tid, id, t.entry) else tid !in cluster.tasks
    {
      hide Leads, Enabled, Apply, Own;
      var ok, failed := StoreIndexed(tid, id, job, t);
      if failed {
        return false, true;
      }
      if !ok {
        ack, err := FailIndexJob(tid, id, job, StateConflict, t.(phase := IndexFail(StateConflict)));
        return;
      }
      ack, err := Succeed(tid, id, t.(phase := Succeeding));
    }

    /** claimByJobID: the guarded update, then the read. */
    method ProcessMessage(tid: nat, id: JobId, worker: WorkerId, reclaimed: bool, ghost t: Task)
        returns (ack: bool, err: bool)
      requires cluster.Valid() && On(cluster.Now(), tid, id, t) && t == NewTask(worker, t.entry, reclaimed)
      modifies cluster, cluster.files, cluster.jobs, cluster.queue, cluster.world
      ensures cluster.Served(tid) && (ack ==> !err)
      ensures if ack then Settled(tid, id, t.entry) else tid !in cluster.tasks
    {
      hide Leads, Enabled, Apply, Own;
      var answer := Turn(tid, id, t);
      if answer.Fails? {
        GiveUp(tid);
        return false, true;
      }
      var before := cluster.Now();
      if reclaimed {
        cluster.jobs.ClaimUpdate(id, worker, {Pending, Running}, false);
      } else {
        cluster.jobs.ClaimUpdate(id, worker, {Pending}, true);
      }
      Record(tid, id, before, DONE, t);
      ack, err := ProcessClaimed(tid, id, worker, t.(phase := Reading));
    }

    /** The read that ends claimByJobID. */
    method ReadJob(tid: nat, id: JobId, ghost t: Task) returns (found: Option<JobRow>, failed: bool)
      requires cluster.Valid() && On(cluster.Now(), tid, id, t) && t.phase.Reading?
      modifies cluster, cluster.files, cluster.jobs, cluster.queue, cluster.world
      ensures cluster.Served(tid)
      ensures var next := AfterReading(found, t);
              if failed || !next.Goes? then tid !in cluster.tasks else On(cluster.Now(), tid, id, next.task)
    {
      hide Leads, Enabled, Apply, NextOf, ReadStep, Active, Own;
      var answer := Turn(tid, id, t);
      if answer.Fails? {
        GiveUp(tid);
        return None, true;
      }
      var before := cluster.Now();
      found := cluster.jobs.FindByJobID(id);
      ReadNext(before.db, id, t);
      Record(tid, id, before, DONE, t);
      failed := false;
    }

    method ProcessClaimed(tid: nat, id: JobId, worker: WorkerId, ghost t: Task) returns (ack: bool, err: bool)
      requires cluster.Valid() && On(cluster.Now(), tid, id, t) && t.phase.Reading? && t.worker == worker && t.job.None?
      modifies cluster, cluster.files, cluster.jobs, cluster.queue, cluster.world
      ensures cluster.Served(tid) && (ack ==> !err)
      ensures if ack then Settled(tid, id, t.entry) else tid !in cluster.tasks
    {
      hide Leads, Enabled, Apply, NextOf, Own;
      var found, failed := ReadJob(tid, id, t);
      if failed {
        return false, true;
      }
      if found.None? {
        return true, false;
      }
      var job := found.value;
      if job.status in {Succeeded, Failed, Cancelled} {
        return true, false;
      }
      if !job.status.Running? || job.worker != Some(worker) {
        return false, false;
      }
      if job.maxAttempts > 0 && job.attempt > job.maxAttempts {
        ack, err := FailJob(tid, id, MaxAttemptsExceeded, t.(job := found, phase := Failing(MaxAttemptsExceeded)));
        return;
      }
      ack, err := ProcessJob(tid, id, job, t.(job := found, phase := Finding));
    }

    method ReadFile(tid: nat, id: JobId, job: JobRow, ghost t: Task) returns (file: Option<FileRow>, failed: bool)
      requires cluster.Valid() && On(cluster.Now(), tid, id, t) && t.phase.Finding? && t.job == Some(job)
      modifies cluster, cluster.files, cluster.jobs, cluster.queue, cluster.world
      ensures cluster.Served(tid)
      ensures if failed then tid !in cluster.tasks
              else On(cluster.Now(), tid, id, if file.None? then t.(phase := Failing(FileNotFound))
                                             else t.(markdown := file.value.markdown,
                                                     phase := if job.jobType.ParseJob? then ParseStart else IndexStart))
    {
      hide Leads, Enabled, Apply, Own;
      var answer := Turn(tid, id, t);
      if answer.Fails? {
        GiveUp(tid);
        return None, true;
      }
      var before := cluster.Now();
      file := cluster.files.Find(job.key);
      Record(tid, id, before, DONE, t);
      failed := false;
    }

    method ProcessJob(tid: nat, id: JobId, job: JobRow, ghost t: Task) returns (ack: bool, err: bool)
      requires cluster.Valid() && On(cluster.Now(), tid, id, t) && t.phase.Finding? && t.job == Some(job)
      modifies cluster, cluster.files, cluster.jobs, cluster.queue, cluster.world
      ensures cluster.Served(tid) && ack == !err
      ensures if ack then Settled(tid, id, t.entry) else tid !in cluster.tasks
    {
      hide Leads, Enabled, Apply, Own;
      var file, failed := ReadFile(tid, id, job, t);
      if failed {
        return false, true;
      }
      if file.None? {
        ack, err := FailJob(tid, id, FileNotFound, t.(phase := Failing(FileNotFound)));
        return;
      }
      ghost var started := t.(markdown := file.value.markdown,
          phase := if job.jobType.ParseJob? then ParseStart else IndexStart);
      match job.jobType
      case ParseJob => ack, err := ProcessParseJob(tid, id, job, started);
      case IndexJob => ack, err := ProcessIndexJob(tid, id, job, file.value.markdown, started);
    }

    /** Handles one delivered message. It is acknowledged only when its job is finished; otherwise its entry is left
        alone. */
    method HandleMessage(tid: nat, id: JobId, worker: WorkerId, reclaimed: bool, entry: nat) returns (acked: bool)
      requires cluster.Valid() && On(cluster.Now(), tid, id, NewTask(worker, entry, reclaimed))
      modifies cluster, cluster.files, cluster.jobs, cluster.queue, cluster.world
      ensures cluster.Served(tid) && tid !in cluster.tasks
      ensures acked ==> entry !in cluster.queue.stream.pending
      ensures acked ==> id in cluster.jobs.jobs && !Active(cluster.jobs.jobs[id])
    {
      hide Leads, Enabled, Apply, Own;
      var ack, err := ProcessMessage(tid, id, worker, reclaimed, NewTask(worker, entry, reclaimed));
      if err || !ack {
        return false;
      }
      ghost var t := cluster.tasks[tid];
      var answer := Turn(tid, id, t);
      if answer.Fails? {
        GiveUp(tid);
        return false;
      }
      var before := cluster.Now();
      SettledIsFinished(before, cluster.trace, tid, id, t);
      cluster.queue.Ack(entry);
      Record(tid, id, before, DONE, t);
      return true;
    }

    /** What an acknowledgement means for the entry: it is off the pending list and its job is finished. */
    ghost predicate Acknowledged(entry: nat)
      reads cluster, cluster.jobs, cluster.queue
    {
      var entries := cluster.queue.stream.entries;
      && entry !in cluster.queue.stream.pending && entry < |entries|
      && entries[entry] in cluster.jobs.jobs && !Active(cluster.jobs.jobs[entries[entry]])
    }

    /** Handles the entry that has just been taken. */
    method HandleEntry(tid: nat, worker: WorkerId, reclaimed: bool, entry: nat, ghost before: State)
        returns (acked: bool)
      requires cluster.Valid() && cluster.Now() == before && entry < |before.stream.entries|
      requires On(before, tid, before.stream.entries[entry], NewTask(worker, entry, reclaimed))
      modifies cluster, cluster.files, cluster.jobs, cluster.queue, cluster.world
      ensures cluster.Served(tid) && tid !in cluster.tasks && (acked ==> Acknowledged(entry))
      ensures Own(old(cluster.trace), Handling(tid)) <= Own(cluster.trace, Handling(tid))
    {
      hide Leads, Apply, Own, Enabled, Active;
      ghost var trace := cluster.trace;
      acked := HandleMessage(tid, cluster.queue.stream.entries[entry], worker, reclaimed, entry);
      TraceGrows(INIT, trace, before, cluster.trace, cluster.Now());
      OwnPrefix(trace, cluster.trace, Handling(tid));
    }

    /** One round of the consuming loop: takes the next message, if there is one, and handles it. */
    method ConsumeNext(tid: nat, worker: WorkerId) returns (acked: bool, ghost entry: Option<nat>)
      requires cluster.Valid() && tid !in cluster.tasks
      modifies cluster, cluster.files, cluster.jobs, cluster.queue, cluster.world
      ensures cluster.Served(tid) && tid !in cluster.tasks
      ensures entry.None? ==> !acked && Own(cluster.trace, Handling(tid)) == Own(old(cluster.trace), Handling(tid))
                              && cluster.queue.stream.cursor >= |cluster.queue.stream.entries|
      ensures entry.Some? ==> Next(tid, Consume(tid, worker)) && (acked ==> Acknowledged(entry.value))
      ensures entry.Some? ==> old(cluster.queue.stream.cursor) <= entry.value < cluster.queue.stream.cursor
    {
      hide Leads, Own, Acknowledged, Active;
      cluster.Interfere(Handling(tid));
      var before := cluster.Now();
      CursorGrows(old(cluster.trace), old(cluster.Now()), cluster.trace, before);
      var stream := before.stream;
      if stream.cursor >= |stream.entries| {
        return false, None;
      }
      var next := cluster.queue.Deliver(worker);
      Consumes(before, tid, worker);
      cluster.Commit(Consume(tid, worker), before);
      ghost var trace, taken := cluster.trace, cluster.Now();
      entry := Some(next);
      acked := HandleEntry(tid, worker, false, next, cluster.Now());
      CursorGrows(trace, taken, cluster.trace, cluster.Now());
    }

    /** One message of the recovery loop, claimed from another consumer. */
    method RecoverOne(tid: nat, worker: WorkerId, entry: nat) returns (acked: bool, ghost claimed: bool)
      requires cluster.Valid() && tid !in cluster.tasks
      modifies cluster, cluster.files, cluster.jobs, cluster.queue, cluster.world
      ensures cluster.Served(tid) && tid !in cluster.tasks
      ensures !claimed ==> !acked && Own(cluster.trace, Handling(tid)) == Own(old(cluster.trace), Handling(tid))
                           && (entry !in cluster.queue.stream.pending || entry >= |cluster.queue.stream.entries|)
      ensures claimed ==> Next(tid, Reclaim(tid, worker, entry)) && (acked ==> Acknowledged(entry))
    {
      hide Leads, Own, Acknowledged, Active;
      cluster.Interfere(Handling(tid));
      var before := cluster.Now();
      var stream := before.stream;
      if entry !in stream.pending || entry >= |stream.entries| {
        return false, false;
      }
      cluster.queue.Claim(entry, worker);
      Reclaims(before, tid, worker, entry);
      cluster.Commit(Reclaim(tid, worker, entry), before);
      claimed := true;
      acked := HandleEntry(tid, worker, true, entry, cluster.Now());
    }
  }

  /** Along a trace the cursor moves forward only. */
  lemma {:induction false} CursorGrows(first: seq<Action>, s: State, second: seq<Action>, u: State)
    requires Leads(INIT, first, s) && Leads(INIT, second, u) && first <= second
    ensures s.stream.cursor <= u.stream.cursor
  {
    hide Enabled, Apply, Run, After;
    CursorGrowsFrom(INIT, first, s, second, u);
  }

  lemma {:induction false} CursorGrowsFrom(start: State, first: seq<Action>, s: State, second: seq<Action>, u: State)
    requires Leads(start, first, s) && Leads(start, second, u) && first <= second
    ensures s.stream.cursor <= u.stream.cursor
    decreases |second|
  {
    hide Enabled, Apply;
    if first != [] {
      CursorGrowsFrom(Apply(start, first[0]), first[1..], s, second[1..], u);
    } else if second != [] {
      StepEvolves(s, second[0]);
      CursorGrowsFrom(Apply(s, second[0]), [], Apply(s, second[0]), second[1..], u);
    }
  }
}
