/** The services that create, retry, index and delete files: each creates a job, publishes it, and undoes the creation
    when the stream refuses the message. Like the worker, each call is one step of the protocol, with the other
    processes in between. */
module KnowledgeFiles {
  import opened Optional
  import opened Protocol
  import opened DocumentProcessing
  import opened MidwayFiles

  datatype Outcome = Enqueued(job: JobId) | Missing | Conflict | Unavailable | Internal

  datatype Deletion = Deleted | NotDeleted(why: Outcome)

  /** Client c is in the middle of a call, at k. */
  predicate In(s: State, c: nat, k: Client) {
    c in s.clients && s.clients[c] == k
  }

  function QueuedItems(keys: seq<FileKey>, results: seq<Outcome>): seq<(FileKey, JobId)>
    requires |keys| == |results|
  {
    if keys == [] then []
    else
      var n := |keys| - 1;
      QueuedItems(keys[..n], results[..n]) + if results[n].Enqueued? then [(keys[n], results[n].job)] else []
  }

  function FailedItems(keys: seq<FileKey>, results: seq<Outcome>): seq<(FileKey, Outcome)>
    requires |keys| == |results|
  {
    if keys == [] then []
    else
      var n := |keys| - 1;
      FailedItems(keys[..n], results[..n]) + if results[n].Enqueued? then [] else [(keys[n], results[n])]
  }

  /** A queued item names a published index job of its file. */
  predicate QueuedIn(s: State, r: Outcome, key: FileKey) {
    r.Enqueued? ==>
        r.job in s.published && r.job in s.db.jobs && s.db.jobs[r.job].key == key && s.db.jobs[r.job].jobType.IndexJob?
  }

  /** Why an item ended as it did, in the state its call left. */
  ghost predicate ItemFits(s: State, r: Outcome, id: JobId, key: FileKey) {
    match r
    case Enqueued(_) => QueuedIn(s, r, key)
    case Missing => key !in s.db.files
    case Conflict => !CanCreate(s.db, key, IndexJob, INDEXABLE)
    case Unavailable => false
    case Internal => id in s.db.jobs
  }

  lemma {:induction false} QueuedStays(trace: seq<Action>, s: State, later: seq<Action>, u: State, r: Outcome,
      key: FileKey)
    requires Leads(INIT, trace, s) && Leads(INIT, later, u) && trace <= later && QueuedIn(s, r, key)
    ensures QueuedIn(u, r, key)
  {
    hide Leads, Active;
    TraceGrows(INIT, trace, s, later, u);
  }

  lemma {:induction false} PublishDoes(s: State, c: nat, id: JobId, accepted: bool, appended: bool)
    requires In(s, c, Publishing(id)) && (accepted ==> appended)
    ensures var a := Publish(c, accepted, appended);
            && Enabled(s, a) && Apply(s, a).db == s.db
            && Apply(s, a).stream == (if appended then s.stream.(entries := s.stream.entries + [id]) else s.stream)
            && (accepted ==> id in Apply(s, a).published && c !in Apply(s, a).clients)
            && (!accepted ==> In(Apply(s, a), c, Unpublished(id)))
  {
  }

  lemma {:induction false} MarkUnpublishedDoes(s: State, c: nat, id: JobId, ok: bool)
    requires In(s, c, Unpublished(id))
    ensures var a := MarkUnpublished(c, ok);
            && Enabled(s, a) && Apply(s, a).stream == s.stream && In(Apply(s, a), c, Restoring(id))
            && Apply(s, a).db == s.db.(jobs := if ok then MarkFailed(s.db.jobs, id, QueueEnqueueFailed) else s.db.jobs)
  {
    hide MarkFailed;
  }

  lemma {:induction false} RestoreDoes(s: State, c: nat, id: JobId, ok: bool)
    requires In(s, c, Restoring(id)) && id in s.db.jobs
    ensures var a := RestoreFile(c, ok);
            var row := s.db.jobs[id];
            && Enabled(s, a) && Apply(s, a).stream == s.stream && c !in Apply(s, a).clients
            && Apply(s, a).db == s.db.(files :=
                 if ok then Transition(s.db.files, row.key, {Queued(row.jobType)}, FailedStatus(row.jobType), None)
                 else s.db.files)
  {
    hide Transition;
  }

  /** What creating and publishing a job comes to, call by call, for each result. */
  predicate Enqueues(c: nat, id: JobId, r: Outcome, acts: seq<Action>) {
    match r
    case Enqueued(job) => job == id && acts == [CreateJob(c, id), Publish(c, true, true)]
    case Unavailable => |acts| == 4 && acts[0] == CreateJob(c, id) && Compensated(c, acts[1..])
    case Conflict => acts == [CreateJob(c, id)]
    case Internal => acts == [CreateErrs(c)]
    case Missing => false
  }

  /** A refused publish, then both compensating calls, whatever became of them. */
  predicate Compensated(c: nat, acts: seq<Action>) {
    && |acts| == 3 && acts[0].Publish? && acts[0].client == c && !acts[0].accepted
    && acts[1].MarkUnpublished? && acts[1].client == c && acts[2].RestoreFile? && acts[2].client == c
  }

  const DELETABLE := {Uploaded, ParseQueued, Parsed, ParseFailed, IndexQueued, Indexed, IndexFailed}

  /** The calls of a deletion after the row was read: cancelling comes first when the file was queued, and a failing
      call is the last. */
  predicate Deletes(c: nat, queued: bool, done: bool, acts: seq<Action>) {
    var cancel := if queued then [CancelJobs(c)] else [];
    if done then acts == cancel + [RemoveFile(c)]
    else acts == cancel + [ClientStops(c)] || (queued && acts == [ClientStops(c)])
  }

  lemma {:induction false} Joined(x: seq<Action>, a: seq<Action>, b: seq<Action>)
    ensures (x + a) + b == x + (a + b) && x + [] == x
  {
  }

  lemma {:induction false} EnqueuesSomething(c: nat, id: JobId, r: Outcome, acts: seq<Action>)
    requires Enqueues(c, id, r, acts)
    ensures acts != [] && !r.Missing? && (r.Enqueued? ==> r.job == id)
  {
  }

  lemma {:induction false} CreateErrsDoes(s: State, c: nat)
    requires c in s.clients && s.clients[c].Creating?
    ensures var a := CreateErrs(c); var k := s.clients[c];
            && Enabled(s, a) && Apply(s, a).db == s.db && Apply(s, a).stream == s.stream
            && if k.undo then In(Apply(s, a), c, Undoing(k.key)) else c !in Apply(s, a).clients
  {
  }

  lemma {:induction false} CreateDoes(s: State, c: nat, id: JobId)
    requires c in s.clients && s.clients[c].Creating? && id !in s.db.jobs
    ensures var a := CreateJob(c, id); var k := s.clients[c];
            && Enabled(s, a) && Apply(s, a).stream == s.stream
            && Apply(s, a).db == CreateForTransition(s.db, id, k.key, k.jobType, k.maxAttempts, k.from)
            && if CanCreate(s.db, k.key, k.jobType, k.from) then In(Apply(s, a), c, Publishing(id))
               else if k.undo then In(Apply(s, a), c, Undoing(k.key)) else c !in Apply(s, a).clients
  {
    hide CanCreate, CreateForTransition;
  }

  lemma {:induction false} UploadDoes(s: State, c: nat, key: FileKey)
    requires c !in s.clients && key !in s.known
    ensures var a := Upload(c, key);
            && Enabled(s, a) && Apply(s, a).stream == s.stream
            && Apply(s, a).db == s.db.(files := s.db.files[key := FileRow(Uploaded, "")])
            && key in Apply(s, a).known && In(Apply(s, a), c, Creating(key, ParseJob, {Uploaded}, 1, true))
  {
  }

  lemma {:induction false} UndoDoes(s: State, c: nat, key: FileKey, ok: bool)
    requires In(s, c, Undoing(key))
    ensures var a := UndoUpload(c, ok);
            && Enabled(s, a) && Apply(s, a).stream == s.stream && c !in Apply(s, a).clients
            && Apply(s, a).db == s.db.(files := if ok then s.db.files - {key} else s.db.files)
  {
  }

  lemma {:induction false} NoItems(keys: seq<FileKey>)
    ensures QueuedItems(keys[..0], []) == [] && FailedItems(keys[..0], []) == []
  {
  }

  lemma {:induction false} ItemsSnoc(keys: seq<FileKey>, results: seq<Outcome>, i: nat, r: Outcome)
    requires i < |keys| && |results| == i
    ensures QueuedItems(keys[..i + 1], results + [r]) == QueuedItems(keys[..i], results) + if r.Enqueued?
        then [(keys[i], r.job)] else []
    ensures FailedItems(keys[..i + 1], results + [r]) == FailedItems(keys[..i], results) + if r.Enqueued? then []
        else [(keys[i], r)]
  {
    assert keys[..i + 1][..i] == keys[..i] && (results + [r])[..i] == results;
  }

  predicate Stood(s: State, key: FileKey, statuses: set<FileStatus>) {
    key in s.db.files && s.db.files[key].status in statuses
  }

  lemma {:induction false} Statuses(status: FileStatus)
    ensures status in {Uploaded, ParseQueued, Parsing, IndexQueued, Indexing}
         || status in {ParseFailed, Parsed, IndexFailed, Indexed}
  {
  }

  class Services {
    const cluster: Cluster

    constructor (cluster: Cluster)
      ensures this.cluster == cluster
    {
      this.cluster := cluster;
    }

    /** The cluster went on by a run of the protocol in which this client took just these actions. */
    twostate predicate Did(c: nat, acts: seq<Action>)
      reads this, cluster, cluster.files, cluster.jobs, cluster.queue, cluster.world
    {
      && cluster.Valid() && old(cluster.trace) <= cluster.trace && old(cluster.world.refused) <= cluster.world.refused
      && Own(cluster.trace, Calling(c)) == Own(old(cluster.trace), Calling(c)) + acts
    }

    /** A database or stream call of this client has failed. */
    twostate predicate Failed()
      reads this, cluster, cluster.world
    {
      old(cluster.world.refused) < cluster.world.refused
    }

    /** The job is recorded as published, with this file and type. */
    ghost predicate Published(id: JobId, key: FileKey, jobType: JobType)
      reads this, cluster, cluster.jobs
    {
      id in cluster.published && Named(id, key, jobType)
    }

    ghost predicate Named(id: JobId, key: FileKey, jobType: JobType)
      reads this, cluster, cluster.jobs
    {
      id in cluster.jobs.jobs && cluster.jobs.jobs[id].key == key && cluster.jobs.jobs[id].jobType == jobType
    }

    method Turn(c: nat) returns (answer: Answer)
      requires cluster.Valid()
      modifies cluster, cluster.files, cluster.jobs, cluster.queue, cluster.world
      ensures Did(c, []) && SameFor(old(cluster.Now()), cluster.Now(), Calling(c))
          && Grows(old(cluster.Now()), cluster.Now())
      ensures cluster.world.refused == old(cluster.world.refused) + if answer.Fails? then 1 else 0
    {
      hide Enabled, Apply, Leads, Grows, Own;
      cluster.Interfere(Calling(c));
      answer := cluster.world.Call();
    }

    /** MarkFailed and TransitionStatus after a refused publish; their own errors are ignored. */
    method Compensate(c: nat, id: JobId, key: FileKey, jobType: JobType) returns (marked: bool, restored: bool)
      requires cluster.Valid() && In(cluster.Now(), c, Unpublished(id)) && Named(id, key, jobType)
      modifies cluster, cluster.files, cluster.jobs, cluster.queue, cluster.world
      ensures Did(c, [MarkUnpublished(c, marked), RestoreFile(c, restored)]) && c !in cluster.clients
    {
      hide Leads, Transition, Enabled, Apply, Own;
      var answer := Turn(c);
      marked := answer.Works?;
      var before := cluster.Now();
      if marked {
        cluster.jobs.MarkFailed(id, QueueEnqueueFailed);
      }
      MarkUnpublishedDoes(before, c, id, marked);
      cluster.Commit(MarkUnpublished(c, marked), before);
      restored := Restore(c, id, key, jobType);
      Joined(Own(old(cluster.trace), Calling(c)), [MarkUnpublished(c, marked)], [RestoreFile(c, restored)]);
    }

    method Restore(c: nat, id: JobId, key: FileKey, jobType: JobType) returns (restored: bool)
      requires cluster.Valid() && In(cluster.Now(), c, Restoring(id)) && Named(id, key, jobType)
      modifies cluster, cluster.files, cluster.jobs, cluster.queue, cluster.world
      ensures Did(c, [RestoreFile(c, restored)]) && c !in cluster.clients
    {
      hide Leads, Transition, Enabled, Apply, Own;
      var answer := Turn(c);
      restored := answer.Works?;
      var before := cluster.Now();
      if restored {
        var moved := cluster.files.TransitionStatus(key, {Queued(jobType)}, FailedStatus(jobType), None);
      }
      RestoreDoes(before, c, id, restored);
      cluster.Commit(RestoreFile(c, restored), before);
    }

    /** The publish, which may fail although the message was appended. */
    method PublishJob(c: nat, id: JobId, key: FileKey, jobType: JobType)
        returns (published: bool, ghost acts: seq<Action>)
      requires cluster.Valid() && In(cluster.Now(), c, Publishing(id)) && Named(id, key, jobType)
      modifies cluster, cluster.files, cluster.jobs, cluster.queue, cluster.world
      ensures Did(c, acts) && c !in cluster.clients
      ensures if published then acts == [Publish(c, true, true)] && Published(id, key, jobType)
          else Compensated(c, acts) && Failed()
    {
      hide Leads, Enabled, Apply, Own;
      var accepted := Turn(c);
      var received := cluster.world.Ask();
      var before := cluster.Now();
      published := accepted.Works?;
      var appended := published || received.Works?;
      if appended {
        cluster.queue.Append(id);
      }
      PublishDoes(before, c, id, published, appended);
      cluster.Commit(Publish(c, published, appended), before);
      acts := [Publish(c, published, appended)];
      if !published {
        var marked, restored := Compensate(c, id, key, jobType);
        Joined(Own(old(cluster.trace), Calling(c)), acts, [MarkUnpublished(c, marked), RestoreFile(c, restored)]);
        acts := acts + [MarkUnpublished(c, marked), RestoreFile(c, restored)];
      }
    }

    /** CreateForFileTransition; an error leaves both tables alone. */
    method Create(c: nat, id: JobId, key: FileKey, jobType: JobType, from: set<FileStatus>, maxAttempts: nat,
        undo: bool) returns (r: Outcome)
      requires cluster.Valid() && In(cluster.Now(), c, Creating(key, jobType, from, maxAttempts, undo))
      modifies cluster, cluster.files, cluster.jobs, cluster.queue, cluster.world
      ensures r.Enqueued? || r.Conflict? || r.Internal?
      ensures Did(c, [if r.Internal? then CreateErrs(c) else CreateJob(c, id)])
      ensures r.Enqueued? ==> r.job == id && In(cluster.Now(), c, Publishing(id)) && Named(id, key, jobType)
      ensures r.Internal? ==> Failed() || id in cluster.jobs.jobs
      ensures r.Conflict? ==> !CanCreate(cluster.Now().db, key, jobType, from)
      ensures !r.Enqueued? ==> if undo then In(cluster.Now(), c, Undoing(key)) else c !in cluster.clients
    {
      hide Leads, CanCreate, Transition, Own, Enabled, Apply;
      var answer := Turn(c);
      var before := cluster.Now();
      if answer.Fails? || id in before.db.jobs {
        CreateErrsDoes(before, c);
        cluster.Commit(CreateErrs(c), before);
        return Internal;
      }
      CreateDoes(before, c, id);
      var created := cluster.jobs.CreateForFileTransition(id, key, jobType, maxAttempts, from);
      cluster.Commit(CreateJob(c, id), before);
      r := if created then Enqueued(id) else Conflict;
    }

    /** CreateForFileTransition and the publish that follows it. */
    method Enqueue(c: nat, id: JobId, key: FileKey, jobType: JobType, from: set<FileStatus>, maxAttempts: nat,
        undo: bool) returns (r: Outcome, ghost acts: seq<Action>)
      requires cluster.Valid() && In(cluster.Now(), c, Creating(key, jobType, from, maxAttempts, undo))
      modifies cluster, cluster.files, cluster.jobs, cluster.queue, cluster.world
      ensures Did(c, acts) && Enqueues(c, id, r, acts)
      ensures r.Internal? ==> Failed() || id in cluster.jobs.jobs
      ensures r.Unavailable? ==> Failed()
      ensures r.Conflict? ==> !CanCreate(cluster.Now().db, key, jobType, from)
      ensures if undo && (r.Conflict? || r.Internal?) then In(cluster.Now(), c, Undoing(key)) else c !in cluster.clients
      ensures r.Enqueued? ==> Published(id, key, jobType)
    {
      hide Leads, CanCreate, Own, Enabled, Apply;
      r := Create(c, id, key, jobType, from, maxAttempts, undo);
      acts := [if r.Internal? then CreateErrs(c) else CreateJob(c, id)];
      if !r.Enqueued? {
        return;
      }
      var published;
      ghost var more;
      published, more := PublishJob(c, id, key, jobType);
      Joined(Own(old(cluster.trace), Calling(c)), acts, more);
      assert (acts + more)[1..] == more;
      acts := acts + more;
      r := if published then Enqueued(id) else Unavailable;
    }

    /** The row of an upload, under an id never issued before. */
    method AddRow(c: nat, key: FileKey) returns (added: bool)
      requires cluster.Valid() && c !in cluster.clients
      modifies cluster, cluster.files, cluster.jobs, cluster.queue, cluster.world
      ensures Did(c, if added then [Upload(c, key)] else []) && (!added ==> Failed() || key in cluster.known)
      ensures if added then In(cluster.Now(), c, Creating(key, ParseJob, {Uploaded}, 1, true))
          else c !in cluster.clients
    {
      hide Leads, Own, Enabled, Apply;
      var answer := Turn(c);
      var before := cluster.Now();
      if answer.Fails? || key in cluster.known {
        return false;
      }
      UploadDoes(before, c, key);
      cluster.files.Create(key);
      cluster.Commit(Upload(c, key), before);
      added := true;
    }

    /** Upload, once the object is stored: the row, then its parse job; the row is taken back when the job cannot be
        created. */
    method UploadFile(c: nat, id: JobId, key: FileKey) returns (r: Outcome, ghost acts: seq<Action>, removed: bool)
      requires cluster.Valid() && c !in cluster.clients
      modifies cluster, cluster.files, cluster.jobs, cluster.queue, cluster.world
      ensures c !in cluster.clients && (r.Enqueued? ==> Published(id, key, ParseJob))
      ensures r.Internal? && acts == [] ==> Failed() || key in cluster.known
      ensures r.Internal? && acts != [] ==> Failed() || id in cluster.jobs.jobs
      ensures r.Unavailable? ==> Failed()
      ensures if acts == [] then Did(c, []) && r.Internal?
              else Enqueues(c, id, r, acts)
                   && Did(c, [Upload(c, key)] + acts
                             + if r.Conflict? || r.Internal? then [UndoUpload(c, removed)] else [])
    {
      hide Leads, Own, Enqueues, Enabled, Apply;
      removed := false;
      var added := AddRow(c, key);
      if !added {
        return Internal, [], false;
      }
      r, acts := Enqueue(c, id, key, ParseJob, {Uploaded}, 1, true);
      EnqueuesSomething(c, id, r, acts);
      Joined(Own(old(cluster.trace), Calling(c)), [Upload(c, key)], acts);
      if r.Conflict? || r.Internal? {
        removed := TakeBack(c, key);
        Joined(Own(old(cluster.trace), Calling(c)), [Upload(c, key)] + acts, [UndoUpload(c, removed)]);
      } else {
        assert [Upload(c, key)] + acts + [] == [Upload(c, key)] + acts;
      }
    }

    method TakeBack(c: nat, key: FileKey) returns (removed: bool)
      requires cluster.Valid() && In(cluster.Now(), c, Undoing(key))
      modifies cluster, cluster.files, cluster.jobs, cluster.queue, cluster.world
      ensures Did(c, [UndoUpload(c, removed)]) && c !in cluster.clients && (removed ==> key !in cluster.files.files)
      ensures (!removed ==> Failed()) && old(cluster.jobs.jobs).Keys <= cluster.jobs.jobs.Keys
    {
      hide Leads, Own, Enabled, Apply;
      var answer := Turn(c);
      removed := answer.Works?;
      var before := cluster.Now();
      if removed {
        cluster.files.Delete(key);
      }
      UndoDoes(before, c, key, removed);
      cluster.Commit(UndoUpload(c, removed), before);
    }

    /** The first read of a call: the row, and the state in which it was read. */
    method ReadFile(c: nat, key: FileKey)
        returns (file: Option<FileRow>, answered: bool, ghost at: nat, ghost was: State)
      requires cluster.Valid() && c !in cluster.clients
      modifies cluster, cluster.files, cluster.jobs, cluster.queue, cluster.world
      ensures Did(c, []) && c !in cluster.clients && was == cluster.Now() && at == |cluster.trace|
      ensures Since(|old(cluster.trace)|, at, was) && cluster.trace[..at] == cluster.trace
      ensures if answered then file == (if key in was.db.files then Some(was.db.files[key]) else None) else Failed()
    {
      hide Leads, Own, Enabled, Apply;
      var answer := Turn(c);
      answered := answer.Works?;
      at, was := |cluster.trace|, cluster.Now();
      assert cluster.trace[..at] == cluster.trace;
      file := None;
      if answered {
        file := cluster.files.Find(key);
      }
    }

    /** Refused at once, with the row as it was read, or carried through call by call. A call that ends neither enqueued
        nor unavailable leaves a reason in sight. */
    method RetryParse(c: nat, id: JobId, key: FileKey)
        returns (r: Outcome, ghost acts: seq<Action>, ghost at: nat, ghost was: State)
      requires cluster.Valid() && c !in cluster.clients
      modifies cluster, cluster.files, cluster.jobs, cluster.queue, cluster.world
      ensures c !in cluster.clients && (r.Enqueued? ==> Published(id, key, ParseJob))
      ensures acts == [] ==> Did(c, []) && Refused(r, key, PARSEABLE) && (r.Internal? ==> Failed())
      ensures acts != [] ==> Did(c, [AskParse(c, key)] + acts) && Enqueues(c, id, r, acts)
      ensures acts != [] ==> Explained(r, key, ParseJob, PARSEABLE) && (r.Unavailable? ==> Failed())
      ensures r.Internal? ==> Failed() || id in cluster.jobs.jobs
      ensures (acts == [] && r.Internal?) || Since(|old(cluster.trace)|, at, was)
      ensures !(acts == [] && r.Internal?) ==>
                && (r.Missing? <==> key !in was.db.files)
                && (acts == [] && r.Conflict? <==>
                      Stood(was, key, {Uploaded, ParseQueued, Parsing, IndexQueued, Indexing}))
                && (acts != [] <==> Stood(was, key, {ParseFailed, Parsed, IndexFailed, Indexed}))
      ensures r.Enqueued? || r.Unavailable? || Failed() || id in cluster.jobs.jobs || key !in cluster.files.files
           || cluster.files.files[key].status in {Uploaded, ParseQueued, Parsing, IndexQueued, Indexing}
           || HasActive(cluster.jobs.jobs, key, ParseJob)
    {
      hide Leads, Own, Enqueues, HasActive;
      var file, answered;
      file, answered, at, was := ReadFile(c, key);
      if !answered {
        return Internal, [], at, was;
      }
      if file.None? {
        return Missing, [], at, was;
      }
      Statuses(file.value.status);
      if file.value.status !in PARSEABLE {
        return Conflict, [], at, was;
      }
      ghost var trace := cluster.trace;
      cluster.Commit(AskParse(c, key), cluster.Now());
      r, acts := Enqueue(c, id, key, ParseJob, PARSEABLE, 1, false);
      EnqueuesSomething(c, id, r, acts);
      Joined(Own(old(cluster.trace), Calling(c)), [AskParse(c, key)], acts);
      assert cluster.trace[..at] == trace;
      if key in cluster.files.files { Statuses(cluster.files.files[key].status); }
    }

    /** The cluster was in this state when its trace had this length, at some time of the call. */
    ghost predicate Since(from: nat, at: nat, s: State)
      reads this, cluster
    {
      from <= at && Seen(at, s)
    }

    /** A conflict after the first check means that the creation itself was not possible. */
    ghost predicate Explained(r: Outcome, key: FileKey, jobType: JobType, from: set<FileStatus>)
      reads this, cluster, cluster.files, cluster.jobs, cluster.queue
    {
      r.Conflict? ==> !CanCreate(cluster.Now().db, key, jobType, from)
    }

    /** The row does not allow the call, or could not be read. */
    ghost predicate Refused(r: Outcome, key: FileKey, from: set<FileStatus>)
      reads this, cluster, cluster.files
    {
      match r
      case Missing => key !in cluster.files.files
      case Conflict => key in cluster.files.files && cluster.files.files[key].status !in from
      case Internal => true
      case _ => false
    }

    method IndexFile(c: nat, id: JobId, key: FileKey)
        returns (r: Outcome, ghost acts: seq<Action>, ghost at: nat, ghost was: State)
      requires cluster.Valid() && c !in cluster.clients
      modifies cluster, cluster.files, cluster.jobs, cluster.queue, cluster.world
      ensures c !in cluster.clients && QueuedIn(cluster.Now(), r, key)
          && old(cluster.world.refused) <= cluster.world.refused
      ensures cluster.Valid() && old(cluster.trace) <= cluster.trace
          && (ItemFits(cluster.Now(), r, id, key) || Failed())
      ensures acts == [] ==> Did(c, []) && Refused(r, key, INDEXABLE) && (r.Internal? ==> Failed())
      ensures acts != [] ==> Did(c, [AskIndex(c, key)] + acts) && Enqueues(c, id, r, acts)
      ensures acts != [] ==> Explained(r, key, IndexJob, INDEXABLE) && (r.Unavailable? ==> Failed())
      ensures r.Internal? ==> Failed() || id in cluster.jobs.jobs
      ensures (acts == [] && r.Internal?) || Since(|old(cluster.trace)|, at, was)
      ensures !(acts == [] && r.Internal?) ==>
                && (r.Missing? <==> key !in was.db.files)
                && (acts == [] && r.Conflict? <==>
                      Stood(was, key, {Uploaded, ParseQueued, Parsing, ParseFailed, IndexQueued, Indexing}))
                && (acts != [] <==> Stood(was, key, {Parsed, IndexFailed, Indexed}))
      ensures r.Enqueued? || r.Unavailable? || Failed() || id in cluster.jobs.jobs || key !in cluster.files.files
           || cluster.files.files[key].status in {Uploaded, ParseQueued, Parsing, ParseFailed, IndexQueued, Indexing}
           || HasActive(cluster.jobs.jobs, key, IndexJob)
    {
      hide Leads, Own, Enqueues, HasActive;
      var file, answered;
      file, answered, at, was := ReadFile(c, key);
      if !answered {
        return Internal, [], at, was;
      }
      if file.None? {
        return Missing, [], at, was;
      }
      Statuses(file.value.status);
      if file.value.status !in INDEXABLE {
        return Conflict, [], at, was;
      }
      ghost var trace := cluster.trace;
      cluster.Commit(AskIndex(c, key), cluster.Now());
      r, acts := Enqueue(c, id, key, IndexJob, INDEXABLE, 1, false);
      EnqueuesSomething(c, id, r, acts);
      Joined(Own(old(cluster.trace), Calling(c)), [AskIndex(c, key)], acts);
      assert cluster.trace[..at] == trace;
      if key in cluster.files.files { Statuses(cluster.files.files[key].status); }
    }

    /** The cluster was in this state when its trace had this length. */
    ghost predicate Seen(at: nat, s: State)
      reads this, cluster
    {
      at <= |cluster.trace| && Leads(INIT, cluster.trace[..at], s)
    }

    /** The request's files one by one. Each ends in exactly one of the two lists, in the order of the request. Every
        queued item names a published index job of its file; every rejected one was missing or could not be created at
        the time of its own call, or some call had failed. */
    method IndexFiles(c: nat, ids: seq<JobId>, keys: seq<FileKey>) returns (queued: seq<(FileKey, JobId)>,
        failed: seq<(FileKey, Outcome)>, ghost results: seq<Outcome>, ghost seen: seq<State>, ghost at: seq<nat>)
      requires cluster.Valid() && c !in cluster.clients && |ids| == |keys|
      modifies cluster, cluster.files, cluster.jobs, cluster.queue, cluster.world
      ensures cluster.Valid() && old(cluster.trace) <= cluster.trace && c !in cluster.clients
      ensures |results| == |keys| && queued == QueuedItems(keys, results) && failed == FailedItems(keys, results)
      ensures forall i :: 0 <= i < |keys| ==> QueuedIn(cluster.Now(), results[i], keys[i])
      ensures |seen| == |at| == |keys|
      ensures forall i :: 0 <= i < |keys| ==>
          Seen(at[i], seen[i]) && (ItemFits(seen[i], results[i], ids[i], keys[i]) || Failed())
    {
      hide Leads, QueuedIn, ItemFits, QueuedItems, FailedItems, Own;
      queued, failed, results, seen, at := [], [], [], [], [];
      NoItems(keys);
      for i := 0 to |keys|
        invariant cluster.Valid() && old(cluster.trace) <= cluster.trace && c !in cluster.clients
        invariant old(cluster.world.refused) <= cluster.world.refused
        invariant |results| == |seen| == |at| == i
        invariant queued == QueuedItems(keys[..i], results) && failed == FailedItems(keys[..i], results)
        invariant forall j :: 0 <= j < i ==> QueuedIn(cluster.Now(), results[j], keys[j])
        invariant forall j :: 0 <= j < i ==>
            Seen(at[j], seen[j]) && (ItemFits(seen[j], results[j], ids[j], keys[j]) || Failed())
      {
        ghost var was, trace := cluster.Now(), cluster.trace;
        var r;
        ghost var acts, when, row;
        r, acts, when, row := IndexFile(c, ids[i], keys[i]);
        forall j | 0 <= j < i
          ensures QueuedIn(cluster.Now(), results[j], keys[j]) && Seen(at[j], seen[j])
        {
          QueuedStays(trace, was, cluster.trace, cluster.Now(), results[j], keys[j]);
          assert cluster.trace[..at[j]] == trace[..at[j]];
        }
        assert cluster.trace[..|cluster.trace|] == cluster.trace;
        ItemsSnoc(keys, results, i, r);
        results, seen, at := results + [r], seen + [cluster.Now()], at + [|cluster.trace|];
        match r {
          case Enqueued(job) => queued := queued + [(keys[i], job)];
          case _ => failed := failed + [(keys[i], r)];
        }
      }
      assert keys[..|keys|] == keys;
    }

    /** The same for a job. */
    method ReadJob(c: nat, id: JobId) returns (job: Option<JobRow>, answered: bool, ghost at: nat, ghost was: State)
      requires cluster.Valid() && c !in cluster.clients
      modifies cluster, cluster.files, cluster.jobs, cluster.queue, cluster.world
      ensures Did(c, []) && c !in cluster.clients && was == cluster.Now() && at == |cluster.trace|
      ensures Since(|old(cluster.trace)|, at, was) && cluster.trace[..at] == cluster.trace
      ensures if answered then job == (if id in was.db.jobs then Some(was.db.jobs[id]) else None) else Failed()
    {
      hide Leads, Own, Enabled, Apply;
      var answer := Turn(c);
      answered := answer.Works?;
      at, was := |cluster.trace|, cluster.Now();
      assert cluster.trace[..at] == cluster.trace;
      job := None;
      if answered {
        job := cluster.jobs.FindByJobID(id);
      }
    }

    /** A new job for a failed one: from parse_failed for a parse job, from index_failed for an index job. */
    method Retry(c: nat, id: JobId, failedId: JobId)
        returns (r: Outcome, ghost row: Option<JobRow>, ghost acts: seq<Action>, ghost at: nat, ghost was: State)
      requires cluster.Valid() && c !in cluster.clients
      modifies cluster, cluster.files, cluster.jobs, cluster.queue, cluster.world
      ensures c !in cluster.clients
      ensures r.Internal? ==> Failed() || id in cluster.jobs.jobs
      ensures r.Unavailable? ==> Failed()
      ensures acts == [] ==> Did(c, []) && (r.Missing? || r.Conflict? || r.Internal?) && (r.Internal? ==> Failed())
      ensures (acts == [] && r.Internal?) || Since(|old(cluster.trace)|, at, was)
      ensures !(acts == [] && r.Internal?) ==>
                && row == (if failedId in was.db.jobs then Some(was.db.jobs[failedId]) else None)
                && (r.Missing? <==> row.None?)
                && (acts == [] && r.Conflict? <==>
                      row.Some? && row.value.status in {Pending, Running, JobStatus.Succeeded, Cancelled})
                && (acts != [] <==> row.Some? && row.value.status == JobStatus.Failed)
      ensures acts != [] ==> row.Some? && Did(c, [AskRetry(c, failedId)] + acts) && Enqueues(c, id, r, acts)
                             && (r.Enqueued? ==> Published(id, row.value.key, row.value.jobType))
      ensures acts != [] && r.Conflict? ==>
                var from := if row.value.jobType.ParseJob? then ParseFailed else IndexFailed;
                !CanCreate(cluster.Now().db, row.value.key, row.value.jobType, {from})
      ensures r.Enqueued? || r.Unavailable? || Failed() || id in cluster.jobs.jobs || row.None?
           || row.value.status != JobStatus.Failed || row.value.key !in cluster.files.files
           || cluster.files.files[row.value.key].status
              != (if row.value.jobType.ParseJob? then ParseFailed else IndexFailed)
           || HasActive(cluster.jobs.jobs, row.value.key, row.value.jobType)
    {
      hide Leads, Own, Enqueues, HasActive;
      var found, answered;
      found, answered, at, was := ReadJob(c, failedId);
      if !answered {
        return Internal, None, [], at, was;
      }
      if found.None? {
        return Missing, None, [], at, was;
      }
      var job := found.value;
      row := found;
      if !job.status.Failed? {
        return Conflict, row, [], at, was;
      }
      ghost var trace := cluster.trace;
      cluster.Commit(AskRetry(c, failedId), cluster.Now());
      r, acts := Enqueue(c, id, job.key, job.jobType, {FailedStatus(job.jobType)}, job.maxAttempts, false);
      EnqueuesSomething(c, id, r, acts);
      Joined(Own(old(cluster.trace), Calling(c)), [AskRetry(c, failedId)], acts);
      assert cluster.trace[..at] == trace;
    }

    method CancelQueued(c: nat, key: FileKey) returns (ok: bool)
      requires cluster.Valid() && In(cluster.Now(), c, Cancelling(key))
      modifies cluster, cluster.files, cluster.jobs, cluster.queue, cluster.world
      ensures Did(c, [if ok then CancelJobs(c) else ClientStops(c)]) && (!ok ==> Failed())
      ensures if ok then In(cluster.Now(), c, Removing(key)) else c !in cluster.clients
    {
      hide Leads, CancelPending, Own;
      var answer := Turn(c);
      var before := cluster.Now();
      if answer.Fails? {
        cluster.Commit(ClientStops(c), before);
        return false;
      }
      cluster.jobs.CancelPendingByFile(key);
      cluster.Commit(CancelJobs(c), before);
      return true;
    }

    method Remove(c: nat, key: FileKey) returns (removed: bool)
      requires cluster.Valid() && In(cluster.Now(), c, Removing(key))
      modifies cluster, cluster.files, cluster.jobs, cluster.queue, cluster.world
      ensures Did(c, [if removed then RemoveFile(c) else ClientStops(c)]) && c !in cluster.clients
          && (!removed ==> Failed())
      ensures removed ==> key !in cluster.files.files
    {
      hide Leads, Own;
      var answer := Turn(c);
      var before := cluster.Now();
      if answer.Fails? {
        cluster.Commit(ClientStops(c), before);
        return false;
      }
      cluster.files.Delete(key);
      cluster.Commit(RemoveFile(c), before);
      return true;
    }

    method CancelAndRemove(c: nat, key: FileKey, queued: bool) returns (done: bool, ghost acts: seq<Action>)
      requires cluster.Valid() && In(cluster.Now(), c, if queued then Cancelling(key) else Removing(key))
      modifies cluster, cluster.files, cluster.jobs, cluster.queue, cluster.world
      ensures Did(c, acts) && Deletes(c, queued, done, acts) && c !in cluster.clients
      ensures if done then key !in cluster.files.files else Failed()
    {
      hide Leads, Own, Enabled, Apply;
      acts := [];
      ghost var own := Own(cluster.trace, Calling(c));
      Joined(own, [], []);
      if queued {
        var cancelled := CancelQueued(c, key);
        acts := [if cancelled then CancelJobs(c) else ClientStops(c)];
        if !cancelled {
          return false, acts;
        }
      }
      done := Remove(c, key);
      Joined(own, acts, [if done then RemoveFile(c) else ClientStops(c)]);
      acts := acts + [if done then RemoveFile(c) else ClientStops(c)];
    }

    /** Delete: pending jobs of a queued file are cancelled first; a file being worked on is refused. */
    method Delete(c: nat, key: FileKey)
        returns (r: Deletion, ghost row: Option<FileRow>, ghost acts: seq<Action>, ghost at: nat, ghost was: State)
      requires cluster.Valid() && c !in cluster.clients
      modifies cluster, cluster.files, cluster.jobs, cluster.queue, cluster.world
      ensures c !in cluster.clients && (r.Deleted? ==> key !in cluster.files.files)
      ensures acts == [] ==> Did(c, []) && r.NotDeleted? && Refused(r.why, key, DELETABLE)
      ensures r.NotDeleted? && (acts != [] || r.why.Internal?) ==> Failed()
      ensures (acts == [] && r.why.Internal?) || Since(|old(cluster.trace)|, at, was)
      ensures !(acts == [] && r.why.Internal?) ==>
                && row == (if key in was.db.files then Some(was.db.files[key]) else None)
                && (r == NotDeleted(Missing) <==> row.None?)
                && (r == NotDeleted(Conflict) <==> row.Some? && row.value.status in {Parsing, Indexing})
      ensures acts != [] ==>
          row.Some? && row.value.status !in {Parsing, Indexing} && Did(c, [AskDelete(c, key)] + acts)
          && Deletes(c, row.value.status in {ParseQueued, IndexQueued}, r.Deleted?, acts)
    {
      hide Leads, Own, Deletes;
      row, acts, at, was := None, [], 0, cluster.Now();
      var file, answered;
      file, answered, at, was := ReadFile(c, key);
      row := file;
      if !answered {
        return NotDeleted(Internal), None, [], at, was;
      }
      if file.None? {
        return NotDeleted(Missing), None, [], at, was;
      }
      if file.value.status in {Parsing, Indexing} {
        return NotDeleted(Conflict), row, [], at, was;
      }
      ghost var trace := cluster.trace;
      cluster.Commit(AskDelete(c, key), cluster.Now());
      var done;
      done, acts := CancelAndRemove(c, key, file.value.status in {ParseQueued, IndexQueued});
      DeletesSomething(c, file.value.status in {ParseQueued, IndexQueued}, done, acts);
      Joined(Own(old(cluster.trace), Calling(c)), [AskDelete(c, key)], acts);
      assert cluster.trace[..at] == trace;
      r := if done then Deleted else NotDeleted(Internal);
    }
  }

  lemma {:induction false} DeletesSomething(c: nat, queued: bool, done: bool, acts: seq<Action>)
    requires Deletes(c, queued, done, acts)
    ensures acts != []
  {
  }

  /** As long as no publish has failed and nothing has been deleted, a file that is queued for indexing or being indexed
      has an active job; and once no job is active, it is not stuck there. */
  lemma {:induction false} IndexingMovesOn(c: Cluster, key: FileKey)
    requires c.Valid() && CalmRun(c.trace) && key in c.files.files
    ensures c.files.files[key].status in {IndexQueued, Indexing} ==> HasActive(c.jobs.jobs, key, IndexJob)
  {
    hide Run, After, HasActive, CalmRun;
    if c.files.files[key].status in {IndexQueued, Indexing} {
      IndexingIsNeverStuck(c.trace, key);
    }
  }
}
