/** What the handling of one message, and one call of a service, does to the tables and the stream when no other process
    acts in between: the rows that are left, written out. */
module HandlingLaws {
  import opened Optional
  import opened Protocol

  // One task, step by step ---------------------------------------------------------------------------------------

  function Works(tid: nat, rs: seq<World>): seq<Action> {
    if rs == [] then [] else Works(tid, rs[..|rs| - 1]) + [Work(tid, rs[|rs| - 1])]
  }

  /** The message is the next of the stream, or one that is pending. */
  predicate Delivers(s: State, tid: nat, e: nat, reclaimed: bool) {
    tid !in s.tasks && e < |s.stream.entries| && if reclaimed then e in s.stream.pending else e == s.stream.cursor
  }

  function Delivery(tid: nat, w: WorkerId, e: nat, reclaimed: bool): Action {
    if reclaimed then Reclaim(tid, w, e) else Consume(tid, w)
  }

  /** Delivered to the worker and not yet acknowledged. */
  function Taken(s: State, w: WorkerId, e: nat, reclaimed: bool): Stream {
    Stream(s.stream.entries, if reclaimed then s.stream.cursor else e + 1, s.stream.pending[e := w])
  }

  /** Acknowledged. */
  function Settled(s: State, e: nat, reclaimed: bool): Stream {
    Stream(s.stream.entries, if reclaimed then s.stream.cursor else e + 1, s.stream.pending - {e})
  }

  function At(s: State, tid: nat, t: Task, db: Tables, stream: Stream): State {
    State(db, stream, s.tasks[tid := t], s.clients, s.known, s.published)
  }

  function DbAfter(db: Tables, id: JobId, t: Task, r: World): Tables {
    Tables(if t.job.Some? then FilesAfter(db.files, t, r) else db.files, JobsAfter(db.jobs, id, t))
  }

  lemma {:induction false} Begin(s: State, tid: nat, w: WorkerId, e: nat, reclaimed: bool)
    requires Delivers(s, tid, e, reclaimed)
    ensures Leads(s, [Delivery(tid, w, e, reclaimed)] + Works(tid, []),
                  At(s, tid, NewTask(w, e, reclaimed), s.db, Taken(s, w, e, reclaimed)))
  {
    hide Leads;
    assert Leads(s, [], s) by { Standing(s); }
    LeadsOn(s, [], s, Delivery(tid, w, e, reclaimed));
    assert [] + [Delivery(tid, w, e, reclaimed)] == [Delivery(tid, w, e, reclaimed)] + Works(tid, []);
  }

  lemma {:induction false} Standing(s: State)
    ensures Leads(s, [], s)
  {
  }

  lemma {:induction false} Advance(s: State, a: Action, rs: seq<World>, tid: nat, t: Task, db: Tables, stream: Stream,
      r: World, next: Task)
    requires Leads(s, [a] + Works(tid, rs), At(s, tid, t, db, stream))
        && Enabled(At(s, tid, t, db, stream), Work(tid, r))
    requires NextOf(db, stream.entries[t.entry], t, r) == Goes(next)
    ensures Leads(s, [a] + Works(tid, rs + [r]),
                  At(s, tid, next, DbAfter(db, stream.entries[t.entry], t, r), stream))
  {
    hide Leads, Enabled, NextOf, FilesAfter, JobsAfter;
    LeadsOn(s, [a] + Works(tid, rs), At(s, tid, t, db, stream), Work(tid, r));
    OneWork(a, tid, rs, r);
    assert s.tasks[tid := t][tid := next] == s.tasks[tid := next];
  }

  lemma {:induction false} Leave(s: State, a: Action, rs: seq<World>, tid: nat, t: Task, db: Tables, stream: Stream,
      r: World)
    requires tid !in s.tasks && Leads(s, [a] + Works(tid, rs), At(s, tid, t, db, stream))
    requires Enabled(At(s, tid, t, db, stream), Work(tid, r))
    requires !NextOf(db, stream.entries[t.entry], t, r).Goes?
    ensures var next := NextOf(db, stream.entries[t.entry], t, r);
            Leads(s, [a] + Works(tid, rs + [r]),
                  State(DbAfter(db, stream.entries[t.entry], t, r),
                        if next.Acks? then stream.(pending := stream.pending - {t.entry}) else stream,
                        s.tasks, s.clients, s.known, s.published))
  {
    hide Leads, Enabled, NextOf, FilesAfter, JobsAfter;
    LeadsOn(s, [a] + Works(tid, rs), At(s, tid, t, db, stream), Work(tid, r));
    OneWork(a, tid, rs, r);
    assert s.tasks[tid := t] - {tid} == s.tasks;
  }

  lemma {:induction false} OneWork(a: Action, tid: nat, rs: seq<World>, r: World)
    ensures [a] + Works(tid, rs) + [Work(tid, r)] == [a] + Works(tid, rs + [r])
  {
    assert (rs + [r])[..|rs|] == rs;
  }

  // From the message to the first call on the file ----------------------------------------------------------------

  const ANY := Good("any")

  /** The job may be taken: it waits, or the message is taken over from another worker. */
  predicate Takeable(s: State, id: JobId, reclaimed: bool) {
    id in s.db.jobs && (s.db.jobs[id].status == Pending || (reclaimed && s.db.jobs[id].status == Running))
  }

  /** The job's row while the worker is at it: the attempt counts unless the message was taken over. */
  function Started(row: JobRow, w: WorkerId, reclaimed: bool): JobRow {
    JobRow(row.key, row.jobType, Running, if reclaimed then row.attempt else row.attempt + 1, row.maxAttempts, Some(w),
           row.error)
  }

  predicate Spent(row: JobRow) { row.maxAttempts > 0 && row.attempt > row.maxAttempts }

  function DbStarted(s: State, id: JobId, w: WorkerId, reclaimed: bool): Tables
    requires id in s.db.jobs
  {
    Tables(s.db.files, s.db.jobs[id := Started(s.db.jobs[id], w, reclaimed)])
  }

  lemma {:induction false} ClaimedAndRead(s: State, tid: nat, w: WorkerId, e: nat, reclaimed: bool)
    requires Delivers(s, tid, e, reclaimed) && Takeable(s, s.stream.entries[e], reclaimed)
    ensures var id := s.stream.entries[e];
            var row := Started(s.db.jobs[id], w, reclaimed);
            Leads(s, [Delivery(tid, w, e, reclaimed)] + Works(tid, [ANY, ANY]),
                  At(s, tid, Task(w, e, reclaimed, Some(row), "",
                                  if Spent(row) then Failing(MaxAttemptsExceeded) else Finding),
                     DbStarted(s, id, w, reclaimed), Taken(s, w, e, reclaimed)))
  {
    hide Leads, Works;
    var id, a, stream := s.stream.entries[e], Delivery(tid, w, e, reclaimed), Taken(s, w, e, reclaimed);
    var t := NewTask(w, e, reclaimed);
    var row, db := Started(s.db.jobs[id], w, reclaimed), DbStarted(s, id, w, reclaimed);
    Begin(s, tid, w, e, reclaimed);
    Advance(s, a, [], tid, t, s.db, stream, ANY, t.(phase := Reading));
    assert [] + [ANY] == [ANY];
    assert DbAfter(s.db, id, t, ANY) == db;
    Advance(s, a, [ANY], tid, t.(phase := Reading), db, stream, ANY,
            Task(w, e, reclaimed, Some(row), "", if Spent(row) then Failing(MaxAttemptsExceeded) else Finding));
    assert [ANY] + [ANY] == [ANY, ANY];
  }

  lemma {:induction false} Found(s: State, tid: nat, w: WorkerId, e: nat, reclaimed: bool)
    requires Delivers(s, tid, e, reclaimed) && Takeable(s, s.stream.entries[e], reclaimed)
    requires !Spent(Started(s.db.jobs[s.stream.entries[e]], w, reclaimed))
    ensures var id := s.stream.entries[e];
            var row := Started(s.db.jobs[id], w, reclaimed);
            Leads(s, [Delivery(tid, w, e, reclaimed)] + Works(tid, [ANY, ANY, ANY]),
                  At(s, tid,
                     if row.key in s.db.files then
                       Task(w, e, reclaimed, Some(row), s.db.files[row.key].markdown,
                            if row.jobType.ParseJob? then ParseStart else IndexStart)
                     else Task(w, e, reclaimed, Some(row), "", Failing(FileNotFound)),
                     DbStarted(s, id, w, reclaimed), Taken(s, w, e, reclaimed)))
  {
    hide Leads, Works;
    var id, a, stream := s.stream.entries[e], Delivery(tid, w, e, reclaimed), Taken(s, w, e, reclaimed);
    var row, db := Started(s.db.jobs[id], w, reclaimed), DbStarted(s, id, w, reclaimed);
    ClaimedAndRead(s, tid, w, e, reclaimed);
    Advance(s, a, [ANY, ANY], tid, Task(w, e, reclaimed, Some(row), "", Finding), db, stream, ANY,
            if row.key in s.db.files then
              Task(w, e, reclaimed, Some(row), s.db.files[row.key].markdown,
                   if row.jobType.ParseJob? then ParseStart else IndexStart)
            else Task(w, e, reclaimed, Some(row), "", Failing(FileNotFound)));
    assert [ANY, ANY] + [ANY] == [ANY, ANY, ANY];
  }

  /** From closing the job on: its row is closed and the message acknowledged. */
  lemma {:induction false} Closes(s: State, a: Action, rs: seq<World>, tid: nat, t: Task, db: Tables, e: nat,
      reclaimed: bool, w: WorkerId)
    requires tid !in s.tasks && e < |s.stream.entries| && t.entry == e && t.job.Some?
        && (t.phase.Failing? || t.phase.Succeeding?)
    requires s.stream.entries[e] in db.jobs
        && Leads(s, [a] + Works(tid, rs), At(s, tid, t, db, Taken(s, w, e, reclaimed)))
    ensures var id := s.stream.entries[e];
            var row := db.jobs[id];
            var closed := if t.phase.Succeeding? then row.(status := JobStatus.Succeeded)
                          else row.(status := JobStatus.Failed, error := Some(t.phase.code));
            Leads(s, [a] + Works(tid, rs + [ANY, ANY]),
                  State(Tables(db.files, db.jobs[id := closed]), Settled(s, e, reclaimed), s.tasks, s.clients, s.known,
                        s.published))
  {
    hide Leads, Works;
    var id, stream := s.stream.entries[e], Taken(s, w, e, reclaimed);
    Advance(s, a, rs, tid, t, db, stream, ANY, t.(phase := Acking));
    var closing := DbAfter(db, id, t, ANY);
    Leave(s, a, rs + [ANY], tid, t.(phase := Acking), closing, stream, ANY);
    assert rs + [ANY] + [ANY] == rs + [ANY, ANY];
    assert stream.pending - {e} == s.stream.pending - {e};
  }

  // Whole handlings ----------------------------------------------------------------------------------------------

  /** The handling has begun, of a job of that type whose file is there and whose attempts are not used up. */
  predicate Handles(s: State, tid: nat, w: WorkerId, e: nat, reclaimed: bool, jobType: JobType) {
    && Delivers(s, tid, e, reclaimed) && Takeable(s, s.stream.entries[e], reclaimed)
    && !Spent(Started(s.db.jobs[s.stream.entries[e]], w, reclaimed))
    && s.db.jobs[s.stream.entries[e]].jobType == jobType && s.db.jobs[s.stream.entries[e]].key in s.db.files
  }

  /** The message is acknowledged; the file's row and the job's row are these, and all else is as before. */
  function Handled(s: State, e: nat, reclaimed: bool, file: FileRow, job: JobRow): State
    requires e < |s.stream.entries|
  {
    State(Tables(s.db.files[job.key := file], s.db.jobs[s.stream.entries[e] := job]), Settled(s, e, reclaimed), s.tasks,
          s.clients, s.known, s.published)
  }

  /** The job's row after its end. */
  function Ended(row: JobRow, w: WorkerId, reclaimed: bool, status: JobStatus, error: Option<ErrorCode>): JobRow {
    JobRow(row.key, row.jobType, status, if reclaimed then row.attempt else row.attempt + 1, row.maxAttempts, Some(w),
           error)
  }

  lemma {:induction false} HandledIs(s: State, w: WorkerId, e: nat, reclaimed: bool, files: Files, file: FileRow,
      status: JobStatus, error: Option<ErrorCode>)
    requires e < |s.stream.entries| && s.stream.entries[e] in s.db.jobs
    requires files == s.db.files[s.db.jobs[s.stream.entries[e]].key := file]
    ensures var id := s.stream.entries[e];
            var was, row := s.db.jobs[id], Started(s.db.jobs[id], w, reclaimed);
            State(Tables(files, DbStarted(s, id, w, reclaimed).jobs[id := row.(status := status, error := error)]),
                  Settled(s, e, reclaimed), s.tasks, s.clients, s.known, s.published) ==
            Handled(s, e, reclaimed, file, Ended(was, w, reclaimed, status, error))
  {
  }

  /** The replies of the outside world to one handling: first is what the start of an index job gets, second what
      storage, parser or indexer answer. */
  function Replies(first: World, second: World): seq<World> {
    [ANY, ANY, ANY] + [first] + [second] + [ANY] + [ANY, ANY]
  }

  /** Parsing that goes well leaves the file parsed, with the path of its Markdown, and the job succeeded. */
  lemma {:induction false} ParsedExactly(s: State, tid: nat, w: WorkerId, e: nat, reclaimed: bool, text: string)
    requires Handles(s, tid, w, e, reclaimed, ParseJob) && text != ""
    requires s.db.files[s.db.jobs[s.stream.entries[e]].key].status == ParseQueued
    ensures var row := s.db.jobs[s.stream.entries[e]];
            Leads(s, [Delivery(tid, w, e, reclaimed)] + Works(tid, Replies(ANY, Good(text))),
                  Handled(s, e, reclaimed, FileRow(Parsed, text),
                          Ended(row, w, reclaimed, JobStatus.Succeeded, row.error)))
  {
    hide Leads, Works, Handled, Settled;
    var id, a, stream := s.stream.entries[e], Delivery(tid, w, e, reclaimed), Taken(s, w, e, reclaimed);
    var was := s.db.jobs[id];
    var row, file := Started(was, w, reclaimed), s.db.files[was.key];
    var t, rs := Task(w, e, reclaimed, Some(row), file.markdown, ParseStart), [ANY, ANY, ANY];
    Found(s, tid, w, e, reclaimed);
    var db := DbStarted(s, id, w, reclaimed);
    Advance(s, a, rs, tid, t, db, stream, ANY, t.(phase := ParseWork));
    var parsing := Tables(s.db.files[was.key := FileRow(Parsing, file.markdown)], db.jobs);
    Advance(s, a, rs + [ANY], tid, t.(phase := ParseWork), parsing, stream, Good(text), t.(phase := ParseEnd(text)));
    Advance(s, a, rs + [ANY] + [Good(text)], tid, t.(phase := ParseEnd(text)), parsing, stream, ANY,
            t.(phase := Succeeding));
    var parsed := Tables(s.db.files[was.key := FileRow(Parsed, text)], db.jobs);
    assert DbAfter(parsing, id, t.(phase := ParseEnd(text)), ANY) == parsed;
    Closes(s, a, rs + [ANY] + [Good(text)] + [ANY], tid, t.(phase := Succeeding), parsed, e, reclaimed, w);
    HandledIs(s, w, e, reclaimed, parsed.files, FileRow(Parsed, text), JobStatus.Succeeded, was.error);
  }

  /** Parsing that fails leaves the file in parse_failed, its path as it was, and the job failed with the code. */
  lemma {:induction false} ParseFailedExactly(s: State, tid: nat, w: WorkerId, e: nat, reclaimed: bool, code: ErrorCode)
    requires Handles(s, tid, w, e, reclaimed, ParseJob) && code in {StorageReadFailed, ParserFailed, StorageWriteFailed}
    requires s.db.files[s.db.jobs[s.stream.entries[e]].key].status == ParseQueued
    ensures var row := s.db.jobs[s.stream.entries[e]];
            Leads(s, [Delivery(tid, w, e, reclaimed)] + Works(tid, Replies(ANY, Bad(code))),
                  Handled(s, e, reclaimed, FileRow(ParseFailed, s.db.files[row.key].markdown),
                          Ended(row, w, reclaimed, JobStatus.Failed, Some(code))))
  {
    hide Leads, Works, Handled, Settled;
    var id, a, stream := s.stream.entries[e], Delivery(tid, w, e, reclaimed), Taken(s, w, e, reclaimed);
    var was := s.db.jobs[id];
    var row, file := Started(was, w, reclaimed), s.db.files[was.key];
    var t, rs := Task(w, e, reclaimed, Some(row), file.markdown, ParseStart), [ANY, ANY, ANY];
    Found(s, tid, w, e, reclaimed);
    var db := DbStarted(s, id, w, reclaimed);
    Advance(s, a, rs, tid, t, db, stream, ANY, t.(phase := ParseWork));
    var parsing := Tables(s.db.files[was.key := FileRow(Parsing, file.markdown)], db.jobs);
    Advance(s, a, rs + [ANY], tid, t.(phase := ParseWork), parsing, stream, Bad(code), t.(phase := ParseFail(code)));
    Advance(s, a, rs + [ANY] + [Bad(code)], tid, t.(phase := ParseFail(code)), parsing, stream, ANY,
            t.(phase := Failing(code)));
    var failed := Tables(s.db.files[was.key := FileRow(ParseFailed, file.markdown)], db.jobs);
    assert DbAfter(parsing, id, t.(phase := ParseFail(code)), ANY) == failed;
    Closes(s, a, rs + [ANY] + [Bad(code)] + [ANY], tid, t.(phase := Failing(code)), failed, e, reclaimed, w);
    HandledIs(s, w, e, reclaimed, failed.files, FileRow(ParseFailed, file.markdown), JobStatus.Failed, Some(code));
  }

  /** Indexing that goes well leaves the file indexed, its path as it was, and the job succeeded. */
  lemma {:induction false} IndexedExactly(s: State, tid: nat, w: WorkerId, e: nat, reclaimed: bool)
    requires Handles(s, tid, w, e, reclaimed, IndexJob)
    requires s.db.files[s.db.jobs[s.stream.entries[e]].key].status == IndexQueued
    requires s.db.files[s.db.jobs[s.stream.entries[e]].key].markdown != ""
    ensures var row := s.db.jobs[s.stream.entries[e]];
            Leads(s, [Delivery(tid, w, e, reclaimed)] + Works(tid, Replies(ANY, ANY)),
                  Handled(s, e, reclaimed, FileRow(Indexed, s.db.files[row.key].markdown),
                          Ended(row, w, reclaimed, JobStatus.Succeeded, row.error)))
  {
    hide Leads, Works, Handled, Settled;
    var id, a, stream := s.stream.entries[e], Delivery(tid, w, e, reclaimed), Taken(s, w, e, reclaimed);
    var was := s.db.jobs[id];
    var row, file := Started(was, w, reclaimed), s.db.files[was.key];
    var t, rs := Task(w, e, reclaimed, Some(row), file.markdown, IndexStart), [ANY, ANY, ANY];
    Found(s, tid, w, e, reclaimed);
    var db := DbStarted(s, id, w, reclaimed);
    Advance(s, a, rs, tid, t, db, stream, ANY, t.(phase := IndexWork));
    var indexing := Tables(s.db.files[was.key := FileRow(Indexing, file.markdown)], db.jobs);
    Advance(s, a, rs + [ANY], tid, t.(phase := IndexWork), indexing, stream, ANY, t.(phase := IndexEnd));
    Advance(s, a, rs + [ANY] + [ANY], tid, t.(phase := IndexEnd), indexing, stream, ANY, t.(phase := Succeeding));
    var indexed := Tables(s.db.files[was.key := FileRow(Indexed, file.markdown)], db.jobs);
    assert DbAfter(indexing, id, t.(phase := IndexEnd), ANY) == indexed;
    Closes(s, a, rs + [ANY] + [ANY] + [ANY], tid, t.(phase := Succeeding), indexed, e, reclaimed, w);
    HandledIs(s, w, e, reclaimed, indexed.files, FileRow(Indexed, file.markdown), JobStatus.Succeeded, was.error);
  }

  /** Indexing that fails leaves the file in index_failed, its path as it was, and the job failed with the code. */
  lemma {:induction false} IndexFailedExactly(s: State, tid: nat, w: WorkerId, e: nat, reclaimed: bool, code: ErrorCode)
    requires Handles(s, tid, w, e, reclaimed, IndexJob) && code in {StorageReadFailed, RagIndexFailed}
    requires s.db.files[s.db.jobs[s.stream.entries[e]].key].status == IndexQueued
    requires s.db.files[s.db.jobs[s.stream.entries[e]].key].markdown != ""
    ensures var row := s.db.jobs[s.stream.entries[e]];
            Leads(s, [Delivery(tid, w, e, reclaimed)] + Works(tid, Replies(ANY, Bad(code))),
                  Handled(s, e, reclaimed, FileRow(IndexFailed, s.db.files[row.key].markdown),
                          Ended(row, w, reclaimed, JobStatus.Failed, Some(code))))
  {
    hide Leads, Works, Handled, Settled;
    var id, a, stream := s.stream.entries[e], Delivery(tid, w, e, reclaimed), Taken(s, w, e, reclaimed);
    var was := s.db.jobs[id];
    var row, file := Started(was, w, reclaimed), s.db.files[was.key];
    var t, rs := Task(w, e, reclaimed, Some(row), file.markdown, IndexStart), [ANY, ANY, ANY];
    Found(s, tid, w, e, reclaimed);
    var db := DbStarted(s, id, w, reclaimed);
    Advance(s, a, rs, tid, t, db, stream, ANY, t.(phase := IndexWork));
    var indexing := Tables(s.db.files[was.key := FileRow(Indexing, file.markdown)], db.jobs);
    Advance(s, a, rs + [ANY], tid, t.(phase := IndexWork), indexing, stream, Bad(code), t.(phase := IndexFail(code)));
    FailsIndexing(s, tid, w, e, reclaimed, rs + [ANY] + [Bad(code)], t.(phase := IndexFail(code)), indexing);
  }

  /** From the failure of an index job on. */
  lemma {:induction false} FailsIndexing(s: State, tid: nat, w: WorkerId, e: nat, reclaimed: bool, rs: seq<World>,
      t: Task,
      db: Tables)
    requires Delivers(s, tid, e, reclaimed) && s.stream.entries[e] in s.db.jobs
    requires var was := s.db.jobs[s.stream.entries[e]];
             && t.entry == e && t.job == Some(Started(was, w, reclaimed)) && t.phase.IndexFail?
             && db.jobs == DbStarted(s, s.stream.entries[e], w, reclaimed).jobs && was.key in s.db.files
             && (db.files == s.db.files || db.files == s.db.files[was.key := FileRow(Indexing,
                 s.db.files[was.key].markdown)])
             && db.files[was.key].status in {IndexQueued, Indexing}
    requires Leads(s, [Delivery(tid, w, e, reclaimed)] + Works(tid, rs), At(s, tid, t, db, Taken(s, w, e, reclaimed)))
    ensures var row := s.db.jobs[s.stream.entries[e]];
            Leads(s, [Delivery(tid, w, e, reclaimed)] + Works(tid, rs + [ANY] + [ANY, ANY]),
                  Handled(s, e, reclaimed, FileRow(IndexFailed, s.db.files[row.key].markdown),
                          Ended(row, w, reclaimed, JobStatus.Failed, Some(t.phase.code))))
  {
    hide Leads, Works, Handled, Settled;
    var id, a, stream := s.stream.entries[e], Delivery(tid, w, e, reclaimed), Taken(s, w, e, reclaimed);
    var was, code := s.db.jobs[id], t.phase.code;
    var file := s.db.files[was.key];
    Advance(s, a, rs, tid, t, db, stream, ANY, t.(phase := Failing(code)));
    var failed := Tables(s.db.files[was.key := FileRow(IndexFailed, file.markdown)], db.jobs);
    assert DbAfter(db, id, t, ANY) == failed;
    Closes(s, a, rs + [ANY], tid, t.(phase := Failing(code)), failed, e, reclaimed, w);
    HandledIs(s, w, e, reclaimed, failed.files, FileRow(IndexFailed, file.markdown), JobStatus.Failed, Some(code));
  }

  /** An index job without a model, or of a file without Markdown, ends in index_failed before anything is read. */
  lemma {:induction false} NotIndexableExactly(s: State, tid: nat, w: WorkerId, e: nat, reclaimed: bool,
      configured: bool)
    requires Handles(s, tid, w, e, reclaimed, IndexJob)
    requires s.db.files[s.db.jobs[s.stream.entries[e]].key].status == IndexQueued
    requires configured ==> s.db.files[s.db.jobs[s.stream.entries[e]].key].markdown == ""
    ensures var row := s.db.jobs[s.stream.entries[e]];
            var first := if configured then ANY else Bad(EmbeddingNotConfigured);
            Leads(s, [Delivery(tid, w, e, reclaimed)] + Works(tid, [ANY, ANY, ANY] + [first] + [ANY] + [ANY, ANY]),
                  Handled(s, e, reclaimed, FileRow(IndexFailed, s.db.files[row.key].markdown),
                          Ended(row, w, reclaimed, JobStatus.Failed,
                                Some(if configured then MarkdownMissing else EmbeddingNotConfigured))))
  {
    hide Leads, Works, Handled, Settled;
    var id, a, stream := s.stream.entries[e], Delivery(tid, w, e, reclaimed), Taken(s, w, e, reclaimed);
    var was := s.db.jobs[id];
    var row, file := Started(was, w, reclaimed), s.db.files[was.key];
    var t, rs := Task(w, e, reclaimed, Some(row), file.markdown, IndexStart), [ANY, ANY, ANY];
    Found(s, tid, w, e, reclaimed);
    var db := DbStarted(s, id, w, reclaimed);
    var first := if configured then ANY else Bad(EmbeddingNotConfigured);
    var next := t.(phase := IndexFail(if configured then MarkdownMissing else EmbeddingNotConfigured));
    Advance(s, a, rs, tid, t, db, stream, first, next);
    FailsIndexing(s, tid, w, e, reclaimed, rs + [first], next, DbAfter(db, id, t, first));
  }

  // Handlings that do not come to the file --------------------------------------------------------------------------

  /** The job's row alone is closed. */
  function FileLeft(s: State, e: nat, reclaimed: bool, job: JobRow): State
    requires e < |s.stream.entries|
  {
    State(Tables(s.db.files, s.db.jobs[s.stream.entries[e] := job]), Settled(s, e, reclaimed), s.tasks, s.clients,
          s.known,
          s.published)
  }

  lemma {:induction false} FileLeftIs(s: State, w: WorkerId, e: nat, reclaimed: bool, code: ErrorCode)
    requires e < |s.stream.entries| && s.stream.entries[e] in s.db.jobs
    ensures var id := s.stream.entries[e];
            var was, row := s.db.jobs[id], Started(s.db.jobs[id], w, reclaimed);
            State(Tables(s.db.files,
                         DbStarted(s, id, w, reclaimed).jobs[id := row.(status := JobStatus.Failed,
                             error := Some(code))]),
                  Settled(s, e, reclaimed), s.tasks, s.clients, s.known, s.published) ==
            FileLeft(s, e, reclaimed, Ended(was, w, reclaimed, JobStatus.Failed, Some(code)))
  {
  }

  /** A job whose attempts are used up fails with that code, and its file is left alone. */
  lemma {:induction false} SpentExactly(s: State, tid: nat, w: WorkerId, e: nat, reclaimed: bool)
    requires Delivers(s, tid, e, reclaimed) && Takeable(s, s.stream.entries[e], reclaimed)
    requires var row := s.db.jobs[s.stream.entries[e]];
             row.maxAttempts > 0 && (if reclaimed then row.attempt else row.attempt + 1) > row.maxAttempts
    ensures Leads(s, [Delivery(tid, w, e, reclaimed)] + Works(tid, [ANY, ANY] + [ANY, ANY]),
                  FileLeft(s, e, reclaimed,
                         Ended(s.db.jobs[s.stream.entries[e]], w, reclaimed, JobStatus.Failed,
                               Some(MaxAttemptsExceeded))))
  {
    hide Leads, Works, Settled;
    var id := s.stream.entries[e];
    var row := Started(s.db.jobs[id], w, reclaimed);
    ClaimedAndRead(s, tid, w, e, reclaimed);
    Closes(s, Delivery(tid, w, e, reclaimed), [ANY, ANY], tid,
           Task(w, e, reclaimed, Some(row), "", Failing(MaxAttemptsExceeded)), DbStarted(s, id, w, reclaimed), e,
               reclaimed, w);
    FileLeftIs(s, w, e, reclaimed, MaxAttemptsExceeded);
  }

  /** A job whose file is gone fails with that code. */
  lemma {:induction false} FileGoneExactly(s: State, tid: nat, w: WorkerId, e: nat, reclaimed: bool)
    requires Delivers(s, tid, e, reclaimed) && Takeable(s, s.stream.entries[e], reclaimed)
    requires !Spent(Started(s.db.jobs[s.stream.entries[e]], w, reclaimed))
    requires s.db.jobs[s.stream.entries[e]].key !in s.db.files
    ensures Leads(s, [Delivery(tid, w, e, reclaimed)] + Works(tid, [ANY, ANY, ANY] + [ANY, ANY]),
                  FileLeft(s, e, reclaimed,
                         Ended(s.db.jobs[s.stream.entries[e]], w, reclaimed, JobStatus.Failed, Some(FileNotFound))))
  {
    hide Leads, Works, Settled;
    var id := s.stream.entries[e];
    var row := Started(s.db.jobs[id], w, reclaimed);
    Found(s, tid, w, e, reclaimed);
    Closes(s, Delivery(tid, w, e, reclaimed), [ANY, ANY, ANY], tid,
           Task(w, e, reclaimed, Some(row), "", Failing(FileNotFound)), DbStarted(s, id, w, reclaimed), e, reclaimed,
               w);
    FileLeftIs(s, w, e, reclaimed, FileNotFound);
  }

  /** A parse job whose file does not wait for it fails with a conflict, and the file is left alone. */
  lemma {:induction false} ParseConflictExactly(s: State, tid: nat, w: WorkerId, e: nat, reclaimed: bool)
    requires Handles(s, tid, w, e, reclaimed, ParseJob)
    requires s.db.files[s.db.jobs[s.stream.entries[e]].key].status != ParseQueued
    ensures Leads(s, [Delivery(tid, w, e, reclaimed)] + Works(tid, [ANY, ANY, ANY] + [ANY] + [ANY, ANY]),
                  FileLeft(s, e, reclaimed,
                         Ended(s.db.jobs[s.stream.entries[e]], w, reclaimed, JobStatus.Failed, Some(StateConflict))))
  {
    hide Leads, Works, Settled;
    var id, a, stream := s.stream.entries[e], Delivery(tid, w, e, reclaimed), Taken(s, w, e, reclaimed);
    var was := s.db.jobs[id];
    var row, db := Started(was, w, reclaimed), DbStarted(s, id, w, reclaimed);
    var t := Task(w, e, reclaimed, Some(row), s.db.files[was.key].markdown, ParseStart);
    Found(s, tid, w, e, reclaimed);
    Advance(s, a, [ANY, ANY, ANY], tid, t, db, stream, ANY, t.(phase := Failing(StateConflict)));
    Closes(s, a, [ANY, ANY, ANY] + [ANY], tid, t.(phase := Failing(StateConflict)), db, e, reclaimed, w);
    FileLeftIs(s, w, e, reclaimed, StateConflict);
  }

  /** The message of a job that is gone or finished is acknowledged, and no row is touched; that of a job which another
      worker has at hand is left pending, and no row is touched either. */
  lemma {:induction false} NotTakenExactly(s: State, tid: nat, w: WorkerId, e: nat, reclaimed: bool)
    requires Delivers(s, tid, e, reclaimed)
    ensures var id := s.stream.entries[e];
            id !in s.db.jobs || s.db.jobs[id].status in {JobStatus.Succeeded, JobStatus.Failed, Cancelled} ==>
              Leads(s, [Delivery(tid, w, e, reclaimed)] + Works(tid, [ANY] + [ANY] + [ANY]),
                    s.(stream := Settled(s, e, reclaimed)))
    ensures var id := s.stream.entries[e];
            id in s.db.jobs && s.db.jobs[id].status == Running && !reclaimed && s.db.jobs[id].worker != Some(w) ==>
              Leads(s, [Delivery(tid, w, e, reclaimed)] + Works(tid, [ANY] + [ANY]),
                    s.(stream := Taken(s, w, e, reclaimed)))
  {
    hide Leads, Works;
    var id, a, stream := s.stream.entries[e], Delivery(tid, w, e, reclaimed), Taken(s, w, e, reclaimed);
    var t := NewTask(w, e, reclaimed);
    Begin(s, tid, w, e, reclaimed);
    if !Takeable(s, id, reclaimed) {
      Advance(s, a, [], tid, t, s.db, stream, ANY, t.(phase := Reading));
      assert [] + [ANY] == [ANY];
      if id !in s.db.jobs || !Active(s.db.jobs[id]) {
        Advance(s, a, [ANY], tid, t.(phase := Reading), s.db, stream, ANY, t.(phase := Acking));
        Leave(s, a, [ANY] + [ANY], tid, t.(phase := Acking), s.db, stream, ANY);
        assert stream.pending - {e} == s.stream.pending - {e};
      } else if s.db.jobs[id].worker != Some(w) {
        Leave(s, a, [ANY], tid, t.(phase := Reading), s.db, stream, ANY);
      }
    }
  }

  // Services -----------------------------------------------------------------------------------------------------

  /** A service call stands at k. */
  function CallAt(s: State, c: nat, k: Client, db: Tables, stream: Stream, known: set<FileKey>): State {
    State(db, stream, s.tasks, s.clients[c := k], known, s.published)
  }

  /** The call's next action, after which it stands elsewhere or is over. */
  lemma {:induction false} Calls(s: State, acts: seq<Action>, u: State, a: Action, v: State)
    requires Leads(s, acts, u) && Enabled(u, a) && Apply(u, a) == v
    ensures Leads(s, acts + [a], v)
  {
    hide Leads, Enabled, Apply;
    LeadsOn(s, acts, u, a);
  }

  /** A new job: its file is queued for it, its row waits with no attempt made, and its message stands at the end of the
      stream. */
  function Queues(s: State, db: Tables, known: set<FileKey>, id: JobId, key: FileKey, jobType: JobType,
      maxAttempts: nat): State
    requires key in db.files
  {
    var status := if jobType.ParseJob? then ParseQueued else IndexQueued;
    State(Tables(db.files[key := FileRow(status, db.files[key].markdown)],
                 db.jobs[id := JobRow(key, jobType, Pending, 0, maxAttempts, None, None)]),
          Stream(s.stream.entries + [id], s.stream.cursor, s.stream.pending), s.tasks, s.clients, known, s.published
              + {id})
  }

  /** Creating a job and publishing it, for a call that has asked for it. */
  lemma {:induction false} CreatedAndPublished(s: State, c: nat, acts: seq<Action>, k: Client, db: Tables,
      known: set<FileKey>, id: JobId)
    requires c !in s.clients && k.Creating? && id !in db.jobs && !HasActive(db.jobs, k.key, k.jobType)
    requires k.key in db.files && db.files[k.key].status in k.from
    requires Leads(s, acts, CallAt(s, c, k, db, s.stream, known))
    ensures Leads(s, acts + [CreateJob(c, id)] + [Publish(c, true, true)],
                  Queues(s, db, known, id, k.key, k.jobType, k.maxAttempts))
  {
    hide Leads, HasActive;
    var u := CallAt(s, c, k, db, s.stream, known);
    var target := Queues(s, db, known, id, k.key, k.jobType, k.maxAttempts);
    var v := CallAt(s, c, Publishing(id), target.db, s.stream, known);
    assert s.clients[c := k][c := Publishing(id)] == s.clients[c := Publishing(id)];
    Calls(s, acts, u, CreateJob(c, id), v);
    assert s.clients[c := Publishing(id)] - {c} == s.clients;
    Calls(s, acts + [CreateJob(c, id)], v, Publish(c, true, true), target);
  }

  /** An upload leaves a new file without Markdown, queued for parsing, with one attempt for its job. */
  lemma {:induction false} UploadExactly(s: State, c: nat, key: FileKey, id: JobId)
    requires c !in s.clients && key !in s.known && id !in s.db.jobs && !HasActive(s.db.jobs, key, ParseJob)
    ensures Leads(s, [Upload(c, key)] + [CreateJob(c, id)] + [Publish(c, true, true)],
                  Queues(s, Tables(s.db.files[key := FileRow(Uploaded, "")], s.db.jobs), s.known + {key}, id, key,
                         ParseJob, 1))
  {
    hide Leads, HasActive;
    var k, db := Creating(key, ParseJob, {Uploaded}, 1, true),
        Tables(s.db.files[key := FileRow(Uploaded, "")], s.db.jobs);
    Standing(s);
    Calls(s, [], s, Upload(c, key), CallAt(s, c, k, db, s.stream, s.known + {key}));
    assert [] + [Upload(c, key)] == [Upload(c, key)];
    CreatedAndPublished(s, c, [Upload(c, key)], k, db, s.known + {key}, id);
  }

  /** An upload whose job could not be created leaves nothing behind but the id it has used. */
  lemma {:induction false} UploadUndoneExactly(s: State, c: nat, key: FileKey)
    requires c !in s.clients && key !in s.known && key !in s.db.files
    ensures Leads(s, [Upload(c, key)] + [CreateErrs(c)] + [UndoUpload(c, true)], s.(known := s.known + {key}))
  {
    hide Leads;
    var db := Tables(s.db.files[key := FileRow(Uploaded, "")], s.db.jobs);
    var u := CallAt(s, c, Creating(key, ParseJob, {Uploaded}, 1, true), db, s.stream, s.known + {key});
    var v := CallAt(s, c, Undoing(key), db, s.stream, s.known + {key});
    Standing(s);
    Calls(s, [], s, Upload(c, key), u);
    assert [] + [Upload(c, key)] == [Upload(c, key)];
    assert u.clients[c := Undoing(key)] == v.clients;
    Calls(s, [Upload(c, key)], u, CreateErrs(c), v);
    assert v.clients - {c} == s.clients && db.files - {key} == s.db.files;
    Calls(s, [Upload(c, key)] + [CreateErrs(c)], v, UndoUpload(c, true), s.(known := s.known + {key}));
  }

  /** Asking again for a parse leaves the file queued for parsing, its path as it was, with one attempt for its job. */
  lemma {:induction false} RetryParseExactly(s: State, c: nat, key: FileKey, id: JobId)
    requires c !in s.clients && id !in s.db.jobs && !HasActive(s.db.jobs, key, ParseJob)
    requires key in s.db.files && s.db.files[key].status in {ParseFailed, Parsed, IndexFailed, Indexed}
    ensures Leads(s, [AskParse(c, key)] + [CreateJob(c, id)] + [Publish(c, true, true)],
                  Queues(s, s.db, s.known, id, key, ParseJob, 1))
  {
    hide Leads, HasActive;
    var k := Creating(key, ParseJob, PARSEABLE, 1, false);
    Standing(s);
    Calls(s, [], s, AskParse(c, key), CallAt(s, c, k, s.db, s.stream, s.known));
    assert [] + [AskParse(c, key)] == [AskParse(c, key)];
    CreatedAndPublished(s, c, [AskParse(c, key)], k, s.db, s.known, id);
  }

  /** Asking for an index leaves the file queued for indexing, its path as it was, with one attempt for its job. */
  lemma {:induction false} IndexFileExactly(s: State, c: nat, key: FileKey, id: JobId)
    requires c !in s.clients && id !in s.db.jobs && !HasActive(s.db.jobs, key, IndexJob)
    requires key in s.db.files && s.db.files[key].status in {Parsed, IndexFailed, Indexed}
    ensures Leads(s, [AskIndex(c, key)] + [CreateJob(c, id)] + [Publish(c, true, true)],
                  Queues(s, s.db, s.known, id, key, IndexJob, 1))
  {
    hide Leads, HasActive;
    var k := Creating(key, IndexJob, INDEXABLE, 1, false);
    Standing(s);
    Calls(s, [], s, AskIndex(c, key), CallAt(s, c, k, s.db, s.stream, s.known));
    assert [] + [AskIndex(c, key)] == [AskIndex(c, key)];
    CreatedAndPublished(s, c, [AskIndex(c, key)], k, s.db, s.known, id);
  }

  /** Retrying a failed job leaves its file queued for a new job of the same type, with as many attempts as the failed
      one was allowed. */
  lemma {:induction false} RetryExactly(s: State, c: nat, failed: JobId, id: JobId)
    requires c !in s.clients && id !in s.db.jobs && failed in s.db.jobs && s.db.jobs[failed].status == JobStatus.Failed
    requires !HasActive(s.db.jobs, s.db.jobs[failed].key, s.db.jobs[failed].jobType)
    requires var row := s.db.jobs[failed];
             row.key in s.db.files &&
             s.db.files[row.key].status == if row.jobType.ParseJob? then ParseFailed else IndexFailed
    ensures var row := s.db.jobs[failed];
            Leads(s, [AskRetry(c, failed)] + [CreateJob(c, id)] + [Publish(c, true, true)],
                  Queues(s, s.db, s.known, id, row.key, row.jobType, row.maxAttempts))
  {
    hide Leads, HasActive;
    var row := s.db.jobs[failed];
    var k := Creating(row.key, row.jobType, {FailedStatus(row.jobType)}, row.maxAttempts, false);
    Standing(s);
    Calls(s, [], s, AskRetry(c, failed), CallAt(s, c, k, s.db, s.stream, s.known));
    assert [] + [AskRetry(c, failed)] == [AskRetry(c, failed)];
    CreatedAndPublished(s, c, [AskRetry(c, failed)], k, s.db, s.known, id);
  }

  /** A refused publish is undone: the job has failed with that code, its file stands in the failed status of its type,
      and nothing was put into the stream. */
  lemma {:induction false} UnpublishedExactly(s: State, c: nat, id: JobId)
    requires c in s.clients && s.clients[c] == Publishing(id) && id in s.db.jobs
    requires var row := s.db.jobs[id];
             row.key in s.db.files &&
             s.db.files[row.key].status == if row.jobType.ParseJob? then ParseQueued else IndexQueued
    ensures var row := s.db.jobs[id];
            Leads(s, [Publish(c, false, false)] + [MarkUnpublished(c, true)] + [RestoreFile(c, true)],
                  State(Tables(s.db.files[row.key := FileRow(if row.jobType.ParseJob? then ParseFailed else IndexFailed,
                                                             s.db.files[row.key].markdown)],
                               s.db.jobs[id := row.(status := JobStatus.Failed, error := Some(QueueEnqueueFailed))]),
                        s.stream, s.tasks, s.clients - {c}, s.known, s.published))
  {
    hide Leads;
    var row := s.db.jobs[id];
    var jobs := s.db.jobs[id := row.(status := JobStatus.Failed, error := Some(QueueEnqueueFailed))];
    var u := s.(clients := s.clients[c := Unpublished(id)]);
    var v := State(Tables(s.db.files, jobs), s.stream, s.tasks, s.clients[c := Restoring(id)], s.known, s.published);
    var files := s.db.files[row.key := FileRow(if row.jobType.ParseJob? then ParseFailed else IndexFailed,
                                               s.db.files[row.key].markdown)];
    Standing(s);
    Calls(s, [], s, Publish(c, false, false), u);
    assert [] + [Publish(c, false, false)] == [Publish(c, false, false)];
    assert u.clients[c := Restoring(id)] == s.clients[c := Restoring(id)];
    Calls(s, [Publish(c, false, false)], u, MarkUnpublished(c, true), v);
    assert v.clients - {c} == s.clients - {c};
    Calls(s, [Publish(c, false, false)] + [MarkUnpublished(c, true)], v, RestoreFile(c, true),
          State(Tables(files, jobs), s.stream, s.tasks, s.clients - {c}, s.known, s.published));
  }

  /** Deleting a file removes its row alone; if it was queued, its waiting jobs are cancelled before. */
  lemma {:induction false} DeleteExactly(s: State, c: nat, key: FileKey)
    requires c !in s.clients && key in s.db.files && s.db.files[key].status !in {Parsing, Indexing}
    ensures s.db.files[key].status !in {ParseQueued, IndexQueued} ==>
              Leads(s, [AskDelete(c, key)] + [RemoveFile(c)], s.(db := Tables(s.db.files - {key}, s.db.jobs)))
    ensures s.db.files[key].status in {ParseQueued, IndexQueued} ==>
              Leads(s, [AskDelete(c, key)] + [CancelJobs(c)] + [RemoveFile(c)],
                    s.(db := Tables(s.db.files - {key}, CancelPending(s.db.jobs, key))))
    ensures forall id :: id in s.db.jobs ==>
              && id in CancelPending(s.db.jobs, key)
              && CancelPending(s.db.jobs, key)[id] ==
                 if s.db.jobs[id].key == key && s.db.jobs[id].status == Pending then s.db.jobs[id].(status := Cancelled)
                 else s.db.jobs[id]
  {
    hide Leads;
    var queued := s.db.files[key].status in {ParseQueued, IndexQueued};
    var u := s.(clients := s.clients[c := if queued then Cancelling(key) else Removing(key)]);
    Standing(s);
    Calls(s, [], s, AskDelete(c, key), u);
    assert [] + [AskDelete(c, key)] == [AskDelete(c, key)];
    assert s.clients[c := Removing(key)] - {c} == s.clients;
    if queued {
      var v := State(Tables(s.db.files, CancelPending(s.db.jobs, key)), s.stream, s.tasks,
                     s.clients[c := Removing(key)],
                     s.known, s.published);
      assert u.clients[c := Removing(key)] == s.clients[c := Removing(key)];
      Calls(s, [AskDelete(c, key)], u, CancelJobs(c), v);
      Calls(s, [AskDelete(c, key)] + [CancelJobs(c)], v, RemoveFile(c),
            s.(db := Tables(s.db.files - {key}, CancelPending(s.db.jobs, key))));
    } else {
      Calls(s, [AskDelete(c, key)], u, RemoveFile(c), s.(db := Tables(s.db.files - {key}, s.db.jobs)));
    }
  }

  // What may go wrong ----------------------------------------------------------------------------------------------

  /** A process may stop at any point, and any call of a service may fail; what is then left. */
  lemma {:induction false} StopsExactly(s: State, tid: nat, c: nat)
    ensures tid in s.tasks ==> Enabled(s, Abandon(tid)) && Apply(s, Abandon(tid)) == s.(tasks := s.tasks - {tid})
    ensures c in s.clients ==> Enabled(s, ClientStops(c)) && Apply(s, ClientStops(c)) == s.(clients := s.clients - {c})
  {
  }

  /** A job that cannot be created, or whose creation fails, ends the call; an upload takes its row back first. */
  lemma {:induction false} NotCreatedExactly(s: State, c: nat, id: JobId)
    requires c in s.clients && s.clients[c].Creating? && id !in s.db.jobs
    ensures var k := s.clients[c];
            var over := s.(clients := if k.undo then s.clients[c := Undoing(k.key)] else s.clients - {c});
            && Enabled(s, CreateErrs(c)) && Apply(s, CreateErrs(c)) == over
            && (HasActive(s.db.jobs, k.key, k.jobType)
                || k.key !in s.db.files || s.db.files[k.key].status !in k.from ==>
                  Enabled(s, CreateJob(c, id)) && Apply(s, CreateJob(c, id)) == over)
  {
    hide HasActive;
  }

  /** A refused publish may have put the message into the stream all the same; a compensating call that fails changes
      nothing, and the next one is made. */
  lemma {:induction false} RefusedExactly(s: State, c: nat, id: JobId, appended: bool)
    requires c in s.clients
    ensures s.clients[c] == Publishing(id) ==>
              && Enabled(s, Publish(c, false, appended))
              && Apply(s, Publish(c, false, appended)) ==
                 s.(stream := s.stream.(entries := s.stream.entries + if appended then [id] else []),
                    clients := s.clients[c := Unpublished(id)])
    ensures s.clients[c] == Unpublished(id) ==>
              && Enabled(s, MarkUnpublished(c, false))
              && Apply(s, MarkUnpublished(c, false)) == s.(clients := s.clients[c := Restoring(id)])
    ensures s.clients[c] == Restoring(id) ==>
              Enabled(s, RestoreFile(c, false)) && Apply(s, RestoreFile(c, false)) == s.(clients := s.clients - {c})
    ensures s.clients[c].Undoing? ==>
              Enabled(s, UndoUpload(c, false)) && Apply(s, UndoUpload(c, false)) == s.(clients := s.clients - {c})
  {
    assert s.stream.entries + [] == s.stream.entries;
  }
}
