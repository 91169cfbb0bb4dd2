/** internal/repository/trace_repository.go and internal/trace/span.go: stored spans, which the writer and the janitor
    both try to end, and the once-only End of a span in memory. */
module TraceSpans {
  import opened Optional

  type SpanID = string
  type Millis = int

  const RUNNING := "running"
  const OK := "ok"
  const TIMEOUT := "timeout"

  datatype Row = Row(startedAt: Millis, status: string, endedAt: Option<Millis>, durationMs: int, errorType: string,
                     attributes: map<string, string>)

  /** SpanEnd, its end time zero when the caller left it out. */
  datatype SpanEnd = SpanEnd(status: string, endedAt: Millis, errorType: string, attributes: map<string, string>)

  type Rows = map<SpanID, Row>

  // What the statements do --------------------------------------------------------------------------

  function Started(rows: Rows, id: SpanID, row: Row): Rows {
    if id in rows then rows else rows[id := row]
  }

  function EndedAt(end: SpanEnd, now: Millis): Millis {
    if end.endedAt == 0 then now else end.endedAt
  }

  function EndedRow(row: Row, end: SpanEnd, now: Millis): Row {
    var at := EndedAt(end, now);
    Row(row.startedAt, end.status, Some(at), if at < row.startedAt then 0 else at - row.startedAt, end.errorType,
        row.attributes + end.attributes)
  }

  function Ended(rows: Rows, id: SpanID, end: SpanEnd, now: Millis): Rows {
    if id in rows && rows[id].status == RUNNING then rows[id := EndedRow(rows[id], end, now)] else rows
  }

  predicate Overdue(row: Row, before: Millis) {
    row.status == RUNNING && row.startedAt < before
  }

  function TimedOutRow(row: Row, now: Millis): Row {
    row.(status := TIMEOUT, endedAt := Some(now), durationMs := now - row.startedAt, errorType := TIMEOUT)
  }

  function TimedOut(rows: Rows, before: Millis, now: Millis): Rows {
    map id | id in rows :: if Overdue(rows[id], before) then TimedOutRow(rows[id], now) else rows[id]
  }

  // Any interleaving of the writer and the janitor ------------------------------------------------------

  datatype Op = Start(id: SpanID, row: Row) | End(id: SpanID, end: SpanEnd, now: Millis) | Timeout(before: Millis,
      now: Millis)

  function Do(rows: Rows, op: Op): Rows {
    match op
    case Start(id, row) => Started(rows, id, row)
    case End(id, end, now) => Ended(rows, id, end, now)
    case Timeout(before, now) => TimedOut(rows, before, now)
  }

  function DoAll(rows: Rows, ops: seq<Op>): Rows
    decreases |ops|
  {
    if ops == [] then rows else DoAll(Do(rows, ops[0]), ops[1..])
  }

  /** The operation takes the span out of running. */
  predicate Ends(rows: Rows, op: Op, id: SpanID) {
    id in rows && rows[id].status == RUNNING
    && ((op.End? && op.id == id && op.end.status != RUNNING) || (op.Timeout? && rows[id].startedAt < op.before))
  }

  /** The first operation that ends the span; |ops| if none does. */
  function FirstEnding(rows: Rows, ops: seq<Op>, id: SpanID): (k: nat)
    ensures k <= |ops|
    decreases |ops|
  {
    if ops == [] || Ends(rows, ops[0], id) then 0 else 1 + FirstEnding(Do(rows, ops[0]), ops[1..], id)
  }

  lemma {:induction false} OneOp(rows: Rows, op: Op, id: SpanID)
    requires id in rows
    ensures id in Do(rows, op)
    ensures rows[id].status != RUNNING ==> Do(rows, op)[id] == rows[id]
    ensures rows[id].status == RUNNING ==> (Do(rows, op)[id].status != RUNNING <==> Ends(rows, op, id))
  {
  }

  /** A span that has ended is never changed again. */
  lemma {:induction false} EndedForEver(rows: Rows, ops: seq<Op>, id: SpanID)
    requires id in rows && rows[id].status != RUNNING
    ensures id in DoAll(rows, ops) && DoAll(rows, ops)[id] == rows[id]
    decreases |ops|
  {
    hide Do;
    if ops != [] {
      OneOp(rows, ops[0], id);
      EndedForEver(Do(rows, ops[0]), ops[1..], id);
    }
  }

  /** A stored span leaves running at most once: it runs until the first operation that ends it, whichever of the writer
      and the janitor that is, and keeps what that operation wrote whatever comes later. */
  lemma {:induction false} FirstEndingWins(rows: Rows, ops: seq<Op>, id: SpanID, n: nat)
    requires id in rows && n <= |ops|
    ensures id in DoAll(rows, ops[..n])
    ensures n <= FirstEnding(rows, ops, id) && rows[id].status == RUNNING ==>
        DoAll(rows, ops[..n])[id].status == RUNNING
    ensures n > FirstEnding(rows, ops, id) && rows[id].status == RUNNING ==>
              var k := FirstEnding(rows, ops, id);
              id in DoAll(rows, ops[..k + 1]) && DoAll(rows, ops[..n])[id] == DoAll(rows, ops[..k + 1])[id]
                  && DoAll(rows, ops[..n])[id].status != RUNNING
    decreases n
  {
    hide Do, Ends;
    if n > 0 {
      var op := ops[0];
      OneOp(rows, op, id);
      assert ops[..n][1..] == ops[1..][..n - 1] && ops[..n][0] == op;
      if rows[id].status == RUNNING && Ends(rows, op, id) {
        assert ops[..1] == [op] && [op][1..] == [];
        assert DoAll(rows, ops[..1]) == Do(rows, op);
        EndedForEver(Do(rows, op), ops[1..][..n - 1], id);
      } else {
        FirstEndingWins(Do(rows, op), ops[1..], id, n - 1);
        var k := FirstEnding(Do(rows, op), ops[1..], id);
        if k < |ops| - 1 {
          assert ops[..k + 2][1..] == ops[1..][..k + 1];
        }
      }
    }
  }

  /** The duration of a span that the writer ended is never negative, even when the end time given lies before the
      start. */
  lemma {:induction false} DurationNotNegative(rows: Rows, id: SpanID, end: SpanEnd, now: Millis)
    requires id in rows && Ends(rows, End(id, end, now), id)
    ensures Do(rows, End(id, end, now))[id].durationMs >= 0
  {
  }

  /** The attributes of a span that has ended: those given at its end, and those it started with that were not. */
  ghost predicate Merged(attributes: map<string, string>, before: map<string, string>, given: map<string, string>) {
    && (forall k :: k in attributes <==> k in before || k in given)
    && forall k :: k in attributes ==> attributes[k] == if k in given then given[k] else before[k]
  }

  /** Row by row what ending a span writes: nothing unless the span is running; otherwise to its row alone the status
      given, the end time given or else the current time, the time between start and end or zero, the error type and the
      attributes. */
  lemma {:induction false} EndExactly(rows: Rows, id: SpanID, end: SpanEnd, now: Millis)
    ensures var after := Do(rows, End(id, end, now));
            && after.Keys == rows.Keys
            && (forall other :: other in rows && other != id ==> after[other] == rows[other])
            && (id in rows && rows[id].status != "running" ==> after[id] == rows[id])
            && (id in rows && rows[id].status == "running" ==>
                  var row, at := after[id], if end.endedAt == 0 then now else end.endedAt;
                  && row.startedAt == rows[id].startedAt && row.status == end.status && row.endedAt == Some(at)
                  && (at >= row.startedAt ==> row.durationMs == at - row.startedAt)
                  && (at < row.startedAt ==> row.durationMs == 0)
                  && row.errorType == end.errorType && Merged(row.attributes, rows[id].attributes, end.attributes))
  {
  }

  /** Starting a span adds its row unless the id is known; the janitor turns every running span that started before the
      given time into one that timed out now. */
  lemma {:induction false} StartAndTimeoutExactly(rows: Rows, id: SpanID, row: Row, before: Millis, now: Millis)
    ensures Do(rows, Start(id, row)) == if id in rows then rows else rows[id := row]
    ensures var after := Do(rows, Timeout(before, now));
            && after.Keys == rows.Keys
            && forall k :: k in rows ==>
                 var was := rows[k];
                 after[k] == if was.status == "running" && was.startedAt < before
                             then Row(was.startedAt, "timeout", Some(now), now - was.startedAt, "timeout",
                                      was.attributes)
                             else was
  {
    var after := Do(rows, Timeout(before, now));
    assert forall k :: k in after <==> k in rows;
  }

  // The repository -----------------------------------------------------------------------------------

  class SpanRepository {
    var rows: Rows

    constructor ()
      ensures rows == map[]
    {
      rows := map[];
    }

    /** Insert, ignoring a conflict. */
    method StartSpan(id: SpanID, row: Row)
      modifies this
      ensures rows == Do(old(rows), Start(id, row))
    {
      if id !in rows {
        rows := rows[id := row];
      }
    }

    /** Reads the start, then updates where the span is still running. */
    method EndSpan(id: SpanID, end: SpanEnd, now: Millis)
      modifies this
      ensures rows == Do(old(rows), End(id, end, now))
    {
      if id !in rows {
        return;
      }
      var span := rows[id];
      var endedAt := end.endedAt;
      if endedAt == 0 {
        endedAt := now;
      }
      var durationMs := endedAt - span.startedAt;
      if durationMs < 0 {
        durationMs := 0;
      }
      if span.status == RUNNING {
        rows := rows[id := Row(span.startedAt, end.status, Some(endedAt), durationMs, end.errorType, span.attributes
                               + end.attributes)];
      }
    }

    method MarkTimeoutSpans(before: Millis, now: Millis) returns (affected: nat)
      modifies this
      ensures rows == Do(old(rows), Timeout(before, now))
      ensures affected == |set id | id in old(rows) && old(rows)[id].status == "running"
          && old(rows)[id].startedAt < before|
    {
      affected := |set id | id in rows && Overdue(rows[id], before)|;
      assert (set id | id in rows && Overdue(rows[id], before)) ==
             (set id | id in rows && rows[id].status == "running" && rows[id].startedAt < before);
      rows := map id | id in rows :: if Overdue(rows[id], before) then TimedOutRow(rows[id], now) else rows[id];
    }
  }

  // A span in memory ----------------------------------------------------------------------------------

  /** What the span's writer has been asked to end. */
  class EndLog {
    var ends: seq<(SpanID, SpanEnd)>

    constructor ()
      ensures ends == []
    {
      ends := [];
    }

    method EndSpan(id: SpanID, end: SpanEnd)
      modifies this
      ensures ends == old(ends) + [(id, end)]
    {
      ends := ends + [(id, end)];
    }
  }

  class Span {
    const writer: EndLog
    const id: SpanID
    const noop: bool
    var ended: bool

    constructor (writer: EndLog, id: SpanID, noop: bool)
      ensures this.writer == writer && this.id == id && this.noop == noop && !ended
    {
      this.writer, this.id, this.noop := writer, id, noop;
      ended := false;
    }

    /** End, with its defaults: only the first call of a real span reaches the writer. */
    method End(end: SpanEnd, now: Millis)
      modifies this, writer
      ensures ended == (old(ended) || !noop)
      ensures writer.ends == old(writer.ends) + if noop || old(ended) then []
          else [(id, SpanEnd(if end.status == "" then "ok" else end.status,
                             if end.endedAt == 0 then now else end.endedAt, end.errorType, end.attributes))]
    {
      if noop {
        return;
      }
      if !ended {
        ended := true;
        var last := end;
        if last.endedAt == 0 {
          last := last.(endedAt := now);
        }
        if last.status == "" {
          last := last.(status := OK);
        }
        writer.EndSpan(id, last);
      }
    }
  }
}
