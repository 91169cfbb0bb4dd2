/** internal/trace/writer.go: the bounded FIFO between the tracer and the database, with its drop counter, its flushes
    and its closing, as a machine of producers, one consumer and flushing callers. */
module TraceWriter {
  import opened Optional

  type EventID = nat
  type FlushID = nat

  const FLUSH_SLOTS := 16

  /** What the consumer is doing: waiting for work, draining for a flush, draining for the stop, drained for good,
      finished. */
  datatype Mode = Idle | Draining(flush: FlushID) | Stopping | Drained | Finished

  /** queue is the channel, hand the event being written; waiting are the EndSpan callers that wait for room. accepted
      lists every event ever put into the channel, in order; marks says how many had been accepted when each flush was
      requested. */
  datatype State = State(
    capacity: nat, queue: seq<EventID>, hand: Option<EventID>, processed: seq<EventID>, droppedCount: nat,
    waiting: set<EventID>, flushes: seq<FlushID>, acked: set<FlushID>, mode: Mode, closed: bool,
    offered: set<EventID>, accepted: seq<EventID>, dropped: set<EventID>, marks: map<FlushID, nat>)

  function Init(capacity: nat): State {
    State(capacity, [], None, [], 0, {}, [], {}, Idle, false, {}, [], {}, map[])
  }

  datatype Action = Offer(event: EventID)
                  | OfferEnd(event: EventID)
                  | EndSent(event: EventID)
                  | EndExpired(event: EventID)
                  | Take
                  | Finish
                  | Panic
                  | RequestFlush(flush: FlushID)
                  | TakeFlush
                  | FlushDone
                  | Close
                  | Stop
                  | StopDrained
                  | AckPending

  predicate Enabled(s: State, a: Action) {
    match a
    case Offer(e) => !s.closed && e !in s.offered
    case OfferEnd(e) => !s.closed && e !in s.offered
    case EndSent(e) => e in s.waiting && |s.queue| < s.capacity
    case EndExpired(e) => e in s.waiting
    case Take => (s.mode.Idle? || s.mode.Draining? || s.mode.Stopping?) && s.hand.None? && s.queue != []
    case Finish => s.hand.Some?
    case Panic => s.hand.Some?
    case RequestFlush(f) => !s.closed && f !in s.marks && |s.flushes| < FLUSH_SLOTS
    case TakeFlush => s.mode.Idle? && s.hand.None? && s.flushes != []
    case FlushDone => s.mode.Draining? && s.hand.None? && s.queue == []
    case Close => true
    case Stop => s.closed && s.mode.Idle? && s.hand.None?
    case StopDrained => s.mode.Stopping? && s.hand.None? && s.queue == []
    case AckPending => s.mode.Drained?
  }

  function Accept(s: State, e: EventID): State {
    s.(queue := s.queue + [e], accepted := s.accepted + [e])
  }

  function Drop(s: State, e: EventID): State {
    s.(droppedCount := s.droppedCount + 1, dropped := s.dropped + {e})
  }

  function Processed(s: State): State
    requires s.hand.Some?
  {
    s.(processed := s.processed + [s.hand.value], hand := None)
  }

  function Apply(s: State, a: Action): State
    requires Enabled(s, a)
  {
    match a
    case Offer(e) =>
      var t := s.(offered := s.offered + {e});
      if |s.queue| < s.capacity then Accept(t, e) else Drop(t, e)
    case OfferEnd(e) => s.(offered := s.offered + {e}, waiting := s.waiting + {e})
    case EndSent(e) => Accept(s.(waiting := s.waiting - {e}), e)
    case EndExpired(e) => Drop(s.(waiting := s.waiting - {e}), e)
    case Take => s.(queue := s.queue[1..], hand := Some(s.queue[0]))
    case Finish => Processed(s)
    case Panic => Processed(s).(mode := if s.mode.Draining? || s.mode.Stopping? then Idle else s.mode)
    case RequestFlush(f) => s.(flushes := s.flushes + [f], marks := s.marks[f := |s.accepted|])
    case TakeFlush => s.(flushes := s.flushes[1..], mode := Draining(s.flushes[0]))
    case FlushDone => s.(acked := s.acked + {s.mode.flush}, mode := Idle)
    case Close => s.(closed := true)
    case Stop => s.(mode := Stopping)
    case StopDrained => s.(mode := Drained)
    case AckPending => s.(acked := s.acked + (set f | f in s.flushes), flushes := [], mode := Finished)
  }

  predicate Run(s: State, acts: seq<Action>)
    decreases |acts|
  {
    acts == [] || (Enabled(s, acts[0]) && Run(Apply(s, acts[0]), acts[1..]))
  }

  function After(s: State, acts: seq<Action>): State
    requires Run(s, acts)
    decreases |acts|
  {
    if acts == [] then s else After(Apply(s, acts[0]), acts[1..])
  }

  // Conservation and order -----------------------------------------------------------------------------

  function InHand(s: State): seq<EventID> {
    if s.hand.Some? then [s.hand.value] else []
  }

  predicate Distinct(list: seq<EventID>) {
    forall i, j :: 0 <= i < j < |list| ==> list[i] != list[j]
  }

  /** Events leave in the order in which they came. */
  predicate InOrder(s: State) {
    s.accepted == s.processed + InHand(s) + s.queue && |s.queue| <= s.capacity
  }

  /** Every offered event is accepted, dropped or waiting, exactly one of these. */
  ghost predicate Conserved(s: State) {
    && (forall e :: e in s.offered <==> e in s.accepted || e in s.dropped || e in s.waiting)
    && (forall e :: e in s.accepted ==> e !in s.dropped && e !in s.waiting)
    && s.dropped !! s.waiting && Distinct(s.accepted) && s.droppedCount == |s.dropped|
  }

  lemma {:induction false} InOrderStep(s: State, a: Action)
    requires Enabled(s, a) && InOrder(s)
    ensures InOrder(Apply(s, a)) && s.accepted <= Apply(s, a).accepted && s.processed <= Apply(s, a).processed
  {
  }

  lemma {:induction false} ConservedStep(s: State, a: Action)
    requires Enabled(s, a) && Conserved(s)
    ensures Conserved(Apply(s, a))
  {
  }

  // Flushes --------------------------------------------------------------------------------------------

  /** A flush that waits, is being served or is acknowledged was requested. */
  ghost predicate Requested(s: State) {
    && (forall f :: f in s.marks ==> s.marks[f] <= |s.accepted|)
    && (forall i :: 0 <= i < |s.flushes| ==> s.flushes[i] in s.marks)
    && (s.mode.Draining? ==> s.mode.flush in s.marks)
    && (forall f :: f in s.acked ==> f in s.marks)
  }

  /** An acknowledged flush is complete; only a closed writer stops, and once it has drained every waiting flush is
      complete. */
  ghost predicate Complete(s: State) {
    && (forall f :: f in s.acked && f in s.marks ==> s.marks[f] <= |s.processed|)
    && (s.mode.Drained? ==> forall f :: f in s.flushes && f in s.marks ==> s.marks[f] <= |s.processed|)
    && (s.mode.Stopping? || s.mode.Drained? || s.mode.Finished? ==> s.closed)
  }

  ghost predicate FlushesOk(s: State) {
    Requested(s) && Complete(s)
  }

  lemma {:induction false} RequestedStep(s: State, a: Action)
    requires Enabled(s, a) && Requested(s)
    ensures Requested(Apply(s, a))
  {
  }

  lemma {:induction false} CompleteStep(s: State, a: Action)
    requires Enabled(s, a) && InOrder(s) && Requested(s) && Complete(s)
    ensures Complete(Apply(s, a))
  {
  }

  lemma {:induction false} FlushesOkStep(s: State, a: Action)
    requires Enabled(s, a) && InOrder(s) && FlushesOk(s)
    ensures FlushesOk(Apply(s, a))
  {
    hide Enabled, Apply, InOrder, Requested, Complete;
    RequestedStep(s, a);
    CompleteStep(s, a);
  }

  ghost predicate Sound(s: State) {
    InOrder(s) && Conserved(s) && FlushesOk(s)
  }

  lemma {:induction false} SoundRun(s: State, acts: seq<Action>)
    requires Sound(s) && Run(s, acts)
    ensures Sound(After(s, acts))
    decreases |acts|
  {
    hide Enabled, Apply, InOrder, Conserved, FlushesOk;
    if acts != [] {
      InOrderStep(s, acts[0]);
      ConservedStep(s, acts[0]);
      FlushesOkStep(s, acts[0]);
      SoundRun(Apply(s, acts[0]), acts[1..]);
    }
  }

  /** Every offered event is processed, being processed, queued, waiting or counted as dropped, exactly one of these;
      and events are processed in the order in which they were accepted. */
  lemma {:induction false} EveryEventAccounted(capacity: nat, acts: seq<Action>)
    requires Run(Init(capacity), acts)
    ensures var s := After(Init(capacity), acts);
            && s.accepted == s.processed + InHand(s) + s.queue && Distinct(s.accepted)
            && (forall e :: e in s.offered <==> e in s.accepted || e in s.dropped || e in s.waiting)
            && (forall e :: e in s.accepted ==> e !in s.dropped && e !in s.waiting)
            && s.dropped !! s.waiting && s.droppedCount == |s.dropped| && |s.queue| <= s.capacity
  {
    hide Enabled, Apply, Run, After;
    SoundRun(Init(capacity), acts);
  }

  /** When the consumer acknowledges a flush, everything accepted before the flush was requested has been processed. */
  lemma {:induction false} FlushedMeansProcessed(capacity: nat, before: seq<Action>, f: FlushID, rest: seq<Action>,
      e: EventID)
    requires Run(Init(capacity), before) && Enabled(After(Init(capacity), before), RequestFlush(f))
        && e in After(Init(capacity), before).accepted
    requires var s := Apply(After(Init(capacity), before), RequestFlush(f)); Run(s, rest) && f in After(s, rest).acked
    ensures e in After(Apply(After(Init(capacity), before), RequestFlush(f)), rest).processed
  {
    hide Enabled, Apply, Run, After, InOrder, Conserved, FlushesOk;
    InitSound(capacity);
    SoundRun(Init(capacity), before);
    var s := After(Init(capacity), before);
    var i :| 0 <= i < |s.accepted| && s.accepted[i] == e;
    FlushIsMarked(s, f);
    var u := Apply(s, RequestFlush(f));
    InOrderStep(s, RequestFlush(f));
    ConservedStep(s, RequestFlush(f));
    FlushesOkStep(s, RequestFlush(f));
    SoundRun(u, rest);
    MarkStays(u, rest, f);
    AckedReach(After(u, rest), f, i);
  }

  lemma {:induction false} InitSound(capacity: nat)
    ensures Sound(Init(capacity))
  {
  }

  lemma {:induction false} FlushIsMarked(s: State, f: FlushID)
    requires Enabled(s, RequestFlush(f))
    ensures var u := Apply(s, RequestFlush(f)); f in u.marks && u.marks[f] == |s.accepted| && u.accepted == s.accepted
  {
  }

  /** A flush is requested once, and what has been accepted stays accepted. */
  lemma {:induction false} MarkStays(s: State, acts: seq<Action>, f: FlushID)
    requires Sound(s) && Run(s, acts) && f in s.marks
    ensures var u := After(s, acts); f in u.marks && u.marks[f] == s.marks[f] && s.accepted <= u.accepted
    decreases |acts|
  {
    hide Enabled, Apply, InOrder, Conserved, FlushesOk;
    if acts != [] {
      InOrderStep(s, acts[0]);
      ConservedStep(s, acts[0]);
      FlushesOkStep(s, acts[0]);
      OneMark(s, acts[0], f);
      MarkStays(Apply(s, acts[0]), acts[1..], f);
    }
  }

  lemma {:induction false} OneMark(s: State, a: Action, f: FlushID)
    requires Enabled(s, a) && f in s.marks
    ensures f in Apply(s, a).marks && Apply(s, a).marks[f] == s.marks[f]
  {
  }

  lemma {:induction false} AckedReach(s: State, f: FlushID, i: nat)
    requires InOrder(s) && FlushesOk(s) && f in s.acked && i < s.marks[f]
    ensures i < |s.processed| && i < |s.accepted| && s.processed[i] == s.accepted[i]
  {
  }

  /** Once the writer has finished, what was accepted before it was closed has been processed. */
  ghost predicate ClosedOut(s: State, mark: nat) {
    s.closed && mark <= |s.accepted| && (s.mode.Drained? || s.mode.Finished? ==> mark <= |s.processed|)
  }

  lemma {:induction false} ClosedOutRun(s: State, acts: seq<Action>, mark: nat)
    requires Sound(s) && ClosedOut(s, mark) && Run(s, acts)
    ensures ClosedOut(After(s, acts), mark)
    decreases |acts|
  {
    hide Enabled, Apply, InOrder, Conserved, FlushesOk, ClosedOut;
    if acts != [] {
      InOrderStep(s, acts[0]);
      ConservedStep(s, acts[0]);
      FlushesOkStep(s, acts[0]);
      ClosedOutStep(s, acts[0], mark);
      ClosedOutRun(Apply(s, acts[0]), acts[1..], mark);
    }
  }

  lemma {:induction false} ClosedOutStep(s: State, a: Action, mark: nat)
    requires Enabled(s, a) && InOrder(s) && ClosedOut(s, mark)
    ensures ClosedOut(Apply(s, a), mark)
  {
    InOrderStep(s, a);
  }

  lemma {:induction false} CloseProcessesAll(s: State, acts: seq<Action>)
    requires Sound(s) && !s.mode.Drained? && !s.mode.Finished? && Run(Apply(s, Close), acts)
        && After(Apply(s, Close), acts).mode.Finished?
    ensures s.accepted <= After(Apply(s, Close), acts).processed
  {
    hide Run, After, InOrder, Conserved, FlushesOk;
    var u := Apply(s, Close);
    InOrderStep(s, Close);
    ConservedStep(s, Close);
    FlushesOkStep(s, Close);
    ClosedOutRun(u, acts, |s.accepted|);
    SoundRun(u, acts);
    AcceptedStays(u, acts);
    ProcessedPrefix(s.accepted, After(u, acts));
  }

  lemma {:induction false} AcceptedStays(s: State, acts: seq<Action>)
    requires Sound(s) && Run(s, acts)
    ensures s.accepted <= After(s, acts).accepted
    decreases |acts|
  {
    hide Enabled, Apply, InOrder, Conserved, FlushesOk;
    if acts != [] {
      InOrderStep(s, acts[0]);
      ConservedStep(s, acts[0]);
      FlushesOkStep(s, acts[0]);
      AcceptedStays(Apply(s, acts[0]), acts[1..]);
    }
  }

  lemma {:induction false} ProcessedPrefix(list: seq<EventID>, s: State)
    requires InOrder(s) && list <= s.accepted && |list| <= |s.processed|
    ensures list <= s.processed
  {
  }
}
