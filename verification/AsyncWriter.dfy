/** The trace writer as imperative code over its shared channels: the enqueue methods, Flush and Close of its callers,
    and the consumer's loop. Each channel operation is one step of TraceWriter; the other goroutines act between any
    two. */
module AsyncWriter {
  import opened Optional
  import opened TraceWriter

  datatype Goroutine = Producer(event: EventID) | Flusher(flush: FlushID) | Closer | Consumer

  function Actor(a: Action): Option<Goroutine> {
    match a
    case Offer(e) => Some(Producer(e))
    case OfferEnd(e) => Some(Producer(e))
    case EndSent(e) => Some(Producer(e))
    case EndExpired(e) => Some(Producer(e))
    case RequestFlush(f) => Some(Flusher(f))
    case Close => None
    case _ => Some(Consumer)
  }

  /** What the other goroutines leave alone. */
  predicate SameFor(s: State, u: State, me: Goroutine) {
    match me
    case Producer(e) => (e in s.offered <==> e in u.offered) && (e in s.waiting <==> e in u.waiting)
    case Flusher(f) => (f in s.marks <==> f in u.marks) && (f in s.marks ==> s.marks[f] == u.marks[f])
        && s.accepted <= u.accepted
    case Closer => s.closed ==> u.closed
    case Consumer =>
      && s.mode == u.mode && s.hand == u.hand && s.processed == u.processed && s.queue <= u.queue
      && s.flushes <= u.flushes && (s.closed ==> u.closed)
  }

  lemma {:induction false} OthersLeaveMe(s: State, a: Action, me: Goroutine)
    requires Enabled(s, a) && Actor(a) != Some(me)
    ensures SameFor(s, Apply(s, a), me)
  {
  }

  lemma {:induction false} SameForTransitive(s: State, u: State, v: State, me: Goroutine)
    requires SameFor(s, u, me) && SameFor(u, v, me)
    ensures SameFor(s, v, me)
  {
  }

  ghost predicate Leads(s: State, acts: seq<Action>, u: State) {
    Run(s, acts) && After(s, acts) == u
  }

  lemma {:induction false} LeadsOn(s: State, acts: seq<Action>, u: State, a: Action)
    requires Leads(s, acts, u) && Enabled(u, a)
    ensures Leads(s, acts + [a], Apply(u, a))
    decreases |acts|
  {
    hide Enabled, Apply;
    if acts == [] {
      assert acts + [a] == [a] && [a][1..] == [] && u == s;
      assert Run(Apply(s, a), []) && After(Apply(s, a), []) == Apply(s, a);
      assert Run(s, [a]);
    } else {
      assert (acts + [a])[1..] == acts[1..] + [a];
      LeadsOn(Apply(s, acts[0]), acts[1..], u, a);
    }
  }

  lemma {:induction false} LeadsSplit(s: State, first: seq<Action>, second: seq<Action>, u: State)
    requires Leads(s, first + second, u)
    ensures Run(s, first) && Leads(After(s, first), second, u)
    decreases |first|
  {
    hide Enabled, Apply;
    if first == [] {
      assert first + second == second;
    } else {
      assert (first + second)[1..] == first[1..] + second;
      LeadsSplit(Apply(s, first[0]), first[1..], second, u);
    }
  }

  /** What the one who closed the writer may conclude when it has finished. */
  lemma {:induction false} ClosedThenFinished(s: State, rest: seq<Action>, u: State)
    requires Sound(s) && Leads(Apply(s, Close), rest, u)
    ensures u.closed && s.accepted <= u.accepted
    ensures u.mode.Finished? && !s.mode.Drained? && !s.mode.Finished? ==> s.accepted <= u.processed
    ensures s.mode.Drained? || s.mode.Finished? ==> s.closed
  {
    hide Run, After, InOrder, Conserved, Requested;
    InOrderStep(s, Close);
    ConservedStep(s, Close);
    FlushesOkStep(s, Close);
    AcceptedStays(Apply(s, Close), rest);
    ClosedOutRun(Apply(s, Close), rest, 0);
    if u.mode.Finished? && !s.mode.Drained? && !s.mode.Finished? {
      CloseProcessesAll(s, rest);
    }
  }

  class Writer {
    const capacity: nat
    const others: nat -> seq<Action>
    const chance: nat -> bool
    var clock: nat
    // the channels, the counter and the flags
    var events: seq<EventID>
    var droppedCount: nat
    var flushes: seq<FlushID>
    var closed: bool
    // where the goroutines stand
    var hand: Option<EventID>
    var processed: seq<EventID>
    var waiting: set<EventID>
    var acked: set<FlushID>
    var mode: Mode
    // what has happened so far
    var offered: set<EventID>
    var accepted: seq<EventID>
    var dropped: set<EventID>
    var marks: map<FlushID, nat>
    ghost var trace: seq<Action>

    constructor (size: int, others: nat -> seq<Action>, chance: nat -> bool)
      ensures Valid() && trace == [] && capacity == if size <= 0 then 2048 else size
    {
      capacity := if size <= 0 then 2048 else size;
      this.others, this.chance := others, chance;
      clock, events, droppedCount, flushes, closed := 0, [], 0, [], false;
      hand, processed, waiting, acked, mode := None, [], {}, {}, Idle;
      offered, accepted, dropped, marks, trace := {}, [], {}, map[], [];
    }

    function Now(): State
      reads this
    {
      State(capacity, events, hand, processed, droppedCount, waiting, flushes, acked, mode, closed, offered, accepted,
            dropped, marks)
    }

    /** The writer has come by a run of the machine to the state it is in. */
    ghost predicate Valid()
      reads this
    {
      Leads(Init(capacity), trace, Now())
    }

    method Enact(a: Action)
      requires Valid() && Enabled(Now(), a)
      modifies this
      ensures Valid() && Now() == Apply(old(Now()), a) && trace == old(trace) + [a]
    {
      hide Enabled, Apply, Leads;
      LeadsOn(Init(capacity), trace, Now(), a);
      var u := Apply(Now(), a);
      SameCapacity(Now(), a);
      events, droppedCount, flushes, closed := u.queue, u.droppedCount, u.flushes, u.closed;
      hand, processed, waiting, acked, mode := u.hand, u.processed, u.waiting, u.acked, u.mode;
      offered, accepted, dropped, marks := u.offered, u.accepted, u.dropped, u.marks;
      trace := trace + [a];
    }

    /** The other goroutines act. */
    method Yield(me: Goroutine)
      requires Valid()
      modifies this
      ensures Valid() && old(trace) <= trace && SameFor(old(Now()), Now(), me)
      ensures forall i :: |old(trace)| <= i < |trace| ==> Actor(trace[i]) != Some(me)
    {
      hide Enabled, Apply, Leads, SameFor;
      clock := clock + 1;
      SameForSelf(Now(), me);
      var acts := others(clock);
      for i := 0 to |acts|
        invariant Valid() && old(trace) <= trace && SameFor(old(Now()), Now(), me)
        invariant forall i :: |old(trace)| <= i < |trace| ==> Actor(trace[i]) != Some(me)
      {
        if Actor(acts[i]) != Some(me) && Enabled(Now(), acts[i]) {
          ghost var before := Now();
          OthersLeaveMe(before, acts[i], me);
          Enact(acts[i]);
          SameForTransitive(old(Now()), before, Now(), me);
        }
      }
    }

    /** Records that the change just made was the action a. */
    ghost method Commit(a: Action, before: State)
      requires Leads(Init(capacity), trace, before) && Enabled(before, a) && Now() == Apply(before, a)
      modifies `trace
      ensures Valid() && trace == old(trace) + [a]
    {
      hide Enabled, Apply, Leads;
      LeadsOn(Init(capacity), trace, before, a);
      trace := trace + [a];
    }

    // Callers -----------------------------------------------------------------------------------------

    /** CreateTrace, UpdateTraceMetadata and StartSpan: an event that finds no room is dropped and counted. */
    method Enqueue(e: EventID) returns (kept: bool)
      requires Valid() && e !in offered
      modifies this
      ensures Valid() && Now() == if old(closed) then old(Now()) else Apply(old(Now()), Offer(e))
      ensures kept == (!old(closed) && |old(events)| < capacity)
      ensures kept ==> events == old(events) + [e] && droppedCount == old(droppedCount)
      ensures !old(closed) && !kept ==> droppedCount == old(droppedCount) + 1 && events == old(events)
    {
      hide Leads;
      if closed {
        return false;
      }
      ghost var before := Now();
      offered := offered + {e};
      kept := |events| < capacity;
      if kept {
        events := events + [e];
        accepted := accepted + [e];
      } else {
        droppedCount := droppedCount + 1;
        dropped := dropped + {e};
      }
      Commit(Offer(e), before);
    }

    /** EndSpan waits for room, but only for so long. */
    method EndSpan(e: EventID) returns (kept: bool)
      requires Valid() && e !in offered
      modifies this
      ensures Valid() && old(trace) <= trace && e !in waiting
      ensures kept ==> events != [] && events[|events| - 1] == e
      ensures !kept && !old(closed) ==> e in dropped && (|events| >= capacity || !chance(clock))
    {
      hide Leads;
      if closed {
        WaitingWasOffered(e);
        return false;
      }
      ghost var before := Now();
      offered := offered + {e};
      waiting := waiting + {e};
      Commit(OfferEnd(e), before);
      Yield(Producer(e));
      kept := Settle(e);
    }

    /** Nothing waits that was not offered. */
    lemma WaitingWasOffered(e: EventID)
      requires Valid() && e !in offered
      ensures e !in waiting
    {
      hide Run, After, Enabled, Apply;
      EveryEventAccounted(capacity, trace);
    }

    method Settle(e: EventID) returns (kept: bool)
      requires Valid() && e in waiting
      modifies this
      ensures Valid() && old(trace) <= trace && e !in waiting
      ensures kept == (|old(events)| < capacity && chance(clock))
      ensures kept ==> events == old(events) + [e] && droppedCount == old(droppedCount)
      ensures !kept ==> e in dropped && events == old(events) && droppedCount == old(droppedCount) + 1
    {
      hide Leads;
      ghost var before := Now();
      kept := |events| < capacity && chance(clock);
      waiting := waiting - {e};
      if kept {
        events := events + [e];
        accepted := accepted + [e];
        Commit(EndSent(e), before);
      } else {
        droppedCount := droppedCount + 1;
        dropped := dropped + {e};
        Commit(EndExpired(e), before);
      }
    }

    /** Flush: when it reports an acknowledgement, everything accepted before the call has been processed. */
    method Flush(f: FlushID) returns (flushed: bool)
      requires Valid() && f !in marks
      modifies this
      ensures Valid() && old(trace) <= trace
      ensures flushed ==> old(accepted) <= processed
      ensures old(closed) || |old(flushes)| >= 16 ==> !flushed && Now() == old(Now())
      ensures !old(closed) && |old(flushes)| < 16 ==>
          f in marks && marks[f] == |old(accepted)| && (flushed <==> f in acked)
    {
      hide Leads;
      if closed || |flushes| >= FLUSH_SLOTS {
        return false;
      }
      ghost var before := Now();
      flushes := flushes + [f];
      marks := marks[f := |accepted|];
      Commit(RequestFlush(f), before);
      Yield(Flusher(f));
      flushed := f in acked;
      if flushed {
        Acknowledged(f, old(accepted));
      }
    }

    lemma Acknowledged(f: FlushID, before: seq<EventID>)
      requires Valid() && f in acked && f in marks && marks[f] == |before| && before <= accepted
      ensures before <= processed
    {
      hide Run, After, Enabled, Apply, InOrder, Conserved;
      InitSound(capacity);
      SoundRun(Init(capacity), trace);
      ProcessedPrefix(before, Now());
    }

    /** Close: sets the flag, once, and waits for the consumer, but not longer than its caller wants. When it reports
        that the consumer has finished, everything accepted before the call has been processed. */
    method Close() returns (finished: bool)
      requires Valid()
      modifies this
      ensures Valid() && old(trace) <= trace && closed && old(accepted) <= accepted
      ensures finished <==> mode.Finished? && chance(clock)
      ensures finished && !(old(mode).Drained? || old(mode).Finished?) ==> old(accepted) <= processed
      ensures old(mode).Drained? || old(mode).Finished? ==> old(closed)
    {
      hide Leads;
      ghost var before := Now();
      SoundNow();
      SetClosed();
      ghost var closing := trace;
      Yield(Closer);
      finished := mode.Finished? && chance(clock);
      ClosedFacts(before, closing);
    }

    /** The part that runs once. */
    method SetClosed()
      requires Valid()
      modifies this
      ensures Valid() && old(trace) <= trace && Now() == Apply(old(Now()), TraceWriter.Close)
          && Leads(Init(capacity), trace, Now())
    {
      hide Leads;
      if !closed {
        ghost var before := Now();
        closed := true;
        Commit(TraceWriter.Close, before);
      }
    }

    lemma ClosedFacts(before: State, closing: seq<Action>)
      requires Valid() && closing <= trace && Leads(Init(capacity), closing, Apply(before, TraceWriter.Close))
      requires Sound(before)
      ensures before.accepted <= accepted
      ensures mode.Finished? && !before.mode.Drained? && !before.mode.Finished? ==> before.accepted <= processed
      ensures before.mode.Drained? || before.mode.Finished? ==> before.closed
    {
      hide Run, After, Sound;
      var rest := trace[|closing|..];
      assert closing + rest == trace;
      LeadsSplit(Init(capacity), closing, rest, Now());
      ClosedThenFinished(before, rest, Now());
    }

    lemma SoundNow()
      requires Valid()
      ensures Sound(Now())
    {
      hide Run, After, Sound;
      InitSound(capacity);
      SoundRun(Init(capacity), trace);
    }

    // The consumer ---------------------------------------------------------------------------------------

    method TakeNext()
      requires Valid() && (mode.Idle? || mode.Draining? || mode.Stopping?) && hand.None? && events != []
      modifies this
      ensures Valid() && old(trace) < trace && hand == Some(old(events)[0]) && mode == old(mode)
          && processed == old(processed) && events == old(events)[1..]
    {
      hide Leads;
      ghost var before := Now();
      hand, events := Some(events[0]), events[1..];
      Commit(Take, before);
    }

    /** Writes the event in hand; a panic while writing is recovered, but ends a drain. */
    method WriteHand() returns (panicked: bool)
      requires Valid() && (mode.Idle? || mode.Draining? || mode.Stopping?) && hand.Some?
      modifies this
      ensures Valid() && old(trace) <= trace && hand.None? && processed == old(processed) + [old(hand).value]
      ensures mode == (if panicked then Idle else old(mode)) && panicked == chance(clock)
    {
      hide Leads;
      ghost var before := Now();
      processed, hand := processed + [hand.value], None;
      panicked := chance(clock);
      if panicked {
        mode := Idle;
        Commit(Panic, before);
      } else {
        Commit(Finish, before);
      }
    }

    method Process() returns (panicked: bool)
      requires Valid() && (mode.Idle? || mode.Draining? || mode.Stopping?) && hand.None? && events != []
      modifies this
      ensures Valid() && old(trace) < trace && hand.None? && processed == old(processed) + [old(events)[0]]
      ensures mode == (if panicked then Idle else old(mode)) && panicked == chance(clock)
    {
      hide Leads;
      TakeNext();
      Yield(Consumer);
      panicked := WriteHand();
    }

    /** Writes what is in the channel until it finds it empty; producers may go on adding, so the rounds observed are
        limited. */
    method Drain(rounds: nat) returns (emptied: bool, panicked: bool)
      requires Valid() && (mode.Draining? || mode.Stopping?) && hand.None?
      modifies this
      ensures Valid() && old(trace) <= trace && old(processed) <= processed && hand.None?
      ensures mode == (if panicked then Idle else old(mode)) && (panicked ==> chance(clock))
      ensures emptied ==> events == [] && !panicked
      ensures !emptied && !panicked ==> |processed| == |old(processed)| + rounds
    {
      hide Leads;
      for round := 0 to rounds
        invariant |processed| == |old(processed)| + round
        invariant Valid() && old(trace) <= trace && old(processed) <= processed && hand.None? && mode == old(mode)
      {
        Yield(Consumer);
        if events == [] {
          return true, false;
        }
        panicked := Process();
        if panicked {
          return false, true;
        }
      }
      return false, false;
    }

    /** The stop branch of the select: drain, then acknowledge every flush that waits. */
    method StopAndDrain(rounds: nat) returns (stopped: bool)
      requires Valid() && closed && mode.Idle? && hand.None?
      modifies this
      ensures Valid() && old(trace) < trace && old(processed) <= processed
      ensures stopped ==> mode.Finished? && flushes == []
      ensures !stopped ==> (mode.Idle? && chance(clock)) || |processed| == |old(processed)| + rounds
    {
      hide Leads;
      ghost var before := Now();
      mode := Stopping;
      Commit(Stop, before);
      var emptied, panicked := Drain(rounds);
      if !emptied {
        return false;
      }
      before := Now();
      mode := Drained;
      Commit(StopDrained, before);
      AckPendingFlushes();
      return true;
    }

    method AckPendingFlushes()
      requires Valid() && mode.Drained?
      modifies this
      ensures Valid() && old(trace) <= trace && processed == old(processed) && mode.Finished? && flushes == []
      ensures forall f :: f in old(flushes) ==> f in acked
    {
      hide Leads;
      ghost var before := Now();
      acked, flushes, mode := acked + (set f | f in flushes), [], Finished;
      Commit(AckPending, before);
    }

    /** The flush branch: drain, then acknowledge; a panic loses the acknowledgement. */
    method ServeFlush(rounds: nat) returns (served: bool)
      requires Valid() && mode.Idle? && hand.None? && flushes != []
      modifies this
      ensures Valid() && old(trace) < trace && old(processed) <= processed
      ensures served ==> mode.Idle? && old(flushes)[0] in acked
      ensures !served ==> (mode.Idle? && chance(clock)) || |processed| == |old(processed)| + rounds
    {
      hide Leads;
      ghost var before := Now();
      var f := flushes[0];
      mode, flushes := Draining(f), flushes[1..];
      Commit(TakeFlush, before);
      var emptied, panicked := Drain(rounds);
      if !emptied {
        return false;
      }
      before := Now();
      acked, mode := acked + {f}, Idle;
      Commit(FlushDone, before);
      return true;
    }

    /** One select of the loop: any branch that is ready may be taken, and one is taken when any is ready. */
    method RunOnce(rounds: nat) returns (stopped: bool)
      requires Valid() && mode.Idle? && hand.None?
      modifies this
      ensures Valid() && old(trace) <= trace && old(processed) <= processed
      ensures old(closed) || old(events) != [] || old(flushes) != [] ==> old(trace) < trace
      ensures stopped ==> old(closed) && mode.Finished? && flushes == []
    {
      hide Leads;
      stopped := false;
      if {
        case closed => stopped := StopAndDrain(rounds);
        case events != [] => var panicked := Process();
        case flushes != [] => var served := ServeFlush(rounds);
        case !closed && events == [] && flushes == [] =>
      }
    }
  }

  lemma {:induction false} SameCapacity(s: State, a: Action)
    requires Enabled(s, a)
    ensures Apply(s, a).capacity == s.capacity
  {
  }

  lemma {:induction false} SameForSelf(s: State, me: Goroutine)
    ensures SameFor(s, s, me)
  {
  }
}
