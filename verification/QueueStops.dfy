/**
 What a stop, a failed attempt and a drain wait come to: nothing is sent after a stop, the
 last failure is that of a write that still waits, and a wait returns as soon as it may.
 */
module QueueStops {
  import opened Wrappers
  import opened Writes
  import opened QueueState
  import opened QueueMachine
  import opened QueueEffects
  import opened QueueConservation
  import opened QueueOutcomes
  import opened QueueOrder
  import opened QueueTables
  import opened QueueFollows
  import opened QueueTheorems
  import opened QueueReasons

  // ===== what a hand-over does at once =====

  /** A write is queued at once, last in the line, unless the queue is stopped or something it needs was removed. */
  lemma HandOverQueues(q: Queue, write: Write)
    requires Enabled(q, HandOver(write))
    ensures var q' := Apply(q, HandOver(write));
            if q.st.stopped || !Unblocked(write, q.st.ended) then
              q'.st == q.st && q.h.ids.issued in q'.calls && q'.calls[q.h.ids.issued].Leaving?
            else
              && q'.st.fifo == q.st.fifo + [Entry(q.st.nextSeq, write, q.h.ids.issued)]
              && q'.st.pending == q.st.pending[q.st.nextSeq := write] && q'.st.nextSeq == q.st.nextSeq + 1
              && q.h.ids.issued in q'.calls && q'.calls[q.h.ids.issued].Notifying?
  {
    BlockedIffRemovedDependency(write, q.st.ended);
    hide Unblocked, Blocked;
  }

  // ===== the stop =====

  lemma StopStops(q: Queue)
    ensures Enabled(q, StopQueue) && Apply(q, StopQueue).st.stopped && Apply(q, StopQueue).h == q.h
  {}

  /** From a stop on nothing more is attempted. */
  lemma {:induction false} StopSendsNothing(states: seq<Queue>, steps: seq<Step>, k: nat, j: nat)
    requires IsRun(states, steps) && k < j < |states| && steps[k] == StopQueue
    ensures states[j].st.stopped && states[j].h.attempted == states[k].h.attempted
  {
    hide Apply, Enabled;
    StopStops(states[k]);
    if j > k + 1 {
      StopSendsNothing(states, steps, k, j - 1);
      StoppedStays(states[j - 1], steps[j - 1]);
      AttemptsAreStarts(states[j - 1], steps[j - 1]);
    }
  }

  /** The write was turned away, and every word about it is that it was left unsent. */
  ghost predicate TurnedBack(q: Queue, d: EndId) {
    && d < q.h.ids.issued && d !in q.h.ids.seqOf
    && (d in q.calls ==> !q.calls[d].Notifying? && q.calls[d].removal == LeftUnsent)
    && (d in q.h.results ==> q.h.results[d] == Err(LeftUnsent))
  }

  lemma TurnedBackStep(q: Queue, step: Step, d: EndId)
    requires Good(q) && Enabled(q, step) && TurnedBack(q, d)
    ensures TurnedBack(Apply(q, step), d)
  {
    hide Apply, Shape, Conserved, PendingKnown, Outcomes, Order, Tables, Followed, Blocked, Keep;
    if step.HandOver? || step.HoldBack? {
      HandOverEffect(q, step);
    } else if step.GateEnds? {
      GateEndsEffect(q, step.seqNo, step.gate);
    } else if Quiet(step) {
      QuietEffect(q, step);
    } else if Ending(step) {
      EndingEffect(q, step);
      if step.RecordEnd? {
        EndingIsQueued(q);
      }
    } else {
      UnqueuedEffect(q, step);
    }
  }

  lemma EndingIsQueued(q: Queue)
    requires Good(q) && q.pc.Completing? && (q.pc.stage.Reporting? || q.pc.stage.Recording?)
    ensures q.pc.entry.end in q.h.ids.seqOf
  {
    hide Outcomes, Order, Tables, Followed;
    CompletionOfQueued(q);
  }

  lemma TurnedAwayAtOnce(q: Queue, step: Step)
    requires Good(q) && q.st.stopped && (step.HandOver? || step.HoldBack?) && Enabled(q, step)
    ensures TurnedBack(Apply(q, step), q.h.ids.issued)
  {
    hide Apply, Shape, Conserved, PendingKnown, OutcomeOf, Order, Tables, Followed, Blocked;
    HandOverEffect(q, step);
  }

  /** A write handed over after a stop can only end unsent. */
  lemma {:induction false} StoppedLeavesUnsent(states: seq<Queue>, steps: seq<Step>, k: nat, i: nat, j: nat)
    requires IsRun(states, steps) && k < i < j < |states| && steps[k] == StopQueue
    requires steps[i].HandOver? || steps[i].HoldBack?
    ensures TurnedBack(states[j], states[i].h.ids.issued)
  {
    hide Apply, Enabled, Good, TurnedBack;
    if j > i + 1 {
      StoppedLeavesUnsent(states, steps, k, i, j - 1);
      RunIsGood(states, steps, j - 1);
      TurnedBackStep(states[j - 1], steps[j - 1], states[i].h.ids.issued);
    } else {
      StopSendsNothing(states, steps, k, i);
      RunIsGood(states, steps, i);
      TurnedAwayAtOnce(states[i], steps[i]);
    }
  }

  // ===== attempts that fail =====

  /** An attempt fails and is made again for an error that passes, and for a Started that jobs does not know yet. */
  lemma AttemptsFailFor(q: Queue, error: Error)
    requires q.pc.Parked? && q.entry.Some?
    ensures Enabled(q, AttemptFails(error)) <==>
            Passing(error) || (error.Refused? && error.reason.InstanceUnknown? && q.entry.value.write.Started?)
    ensures Enabled(q, AttemptEnds(Some(error))) <==> !Enabled(q, AttemptFails(error))
    ensures Enabled(q, AttemptEnds(None))
  {}

  /** The number of the last failure is that of a write that still waits for its end. */
  ghost predicate FailureWaits(q: Queue) {
    q.st.lastFailure.Some? ==> q.st.lastFailure.value.0 in q.st.pending
  }

  /** The last failure changes when an attempt fails, and goes when the write of it ends. */
  ghost predicate FailureMoved(q: Queue, q': Queue, step: Step) {
    if step.AttemptFails? then
      && q.entry.Some? && q'.st.lastFailure == Some((q.entry.value.seqNo, step.error))
      && q'.st.pending == q.st.pending
    else if step.RecordEnd? then
      && q.pc.Completing? && q'.st.pending == q.st.pending - {q.pc.entry.seqNo}
      && q'.st.lastFailure == if q.st.lastFailure.Some? && q.st.lastFailure.value.0 == q.pc.entry.seqNo then None
                              else q.st.lastFailure
    else
      q'.st.lastFailure == q.st.lastFailure && q.st.pending.Keys <= q'.st.pending.Keys
  }

  lemma FailureMoves(q: Queue, step: Step)
    requires Enabled(q, step)
    ensures FailureMoved(q, Apply(q, step), step)
  {
    if TaskKind(step) {
      hide Apply, Absorb, DoTakeHead;
      TaskEffect(q, step);
      if step.TakeHead? {
        HeadEffect(q);
      }
    } else if Ending(step) {
      hide Apply, Keep;
      EndingEffect(q, step);
    } else {
      OthersKeepFailure(q, step);
    }
  }

  lemma OthersKeepFailure(q: Queue, step: Step)
    requires Enabled(q, step) && !TaskKind(step) && !Ending(step)
    ensures FailureMoved(q, Apply(q, step), step)
  {
    hide Blocked, Keep, StillWaiting;
  }

  lemma {:induction false} LastFailureWaits(states: seq<Queue>, steps: seq<Step>, i: nat)
    requires IsRun(states, steps) && i < |states|
    ensures FailureWaits(states[i])
  {
    hide Apply, Enabled, Good;
    if i > 0 {
      LastFailureWaits(states, steps, i - 1);
      FailureMoves(states[i - 1], steps[i - 1]);
      if steps[i - 1].AttemptFails? {
        RunIsGood(states, steps, i - 1);
        EntryWaits(states[i - 1]);
      }
    }
  }

  lemma EntryWaits(q: Queue)
    requires Good(q)
    ensures q.entry.Some? ==> q.entry.value.seqNo in q.st.pending
  {
    hide Shape, Outcomes, Order, Tables, Followed, LoadOf;
    if q.entry.Some? {
      EntryInLoad(q);
      Located(q, q.entry.value);
    }
  }

  /** A failure stays the last one until another attempt fails or its write ends. */
  lemma {:induction false} LastFailureStays(states: seq<Queue>, steps: seq<Step>, k: nat, j: nat, error: Error)
    requires IsRun(states, steps) && k < j < |states| && steps[k] == AttemptFails(error)
    requires forall n | k < n < j :: !steps[n].AttemptFails?
    ensures states[k].entry.Some?
    ensures states[k].entry.value.seqNo in states[j].st.pending ==>
              states[j].st.lastFailure == Some((states[k].entry.value.seqNo, error))
  {
    hide Apply, Enabled, Good;
    FailureMoves(states[j - 1], steps[j - 1]);
    if j > k + 1 {
      LastFailureStays(states, steps, k, j - 1, error);
      FailureMoves(states[k], steps[k]);
      RunIsGood(states, steps, k);
      EntryWaits(states[k]);
      PendingOnce(states, steps, k, j - 1, states[k].entry.value.seqNo);
    }
  }

  /** A number that is pending no more never is again. */
  lemma {:induction false} PendingOnce(states: seq<Queue>, steps: seq<Step>, i: nat, j: nat, n: nat)
    requires IsRun(states, steps) && i <= j && j + 1 < |states| && n in states[i].st.pending
    ensures n in states[j + 1].st.pending ==> n in states[j].st.pending
    ensures n < states[j].st.nextSeq
  {
    hide Apply, Enabled, Good;
    RunIsGood(states, steps, i);
    PendingNumbered(states[i]);
    NumbersGrow(states, steps, i, j);
    NewPending(states[j], steps[j]);
  }

  lemma PendingNumbered(q: Queue)
    requires Good(q)
    ensures forall n | n in q.st.pending :: n < q.st.nextSeq
  {
    hide Shape, Conserved, OneToOne, CallsKnown, Outcomes, Order, Tables, Followed;
  }

  lemma NewPending(q: Queue, step: Step)
    requires Enabled(q, step)
    ensures q.st.nextSeq <= Apply(q, step).st.nextSeq
    ensures forall n | n in Apply(q, step).st.pending :: n in q.st.pending || n == q.st.nextSeq
  {
    hide Apply, Blocked, Keep;
    if step.HandOver? || step.HoldBack? {
      HandOverEffect(q, step);
    } else if step.GateEnds? {
      GateEndsEffect(q, step.seqNo, step.gate);
    } else if Quiet(step) {
      QuietEffect(q, step);
    } else if Ending(step) {
      EndingEffect(q, step);
    } else {
      UnqueuedEffect(q, step);
    }
  }

  lemma {:induction false} NumbersGrow(states: seq<Queue>, steps: seq<Step>, i: nat, j: nat)
    requires IsRun(states, steps) && i <= j < |states|
    ensures states[i].st.nextSeq <= states[j].st.nextSeq
  {
    hide Apply, Enabled;
    if i < j {
      NumbersGrow(states, steps, i, j - 1);
      NewPending(states[j - 1], steps[j - 1]);
    }
  }

  // ===== drain waits return =====

  /**
   A look of a drain wait ends it as soon as every write that had a number when the wait took its
   mark has ended; what was queued later does not keep it.
   */
  lemma DrainReturns(states: seq<Queue>, steps: seq<Step>, m: nat, j: nat, id: nat)
    requires IsRun(states, steps) && m < j < |steps| && steps[m] == DrainMark(id) && steps[j] == DrainLook(id)
    requires forall d | d in states[m].h.ids.seqOf :: d in states[j].h.results
    ensures id in states[j + 1].drains && states[j + 1].drains[id].phase.Finished?
  {
    hide Apply, Enabled, Good;
    MarkStays(states, steps, m, j, id);
    RunIsGood(states, steps, m);
    RunIsGood(states, steps, j);
    NumberedKept(states, steps, m, j);
    NumbersKnown(states[m]);
    forall n | n in states[j].st.pending ensures n >= states[m].st.nextSeq {
      if n < states[m].st.nextSeq {
        PendingIsOpen(states[j], n);
        assert false;
      }
    }
    LookEnds(states[j], id);
  }

  lemma LookEnds(q: Queue, id: nat)
    requires Enabled(q, DrainLook(id)) && forall n | n in q.st.pending :: n >= q.drains[id].upto
    ensures id in Apply(q, DrainLook(id)).drains && Apply(q, DrainLook(id)).drains[id].phase.Finished?
  {}

  lemma NumbersKnown(q: Queue)
    requires Good(q)
    ensures forall n: nat | n < q.st.nextSeq :: n in q.h.ids.endOf && q.h.ids.endOf[n] in q.h.ids.seqOf
  {
    hide Shape, Conserved, PendingKnown, CallsKnown, Outcomes, Order, Tables, Followed;
  }

  /** A pending number is that of a write without a result. */
  lemma PendingIsOpen(q: Queue, n: nat)
    requires Good(q) && n in q.st.pending
    ensures n in q.h.ids.endOf && q.h.ids.endOf[n] !in q.h.results
  {
    hide Shape, Conserved, CallsKnown, Order, Tables, Followed;
    assert n in q.h.ids.endOf && q.h.ids.seqOf[q.h.ids.endOf[n]] == n;
    assert OutcomeOf(q, q.h.ids.endOf[n]);
  }

  /** The end of a number never changes. */
  lemma {:induction false} NumberedKept(states: seq<Queue>, steps: seq<Step>, i: nat, j: nat)
    requires IsRun(states, steps) && i <= j < |states|
    ensures forall n | n in states[i].h.ids.endOf && n < states[i].st.nextSeq ::
              n in states[j].h.ids.endOf && states[j].h.ids.endOf[n] == states[i].h.ids.endOf[n]
  {
    hide Apply, Enabled;
    if i < j {
      NumberedKept(states, steps, i, j - 1);
      NumbersGrow(states, steps, i, j - 1);
      EndsStay(states[j - 1], steps[j - 1]);
    }
  }

  lemma EndsStay(q: Queue, step: Step)
    requires Enabled(q, step)
    ensures forall n | n in q.h.ids.endOf && n < q.st.nextSeq ::
              n in Apply(q, step).h.ids.endOf && Apply(q, step).h.ids.endOf[n] == q.h.ids.endOf[n]
  {
    hide Apply, Blocked, Keep;
    if step.HandOver? || step.HoldBack? {
      HandOverEffect(q, step);
    } else if step.GateEnds? {
      GateEndsEffect(q, step.seqNo, step.gate);
    } else if Quiet(step) {
      QuietEffect(q, step);
    } else if Ending(step) {
      EndingEffect(q, step);
    } else {
      UnqueuedEffect(q, step);
    }
  }

  lemma {:induction false} MarkStays(states: seq<Queue>, steps: seq<Step>, m: nat, j: nat, id: nat)
    requires IsRun(states, steps) && m < j < |states| && steps[m] == DrainMark(id)
    ensures id in states[j].drains && !states[j].drains[id].phase.Subscribed?
    ensures states[j].drains[id].upto == states[m].st.nextSeq
  {
    hide Apply, Enabled;
    if j == m + 1 {
      MarkTaken(states[m], id);
    } else {
      MarkStays(states, steps, m, j - 1, id);
      MarkKept(states[j - 1], steps[j - 1], id);
    }
  }

  lemma MarkTaken(q: Queue, id: nat)
    requires Enabled(q, DrainMark(id))
    ensures var q' := Apply(q, DrainMark(id));
            id in q'.drains && q'.drains[id].phase.Looking? && q'.drains[id].upto == q.st.nextSeq
  {}

  lemma MarkKept(q: Queue, step: Step, id: nat)
    requires Enabled(q, step) && id in q.drains && !q.drains[id].phase.Subscribed?
    ensures var q' := Apply(q, step);
            id in q'.drains && q'.drains[id].upto == q.drains[id].upto && !q'.drains[id].phase.Subscribed?
  {
    if DrainKind(step) {
      hide StillWaiting;
    } else {
      hide Apply, Blocked, Keep, Absorb;
      if step.HandOver? || step.HoldBack? {
        HandOverEffect(q, step);
      } else if step.GateEnds? {
        GateEndsEffect(q, step.seqNo, step.gate);
      } else if Quiet(step) {
        QuietEffect(q, step);
      } else if Ending(step) {
        EndingEffect(q, step);
      } else {
        UnqueuedEffect(q, step);
      }
    }
  }
}
