/**
 Exactly one end: each write that was handed over gets one terminal result, one
 terminal report and one message on its channel, and they agree.
 */
module QueueOutcomes {
  import opened Writes
  import opened QueueState
  import opened QueueMachine
  import opened QueueEffects
  import opened QueueConservation

  /** The write still waits for its terminal result. */
  ghost predicate Open(q: Queue, d: EndId) {
    || (d in q.h.ids.seqOf && q.h.ids.seqOf[d] in q.st.pending)
    || (d in q.calls && q.calls[d].Leaving?)
  }

  ghost predicate InCompletion(pc: Pc, d: EndId) {
    pc.Completing? && pc.entry.end == d
  }

  ghost predicate Unreported(q: Queue, d: EndId) {
    d in q.calls && q.calls[d].ReportingUnqueued?
  }

  ghost predicate Reported(q: Queue, d: EndId) {
    if InCompletion(q.pc, d) then !q.pc.stage.Reporting? else d in q.h.results && !Unreported(q, d)
  }

  ghost predicate Sent(q: Queue, d: EndId) {
    if InCompletion(q.pc, d) then q.pc.stage.Signalling? else d in q.h.results && !Unreported(q, d)
  }

  ghost function Final(q: Queue, d: EndId): seq<WriteResult> {
    if InCompletion(q.pc, d) then [q.pc.result] else if d in q.h.results then [q.h.results[d]] else []
  }

  /** How far the end of one write is, and what was said about it so far. */
  ghost predicate OutcomeOf(q: Queue, d: EndId) {
    && d in q.h.reports && d in q.h.sends
    && (d in q.h.results <==> !Open(q, d))
    && q.h.reports[d] == (if Reported(q, d) then Final(q, d) else [])
    && q.h.sends[d] == (if Sent(q, d) then Final(q, d) else [])
    && (InCompletion(q.pc, d) ==>
          && d in q.h.ids.seqOf
          && (q.pc.stage.Sending? || q.pc.stage.Signalling? ==> d in q.h.results && q.h.results[d] == q.pc.result))
    && (Unreported(q, d) ==> d in q.h.results && q.h.results[d] == Err(q.calls[d].removal))
  }

  ghost predicate Outcomes(q: Queue) {
    && (forall d: nat | d < q.h.ids.issued :: OutcomeOf(q, d))
    && (forall d | d in q.h.results :: d < q.h.ids.issued)
    && (q.pc.Completing? ==> q.pc.entry.end < q.h.ids.issued)
  }

  /** The hand-over of `d` still has something to do about its end. */
  ghost predicate StillLeaving(calls: map<EndId, Call>, d: EndId) {
    d in calls && !calls[d].Notifying?
  }

  /** Nothing that the outcome of `d` looks at has changed, the place of the task apart. */
  ghost predicate SameOutcome(q: Queue, q': Queue, d: EndId) {
    && (d in q'.h.ids.seqOf <==> d in q.h.ids.seqOf)
    && (d in q.h.ids.seqOf ==> q'.h.ids.seqOf[d] == q.h.ids.seqOf[d]
                               && (q'.h.ids.seqOf[d] in q'.st.pending <==> q.h.ids.seqOf[d] in q.st.pending))
    && (StillLeaving(q'.calls, d) <==> StillLeaving(q.calls, d)) && (StillLeaving(q.calls, d) ==>
          q'.calls[d] == q.calls[d])
    && (d in q'.h.results <==> d in q.h.results) && (d in q.h.results ==> q'.h.results[d] == q.h.results[d])
    && (d in q.h.reports ==> d in q'.h.reports && q'.h.reports[d] == q.h.reports[d])
    && (d in q.h.sends ==> d in q'.h.sends && q'.h.sends[d] == q.h.sends[d])
  }

  lemma SameOutcomeKeeps(q: Queue, q': Queue, d: EndId)
    requires OutcomeOf(q, d) && SameOutcome(q, q', d)
    requires q'.pc == q.pc || (!InCompletion(q.pc, d) && !InCompletion(q'.pc, d))
    ensures OutcomeOf(q', d)
  {}

  /** The task goes on outside a completion, or begins one of an entry it holds. */
  lemma TaskMoves(q: Queue, q': Queue, d: EndId)
    requires Inv(q) && OutcomeOf(q, d) && SameOutcome(q, q', d) && !q.pc.Completing?
    requires q'.pc.Completing? ==> q'.pc.stage.Reporting? && q'.pc.entry in Load(q)
    ensures OutcomeOf(q', d)
  {
    hide Conserved, Shape;
    if InCompletion(q'.pc, d) {
      Located(q, q'.pc.entry);
    }
  }

  // ----- each kind of step keeps the outcome of one write

  lemma HandOverNew(q: Queue, q': Queue, step: Step)
    requires Numbers(q) && Outcomes(q) && (step.HandOver? || step.HoldBack?) && HandedOver(q, q', step)
    ensures OutcomeOf(q', q.h.ids.issued)
  {
    hide OneToOne, PendingKnown, CallsKnown, OutcomeOf;
    var d := q.h.ids.issued;
    assert d !in q.h.results;
    NewOutcome(q, q', d);
  }

  lemma NewOutcome(q: Queue, q': Queue, d: EndId)
    requires d !in q'.h.results && !InCompletion(q'.pc, d)
    requires d in q'.h.reports && q'.h.reports[d] == [] && d in q'.h.sends && q'.h.sends[d] == []
    requires || (d in q'.calls && q'.calls[d].Leaving?)
             || (d in q'.h.ids.seqOf && q'.h.ids.seqOf[d] in q'.st.pending && !StillLeaving(q'.calls, d))
    ensures OutcomeOf(q', d)
  {}

  lemma HandOverOld(q: Queue, q': Queue, step: Step, d: EndId)
    requires Numbers(q) && (step.HandOver? || step.HoldBack?) && HandedOver(q, q', step)
    requires OutcomeOf(q, d) && d < q.h.ids.issued
    ensures OutcomeOf(q', d)
  {
    hide OutcomeOf;
    assert SameOutcome(q, q', d);
    SameOutcomeKeeps(q, q', d);
  }

  lemma GateEndsNew(q: Queue, q': Queue, n: nat, gate: Gate)
    requires Numbers(q) && Outcomes(q) && n in q.held && q.pc.Parked? && Released(q, q', n, gate)
    requires q'.h.ids.issued > q.h.ids.issued
    ensures OutcomeOf(q', q.h.ids.issued)
  {
    hide OneToOne, PendingKnown, OutcomeOf;
    NewOutcome(q, q', q.h.ids.issued);
  }

  lemma GateEndsOld(q: Queue, q': Queue, n: nat, gate: Gate, d: EndId)
    requires Inv(q) && OutcomeOf(q, d) && d < q.h.ids.issued
    requires q.pc.Parked? && n in q.held && Released(q, q', n, gate)
    ensures OutcomeOf(q', d)
  {
    hide OutcomeOf, Inv, Released, LoadOf;
    HeldInLoad(q, n);
    NumbersBefore(q, d);
    GateSameOutcome(q, q', n, gate, d);
    ReleasedPc(q, q', n, gate);
    hide SameOutcome;
    TaskMoves(q, q', d);
  }

  lemma NumbersBefore(q: Queue, d: EndId)
    requires Inv(q)
    ensures d in q.h.ids.seqOf ==> q.h.ids.seqOf[d] < q.st.nextSeq
  {
    hide Conserved, Shape, PendingKnown, CallsKnown;
  }

  lemma ReleasedPc(q: Queue, q': Queue, n: nat, gate: Gate)
    requires n in q.held && Released(q, q', n, gate)
    ensures q'.pc.Completing? ==> q'.pc.stage.Reporting? && q'.pc.entry == q.held[n].entry
  {}

  lemma GateSameOutcome(q: Queue, q': Queue, n: nat, gate: Gate, d: EndId)
    requires n in q.held && Released(q, q', n, gate) && d < q.h.ids.issued
    requires d in q.h.ids.seqOf ==> q.h.ids.seqOf[d] < q.st.nextSeq
    ensures SameOutcome(q, q', d)
  {}

  lemma UnqueuedOutcome(q: Queue, q': Queue, step: Step, d: EndId)
    requires Numbers(q) && OutcomeOf(q, d)
    requires UnqueuedKind(step) && step.end in q.calls && !q.calls[step.end].Notifying? && EndedUnqueued(q, q', step)
    ensures OutcomeOf(q', d)
  {
    hide OutcomeOf, EndedUnqueued, OneToOne, PendingKnown;
    assert step.end !in q.h.ids.seqOf;
    hide Numbers;
    if d != step.end {
      UnqueuedOther(q, q', step, d);
    } else {
      UnqueuedOwn(q, q', step);
    }
  }

  lemma UnqueuedOther(q: Queue, q': Queue, step: Step, d: EndId)
    requires OutcomeOf(q, d) && UnqueuedKind(step) && d != step.end
    requires step.end in q.calls && !q.calls[step.end].Notifying? && EndedUnqueued(q, q', step)
    ensures OutcomeOf(q', d)
  {
    hide Keep, OutcomeOf;
    assert SameOutcome(q, q', d);
    SameOutcomeKeeps(q, q', d);
  }

  lemma UnqueuedOwn(q: Queue, q': Queue, step: Step)
    requires UnqueuedKind(step) && OutcomeOf(q, step.end) && step.end !in q.h.ids.seqOf
    requires step.end in q.calls && !q.calls[step.end].Notifying? && EndedUnqueued(q, q', step)
    ensures OutcomeOf(q', step.end)
  {
    hide Keep;
  }

  /** The entry a completion is about is recorded by nobody else. */
  lemma CompletionOfQueued(q: Queue)
    requires Inv(q) && q.pc.Completing? && (q.pc.stage.Reporting? || q.pc.stage.Recording?)
    ensures q.pc.entry.end in q.h.ids.seqOf && q.h.ids.seqOf[q.pc.entry.end] == q.pc.entry.seqNo
    ensures q.pc.entry.end < q.h.ids.issued && q.pc.entry.seqNo in q.st.pending
    ensures q.pc.entry.end in q.h.ids.write && q.h.ids.write[q.pc.entry.end] == q.pc.entry.write
  {
    hide Shape, LoadOf;
    TaskInLoad(q, 0);
    Located(q, q.pc.entry);
  }

  lemma CompletionOther(q: Queue, q': Queue, step: Step, d: EndId)
    requires Inv(q) && OutcomeOf(q, d) && Ending(step) && InStage(q, step) && Completed(q, q', step)
    requires d != q.pc.entry.end
    ensures OutcomeOf(q', d)
  {
    hide Keep, OutcomeOf, Conserved;
    if step.RecordEnd? {
      CompletionOfQueued(q);
      assert d in q.h.ids.seqOf ==> q.h.ids.seqOf[d] != q.pc.entry.seqNo;
    }
    assert !InCompletion(q'.pc, d);
    hide Inv;
    assert SameOutcome(q, q', d);
    SameOutcomeKeeps(q, q', d);
  }

  lemma CompletionOwn(q: Queue, q': Queue, step: Step)
    requires Inv(q) && Ending(step) && InStage(q, step) && Completed(q, q', step) && OutcomeOf(q, q.pc.entry.end)
    ensures OutcomeOf(q', q.pc.entry.end)
  {
    hide Inv, Keep, OutcomeOf, Completed;
    if step.RecordEnd? {
      CompletionOfQueued(q);
      QueuedOwn(q);
      RecordedOwn(q, q');
    } else if step.ReportEnd? {
      ReportedOwn(q, q');
    } else if step.SendEnd? {
      SentOwn(q, q');
    } else {
      EndIsQueued(q);
      QueuedOwn(q);
      SignalledOwn(q, q');
    }
  }

  lemma EndIsQueued(q: Queue)
    requires q.pc.Completing? && OutcomeOf(q, q.pc.entry.end)
    ensures q.pc.entry.end in q.h.ids.seqOf
  {}

  lemma RecordedOwn(q: Queue, q': Queue)
    requires InStage(q, RecordEnd) && Completed(q, q', RecordEnd) && OutcomeOf(q, q.pc.entry.end)
    requires q.pc.entry.end in q.h.ids.seqOf && q.h.ids.seqOf[q.pc.entry.end] == q.pc.entry.seqNo
    requires !StillLeaving(q.calls, q.pc.entry.end)
    ensures OutcomeOf(q', q.pc.entry.end)
  {
    hide Keep;
  }

  /** The end of a completion is that of a queued write, so no hand-over speaks of it. */
  lemma QueuedOwn(q: Queue)
    requires Inv(q) && q.pc.Completing? && q.pc.entry.end in q.h.ids.seqOf
    ensures !StillLeaving(q.calls, q.pc.entry.end) && !InCompletion(q.pc.next, q.pc.entry.end)
  {
    hide Conserved, OneToOne, PendingKnown, Keyed;
  }

  lemma ReportedOwn(q: Queue, q': Queue)
    requires InStage(q, ReportEnd) && Completed(q, q', ReportEnd) && OutcomeOf(q, q.pc.entry.end)
    ensures OutcomeOf(q', q.pc.entry.end)
  {
    assert q'.h.reports[q.pc.entry.end] == [q.pc.result];
  }

  lemma SentOwn(q: Queue, q': Queue)
    requires InStage(q, SendEnd) && Completed(q, q', SendEnd) && OutcomeOf(q, q.pc.entry.end)
    ensures OutcomeOf(q', q.pc.entry.end)
  {
    assert q'.h.sends[q.pc.entry.end] == [q.pc.result];
  }

  lemma SignalledOwn(q: Queue, q': Queue)
    requires InStage(q, SignalEnd) && Completed(q, q', SignalEnd) && OutcomeOf(q, q.pc.entry.end)
    requires !StillLeaving(q.calls, q.pc.entry.end) && !InCompletion(q.pc.next, q.pc.entry.end)
    ensures OutcomeOf(q', q.pc.entry.end)
  {
    var d := q.pc.entry.end;
    assert !InCompletion(q'.pc, d) && !Unreported(q', d) && d in q'.h.results && q'.h.results[d] == q.pc.result;
    assert q.h.reports[d] == [q.pc.result] && q.h.sends[d] == [q.pc.result];
  }

  /** A task that begins a completion takes the entry from a place of the queue. */
  lemma BeginsFromLoad(q: Queue, q': Queue, step: Step)
    requires TaskKind(step) && TaskMoved(q, q', step)
    ensures q'.pc.Completing? ==> q'.pc.stage.Reporting? && q'.pc.entry in Load(q)
  {
    hide Blocked, Absorb, LoadOf;
    match step
    case TakeHead =>
      if q.st.fifo != [] {
        FifoInLoad(q, 0);
      }
    case DropNext =>
      if q.pc.rest != [] {
        TaskInLoad(q, 0);
      }
    case AttemptEnds(_) => EntryInLoad(q);
    case _ =>
  }

  lemma NotCompleting(q: Queue, q': Queue, step: Step)
    requires TaskKind(step) && TaskMoved(q, q', step)
    ensures !q.pc.Completing?
  {}

  lemma QuietOutcome(q: Queue, step: Step, d: EndId)
    requires Inv(q) && OutcomeOf(q, d) && Enabled(q, step) && Quiet(step)
    ensures OutcomeOf(Apply(q, step), d)
  {
    hide OutcomeOf, Inv, Apply, Enabled, Load, TaskMoved;
    var q' := Apply(q, step);
    QuietEffect(q, step);
    assert SameOutcome(q, q', d) by { CallsShrink(q, q', step, d); }
    if TaskKind(step) {
      TaskEffect(q, step);
      NotCompleting(q, q', step);
      BeginsFromLoad(q, q', step);
      TaskMoves(q, q', d);
    } else {
      SameOutcomeKeeps(q, q', d);
    }
  }

  lemma CallsShrink(q: Queue, q': Queue, step: Step, d: EndId)
    requires Enabled(q, step) && QuietKept(q, q', step)
    ensures StillLeaving(q'.calls, d) <==> StillLeaving(q.calls, d)
    ensures StillLeaving(q.calls, d) ==> q'.calls[d] == q.calls[d]
  {}

  lemma OutcomeStep(q: Queue, step: Step, d: EndId)
    requires Inv(q) && Outcomes(q) && Enabled(q, step) && d < Apply(q, step).h.ids.issued
    ensures OutcomeOf(Apply(q, step), d)
  {
    hide OutcomeOf, Apply, Conserved, Numbers, Shape;
    var q' := Apply(q, step);
    if step.HandOver? || step.HoldBack? {
      HandOverEffect(q, step);
      if d < q.h.ids.issued {
        HandOverOld(q, q', step, d);
      } else {
        HandOverNew(q, q', step);
      }
    } else if step.GateEnds? {
      GateEndsEffect(q, step.seqNo, step.gate);
      if d < q.h.ids.issued {
        GateEndsOld(q, q', step.seqNo, step.gate, d);
      } else {
        GateEndsNew(q, q', step.seqNo, step.gate);
      }
    } else if Quiet(step) {
      QuietEffect(q, step);
      QuietOutcome(q, step, d);
    } else if Ending(step) {
      EndingEffect(q, step);
      if d == q.pc.entry.end {
        CompletionOwn(q, q', step);
      } else {
        CompletionOther(q, q', step, d);
      }
    } else {
      UnqueuedEffect(q, step);
      UnqueuedOutcome(q, q', step, d);
    }
  }

  /** The results of a state are those of the state before, and perhaps one more. */
  ghost predicate ResultsGrow(results: map<EndId, WriteResult>, results': map<EndId, WriteResult>, issued: nat) {
    && (forall d | d in results :: d in results' && results'[d] == results[d])
    && (forall d | d in results' :: d in results || d < issued)
  }

  lemma ResultsStep(q: Queue, step: Step)
    requires Inv(q) && Outcomes(q) && Enabled(q, step)
    ensures ResultsGrow(q.h.results, Apply(q, step).h.results, q.h.ids.issued)
  {
    hide OutcomeOf, Apply, Conserved, Numbers, Shape, Keep;
    if step.HandOver? || step.HoldBack? {
      HandOverEffect(q, step);
    } else if step.GateEnds? {
      GateEndsEffect(q, step.seqNo, step.gate);
    } else if Quiet(step) {
      QuietEffect(q, step);
    } else if Ending(step) {
      EndingEffect(q, step);
      if step.RecordEnd? {
        CompletionOfQueued(q);
        assert OutcomeOf(q, q.pc.entry.end);
        StillOpen(q, q.pc.entry.end);
      }
    } else {
      UnqueuedEffect(q, step);
      NumbersGive(q);
      assert OutcomeOf(q, step.end);
      if step.RecordUnqueued? {
        StillOpen(q, step.end);
      }
    }
  }

  lemma StillOpen(q: Queue, d: EndId)
    requires OutcomeOf(q, d) && Open(q, d)
    ensures d !in q.h.results
  {}

  lemma NumbersGive(q: Queue)
    requires Inv(q)
    ensures forall d | d in q.calls :: d < q.h.ids.issued
  {}

  lemma CompletingKnown(q: Queue, step: Step)
    requires Inv(q) && Outcomes(q) && Enabled(q, step)
    ensures Apply(q, step).pc.Completing? ==> Apply(q, step).pc.entry.end < q.h.ids.issued
    ensures Apply(q, step).h.ids.issued >= q.h.ids.issued
  {
    hide OutcomeOf, Apply, Keep, Conserved, Numbers, Load;
    var q' := Apply(q, step);
    if step.HandOver? || step.HoldBack? {
      HandOverEffect(q, step);
    } else if step.GateEnds? {
      GateEndsEffect(q, step.seqNo, step.gate);
      HeldInLoad(q, step.seqNo);
      Located(q, q.held[step.seqNo].entry);
    } else if Quiet(step) {
      QuietEffect(q, step);
      if TaskKind(step) && q'.pc.Completing? {
        TaskEffect(q, step);
        BeginsFromLoad(q, q', step);
        Located(q, q'.pc.entry);
      }
    } else if Ending(step) {
      EndingEffect(q, step);
    } else {
      UnqueuedEffect(q, step);
    }
  }

  lemma OutcomesStep(q: Queue, step: Step)
    requires Inv(q) && Outcomes(q) && Enabled(q, step)
    ensures Outcomes(Apply(q, step))
  {
    hide OutcomeOf, Apply, Enabled, Inv;
    var q' := Apply(q, step);
    forall d: nat | d < q'.h.ids.issued ensures OutcomeOf(q', d) {
      OutcomeStep(q, step, d);
    }
    ResultsStep(q, step);
    CompletingKnown(q, step);
  }
}
