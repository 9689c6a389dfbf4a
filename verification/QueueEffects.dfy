/**
 What the two steps that hand over a write do, field by field; the proofs about
 the queue use these instead of the steps themselves.
 */
module QueueEffects {
  import opened Wrappers
  import opened Writes
  import opened QueueState
  import opened QueueMachine

  /** The task and the drain waits are as before. */
  ghost predicate SameTask(q: Queue, q': Queue) {
    && q'.pc == q.pc && q'.held == q.held && q'.entry == q.entry && q'.permit == q.permit
    && q'.version == q.version && q'.drains == q.drains
    && q'.st.ended == q.st.ended && q'.st.stopped == q.st.stopped
    && q'.h.follow == q.h.follow && q'.h.gate == q.h.gate
    && q'.h.results == q.h.results && q'.h.attempted == q.h.attempted
  }

  /** A write got the next end; `direct` tells whether it came by `enqueue`. */
  ghost predicate GotEnd(q: Queue, q': Queue, w: Write, direct: bool) {
    var end := q.h.ids.issued;
    && q'.h.ids.issued == end + 1
    && q'.h.ids.write == q.h.ids.write[end := w]
    && q'.h.ids.direct == (if direct then q.h.ids.direct + {end} else q.h.ids.direct)
    && q'.h.prior == q.h.prior[end := Returned(q)]
    && q'.h.reports == q.h.reports[end := []]
    && q'.h.sends == q.h.sends[end := []]
  }

  /** The write was registered under the next number. */
  ghost predicate Taken(q: Queue, q': Queue, w: Write) {
    var end := q.h.ids.issued;
    && q'.calls == q.calls[end := Notifying]
    && q'.st.nextSeq == q.st.nextSeq + 1
    && q'.st.pending == q.st.pending[q.st.nextSeq := w]
    && q'.h.ids.endOf == q.h.ids.endOf[q.st.nextSeq := end]
    && q'.h.ids.seqOf == q.h.ids.seqOf[end := q.st.nextSeq]
  }

  /** The write was removed at the hand-over. */
  ghost predicate TurnedAway(q: Queue, q': Queue, w: Write, removal: Removal) {
    && q'.calls == q.calls[q.h.ids.issued := Leaving(w, removal)]
    && q'.st == q.st
    && q'.h.ids.endOf == q.h.ids.endOf
    && q'.h.ids.seqOf == q.h.ids.seqOf
  }

  function HandOverRemoval(q: Queue, step: Step): Option<Removal> {
    if q.st.stopped then Some(LeftUnsent)
    else if step.HandOver? then Blocked(step.write, q.st.ended)
    else None
  }

  ghost predicate HandedOver(q: Queue, q': Queue, step: Step)
    requires step.HandOver? || step.HoldBack?
  {
    var removal := HandOverRemoval(q, step);
    && SameTask(q, q')
    && GotEnd(q, q', step.write, step.HandOver?)
    && if removal.Some? then TurnedAway(q, q', step.write, removal.value)
       else
         var entry := Entry(q.st.nextSeq, step.write, q.h.ids.issued);
         && Taken(q, q', step.write)
         && q'.st.fifo == (if step.HandOver? then q.st.fifo + [entry] else q.st.fifo)
         && q'.st.newHeld == (if step.HandOver? then q.st.newHeld else q.st.newHeld + [Held(entry, step.follow)])
  }

  lemma HandOverEffect(q: Queue, step: Step)
    requires (step.HandOver? || step.HoldBack?) && Enabled(q, step)
    ensures HandedOver(q, Apply(q, step), step)
  {
    hide Blocked, DoHandOver, DoHoldBack;
    if step.HandOver? {
      EnqueueEffect(q, step.write);
    } else {
      HoldEffect(q, step.write, step.follow);
    }
  }

  lemma EnqueueEffect(q: Queue, write: Write)
    ensures HandedOver(q, DoHandOver(q, write), HandOver(write))
  {
    hide Blocked;
  }

  lemma HoldEffect(q: Queue, write: Write, follow: Option<Write>)
    ensures HandedOver(q, DoHoldBack(q, write, follow), HoldBack(write, follow))
  {}

  /** A gate ended; `follow` is the entry of the follow-up when one joined the line. */
  ghost predicate Released(q: Queue, q': Queue, n: nat, gate: Gate)
    requires n in q.held
  {
    var held := q.held[n];
    var e := held.entry;
    && q'.held == q.held - {n} && q'.entry == q.entry && q'.calls == q.calls && q'.drains == q.drains
    && q'.version == q.version && q'.st.newHeld == q.st.newHeld && q'.st.ended == q.st.ended
    && q'.st.stopped == q.st.stopped
    && q'.h.results == q.h.results && q'.h.attempted == q.h.attempted
    && if gate.Dropped? || q.st.stopped then
         && q'.st == q.st && q'.permit == q.permit
         && q'.pc == Completing(e, Err(if gate.Dropped? then DependsOnRemoved else LeftUnsent), Reporting, Top)
         && q'.h == q.h.(gate := q.h.gate[e.end := gate])
       else
         && q'.pc.Top? && q'.permit
         && if held.follow.None? then
              && q'.st == q.st.(fifo := q.st.fifo + [e])
              && q'.h == q.h.(gate := q.h.gate[e.end := gate])
            else ReleasedBehind(q, q', e, held.follow.value, gate)
  }

  ghost predicate ReleasedBehind(q: Queue, q': Queue, e: Entry, follow: Write, gate: Gate) {
    var end := q.h.ids.issued;
    && q'.st.fifo == q.st.fifo + [Entry(q.st.nextSeq, follow, end)] + [e]
    && q'.st.nextSeq == q.st.nextSeq + 1
    && q'.st.pending == q.st.pending[q.st.nextSeq := follow]
    && q'.h.ids.issued == end + 1
    && q'.h.ids.write == q.h.ids.write[end := follow]
    && q'.h.ids.direct == q.h.ids.direct
    && q'.h.ids.endOf == q.h.ids.endOf[q.st.nextSeq := end]
    && q'.h.ids.seqOf == q.h.ids.seqOf[end := q.st.nextSeq]
    && q'.h.prior == q.h.prior[end := Prior(q.h, e.end)][e.end := Prior(q.h, e.end) + {end}]
    && q'.h.reports == q.h.reports[end := []]
    && q'.h.sends == q.h.sends[end := []]
    && q'.h.follow == q.h.follow[e.end := end]
    && q'.h.gate == q.h.gate[e.end := gate][end := gate]
  }

  lemma GateEndsEffect(q: Queue, n: nat, gate: Gate)
    requires Enabled(q, GateEnds(n, gate))
    ensures Released(q, Apply(q, GateEnds(n, gate)), n, gate)
  {}

  // ----- the steps that neither number, nor record, nor say anything

  predicate DrainKind(step: Step) {
    step.DrainSubscribe? || step.DrainMark? || step.DrainLook? || step.DrainWake?
  }

  predicate TaskKind(step: Step) {
    || step.TakeNewHeld? || step.TakeHead? || step.AttemptFails? || step.AttemptEnds?
    || step.WakeUp? || step.DropTask? || step.DropNext?
  }

  predicate Quiet(step: Step) {
    DrainKind(step) || TaskKind(step) || step.Notify? || step.StopQueue?
  }

  predicate Ending(step: Step) {
    step.ReportEnd? || step.RecordEnd? || step.SendEnd? || step.SignalEnd?
  }

  predicate UnqueuedKind(step: Step) {
    step.RecordUnqueued? || step.ReportUnqueued?
  }

  ghost predicate QuietKept(q: Queue, q': Queue, step: Step) {
    && q'.h == q.h.(attempted := q'.h.attempted) && q.h.attempted <= q'.h.attempted
    && q'.st.pending == q.st.pending && q'.st.nextSeq == q.st.nextSeq && q'.st.ended == q.st.ended
    && q'.calls == (if step.Notify? then q.calls - {step.end} else q.calls)
    && q'.version == q.version
    && (!DrainKind(step) ==> q'.drains == q.drains)
    && (!TaskKind(step) ==> q'.pc == q.pc && q'.held == q.held && q'.entry == q.entry
                            && q'.st.fifo == q.st.fifo && q'.st.newHeld == q.st.newHeld)
    && (q.st.stopped ==> q'.st.stopped)
  }

  lemma QuietOther(q: Queue, step: Step)
    requires Enabled(q, step) && Quiet(step) && !TaskKind(step)
    ensures QuietKept(q, Apply(q, step), step)
  {
    hide StillWaiting;
  }

  /** Where the task was, and where it goes. */
  ghost predicate TaskMoved(q: Queue, q': Queue, step: Step)
    requires TaskKind(step)
  {
    match step
    case TakeNewHeld =>
      q.pc.Top? && q' == q.(st := q.st.(newHeld := []), pc := TookHeld, held := Absorb(q.held, q.st.newHeld))
    case TakeHead => q.pc.TookHeld? && q' == DoTakeHead(q)
    case AttemptFails(error) => q.pc.Parked? && q.entry.Some?
        && q' == q.(st := q.st.(lastFailure := Some((q.entry.value.seqNo, error))))
    case AttemptEnds(reply) =>
      && q.pc.Parked? && q.entry.Some? && (reply.Some? ==> !Resendable(q.entry.value.write, reply.value))
      && q' == q.(pc := Completing(q.entry.value, if reply.None? then Ok
             else Err(RemovalOf(reply.value)), Reporting, Top),
                  entry := None)
    case WakeUp => q.pc.Parked? && q' == q.(permit := false, pc := Top)
    case DropTask(order) =>
      && (q.pc.Top? || q.pc.Parked?)
      && multiset(order) == multiset(OptEntry(q.entry)) + multiset(HeldEntries(q.held))
                            + multiset(q.st.fifo) + multiset(EntriesOf(q.st.newHeld))
      && q' == DoDropTask(q, order)
    case DropNext => q.pc.Dropping? && q' == DoDropNext(q)
  }

  lemma TaskEffect(q: Queue, step: Step)
    requires Enabled(q, step) && TaskKind(step)
    ensures TaskMoved(q, Apply(q, step), step)
  {
    hide Blocked, Absorb, DoTakeHead, DoDropTask, DoDropNext, HeldEntries;
  }

  lemma QuietTask(q: Queue, q': Queue, step: Step)
    requires TaskKind(step) && TaskMoved(q, q', step)
    ensures QuietKept(q, q', step)
  {
    hide Absorb, DoTakeHead;
    if step.TakeHead? {
      QuietHead(q);
    }
  }

  /** A look at the head of the line changes where the task is, and may take the head out. */
  ghost predicate HeadTaken(q: Queue, q': Queue) {
    && q'.held == q.held && q'.calls == q.calls && q'.drains == q.drains && q'.permit == q.permit
           && q'.version == q.version
    && q'.h == q.h.(attempted := q'.h.attempted)
    && if q.entry.Some? || q.st.stopped || q.st.fifo == [] then
         q'.st == q.st && q'.pc.Parked? && q'.entry == q.entry && q'.h.attempted == q.h.attempted
       else
         && q'.st == PopHead(q.st)
         && (|| (q'.pc.Completing? && q'.pc.entry == q.st.fifo[0] && q'.pc.next.TookHeld? && q'.entry.None?
               && q'.h.attempted == q.h.attempted)
             || (q'.pc.Parked? && q'.entry == Some(q.st.fifo[0])
                   && q'.h.attempted == q.h.attempted + [q.st.fifo[0].end]))
  }

  lemma HeadEffect(q: Queue)
    requires q.pc.TookHeld?
    ensures HeadTaken(q, DoTakeHead(q))
  {
    hide Blocked;
    var q' := DoTakeHead(q);
    if q.entry.Some? || q.st.stopped || q.st.fifo == [] {
      assert q' == q.(pc := Parked);
    } else if Blocked(q.st.fifo[0].write, q.st.ended).Some? {
      assert q'.h == q.h && q'.st == PopHead(q.st);
    } else {
      assert q'.h == q.h.(attempted := q'.h.attempted) && q'.st == PopHead(q.st);
    }
  }

  lemma QuietHead(q: Queue)
    requires q.pc.TookHeld?
    ensures QuietKept(q, DoTakeHead(q), TakeHead)
  {
    hide DoTakeHead;
    HeadEffect(q);
  }

  lemma QuietEffect(q: Queue, step: Step)
    requires Enabled(q, step) && Quiet(step)
    ensures QuietKept(q, Apply(q, step), step)
  {
    hide Apply, Enabled, QuietKept, TaskMoved;
    if TaskKind(step) {
      TaskEffect(q, step);
      QuietTask(q, Apply(q, step), step);
    } else {
      QuietOther(q, step);
    }
  }

  // ----- the parts of a completion, and the end of a write that was never queued

  /** One part of `complete`; everything but the named fields is as before. */
  ghost predicate Completed(q: Queue, q': Queue, step: Step)
    requires q.pc.Completing? && Ending(step)
  {
    var e := q.pc.entry;
    match step
    case ReportEnd =>
      q' == q.(pc := q.pc.(stage := Recording), h := q.h.(reports := Append(q.h.reports, e.end, q.pc.result)))
    case RecordEnd =>
      q' == q.(st := Record(q.st, e, q.pc.result), pc := q.pc.(stage := Sending),
               h := q.h.(results := q.h.results[e.end := q.pc.result]))
    case SendEnd =>
      q' == q.(pc := q.pc.(stage := Signalling), h := q.h.(sends := Append(q.h.sends, e.end, q.pc.result)))
    case SignalEnd => q' == q.(version := q.version + 1, pc := q.pc.next)
  }

  predicate InStage(q: Queue, step: Step)
    requires Ending(step)
  {
    && q.pc.Completing?
    && match step
       case ReportEnd => q.pc.stage.Reporting?
       case RecordEnd => q.pc.stage.Recording?
       case SendEnd => q.pc.stage.Sending?
       case SignalEnd => q.pc.stage.Signalling?
  }

  lemma EndingEffect(q: Queue, step: Step)
    requires Enabled(q, step) && Ending(step)
    ensures InStage(q, step) && Completed(q, Apply(q, step), step)
  {}

  ghost predicate EndedUnqueued(q: Queue, q': Queue, step: Step)
    requires UnqueuedKind(step) && step.end in q.calls && !q.calls[step.end].Notifying?
  {
    var removal := q.calls[step.end].removal;
    if step.RecordUnqueued? then
      && q.calls[step.end].Leaving?
      && q' == q.(st := q.st.(ended := Keep(q.st.ended, q.calls[step.end].write, Err(removal))),
                  calls := q.calls[step.end := ReportingUnqueued(removal)],
                  h := q.h.(results := q.h.results[step.end := Err(removal)]))
    else
      && q.calls[step.end].ReportingUnqueued?
      && q' == q.(calls := q.calls - {step.end},
                  h := q.h.(reports := Append(q.h.reports, step.end, Err(removal)),
                            sends := Append(q.h.sends, step.end, Err(removal))))
  }

  lemma UnqueuedEffect(q: Queue, step: Step)
    requires Enabled(q, step) && UnqueuedKind(step)
    ensures step.end in q.calls && !q.calls[step.end].Notifying? && EndedUnqueued(q, Apply(q, step), step)
  {}

  /** The write that a step gives an end, if it does. */
  function NewWriteOf(q: Queue, step: Step): Option<Write> {
    if step.HandOver? || step.HoldBack? then Some(step.write)
    else if step.GateEnds? && step.seqNo in q.held then q.held[step.seqNo].follow
    else None
  }

  lemma NewWriteEffect(q: Queue, step: Step)
    requires Enabled(q, step)
    ensures forall d | d in Apply(q, step).h.ids.write && d !in q.h.ids.write ::
              NewWriteOf(q, step) == Some(Apply(q, step).h.ids.write[d])
  {
    hide Apply, Blocked, Keep;
    if step.HandOver? || step.HoldBack? {
      HandOverEffect(q, step);
    } else if step.GateEnds? {
      GateEndsEffect(q, step.seqNo, step.gate);
    } else if Quiet(step) {
      QuietEffect(q, step);
    } else if Ending(step) {
      EndingEffect(q, step);
    } else {
      UnqueuedEffect(q, step);
    }
  }
}
