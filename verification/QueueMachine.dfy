/**
 The delivery queue as a transition system. One step is one critical section, one
 effect between two sections, or one reply from outside. Callers, drain waits and
 the sending task interleave in every order.
 */
module QueueMachine {
  import opened Wrappers
  import opened Writes
  import opened QueueState

  /** The parts of `complete`, in their order. */
  datatype Stage = Reporting | Recording | Sending | Signalling

  /** Where the sending task stands. */
  datatype Pc =
    | Top
    | TookHeld
    | Parked
    | Completing(entry: Entry, result: WriteResult, stage: Stage, next: Pc)
    | Dropping(rest: seq<Entry>)
    | Dead

  /** What a hand-over still has to do before it returns. */
  datatype Call =
    | Notifying
    | Leaving(write: Write, removal: Removal)
    | ReportingUnqueued(removal: Removal)

  datatype DrainPhase = Subscribed | Looking | Asleep | Finished

  datatype Drain = Drain(phase: DrainPhase, seen: nat, upto: nat, before: set<EndId>)

  /** The ends given out, their writes, the numbers of those that were queued, and which came by `enqueue`. */
  datatype Ids = Ids(
    issued: nat,
    write: map<EndId, Write>,
    endOf: map<nat, EndId>,
    seqOf: map<EndId, nat>,
    direct: set<EndId>)

  /**
   What happened so far. No section of the queue reads it, but for `ids.issued`, the next free end.
   `sends` stands for the one-shot channels of the ends: those who wait on an end read it.
   */
  datatype History = History(
    ids: Ids,
    prior: map<EndId, set<EndId>>,
    follow: map<EndId, EndId>,
    gate: map<EndId, Gate>,
    results: map<EndId, WriteResult>,
    reports: map<EndId, seq<WriteResult>>,
    sends: map<EndId, seq<WriteResult>>,
    attempted: seq<EndId>)

  datatype Queue = Queue(
    st: State,
    permit: bool,
    version: nat,
    pc: Pc,
    held: map<nat, Held>,
    entry: Option<Entry>,
    calls: map<EndId, Call>,
    drains: map<nat, Drain>,
    h: History)

  datatype Step =
    | HandOver(write: Write)
    | HoldBack(write: Write, follow: Option<Write>)
    | Notify(end: EndId)
    | RecordUnqueued(end: EndId)
    | ReportUnqueued(end: EndId)
    | StopQueue
    | TakeNewHeld
    | TakeHead
    | GateEnds(seqNo: nat, gate: Gate)
    | AttemptFails(error: Error)
    | AttemptEnds(reply: Option<Error>)
    | WakeUp
    | ReportEnd
    | RecordEnd
    | SendEnd
    | SignalEnd
    | DropTask(order: seq<Entry>)
    | DropNext
    | DrainSubscribe(id: nat)
    | DrainMark(id: nat)
    | DrainLook(id: nat)
    | DrainWake(id: nat)

  const EmptyHistory := History(Ids(0, map[], map[], map[], {}), map[], map[], map[], map[], map[], map[], [])

  const Start := Queue(EmptyState, false, 0, Top, map[], None, map[], map[], EmptyHistory)

  /** The hand-overs made by `enqueue` that returned so far. */
  function Returned(q: Queue): set<EndId> {
    q.h.ids.direct - q.calls.Keys
  }

  /** Started is handed over by the maker of the queue before anyone else holds it. */
  predicate MayHandOver(q: Queue, write: Write) {
    if write.Started? then q.h.ids.issued == 0 else q.h.ids.issued > 0 && 0 !in q.calls
  }

  function OptEntry(entry: Option<Entry>): seq<Entry> {
    if entry.Some? then [entry.value] else []
  }

  function HeldEntries(held: map<nat, Held>): set<Entry> {
    set n | n in held :: held[n].entry
  }

  function Absorb(held: map<nat, Held>, items: seq<Held>): map<nat, Held>
    decreases |items|
  {
    if items == [] then held else Absorb(held[items[0].entry.seqNo := items[0]], items[1..])
  }

  predicate Enabled(q: Queue, step: Step) {
    match step
    case HandOver(write) => MayHandOver(q, write)
    case HoldBack(write, follow) =>
      write.Marker? && (follow.Some? ==> follow.value.Finish?) && MayHandOver(q, write)
    case Notify(end) => end in q.calls && q.calls[end].Notifying?
    case RecordUnqueued(end) => end in q.calls && q.calls[end].Leaving?
    case ReportUnqueued(end) => end in q.calls && q.calls[end].ReportingUnqueued?
    case StopQueue => true
    case TakeNewHeld => q.pc.Top?
    case TakeHead => q.pc.TookHeld?
    case GateEnds(seqNo, _) => q.pc.Parked? && seqNo in q.held
    case AttemptFails(error) => q.pc.Parked? && q.entry.Some? && Resendable(q.entry.value.write, error)
    case AttemptEnds(reply) =>
      q.pc.Parked? && q.entry.Some? && (reply.Some? ==> !Resendable(q.entry.value.write, reply.value))
    case WakeUp => q.pc.Parked? && q.permit
    case ReportEnd => q.pc.Completing? && q.pc.stage.Reporting?
    case RecordEnd => q.pc.Completing? && q.pc.stage.Recording?
    case SendEnd => q.pc.Completing? && q.pc.stage.Sending?
    case SignalEnd => q.pc.Completing? && q.pc.stage.Signalling?
    case DropTask(order) =>
      && (q.pc.Top? || q.pc.Parked?)
      && SortedBySeq(order)
      && multiset(order) == multiset(OptEntry(q.entry)) + multiset(HeldEntries(q.held))
                            + multiset(q.st.fifo) + multiset(EntriesOf(q.st.newHeld))
    case DropNext => q.pc.Dropping?
    case DrainSubscribe(id) => id !in q.drains
    case DrainMark(id) => id in q.drains && q.drains[id].phase.Subscribed?
    case DrainLook(id) => id in q.drains && q.drains[id].phase.Looking?
    case DrainWake(id) => id in q.drains && q.drains[id].phase.Asleep? && q.drains[id].seen != q.version
  }

  function Append(m: map<EndId, seq<WriteResult>>, end: EndId, result: WriteResult): map<EndId, seq<WriteResult>> {
    m[end := (if end in m then m[end] else []) + [result]]
  }

  function Prior(h: History, end: EndId): set<EndId> {
    if end in h.prior then h.prior[end] else {}
  }

  /** A write gets its end; `prior` are the hand-overs it must not overtake. */
  function Issue(h: History, write: Write, prior: set<EndId>): History {
    var end := h.ids.issued;
    h.(ids := h.ids.(issued := end + 1, write := h.ids.write[end := write]),
       prior := h.prior[end := prior],
       reports := h.reports[end := []],
       sends := h.sends[end := []])
  }

  function Number(h: History, end: EndId, seqNo: nat): History {
    h.(ids := h.ids.(endOf := h.ids.endOf[seqNo := end], seqOf := h.ids.seqOf[end := seqNo]))
  }

  function Direct(h: History, end: EndId): History {
    h.(ids := h.ids.(direct := h.ids.direct + {end}))
  }

  function DoHandOver(q: Queue, write: Write): Queue {
    var end := q.h.ids.issued;
    var issued := Direct(Issue(q.h, write, Returned(q)), end);
    var removal := if q.st.stopped then Some(LeftUnsent) else Blocked(write, q.st.ended);
    if removal.Some? then q.(calls := q.calls[end := Leaving(write, removal.value)], h := issued)
    else q.(st := Enqueue(q.st, write, end), calls := q.calls[end := Notifying],
            h := Number(issued, end, q.st.nextSeq))
  }

  function DoHoldBack(q: Queue, write: Write, follow: Option<Write>): Queue {
    var end := q.h.ids.issued;
    var issued := Issue(q.h, write, Returned(q));
    if q.st.stopped then q.(calls := q.calls[end := Leaving(write, LeftUnsent)], h := issued)
    else q.(st := Hold(q.st, write, follow, end), calls := q.calls[end := Notifying],
            h := Number(issued, end, q.st.nextSeq))
  }

  function DoRecordUnqueued(q: Queue, end: EndId): Queue
    requires Enabled(q, RecordUnqueued(end))
  {
    var removal := q.calls[end].removal;
    q.(st := q.st.(ended := Keep(q.st.ended, q.calls[end].write, Err(removal))),
       calls := q.calls[end := ReportingUnqueued(removal)],
       h := q.h.(results := q.h.results[end := Err(removal)]))
  }

  function DoReportUnqueued(q: Queue, end: EndId): Queue
    requires Enabled(q, ReportUnqueued(end))
  {
    var result := Err(q.calls[end].removal);
    q.(calls := q.calls - {end},
       h := q.h.(reports := Append(q.h.reports, end, result),
                 sends := Append(q.h.sends, end, result)))
  }

  function DoTakeHead(q: Queue): Queue
    requires q.pc.TookHeld?
  {
    if q.entry.Some? || q.st.stopped || q.st.fifo == [] then q.(pc := Parked)
    else
      var head := q.st.fifo[0];
      var removal := Blocked(head.write, q.st.ended);
      if removal.Some? then
        q.(st := PopHead(q.st), pc := Completing(head, Err(removal.value), Reporting, TookHeld))
      else
        q.(st := PopHead(q.st), pc := Parked, entry := Some(head),
           h := q.h.(attempted := q.h.attempted + [head.end]))
  }

  /** Whether a step starts to send a write: the head of the line is let through. */
  predicate StartsAttempt(q: Queue, step: Step) {
    && step.TakeHead? && q.pc.TookHeld? && q.entry.None? && !q.st.stopped && q.st.fifo != []
    && Blocked(q.st.fifo[0].write, q.st.ended).None?
  }

  function DoGateEnds(q: Queue, seqNo: nat, gate: Gate): Queue
    requires Enabled(q, GateEnds(seqNo, gate))
  {
    var held := q.held[seqNo];
    var entry := held.entry;
    var left := q.(held := q.held - {seqNo}, h := q.h.(gate := q.h.gate[entry.end := gate]));
    if gate.Dropped? then left.(pc := Completing(entry, Err(DependsOnRemoved), Reporting, Top))
    else if q.st.stopped then left.(pc := Completing(entry, Err(LeftUnsent), Reporting, Top))
    else
      var followEnd := q.h.ids.issued;
      var h :=
        if held.follow.None? then left.h
        else
          var issued := Number(Issue(left.h, held.follow.value, Prior(q.h, entry.end)), followEnd, q.st.nextSeq);
          issued.(prior := issued.prior[entry.end := Prior(q.h, entry.end) + {followEnd}],
                  follow := issued.follow[entry.end := followEnd],
                  gate := issued.gate[followEnd := gate]);
      left.(st := Release(q.st, held, followEnd), pc := Top, permit := true, h := h)
  }

  function DoAttemptEnds(q: Queue, reply: Option<Error>): Queue
    requires Enabled(q, AttemptEnds(reply))
  {
    var result := if reply.None? then Ok else Err(RemovalOf(reply.value));
    q.(pc := Completing(q.entry.value, result, Reporting, Top), entry := None)
  }

  function DoReportEnd(q: Queue): Queue
    requires Enabled(q, ReportEnd)
  {
    var end := q.pc.entry.end;
    q.(pc := q.pc.(stage := Recording),
       h := q.h.(reports := Append(q.h.reports, end, q.pc.result)))
  }

  function DoRecordEnd(q: Queue): Queue
    requires Enabled(q, RecordEnd)
  {
    q.(st := Record(q.st, q.pc.entry, q.pc.result), pc := q.pc.(stage := Sending),
       h := q.h.(results := q.h.results[q.pc.entry.end := q.pc.result]))
  }

  function DoSendEnd(q: Queue): Queue
    requires Enabled(q, SendEnd)
  {
    var end := q.pc.entry.end;
    q.(pc := q.pc.(stage := Signalling),
       h := q.h.(sends := Append(q.h.sends, end, q.pc.result)))
  }

  function DoDropTask(q: Queue, order: seq<Entry>): Queue {
    q.(st := q.st.(stopped := true, fifo := [], newHeld := []), pc := Dropping(order), held := map[], entry := None)
  }

  function DoDropNext(q: Queue): Queue
    requires q.pc.Dropping?
  {
    if q.pc.rest == [] then q.(pc := Dead)
    else q.(pc := Completing(q.pc.rest[0], Err(LeftUnsent), Reporting, Dropping(q.pc.rest[1..])))
  }

  /** Whether anything numbered before `upto` is still pending. */
  predicate StillWaiting(q: Queue, upto: nat) {
    exists n :: n in q.st.pending && n < upto
  }

  function DoDrain(q: Queue, step: Step): Queue
    requires Enabled(q, step)
    requires step.DrainSubscribe? || step.DrainMark? || step.DrainLook? || step.DrainWake?
  {
    var drain :=
      match step
      case DrainSubscribe(_) => Drain(Subscribed, q.version, 0, q.h.ids.write.Keys - q.calls.Keys)
      case DrainMark(id) => q.drains[id].(phase := Looking, upto := q.st.nextSeq)
      case DrainLook(id) =>
        q.drains[id].(phase := if StillWaiting(q, q.drains[id].upto) then Asleep else Finished)
      case DrainWake(id) => q.drains[id].(phase := Looking, seen := q.version);
    q.(drains := q.drains[step.id := drain])
  }

  function Apply(q: Queue, step: Step): Queue
    requires Enabled(q, step)
  {
    match step
    case HandOver(write) => DoHandOver(q, write)
    case HoldBack(write, follow) => DoHoldBack(q, write, follow)
    case Notify(end) => q.(permit := true, calls := q.calls - {end})
    case RecordUnqueued(end) => DoRecordUnqueued(q, end)
    case ReportUnqueued(end) => DoReportUnqueued(q, end)
    case StopQueue => q.(st := q.st.(stopped := true))
    case TakeNewHeld => q.(st := q.st.(newHeld := []), pc := TookHeld, held := Absorb(q.held, q.st.newHeld))
    case TakeHead => DoTakeHead(q)
    case GateEnds(seqNo, gate) => DoGateEnds(q, seqNo, gate)
    case AttemptFails(error) => q.(st := q.st.(lastFailure := Some((q.entry.value.seqNo, error))))
    case AttemptEnds(reply) => DoAttemptEnds(q, reply)
    case WakeUp => q.(permit := false, pc := Top)
    case ReportEnd => DoReportEnd(q)
    case RecordEnd => DoRecordEnd(q)
    case SendEnd => DoSendEnd(q)
    case SignalEnd => q.(version := q.version + 1, pc := q.pc.next)
    case DropTask(order) => DoDropTask(q, order)
    case DropNext => DoDropNext(q)
    case DrainSubscribe(_) => DoDrain(q, step)
    case DrainMark(_) => DoDrain(q, step)
    case DrainLook(_) => DoDrain(q, step)
    case DrainWake(_) => DoDrain(q, step)
  }

  /** A run: any finite interleaving of enabled steps from the empty queue. */
  ghost predicate IsRun(states: seq<Queue>, steps: seq<Step>) {
    && |states| == |steps| + 1
    && states[0] == Start
    && forall i | 0 <= i < |steps| :: Enabled(states[i], steps[i]) && states[i + 1] == Apply(states[i], steps[i])
  }
}
