/**
 The closing of a Run over its delivery queue: the answer, the saved state and the
 completed fact are handed over, their ends awaited, and a completed fact that was
 removed for a dependency is followed by a failed fact.
 */
module RunClosing {
  import opened Wrappers
  import opened Writes
  import opened QueueState
  import opened QueueMachine
  import opened QueueEffects
  import opened QueueConservation
  import opened QueueOutcomes
  import opened QueueTables
  import opened QueueTheorems
  import opened QueueReasons

  /** How the graph of the Run ended, and the writes made of its last state. */
  datatype RunEnding =
    | Cancelled
    | RunFailed(code: string)
    | RunEnded(answer: Option<string>, saved: Option<string>)

  datatype Phase =
    | ToAnswer
    | ToSaved
    | ToCompleted
    | AwaitAnswer
    | AwaitSaved
    | AwaitCompleted
    | ToFail(code: string, cause: Option<Error>)
    | AwaitFailed
    | Closed

  datatype Closing = Closing(
    q: Queue,
    ending: RunEnding,
    phase: Phase,
    answer: Option<EndId>,
    saved: Option<EndId>,
    completed: Option<EndId>,
    failed: Option<EndId>,
    gotAnswer: Option<WriteResult>,
    gotSaved: Option<WriteResult>)

  datatype CStep =
    | QueueStep(step: Step)
    | HandOverNext
    | AwaitNext

  function FirstPhase(ending: RunEnding): Phase {
    match ending
    case Cancelled => Closed
    case RunFailed(code) => ToFail(code, None)
    case RunEnded(_, _) => ToAnswer
  }

  predicate IsFirst(c: Closing) {
    c == Closing(Start, c.ending, FirstPhase(c.ending), None, None, None, None, None, None)
  }

  /** The writes that only the closing of the Run hands over. */
  predicate ClosingWrite(write: Write) {
    write.Answer? || write.SavedState? || (write.RunFact? && (write.fact.CompletedFact? || write.fact.FailedFact?))
  }

  function CauseOf(removal: Removal): Option<Error> {
    match removal
    case RefusedBy(error) => Some(error)
    case FailedWith(error) => Some(error)
    case _ => None
  }

  function CauseIn(got: Option<WriteResult>): Option<Error> {
    if got.Some? && got.value.Err? then CauseOf(got.value.removal) else None
  }

  /** The first of the answer and the saved state that ended with an error. */
  function FindCause(gotAnswer: Option<WriteResult>, gotSaved: Option<WriteResult>): Option<(string, Error)> {
    if CauseIn(gotAnswer).Some? then Some(("answer_refused", CauseIn(gotAnswer).value))
    else if CauseIn(gotSaved).Some? then Some(("saved_state_refused", CauseIn(gotSaved).value))
    else None
  }

  /** The write the closing hands over in this phase, if any. */
  function NextWrite(c: Closing): Option<Write> {
    match c.phase
    case ToAnswer => if c.ending.RunEnded? && c.ending.answer.Some? then Some(Answer(c.ending.answer.value)) else None
    case ToSaved => if c.ending.RunEnded? && c.ending.saved.Some? then Some(SavedState(c.ending.saved.value)) else None
    case ToCompleted => Some(RunFact(CompletedFact))
    case ToFail(code, cause) => Some(RunFact(FailedFact(code, cause)))
    case _ => None
  }

  function Awaited(c: Closing): Option<EndId> {
    match c.phase
    case AwaitAnswer => c.answer
    case AwaitSaved => c.saved
    case AwaitCompleted => c.completed
    case AwaitFailed => c.failed
    case _ => None
  }

  predicate Done(q: Queue, end: Option<EndId>) {
    end.Some? ==> end.value !in q.calls
  }

  predicate CEnabled(c: Closing, step: CStep) {
    match step
    case QueueStep(s) => Enabled(c.q, s) && !(s.HandOver? && ClosingWrite(s.write))
    case HandOverNext =>
      && (c.phase.ToAnswer? || c.phase.ToSaved? || c.phase.ToCompleted? || c.phase.ToFail?)
      && c.q.h.ids.issued > 0 && 0 !in c.q.calls
      && Done(c.q, c.answer) && Done(c.q, c.saved)
    case AwaitNext =>
      && (c.phase.AwaitAnswer? || c.phase.AwaitSaved? || c.phase.AwaitCompleted? || c.phase.AwaitFailed?)
      && (Awaited(c).Some? ==> Awaited(c).value in c.q.h.sends && c.q.h.sends[Awaited(c).value] != [])
  }

  function DoHandOverNext(c: Closing): Closing
    requires CEnabled(c, HandOverNext)
  {
    var write := NextWrite(c);
    var q := if write.Some? then Apply(c.q, HandOver(write.value)) else c.q;
    var end := if write.Some? then Some(c.q.h.ids.issued) else None;
    match c.phase
    case ToAnswer => c.(q := q, phase := ToSaved, answer := end)
    case ToSaved => c.(q := q, phase := ToCompleted, saved := end)
    case ToCompleted => c.(q := q, phase := AwaitAnswer, completed := end)
    case ToFail(_, _) => c.(q := q, phase := AwaitFailed, failed := end)
  }

  function DoAwaitNext(c: Closing): Closing
    requires CEnabled(c, AwaitNext)
  {
    var got := if Awaited(c).Some? then Some(c.q.h.sends[Awaited(c).value][0]) else None;
    match c.phase
    case AwaitAnswer => c.(phase := AwaitSaved, gotAnswer := got)
    case AwaitSaved => c.(phase := AwaitCompleted, gotSaved := got)
    case AwaitCompleted =>
      var cause := if got == Some(Err(DependsOnRemoved)) then FindCause(c.gotAnswer, c.gotSaved) else None;
      c.(phase := if cause.Some? then ToFail(cause.value.0, Some(cause.value.1)) else Closed)
    case AwaitFailed => c.(phase := Closed)
  }

  function CApply(c: Closing, step: CStep): Closing
    requires CEnabled(c, step)
  {
    match step
    case QueueStep(s) => c.(q := Apply(c.q, s))
    case HandOverNext => DoHandOverNext(c)
    case AwaitNext => DoAwaitNext(c)
  }

  ghost predicate IsClosingRun(states: seq<Closing>, steps: seq<CStep>) {
    && |states| == |steps| + 1 && IsFirst(states[0])
    && forall i | 0 <= i < |steps| :: CEnabled(states[i], steps[i]) && states[i + 1] == CApply(states[i], steps[i])
  }

  // ===== what the closing keeps =====

  /** Each kind of closing write was handed over at most once, by the closing. */
  ghost predicate OwnWrites(write: map<EndId, Write>, answer: Option<EndId>, saved: Option<EndId>,
                            completed: Option<EndId>, failed: Option<EndId>) {
    forall d | d in write ::
      && (write[d].Answer? <==> answer == Some(d))
      && (write[d].SavedState? <==> saved == Some(d))
      && (write[d] == RunFact(CompletedFact) <==> completed == Some(d))
      && (write[d].RunFact? && write[d].fact.FailedFact? <==> failed == Some(d))
  }

  ghost predicate Owned(h: History, end: Option<EndId>) {
    end.Some? ==> end.value in h.ids.direct && end.value in h.ids.write
  }

  ghost predicate HasGot(q: Queue, end: Option<EndId>, got: Option<WriteResult>) {
    if end.Some? then end.value in q.h.results && got == Some(q.h.results[end.value]) else got.None?
  }

  ghost predicate CompletedRemoved(c: Closing) {
    c.completed.Some? && c.completed.value in c.q.h.results && c.q.h.results[c.completed.value] == Err(DependsOnRemoved)
  }

  ghost predicate PhaseOk(c: Closing) {
    && (c.phase.ToAnswer? ==> c.answer.None? && c.saved.None? && c.completed.None? && c.failed.None?)
    && (c.phase.ToSaved? ==> c.saved.None? && c.completed.None? && c.failed.None?)
    && (c.phase.ToCompleted? ==> c.completed.None? && c.failed.None?)
    && (c.phase.AwaitAnswer? || c.phase.AwaitSaved? || c.phase.AwaitCompleted? ==> c.completed.Some? && c.failed.None?)
    && (c.phase.AwaitSaved? || c.phase.AwaitCompleted? ==> HasGot(c.q, c.answer, c.gotAnswer))
    && (c.phase.AwaitCompleted? ==> HasGot(c.q, c.saved, c.gotSaved))
    && (c.phase.ToFail? ==> c.failed.None?)
  }

  /** After the completed fact ended: what followed it and why. */
  ghost predicate FailOk(c: Closing) {
    c.completed.Some? && (c.phase.ToFail? || c.phase.AwaitFailed? || c.phase.Closed?) ==>
      && HasGot(c.q, c.answer, c.gotAnswer) && HasGot(c.q, c.saved, c.gotSaved)
      && c.completed.value in c.q.h.results
      && (c.phase.ToFail? ==> CompletedRemoved(c) && c.phase.cause.Some?
                              && FindCause(c.gotAnswer, c.gotSaved) == Some((c.phase.code, c.phase.cause.value)))
      && (c.failed.Some? ==>
            && CompletedRemoved(c) && FindCause(c.gotAnswer, c.gotSaved).Some?
            && c.failed.value in c.q.h.ids.write
            && var cause := FindCause(c.gotAnswer, c.gotSaved).value;
               c.q.h.ids.write[c.failed.value] == RunFact(FailedFact(cause.0, Some(cause.1))))
      && (c.phase.Closed? && c.failed.None? && CompletedRemoved(c) ==> FindCause(c.gotAnswer, c.gotSaved).None?)
      && (c.phase.AwaitFailed? ==> c.failed.Some?)
  }

  /** The end holds this write, if there is one; `later` came after it. */
  ghost predicate HoldsIt(c: Closing, end: Option<EndId>, write: Option<Write>) {
    && (end.Some? <==> write.Some?)
    && (end.Some? ==> end.value in c.q.h.ids.write && c.q.h.ids.write[end.value] == write.value)
  }

  ghost predicate Before(end: Option<EndId>, later: Option<EndId>) {
    end.Some? && later.Some? ==> end.value < later.value
  }

  /** What a Run produced was handed over, in its order, before the fact that it completed. */
  ghost predicate ProducedOk(c: Closing) {
    match c.ending
    case RunEnded(answer, saved) =>
      && var answerWrite := if answer.Some? then Some(Answer(answer.value)) else None;
         var savedWrite := if saved.Some? then Some(SavedState(saved.value)) else None;
         && (if c.phase.ToAnswer? then c.answer.None? else HoldsIt(c, c.answer, answerWrite))
         && (if c.phase.ToAnswer? || c.phase.ToSaved? then c.saved.None? else HoldsIt(c, c.saved, savedWrite))
         && (if c.phase.ToAnswer? || c.phase.ToSaved? || c.phase.ToCompleted? then c.completed.None?
             else HoldsIt(c, c.completed, Some(RunFact(CompletedFact))))
         && Before(c.answer, c.completed) && Before(c.saved, c.completed) && Before(c.answer, c.saved)
    case RunFailed(code) =>
      && c.answer.None? && c.saved.None? && c.completed.None?
      && (|| (c.phase == ToFail(code, None) && c.failed.None?)
          || ((c.phase.AwaitFailed? || c.phase.Closed?) && HoldsIt(c, c.failed, Some(RunFact(FailedFact(code, None))))))
    case Cancelled =>
      c.answer.None? && c.saved.None? && c.completed.None? && c.failed.None? && c.phase.Closed?
  }

  ghost predicate CInv(c: Closing) {
    && Good(c.q) && Reasons(c.q)
    && OwnWrites(c.q.h.ids.write, c.answer, c.saved, c.completed, c.failed)
    && Owned(c.q.h, c.answer) && Owned(c.q.h, c.saved) && Owned(c.q.h, c.completed) && Owned(c.q.h, c.failed)
    && PhaseOk(c) && FailOk(c) && ProducedOk(c)
  }

  // ----- steps of the queue

  lemma NewWriteIsOther(q: Queue, step: Step)
    requires Good(q) && Enabled(q, step) && !(step.HandOver? && ClosingWrite(step.write))
    ensures NewWriteOf(q, step).Some? ==> !ClosingWrite(NewWriteOf(q, step).value)
  {
    hide Inv, Outcomes, QueueOrder.Order, Table, StartedFirst, Drains, Woken;
    if step.GateEnds? {
      assert Shut(q.h, q.held[step.seqNo]);
    }
  }

  lemma OwnWritesKept(q: Queue, q': Queue, answer: Option<EndId>, saved: Option<EndId>, completed: Option<EndId>,
      failed: Option<EndId>)
    requires OwnWrites(q.h.ids.write, answer, saved, completed, failed)
    requires Owned(q.h, answer) && Owned(q.h, saved) && Owned(q.h, completed) && Owned(q.h, failed)
    requires forall d | d in q.h.ids.write :: d in q'.h.ids.write && q'.h.ids.write[d] == q.h.ids.write[d]
    requires forall d | d in q'.h.ids.write && d !in q.h.ids.write :: !ClosingWrite(q'.h.ids.write[d])
    ensures OwnWrites(q'.h.ids.write, answer, saved, completed, failed)
  {}

  lemma QueueStepKeeps(c: Closing, step: Step)
    requires CInv(c) && CEnabled(c, QueueStep(step))
    ensures CInv(c.(q := Apply(c.q, step)))
  {
    hide Apply, Enabled, Good, Reasons, OwnWrites, ClosingWrite, FindCause, NewWriteOf;
    var q' := Apply(c.q, step);
    GoodStep(c.q, step);
    ReasonsStep(c.q, step);
    StepRemembers(c.q, step);
    StepStays(c.q, step);
    NewWriteIsOther(c.q, step);
    NewWriteEffect(c.q, step);
    OwnWritesKept(c.q, q', c.answer, c.saved, c.completed, c.failed);
  }

  // ----- steps of the closing

  /** What one hand-over of the closing does to the queue. */
  lemma OwnHandOver(q: Queue, write: Write)
    requires Good(q) && Reasons(q) && ClosingWrite(write) && q.h.ids.issued > 0 && 0 !in q.calls
    ensures Enabled(q, HandOver(write))
    ensures var q' := Apply(q, HandOver(write));
            && Good(q') && Reasons(q') && ReasonsStay(q, q') && Remembers(q.h, q'.h)
            && q'.h.ids.write == q.h.ids.write[q.h.ids.issued := write]
            && q'.h.ids.direct == q.h.ids.direct + {q.h.ids.issued}
            && q.h.ids.issued !in q.h.ids.write && (forall d | d in q.h.ids.write :: d < q.h.ids.issued)
  {
    hide Apply, Reasons, Blocked;
    assert Enabled(q, HandOver(write));
    UnusedEnd(q);
    hide Good;
    GoodStep(q, HandOver(write));
    ReasonsStep(q, HandOver(write));
    StepStays(q, HandOver(write));
    StepRemembers(q, HandOver(write));
    HandOverEffect(q, HandOver(write));
  }

  lemma OwnWritesAdd(write: map<EndId, Write>, answer: Option<EndId>, saved: Option<EndId>,
                     completed: Option<EndId>, failed: Option<EndId>, d: EndId, w: Write)
    requires OwnWrites(write, answer, saved, completed, failed) && d !in write
    requires answer.Some? ==> answer.value in write
    requires saved.Some? ==> saved.value in write
    requires completed.Some? ==> completed.value in write
    requires failed.Some? ==> failed.value in write
    ensures w.Answer? && answer.None? ==> OwnWrites(write[d := w], Some(d), saved, completed, failed)
    ensures w.SavedState? && saved.None? ==> OwnWrites(write[d := w], answer, Some(d), completed, failed)
    ensures w == RunFact(CompletedFact) && completed.None? ==> OwnWrites(write[d := w], answer, saved, Some(d), failed)
    ensures w.RunFact? && w.fact.FailedFact? && failed.None? ==>
        OwnWrites(write[d := w], answer, saved, completed, Some(d))
  {}

  lemma HandOverNextKeeps(c: Closing)
    requires CInv(c) && CEnabled(c, HandOverNext)
    ensures CInv(DoHandOverNext(c))
  {
    hide Apply, Enabled, Good, Reasons, FindCause, OwnWrites, PhaseOk, FailOk, ProducedOk, ReasonsStay;
    PhasesStart(c);
    if NextWrite(c).Some? {
      var write := NextWrite(c).value;
      OwnHandOver(c.q, write);
      HandOverPhase(c, Apply(c.q, HandOver(write)));
      HandOverProduced(c, Apply(c.q, HandOver(write)));
      OwnWritesAdd(c.q.h.ids.write, c.answer, c.saved, c.completed, c.failed, c.q.h.ids.issued, write);
    } else {
      NothingToHand(c);
    }
  }

  /** What is handed over in a phase was not handed over before. */
  lemma PhasesStart(c: Closing)
    requires PhaseOk(c)
    ensures c.phase.ToAnswer? ==> c.answer.None?
    ensures c.phase.ToSaved? ==> c.saved.None?
    ensures c.phase.ToCompleted? ==> c.completed.None?
    ensures c.phase.ToFail? ==> c.failed.None?
  {}

  lemma HandOverPhase(c: Closing, q': Queue)
    requires PhaseOk(c) && FailOk(c) && CEnabled(c, HandOverNext) && NextWrite(c).Some?
    requires q' == Apply(c.q, HandOver(NextWrite(c).value)) && ReasonsStay(c.q, q')
    requires q'.h.ids.write == c.q.h.ids.write[c.q.h.ids.issued := NextWrite(c).value]
    ensures PhaseOk(DoHandOverNext(c)) && FailOk(DoHandOverNext(c))
  {
    hide Apply, Enabled, FindCause;
  }

  lemma HandOverProduced(c: Closing, q': Queue)
    requires ProducedOk(c) && CEnabled(c, HandOverNext) && NextWrite(c).Some?
    requires q' == Apply(c.q, HandOver(NextWrite(c).value))
    requires q'.h.ids.write == c.q.h.ids.write[c.q.h.ids.issued := NextWrite(c).value]
    requires forall d | d in c.q.h.ids.write :: d < c.q.h.ids.issued
    ensures ProducedOk(DoHandOverNext(c))
  {
    hide Apply, Enabled, FindCause;
  }

  lemma NothingToHand(c: Closing)
    requires PhaseOk(c) && FailOk(c) && ProducedOk(c) && CEnabled(c, HandOverNext) && NextWrite(c).None?
    ensures PhaseOk(DoHandOverNext(c)) && FailOk(DoHandOverNext(c)) && ProducedOk(DoHandOverNext(c))
  {
    hide Apply, Enabled, FindCause;
  }

  lemma SentIsResult(q: Queue, d: EndId)
    requires Good(q) && d in q.h.ids.write && d in q.h.sends && q.h.sends[d] != []
    ensures d in q.h.results && q.h.sends[d] == [q.h.results[d]]
  {
    hide Conserved, Shape, OneToOne, PendingKnown, CallsKnown, QueueOrder.Order, Tables;
    assert OutcomeOf(q, d);
  }

  lemma AwaitNextKeeps(c: Closing)
    requires CInv(c) && CEnabled(c, AwaitNext)
    ensures CInv(DoAwaitNext(c))
  {
    hide Apply, Enabled, Good, Reasons, OwnWrites;
    if Awaited(c).Some? {
      SentIsResult(c.q, Awaited(c).value);
    }
  }

  lemma FirstHolds(c: Closing)
    requires IsFirst(c)
    ensures CInv(c)
  {
    StartGood();
    hide Good;
  }

  lemma {:induction false} ClosingRunKeeps(states: seq<Closing>, steps: seq<CStep>, i: nat)
    requires IsClosingRun(states, steps) && i < |states|
    ensures CInv(states[i])
  {
    hide CInv, Apply, Enabled, DoHandOverNext, DoAwaitNext;
    if i == 0 {
      FirstHolds(states[0]);
    } else {
      ClosingRunKeeps(states, steps, i - 1);
      var c := states[i - 1];
      match steps[i - 1]
      case QueueStep(step) => QueueStepKeeps(c, step);
      case HandOverNext => HandOverNextKeeps(c);
      case AwaitNext => AwaitNextKeeps(c);
    }
  }

  // ===== the theorems =====

  predicate TerminalFact(write: Write) {
    write.RunFact? && (write.fact.CompletedFact? || write.fact.FailedFact?)
  }

  /**
   A Run that ended with an answer or a saved state has handed exactly these over, the answer first,
   before the fact that it completed.
   */
  lemma ProducedIsHandedOver(states: seq<Closing>, steps: seq<CStep>, i: nat, answer: Option<string>,
      saved: Option<string>)
    requires IsClosingRun(states, steps) && i < |states|
    requires states[i].ending == RunEnded(answer, saved) && states[i].completed.Some?
    ensures var c := states[i];
            && c.completed.value in c.q.h.ids.write && c.q.h.ids.write[c.completed.value] == RunFact(CompletedFact)
            && (c.answer.Some? <==> answer.Some?) && (c.saved.Some? <==> saved.Some?)
            && (answer.Some? ==>
                  && c.answer.value in c.q.h.ids.write && c.q.h.ids.write[c.answer.value] == Answer(answer.value)
                  && c.answer.value < c.completed.value)
            && (saved.Some? ==>
                  && c.saved.value in c.q.h.ids.write && c.q.h.ids.write[c.saved.value] == SavedState(saved.value)
                  && c.saved.value < c.completed.value)
            && (answer.Some? && saved.Some? ==> c.answer.value < c.saved.value)
  {
    hide Apply, Enabled, Good, Reasons, OwnWrites, FindCause, PhaseOk, FailOk, CEnabled, CApply;
    ClosingRunKeeps(states, steps, i);
  }

  /** Whatever a closing does, it ends with the fact that the Run completed, failed, or was cancelled with neither. */
  lemma ClosedWithItsFact(states: seq<Closing>, steps: seq<CStep>, i: nat)
    requires IsClosingRun(states, steps) && i < |states| && states[i].phase.Closed?
    ensures var c := states[i];
            var facts := set d | d in c.q.h.ids.write && TerminalFact(c.q.h.ids.write[d]);
            match c.ending
            case RunEnded(_, _) =>
              && c.completed.Some? && c.completed.value in facts
              && (c.failed.Some? ==> CompletedRemoved(c))
            case RunFailed(code) =>
              && c.failed.Some? && facts == {c.failed.value}
              && c.q.h.ids.write[c.failed.value] == RunFact(FailedFact(code, None))
            case Cancelled => facts == {}
  {
    hide Apply, Enabled, Good, Reasons, FindCause, CEnabled, CApply;
    ClosingRunKeeps(states, steps, i);
  }

  /** Over the whole closing at most one of the completed and failed facts is delivered. */
  lemma AtMostOneTerminalFact(states: seq<Closing>, steps: seq<CStep>, i: nat, d: EndId, e: EndId)
    requires IsClosingRun(states, steps) && i < |states|
    requires d in states[i].q.h.ids.write && TerminalFact(states[i].q.h.ids.write[d])
    requires e in states[i].q.h.ids.write && TerminalFact(states[i].q.h.ids.write[e])
    requires d in states[i].q.h.results && states[i].q.h.results[d] == Ok
    requires e in states[i].q.h.results && states[i].q.h.results[e] == Ok
    ensures d == e
  {
    hide Apply, Enabled, Good, Reasons, FindCause, CEnabled, CApply;
    ClosingRunKeeps(states, steps, i);
    var c := states[i];
    assert c.completed.Some? && c.failed.Some? ==> CompletedRemoved(c);
  }

  /** With Started delivered, no Started was removed. */
  lemma StartedStands(q: Queue, c: EndId)
    requires Good(q) && 0 in q.h.results && q.h.results[0] == Ok && c in q.h.results && c in q.h.ids.write
    requires q.h.results[c].Err?
    ensures !q.h.ids.write[c].Started?
  {
    hide Inv, Outcomes, QueueOrder.Order, Table, Gates, Drains, Woken, QueueFollows.Followed;
  }

  /** The answer and the saved state can only be removed with an error of their own. */
  lemma RemovedWithError(q: Queue, d: EndId)
    requires Good(q) && Reasons(q) && !q.st.stopped && 0 in q.h.results && q.h.results[0] == Ok
    requires d in q.h.ids.direct && d in q.h.results && d in q.h.ids.write && q.h.results[d] != Ok
    requires q.h.ids.write[d].Answer? || q.h.ids.write[d].SavedState?
    ensures CauseOf(q.h.results[d].removal).Some?
  {
    hide Good;
    assert ReasonOf(q, d);
    if q.h.results[d] == Err(DependsOnRemoved) {
      var c := DirectReason(q, d);
      StartedStands(q, c);
      assert false;
    }
  }

  /** A completed fact removed for a dependency points at the answer or the saved state. */
  lemma RemovedForAnswerOrSaved(c: Closing)
    requires CInv(c) && !c.q.st.stopped && 0 in c.q.h.results && c.q.h.results[0] == Ok && CompletedRemoved(c)
    ensures || (c.answer.Some? && c.answer.value in c.q.h.results && c.q.h.results[c.answer.value] != Ok)
            || (c.saved.Some? && c.saved.value in c.q.h.results && c.q.h.results[c.saved.value] != Ok)
  {
    hide Good, Reasons, PhaseOk, FailOk;
    var d := c.completed.value;
    assert c.q.h.ids.write[d] == RunFact(CompletedFact);
    var w := DirectReason(c.q, d);
    StartedStands(c.q, w);
  }

  /**
   With Started delivered and the queue not stopped, a closing that is over and whose
   completed fact was removed for a dependency has handed over one failed fact; its
   cause is the error of the answer, or of the saved state when the answer has none.
   */
  lemma RemovedCompletedIsFollowedByFailed(states: seq<Closing>, steps: seq<CStep>, i: nat)
    requires IsClosingRun(states, steps) && i < |states| && states[i].phase.Closed? && CompletedRemoved(states[i])
    requires !states[i].q.st.stopped && 0 in states[i].q.h.results && states[i].q.h.results[0] == Ok
    ensures var c := states[i];
            && c.failed.Some? && c.failed.value in c.q.h.ids.write
            && (forall e | e in c.q.h.ids.write && c.q.h.ids.write[e].RunFact?
                  && c.q.h.ids.write[e].fact.FailedFact? :: e == c.failed.value)
            && if c.answer.Some? && c.answer.value in c.q.h.results && c.q.h.results[c.answer.value] != Ok then
                 && CauseOf(c.q.h.results[c.answer.value].removal).Some?
                 && c.q.h.ids.write[c.failed.value]
                    == RunFact(FailedFact("answer_refused", CauseOf(c.q.h.results[c.answer.value].removal)))
               else
                 && c.saved.Some? && c.saved.value in c.q.h.results && c.q.h.results[c.saved.value] != Ok
                 && CauseOf(c.q.h.results[c.saved.value].removal).Some?
                 && c.q.h.ids.write[c.failed.value]
                    == RunFact(FailedFact("saved_state_refused", CauseOf(c.q.h.results[c.saved.value].removal)))
  {
    hide Apply, Enabled, Good, Reasons, CEnabled, CApply;
    ClosingRunKeeps(states, steps, i);
    var c := states[i];
    RemovedForAnswerOrSaved(c);
    if c.answer.Some? && c.answer.value in c.q.h.results && c.q.h.results[c.answer.value] != Ok {
      RemovedWithError(c.q, c.answer.value);
    }
    if c.saved.Some? && c.saved.value in c.q.h.results && c.q.h.results[c.saved.value] != Ok {
      RemovedWithError(c.q, c.saved.value);
    }
  }
}
