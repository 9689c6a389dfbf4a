/**
 What every step of a thread slot keeps: one worker, first in first out, and the rule
 for items behind an opening.
 */
module ThreadWorker {
  import opened Wrappers
  import opened ThreadLine

  // ===== one worker, and its head is the head of the line =====

  predicate SpawnDue(p: Producer) {
    (p.Pushed? || p.Signalled?) && p.spawn
  }

  /** The item a worker holds and has not yet taken out of the line. */
  function HeadOf(pc: Pc): Option<Queued> {
    match pc
    case Took(head) => Some(head)
    case Attempting(head) => Some(head)
    case Rejected(head, _) => Some(head)
    case Ending(head, _) => Some(head)
    case Popping(head, _) => Some(head)
    case _ => None
  }

  ghost predicate OneWorker(s: Slot) {
    && (forall v, w | v in s.workers && w in s.workers :: v == w)
    && (s.workers != map[] ==> s.line.workerRunning && !SpawnDue(s.producer))
    && (SpawnDue(s.producer) ==> s.line.workerRunning)
    && (s.line.workerRunning && !s.stopped ==> s.workers != map[] || SpawnDue(s.producer))
    && (s.line.items != [] ==> s.line.workerRunning)
    && (forall w | w in s.workers && HeadOf(s.workers[w]).Some? ::
          s.line.items != [] && s.line.items[0] == HeadOf(s.workers[w]).value)
  }

  // ===== first in, first out =====

  ghost predicate Fifo(s: Slot) {
    && |s.h.log| <= |s.h.pushed|
    && s.line.items == s.h.pushed[|s.h.log|..]
    && (forall k | 0 <= k < |s.h.log| ::
          s.h.log[k].queued == s.h.pushed[k] && k < s.h.log[k].queuedThen <= |s.h.pushed|)
  }

  ghost predicate Increasing(pushed: seq<Queued>) {
    forall j, k | 0 <= j < k < |pushed| :: pushed[j].no < pushed[k].no
  }

  ghost predicate Numbers(s: Slot) {
    && Increasing(s.h.pushed)
    && (forall k | 0 <= k < |s.h.pushed| :: 0 < s.h.pushed[k].no <= s.line.lastNo)
    && s.line.lastNo == (if s.h.pushed == [] then 0 else s.h.pushed[|s.h.pushed| - 1].no)
    && s.line.lastNo <= s.numbers
    && (s.producer.Numbered? ==> s.line.lastNo < s.producer.no <= s.numbers)
  }

  /** Until the adapter stops, what was handed over is what was queued. */
  ghost predicate Handed(s: Slot) {
    var now := if s.producer.Numbered? then 1 else 0;
    && |s.h.pushed| + now <= |s.h.handed|
    && (!s.stopped ==> |s.h.pushed| + now == |s.h.handed|)
    && (forall k | 0 <= k < |s.h.pushed| :: s.h.pushed[k].item == s.h.handed[k])
    && (s.producer.Numbered? && !s.stopped ==> s.h.handed[|s.h.pushed|] == s.producer.item)
  }

  // ===== behind an opening =====

  ghost predicate IsOpeningOf(item: Item, message: Uuid) {
    item.body.Opening? && item.message == message
  }

  ghost predicate OpeningDelivered(log: seq<Ended>, k: nat, message: Uuid)
    requires k < |log|
  {
    IsOpeningOf(log[k].queued.item, message) ==> log[k].how.Delivered?
  }

  /** Every opening of the message that ended was delivered. */
  ghost predicate NoneRefused(log: seq<Ended>, message: Uuid) {
    forall k: nat | k < |log| :: OpeningDelivered(log, k, message)
  }

  ghost predicate OpeningEnded(s: Slot, k: nat)
    requires k < |s.h.log|
  {
    var e := s.h.log[k];
    && (e.queued.item.body.Opening? ==> e.how.Delivered? || (e.how.Refused? && e.queued.item.message in s.refused))
    && (e.how.Unsent? ==> e.queued.item.message in s.refused)
  }

  ghost predicate PcOk(s: Slot, pc: Pc) {
    match pc
    case Attempting(head) => !head.item.body.Opening? ==> NoneRefused(s.h.log, head.item.message)
    case Rejected(head, error) =>
      !Retryable(head.item.body, error) && (!head.item.body.Opening? ==> NoneRefused(s.h.log, head.item.message))
    case Ending(head, how) => EndsAs(s, head, how)
    case Popping(head, how) => EndsAs(s, head, how)
    case _ => true
  }

  ghost predicate EndsAs(s: Slot, head: Queued, how: How) {
    && (how.Refused? ==> !Retryable(head.item.body, how.error))
    && (how.Unsent? ==> head.item.message in s.refused)
    && if head.item.body.Opening? then !how.Unsent? && (how.Refused? ==> head.item.message in s.refused)
       else !how.Unsent? ==> NoneRefused(s.h.log, head.item.message)
  }

  ghost predicate EndedOk(log: seq<Ended>, k: nat)
    requires k < |log|
  {
    && (log[k].how.Refused? ==> !Retryable(log[k].queued.item.body, log[k].how.error))
    && (!log[k].queued.item.body.Opening? && !log[k].how.Unsent? ==> NoneRefused(log[..k], log[k].queued.item.message))
  }

  ghost predicate Openings(s: Slot) {
    && (forall k: nat | k < |s.h.log| :: OpeningEnded(s, k))
    && (forall k: nat | k < |s.h.log| :: EndedOk(s.h.log, k))
    && (forall w | w in s.workers :: PcOk(s, s.workers[w]))
  }

  ghost predicate Inv(s: Slot) {
    OneWorker(s) && Fifo(s) && Numbers(s) && Handed(s) && Openings(s)
  }

  // ===== steps =====

  predicate OfProducer(step: Step) {
    step.TakeNumber? || step.Push? || step.Bump? || step.Spawn?
  }

  /** A step of a worker that leaves the line alone. */
  predicate OfWorker(step: Step) {
    || step.CheckRefused? || step.Reply? || step.Retry? || step.Refuse? || step.Break? || step.BumpEnd? || step.Removed?
  }

  lemma ProducerStep(s: Slot, step: Step)
    requires OneWorker(s) && Enabled(s, step) && OfProducer(step)
    ensures OneWorker(Apply(s, step))
  {
    hide EntriesOf;
  }

  /** A worker that goes on keeps its head, or has none. */
  lemma WorkerMoves(s: Slot, step: Step)
    requires Enabled(s, step) && OfWorker(step)
    ensures var s' := Apply(s, step);
            && step.worker in s.workers && step.worker in s'.workers
            && s'.workers == s.workers[step.worker := s'.workers[step.worker]]
            && (HeadOf(s'.workers[step.worker]).Some? ==>
                  HeadOf(s'.workers[step.worker]) == HeadOf(s.workers[step.worker]))
            && s'.line.items == s.line.items && s'.line.workerRunning == s.line.workerRunning
            && s'.producer == s.producer && s'.stopped == s.stopped
  {
    hide Retryable;
  }

  lemma WorkerStep(s: Slot, step: Step)
    requires OneWorker(s) && Enabled(s, step) && OfWorker(step)
    ensures OneWorker(Apply(s, step))
  {
    hide Apply, Enabled, HeadOf;
    WorkerMoves(s, step);
  }

  lemma HeadStep(s: Slot, step: Step)
    requires OneWorker(s) && Enabled(s, step) && (step.LookAtHead? || step.Pop? || step.Abort?)
    ensures OneWorker(Apply(s, step))
  {
    hide EntriesOf, SpawnDue;
  }

  lemma OneWorkerStep(s: Slot, step: Step)
    requires OneWorker(s) && Enabled(s, step)
    ensures OneWorker(Apply(s, step))
  {
    if OfProducer(step) {
      ProducerStep(s, step);
    } else if OfWorker(step) {
      WorkerStep(s, step);
    } else if step.LookAtHead? || step.Pop? || step.Abort? {
      HeadStep(s, step);
    } else {
      hide AnswerTo, HeadOf, SpawnDue;
    }
  }

  lemma FifoStep(s: Slot, step: Step)
    requires OneWorker(s) && Fifo(s) && Enabled(s, step)
    ensures Fifo(Apply(s, step))
  {
    hide AnswerTo, EntriesOf, Retryable;
  }

  lemma NumbersStep(s: Slot, step: Step)
    requires Numbers(s) && Enabled(s, step)
    ensures Numbers(Apply(s, step))
  {
    hide Numbers, Increasing;
    if step.Push? {
      PushNumbers(s);
    } else {
      hide AnswerTo, EntriesOf, Retryable;
      var s' := Apply(s, step);
      assert s'.h.pushed == s.h.pushed && s'.line.lastNo == s.line.lastNo && s.numbers <= s'.numbers;
      SameNumbers(s, s');
    }
  }

  lemma PushNumbers(s: Slot)
    requires Numbers(s) && Enabled(s, Push)
    ensures Numbers(Apply(s, Push))
  {
    hide EntriesOf;
  }

  lemma SameNumbers(s: Slot, s': Slot)
    requires Numbers(s) && s'.h.pushed == s.h.pushed && s'.line.lastNo == s.line.lastNo && s.numbers <= s'.numbers
    requires s'.producer.Numbered? ==> s'.producer == s.producer || s.numbers < s'.producer.no <= s'.numbers
    ensures Numbers(s')
  {}

  lemma HandedStep(s: Slot, step: Step)
    requires Handed(s) && Enabled(s, step)
    ensures Handed(Apply(s, step))
  {
    hide AnswerTo, EntriesOf, Retryable, EndHead, PushBack;
  }

  lemma PopOpenings(s: Slot, worker: nat)
    requires OneWorker(s) && Openings(s) && Enabled(s, Pop(worker))
    ensures Openings(Apply(s, Pop(worker)))
  {
    hide EntriesOf, NoneRefused, AnswerTo, EndHead;
    var s' := Apply(s, Pop(worker));
    var pc := s.workers[worker];
    assert PcOk(s, pc);
    assert s'.h.log[..|s.h.log|] == s.h.log;
    forall k: nat | k < |s'.h.log| ensures OpeningEnded(s', k) && EndedOk(s'.h.log, k) {
      if k < |s.h.log| {
        assert OpeningEnded(s, k) && EndedOk(s.h.log, k);
        assert s'.h.log[..k] == s.h.log[..k];
      }
    }
  }

  lemma NotRefused(s: Slot, message: Uuid)
    requires Openings(s) && message !in s.refused
    ensures NoneRefused(s.h.log, message)
  {
    forall k: nat | k < |s.h.log| ensures OpeningDelivered(s.h.log, k, message) {
      assert OpeningEnded(s, k);
    }
  }

  lemma PcStays(s: Slot, s': Slot, pc: Pc)
    requires PcOk(s, pc) && s'.h.log == s.h.log && s.refused <= s'.refused
    ensures PcOk(s', pc)
  {
    hide NoneRefused, Retryable;
  }

  /** A worker that has just come to its place may be there. */
  lemma OwnPc(s: Slot, step: Step)
    requires Openings(s) && Enabled(s, step) && OfWorker(step) && step.worker in s.workers
        && step.worker in Apply(s, step).workers
    ensures PcOk(Apply(s, step), Apply(s, step).workers[step.worker])
  {
    var pc := s.workers[step.worker];
    assert PcOk(s, pc);
    if step.CheckRefused? && pc.head.item.message !in s.refused {
      NotRefused(s, pc.head.item.message);
    }
    hide Openings, Retryable, NoneRefused;
  }

  /** The other workers stay where they are, start or take a head. */
  lemma OtherPc(s: Slot, step: Step, w: nat)
    requires Enabled(s, step) && !step.Pop? && w in Apply(s, step).workers && !(OfWorker(step) && w == step.worker)
    ensures var pc := Apply(s, step).workers[w]; (w in s.workers && pc == s.workers[w]) || pc.Looking? || pc.Took?
  {
    hide AnswerTo, EntriesOf, Retryable, PushBack, EndHead;
  }

  lemma PcStep(s: Slot, step: Step, w: nat)
    requires Openings(s) && Enabled(s, step) && !step.Pop? && w in Apply(s, step).workers
    ensures PcOk(Apply(s, step), Apply(s, step).workers[w])
  {
    hide Apply, Enabled, PcOk, OpeningEnded, EndedOk;
    if OfWorker(step) && w == step.worker {
      WorkerMoves(s, step);
      OwnPc(s, step);
    } else {
      OtherPc(s, step, w);
      SameLog(s, step);
      var pc := Apply(s, step).workers[w];
      assert PcOk(s, pc) by {
        if !(w in s.workers && pc == s.workers[w]) {
          FreePc(s, pc);
        }
      }
      PcStays(s, Apply(s, step), pc);
    }
  }

  lemma FreePc(s: Slot, pc: Pc)
    requires pc.Looking? || pc.Took?
    ensures PcOk(s, pc)
  {}

  lemma SameLog(s: Slot, step: Step)
    requires Enabled(s, step) && !step.Pop?
    ensures Apply(s, step).h.log == s.h.log && s.refused <= Apply(s, step).refused
  {
    hide AnswerTo, EntriesOf, Retryable, PushBack;
  }

  lemma OpeningsStep(s: Slot, step: Step)
    requires OneWorker(s) && Openings(s) && Enabled(s, step)
    ensures Openings(Apply(s, step))
  {
    hide Apply, Enabled, OneWorker, PcOk, EndedOk;
    var s' := Apply(s, step);
    if step.Pop? {
      PopOpenings(s, step.worker);
    } else {
      SameLog(s, step);
      forall k: nat | k < |s'.h.log| ensures OpeningEnded(s', k) && EndedOk(s'.h.log, k) {
        assert OpeningEnded(s, k) && EndedOk(s.h.log, k);
      }
      forall w | w in s'.workers ensures PcOk(s', s'.workers[w]) {
        PcStep(s, step, w);
      }
    }
  }

  lemma StepKeeps(s: Slot, step: Step)
    requires Inv(s) && Enabled(s, step)
    ensures Inv(Apply(s, step))
  {
    hide Apply, Enabled, OneWorker, Fifo, Numbers, Handed, Openings;
    OneWorkerStep(s, step);
    FifoStep(s, step);
    NumbersStep(s, step);
    HandedStep(s, step);
    OpeningsStep(s, step);
  }

  lemma FreshHolds()
    ensures Inv(FreshSlot)
  {}

  lemma {:induction false} RunKeeps(states: seq<Slot>, steps: seq<Step>, i: nat)
    requires IsRun(states, steps) && i < |states|
    ensures Inv(states[i])
  {
    hide Apply, Enabled, Inv;
    if i == 0 {
      FreshHolds();
    } else {
      RunKeeps(states, steps, i - 1);
      StepKeeps(states[i - 1], steps[i - 1]);
    }
  }

  // ===== the theorems =====

  /**
   While the adapter is not stopped, a line that is not empty has exactly one worker, or the
   one that its producer is about to start.
   */
  lemma ExactlyOneWorker(states: seq<Slot>, steps: seq<Step>, i: nat)
    requires IsRun(states, steps) && i < |states|
    ensures |states[i].workers| + (if SpawnDue(states[i].producer) then 1 else 0) <= 1
    ensures !states[i].stopped && states[i].line.items != [] ==>
              |states[i].workers| + (if SpawnDue(states[i].producer) then 1 else 0) == 1
  {
    hide Apply, Enabled, Fifo, Numbers, Handed, Openings;
    RunKeeps(states, steps, i);
    var s := states[i];
    if s.workers != map[] {
      var w :| w in s.workers;
      assert s.workers.Keys == {w};
      assert |s.workers| == |s.workers.Keys|;
    }
  }

  /** A worker takes out exactly the item it attempted, which is the oldest one in the line. */
  lemma WorkerEndsItsHead(states: seq<Slot>, steps: seq<Step>, i: nat, worker: nat)
    requires IsRun(states, steps) && i < |steps| && steps[i] == Pop(worker)
    ensures worker in states[i].workers && states[i].workers[worker].Popping?
    ensures states[i].line.items == [states[i].workers[worker].head] + states[i + 1].line.items
    ensures |states[i].h.log| < |states[i].h.pushed|
    ensures states[i].workers[worker].head == states[i].h.pushed[|states[i].h.log|]
  {
    hide EntriesOf, Numbers, Handed, Openings, AnswerTo;
    RunKeeps(states, steps, i);
  }

  /** What was queued is, in its order, what has ended followed by what waits. */
  lemma NothingIsLost(states: seq<Slot>, steps: seq<Step>, i: nat)
    requires IsRun(states, steps) && i < |states|
    ensures var s := states[i];
            && |s.h.pushed| == |s.h.log| + |s.line.items|
            && (forall k | 0 <= k < |s.h.log| :: s.h.log[k].queued == s.h.pushed[k])
            && (forall k | 0 <= k < |s.line.items| :: s.line.items[k] == s.h.pushed[|s.h.log| + k])
            && (forall j, k | 0 <= j < k < |s.h.pushed| :: s.h.pushed[j].no < s.h.pushed[k].no)
            && (!s.stopped && !s.producer.Numbered? ==>
                  |s.h.handed| == |s.h.pushed| && forall k | 0 <= k < |s.h.pushed| ::
                      s.h.pushed[k].item == s.h.handed[k])
  {
    hide Apply, Enabled, OneWorker, Openings;
    RunKeeps(states, steps, i);
  }

  lemma BehindDelivered(s: Slot, worker: nat, k: nat)
    requires Inv(s) && worker in s.workers && s.workers[worker].Attempting?
    requires var head := s.workers[worker].head;
             !head.item.body.Opening? && k < |s.h.pushed| && s.h.pushed[k].no < head.no &&
             IsOpeningOf(s.h.pushed[k].item, head.item.message)
    ensures k < |s.h.log| && s.h.log[k].queued == s.h.pushed[k] && s.h.log[k].how.Delivered?
  {
    hide Handed;
    var head := s.workers[worker].head;
    assert HeadOf(s.workers[worker]) == Some(head);
    assert head == s.h.pushed[|s.h.log|];
    assert PcOk(s, s.workers[worker]);
    assert OpeningDelivered(s.h.log, k, head.item.message);
  }

  /** An item is attempted only after every opening of its message ahead of it was delivered. */
  lemma AttemptedBehindDeliveredOpening(states: seq<Slot>, steps: seq<Step>, i: nat, worker: nat, k: nat)
    requires IsRun(states, steps) && i < |states| && worker in states[i].workers
        && states[i].workers[worker].Attempting?
    requires var head := states[i].workers[worker].head;
             !head.item.body.Opening? && k < |states[i].h.pushed| && states[i].h.pushed[k].no < head.no &&
             IsOpeningOf(states[i].h.pushed[k].item, head.item.message)
    ensures k < |states[i].h.log| && states[i].h.log[k].queued == states[i].h.pushed[k]
    ensures states[i].h.log[k].how.Delivered?
  {
    hide Apply, Enabled, Inv;
    RunKeeps(states, steps, i);
    BehindDelivered(states[i], worker, k);
  }

  /**
   No item is given up for an error that passes: a chunk not for a broken stream, any other item not
   for one that was unavailable, lost or unreadable. No opening is left unsent.
   */
  lemma RefusedForGood(states: seq<Slot>, steps: seq<Step>, i: nat, k: nat)
    requires IsRun(states, steps) && i < |states| && k < |states[i].h.log|
    ensures var e := states[i].h.log[k];
            && (e.how.Refused? && e.queued.item.body.ChunkBody? ==> !e.how.error.BrokenStream?)
            && (e.how.Refused? && !e.queued.item.body.ChunkBody? ==>
                  !e.how.error.Unavailable? && !e.how.error.LostOutcome? && !e.how.error.Unreadable?)
            && (e.queued.item.body.Opening? ==> !e.how.Unsent?)
  {
    hide Apply, Enabled, OneWorker, Fifo, Numbers, Handed;
    RunKeeps(states, steps, i);
    assert EndedOk(states[i].h.log, k) && OpeningEnded(states[i], k);
  }

  /** What the worker makes of an answer: it is over with its item, it will attempt it again, or gives it up. */
  lemma AnswersMean(s: Slot, worker: nat, error: Option<Error>)
    requires Enabled(s, Reply(worker, error))
    ensures var head := s.workers[worker].head;
            var pc := Apply(s, Reply(worker, error)).workers[worker];
            && Apply(s, Reply(worker, error)).line.items == s.line.items
            && (pc == Ending(head, Delivered) <==> error.None?)
            && (pc.Sleeping? <==>
                  && error.Some?
                  && if head.item.body.ChunkBody? then error.value.BrokenStream?
                     else error.value.Unavailable? || error.value.LostOutcome? || error.value.Unreadable?)
            && (pc.Sleeping? ==> Apply(s, Reply(worker, error)).line.lastFailure == Some((head.item.id, error.value)))
            && (error.Some? && !pc.Sleeping? ==> pc == Rejected(head, error.value))
  {}

  // ===== the last failure, and the stop =====

  /** The last failure is that of the item at the head of the line. */
  ghost predicate FailureAtHead(s: Slot) {
    s.line.lastFailure.Some? ==> s.line.items != [] && s.line.lastFailure.value.0 == s.line.items[0].item.id
  }

  lemma FailureStep(s: Slot, step: Step)
    requires OneWorker(s) && FailureAtHead(s) && Enabled(s, step)
    ensures FailureAtHead(Apply(s, step))
  {
    hide AnswerTo, EntriesOf, Retryable;
  }

  lemma {:induction false} LastFailureAtHead(states: seq<Slot>, steps: seq<Step>, i: nat)
    requires IsRun(states, steps) && i < |states|
    ensures FailureAtHead(states[i])
  {
    hide Apply, Enabled, Inv, FailureAtHead;
    if i == 0 {
      assert FailureAtHead(FreshSlot) by { FreshFailure(); }
    } else {
      LastFailureAtHead(states, steps, i - 1);
      RunKeeps(states, steps, i - 1);
      assert OneWorker(states[i - 1]) by { InvOneWorker(states[i - 1]); }
      FailureStep(states[i - 1], steps[i - 1]);
    }
  }

  lemma FreshFailure()
    ensures FailureAtHead(FreshSlot)
  {}

  lemma InvOneWorker(s: Slot)
    requires Inv(s)
    ensures OneWorker(s)
  {}

  lemma StopStep(s: Slot, step: Step)
    requires Enabled(s, step)
    ensures step.Stop? ==> Apply(s, step).stopped && Apply(s, step).h.pushed == s.h.pushed
    ensures s.stopped ==> Apply(s, step).stopped && Apply(s, step).h.pushed == s.h.pushed
  {
    hide AnswerTo, EntriesOf, Retryable, PushBack, EndHead;
  }

  /** Once the adapter is stopped nothing more is queued. */
  lemma {:induction false} StopQueuesNothing(states: seq<Slot>, steps: seq<Step>, k: nat, j: nat)
    requires IsRun(states, steps) && k < j < |states| && steps[k] == Stop
    ensures states[j].stopped && states[j].h.pushed == states[k].h.pushed
  {
    hide Apply, Enabled;
    StopStep(states[j - 1], steps[j - 1]);
    if k + 1 < j {
      StopQueuesNothing(states, steps, k, j - 1);
    }
  }

  /** An item ends unsent only when its message is known to be refused, and a head that is not is attempted. */
  lemma UnsentOnlyWhenRefused(states: seq<Slot>, steps: seq<Step>, i: nat, k: nat)
    requires IsRun(states, steps) && i < |states| && k < |states[i].h.log| && states[i].h.log[k].how.Unsent?
    ensures states[i].h.log[k].queued.item.message in states[i].refused
    ensures !states[i].h.log[k].queued.item.body.Opening?
  {
    hide Apply, Enabled, OneWorker, Fifo, Numbers, Handed, EndedOk;
    RunKeeps(states, steps, i);
    assert OpeningEnded(states[i], k);
  }

  /** A message comes to be refused here only by an opening of it that was refused. */
  lemma RefusedByItsOpening(s: Slot, step: Step)
    requires Enabled(s, step) && !step.Elsewhere?
    ensures Apply(s, step).refused == s.refused ||
            (step.Refuse? && s.workers[step.worker].head.item.body.Opening? &&
             Apply(s, step).refused == s.refused + {s.workers[step.worker].head.item.message})
  {
    hide AnswerTo, EntriesOf, PushBack, EndHead, Retryable;
  }

  /** After a refused opening every later item of its message that is no opening ends unsent. */
  lemma UnsentBehindRefusedOpening(states: seq<Slot>, steps: seq<Step>, i: nat, j: nat, k: nat)
    requires IsRun(states, steps) && i < |states| && j < k < |states[i].h.log|
    requires states[i].h.log[j].queued.item.body.Opening? && !states[i].h.log[j].how.Delivered?
    requires !states[i].h.log[k].queued.item.body.Opening?
    requires states[i].h.log[k].queued.item.message == states[i].h.log[j].queued.item.message
    ensures states[i].h.log[k].how.Unsent?
  {
    hide Apply, Enabled, OneWorker, Fifo, Numbers, Handed;
    RunKeeps(states, steps, i);
    var log := states[i].h.log;
    assert EndedOk(log, k);
    assert !OpeningDelivered(log[..k], j, log[k].queued.item.message);
  }
}
