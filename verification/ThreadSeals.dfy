/**
 A turn whose chunks did not all arrive is not sealed, unless it is closed as completed:
 the line and the turns of a thread taken together.
 */
module ThreadSeals {
  import opened Wrappers
  import opened ThreadLine
  import opened ThreadWorker
  import opened ThreadTurns
  import Stream

  /** The item accepted `k`-th is a chunk of this life. */
  ghost predicate ChunkOf(accepted: seq<Accepted>, k: nat, life: nat) {
    k < |accepted| && accepted[k].life == Some(life) && accepted[k].item.body.ChunkBody?
  }

  /** The worker has marked its undelivered chunk, and is about to take it out. */
  ghost predicate PopsUndelivered(pc: Pc) {
    pc.Popping? && pc.head.item.body.ChunkBody? && !pc.how.Delivered?
  }

  ghost predicate AllArrived(t: Thread, life: nat) {
    && (forall k: nat | k < |t.slot.h.log| && ChunkOf(t.accepted, k, life) :: t.slot.h.log[k].how.Delivered?)
    && (forall w | w in t.slot.workers && PopsUndelivered(t.slot.workers[w]) ::
          !ChunkOf(t.accepted, |t.slot.h.log|, life))
  }

  /** A remembered turn that is not marked as broken has lost no chunk. */
  ghost predicate LossesMarked(t: Thread) {
    forall m | m in t.turns && m !in t.slot.broken :: AllArrived(t, t.turns[m].life)
  }

  // ----- what a turn knows of its items

  lemma OwnMessage(t: Thread, m: Uuid, k: nat)
    requires TInv(t) && m in t.turns && k < |t.accepted| && t.accepted[k].life == Some(t.turns[m].life)
    ensures t.accepted[k].item.message == m
  {
    hide Inv, OfLife, WellFormed, LifeOk;
    var turns := Settled(t).0;
    assert m in turns && turns[m].life == t.turns[m].life;
    assert TurnOk(t.accepted, Settled(t).1, m, turns[m]);
    InLife(t.accepted, t.turns[m].life, k);
    var items := OfLife(t.accepted, t.turns[m].life);
    var i :| 0 <= i < |items| && items[i] == t.accepted[k].item;
    assert OfMessage(items, m);
  }

  lemma HasItem(t: Thread, m: Uuid) returns (k: nat)
    requires TInv(t) && m in t.turns
    ensures k < |t.accepted| && t.accepted[k].item.message == m
    ensures k < |t.slot.h.handed| && t.slot.h.handed[k].message == m
  {
    hide Inv, OfLife, WellFormed, LifeOk;
    var turns := Settled(t).0;
    assert TurnOk(t.accepted, Settled(t).1, m, turns[m]);
    if forall k | 0 <= k < |t.accepted| :: t.accepted[k].life != Some(turns[m].life) {
      NoneOfLife(t.accepted, turns[m].life);
      assert false;
    }
    k :| 0 <= k < |t.accepted| && t.accepted[k].life == Some(turns[m].life);
    OwnMessage(t, m, k);
  }

  /** The head of the worker is the item accepted right after those that have ended. */
  lemma HeadAccepted(t: Thread, w: nat)
    requires TInv(t) && w in t.slot.workers && HeadOf(t.slot.workers[w]).Some?
    ensures |t.slot.h.log| < |t.accepted|
    ensures t.accepted[|t.slot.h.log|].item == HeadOf(t.slot.workers[w]).value.item
  {
    hide BookOk, Numbers, Openings, Agrees;
  }

  // ----- steps of the line

  /** What a step of the line may do to the marks and to the log. */
  lemma BreakMarks(t: Thread, worker: nat, m: Uuid)
    requires TInv(t) && LossesMarked(t) && TEnabled(t, SlotStep(Break(worker))) && m in t.turns
    ensures var t' := TApply(t, SlotStep(Break(worker)));
            m !in t'.slot.broken ==> AllArrived(t', t.turns[m].life)
  {
    hide TInv;
    var t' := TApply(t, SlotStep(Break(worker)));
    var life := t.turns[m].life;
    var pc := t.slot.workers[worker];
    if m !in t'.slot.broken {
      assert AllArrived(t, life);
      if ChunkOf(t.accepted, |t.slot.h.log|, life) && PopsUndelivered(t'.slot.workers[worker]) {
        HeadAccepted(t, worker);
        OwnMessage(t, m, |t.slot.h.log|);
        assert false;
      }
    }
  }

  lemma PopArrived(t: Thread, worker: nat, m: Uuid)
    requires TInv(t) && LossesMarked(t) && TEnabled(t, SlotStep(Pop(worker))) && m in t.turns && m !in t.slot.broken
    ensures AllArrived(TApply(t, SlotStep(Pop(worker))), t.turns[m].life)
  {
    hide EndHead;
    var t' := TApply(t, SlotStep(Pop(worker)));
    var life := t.turns[m].life;
    var pc := t.slot.workers[worker];
    assert AllArrived(t, life);
    HeadAccepted(t, worker);
    assert OneWorker(t.slot);
    hide TInv;
    forall k: nat | k < |t'.slot.h.log| && ChunkOf(t'.accepted, k, life) ensures t'.slot.h.log[k].how.Delivered? {
      if k == |t.slot.h.log| {
        assert pc.head.item.body.ChunkBody?;
      } else {
        assert t'.slot.h.log[k] == t.slot.h.log[k];
      }
    }
    assert forall w | w in t'.slot.workers :: w == worker;
  }

  /** Every other step leaves the log, the marks of this thread and the undelivered pops as they were. */
  lemma OtherArrived(t: Thread, step: Step, m: Uuid)
    requires TInv(t) && LossesMarked(t) && TEnabled(t, SlotStep(step)) && !step.Break? && !step.Pop? && m in t.turns
    ensures var t' := TApply(t, SlotStep(step));
            m !in t'.slot.broken ==> AllArrived(t', t.turns[m].life)
  {
    hide TInv, AnswerTo, EntriesOf, Retryable, PushBack, EndHead;
    var t' := TApply(t, SlotStep(step));
    var k := HasItem(t, m);
    if m !in t'.slot.broken {
      assert m !in t.slot.broken;
      assert AllArrived(t, t.turns[m].life);
      assert t'.slot.h.log == t.slot.h.log;
      forall w | w in t'.slot.workers && PopsUndelivered(t'.slot.workers[w])
          ensures !ChunkOf(t'.accepted, |t'.slot.h.log|, t.turns[m].life) {
        assert w in t.slot.workers && t.slot.workers[w] == t'.slot.workers[w];
      }
    }
  }

  lemma SlotMarks(t: Thread, step: Step)
    requires TInv(t) && LossesMarked(t) && TEnabled(t, SlotStep(step))
    ensures LossesMarked(TApply(t, SlotStep(step)))
  {
    hide TInv, Apply, Enabled, AllArrived;
    var t' := TApply(t, SlotStep(step));
    forall m | m in t'.turns && m !in t'.slot.broken ensures AllArrived(t', t'.turns[m].life) {
      if step.Break? {
        BreakMarks(t, step.worker, m);
      } else if step.Pop? {
        PopKeepsMarks(t, step.worker);
        PopArrived(t, step.worker, m);
      } else {
        OtherArrived(t, step, m);
      }
    }
  }

  lemma PopKeepsMarks(t: Thread, worker: nat)
    requires TEnabled(t, SlotStep(Pop(worker)))
    ensures TApply(t, SlotStep(Pop(worker))).slot.broken == t.slot.broken
  {
    hide EndHead;
  }

  // ----- steps of the turns

  /** Items accepted later than all that have ended change nothing for a life that is remembered. */
  lemma LongerArrived(t: Thread, t': Thread, life: nat, a: Accepted)
    requires TInv(t) && AllArrived(t, life) && t'.accepted == t.accepted + [a]
    requires t'.slot.h.log == t.slot.h.log && t'.slot.workers == t.slot.workers
    ensures AllArrived(t', life)
  {
    forall w | w in t'.slot.workers && PopsUndelivered(t'.slot.workers[w])
        ensures !ChunkOf(t'.accepted, |t'.slot.h.log|, life) {
      HeadAccepted(t, w);
    }
    LoggedAreAccepted(t);
  }

  lemma LoggedAreAccepted(t: Thread)
    requires TInv(t)
    ensures |t.slot.h.log| <= |t.accepted|
  {
    hide BookOk, Numbers, Openings, Agrees, OneWorker;
  }

  /** A turn that was just opened, or closed without having been opened, has no chunks. */
  lemma NewTurnArrived(t: Thread, m: Uuid)
    requires TInv(t) && t.op.Queueing? && m in Settled(t).0 && m !in t.turns
    ensures AllArrived(t, Settled(t).0[m].life)
  {
    hide Inv, OfLife, LifeOk;
    var turn := Settled(t).0[m];
    assert TurnOk(t.accepted, Settled(t).1, m, turn);
    assert turn.chunks == [];
    forall k: nat ensures !ChunkOf(t.accepted, k, turn.life) {
      if k < |t.accepted| && t.accepted[k].life == Some(turn.life) {
        InLife(t.accepted, turn.life, k);
      }
    }
  }

  lemma SameLife(t: Thread, m: Uuid)
    requires TInv(t) && m in t.turns
    ensures m in Settled(t).0 && Settled(t).0[m].life == t.turns[m].life
  {
    hide Inv, BookOk;
  }

  lemma SameArrived(t: Thread, t': Thread, life: nat)
    requires AllArrived(t, life) && t'.slot == t.slot && t'.accepted == t.accepted
    ensures AllArrived(t', life)
  {}

  lemma FinishMarks(t: Thread)
    requires TInv(t) && LossesMarked(t) && TEnabled(t, Finish)
    ensures LossesMarked(TApply(t, Finish))
  {
    hide TInv, AllArrived, Remember;
    var t' := TApply(t, Finish);
    forall m | m in t'.turns && m !in t'.slot.broken ensures AllArrived(t', t'.turns[m].life) {
      if m in t.turns {
        SameLife(t, m);
      } else {
        NewTurnArrived(t, m);
      }
      SameArrived(t, t', t'.turns[m].life);
    }
  }

  lemma AppendedMarks(t: Thread, ok: bool)
    requires TInv(t) && LossesMarked(t) && TEnabled(t, Appended(ok))
    ensures LossesMarked(TApply(t, Appended(ok)))
  {
    hide TInv, LifeOf;
    var t' := TApply(t, Appended(ok));
    if ok {
      forall m | m in t'.turns && m !in t'.slot.broken ensures AllArrived(t', t'.turns[m].life) {
        LongerArrived(t, t', t.turns[m].life, t'.accepted[|t.accepted|]);
      }
    }
  }

  lemma MarksStep(t: Thread, step: TStep)
    requires TInv(t) && LossesMarked(t) && TEnabled(t, step)
    ensures LossesMarked(TApply(t, step))
  {
    hide TInv, Apply, Enabled, Stream.SealFor, Stream.CarriesContent;
    match step
    case SlotStep(s) => SlotMarks(t, s);
    case Appended(ok) => AppendedMarks(t, ok);
    case Finish => FinishMarks(t);
    case Forget(agent) =>
      var t' := TApply(t, step);
      forall m | m in t'.turns && m !in t'.slot.broken ensures AllArrived(t', t'.turns[m].life) {
        assert AllArrived(t, t.turns[m].life);
      }
    case _ =>
  }

  lemma {:induction false} RunMarks(states: seq<Thread>, steps: seq<TStep>, i: nat)
    requires IsThreadRun(states, steps) && i < |states|
    ensures LossesMarked(states[i])
  {
    hide TApply, TEnabled, TInv, LossesMarked;
    if i == 0 {
      assert LossesMarked(FreshThread) by { FreshMarks(); }
    } else {
      RunMarks(states, steps, i - 1);
      ThreadRunKeeps(states, steps, i - 1);
      MarksStep(states[i - 1], steps[i - 1]);
    }
  }

  lemma FreshMarks()
    ensures LossesMarked(FreshThread)
  {}

  /**
   A closing that does not complete its turn carries no seal once a chunk of that life of the
   turn has ended undelivered.
   */
  lemma NoSealOverALostChunk(states: seq<Thread>, steps: seq<TStep>, i: nat, k: nat)
    requires IsThreadRun(states, steps) && i < |steps| && steps[i].Close? && !steps[i].completed
    requires states[i + 1].op.Appending? && steps[i].message in states[i].turns
    requires k < |states[i].slot.h.log| && ChunkOf(states[i].accepted, k, states[i].turns[steps[i].message].life)
    requires !states[i].slot.h.log[k].how.Delivered?
    ensures states[i + 1].op.item.body == ClosingBody(None)
  {
    hide Apply, Enabled, Stream.CarriesContent;
    RunMarks(states, steps, i);
    assert steps[i].message in states[i].slot.broken;
  }
}
