/**
 Between a check of a child call and the write it hands over, others go on: exactly when a
 cancel can follow a create that was removed, or a finish a cancel, and the runs in which it does.
 */
module ChildRaces {
  import opened Wrappers
  import opened Writes
  import opened QueueState
  import opened QueueMachine
  import opened QueueEffects
  import opened QueueOutcomes
  import opened QueueTheorems
  import opened QueueTask
  import opened ChildCall

  ghost predicate Continues(states: seq<Calling>, steps: seq<KStep>, states': seq<Calling>, steps': seq<KStep>) {
    IsCallRun(states', steps') && states <= states' && steps <= steps'
  }

  ghost predicate CancelledSince(k: Calling, k': Calling) {
    exists n :: |k.handed| <= n < |k'.handed| && k'.handed[n].Cancel?
  }

  ghost predicate FinishedSince(k: Calling, k': Calling) {
    exists n :: |k.handed| <= n < |k'.handed| && k'.handed[n].Finish?
  }

  lemma ExtendCall(states: seq<Calling>, steps: seq<KStep>, step: KStep)
      returns (states': seq<Calling>, steps': seq<KStep>)
    requires IsCallRun(states, steps) && KEnabled(states[|steps|], step)
    ensures IsCallRun(states', steps') && |states'| == |steps'| + 1 && steps' == steps + [step]
    ensures states' == states + [KApply(states[|steps|], step)] && states'[|steps'|] == KApply(states[|steps|], step)
  {
    hide KApply, KEnabled;
    states', steps' := states + [KApply(states[|steps|], step)], steps + [step];
  }

  // ===== a create that is known to be removed =====

  lemma FirstSentHand(q: Queue, write: Write, d: EndId)
    requires !write.Started? && q.h.ids.issued > 0 && 0 !in q.calls && d < q.h.ids.issued
    ensures Enabled(q, HandOver(write)) && FirstSent(q, Apply(q, HandOver(write)), d)
  {
    FirstSentStays(q, HandOver(write), d);
  }

  /** With no cancel due, a removed create stays one with no cancel due, and the step hands over none. */
  lemma DeadStep(k: Calling, step: KStep)
    requires KInv(k) && KEnabled(k, step) && CreateGone(k) && !k.phase.CancelDue?
    ensures var k' := KApply(k, step);
            && CreateGone(k') && !k'.phase.CancelDue? && k.handed <= k'.handed
            && forall n | |k.handed| <= n < |k'.handed| :: !k'.handed[n].Cancel?
  {
    hide Apply, Enabled, Good, OwnJob, HeldBehind, Heard;
    match step
    case QueueStep(s) => FirstSentStays(k.q, s, k.created.value);
    case HandFinish(commandId) => FirstSentHand(k.q, Finish(k.child, commandId), k.created.value);
    case _ =>
  }

  lemma {:induction false} DeadRun(states: seq<Calling>, steps: seq<KStep>, i: nat, j: nat)
    requires IsCallRun(states, steps) && i <= j < |states| && CreateGone(states[i]) && !states[i].phase.CancelDue?
    ensures CreateGone(states[j]) && !states[j].phase.CancelDue? && states[i].handed <= states[j].handed
    ensures forall n | |states[i].handed| <= n < |states[j].handed| :: !states[j].handed[n].Cancel?
  {
    hide KApply, KEnabled, KInv, CreateGone;
    if i < j {
      DeadRun(states, steps, i, j - 1);
      CallRunKeeps(states, steps, j - 1);
      DeadStep(states[j - 1], steps[j - 1]);
    }
  }

  /**
   When the create is known to be removed, no way for the run to go on hands over a cancel, if and
   only if none is due already.
   */
  lemma NoCancelOfADeadCreate(states: seq<Calling>, steps: seq<KStep>)
    requires IsCallRun(states, steps) && CreateGone(states[|steps|])
    ensures (forall states', steps' | Continues(states, steps, states', steps') ::
               !CancelledSince(states[|steps|], states'[|steps'|]))
            <==> !states[|steps|].phase.CancelDue?
  {
    hide KApply, KEnabled, KInv, CreateGone;
    var k := states[|steps|];
    if k.phase.CancelDue? {
      assert KEnabled(k, HandCancel(0)) by { CallRunKeeps(states, steps, |steps|); DueMayGo(k); }
      var states', steps' := ExtendCall(states, steps, HandCancel(0));
      HandsLast(k, HandCancel(0));
      assert Continues(states, steps, states', steps') && CancelledSince(k, states'[|steps'|]);
    } else {
      forall states', steps' | Continues(states, steps, states', steps')
        ensures !CancelledSince(k, states'[|steps'|])
      {
        DeadRun(states', steps', |steps|, |steps'|);
      }
    }
  }

  /** What is due can be handed over. */
  lemma DueMayGo(k: Calling)
    requires KInv(k)
    ensures k.phase.CancelDue? ==> KEnabled(k, HandCancel(0))
    ensures k.phase.FinishDue? ==> KEnabled(k, HandFinish(0))
  {
    hide Good, OwnJob, HeldBehind;
  }

  lemma HandsLast(k: Calling, step: KStep)
    requires KEnabled(k, step) && (step.HandCancel? || step.HandFinish?)
    ensures var handed := KApply(k, step).handed;
            |handed| == |k.handed| + 1 && k.handed <= handed &&
            handed[|k.handed|] == (if step.HandCancel? then Cancel(k.child, step.commandId)
                else Finish(k.child, step.commandId))
    ensures KApply(k, step).cancelled == k.cancelled
  {
    hide Apply, Enabled;
  }

  // ===== a call that is cancelled =====

  lemma CancelledStep(k: Calling, step: KStep)
    requires KEnabled(k, step) && k.cancelled && !k.phase.FinishDue?
    ensures var k' := KApply(k, step);
            && k'.cancelled && !k'.phase.FinishDue? && k.handed <= k'.handed
            && forall n | |k.handed| <= n < |k'.handed| :: !k'.handed[n].Finish?
  {
    hide Apply, Enabled, CreateGone, Heard;
  }

  lemma {:induction false} CancelledRun(states: seq<Calling>, steps: seq<KStep>, i: nat, j: nat)
    requires IsCallRun(states, steps) && i <= j < |states| && states[i].cancelled && !states[i].phase.FinishDue?
    ensures states[j].cancelled && !states[j].phase.FinishDue? && states[i].handed <= states[j].handed
    ensures forall n | |states[i].handed| <= n < |states[j].handed| :: !states[j].handed[n].Finish?
  {
    hide KApply, KEnabled;
    if i < j {
      CancelledRun(states, steps, i, j - 1);
      CancelledStep(states[j - 1], steps[j - 1]);
    }
  }

  /** Once a call is cancelled, no way to go on hands over a finish, if and only if none is due already. */
  lemma NoFinishOfACancelledCall(states: seq<Calling>, steps: seq<KStep>)
    requires IsCallRun(states, steps) && states[|steps|].cancelled
    ensures (forall states', steps' | Continues(states, steps, states', steps') ::
               !FinishedSince(states[|steps|], states'[|steps'|]))
            <==> !states[|steps|].phase.FinishDue?
  {
    hide KApply, KEnabled, KInv;
    var k := states[|steps|];
    if k.phase.FinishDue? {
      assert KEnabled(k, HandFinish(0)) by { CallRunKeeps(states, steps, |steps|); DueMayGo(k); }
      var states', steps' := ExtendCall(states, steps, HandFinish(0));
      HandsLast(k, HandFinish(0));
      assert Continues(states, steps, states', steps') && FinishedSince(k, states'[|steps'|]);
    } else {
      forall states', steps' | Continues(states, steps, states', steps')
        ensures !FinishedSince(k, states'[|steps'|])
      {
        CancelledRun(states', steps', |steps|, |steps'|);
      }
    }
  }

  // ===== the races as runs =====

  /** Started and the create wait in the line, and the call waits for the end of its child. */
  ghost predicate TwoWait(k: Calling) {
    && k.phase.Waiting? && !k.cancelled && k.created == Some(1) && k.handed == [Create(7, 0, Sync)] && k.child == 7
    && k.q.pc.Top? && k.q.entry.None? && k.q.held == map[] && k.q.st.newHeld == [] && k.q.calls == map[]
    && |k.q.st.fifo| == 2 && k.q.st.fifo[0].end == 0 && k.q.st.fifo[1].end == 1
    && k.q.st.fifo[0].seqNo <= k.q.st.fifo[1].seqNo
    && k.upload.None? && k.q.h.ids.issued == 2 && k.q.h.sends == map[0 := [], 1 := []]
  }

  /** Started is in the line, and its hand-over has returned. */
  ghost predicate OneWaits(q: Queue) {
    && q.pc.Top? && q.entry.None? && q.held == map[] && q.calls == map[] && !q.st.stopped
    && q.st.newHeld == [] && q.st.ended == map[] && q.st.fifo == [Entry(0, Started(0), 0)] && q.st.nextSeq == 1
    && q.h.ids.issued == 1 && q.h.sends == map[0 := []]
  }

  lemma StartedHandedOver(q: Queue)
    requires q == Start
    ensures Enabled(q, HandOver(Started(0)))
    ensures var q1 := Apply(q, HandOver(Started(0))); Enabled(q1, Notify(0)) && OneWaits(Apply(q1, Notify(0)))
  {
    HandOverEffect(q, HandOver(Started(0)));
    var q1 := Apply(q, HandOver(Started(0)));
    assert q1.calls == map[0 := Notifying];
    assert Apply(q1, Notify(0)) == q1.(permit := true, calls := q1.calls - {0});
  }

  lemma CreateHandedOver(q: Queue, w: Write)
    requires OneWaits(q) && w == Create(7, 0, Sync)
    ensures Enabled(q, HandOver(w))
    ensures var q1 := Apply(q, HandOver(w));
            && q1.pc.Top? && q1.entry.None? && q1.held == map[] && q1.st.newHeld == []
                   && q1.calls == map[1 := Notifying]
            && q1.st.fifo == [Entry(0, Started(0), 0), Entry(1, w, 1)]
            && q1.h.ids.issued == 2 && q1.h.sends == map[0 := [], 1 := []]
  {
    BlockedIffRemovedDependency(w, q.st.ended);
    HandOverEffect(q, HandOver(w));
    hide Apply, Blocked;
  }

  /** A node is about to hand over the create of its child. */
  lemma CreateIsDue() returns (states: seq<Calling>, steps: seq<KStep>, q: Queue)
    ensures IsCallRun(states, steps) && |states| == |steps| + 1 && OneWaits(q)
    ensures states[|steps|] == Calling(q, Node, 7, None, CreateDue, false, None, None, None, None, [])
  {
    var k := Calling(Start, Node, 7, None, ToCreate, false, None, None, None, None, []);
    states, steps := [k], [];
    assert IsCallRun(states, steps);
    hide IsCallRun, Apply, OneWaits;
    StartedHandedOver(k.q);
    states, steps := ExtendCall(states, steps, QueueStep(HandOver(Started(0))));
    states, steps := ExtendCall(states, steps, QueueStep(Notify(0)));
    q := states[|steps|].q;
    assert MayCall(k.(q := q)) by { OneMayCall(q); }
    states, steps := ExtendCall(states, steps, CheckCreate);
  }

  lemma OneMayCall(q: Queue)
    requires OneWaits(q)
    ensures q.h.ids.issued > 0 && 0 !in q.calls
  {}

  lemma TwoHandedOver() returns (states: seq<Calling>, steps: seq<KStep>)
    ensures IsCallRun(states, steps) && |states| == |steps| + 1 && TwoWait(states[|steps|])
  {
    hide IsCallRun, Apply, Enabled;
    var q;
    states, steps, q := CreateIsDue();
    CreateHandedOver(q, Create(7, 0, Sync));
    states, steps := ExtendCall(states, steps, HandCreate(0));
    var q1 := states[|steps|].q;
    assert q1 == Apply(q, HandOver(Create(7, 0, Sync)));
    hide OneWaits;
    CreateReturns(q1);
    states, steps := ExtendCall(states, steps, QueueStep(Notify(1)));
  }

  lemma CreateReturns(q: Queue)
    requires q.calls == map[1 := Notifying]
    ensures Enabled(q, Notify(1)) && Apply(q, Notify(1)) == q.(permit := true, calls := map[])
  {
    assert q.calls - {1} == map[];
  }

  /** Steps of the queue alone, as steps of a call that looks on. */
  lemma {:induction false} LookOn(states: seq<Calling>, steps: seq<KStep>, qs: seq<Queue>, qsteps: seq<Step>)
      returns (states': seq<Calling>, steps': seq<KStep>)
    requires IsCallRun(states, steps) && Runs(qs, qsteps) && qs[0] == states[|steps|].q
    requires NothingNew(qsteps)
    ensures IsCallRun(states', steps') && |states'| == |steps'| + 1 && steps <= steps'
    ensures states'[|steps'|] == states[|steps|].(q := qs[|qsteps|])
    decreases |qsteps|
  {
    hide Apply, Enabled;
    if qsteps == [] {
      states', steps' := states, steps;
    } else {
      var n := |qsteps| - 1;
      states', steps' := LookOn(states, steps, qs[..n + 1], qsteps[..n]);
      assert Enabled(qs[n], qsteps[n]) && qs[n + 1] == Apply(qs[n], qsteps[n]);
      hide Runs, IsCallRun;
      states', steps' := ExtendCall(states', steps', QueueStep(qsteps[n]));
    }
  }

  ghost predicate NothingNew(qsteps: seq<Step>) {
    forall i | 0 <= i < |qsteps| :: !qsteps[i].HandOver? && !qsteps[i].HoldBack?
  }

  /** A task that drops what it has ends its next entry unsent. */
  lemma DropOne(q: Queue) returns (qs: seq<Queue>, qsteps: seq<Step>)
    requires q.pc.Dropping? && q.pc.rest != []
    ensures Runs(qs, qsteps) && qs[0] == q && NothingNew(qsteps)
    ensures var q' := qs[|qsteps|];
            && q'.pc == Dropping(q.pc.rest[1..]) && q'.calls == q.calls && q'.h.ids == q.h.ids
            && q'.h.sends == Append(q.h.sends, q.pc.rest[0].end, Err(LeftUnsent))
  {
    EndsNext(q);
    var q1 := Apply(q, DropNext);
    hide Apply, Enabled, Record;
    var ends, endSteps := CompletionRuns(q1);
    assert Runs([q, q1], [DropNext]);
    Join([q, q1], [DropNext], ends, endSteps);
    assert [q, q1][..1] == [q];
    qs, qsteps := [q] + ends, [DropNext] + endSteps;
  }

  lemma BeginsDrop(q: Queue)
    requires q.pc.Top? && q.entry.None? && q.held == map[] && q.st.newHeld == [] && SortedBySeq(q.st.fifo)
    ensures Enabled(q, DropTask(q.st.fifo)) && Runs([q, Apply(q, DropTask(q.st.fifo))], [DropTask(q.st.fifo)])
    ensures var q' := Apply(q, DropTask(q.st.fifo)); q'.pc == Dropping(q.st.fifo) && q'.calls == q.calls && q'.h == q.h
  {
    assert HeldEntries(q.held) == {} && EntriesOf(q.st.newHeld) == [] && OptEntry(q.entry) == [];
  }

  /** A dropped task ends its two entries unsent. */
  lemma DropTwo(q: Queue) returns (qs: seq<Queue>, qsteps: seq<Step>)
    requires q.pc.Top? && q.entry.None? && q.held == map[] && q.st.newHeld == []
    requires |q.st.fifo| == 2 && q.st.fifo[0].seqNo <= q.st.fifo[1].seqNo && q.st.fifo[0].end != q.st.fifo[1].end
    requires q.st.fifo[1].end in q.h.sends && q.h.sends[q.st.fifo[1].end] == []
    ensures Runs(qs, qsteps) && qs[0] == q && NothingNew(qsteps)
    ensures var q' := qs[|qsteps|];
            && q'.calls == q.calls && q'.h.ids == q.h.ids
            && q.st.fifo[1].end in q'.h.sends && q'.h.sends[q.st.fifo[1].end] == [Err(LeftUnsent)]
  {
    hide Apply, Enabled;
    var drop := DropTask(q.st.fifo);
    BeginsDrop(q);
    var first, firstSteps := DropOne(Apply(q, drop));
    var second, secondSteps := DropOne(first[|firstSteps|]);
    Join(first, firstSteps, second, secondSteps);
    var both, bothSteps := first[..|first| - 1] + second, firstSteps + secondSteps;
    Join([q, Apply(q, drop)], [drop], both, bothSteps);
    hide Runs;
    assert [q, Apply(q, drop)][..1] == [q];
    qs, qsteps := [q] + both, [drop] + bothSteps;
  }

  lemma EndsNext(q: Queue)
    requires q.pc.Dropping? && q.pc.rest != []
    ensures Enabled(q, DropNext)
    ensures Apply(q, DropNext) ==
        q.(pc := Completing(q.pc.rest[0], Err(LeftUnsent), Reporting, Dropping(q.pc.rest[1..])))
  {}

  /**
   A node looks at its create and finds it open; the task is dropped and ends the create unsent;
   then the node hands over its cancel.
   */
  lemma CancelAfterTheCreateDied() returns (states: seq<Calling>, steps: seq<KStep>, n: nat)
    ensures IsCallRun(states, steps) && |steps| == n + 1 && steps[n].HandCancel?
    ensures CreateGone(states[n]) && CancelledSince(states[n], states[n + 1])
  {
    states, steps := TwoHandedOver();
    hide IsCallRun, Apply;
    states, steps := ExtendCall(states, steps, TriggerCancel);
    states, steps := ExtendCall(states, steps, HearCancel);
    states, steps := ExtendCall(states, steps, LookAtCreate);
    var qs, qsteps := DropTwo(states[|steps|].q);
    hide Runs;
    states, steps := LookOn(states, steps, qs, qsteps);
    n := |steps|;
    HandsLast(states[n], HandCancel(0));
    states, steps := ExtendCall(states, steps, HandCancel(0));
    assert states[n + 1].handed[|states[n].handed|].Cancel?;
  }

  /**
   A node finds its child completed and the cancel view untriggered; the view triggers; then the
   node hands over its finish.
   */
  lemma FinishAfterTheCancel() returns (states: seq<Calling>, steps: seq<KStep>, n: nat)
    ensures IsCallRun(states, steps) && |steps| == n + 1 && steps[n].HandFinish?
    ensures states[n].cancelled && FinishedSince(states[n], states[n + 1])
  {
    states, steps := TwoHandedOver();
    hide IsCallRun, Apply;
    states, steps := ExtendCall(states, steps, HearEnd(End.Completed));
    states, steps := ExtendCall(states, steps, CheckFinish);
    states, steps := ExtendCall(states, steps, TriggerCancel);
    n := |steps|;
    HandsLast(states[n], HandFinish(0));
    states, steps := ExtendCall(states, steps, HandFinish(0));
    assert states[n + 1].handed[|states[n].handed|].Finish?;
  }
}
