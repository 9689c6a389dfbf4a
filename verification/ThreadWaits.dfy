/**
 The waits on a thread: what an answer to them means, and that none of them sleeps
 through its moment.
 */
module ThreadWaits {
  import opened Wrappers
  import opened ThreadLine
  import opened ThreadWorker

  // ===== what the dropped set means =====

  /** No item that carries the entry was queued from `since` on. */
  ghost predicate NotQueuedSince(pushed: seq<Queued>, entry: Uuid, since: nat) {
    forall p | since <= p < |pushed| :: !Carries(pushed[p].item, entry)
  }

  /**
   The item that ended `k`-th carries the entry and was in the line when the entry was last
   queued, or later.
   */
  ghost predicate Counts(s: Slot, entry: Uuid, k: nat)
    requires k < |s.h.log|
  {
    Carries(s.h.log[k].queued.item, entry) && NotQueuedSince(s.h.pushed, entry, s.h.log[k].queuedThen)
  }

  ghost predicate LostOne(s: Slot, entry: Uuid) {
    exists k: nat :: k < |s.h.log| && Counts(s, entry, k) && !s.h.log[k].how.Delivered?
  }

  ghost predicate DroppedExactly(s: Slot) {
    forall entry :: entry in s.line.dropped <==> LostOne(s, entry)
  }

  lemma PushDropped(s: Slot, s': Slot, q: Queued, entry: Uuid)
    requires Fifo(s) && DroppedExactly(s)
    requires s'.h.log == s.h.log && s'.h.pushed == s.h.pushed + [q]
    requires s'.line.dropped == s.line.dropped - EntriesOf(q.item)
    ensures entry in s'.line.dropped <==> LostOne(s', entry)
  {
    if Carries(q.item, entry) {
      forall k: nat | k < |s'.h.log| ensures !Counts(s', entry, k) {
        assert Carries(s'.h.pushed[|s.h.pushed|].item, entry);
      }
    } else {
      forall k: nat | k < |s.h.log| ensures Counts(s', entry, k) == Counts(s, entry, k) {
        SinceLonger(s.h.pushed, q, entry, s.h.log[k].queuedThen);
      }
      assert LostOne(s', entry) == LostOne(s, entry);
    }
  }

  lemma SinceLonger(pushed: seq<Queued>, q: Queued, entry: Uuid, since: nat)
    requires !Carries(q.item, entry)
    ensures NotQueuedSince(pushed + [q], entry, since) == NotQueuedSince(pushed, entry, since)
  {
    var longer := pushed + [q];
    assert forall p | 0 <= p < |pushed| :: longer[p] == pushed[p];
  }

  lemma PopDropped(s: Slot, s': Slot, e: Ended, entry: Uuid)
    requires DroppedExactly(s) && e.queuedThen == |s.h.pushed|
    requires s'.h.log == s.h.log + [e] && s'.h.pushed == s.h.pushed
    requires s'.line.dropped == (if e.how.Delivered? then s.line.dropped else s.line.dropped + EntriesOf(e.queued.item))
    ensures entry in s'.line.dropped <==> LostOne(s', entry)
  {
    var n := |s.h.log|;
    forall k: nat | k < n ensures Counts(s', entry, k) == Counts(s, entry, k) {}
    assert Counts(s', entry, n) == Carries(e.queued.item, entry);
    if LostOne(s, entry) {
      var k: nat :| k < n && Counts(s, entry, k) && !s.h.log[k].how.Delivered?;
      assert Counts(s', entry, k);
    }
    if LostOne(s', entry) {
      var k: nat :| k < |s'.h.log| && Counts(s', entry, k) && !s'.h.log[k].how.Delivered?;
      assert k < n ==> Counts(s, entry, k);
    }
  }

  lemma DroppedStep(s: Slot, step: Step)
    requires Fifo(s) && DroppedExactly(s) && Enabled(s, step)
    ensures DroppedExactly(Apply(s, step))
  {
    hide AnswerTo, Retryable, Fifo, EntriesOf, DroppedExactly;
    var s' := Apply(s, step);
    if step.Push? && !s.stopped {
      forall entry ensures entry in s'.line.dropped <==> LostOne(s', entry) {
        PushDropped(s, s', Queued(s.producer.item, s.producer.no), entry);
      }
      Exact(s');
    } else if step.Pop? {
      var pc := s.workers[step.worker];
      forall entry ensures entry in s'.line.dropped <==> LostOne(s', entry) {
        PopDropped(s, s', Ended(pc.head, pc.how, |s.h.pushed|), entry);
      }
      Exact(s');
    } else {
      assert s'.h.log == s.h.log && s'.h.pushed == s.h.pushed && s'.line.dropped == s.line.dropped;
      SameDropped(s, s');
    }
  }

  lemma Exact(s: Slot)
    requires forall entry :: entry in s.line.dropped <==> LostOne(s, entry)
    ensures DroppedExactly(s)
  {}

  lemma SameDropped(s: Slot, s': Slot)
    requires DroppedExactly(s) && s'.h.log == s.h.log && s'.h.pushed == s.h.pushed && s'.line.dropped == s.line.dropped
    ensures DroppedExactly(s')
  {
    forall entry ensures LostOne(s, entry) == LostOne(s', entry) {
      assert forall k: nat | k < |s.h.log| :: Counts(s', entry, k) == Counts(s, entry, k);
    }
  }

  // ===== the waits =====

  /** Someone has changed the line and is about to say so. */
  ghost predicate SignalDue(s: Slot) {
    s.producer.Pushed? || exists w :: w in s.workers && s.workers[w].Bumping?
  }

  ghost predicate WaitOk(s: Slot, w: Wait) {
    && w.handedBefore <= |s.h.pushed|
    && w.seen <= s.version
    && (w.kind.ForDrain? ==>
          && w.kind.target <= s.line.lastNo
          && (forall k | 0 <= k < w.handedBefore :: s.h.pushed[k].no <= w.kind.target))
    && (w.phase.Asleep? && AnswerTo(s.line, w.kind).Some? ==> w.seen < s.version || SignalDue(s))
    && (w.phase.Answered? && w.phase.answer.Drained? ==> w.kind.ForDrain? && w.handedBefore <= |s.h.log|)
  }

  ghost predicate Waits(s: Slot) {
    forall i | i in s.waits :: WaitOk(s, s.waits[i])
  }

  /** Everything the waits look at is unchanged. */
  ghost predicate SameForWaits(s: Slot, s': Slot) {
    && s'.h.pushed == s.h.pushed && s'.h.log == s.h.log && s'.version == s.version
    && s'.line.items == s.line.items && s'.line.dropped == s.line.dropped && s'.line.lastNo == s.line.lastNo
    && (SignalDue(s) ==> SignalDue(s'))
  }

  lemma QuietWait(s: Slot, s': Slot, w: Wait)
    requires WaitOk(s, w) && SameForWaits(s, s')
    ensures WaitOk(s', w)
  {}

  /** A change of the line comes with a signal that is due; a signal moves the version on. */
  ghost predicate LoudFor(s: Slot, s': Slot) {
    && s.h.pushed <= s'.h.pushed && |s.h.log| <= |s'.h.log|
    && s.version <= s'.version && s.line.lastNo <= s'.line.lastNo
    && (SignalDue(s') || s.version < s'.version)
  }

  lemma LoudWait(s: Slot, s': Slot, w: Wait)
    requires WaitOk(s, w) && LoudFor(s, s')
    ensures WaitOk(s', w)
  {}

  predicate Loud(s: Slot, step: Step) {
    (step.Push? && !s.stopped) || step.Bump? || step.Pop? || step.BumpEnd?
  }

  predicate WaitKindOfStep(step: Step) {
    step.StartDrain? || step.StartEntry? || step.Subscribe? || step.Check? || step.Wake?
  }

  lemma LoudEffect(s: Slot, step: Step)
    requires Numbers(s) && Enabled(s, step) && Loud(s, step)
    ensures LoudFor(s, Apply(s, step)) && Apply(s, step).waits == s.waits
  {
    hide AnswerTo, EntriesOf, Retryable;
    var s' := Apply(s, step);
    if step.Pop? {
      assert s'.workers[step.worker].Bumping?;
    }
  }

  lemma QuietEffect(s: Slot, step: Step)
    requires Enabled(s, step) && !Loud(s, step) && !WaitKindOfStep(step)
    ensures SameForWaits(s, Apply(s, step)) && Apply(s, step).waits == s.waits
  {
    hide AnswerTo, EntriesOf, Retryable;
    var s' := Apply(s, step);
    if SignalDue(s) && !s.producer.Pushed? {
      var w :| w in s.workers && s.workers[w].Bumping?;
      assert w in s'.workers && s'.workers[w].Bumping?;
    }
  }

  /** A step of a wait changes nothing that the other waits look at. */
  lemma WaitEffect(s: Slot, step: Step)
    requires Enabled(s, step) && WaitKindOfStep(step)
    ensures var s' := Apply(s, step);
            && SameForWaits(s, s') && step.wait in s'.waits && s'.waits == s.waits[step.wait := s'.waits[step.wait]]
            && s' == s.(waits := s'.waits)
  {
    hide AnswerTo;
  }

  /** The wait of the step itself. */
  lemma OwnWait(s: Slot, step: Step)
    requires Fifo(s) && Numbers(s) && Waits(s) && Enabled(s, step) && WaitKindOfStep(step)
    requires step.wait in Apply(s, step).waits
    ensures WaitOk(s, Apply(s, step).waits[step.wait])
  {
    if step.StartDrain? || step.StartEntry? {
      hide Fifo, AnswerTo, Waits;
    } else {
      assert WaitOk(s, s.waits[step.wait]);
      if step.Check? {
        CheckedDrain(s, s.waits[step.wait]);
      }
      hide Fifo, Numbers, Waits, SignalDue;
    }
  }

  lemma WaitStep(s: Slot, step: Step)
    requires Fifo(s) && Numbers(s) && Waits(s) && Enabled(s, step) && WaitKindOfStep(step)
    ensures Waits(Apply(s, step))
  {
    hide Apply, Enabled, Fifo, Numbers, WaitOk, SameForWaits;
    var s' := Apply(s, step);
    WaitEffect(s, step);
    OwnWait(s, step);
    forall i | i in s'.waits ensures WaitOk(s', s'.waits[i]) {
      QuietWait(s, s', s'.waits[i]);
    }
  }

  lemma CheckedDrain(s: Slot, w: Wait)
    requires Fifo(s) && Numbers(s) && WaitOk(s, w)
    ensures AnswerTo(s.line, w.kind) == Some(Drained) ==> w.kind.ForDrain? && w.handedBefore <= |s.h.log|
  {
    if w.kind.ForDrain? && s.line.items != [] {
      assert s.line.items[0] == s.h.pushed[|s.h.log|];
    }
  }

  lemma WaitsStep(s: Slot, step: Step)
    requires Fifo(s) && Numbers(s) && Waits(s) && Enabled(s, step)
    ensures Waits(Apply(s, step))
  {
    hide Apply, Enabled, Fifo, Numbers, WaitOk, SameForWaits, LoudFor;
    var s' := Apply(s, step);
    if WaitKindOfStep(step) {
      WaitStep(s, step);
    } else if Loud(s, step) {
      LoudEffect(s, step);
      forall i | i in s'.waits ensures WaitOk(s', s'.waits[i]) {
        LoudWait(s, s', s.waits[i]);
      }
    } else {
      QuietEffect(s, step);
      forall i | i in s'.waits ensures WaitOk(s', s'.waits[i]) {
        QuietWait(s, s', s.waits[i]);
      }
    }
  }

  lemma {:induction false} RunWaits(states: seq<Slot>, steps: seq<Step>, i: nat)
    requires IsRun(states, steps) && i < |states|
    ensures Waits(states[i]) && DroppedExactly(states[i]) && Inv(states[i])
  {
    hide Apply, Enabled, Waits, DroppedExactly, OneWorker, Fifo, Numbers, Handed, Openings;
    if i == 0 {
      FreshWaits();
    } else {
      RunWaits(states, steps, i - 1);
      WaitsStep(states[i - 1], steps[i - 1]);
      DroppedStep(states[i - 1], steps[i - 1]);
    }
    RunKeeps(states, steps, i);
  }

  lemma FreshWaits()
    ensures Waits(FreshSlot) && DroppedExactly(FreshSlot)
  {}

  // ===== the theorems =====

  /**
   What a look for an entry answers. Dropped: an item that carries it, and was in the line at or
   after the last time the entry was queued, ended refused or unsent. Stored: no waiting item
   carries it, and each of those items was delivered. It sleeps in all other cases.
   */
  lemma EntryAnswerMeans(states: seq<Slot>, steps: seq<Step>, i: nat, entry: Uuid)
    requires IsRun(states, steps) && i < |states|
    ensures var s := states[i];
            var answer := AnswerTo(s.line, ForEntry(entry));
            var waiting := exists q :: q in s.line.items && Carries(q.item, entry);
            var allDelivered := forall k: nat | k < |s.h.log| && Counts(s, entry, k) :: s.h.log[k].how.Delivered?;
            && (answer == Some(EntryStored) <==> !waiting && allDelivered)
            && (answer == Some(EntryDropped) <==> !allDelivered)
            && (answer == None <==> waiting && allDelivered)
  {
    hide Apply, Enabled, Waits, Inv, NotQueuedSince;
    RunWaits(states, steps, i);
    var s := states[i];
    if exists q :: q in s.line.items && Carries(q.item, entry) {
      var q :| q in s.line.items && Carries(q.item, entry);
      var n :| 0 <= n < |s.line.items| && s.line.items[n] == q;
      assert Carries(s.line.items[n].item, entry);
    }
    if n :| 0 <= n < |s.line.items| && Carries(s.line.items[n].item, entry) {
      assert s.line.items[n] in s.line.items;
    }
  }

  /** A drain wait that returned found every item queued before it began ended. */
  lemma DrainedMeansEnded(states: seq<Slot>, steps: seq<Step>, k: nat, i: nat, wait: nat)
    requires IsRun(states, steps) && k < i < |states| && steps[k] == StartDrain(wait)
    requires wait in states[i].waits && states[i].waits[wait].phase.Answered?
    ensures |states[k].h.pushed| <= |states[i].h.log|
    ensures forall n | 0 <= n < |states[k].h.pushed| :: states[i].h.log[n].queued == states[k].h.pushed[n]
  {
    hide Apply, Enabled, OneWorker, Numbers, Handed, Openings, DroppedExactly;
    WaitKept(states, steps, k, i, wait);
    RunWaits(states, steps, i);
    assert WaitOk(states[i], states[i].waits[wait]);
  }

  /** A look of a drain wait answers exactly when every item queued before the wait began has ended. */
  lemma DrainAnswersExactly(states: seq<Slot>, steps: seq<Step>, k: nat, i: nat, wait: nat)
    requires IsRun(states, steps) && k < i < |steps| && steps[k] == StartDrain(wait) && steps[i] == Check(wait)
    ensures wait in states[i + 1].waits
    ensures |states[k].h.pushed| <= |states[i].h.log| <==> states[i + 1].waits[wait].phase == Answered(Drained)
    ensures |states[k].h.pushed| > |states[i].h.log| <==> states[i + 1].waits[wait].phase.Asleep?
  {
    hide Apply, Enabled, OneWorker, Handed, Openings, DroppedExactly;
    WaitKept(states, steps, k, i, wait);
    TargetKept(states, steps, k, i, wait);
    RunWaits(states, steps, k);
    RunWaits(states, steps, i);
    assert WaitOk(states[i], states[i].waits[wait]);
    Checked(states[i], wait);
    var s := states[i];
    if |states[k].h.pushed| > |s.h.log| {
      assert s.line.items[0] == s.h.pushed[|s.h.log|];
      assert s.h.pushed[|s.h.log|].no <= s.waits[wait].kind.target;
    } else if s.line.items != [] {
      assert s.line.items[0] == s.h.pushed[|s.h.log|];
      QueuedLater(states[k], s, |s.h.log|);
    }
  }

  lemma QueuedLater(s: Slot, s': Slot, n: nat)
    requires Numbers(s) && Numbers(s') && s.h.pushed <= s'.h.pushed && |s.h.pushed| <= n < |s'.h.pushed|
    ensures s'.h.pushed[n].no > s.line.lastNo
  {
    if s.h.pushed != [] {
      assert s'.h.pushed[|s.h.pushed| - 1].no < s'.h.pushed[n].no;
    }
  }

  lemma Checked(s: Slot, wait: nat)
    requires Enabled(s, Check(wait)) && s.waits[wait].kind.ForDrain?
    ensures var s' := Apply(s, Check(wait));
            && wait in s'.waits
            && (s'.waits[wait].phase == Answered(Drained) <==>
                  s.line.items == [] || s.line.items[0].no > s.waits[wait].kind.target)
            && (s'.waits[wait].phase.Asleep? <==> s'.waits[wait].phase != Answered(Drained))
  {}

  lemma {:induction false} TargetKept(states: seq<Slot>, steps: seq<Step>, k: nat, i: nat, wait: nat)
    requires IsRun(states, steps) && k < i < |states| && steps[k] == StartDrain(wait)
    ensures wait in states[i].waits && states[i].waits[wait].kind == ForDrain(states[k].line.lastNo)
  {
    hide Apply, Enabled;
    if i == k + 1 {
      DrainStarted(states[k], wait);
    } else {
      TargetKept(states, steps, k, i - 1, wait);
      WaitKeptKind(states[i - 1], steps[i - 1], wait);
    }
  }

  lemma WaitKeptKind(s: Slot, step: Step, wait: nat)
    requires Enabled(s, step) && wait in s.waits
    ensures wait in Apply(s, step).waits && Apply(s, step).waits[wait].kind == s.waits[wait].kind
  {
    hide EntriesOf, Retryable, AnswerTo;
  }

  /** What a wait is for never changes, and the queued items only grow. */
  lemma {:induction false} WaitKept(states: seq<Slot>, steps: seq<Step>, k: nat, i: nat, wait: nat)
    requires IsRun(states, steps) && k < i < |states| && steps[k] == StartDrain(wait)
    ensures wait in states[i].waits && states[i].waits[wait].kind.ForDrain?
    ensures states[i].waits[wait].handedBefore == |states[k].h.pushed| && states[k].h.pushed <= states[i].h.pushed
    ensures states[i].waits[wait].phase.Answered? ==> states[i].waits[wait].phase.answer.Drained?
  {
    hide Apply, Enabled;
    if i == k + 1 {
      DrainStarted(states[k], wait);
    } else {
      WaitKept(states, steps, k, i - 1, wait);
      WaitKeptStep(states[i - 1], steps[i - 1], wait);
    }
  }

  lemma DrainStarted(s: Slot, wait: nat)
    requires Enabled(s, StartDrain(wait))
    ensures var s' := Apply(s, StartDrain(wait));
            && wait in s'.waits && s'.waits[wait].kind == ForDrain(s.line.lastNo) && s'.waits[wait].phase.Subscribing?
            && s'.waits[wait].handedBefore == |s.h.pushed| && s'.h.pushed == s.h.pushed
  {}

  lemma WaitKeptStep(s: Slot, step: Step, wait: nat)
    requires Enabled(s, step) && wait in s.waits && s.waits[wait].kind.ForDrain?
    requires s.waits[wait].phase.Answered? ==> s.waits[wait].phase.answer.Drained?
    ensures var s' := Apply(s, step);
            && wait in s'.waits && s'.waits[wait].kind == s.waits[wait].kind
            && s'.waits[wait].handedBefore == s.waits[wait].handedBefore && s.h.pushed <= s'.h.pushed
            && (s'.waits[wait].phase.Answered? ==> s'.waits[wait].phase.answer.Drained?)
  {
    hide EntriesOf, Retryable;
  }

  /** A wait whose answer is there never sleeps on: it can wake, or a signal is about to be given. */
  lemma NoWaitIsLeftAsleep(states: seq<Slot>, steps: seq<Step>, i: nat, wait: nat)
    requires IsRun(states, steps) && i < |states| && wait in states[i].waits && states[i].waits[wait].phase.Asleep?
    requires AnswerTo(states[i].line, states[i].waits[wait].kind).Some?
    ensures Enabled(states[i], Wake(wait)) || Enabled(states[i], Bump) || exists w :: Enabled(states[i], BumpEnd(w))
  {
    hide Apply, Inv, DroppedExactly, AnswerTo;
    RunWaits(states, steps, i);
    var s := states[i];
    assert WaitOk(s, s.waits[wait]);
    if s.waits[wait].seen == s.version && !s.producer.Pushed? {
      var w :| w in s.workers && s.workers[w].Bumping?;
      assert Enabled(s, BumpEnd(w));
    }
  }
}
