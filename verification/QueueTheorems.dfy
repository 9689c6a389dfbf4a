/**
 What every run of the delivery queue keeps.
 */
module QueueTheorems {
  import opened Wrappers
  import opened Writes
  import opened QueueState
  import opened QueueMachine
  import opened QueueEffects
  import opened QueueConservation
  import opened QueueOutcomes
  import opened QueueOrder
  import opened QueueTables
  import opened QueueFollows

  ghost predicate Good(q: Queue) {
    Inv(q) && Outcomes(q) && Order(q) && Tables(q) && Followed(q.h)
  }

  lemma StartGood()
    ensures Good(Start)
  {
    StartHolds();
  }

  lemma GoodStep(q: Queue, step: Step)
    requires Good(q) && Enabled(q, step)
    ensures Good(Apply(q, step))
  {
    hide Inv, Outcomes, Order, Tables, Followed, Apply, Enabled;
    StepKeeps(q, step);
    OutcomesStep(q, step);
    OrderStep(q, step);
    TablesStep(q, step);
    TablesGiveGates(q);
    FollowedStep(q, step);
  }

  lemma TablesGiveGates(q: Queue)
    requires Tables(q)
    ensures Gates(q)
  {}

  lemma {:induction false} RunIsGood(states: seq<Queue>, steps: seq<Step>, i: nat)
    requires IsRun(states, steps) && i < |states|
    ensures Good(states[i])
  {
    hide Good, Apply, Enabled;
    if i == 0 {
      StartGood();
    } else {
      RunIsGood(states, steps, i - 1);
      GoodStep(states[i - 1], steps[i - 1]);
    }
  }

  // ===== conservation =====

  /**
   In every reachable state the places of the queue (the line, the newly held, the
   held, the write being sent and those the task is ending) hold exactly the entries
   of the pending numbers, each in one place.
   */
  lemma PendingIsExactlyTheLoad(states: seq<Queue>, steps: seq<Step>, i: nat)
    requires IsRun(states, steps) && i < |states|
    ensures Load(states[i]) == multiset(EntriesPending(states[i].st.pending, states[i].h.ids.endOf))
    ensures forall n :: n in states[i].st.pending <==> exists e :: e in Load(states[i]) && e.seqNo == n
    ensures forall e | e in Load(states[i]) :: Load(states[i])[e] == 1
    ensures forall e, f | e in Load(states[i]) && f in Load(states[i]) && e.seqNo == f.seqNo :: e == f
  {
    hide Apply, Enabled, Outcomes, Order, Tables, LoadOf;
    RunIsGood(states, steps, i);
    var q := states[i];
    forall e | e in Load(q) ensures e.seqNo in q.st.pending && Load(q)[e] == 1 {
      Located(q, e);
    }
    forall n | n in q.st.pending ensures exists e :: e in Load(q) && e.seqNo == n {
      var e := Entry(n, q.st.pending[n], if n in q.h.ids.endOf then q.h.ids.endOf[n] else 0);
      assert e in EntriesPending(q.st.pending, q.h.ids.endOf);
      assert e in Load(q);
    }
    forall e, f | e in Load(q) && f in Load(q) && e.seqNo == f.seqNo ensures e == f {
      SameNumber(q, e, f);
    }
  }

  // ===== exactly one end =====

  /** A terminal result, once recorded, stays as it is for the rest of the run. */
  lemma {:induction false} ResultsNeverChange(states: seq<Queue>, steps: seq<Step>, i: nat, j: nat, d: EndId)
    requires IsRun(states, steps) && i <= j < |states| && d in states[i].h.results
    ensures d in states[j].h.results && states[j].h.results[d] == states[i].h.results[d]
  {
    hide Apply, Enabled, Inv, Outcomes, Order, Tables;
    if i < j {
      ResultsNeverChange(states, steps, i, j - 1, d);
      RunIsGood(states, steps, j - 1);
      ResultsStep(states[j - 1], steps[j - 1]);
    }
  }

  /** At no time was a write reported or answered twice, or with two different results. */
  lemma AtMostOneEnd(states: seq<Queue>, steps: seq<Step>, i: nat, d: EndId)
    requires IsRun(states, steps) && i < |states| && d in states[i].h.ids.write
    ensures d in states[i].h.reports && |states[i].h.reports[d]| <= 1
    ensures d in states[i].h.sends && |states[i].h.sends[d]| <= 1
    ensures states[i].h.sends[d] != [] ==> d in states[i].h.results && states[i].h.sends[d] == [states[i].h.results[d]]
    ensures d in states[i].h.results && states[i].h.reports[d] != [] ==>
        states[i].h.reports[d] == [states[i].h.results[d]]
  {
    hide Apply, Enabled, Conserved, Shape, OneToOne, PendingKnown, CallsKnown, Order, Tables;
    RunIsGood(states, steps, i);
    assert OutcomeOf(states[i], d);
    if InCompletion(states[i].pc, d) && (states[i].pc.stage.Reporting? || states[i].pc.stage.Recording?) {
      CompletionOfQueued(states[i]);
    }
  }

  /** Once the task is dropped and no hand-over is under way, every write has had its one end. */
  lemma DroppedQueueEndedAll(states: seq<Queue>, steps: seq<Step>, i: nat)
    requires IsRun(states, steps) && i < |states| && states[i].pc.Dead? && states[i].calls == map[]
    ensures states[i].st.pending == map[]
    ensures forall d | d in states[i].h.ids.write ::
              && d in states[i].h.results
              && d in states[i].h.reports && states[i].h.reports[d] == [states[i].h.results[d]]
              && d in states[i].h.sends && states[i].h.sends[d] == [states[i].h.results[d]]
  {
    RunIsGood(states, steps, i);
    var q := states[i];
    EmptyLoad(q);
    hide Apply, Enabled, Conserved, Shape, OneToOne, PendingKnown, CallsKnown, Order, Tables;
    forall d | d in q.h.ids.write
      ensures && d in q.h.results && d in q.h.reports && q.h.reports[d] == [q.h.results[d]]
              && d in q.h.sends && q.h.sends[d] == [q.h.results[d]]
    {
      assert OutcomeOf(q, d);
    }
  }

  lemma EmptyLoad(q: Queue)
    requires Inv(q) && q.pc.Dead?
    ensures q.st.pending == map[]
  {
    assert EntriesOf([]) == [];
    assert HeldEntries(map[]) == {};
    assert Load(q) == multiset{};
    assert EntriesPending(q.st.pending, q.h.ids.endOf) == {} by {
      assert multiset(EntriesPending(q.st.pending, q.h.ids.endOf)) == multiset{};
    }
    NothingPending(q.st.pending, q.h.ids.endOf);
  }

  lemma NothingPending(pending: map<nat, Write>, endOf: map<nat, EndId>)
    ensures forall n | n in pending ::
        Entry(n, pending[n], if n in endOf then endOf[n] else 0) in EntriesPending(pending, endOf)
    ensures EntriesPending(pending, endOf) == {} ==> pending == map[]
  {}

  /** After the drop nothing becomes pending ever again. */
  lemma {:induction false} DroppedForEver(states: seq<Queue>, steps: seq<Step>, i: nat, j: nat)
    requires IsRun(states, steps) && i <= j < |states| && states[i].pc.Dead?
    ensures states[j].pc.Dead? && states[j].st.pending == map[]
  {
    if i < j {
      DroppedForEver(states, steps, i, j - 1);
      DeadStays(states[j - 1], steps[j - 1]);
    }
    hide Apply, Enabled;
    RunIsGood(states, steps, j);
    EmptyLoad(states[j]);
  }

  lemma DeadStays(q: Queue, step: Step)
    requires Enabled(q, step) && q.pc.Dead?
    ensures Apply(q, step).pc.Dead?
  {
    hide Blocked, Absorb, Keep, StillWaiting;
  }

  // ===== order and dependencies =====

  ghost predicate Remembers(h: History, h': History) {
    && h.ids.issued <= h'.ids.issued
    && (forall d: nat | d < h.ids.issued :: Prior(h, d) <= Prior(h', d))
    && (forall d | d in h.ids.write :: d in h'.ids.write && h'.ids.write[d] == h.ids.write[d])
    && (forall d | d in h.gate :: d in h'.gate && h'.gate[d] == h.gate[d])
    && h.ids.direct <= h'.ids.direct
    && h.attempted <= h'.attempted
  }

  /** A gate leaves what came before it as it was: its write had no gate, and the next end was free. */
  lemma GateRemembers(q: Queue, q': Queue, n: nat, gate: Gate)
    requires n in q.held && Released(q, q', n, gate)
    requires var end := q.held[n].entry.end;
             && end !in q.h.gate && end < q.h.ids.issued
             && q.h.ids.issued !in q.h.gate && q.h.ids.issued !in q.h.ids.write
    ensures Remembers(q.h, q'.h)
  {
    var e := q.held[n].entry;
    if gate.Dropped? || q.st.stopped || q.held[n].follow.None? {
      assert q'.h == q.h.(gate := q.h.gate[e.end := gate]);
    } else {
      assert ReleasedBehind(q, q', e, q.held[n].follow.value, gate);
      hide Released;
    }
  }

  lemma GateIsNew(q: Queue, n: nat)
    requires Inv(q) && Gates(q) && n in q.held
    ensures q.held[n].entry.end !in q.h.gate && q.h.ids.issued !in q.h.gate && q.h.ids.issued !in q.h.ids.write
  {
    hide Shape, Conserved, OneToOne, PendingKnown, CallsKnown, Allowed, OnlyMarkers;
    assert Shut(q.h, q.held[n]);
  }

  lemma HandOverRemembers(q: Queue, q': Queue, step: Step)
    requires (step.HandOver? || step.HoldBack?) && HandedOver(q, q', step) && q.h.ids.issued !in q.h.ids.write
    ensures Remembers(q.h, q'.h)
  {
    hide Blocked;
    assert SameTask(q, q') && GotEnd(q, q', step.write, step.HandOver?);
    hide HandedOver;
  }

  lemma OtherRemembers(q: Queue, step: Step)
    requires Enabled(q, step) && !step.HandOver? && !step.HoldBack? && !step.GateEnds?
    ensures Remembers(q.h, Apply(q, step).h)
  {
    hide Apply, Keep;
    OtherFollows(q, step);
    if Quiet(step) {
      QuietEffect(q, step);
    } else if Ending(step) {
      EndingEffect(q, step);
    } else {
      UnqueuedEffect(q, step);
    }
  }

  lemma StepRemembers(q: Queue, step: Step)
    requires Good(q) && Enabled(q, step)
    ensures Remembers(q.h, Apply(q, step).h)
  {
    hide Apply, Inv, Outcomes, Order, Gates, Table, StartedFirst, Drains, Woken, Followed, Blocked, Remembers,
        HandedOver, Released;
    var q' := Apply(q, step);
    if step.HandOver? || step.HoldBack? {
      assert q.h.ids.issued !in q.h.ids.write by { InvUnused(q); }
      HandOverEffect(q, step);
      HandOverRemembers(q, q', step);
    } else if step.GateEnds? {
      GateEndsEffect(q, step.seqNo, step.gate);
      GateIsNew(q, step.seqNo);
      HeldEnd(q, step.seqNo);
      GateRemembers(q, q', step.seqNo, step.gate);
    } else {
      OtherRemembers(q, step);
    }
  }

  lemma InvUnused(q: Queue)
    requires Inv(q)
    ensures q.h.ids.issued !in q.h.ids.write
  {
    UnusedEnd(q);
  }

  lemma {:induction false} RunRemembers(states: seq<Queue>, steps: seq<Step>, i: nat, j: nat)
    requires IsRun(states, steps) && i <= j < |states|
    ensures Remembers(states[i].h, states[j].h)
  {
    hide Apply, Enabled, Good;
    if i < j {
      RunRemembers(states, steps, i, j - 1);
      RunIsGood(states, steps, j - 1);
      StepRemembers(states[j - 1], steps[j - 1]);
    }
  }

  /**
   The step at `k` hands over the write that has the end `e` in state `i`, or holds back the write
   whose follow-up has it.
   */
  ghost predicate HandsOver(states: seq<Queue>, steps: seq<Step>, k: nat, i: nat, e: EndId)
    requires IsRun(states, steps) && i < |states|
  {
    && k < i && (steps[k].HandOver? || steps[k].HoldBack?)
    && var end := states[k].h.ids.issued;
       end == e || (end in states[i].h.follow && states[i].h.follow[end] == e)
  }

  lemma EndRecorded(states: seq<Queue>, steps: seq<Step>, k: nat, i: nat)
    requires IsRun(states, steps) && k < i < |states| && (steps[k].HandOver? || steps[k].HoldBack?)
    ensures Returned(states[k]) <= Prior(states[i].h, states[k].h.ids.issued)
    ensures states[k].h.ids.direct <= states[i].h.ids.direct
  {
    hide Apply, Enabled, Blocked;
    HandOverEffect(states[k], steps[k]);
    RunRemembers(states, steps, k + 1, i);
  }

  /** A write, and a follow-up with it, must not overtake any hand-over that had returned. */
  lemma HandOverRecorded(states: seq<Queue>, steps: seq<Step>, k: nat, i: nat, e: EndId)
    requires IsRun(states, steps) && i < |states| && HandsOver(states, steps, k, i, e)
    ensures Returned(states[k]) <= Prior(states[i].h, e)
  {
    hide Apply, Enabled, Inv, Outcomes, Order, Tables;
    EndRecorded(states, steps, k, i);
    RunIsGood(states, steps, i);
    var end := states[k].h.ids.issued;
    if end != e {
      assert FollowOf(states[i].h, end);
    }
  }

  /** A write is attempted by such a start and in no other way. */
  lemma AttemptsAreStarts(q: Queue, step: Step)
    requires Enabled(q, step)
    ensures StartsAttempt(q, step) ==> Apply(q, step).h.attempted == q.h.attempted + [q.st.fifo[0].end]
    ensures !StartsAttempt(q, step) ==> Apply(q, step).h.attempted == q.h.attempted
  {
    hide Apply, Blocked, Keep, Absorb;
    if step.HandOver? || step.HoldBack? {
      HandOverEffect(q, step);
    } else if step.GateEnds? {
      GateEndsEffect(q, step.seqNo, step.gate);
    } else if TaskKind(step) {
      TaskEffect(q, step);
      TaskAttempts(q, step);
    } else {
      OthersAttemptNothing(q, step);
    }
  }

  lemma TaskAttempts(q: Queue, step: Step)
    requires Enabled(q, step) && TaskKind(step)
    ensures StartsAttempt(q, step) ==> Apply(q, step).h.attempted == q.h.attempted + [q.st.fifo[0].end]
    ensures !StartsAttempt(q, step) ==> Apply(q, step).h.attempted == q.h.attempted
  {
    hide Blocked, Absorb;
  }

  lemma OthersAttemptNothing(q: Queue, step: Step)
    requires Enabled(q, step) && !TaskKind(step) && !step.HandOver? && !step.HoldBack? && !step.GateEnds?
    ensures Apply(q, step).h.attempted == q.h.attempted
  {
    hide StillWaiting, Keep;
  }

  /** Every write that has an end was handed over, or is the follow-up of one that was. */
  lemma {:induction false} EveryEndWasHandedOver(states: seq<Queue>, steps: seq<Step>, i: nat, e: EndId)
      returns (k: nat)
    requires IsRun(states, steps) && i < |states| && e < states[i].h.ids.issued
    ensures HandsOver(states, steps, k, i, e)
  {
    hide Apply, Enabled, Good;
    if i == 0 {
      assert false;
    } else {
      var q, step := states[i - 1], steps[i - 1];
      RunIsGood(states, steps, i - 1);
      FollowsGrow(q, step);
      if e < q.h.ids.issued {
        k := EveryEndWasHandedOver(states, steps, i - 1, e);
      } else if step.HandOver? || step.HoldBack? {
        k := i - 1;
      } else {
        k := EveryEndWasHandedOver(states, steps, i - 1, q.held[step.seqNo].entry.end);
      }
    }
  }

  /** How a new end comes about; a follow-up never changes, and the held write is none itself. */
  lemma FollowsGrow(q: Queue, step: Step)
    requires Good(q) && Enabled(q, step)
    ensures var q' := Apply(q, step);
            && (forall d | d in q.h.follow :: d in q'.h.follow && q'.h.follow[d] == q.h.follow[d])
            && q'.h.ids.issued <= q.h.ids.issued + 1
            && (q'.h.ids.issued > q.h.ids.issued && !step.HandOver? && !step.HoldBack? ==>
                  && step.GateEnds? && step.seqNo in q.held
                  && var end := q.held[step.seqNo].entry.end;
                     && end < q.h.ids.issued && (forall d | d in q.h.follow :: q.h.follow[d] != end)
                     && end in q'.h.follow && q'.h.follow[end] == q.h.ids.issued)
  {
    hide Apply, Inv, Outcomes, Order, Table, StartedFirst, Drains, Woken, Blocked;
    if step.HandOver? || step.HoldBack? {
      HandOverEffect(q, step);
    } else if step.GateEnds? {
      GateEndsEffect(q, step.seqNo, step.gate);
      HeldEnd(q, step.seqNo);
      GateFollows(q, Apply(q, step), step.seqNo, step.gate);
    } else {
      OtherFollows(q, step);
    }
  }

  lemma GateFollows(q: Queue, q': Queue, n: nat, gate: Gate)
    requires Gates(q) && Followed(q.h) && n in q.held && Released(q, q', n, gate)
    ensures forall d | d in q.h.follow ::
        d in q'.h.follow && q'.h.follow[d] == q.h.follow[d] && q.h.follow[d] != q.held[n].entry.end
    ensures q'.h.ids.issued <= q.h.ids.issued + 1
    ensures q'.h.ids.issued > q.h.ids.issued ==>
              q.held[n].entry.end in q'.h.follow && q'.h.follow[q.held[n].entry.end] == q.h.ids.issued
  {
    assert Shut(q.h, q.held[n]);
    forall d | d in q.h.follow ensures d != q.held[n].entry.end && q.h.follow[d] != q.held[n].entry.end {
      assert FollowOf(q.h, d);
    }
    hide Gates, Followed;
  }

  /** So the write that a step starts to send was handed over at some step before. */
  lemma AttemptedWasHandedOver(states: seq<Queue>, steps: seq<Step>, i: nat) returns (k: nat)
    requires IsRun(states, steps) && i < |steps| && StartsAttempt(states[i], steps[i])
    ensures HandsOver(states, steps, k, i, states[i].st.fifo[0].end)
  {
    hide Apply, Enabled, Outcomes, Order, Tables, Shape, LoadOf, Blocked;
    RunIsGood(states, steps, i);
    FifoInLoad(states[i], 0);
    Located(states[i], states[i].st.fifo[0]);
    k := EveryEndWasHandedOver(states, steps, i, states[i].st.fifo[0].end);
  }

  /**
   First in, first out: when a write is attempted, every write that was handed over by
   `enqueue` and whose hand-over returned before its own began has ended. A follow-up counts
   as handed over with the write it goes in front of.
   */
  lemma AttemptsFollowHandOvers(states: seq<Queue>, steps: seq<Step>, k: nat, i: nat, d: EndId)
    requires IsRun(states, steps) && i < |steps| && StartsAttempt(states[i], steps[i])
    requires HandsOver(states, steps, k, i, states[i].st.fifo[0].end) && d in Returned(states[k])
    ensures d in states[i].h.results
  {
    hide Apply, Enabled, Inv, Outcomes, Order, Tables, Followed, Blocked, Returned;
    RunIsGood(states, steps, i);
    HandOverRecorded(states, steps, k, i, states[i].st.fifo[0].end);
    AttemptInOrder(states[i], steps[i]);
  }

  /** A dependency that an attempted write must not overtake has ended, and ended delivered. */
  lemma DependencyDelivered(q: Queue, step: Step, d: EndId, key: DepKey)
    requires Good(q) && StartsAttempt(q, step) && d in Prior(q.h, q.st.fifo[0].end)
    requires d in q.h.ids.write && OwnKey(q.h.ids.write[d]) == Some(key) && key in DependsOn(q.st.fifo[0].write)
    ensures d in q.h.results && key in q.st.ended && q.st.ended[key].WasDelivered?
  {
    hide Inv, Outcomes, Order, StartedFirst, Gates, Drains, Woken, Followed, OwnKey, DependsOn;
    AttemptInOrder(q, step);
    DependsOnItsNeeds(q.st.fifo[0].write, key);
    BlockedIffRemovedDependency(q.st.fifo[0].write, q.st.ended);
  }

  /**
   Dependency safety: of the writes an attempted write needs, each whose hand-over returned before
   its own began has ended, and the last end recorded in its place is a delivery, of it or of
   another write of the same place. No write needs one that came by `hold`, so `d` is any hand-over.
   */
  lemma AttemptsHaveDeliveredDependencies(states: seq<Queue>, steps: seq<Step>, k: nat, i: nat, d: EndId)
    requires IsRun(states, steps) && i < |steps| && StartsAttempt(states[i], steps[i])
    requires HandsOver(states, steps, k, i, states[i].st.fifo[0].end)
    requires d in states[k].h.ids.write && d !in states[k].calls
    requires Needs(states[i].st.fifo[0].write, states[k].h.ids.write[d])
    ensures var q, dep := states[i], states[k].h.ids.write[d];
            && d in q.h.results && d in q.h.ids.write && q.h.ids.write[d] == dep
            && OwnKey(dep).Some? && OwnKey(dep).value in q.st.ended && q.st.ended[OwnKey(dep).value].WasDelivered?
            && exists c :: c in q.h.results && q.h.results[c] == Ok && c in q.h.ids.write
                   && SamePlace(q.h.ids.write[c], dep)
  {
    hide Apply, Enabled, Inv, Outcomes, Order, Tables, OwnKey, DependsOn, Blocked, Needs, SamePlace;
    var dep := states[k].h.ids.write[d];
    KeysTellNeeds(states[i].st.fifo[0].write, dep);
    RunIsGood(states, steps, k);
    assert d in Returned(states[k]);
    HandOverRecorded(states, steps, k, i, states[i].st.fifo[0].end);
    RunRemembers(states, steps, k, i);
    RunIsGood(states, steps, i);
    hide Followed;
    DependencyDelivered(states[i], steps[i], d, OwnKey(dep).value);
    DeliveredKeyHasDeliveredWrite(states, steps, i, OwnKey(dep).value);
    var c :| c in states[i].h.results && c in states[i].h.ids.write
             && OwnKey(states[i].h.ids.write[c]) == OwnKey(dep) && states[i].h.results[c] == Ok;
    KeysTellNeeds(states[i].h.ids.write[c], dep);
  }

  /** A delivered key names a write with that key that was delivered. */
  lemma DeliveredKeyHasDeliveredWrite(states: seq<Queue>, steps: seq<Step>, i: nat, key: DepKey)
    requires IsRun(states, steps) && i < |states| && key in states[i].st.ended && states[i].st.ended[key].WasDelivered?
    ensures exists d :: d in states[i].h.results && d in states[i].h.ids.write
                        && OwnKey(states[i].h.ids.write[d]) == Some(key) && states[i].h.results[d] == Ok
  {
    hide Apply, Enabled, Inv, Outcomes, Order;
    RunIsGood(states, steps, i);
    var d :| Witness(states[i].h, key, states[i].st.ended[key], d);
  }

  /** Nothing but Started is attempted unless Started was delivered. */
  lemma NothingBeforeStarted(states: seq<Queue>, steps: seq<Step>, i: nat)
    requires IsRun(states, steps) && i < |steps| && StartsAttempt(states[i], steps[i])
    requires !states[i].st.fifo[0].write.Started?
    ensures 0 in states[i].h.ids.write && states[i].h.ids.write[0].Started?
    ensures 0 in states[i].h.results && states[i].h.results[0] == Ok
  {
    hide Apply, Enabled, Outcomes, Order, Conserved, LoadOf, Shape;
    RunIsGood(states, steps, i);
    var q := states[i];
    var head := q.st.fifo[0];
    FifoInLoad(q, 0);
    Located(q, head);
    assert 0 in Prior(q.h, head.end);
    AttemptInOrder(q, steps[i]);
    assert OwnKey(q.h.ids.write[0]) == Some(StartedKey);
    assert DependsOn(head.write)[0] == StartedKey;
    BlockedIffRemovedDependency(head.write, q.st.ended);
    DeliveredKeyHasDeliveredWrite(states, steps, i, StartedKey);
  }

  // ===== gates =====

  /** A held write, or its follow-up, is attempted only after the gate said stored. */
  lemma GateBeforeAttempt(states: seq<Queue>, steps: seq<Step>, i: nat, d: EndId)
    requires IsRun(states, steps) && i < |states| && d in states[i].h.attempted
    ensures d in states[i].h.ids.direct || (d in states[i].h.gate && states[i].h.gate[d].Stored?)
  {
    hide Apply, Enabled, Inv, Outcomes, Order;
    RunIsGood(states, steps, i);
  }

  /** After a gate that said dropped, the write it held is never attempted. */
  lemma DroppedGateSendsNothing(states: seq<Queue>, steps: seq<Step>, i: nat, j: nat, d: EndId)
    requires IsRun(states, steps) && i < |states| && j < |states|
    requires d in states[i].h.gate && states[i].h.gate[d].Dropped?
    ensures d !in states[j].h.attempted
  {
    hide Apply, Enabled, Inv, Outcomes, Order;
    var last := |states| - 1;
    RunIsGood(states, steps, last);
    RunRemembers(states, steps, i, last);
    RunRemembers(states, steps, j, last);
    if d in states[j].h.attempted {
      assert d in states[last].h.attempted;
      GateBeforeAttempt(states, steps, last, d);
      assert false;
    }
  }

  /** The follow-up of a held write has ended, sent or removed, before the write is attempted. */
  lemma FollowEndsFirst(states: seq<Queue>, steps: seq<Step>, i: nat)
    requires IsRun(states, steps) && i < |steps| && StartsAttempt(states[i], steps[i])
    requires states[i].st.fifo[0].end in states[i].h.follow
    ensures states[i].h.follow[states[i].st.fifo[0].end] in states[i].h.results
  {
    hide Apply, Enabled, Inv, Outcomes, Order, Blocked;
    RunIsGood(states, steps, i);
    AttemptInOrder(states[i], steps[i]);
  }

  // ===== drain waits and wake-ups =====

  /** A drain wait that returned found everything handed over before it ended and reported. */
  lemma DrainedMeansEnded(states: seq<Queue>, steps: seq<Step>, i: nat, id: nat, d: EndId)
    requires IsRun(states, steps) && i < |states| && id in states[i].drains && states[i].drains[id].phase.Finished?
    requires d in states[i].drains[id].before
    ensures d in states[i].h.results && d in states[i].h.reports && states[i].h.reports[d] == [states[i].h.results[d]]
  {
    hide Apply, Enabled, Order, Conserved, Shape, OneToOne, PendingKnown, CallsKnown, Table, StartedFirst, Gates, Woken;
    RunIsGood(states, steps, i);
    var q := states[i];
    assert DrainOk(q, q.drains[id]);
    assert OutcomeOf(q, d);
    if InCompletion(q.pc, d) && (q.pc.stage.Reporting? || q.pc.stage.Recording?) {
      CompletionOfQueued(q);
    }
  }

  /** What a drain wait waits for is fixed when it subscribes: every hand-over that returned by then. */
  lemma {:induction false} DrainWaitsForAll(states: seq<Queue>, steps: seq<Step>, k: nat, i: nat, id: nat)
    requires IsRun(states, steps) && k < i < |states| && steps[k] == DrainSubscribe(id)
    ensures id in states[i].drains
    ensures states[i].drains[id].before == states[k].h.ids.write.Keys - states[k].calls.Keys
  {
    hide Apply, Enabled;
    if i > k + 1 {
      DrainWaitsForAll(states, steps, k, i - 1, id);
      BeforeStays(states[i - 1], steps[i - 1], id);
    } else {
      SubscribedBefore(states[k], id);
    }
  }

  lemma SubscribedBefore(q: Queue, id: nat)
    requires Enabled(q, DrainSubscribe(id))
    ensures id in Apply(q, DrainSubscribe(id)).drains
    ensures Apply(q, DrainSubscribe(id)).drains[id].before == q.h.ids.write.Keys - q.calls.Keys
  {}

  lemma BeforeStays(q: Queue, step: Step, id: nat)
    requires Enabled(q, step) && id in q.drains
    ensures id in Apply(q, step).drains && Apply(q, step).drains[id].before == q.drains[id].before
  {
    hide Apply, Blocked, Absorb, Keep, StillWaiting;
    if step.HandOver? || step.HoldBack? {
      HandOverEffect(q, step);
    } else if step.GateEnds? {
      GateEndsEffect(q, step.seqNo, step.gate);
    } else if DrainKind(step) {
      DrainEffect(q, step);
    } else if Quiet(step) {
      QuietEffect(q, step);
    } else if Ending(step) {
      EndingEffect(q, step);
    } else {
      UnqueuedEffect(q, step);
    }
  }

  /** A drain wait never sleeps through its moment: it can wake, or the task is about to signal. */
  lemma NoDrainIsLeftAsleep(states: seq<Queue>, steps: seq<Step>, i: nat, id: nat)
    requires IsRun(states, steps) && i < |states| && id in states[i].drains && states[i].drains[id].phase.Asleep?
    requires !StillWaiting(states[i], states[i].drains[id].upto)
    ensures Enabled(states[i], DrainWake(id)) || SignalDue(states[i].pc)
  {
    hide Apply, Inv, Outcomes, Order;
    RunIsGood(states, steps, i);
    assert DrainOk(states[i], states[i].drains[id]);
  }

  /** A parked task with something to take is about to be woken. */
  lemma NoWorkIsLeftAsleep(states: seq<Queue>, steps: seq<Step>, i: nat)
    requires IsRun(states, steps) && i < |states| && states[i].pc.Parked?
    requires || states[i].st.newHeld != []
             || (states[i].entry.None? && states[i].st.fifo != [] && !states[i].st.stopped)
    ensures Enabled(states[i], WakeUp) || exists d :: Enabled(states[i], Notify(d))
  {
    hide Apply, Inv, Outcomes, Order;
    RunIsGood(states, steps, i);
    var q := states[i];
    if !q.permit {
      var d :| d in q.calls && q.calls[d].Notifying?;
      assert Enabled(q, Notify(d));
    }
  }
}
