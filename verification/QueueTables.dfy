/**
 What the dependency table, the gates, the drain waits and the wake signal keep.
 */
module QueueTables {
  import opened Wrappers
  import opened Writes
  import opened QueueState
  import opened QueueMachine
  import opened QueueEffects
  import opened QueueConservation
  import opened QueueOutcomes

  // ===== the dependency table =====

  function WriteOf(h: History, d: EndId): Write {
    if d in h.ids.write then h.ids.write[d] else Answer("")
  }

  /** The end recorded under a key is the end of a write with that key. */
  ghost predicate Witness(h: History, key: DepKey, ended: Ended, d: EndId) {
    d in h.results && d in h.ids.write && OwnKey(h.ids.write[d]) == Some(key) && EndedOf(h.results[d]) == ended
  }

  ghost predicate Table(ended: map<DepKey, Ended>, h: History) {
    && (forall d | d in h.results && d in h.ids.write && OwnKey(h.ids.write[d]).Some? ::
          OwnKey(h.ids.write[d]).value in ended)
    && (forall key | key in ended :: exists d :: Witness(h, key, ended[key], d))
  }

  lemma TableRecords(ended: map<DepKey, Ended>, h: History, h': History, d: EndId, result: WriteResult)
    requires Table(ended, h) && d !in h.results && d in h.ids.write
    requires h'.ids == h.ids && h'.results == h.results[d := result]
    ensures Table(Keep(ended, h.ids.write[d], result), h')
  {
    var ended' := Keep(ended, h.ids.write[d], result);
    forall key | key in ended' ensures exists c :: Witness(h', key, ended'[key], c) {
      if OwnKey(h.ids.write[d]) == Some(key) {
        assert Witness(h', key, ended'[key], d);
      } else {
        var c :| Witness(h, key, ended[key], c);
        assert Witness(h', key, ended'[key], c);
      }
    }
  }

  lemma TableGrows(ended: map<DepKey, Ended>, h: History, h': History)
    requires Table(ended, h) && h'.results == h.results
    requires forall d | d in h.results :: d in h.ids.write
    requires forall d | d in h.ids.write :: d in h'.ids.write && h'.ids.write[d] == h.ids.write[d]
    ensures Table(ended, h')
  {
    forall key | key in ended ensures exists c :: Witness(h', key, ended[key], c) {
      var c :| Witness(h, key, ended[key], c);
      assert Witness(h', key, ended[key], c);
    }
  }

  // ===== Started comes first =====

  ghost predicate StartedFirst(h: History) {
    && (forall d | d in h.ids.write :: h.ids.write[d].Started? <==> d == 0)
    && (forall d: nat | 0 < d < h.ids.issued :: 0 in Prior(h, d))
    && (h.ids.issued > 0 ==> 0 in h.ids.direct)
  }

  // ===== gates =====

  ghost predicate OnlyMarkers(item: Held) {
    item.entry.write.Marker? && (item.follow.Some? ==> item.follow.value.Finish?)
  }

  /** A write that came by `hold` stands where it can be sent only if its gate said stored. */
  ghost predicate Allowed(h: History, d: EndId) {
    d in h.ids.direct || (d in h.gate && h.gate[d].Stored?)
  }

  /** A held item came by `hold` and its gate has not ended. */
  ghost predicate Shut(h: History, item: Held) {
    OnlyMarkers(item) && item.entry.end !in h.gate && item.entry.end !in h.ids.direct
  }

  ghost predicate Gates(q: Queue) {
    && (forall n | n in q.held :: Shut(q.h, q.held[n]))
    && (forall i | 0 <= i < |q.st.newHeld| :: Shut(q.h, q.st.newHeld[i]))
    && (forall i | 0 <= i < |q.st.fifo| :: Allowed(q.h, q.st.fifo[i].end))
    && (forall d | d in q.h.attempted :: Allowed(q.h, d))
    && (forall d | d in q.h.gate :: d < q.h.ids.issued && d !in q.h.ids.direct)
    && (forall d | d in q.h.follow :: d < q.h.ids.issued && q.h.follow[d] in Prior(q.h, d))
  }

  // ===== drain waits =====

  /** A signal for a finished completion is still to come. */
  ghost predicate SignalDue(pc: Pc) {
    pc.Completing? && (pc.stage.Sending? || pc.stage.Signalling?)
  }

  ghost predicate DrainOk(q: Queue, drain: Drain) {
    && drain.seen <= q.version
    && (forall d | d in drain.before ::
          && d < q.h.ids.issued && d !in q.calls
          && (d in q.h.results || (d in q.h.ids.seqOf && (drain.phase.Subscribed? || q.h.ids.seqOf[d] < drain.upto))))
    && (drain.phase.Asleep? ==> drain.seen != q.version || StillWaiting(q, drain.upto) || SignalDue(q.pc))
    && (drain.phase.Finished? ==> forall d | d in drain.before :: d in q.h.results)
  }

  ghost predicate Drains(q: Queue) {
    forall id | id in q.drains :: DrainOk(q, q.drains[id])
  }

  // ===== the wake signal of the task =====

  ghost predicate Signalled(q: Queue) {
    q.permit || exists d :: d in q.calls && q.calls[d].Notifying?
  }

  ghost predicate PastHeld(pc: Pc) {
    pc.TookHeld? || pc.Parked? || (pc.Completing? && pc.next.TookHeld?)
  }

  /** A task that waits with work in front of it has a signal stored or on its way. */
  ghost predicate Woken(q: Queue) {
    && (PastHeld(q.pc) && q.st.newHeld != [] ==> Signalled(q))
    && (q.pc.Parked? && q.entry.None? && q.st.fifo != [] && !q.st.stopped ==> Signalled(q))
  }

  // ===== hand-overs =====

  ghost predicate Tables(q: Queue) {
    Table(q.st.ended, q.h) && StartedFirst(q.h) && Gates(q) && Drains(q) && Woken(q)
  }

  lemma HandOverTables(q: Queue, q': Queue, step: Step)
    requires Inv(q) && Outcomes(q) && Tables(q) && Enabled(q, step)
    requires (step.HandOver? || step.HoldBack?) && HandedOver(q, q', step)
    ensures Tables(q')
  {
    hide Conserved, Shape, OutcomeOf, OneToOne, PendingKnown, CallsKnown, Blocked, Apply;
    assert Table(q'.st.ended, q'.h) by { TableGrows(q.st.ended, q.h, q'.h); }
    HandOverGates(q, q', step);
    HandOverDrains(q, q', step);
    HandOverStarted(q, q', step);
    HandOverWoken(q, q', step);
    hide Table, StartedFirst, Gates, Drains, Woken;
  }

  lemma HandOverStarted(q: Queue, q': Queue, step: Step)
    requires Numbers(q) && StartedFirst(q.h) && Enabled(q, step)
    requires (step.HandOver? || step.HoldBack?) && HandedOver(q, q', step)
    ensures StartedFirst(q'.h)
  {
    hide Blocked, OneToOne, PendingKnown, CallsKnown, SameTask;
    assert MayHandOver(q, step.write);
    forall d: nat | 0 < d < q'.h.ids.issued ensures 0 in Prior(q'.h, d) {
      if d == q.h.ids.issued {
        assert 0 in Returned(q);
      } else {
        assert Prior(q'.h, d) == Prior(q.h, d);
      }
    }
  }

  lemma HandOverGates(q: Queue, q': Queue, step: Step)
    requires Inv(q) && Gates(q) && Enabled(q, step) && (step.HandOver? || step.HoldBack?) && HandedOver(q, q', step)
    ensures Gates(q')
  {
    hide Blocked, Inv, LoadOf, Shut, Allowed, HandedOver;
    InvFree(q);
    HandedHeld(q, q', step);
    forall n | n in q'.held ensures Shut(q'.h, q'.held[n]) {
      HeldInLoad(q, n);
      InvLocated(q, q.held[n].entry);
      HandedShut(q, q', step, q.held[n]);
    }
    forall i | 0 <= i < |q'.st.newHeld| ensures Shut(q'.h, q'.st.newHeld[i]) {
      if i < |q.st.newHeld| {
        NewHeldInLoad(q, i);
        InvLocated(q, q.st.newHeld[i].entry);
        HandedShut(q, q', step, q.st.newHeld[i]);
      }
    }
    HandedAllowed(q, q', step);
  }

  lemma InvFree(q: Queue)
    requires Inv(q)
    ensures q.h.ids.issued !in q.h.ids.direct
  {}

  lemma InvLocated(q: Queue, e: Entry)
    requires Inv(q) && e in Load(q)
    ensures e.end < q.h.ids.issued
  {
    hide Shape, LoadOf;
    Located(q, e);
  }

  /** What was held is held; at most the new write joins it. */
  lemma HandedHeld(q: Queue, q': Queue, step: Step)
    requires Gates(q) && Enabled(q, step) && (step.HandOver? || step.HoldBack?) && HandedOver(q, q', step)
    requires q.h.ids.issued !in q.h.ids.direct
    ensures q'.held == q.held && q.st.newHeld <= q'.st.newHeld && |q'.st.newHeld| <= |q.st.newHeld| + 1
    ensures |q'.st.newHeld| > |q.st.newHeld| ==> Shut(q'.h, q'.st.newHeld[|q.st.newHeld|])
  {
    hide Blocked, Allowed;
  }

  lemma HandedShut(q: Queue, q': Queue, step: Step, item: Held)
    requires (step.HandOver? || step.HoldBack?) && HandedOver(q, q', step)
    requires Shut(q.h, item) && item.entry.end < q.h.ids.issued
    ensures Shut(q'.h, item)
  {
    hide Blocked;
  }

  lemma HandedAllowed(q: Queue, q': Queue, step: Step)
    requires Gates(q) && (step.HandOver? || step.HoldBack?) && HandedOver(q, q', step)
    requires q.h.ids.issued !in q.h.ids.direct
    ensures forall i | 0 <= i < |q'.st.fifo| :: Allowed(q'.h, q'.st.fifo[i].end)
    ensures forall d | d in q'.h.attempted :: Allowed(q'.h, d)
    ensures forall d | d in q'.h.gate :: d < q'.h.ids.issued && d !in q'.h.ids.direct
    ensures forall d | d in q'.h.follow :: d < q'.h.ids.issued && q'.h.follow[d] in Prior(q'.h, d)
  {
    hide Blocked, Shut;
  }

  lemma HandOverDrains(q: Queue, q': Queue, step: Step)
    requires Numbers(q) && Drains(q) && (step.HandOver? || step.HoldBack?) && HandedOver(q, q', step)
    ensures Drains(q')
  {
    hide Blocked, StillWaiting;
    forall id | id in q'.drains ensures DrainOk(q', q'.drains[id]) {
      WaitingGrows(q, q', q.drains[id].upto);
    }
  }

  lemma WaitingGrows(q: Queue, q': Queue, upto: nat)
    requires forall n | n in q.st.pending :: n in q'.st.pending
    ensures StillWaiting(q, upto) ==> StillWaiting(q', upto)
  {}

  lemma HandOverWoken(q: Queue, q': Queue, step: Step)
    requires Numbers(q) && Woken(q) && (step.HandOver? || step.HoldBack?) && HandedOver(q, q', step)
    ensures Woken(q')
  {
    hide Blocked, OneToOne, PendingKnown;
    var end := q.h.ids.issued;
    assert end !in q.calls by { UnusedEnd(q); }
    hide Numbers;
    if HandOverRemoval(q, step).None? {
      assert end in q'.calls && q'.calls[end].Notifying?;
    } else if exists d :: d in q.calls && q.calls[d].Notifying? {
      var d :| d in q.calls && q.calls[d].Notifying?;
      assert d in q'.calls && q'.calls[d].Notifying?;
    }
  }

  // ===== gates end =====

  lemma GateEndsTables(q: Queue, q': Queue, n: nat, gate: Gate)
    requires Inv(q) && Outcomes(q) && Tables(q) && q.pc.Parked? && n in q.held && Released(q, q', n, gate)
    ensures Tables(q')
  {
    hide Conserved, OutcomeOf, Numbers, Apply, LoadOf;
    var e := q.held[n].entry;
    HeldInLoad(q, n);
    Located(q, e);
    ReleasedWrites(q, q', n, gate);
    assert Table(q'.st.ended, q'.h) by { ResultsWritten(q); TableGrows(q.st.ended, q.h, q'.h); }
    assert e.end > 0 by { assert q.h.ids.write[e.end].Marker?; }
    ReleasedStarted(q, q', n, gate);
    ReleasedGates(q, q', n, gate);
    ReleasedDrains(q, q', n, gate);
    hide Table, StartedFirst, Gates, Drains;
  }

  lemma ResultsWritten(q: Queue)
    requires Numbers(q) && Outcomes(q)
    ensures forall d | d in q.h.results :: d in q.h.ids.write
  {
    hide OutcomeOf, OneToOne, PendingKnown, CallsKnown;
  }

  lemma ReleasedWrites(q: Queue, q': Queue, n: nat, gate: Gate)
    requires Numbers(q) && n in q.held && Released(q, q', n, gate)
    ensures q'.h.results == q.h.results
    ensures forall d | d in q.h.ids.write :: d in q'.h.ids.write && q'.h.ids.write[d] == q.h.ids.write[d]
    ensures forall d | d in q.h.ids.seqOf :: d in q'.h.ids.seqOf && q'.h.ids.seqOf[d] == q.h.ids.seqOf[d]
    ensures forall m | m in q.st.pending :: m in q'.st.pending
  {
    hide PendingKnown, CallsKnown;
  }

  lemma ReleasedStarted(q: Queue, q': Queue, n: nat, gate: Gate)
    requires Numbers(q) && StartedFirst(q.h) && n in q.held && Released(q, q', n, gate) && OnlyMarkers(q.held[n])
    requires 0 < q.held[n].entry.end < q.h.ids.issued
    ensures StartedFirst(q'.h)
  {
    hide OneToOne, PendingKnown, CallsKnown;
    var e := q.held[n].entry;
    forall d: nat | 0 < d < q'.h.ids.issued ensures 0 in Prior(q'.h, d) {
      if d == q.h.ids.issued {
        assert 0 in Prior(q.h, e.end);
      } else {
        assert Prior(q.h, d) <= Prior(q'.h, d);
      }
    }
  }

  lemma ReleasedGates(q: Queue, q': Queue, n: nat, gate: Gate)
    requires Inv(q) && Gates(q) && q.pc.Parked? && n in q.held && Released(q, q', n, gate)
    requires q.held[n].entry.end < q.h.ids.issued
    ensures Gates(q')
  {
    hide Conserved, LoadOf;
    var e := q.held[n].entry;
    HeldInLoad(q, n);
    assert q'.held == q.held - {n} && q'.st.newHeld == q.st.newHeld;
    hide Numbers, Released, Shut;
    forall m | m in q'.held ensures Shut(q'.h, q'.held[m]) {
      HeldInLoad(q, m);
      SameNumberApart(q, q.held[m].entry, e);
      ReleasedShut(q, q', n, gate, q.held[m]);
    }
    forall i | 0 <= i < |q'.st.newHeld| ensures Shut(q'.h, q'.st.newHeld[i]) {
      NewHeldInLoad(q, i);
      NewHeldNotHeld(q, i);
      SameNumberApart(q, q.st.newHeld[i].entry, e);
      ReleasedShut(q, q', n, gate, q.st.newHeld[i]);
    }
    ReleasedAllowed(q, q', n, gate);
    ReleasedFollows(q, q', n, gate);
  }

  lemma ReleasedShut(q: Queue, q': Queue, n: nat, gate: Gate, item: Held)
    requires n in q.held && Released(q, q', n, gate) && Shut(q.h, item)
    requires item.entry.end != q.held[n].entry.end && item.entry.end < q.h.ids.issued
    ensures Shut(q'.h, item)
  {}

  lemma SameNumberApart(q: Queue, e: Entry, f: Entry)
    requires Inv(q) && e in Load(q) && f in Load(q)
    ensures e.end < q.h.ids.issued
    ensures e.seqNo != f.seqNo ==> e.end != f.end
  {
    hide Shape, Conserved, Numbers;
    Located(q, e);
    Located(q, f);
  }

  lemma AllowedGrows(h: History, h': History, e: EndId, gate: Gate, issued: nat, d: EndId)
    requires Allowed(h, d) && h'.ids.direct == h.ids.direct && e !in h.gate && issued !in h.gate
    requires h'.gate == h.gate[e := gate] || h'.gate == h.gate[e := gate][issued := gate]
    ensures Allowed(h', d)
  {}

  lemma ReleasedAllowed(q: Queue, q': Queue, n: nat, gate: Gate)
    requires Gates(q) && n in q.held && Released(q, q', n, gate)
    ensures forall i | 0 <= i < |q'.st.fifo| :: Allowed(q'.h, q'.st.fifo[i].end)
    ensures forall d | d in q'.h.attempted :: Allowed(q'.h, d)
  {
    hide Allowed;
    var e := q.held[n].entry;
    forall d | d in q.h.attempted ensures Allowed(q'.h, d) {
      AllowedGrows(q.h, q'.h, e.end, gate, q.h.ids.issued, d);
    }
    forall i | 0 <= i < |q'.st.fifo| ensures Allowed(q'.h, q'.st.fifo[i].end) {
      if i < |q.st.fifo| {
        assert q'.st.fifo[i] == q.st.fifo[i];
        AllowedGrows(q.h, q'.h, e.end, gate, q.h.ids.issued, q.st.fifo[i].end);
      } else {
        NowAllowed(q'.h, q'.st.fifo[i].end);
      }
    }
  }

  lemma NowAllowed(h: History, d: EndId)
    requires d in h.gate && h.gate[d].Stored?
    ensures Allowed(h, d)
  {}

  lemma ReleasedFollows(q: Queue, q': Queue, n: nat, gate: Gate)
    requires Gates(q) && Issued(q.h.ids, q.h.prior.Keys) && n in q.held && Released(q, q', n, gate)
    requires q.held[n].entry.end < q.h.ids.issued
    ensures forall d | d in q'.h.gate :: d < q'.h.ids.issued && d !in q'.h.ids.direct
    ensures forall d | d in q'.h.follow :: d < q'.h.ids.issued && q'.h.follow[d] in Prior(q'.h, d)
  {
    hide Allowed, OnlyMarkers;
  }

  lemma ReleasedDrains(q: Queue, q': Queue, n: nat, gate: Gate)
    requires Numbers(q) && Drains(q) && q.pc.Parked? && n in q.held && Released(q, q', n, gate)
    ensures Drains(q')
  {
    ReleasedWrites(q, q', n, gate);
    hide StillWaiting, Numbers, ReleasedBehind;
    forall id | id in q'.drains ensures DrainOk(q', q'.drains[id]) {
      WaitingGrows(q, q', q.drains[id].upto);
    }
  }

  // ===== completions and unqueued ends =====

  lemma RecordedTable(q: Queue, q': Queue, d: EndId, result: WriteResult)
    requires Table(q.st.ended, q.h) && d !in q.h.results && d in q.h.ids.write
    requires q'.h == q.h.(results := q.h.results[d := result])
    requires q'.st.ended == Keep(q.st.ended, q.h.ids.write[d], result)
    ensures Table(q'.st.ended, q'.h)
  {
    TableRecords(q.st.ended, q.h, q'.h, d, result);
  }

  lemma SameTable(q: Queue, q': Queue)
    requires Table(q.st.ended, q.h) && q'.st.ended == q.st.ended
    requires q'.h.ids == q.h.ids && q'.h.results == q.h.results
    ensures Table(q'.st.ended, q'.h)
  {
    forall key | key in q.st.ended ensures exists c :: Witness(q'.h, key, q.st.ended[key], c) {
      var c :| Witness(q.h, key, q.st.ended[key], c);
      assert Witness(q'.h, key, q.st.ended[key], c);
    }
  }

  lemma SameGates(q: Queue, q': Queue)
    requires Gates(q) && q'.st.newHeld == q.st.newHeld && q'.held == q.held && q'.st.fifo == q.st.fifo
    requires q'.h.ids == q.h.ids && q'.h.gate == q.h.gate && q'.h.attempted == q.h.attempted
    requires q'.h.follow == q.h.follow && q'.h.prior == q.h.prior
    ensures Gates(q')
  {}

  lemma EndingTables(q: Queue, q': Queue, step: Step)
    requires Inv(q) && Outcomes(q) && Tables(q) && Ending(step) && InStage(q, step) && Completed(q, q', step)
    ensures Tables(q')
  {
    hide Conserved, OutcomeOf, Numbers, Table, Gates, Keep, Drains;
    SameGates(q, q');
    SameStarted(q, q');
    EndingDrains(q, q', step);
    if step.RecordEnd? {
      CompletionOfQueued(q);
      assert OutcomeOf(q, q.pc.entry.end);
      StillOpen(q, q.pc.entry.end);
      RecordedTable(q, q', q.pc.entry.end, q.pc.result);
    } else {
      SameTable(q, q');
    }
  }

  lemma EndingDrains(q: Queue, q': Queue, step: Step)
    requires Drains(q) && Ending(step) && InStage(q, step) && Completed(q, q', step)
    ensures Drains(q')
  {
    hide StillWaiting, Keep;
    forall id | id in q'.drains ensures DrainOk(q', q'.drains[id]) {
      assert DrainOk(q, q.drains[id]);
      if !step.RecordEnd? {
        WaitingGrows(q, q', q.drains[id].upto);
      }
    }
  }

  lemma UnqueuedTables(q: Queue, q': Queue, step: Step)
    requires Inv(q) && Outcomes(q) && Tables(q)
    requires UnqueuedKind(step) && step.end in q.calls && !q.calls[step.end].Notifying? && EndedUnqueued(q, q', step)
    ensures Tables(q')
  {
    hide Conserved, Shape, OutcomeOf, OneToOne, PendingKnown, Table, Gates, Keep, Drains;
    SameGates(q, q');
    SameStarted(q, q');
    UnqueuedDrains(q, q', step);
    assert step.end < q.h.ids.issued && step.end in q.h.ids.write;
    assert OutcomeOf(q, step.end);
    if step.RecordUnqueued? {
      assert q.h.ids.write[step.end] == q.calls[step.end].write;
      StillOpen(q, step.end);
      RecordedTable(q, q', step.end, Err(q.calls[step.end].removal));
    } else {
      SameTable(q, q');
    }
    hide Numbers;
    if exists d :: d in q.calls && q.calls[d].Notifying? {
      var d :| d in q.calls && q.calls[d].Notifying?;
      assert d in q'.calls && q'.calls[d].Notifying?;
    }
  }

  lemma UnqueuedDrains(q: Queue, q': Queue, step: Step)
    requires Drains(q)
    requires UnqueuedKind(step) && step.end in q.calls && !q.calls[step.end].Notifying? && EndedUnqueued(q, q', step)
    ensures Drains(q')
  {
    hide StillWaiting, Keep;
    forall id | id in q'.drains ensures DrainOk(q', q'.drains[id]) {
      assert DrainOk(q, q.drains[id]);
      WaitingGrows(q, q', q.drains[id].upto);
    }
  }

  // ===== the task =====

  /** Held items are taken over, the line loses its head or everything. */
  lemma SubGates(q: Queue, q': Queue)
    requires Gates(q) && q'.h == q.h.(attempted := q'.h.attempted)
    requires HeldGated(q'.held, q.h)
    requires q'.st.newHeld == q.st.newHeld || q'.st.newHeld == []
    requires q'.st.fifo == q.st.fifo || q'.st.fifo == [] || (q.st.fifo != [] && q'.st.fifo == q.st.fifo[1..])
    requires q'.h.attempted == q.h.attempted
        || (q.st.fifo != [] && q'.h.attempted == q.h.attempted + [q.st.fifo[0].end])
    ensures Gates(q')
  {}

  /** The task takes held items over, the line loses its head or everything; nothing new comes. */
  ghost predicate Fewer(q: Queue, q': Queue) {
    && (forall n | n in q'.held :: (n in q.held && q'.held[n] == q.held[n]) || q'.held[n] in q.st.newHeld)
    && (q'.st.newHeld == q.st.newHeld || q'.st.newHeld == [])
    && (q'.st.fifo == q.st.fifo || q'.st.fifo == [] || (q.st.fifo != [] && q'.st.fifo == q.st.fifo[1..]))
    && q'.h == q.h.(attempted := q'.h.attempted)
    && (q'.h.attempted == q.h.attempted || (q.st.fifo != [] && q'.h.attempted == q.h.attempted + [q.st.fifo[0].end]))
  }

  lemma TaskFewer(q: Queue, q': Queue, step: Step)
    requires TaskKind(step) && TaskMoved(q, q', step)
    ensures Fewer(q, q')
  {
    hide Absorb, DoTakeHead;
    if step.TakeNewHeld? {
      forall n | n in q'.held ensures (n in q.held && q'.held[n] == q.held[n]) || q'.held[n] in q.st.newHeld {
        AbsorbedItem(q.held, q.st.newHeld, n);
      }
    } else if step.TakeHead? {
      HeadEffect(q);
    }
  }

  lemma TaskGates(q: Queue, q': Queue, step: Step)
    requires Gates(q) && TaskKind(step) && TaskMoved(q, q', step)
    ensures Gates(q')
  {
    hide TaskMoved, Shut, Allowed;
    TaskFewer(q, q', step);
    assert HeldGated(q'.held, q.h);
    SubGates(q, q');
  }

  ghost predicate HeldGated(held: map<nat, Held>, h: History) {
    forall n | n in held :: Shut(h, held[n])
  }

  lemma {:induction false} AbsorbedItem(held: map<nat, Held>, items: seq<Held>, n: nat)
    requires n in Absorb(held, items)
    ensures (n in held && Absorb(held, items)[n] == held[n])
            || exists i :: 0 <= i < |items| && Absorb(held, items)[n] == items[i]
    decreases |items|
  {
    if items != [] {
      AbsorbedItem(held[items[0].entry.seqNo := items[0]], items[1..], n);
      if exists i :: 0 <= i < |items[1..]| && Absorb(held, items)[n] == items[1..][i] {
        var i :| 0 <= i < |items[1..]| && Absorb(held, items)[n] == items[1..][i];
        assert items[i + 1] == items[1..][i];
      }
    }
  }

  lemma QuietDrains(q: Queue, q': Queue, step: Step)
    requires Inv(q) && Outcomes(q) && Drains(q) && Quiet(step) && QuietKept(q, q', step)
    requires !DrainKind(step)
    requires q'.pc == q.pc || !q.pc.Completing?
    ensures Drains(q')
  {
    hide StillWaiting, Inv, Outcomes;
    forall id | id in q'.drains ensures DrainOk(q', q'.drains[id]) {
      assert DrainOk(q, q.drains[id]);
      WaitingGrows(q, q', q.drains[id].upto);
    }
  }

  /** An end whose hand-over returned has ended or stands under a number. */
  lemma ReturnedKnown(q: Queue, d: EndId)
    requires Numbers(q) && Outcomes(q) && d in q.h.ids.write && d !in q.calls
    ensures d in q.h.results || d in q.h.ids.seqOf
  {
    assert OutcomeOf(q, d);
  }

  /** What was numbered before the mark and is no longer pending has ended. */
  lemma NotPendingEnded(q: Queue, upto: nat, d: EndId)
    requires Numbers(q) && Outcomes(q) && !StillWaiting(q, upto) && d in q.h.ids.seqOf && q.h.ids.seqOf[d] < upto
    ensures d in q.h.results
  {
    assert OutcomeOf(q, d);
  }

  lemma DrainStep(q: Queue, step: Step)
    requires Numbers(q) && Outcomes(q) && Drains(q) && DrainKind(step) && Enabled(q, step)
    ensures Drains(DoDrain(q, step))
  {
    var q' := DoDrain(q, step);
    forall id | id in q'.drains ensures DrainOk(q', q'.drains[id]) {
      if id != step.id {
        assert DrainOk(q, q.drains[id]);
        SameDrainOk(q, q', q.drains[id]);
      } else {
        OwnDrainStep(q, q', step);
      }
    }
  }

  lemma SameDrainOk(q: Queue, q': Queue, drain: Drain)
    requires DrainOk(q, drain) && q' == q.(drains := q'.drains)
    ensures DrainOk(q', drain)
  {
    assert StillWaiting(q', drain.upto) == StillWaiting(q, drain.upto);
  }

  lemma OwnDrainStep(q: Queue, q': Queue, step: Step)
    requires Numbers(q) && Outcomes(q) && Drains(q) && DrainKind(step) && Enabled(q, step) && q' == DoDrain(q, step)
    ensures DrainOk(q', q'.drains[step.id])
  {
    hide Outcomes, PendingKnown, CallsKnown;
    var drain := q'.drains[step.id];
    assert StillWaiting(q', drain.upto) == StillWaiting(q, drain.upto);
    match step
    case DrainSubscribe(_) =>
      forall d | d in drain.before ensures d in q.h.results || d in q.h.ids.seqOf {
        ReturnedKnown(q, d);
      }
    case DrainLook(id) =>
      if !StillWaiting(q, drain.upto) {
        forall d | d in drain.before ensures d in q.h.results {
          if d !in q.h.results {
            NotPendingEnded(q, drain.upto, d);
          }
        }
      }
    case _ =>
  }

  lemma TaskWoken(q: Queue, q': Queue, step: Step)
    requires Woken(q) && TaskKind(step) && TaskMoved(q, q', step) && Shape(q)
    ensures Woken(q')
  {
    hide Absorb, Blocked, Signalled, Keyed;
    if step.TakeHead? || step.AttemptFails? {
      SameSignal(q, q', step);
    }
  }

  lemma SameSignal(q: Queue, q': Queue, step: Step)
    requires TaskKind(step) && TaskMoved(q, q', step) && (step.TakeHead? || step.AttemptFails?)
    ensures Signalled(q') == Signalled(q)
  {
    hide Blocked;
  }

  lemma QuietTables(q: Queue, step: Step)
    requires Inv(q) && Outcomes(q) && Tables(q) && Enabled(q, step) && Quiet(step)
    ensures Tables(Apply(q, step))
  {
    hide Apply, Enabled, Table, StartedFirst, Gates, Drains, Woken, Numbers, Conserved, Outcomes, Keyed;
    var q' := Apply(q, step);
    QuietEffect(q, step);
    SameTable(q, q');
    assert StartedFirst(q'.h) by { SameStarted(q, q'); }
    if TaskKind(step) {
      TaskEffect(q, step);
      TaskGates(q, q', step);
      TaskWoken(q, q', step);
      NotCompleting(q, q', step);
      QuietDrains(q, q', step);
    } else if DrainKind(step) {
      DrainEffect(q, step);
      DrainStep(q, step);
      OtherGates(q, q', step);
      OtherWoken(q, step);
    } else {
      QuietDrains(q, q', step);
      OtherGates(q, q', step);
      OtherWoken(q, step);
    }
  }

  lemma SameStarted(q: Queue, q': Queue)
    requires StartedFirst(q.h) && q'.h.ids == q.h.ids && q'.h.prior == q.h.prior
    ensures StartedFirst(q'.h)
  {
    assert forall d :: Prior(q'.h, d) == Prior(q.h, d);
  }

  lemma DrainEffect(q: Queue, step: Step)
    requires Enabled(q, step) && DrainKind(step)
    ensures Apply(q, step) == DoDrain(q, step)
  {
    hide StillWaiting;
  }

  lemma OtherGates(q: Queue, q': Queue, step: Step)
    requires Gates(q) && Enabled(q, step) && Quiet(step) && !TaskKind(step) && q' == Apply(q, step)
    ensures Gates(q')
  {
    hide Gates, Enabled, StillWaiting;
    assert q'.h == q.h;
    hide Apply;
    QuietEffect(q, step);
    SameGates(q, q');
  }

  lemma OtherWoken(q: Queue, step: Step)
    requires Woken(q) && Enabled(q, step) && Quiet(step) && !TaskKind(step)
    ensures Woken(Apply(q, step))
  {
    hide StillWaiting;
    var q' := Apply(q, step);
    if Signalled(q) && !step.Notify? {
      if !q.permit {
        var d :| d in q.calls && q.calls[d].Notifying?;
        assert d in q'.calls && q'.calls[d].Notifying?;
      }
      assert Signalled(q');
    }
  }

  lemma TablesStep(q: Queue, step: Step)
    requires Inv(q) && Outcomes(q) && Tables(q) && Enabled(q, step)
    ensures Tables(Apply(q, step))
  {
    hide Tables, Apply, Inv, Outcomes;
    var q' := Apply(q, step);
    if step.HandOver? || step.HoldBack? {
      HandOverEffect(q, step);
      HandOverTables(q, q', step);
    } else if step.GateEnds? {
      GateEndsEffect(q, step.seqNo, step.gate);
      GateEndsTables(q, q', step.seqNo, step.gate);
    } else if Quiet(step) {
      QuietTables(q, step);
    } else if Ending(step) {
      EndingEffect(q, step);
      EndingTables(q, q', step);
    } else {
      UnqueuedEffect(q, step);
      UnqueuedTables(q, q', step);
    }
  }
}
