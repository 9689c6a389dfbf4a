/**
 Order: a write is attempted only after every write that it must not overtake has
 ended: the ones handed over by `enqueue` before its own hand-over began, and, for
 a held write, its follow-up.
 */
module QueueOrder {
  import opened Wrappers
  import opened Writes
  import opened QueueState
  import opened QueueMachine
  import opened QueueEffects
  import opened QueueConservation
  import opened QueueOutcomes

  /** The write stands in the line before position `i`. */
  ghost predicate InLine(fifo: seq<Entry>, i: int, d: EndId) {
    exists j :: 0 <= j < i && j < |fifo| && fifo[j].end == d
  }

  /** The write has ended, or the task has it in hand. */
  ghost predicate Settled(q: Queue, d: EndId) {
    d in q.h.results || (q.entry.Some? && q.entry.value.end == d) || InCompletion(q.pc, d)
  }

  ghost predicate Ahead(q: Queue, i: int, d: EndId) {
    Settled(q, d) || InLine(q.st.fifo, i, d)
  }

  ghost predicate AllAhead(q: Queue, i: int, ds: set<EndId>) {
    forall d | d in ds :: Ahead(q, i, d)
  }

  ghost predicate LineOrdered(q: Queue) {
    forall i | 0 <= i < |q.st.fifo| :: AllAhead(q, i, Prior(q.h, q.st.fifo[i].end))
  }

  ghost predicate HeldOrdered(q: Queue) {
    && (forall n | n in q.held :: AllAhead(q, |q.st.fifo|, Prior(q.h, q.held[n].entry.end)))
    && (forall i | 0 <= i < |q.st.newHeld| :: AllAhead(q, |q.st.fifo|, Prior(q.h, q.st.newHeld[i].entry.end)))
  }

  ghost predicate DirectOrdered(q: Queue) {
    forall d | d in q.h.ids.direct :: StillLeaving(q.calls, d) || Ahead(q, |q.st.fifo|, d)
  }

  ghost predicate Order(q: Queue) {
    !Gone(q.pc) ==> LineOrdered(q) && HeldOrdered(q) && DirectOrdered(q)
  }

  // ----- the line grows at its end and shrinks at its front

  lemma AheadGrows(q: Queue, q': Queue, i: int, i': int, d: EndId)
    requires Ahead(q, i, d) && i <= i'
    requires q.st.fifo <= q'.st.fifo
    requires Settled(q, d) ==> Settled(q', d)
    ensures Ahead(q', i', d)
  {
    if !Settled(q, d) {
      var j :| 0 <= j < i && j < |q.st.fifo| && q.st.fifo[j].end == d;
      assert q'.st.fifo[j].end == d;
    }
  }

  lemma AheadPops(q: Queue, q': Queue, i: int, d: EndId)
    requires Ahead(q, i + 1, d) && q.st.fifo != [] && q'.st.fifo == q.st.fifo[1..]
    requires Settled(q, d) ==> Settled(q', d)
    requires Settled(q', q.st.fifo[0].end)
    ensures Ahead(q', i, d)
  {
    if !Settled(q, d) {
      var j :| 0 <= j < i + 1 && j < |q.st.fifo| && q.st.fifo[j].end == d;
      if j > 0 {
        assert q'.st.fifo[j - 1].end == d;
      }
    }
  }

  ghost predicate SettledGrows(q: Queue, q': Queue) {
    forall d | Settled(q, d) :: Settled(q', d)
  }

  lemma AllAheadGrows(q: Queue, q': Queue, i: int, i': int, ds: set<EndId>)
    requires AllAhead(q, i, ds) && i <= i' && q.st.fifo <= q'.st.fifo && SettledGrows(q, q')
    ensures AllAhead(q', i', ds)
  {
    forall d | d in ds ensures Ahead(q', i', d) {
      AheadGrows(q, q', i, i', d);
    }
  }

  /** Steps that leave the line and the numbering alone. */
  lemma SameLineKeeps(q: Queue, q': Queue)
    requires Order(q) && (Gone(q.pc) ==> Gone(q'.pc))
    requires q'.st.fifo == q.st.fifo && q'.st.newHeld == q.st.newHeld && q'.held == q.held
    requires q'.h.prior == q.h.prior && q'.h.ids.direct == q.h.ids.direct
    requires !Gone(q'.pc) ==> SettledGrows(q, q')
    requires forall d | d in q.h.ids.direct && StillLeaving(q.calls, d) :: StillLeaving(q'.calls, d) || Settled(q', d)
    ensures Order(q')
  {
    hide Ahead, Gone, Settled;
    if !Gone(q'.pc) {
      forall i | 0 <= i < |q'.st.fifo| ensures AllAhead(q', i, Prior(q'.h, q'.st.fifo[i].end)) {
        AllAheadGrows(q, q', i, i, Prior(q.h, q.st.fifo[i].end));
      }
      SameHeldKeeps(q, q');
      forall d | d in q'.h.ids.direct ensures StillLeaving(q'.calls, d) || Ahead(q', |q'.st.fifo|, d) {
        if Ahead(q, |q.st.fifo|, d) {
          AheadGrows(q, q', |q.st.fifo|, |q.st.fifo|, d);
        } else {
          SettledIsAhead(q', |q'.st.fifo|, d);
        }
      }
    }
  }

  lemma SettledIsAhead(q: Queue, i: int, d: EndId)
    ensures Settled(q, d) ==> Ahead(q, i, d)
  {}

  lemma SameHeldKeeps(q: Queue, q': Queue)
    requires HeldOrdered(q) && q.st.fifo <= q'.st.fifo && SettledGrows(q, q')
    requires q'.st.newHeld == q.st.newHeld && q'.held == q.held && q'.h.prior == q.h.prior
    ensures HeldOrdered(q')
  {
    hide AllAhead, SettledGrows;
    forall n | n in q'.held ensures AllAhead(q', |q'.st.fifo|, Prior(q'.h, q'.held[n].entry.end)) {
      AllAheadGrows(q, q', |q.st.fifo|, |q'.st.fifo|, Prior(q.h, q.held[n].entry.end));
    }
    forall i | 0 <= i < |q'.st.newHeld| ensures AllAhead(q', |q'.st.fifo|, Prior(q'.h, q'.st.newHeld[i].entry.end)) {
      AllAheadGrows(q, q', |q.st.fifo|, |q'.st.fifo|, Prior(q.h, q.st.newHeld[i].entry.end));
    }
  }

  // ----- hand-overs

  lemma HandOverOrder(q: Queue, q': Queue, step: Step)
    requires Inv(q) && Order(q) && (step.HandOver? || step.HoldBack?) && HandedOver(q, q', step)
    ensures Order(q')
  {
    hide Numbers, Conserved, Shape, Blocked;
    if !Gone(q'.pc) {
      assert SettledGrows(q, q');
      ReturnedAhead(q);
      HandOverLine(q, q', step);
      HandOverHeld(q, q', step);
      HandOverDirect(q, q', step);
    }
  }

  lemma ReturnedAhead(q: Queue)
    requires DirectOrdered(q)
    ensures AllAhead(q, |q.st.fifo|, Returned(q))
  {
    hide Ahead;
  }

  /** No entry of the queue carries an end that was not given out. */
  lemma PriorKept(q: Queue, q': Queue, step: Step, e: Entry)
    requires Inv(q) && (step.HandOver? || step.HoldBack?) && HandedOver(q, q', step) && e in Load(q)
    ensures Prior(q'.h, e.end) == Prior(q.h, e.end)
  {
    hide Conserved, Shape, Numbers, Blocked, SameTask;
    Located(q, e);
  }

  lemma HandOverLine(q: Queue, q': Queue, step: Step)
    requires Inv(q) && LineOrdered(q) && (step.HandOver? || step.HoldBack?) && HandedOver(q, q', step)
    requires SettledGrows(q, q') && AllAhead(q, |q.st.fifo|, Returned(q))
    ensures LineOrdered(q')
  {
    hide Inv, AllAhead, Blocked, SettledGrows, Returned, SameTask;
    forall i | 0 <= i < |q'.st.fifo| ensures AllAhead(q', i, Prior(q'.h, q'.st.fifo[i].end)) {
      if i < |q.st.fifo| {
        FifoInLoad(q, i);
        PriorKept(q, q', step, q.st.fifo[i]);
        assert q'.st.fifo[i] == q.st.fifo[i];
        AllAheadGrows(q, q', i, i, Prior(q.h, q.st.fifo[i].end));
      } else {
        AllAheadGrows(q, q', i, i, Returned(q));
      }
    }
  }

  lemma HandOverHeld(q: Queue, q': Queue, step: Step)
    requires Inv(q) && HeldOrdered(q) && (step.HandOver? || step.HoldBack?) && HandedOver(q, q', step)
    requires SettledGrows(q, q') && AllAhead(q, |q.st.fifo|, Returned(q))
    ensures HeldOrdered(q')
  {
    hide Inv, AllAhead, Blocked, SettledGrows, Returned;
    forall n | n in q'.held ensures AllAhead(q', |q'.st.fifo|, Prior(q'.h, q'.held[n].entry.end)) {
      HeldInLoad(q, n);
      PriorKept(q, q', step, q.held[n].entry);
      AllAheadGrows(q, q', |q.st.fifo|, |q'.st.fifo|, Prior(q.h, q.held[n].entry.end));
    }
    forall i | 0 <= i < |q'.st.newHeld| ensures AllAhead(q', |q'.st.fifo|, Prior(q'.h, q'.st.newHeld[i].entry.end)) {
      if i < |q.st.newHeld| {
        NewHeldInLoad(q, i);
        PriorKept(q, q', step, q.st.newHeld[i].entry);
        assert q'.st.newHeld[i] == q.st.newHeld[i];
        AllAheadGrows(q, q', |q.st.fifo|, |q'.st.fifo|, Prior(q.h, q.st.newHeld[i].entry.end));
      } else {
        AllAheadGrows(q, q', |q.st.fifo|, |q'.st.fifo|, Returned(q));
      }
    }
  }

  lemma HandOverDirect(q: Queue, q': Queue, step: Step)
    requires Inv(q) && DirectOrdered(q) && (step.HandOver? || step.HoldBack?) && HandedOver(q, q', step)
    requires SettledGrows(q, q')
    ensures DirectOrdered(q')
  {
    hide Conserved, Shape, Blocked, Ahead, SettledGrows;
    forall d | d in q'.h.ids.direct ensures StillLeaving(q'.calls, d) || Ahead(q', |q'.st.fifo|, d) {
      if d == q.h.ids.issued {
        if !StillLeaving(q'.calls, d) {
          assert q'.st.fifo[|q.st.fifo|].end == d;
          InLineIsAhead(q', |q.st.fifo|);
        }
      } else if Ahead(q, |q.st.fifo|, d) {
        SettledGrowsAt(q, q', d);
        AheadGrows(q, q', |q.st.fifo|, |q'.st.fifo|, d);
      }
    }
  }

  lemma SettledGrowsAt(q: Queue, q': Queue, d: EndId)
    requires SettledGrows(q, q')
    ensures Settled(q, d) ==> Settled(q', d)
  {}

  lemma InLineIsAhead(q: Queue, j: nat)
    requires j < |q.st.fifo|
    ensures forall i | j < i :: Ahead(q, i, q.st.fifo[j].end)
  {}

  // ----- gates

  lemma GateEndsOrder(q: Queue, q': Queue, n: nat, gate: Gate)
    requires Inv(q) && Order(q) && q.pc.Parked? && n in q.held && Released(q, q', n, gate)
    ensures Order(q')
  {
    hide Numbers, Conserved, AllAhead, ReleasedBehind;
    assert SettledGrows(q, q');
    ReleasedPriors(q, q', n, gate);
    if q'.st.fifo == q.st.fifo {
      forall i | 0 <= i < |q'.st.fifo| ensures AllAhead(q', i, Prior(q'.h, q'.st.fifo[i].end)) {
        AllAheadGrows(q, q', i, i, Prior(q.h, q.st.fifo[i].end));
      }
    } else {
      ReleasedLine(q, q', n, gate);
    }
    ReleasedHeld(q, q', n, gate);
    ReleasedDirect(q, q', n, gate);
  }

  lemma ReleasedGrows(q: Queue, q': Queue, n: nat, gate: Gate)
    requires n in q.held && Released(q, q', n, gate)
    ensures q.st.fifo <= q'.st.fifo && q'.h.ids.direct == q.h.ids.direct
  {}

  lemma ReleasedPrior(q: Queue, q': Queue, n: nat, gate: Gate, d: EndId)
    requires n in q.held && Released(q, q', n, gate) && d != q.held[n].entry.end && d != q.h.ids.issued
    ensures Prior(q'.h, d) == Prior(q.h, d)
  {}

  /** Only the released entry must now wait for one more write: its follow-up. */
  lemma ReleasedPriors(q: Queue, q': Queue, n: nat, gate: Gate)
    requires Inv(q) && n in q.held && Released(q, q', n, gate)
    ensures forall i | 0 <= i < |q.st.fifo| :: Prior(q'.h, q.st.fifo[i].end) == Prior(q.h, q.st.fifo[i].end)
    ensures forall m | m in q.held && m != n :: Prior(q'.h, q.held[m].entry.end) == Prior(q.h, q.held[m].entry.end)
    ensures forall i | 0 <= i < |q.st.newHeld| ::
        Prior(q'.h, q.st.newHeld[i].entry.end) == Prior(q.h, q.st.newHeld[i].entry.end)
  {
    hide Conserved, Numbers, Released, Prior, LoadOf;
    var e := q.held[n].entry;
    HeldInLoad(q, n);
    forall i | 0 <= i < |q.st.fifo| ensures Prior(q'.h, q.st.fifo[i].end) == Prior(q.h, q.st.fifo[i].end) {
      FifoInLoad(q, i);
      OtherPlace(q, q.st.fifo[i], e);
      FifoNotHeld(q, i, n);
      ReleasedPrior(q, q', n, gate, q.st.fifo[i].end);
    }
    forall m | m in q.held && m != n ensures Prior(q'.h, q.held[m].entry.end) == Prior(q.h, q.held[m].entry.end) {
      HeldInLoad(q, m);
      OtherPlace(q, q.held[m].entry, e);
      ReleasedPrior(q, q', n, gate, q.held[m].entry.end);
    }
    forall i | 0 <= i < |q.st.newHeld|
        ensures Prior(q'.h, q.st.newHeld[i].entry.end) == Prior(q.h, q.st.newHeld[i].entry.end) {
      NewHeldInLoad(q, i);
      OtherPlace(q, q.st.newHeld[i].entry, e);
      NewHeldNotHeld(q, i);
      ReleasedPrior(q, q', n, gate, q.st.newHeld[i].entry.end);
    }
  }

  lemma OtherPlace(q: Queue, e: Entry, f: Entry)
    requires Inv(q) && e in Load(q) && f in Load(q)
    ensures e.end < q.h.ids.issued
    ensures e.seqNo != f.seqNo ==> e.end != f.end
  {
    hide Shape, Conserved, Numbers;
    Located(q, e);
    Located(q, f);
  }

  lemma FifoNotHeld(q: Queue, i: nat, n: nat)
    requires Inv(q) && i < |q.st.fifo| && n in q.held
    ensures q.st.fifo[i].seqNo != q.held[n].entry.seqNo
  {
    var e := q.st.fifo[i];
    if e.seqNo == q.held[n].entry.seqNo {
      FifoInLoad(q, i);
      HeldInLoad(q, n);
      SameNumber(q, e, q.held[n].entry);
      Located(q, e);
      assert false;
    }
  }

  lemma ReleasedLine(q: Queue, q': Queue, n: nat, gate: Gate)
    requires Inv(q) && LineOrdered(q) && HeldOrdered(q) && n in q.held && Released(q, q', n, gate)
    requires q'.st.fifo != q.st.fifo && SettledGrows(q, q')
    requires forall i | 0 <= i < |q.st.fifo| :: Prior(q'.h, q.st.fifo[i].end) == Prior(q.h, q.st.fifo[i].end)
    ensures LineOrdered(q')
  {
    hide Inv, AllAhead, SettledGrows;
    var e := q.held[n].entry;
    var k := |q.st.fifo|;
    assert AllAhead(q, k, Prior(q.h, e.end));
    ReleasedGrows(q, q', n, gate);
    forall i | 0 <= i < |q'.st.fifo| ensures AllAhead(q', i, Prior(q'.h, q'.st.fifo[i].end)) {
      if i < k {
        assert q'.st.fifo[i] == q.st.fifo[i];
        AllAheadGrows(q, q', i, i, Prior(q.h, q.st.fifo[i].end));
      } else {
        AllAheadGrows(q, q', k, i, Prior(q.h, e.end));
        if i == k + 1 {
          assert q'.st.fifo[k].end == q.h.ids.issued;
          InLineIsAhead(q', k);
          AllAheadAdd(q', i, Prior(q.h, e.end), q.h.ids.issued);
        } else if q.held[n].follow.Some? {
          FollowPrior(q, q', n, gate);
        }
      }
    }
  }

  lemma FollowPrior(q: Queue, q': Queue, n: nat, gate: Gate)
    requires Inv(q) && n in q.held && Released(q, q', n, gate) && q'.h.ids.issued > q.h.ids.issued
    ensures Prior(q'.h, q.h.ids.issued) == Prior(q.h, q.held[n].entry.end)
  {
    hide Conserved, Numbers, Shape;
    HeldInLoad(q, n);
    Located(q, q.held[n].entry);
  }

  lemma AllAheadAdd(q: Queue, i: int, ds: set<EndId>, d: EndId)
    requires AllAhead(q, i, ds) && Ahead(q, i, d)
    ensures AllAhead(q, i, ds + {d})
  {}

  lemma ReleasedHeld(q: Queue, q': Queue, n: nat, gate: Gate)
    requires Keyed(q.held) && HeldOrdered(q) && n in q.held && Released(q, q', n, gate) && SettledGrows(q, q')
    requires forall m | m in q.held && m != n :: Prior(q'.h, q.held[m].entry.end) == Prior(q.h, q.held[m].entry.end)
    requires forall i | 0 <= i < |q.st.newHeld| ::
        Prior(q'.h, q.st.newHeld[i].entry.end) == Prior(q.h, q.st.newHeld[i].entry.end)
    ensures HeldOrdered(q')
  {
    hide AllAhead, SettledGrows, ReleasedBehind, Prior;
    ReleasedGrows(q, q', n, gate);
    forall m | m in q'.held ensures AllAhead(q', |q'.st.fifo|, Prior(q'.h, q'.held[m].entry.end)) {
      AllAheadGrows(q, q', |q.st.fifo|, |q'.st.fifo|, Prior(q.h, q.held[m].entry.end));
    }
    forall i | 0 <= i < |q'.st.newHeld| ensures AllAhead(q', |q'.st.fifo|, Prior(q'.h, q'.st.newHeld[i].entry.end)) {
      AllAheadGrows(q, q', |q.st.fifo|, |q'.st.fifo|, Prior(q.h, q.st.newHeld[i].entry.end));
    }
  }

  lemma ReleasedDirect(q: Queue, q': Queue, n: nat, gate: Gate)
    requires DirectOrdered(q) && n in q.held && Released(q, q', n, gate) && SettledGrows(q, q')
    ensures DirectOrdered(q')
  {
    hide Ahead, ReleasedBehind, SettledGrows;
    ReleasedGrows(q, q', n, gate);
    forall d | d in q'.h.ids.direct ensures StillLeaving(q'.calls, d) || Ahead(q', |q'.st.fifo|, d) {
      if Ahead(q, |q.st.fifo|, d) {
        SettledGrowsAt(q, q', d);
        AheadGrows(q, q', |q.st.fifo|, |q'.st.fifo|, d);
      }
    }
  }

  // ----- the task

  lemma AllAheadPops(q: Queue, q': Queue, i: int, ds: set<EndId>)
    requires AllAhead(q, i + 1, ds) && q.st.fifo != [] && q'.st.fifo == q.st.fifo[1..]
    requires SettledGrows(q, q') && Settled(q', q.st.fifo[0].end)
    ensures AllAhead(q', i, ds)
  {
    forall d | d in ds ensures Ahead(q', i, d) {
      AheadPops(q, q', i, d);
    }
  }

  lemma PoppedOrder(q: Queue, q': Queue)
    requires LineOrdered(q) && HeldOrdered(q) && DirectOrdered(q)
    requires q.st.fifo != [] && q'.st.fifo == q.st.fifo[1..] && q'.st.newHeld == q.st.newHeld && q'.held == q.held
    requires q'.h.prior == q.h.prior && q'.h.ids == q.h.ids && q'.calls == q.calls
    requires SettledGrows(q, q') && Settled(q', q.st.fifo[0].end)
    ensures LineOrdered(q') && HeldOrdered(q') && DirectOrdered(q')
  {
    hide Ahead, AllAhead, SettledGrows, Settled;
    var k := |q'.st.fifo|;
    forall i | 0 <= i < k ensures AllAhead(q', i, Prior(q'.h, q'.st.fifo[i].end)) {
      assert q'.st.fifo[i] == q.st.fifo[i + 1];
      AllAheadPops(q, q', i, Prior(q.h, q.st.fifo[i + 1].end));
    }
    forall n | n in q'.held ensures AllAhead(q', k, Prior(q'.h, q'.held[n].entry.end)) {
      AllAheadPops(q, q', k, Prior(q.h, q.held[n].entry.end));
    }
    forall i | 0 <= i < |q'.st.newHeld| ensures AllAhead(q', k, Prior(q'.h, q'.st.newHeld[i].entry.end)) {
      AllAheadPops(q, q', k, Prior(q.h, q.st.newHeld[i].entry.end));
    }
    forall d | d in q'.h.ids.direct ensures StillLeaving(q'.calls, d) || Ahead(q', k, d) {
      if Ahead(q, k + 1, d) {
        SettledGrowsAt(q, q', d);
        AheadPops(q, q', k, d);
      }
    }
  }

  lemma TakeHeadOrder(q: Queue)
    requires Order(q) && q.pc.TookHeld?
    ensures Order(DoTakeHead(q))
  {
    hide DoTakeHead, LineOrdered, HeldOrdered, DirectOrdered;
    var q' := DoTakeHead(q);
    HeadEffect(q);
    assert SettledGrows(q, q');
    if q.entry.None? && !q.st.stopped && q.st.fifo != [] {
      PoppedOrder(q, q');
    } else {
      SameLineKeeps(q, q');
    }
  }

  lemma {:induction false} AbsorbedFrom(held: map<nat, Held>, items: seq<Held>, n: nat)
    requires n in Absorb(held, items)
    ensures Absorb(held, items)[n] in items || (n in held && held[n] == Absorb(held, items)[n])
    decreases |items|
  {
    if items != [] {
      AbsorbedFrom(held[items[0].entry.seqNo := items[0]], items[1..], n);
    }
  }

  lemma AbsorbedOrder(q: Queue, q': Queue)
    requires Order(q) && q.pc.Top?
    requires q' == q.(st := q.st.(newHeld := []), pc := TookHeld, held := Absorb(q.held, q.st.newHeld))
    ensures Order(q')
  {
    hide Absorb, AllAhead, Ahead;
    assert SettledGrows(q, q');
    forall n | n in q'.held ensures AllAhead(q', |q'.st.fifo|, Prior(q'.h, q'.held[n].entry.end)) {
      AbsorbedFrom(q.held, q.st.newHeld, n);
      AllAheadGrows(q, q', |q.st.fifo|, |q.st.fifo|, Prior(q.h, q'.held[n].entry.end));
    }
    forall i | 0 <= i < |q'.st.fifo| ensures AllAhead(q', i, Prior(q'.h, q'.st.fifo[i].end)) {
      AllAheadGrows(q, q', i, i, Prior(q.h, q.st.fifo[i].end));
    }
    forall d | d in q'.h.ids.direct ensures StillLeaving(q'.calls, d) || Ahead(q', |q'.st.fifo|, d) {
      if Ahead(q, |q.st.fifo|, d) {
        AheadGrows(q, q', |q.st.fifo|, |q.st.fifo|, d);
      }
    }
  }

  lemma TaskOrder(q: Queue, q': Queue, step: Step)
    requires Order(q) && TaskKind(step) && TaskMoved(q, q', step)
    ensures Order(q')
  {
    hide Order, DoTakeHead, Absorb, Settled;
    match step
    case TakeHead => TakeHeadOrder(q);
    case TakeNewHeld => AbsorbedOrder(q, q');
    case DropTask(_) => GoneOrder(q');
    case DropNext => GoneOrder(q');
    case AttemptFails(_) => MovedOrder(q, q');
    case AttemptEnds(_) => MovedOrder(q, q');
    case WakeUp => MovedOrder(q, q');
  }

  lemma GoneOrder(q: Queue)
    requires Gone(q.pc)
    ensures Order(q)
  {}

  lemma MovedOrder(q: Queue, q': Queue)
    requires Order(q) && q.pc.Parked?
    requires q'.st.fifo == q.st.fifo && q'.st.newHeld == q.st.newHeld && q'.held == q.held && q'.calls == q.calls
    requires q'.h == q.h
    requires q'.entry == q.entry || (q.entry.Some? && InCompletion(q'.pc, q.entry.value.end))
    ensures Order(q')
  {
    assert SettledGrows(q, q');
    SameLineKeeps(q, q');
  }

  // ----- every step

  lemma EndingOrder(q: Queue, q': Queue, step: Step)
    requires Order(q) && Outcomes(q) && Ending(step) && InStage(q, step) && Completed(q, q', step)
    requires Shape(q)
    ensures Order(q')
  {
    hide Keep, Order;
    assert OutcomeOf(q, q.pc.entry.end);
    hide OutcomeOf;
    assert SettledGrows(q, q');
    SameLineKeeps(q, q');
  }

  lemma UnqueuedOrder(q: Queue, q': Queue, step: Step)
    requires Order(q) && Numbers(q) && Outcomes(q)
    requires UnqueuedKind(step) && step.end in q.calls && !q.calls[step.end].Notifying? && EndedUnqueued(q, q', step)
    ensures Order(q')
  {
    hide Keep, Order, OneToOne, PendingKnown;
    assert OutcomeOf(q, step.end);
    hide OutcomeOf;
    assert SettledGrows(q, q');
    SameLineKeeps(q, q');
  }

  lemma QuietOrder(q: Queue, step: Step)
    requires Order(q) && Enabled(q, step) && Quiet(step)
    ensures Order(Apply(q, step))
  {
    hide Apply, Order;
    var q' := Apply(q, step);
    QuietEffect(q, step);
    if TaskKind(step) {
      hide QuietKept, Enabled;
      TaskEffect(q, step);
      TaskOrder(q, q', step);
    } else {
      assert SettledGrows(q, q');
      SameLineKeeps(q, q');
    }
  }

  lemma OrderStep(q: Queue, step: Step)
    requires Inv(q) && Outcomes(q) && Order(q) && Enabled(q, step)
    ensures Order(Apply(q, step))
  {
    hide Order, Apply, Conserved, Numbers, Shape, Outcomes;
    var q' := Apply(q, step);
    if step.HandOver? || step.HoldBack? {
      HandOverEffect(q, step);
      HandOverOrder(q, q', step);
    } else if step.GateEnds? {
      GateEndsEffect(q, step.seqNo, step.gate);
      GateEndsOrder(q, q', step.seqNo, step.gate);
    } else if Quiet(step) {
      QuietOrder(q, step);
    } else if Ending(step) {
      EndingEffect(q, step);
      EndingOrder(q, q', step);
    } else {
      UnqueuedEffect(q, step);
      UnqueuedOrder(q, q', step);
    }
  }

  /** When an attempt starts, everything the write must not overtake has ended. */
  lemma AttemptInOrder(q: Queue, step: Step)
    requires Inv(q) && Outcomes(q) && Order(q) && StartsAttempt(q, step)
    ensures forall d | d in Prior(q.h, q.st.fifo[0].end) :: d in q.h.results
  {
    hide Blocked, Inv, Outcomes;
    assert AllAhead(q, 0, Prior(q.h, q.st.fifo[0].end));
    forall d | d in Prior(q.h, q.st.fifo[0].end) ensures d in q.h.results {
      assert Ahead(q, 0, d);
    }
  }
}
