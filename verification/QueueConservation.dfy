/**
 Conservation: every pending number stands for exactly one entry, in exactly one
 place, and no other entry exists.
 */
module QueueConservation {
  import opened Wrappers
  import opened Writes
  import opened QueueState
  import opened QueueMachine
  import opened QueueEffects

  ghost function RestOf(next: Pc): seq<Entry> {
    if next.Dropping? then next.rest else []
  }

  /** What the task itself still has to end: the entry it completes and those a drop left. */
  ghost function TaskEntries(pc: Pc): seq<Entry> {
    if pc.Completing? && (pc.stage.Reporting? || pc.stage.Recording?) then [pc.entry] + RestOf(pc.next)
    else if pc.Completing? then RestOf(pc.next)
    else RestOf(pc)
  }

  ghost function LoadOf(fifo: seq<Entry>, newHeld: seq<Held>, held: map<nat, Held>, entry: Option<Entry>,
      task: seq<Entry>)
    : multiset<Entry>
  {
    multiset(fifo) + multiset(EntriesOf(newHeld)) + multiset(HeldEntries(held)) + multiset(OptEntry(entry)) +
        multiset(task)
  }

  /** Every entry the queue holds, once for each place that holds it. */
  ghost function Load(q: Queue): multiset<Entry> {
    LoadOf(q.st.fifo, q.st.newHeld, q.held, q.entry, TaskEntries(q.pc))
  }

  /** The entry that each pending number stands for. */
  ghost function EntriesPending(pending: map<nat, Write>, endOf: map<nat, EndId>): set<Entry> {
    set n | n in pending :: Entry(n, pending[n], if n in endOf then endOf[n] else 0)
  }

  ghost predicate Conserved(q: Queue) {
    Load(q) == multiset(EntriesPending(q.st.pending, q.h.ids.endOf))
  }

  /** The task has been dropped: it ends what is left and takes nothing more. */
  ghost predicate Gone(pc: Pc) {
    pc.Dropping? || pc.Dead? || (pc.Completing? && pc.next.Dropping?)
  }

  ghost predicate Keyed(held: map<nat, Held>) {
    forall n | n in held :: held[n].entry.seqNo == n
  }

  ghost predicate Shape(q: Queue) {
    && (q.pc.Completing? ==> q.pc.next.Top? || (q.pc.next.TookHeld? && q.entry.None?) || q.pc.next.Dropping?)
    && (Gone(q.pc) ==> q.st.stopped && q.st.fifo == [] && q.st.newHeld == [] && q.held == map[] && q.entry.None?)
    && Keyed(q.held)
  }

  /** Numbers and ends of queued writes go one to one. */
  ghost predicate OneToOne(endOf: map<nat, EndId>, seqOf: map<EndId, nat>, nextSeq: nat, issued: nat) {
    && (forall n: nat | n < nextSeq :: n in endOf && endOf[n] in seqOf && seqOf[endOf[n]] == n)
    && (forall d: nat | d in seqOf :: d < issued && seqOf[d] < nextSeq && endOf[seqOf[d]] == d)
  }

  ghost predicate Issued(ids: Ids, ordered: set<EndId>) {
    && (forall d: nat :: d in ids.write <==> d < ids.issued)
    && (forall d: nat :: d in ordered <==> d < ids.issued)
    && (forall d | d in ids.direct :: d < ids.issued)
  }

  ghost predicate PendingKnown(pending: map<nat, Write>, nextSeq: nat, endOf: map<nat, EndId>,
                               write: map<EndId, Write>) {
    forall n | n in pending :: n < nextSeq && n in endOf && endOf[n] in write && write[endOf[n]] == pending[n]
  }

  ghost predicate CallsKnown(calls: map<EndId, Call>, issued: nat, write: map<EndId, Write>, seqOf: map<EndId, nat>) {
    forall d | d in calls :: d < issued && d in write &&
      (calls[d].Leaving? ==> write[d] == calls[d].write) && (calls[d].Notifying? <==> d in seqOf)
  }

  ghost predicate Numbers(q: Queue) {
    && OneToOne(q.h.ids.endOf, q.h.ids.seqOf, q.st.nextSeq, q.h.ids.issued)
    && Issued(q.h.ids, q.h.prior.Keys)
    && PendingKnown(q.st.pending, q.st.nextSeq, q.h.ids.endOf, q.h.ids.write)
    && CallsKnown(q.calls, q.h.ids.issued, q.h.ids.write, q.h.ids.seqOf)
  }

  ghost predicate Inv(q: Queue) {
    Shape(q) && Numbers(q) && Conserved(q)
  }

  // ----- sets, sequences and their multisets

  lemma AddOne(a: set<Entry>, e: Entry)
    requires e !in a
    ensures multiset(a + {e}) == multiset(a) + multiset{e}
  {}

  lemma RemoveOne(a: set<Entry>, e: Entry)
    requires e in a
    ensures multiset(a) == multiset(a - {e}) + multiset{e}
  {}

  lemma TwiceIn(entries: seq<Entry>, i: nat, j: nat)
    requires i < j < |entries| && entries[i] == entries[j]
    ensures multiset(entries)[entries[i]] >= 2
  {
    assert entries == entries[..j] + [entries[j]] + entries[j + 1..];
    assert entries[..j][i] == entries[i];
  }

  ghost predicate Apart(held: map<nat, Held>, items: seq<Held>) {
    && (forall i | 0 <= i < |items| :: items[i].entry.seqNo !in held)
    && (forall i, j | 0 <= i < j < |items| :: items[i].entry.seqNo != items[j].entry.seqNo)
  }

  lemma HeldAdd(held: map<nat, Held>, item: Held)
    requires item.entry.seqNo !in held && Keyed(held)
    ensures multiset(HeldEntries(held[item.entry.seqNo := item])) == multiset(HeldEntries(held)) + multiset{item.entry}
  {
    var grown := held[item.entry.seqNo := item];
    assert HeldEntries(grown) == HeldEntries(held) + {item.entry} by {
      forall e | e in HeldEntries(held) + {item.entry} ensures e in HeldEntries(grown) {
        assert grown[e.seqNo].entry == e;
      }
    }
    AddOne(HeldEntries(held), item.entry);
  }

  lemma {:induction false} AbsorbKeeps(held: map<nat, Held>, items: seq<Held>)
    requires Apart(held, items) && Keyed(held)
    ensures Keyed(Absorb(held, items))
    ensures multiset(HeldEntries(Absorb(held, items))) == multiset(HeldEntries(held)) + multiset(EntriesOf(items))
    decreases |items|
  {
    if items == [] {
      assert EntriesOf(items) == [];
    } else {
      HeldAdd(held, items[0]);
      AbsorbKeeps(held[items[0].entry.seqNo := items[0]], items[1..]);
      assert EntriesOf(items) == [items[0].entry] + EntriesOf(items[1..]);
    }
  }

  lemma HeldRemove(held: map<nat, Held>, n: nat)
    requires n in held && Keyed(held)
    ensures multiset(HeldEntries(held)) == multiset(HeldEntries(held - {n})) + multiset{held[n].entry}
  {
    var e := held[n].entry;
    assert HeldEntries(held - {n}) == HeldEntries(held) - {e} by {
      forall f | f in HeldEntries(held) - {e} ensures f in HeldEntries(held - {n}) {
        assert f.seqNo in held && held[f.seqNo].entry == f;
        assert (held - {n})[f.seqNo].entry == f;
      }
    }
    RemoveOne(HeldEntries(held), e);
  }

  // ----- what one move does to the load

  lemma LoadPush(fifo: seq<Entry>, newHeld: seq<Held>, held: map<nat, Held>, entry: Option<Entry>, task: seq<Entry>,
      e: Entry)
    ensures LoadOf(fifo + [e], newHeld, held, entry, task) == LoadOf(fifo, newHeld, held, entry, task) + multiset{e}
  {}

  lemma LoadHold(fifo: seq<Entry>, newHeld: seq<Held>, held: map<nat, Held>, entry: Option<Entry>, task: seq<Entry>,
      item: Held)
    ensures LoadOf(fifo, newHeld + [item], held, entry, task) == LoadOf(fifo, newHeld, held, entry, task) +
        multiset{item.entry}
  {
    assert EntriesOf(newHeld + [item]) == EntriesOf(newHeld) + [item.entry];
  }

  lemma LoadAbsorb(fifo: seq<Entry>, newHeld: seq<Held>, held: map<nat, Held>, entry: Option<Entry>, task: seq<Entry>)
    requires Apart(held, newHeld) && Keyed(held)
    ensures LoadOf(fifo, [], Absorb(held, newHeld), entry, task) == LoadOf(fifo, newHeld, held, entry, task)
  {
    AbsorbKeeps(held, newHeld);
    assert EntriesOf([]) == [];
  }

  lemma LoadUnhold(fifo: seq<Entry>, newHeld: seq<Held>, held: map<nat, Held>, entry: Option<Entry>,
      task: seq<Entry>, n: nat)
    requires n in held && Keyed(held)
    ensures LoadOf(fifo, newHeld, held, entry, task) == LoadOf(fifo, newHeld, held - {n}, entry, task) +
        multiset{held[n].entry}
  {
    HeldRemove(held, n);
  }

  lemma LoadPop(fifo: seq<Entry>, newHeld: seq<Held>, held: map<nat, Held>)
    requires fifo != []
    ensures LoadOf(fifo, newHeld, held, None, []) == LoadOf(fifo[1..], newHeld, held, Some(fifo[0]), [])
    ensures LoadOf(fifo, newHeld, held, None, []) == LoadOf(fifo[1..], newHeld, held, None, [fifo[0]])
  {
    assert fifo == [fifo[0]] + fifo[1..];
  }

  lemma LoadTask(fifo: seq<Entry>, newHeld: seq<Held>, held: map<nat, Held>, entry: Option<Entry>, e: Entry,
      rest: seq<Entry>)
    ensures LoadOf(fifo, newHeld, held, entry, [e] + rest) == LoadOf(fifo, newHeld, held, entry, rest) + multiset{e}
    ensures LoadOf(fifo, newHeld, held, Some(e), rest) == LoadOf(fifo, newHeld, held, None, rest) + multiset{e}
  {}

  lemma LoadDrop(fifo: seq<Entry>, newHeld: seq<Held>, held: map<nat, Held>, entry: Option<Entry>, order: seq<Entry>)
    requires multiset(order) == multiset(OptEntry(entry)) + multiset(HeldEntries(held)) + multiset(fifo) +
        multiset(EntriesOf(newHeld))
    ensures LoadOf([], [], map[], None, order) == LoadOf(fifo, newHeld, held, entry, [])
  {
    assert EntriesOf([]) == [];
    assert HeldEntries(map[]) == {};
  }

  // ----- what conservation gives about one entry

  lemma Located(q: Queue, e: Entry)
    requires Conserved(q) && Numbers(q) && e in Load(q)
    ensures Load(q)[e] == 1
    ensures e.seqNo in q.st.pending && q.st.pending[e.seqNo] == e.write
    ensures e.seqNo in q.h.ids.endOf && e.end == q.h.ids.endOf[e.seqNo] && e.end in q.h.ids.seqOf
        && q.h.ids.seqOf[e.end] == e.seqNo
    ensures e.end < q.h.ids.issued && e.end in q.h.ids.write && q.h.ids.write[e.end] == e.write
  {
    assert e in EntriesPending(q.st.pending, q.h.ids.endOf);
  }

  lemma SameNumber(q: Queue, e: Entry, f: Entry)
    requires Conserved(q) && Numbers(q) && e in Load(q) && f in Load(q)
    requires e.seqNo == f.seqNo || e.end == f.end
    ensures e == f
  {
    Located(q, e);
    Located(q, f);
  }

  lemma NewHeldInLoad(q: Queue, i: nat)
    requires i < |q.st.newHeld|
    ensures q.st.newHeld[i].entry in Load(q)
    ensures multiset(EntriesOf(q.st.newHeld))[q.st.newHeld[i].entry] >= 1
  {
    assert EntriesOf(q.st.newHeld)[i] == q.st.newHeld[i].entry;
    assert EntriesOf(q.st.newHeld)[i] in multiset(EntriesOf(q.st.newHeld));
  }

  lemma HeldInLoad(q: Queue, n: nat)
    requires n in q.held
    ensures q.held[n].entry in Load(q)
    ensures multiset(HeldEntries(q.held))[q.held[n].entry] >= 1
  {
    assert q.held[n].entry in HeldEntries(q.held);
  }

  lemma FifoInLoad(q: Queue, i: nat)
    requires i < |q.st.fifo|
    ensures q.st.fifo[i] in Load(q)
    ensures multiset(q.st.fifo)[q.st.fifo[i]] >= 1
  {
    assert q.st.fifo[i] in multiset(q.st.fifo);
  }

  lemma EntryInLoad(q: Queue)
    requires q.entry.Some?
    ensures q.entry.value in Load(q)
  {
    assert OptEntry(q.entry)[0] in multiset(OptEntry(q.entry));
  }

  lemma TaskInLoad(q: Queue, i: nat)
    requires i < |TaskEntries(q.pc)|
    ensures TaskEntries(q.pc)[i] in Load(q)
  {
    assert TaskEntries(q.pc)[i] in multiset(TaskEntries(q.pc));
  }

  lemma NewHeldNotHeld(q: Queue, i: nat)
    requires Inv(q) && i < |q.st.newHeld|
    ensures q.st.newHeld[i].entry.seqNo !in q.held
  {
    var e := q.st.newHeld[i].entry;
    if e.seqNo in q.held {
      NewHeldInLoad(q, i);
      HeldInLoad(q, e.seqNo);
      SameNumber(q, e, q.held[e.seqNo].entry);
      Located(q, e);
      assert false;
    }
  }

  lemma NewHeldDistinct(q: Queue, i: nat, j: nat)
    requires Inv(q) && i < j < |q.st.newHeld|
    ensures q.st.newHeld[i].entry.seqNo != q.st.newHeld[j].entry.seqNo
  {
    var e, f := q.st.newHeld[i].entry, q.st.newHeld[j].entry;
    if e.seqNo == f.seqNo {
      NewHeldInLoad(q, i);
      NewHeldInLoad(q, j);
      SameNumber(q, e, f);
      Located(q, e);
      TwiceIn(EntriesOf(q.st.newHeld), i, j);
      assert false;
    }
  }

  lemma NewHeldApart(q: Queue)
    requires Inv(q)
    ensures Apart(q.held, q.st.newHeld)
  {
    forall i | 0 <= i < |q.st.newHeld| ensures q.st.newHeld[i].entry.seqNo !in q.held {
      NewHeldNotHeld(q, i);
    }
    forall i, j | 0 <= i < j < |q.st.newHeld| ensures q.st.newHeld[i].entry.seqNo != q.st.newHeld[j].entry.seqNo {
      NewHeldDistinct(q, i, j);
    }
  }

  // ----- hand-overs

  lemma OneToOneGrows(endOf: map<nat, EndId>, seqOf: map<EndId, nat>, nextSeq: nat, issued: nat)
    requires OneToOne(endOf, seqOf, nextSeq, issued)
    ensures OneToOne(endOf, seqOf, nextSeq, issued + 1)
    ensures OneToOne(endOf[nextSeq := issued], seqOf[issued := nextSeq], nextSeq + 1, issued + 1)
  {}

  lemma PendingKnownGrows(pending: map<nat, Write>, nextSeq: nat, endOf: map<nat, EndId>, write: map<EndId, Write>,
      end: EndId, w: Write)
    requires PendingKnown(pending, nextSeq, endOf, write) && end !in write
    ensures PendingKnown(pending, nextSeq, endOf, write[end := w])
    ensures PendingKnown(pending[nextSeq := w], nextSeq + 1, endOf[nextSeq := end], write[end := w])
  {}

  lemma CallsKnownGrows(calls: map<EndId, Call>, issued: nat, write: map<EndId, Write>, seqOf: map<EndId, nat>,
      w: Write, call: Call, n: nat)
    requires CallsKnown(calls, issued, write, seqOf) && issued !in seqOf
    requires call.Leaving? ==> call.write == w
    ensures CallsKnown(calls, issued + 1, write[issued := w], seqOf[issued := n])
    ensures call.Notifying? ==> CallsKnown(calls[issued := call], issued + 1, write[issued := w], seqOf[issued := n])
    ensures call.Leaving? ==> CallsKnown(calls[issued := call], issued + 1, write[issued := w], seqOf)
  {}

  lemma HandOverNumbers(q: Queue, q': Queue, step: Step)
    requires Numbers(q) && (step.HandOver? || step.HoldBack?) && HandedOver(q, q', step)
    ensures Numbers(q')
  {
    hide OneToOne, PendingKnown, CallsKnown, Blocked, SameTask;
    var removal := HandOverRemoval(q, step);
    assert q.h.ids.issued !in q.h.ids.write && q.h.ids.issued !in q.h.ids.seqOf by { UnusedEnd(q); }
    OneToOneGrows(q.h.ids.endOf, q.h.ids.seqOf, q.st.nextSeq, q.h.ids.issued);
    PendingKnownGrows(q.st.pending, q.st.nextSeq, q.h.ids.endOf, q.h.ids.write, q.h.ids.issued, step.write);
    CallsKnownGrows(q.calls, q.h.ids.issued, q.h.ids.write, q.h.ids.seqOf, step.write,
                    if removal.Some? then Leaving(step.write, removal.value) else Notifying, q.st.nextSeq);
  }

  lemma UnusedEnd(q: Queue)
    requires Numbers(q)
    ensures q.h.ids.issued !in q.h.ids.write && q.h.ids.issued !in q.h.ids.seqOf && q.h.ids.issued !in q.calls
    ensures q.st.nextSeq !in q.st.pending
  {}

  lemma PendingGrows(pending: map<nat, Write>, endOf: map<nat, EndId>, n: nat, write: Write, end: EndId)
    requires n !in pending
    ensures multiset(EntriesPending(pending[n := write], endOf[n := end]))
         == multiset(EntriesPending(pending, endOf)) + multiset{Entry(n, write, end)}
  {
    var e := Entry(n, write, end);
    var before, after := EntriesPending(pending, endOf), EntriesPending(pending[n := write], endOf[n := end]);
    assert after == before + {e} by {
      forall f | f in before + {e} ensures f in after {
        assert f.seqNo in pending[n := write];
      }
    }
    AddOne(before, e);
  }

  /** One write was registered and its entry put into one more place. */
  lemma RegisteredKeeps(q: Queue, q': Queue, write: Write)
    requires Conserved(q) && q.st.nextSeq !in q.st.pending
    requires q'.st.pending == q.st.pending[q.st.nextSeq := write]
    requires q'.h.ids.endOf == q.h.ids.endOf[q.st.nextSeq := q.h.ids.issued]
    requires Load(q') == Load(q) + multiset{Entry(q.st.nextSeq, write, q.h.ids.issued)}
    ensures Conserved(q')
  {
    PendingGrows(q.st.pending, q.h.ids.endOf, q.st.nextSeq, write, q.h.ids.issued);
  }

  lemma HandOverConserved(q: Queue, q': Queue, step: Step)
    requires Numbers(q) && Conserved(q) && (step.HandOver? || step.HoldBack?) && HandedOver(q, q', step)
    ensures Conserved(q')
  {
    hide Blocked, LoadOf, Numbers, EntriesPending;
    UnusedEnd(q);
    if HandOverRemoval(q, step).None? {
      var e := Entry(q.st.nextSeq, step.write, q.h.ids.issued);
      if step.HandOver? {
        LoadPush(q.st.fifo, q.st.newHeld, q.held, q.entry, TaskEntries(q.pc), e);
      } else {
        LoadHold(q.st.fifo, q.st.newHeld, q.held, q.entry, TaskEntries(q.pc), Held(e, step.follow));
      }
      RegisteredKeeps(q, q', step.write);
    }
  }

  lemma HandOverKeeps(q: Queue, q': Queue, step: Step)
    requires Inv(q) && (step.HandOver? || step.HoldBack?) && HandedOver(q, q', step)
    ensures Inv(q')
  {
    HandOverNumbers(q, q', step);
    HandOverConserved(q, q', step);
    hide Numbers, Conserved, Keyed, Blocked;
  }

  // ----- gates

  lemma FollowNumbers(q: Queue, q': Queue, e: Entry, follow: Write, gate: Gate)
    requires Numbers(q) && ReleasedBehind(q, q', e, follow, gate) && q'.calls == q.calls && e.end < q.h.ids.issued
    ensures Numbers(q')
  {
    hide OneToOne, PendingKnown, CallsKnown;
    UnusedEnd(q);
    OneToOneGrows(q.h.ids.endOf, q.h.ids.seqOf, q.st.nextSeq, q.h.ids.issued);
    PendingKnownGrows(q.st.pending, q.st.nextSeq, q.h.ids.endOf, q.h.ids.write, q.h.ids.issued, follow);
    CallsKnownGrows(q.calls, q.h.ids.issued, q.h.ids.write, q.h.ids.seqOf, follow, Notifying, q.st.nextSeq);
  }

  /** A held entry goes to the task or to the end of the line, behind its follow-up. */
  lemma ReleasedLoad(q: Queue, q': Queue, n: nat, before: seq<Entry>)
    requires Keyed(q.held) && n in q.held && TaskEntries(q.pc) == [] && |before| <= 1
    requires q'.held == q.held - {n} && q'.entry == q.entry && q'.st.newHeld == q.st.newHeld
    requires || (q'.st.fifo == q.st.fifo && TaskEntries(q'.pc) == [q.held[n].entry] && before == [])
             || (q'.st.fifo == q.st.fifo + before + [q.held[n].entry] && TaskEntries(q'.pc) == [])
    ensures Load(q') == Load(q) + multiset(before)
  {
    hide LoadOf, Keyed, TaskEntries;
    var e := q.held[n].entry;
    LoadUnhold(q.st.fifo, q.st.newHeld, q.held, q.entry, [], n);
    LoadTask(q.st.fifo, q.st.newHeld, q.held - {n}, q.entry, e, []);
    assert [e] + [] == [e];
    LoadPush(q.st.fifo + before, q.st.newHeld, q.held - {n}, q.entry, [], e);
    if before == [] {
      assert q.st.fifo + before == q.st.fifo;
    } else {
      assert before == [before[0]];
      LoadPush(q.st.fifo, q.st.newHeld, q.held - {n}, q.entry, [], before[0]);
    }
  }

  lemma GateEndsConserved(q: Queue, q': Queue, n: nat, gate: Gate)
    requires Inv(q) && q.pc.Parked? && n in q.held && Released(q, q', n, gate)
    ensures Conserved(q')
  {
    hide LoadOf, EntriesPending, Numbers, Keyed;
    if gate.Stored? && !q.st.stopped && q.held[n].follow.Some? {
      var f := Entry(q.st.nextSeq, q.held[n].follow.value, q.h.ids.issued);
      ReleasedLoad(q, q', n, [f]);
      UnusedEnd(q);
      RegisteredKeeps(q, q', f.write);
    } else {
      assert q.st.fifo + [] == q.st.fifo;
      if q'.pc.Completing? {
        assert TaskEntries(q'.pc) == [q.held[n].entry];
      }
      ReleasedLoad(q, q', n, []);
    }
  }

  lemma GateEndsKeeps(q: Queue, q': Queue, n: nat, gate: Gate)
    requires Inv(q) && q.pc.Parked? && n in q.held && Released(q, q', n, gate)
    ensures Inv(q')
  {
    hide Conserved, Numbers, LoadOf;
    GateEndsConserved(q, q', n, gate);
    HeldInLoad(q, n);
    Located(q, q.held[n].entry);
    if gate.Stored? && !q.st.stopped && q.held[n].follow.Some? {
      FollowNumbers(q, q', q.held[n].entry, q.held[n].follow.value, gate);
    } else {
      SameIdsNumbers(q, q');
    }
  }

  /** Nothing was numbered; calls may have gone on, pending numbers may have gone. */
  lemma SameIdsNumbers(q: Queue, q': Queue)
    requires Numbers(q) && q'.h.ids == q.h.ids && q'.h.prior == q.h.prior && q'.st.nextSeq == q.st.nextSeq
    requires forall n | n in q'.st.pending :: n in q.st.pending && q'.st.pending[n] == q.st.pending[n]
    requires forall d | d in q'.calls ::
               d in q.calls && (q'.calls[d] == q.calls[d] || (q'.calls[d].ReportingUnqueued? && q.calls[d].Leaving?))
    ensures Numbers(q')
  {}

  // ----- the task

  lemma PoppedLoad(q: Queue, q': Queue)
    requires q.st.fifo != [] && q.entry.None? && TaskEntries(q.pc) == []
    requires q'.st.fifo == q.st.fifo[1..] && q'.st.newHeld == q.st.newHeld && q'.held == q.held
    requires || (q'.entry == Some(q.st.fifo[0]) && TaskEntries(q'.pc) == [])
             || (q'.entry.None? && TaskEntries(q'.pc) == [q.st.fifo[0]])
    ensures Load(q') == Load(q)
  {
    LoadPop(q.st.fifo, q.st.newHeld, q.held);
  }

  lemma TakeHeadLoad(q: Queue)
    requires q.pc.TookHeld?
    ensures Load(DoTakeHead(q)) == Load(q)
  {
    hide Blocked, LoadOf;
    var q' := DoTakeHead(q);
    if q.entry.None? && !q.st.stopped && q.st.fifo != [] {
      if q'.pc.Completing? {
        assert TaskEntries(q'.pc) == [q.st.fifo[0]];
      }
      PoppedLoad(q, q');
    }
  }

  lemma TaskLoad(q: Queue, q': Queue, step: Step)
    requires Inv(q) && TaskKind(step) && TaskMoved(q, q', step)
    ensures Load(q') == Load(q)
  {
    hide Load, LoadOf, Absorb, Inv, DoTakeHead;
    if step.TakeNewHeld? {
      AbsorbedLoad(q, q');
    } else if step.TakeHead? {
      TakeHeadLoad(q);
    } else if step.AttemptEnds? {
      AttemptedLoad(q, q');
    } else if step.DropTask? {
      DroppedLoad(q, q', step.order);
    } else if step.DropNext? {
      DropNextLoad(q, q');
    } else {
      WakeLoad(q, q');
    }
  }

  lemma AbsorbedLoad(q: Queue, q': Queue)
    requires Inv(q) && TaskMoved(q, q', Step.TakeNewHeld)
    ensures Load(q') == Load(q)
  {
    hide LoadOf, Absorb, Numbers, Conserved, Keyed;
    NewHeldApart(q);
    LoadAbsorb(q.st.fifo, q.st.newHeld, q.held, q.entry, []);
  }

  lemma AttemptedLoad(q: Queue, q': Queue)
    requires q.pc.Parked? && q.entry.Some? && q'.pc.Completing? && q'.pc.entry == q.entry.value && q'.pc.next.Top?
    requires q'.pc.stage.Reporting? && q'.entry.None? && q'.st == q.st && q'.held == q.held
    ensures Load(q') == Load(q)
  {
    hide LoadOf;
    LoadTask(q.st.fifo, q.st.newHeld, q.held, None, q.entry.value, []);
    assert TaskEntries(q'.pc) == [q.entry.value] + [];
  }

  lemma DroppedLoad(q: Queue, q': Queue, order: seq<Entry>)
    requires TaskMoved(q, q', DropTask(order))
    ensures Load(q') == Load(q)
  {
    hide LoadOf;
    LoadDrop(q.st.fifo, q.st.newHeld, q.held, q.entry, order);
  }

  lemma DropNextLoad(q: Queue, q': Queue)
    requires TaskMoved(q, q', DropNext)
    ensures Load(q') == Load(q)
  {
    hide LoadOf;
    if q.pc.rest != [] {
      assert q.pc.rest == [q.pc.rest[0]] + q.pc.rest[1..];
    }
  }

  lemma WakeLoad(q: Queue, q': Queue)
    requires q.pc.Parked? && (q'.pc.Parked? || q'.pc.Top?)
    requires q'.st.fifo == q.st.fifo && q'.st.newHeld == q.st.newHeld && q'.held == q.held && q'.entry == q.entry
    ensures Load(q') == Load(q)
  {
    hide LoadOf;
  }

  lemma TaskShape(q: Queue, q': Queue, step: Step)
    requires Inv(q) && TaskKind(step) && TaskMoved(q, q', step)
    ensures Shape(q')
  {
    hide Conserved, Numbers, DoTakeHead, Absorb, Keyed;
    if step.TakeNewHeld? {
      NewHeldApart(q);
      AbsorbKeeps(q.held, q.st.newHeld);
    } else if step.TakeHead? {
      HeadEffect(q);
    }
    NoneKeyed();
  }

  lemma NoneKeyed()
    ensures Keyed(map[])
  {}

  lemma QuietKeeps(q: Queue, step: Step)
    requires Inv(q) && Enabled(q, step) && Quiet(step)
    ensures Inv(Apply(q, step))
  {
    hide Apply, Enabled, Numbers, LoadOf, EntriesPending, Keyed;
    var q' := Apply(q, step);
    QuietEffect(q, step);
    SameIdsNumbers(q, q');
    if TaskKind(step) {
      TaskEffect(q, step);
      TaskLoad(q, q', step);
      TaskShape(q, q', step);
    }
  }

  // ----- completions and writes that were never queued

  lemma PendingShrinks(pending: map<nat, Write>, endOf: map<nat, EndId>, e: Entry)
    requires e in EntriesPending(pending, endOf)
    ensures multiset(EntriesPending(pending, endOf)) == multiset(EntriesPending(pending - {e.seqNo}, endOf)) +
        multiset{e}
  {
    var before, after := EntriesPending(pending, endOf), EntriesPending(pending - {e.seqNo}, endOf);
    assert after == before - {e} by {
      forall f | f in before - {e} ensures f in after {
        assert f.seqNo in pending - {e.seqNo};
      }
    }
    RemoveOne(before, e);
  }

  lemma Cancel(a: multiset<Entry>, b: multiset<Entry>, e: Entry)
    requires a + multiset{e} == b + multiset{e}
    ensures a == b
  {
    assert a + multiset{e} - multiset{e} == a && b + multiset{e} - multiset{e} == b;
  }

  lemma RecordedConserved(q: Queue, q': Queue)
    requires Conserved(q) && q.pc.Completing? && q.pc.stage.Recording? && Completed(q, q', RecordEnd)
    ensures Conserved(q')
  {
    hide LoadOf, EntriesPending, Keep;
    var e := q.pc.entry;
    LoadTask(q.st.fifo, q.st.newHeld, q.held, q.entry, e, RestOf(q.pc.next));
    assert Load(q) == Load(q') + multiset{e};
    assert e in multiset(EntriesPending(q.st.pending, q.h.ids.endOf));
    PendingShrinks(q.st.pending, q.h.ids.endOf, e);
    Cancel(Load(q'), multiset(EntriesPending(q'.st.pending, q.h.ids.endOf)), e);
  }

  lemma EndingKeeps(q: Queue, q': Queue, step: Step)
    requires Inv(q) && Ending(step) && InStage(q, step) && Completed(q, q', step)
    ensures Inv(q')
  {
    hide Numbers, LoadOf, EntriesPending, Keyed, Keep;
    SameIdsNumbers(q, q');
    if step.RecordEnd? {
      RecordedConserved(q, q');
    }
  }

  lemma UnqueuedKeeps(q: Queue, q': Queue, step: Step)
    requires Inv(q) && UnqueuedKind(step) && step.end in q.calls && !q.calls[step.end].Notifying?
    requires EndedUnqueued(q, q', step)
    ensures Inv(q')
  {
    hide Numbers, LoadOf, EntriesPending, Keyed, Keep;
    SameIdsNumbers(q, q');
  }

  // ----- every step

  lemma StepKeeps(q: Queue, step: Step)
    requires Inv(q) && Enabled(q, step)
    ensures Inv(Apply(q, step))
  {
    hide Inv, Apply;
    var q' := Apply(q, step);
    if step.HandOver? || step.HoldBack? {
      HandOverEffect(q, step);
      HandOverKeeps(q, q', step);
    } else if step.GateEnds? {
      GateEndsEffect(q, step.seqNo, step.gate);
      GateEndsKeeps(q, q', step.seqNo, step.gate);
    } else if Quiet(step) {
      QuietKeeps(q, step);
    } else if Ending(step) {
      EndingEffect(q, step);
      EndingKeeps(q, q', step);
    } else {
      UnqueuedEffect(q, step);
      UnqueuedKeeps(q, q', step);
    }
  }

  lemma StartHolds()
    ensures Inv(Start)
  {
    assert EntriesPending(map[], map[]) == {};
    assert EntriesOf([]) == [];
    assert HeldEntries(map[]) == {};
  }
}
