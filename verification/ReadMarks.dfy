/**
 The marking of inbox items as read, over the delivery queue of the Run: one marker per
 agent and item, held behind the gate of its entry, with the finish of a completed call
 in front of it.
 */
module ReadMarks {
  import opened Wrappers
  import opened Writes
  import opened QueueState
  import opened QueueMachine
  import opened QueueEffects
  import opened QueueConservation
  import opened QueueTables
  import opened QueueTheorems
  import opened Inbox

  /** A call that marks an entry it found in the listing. */
  datatype Marking = Marking(agent: Uuid, entryId: Uuid, entry: MailEntry)

  /**
   `found` are the calls that found their entry, `markings` those that won its mark and have not
   yet held the marker. `finish` remembers, of each marker that was held, the finish it was held with.
   */
  datatype Desk = Desk(
    q: Queue,
    listed: map<(Uuid, Uuid), MailEntry>,
    marked: set<(Uuid, Uuid)>,
    found: map<nat, Marking>,
    markings: map<nat, Marking>,
    hasInbox: bool,
    finish: map<EndId, Option<Write>>)

  datatype DeskStep =
    | QueueStep(step: QueueMachine.Step)
    | ListEntry(agent: Uuid, entryId: Uuid, entry: MailEntry)
    | FindEntry(id: nat, agent: Uuid, entryId: Uuid)
    | MarkItem(id: nat)
    | HoldMarker(id: nat)

  /** Markers are made here and nowhere else. */
  predicate MakesMarker(step: QueueMachine.Step) {
    (step.HandOver? && step.write.Marker?) || step.HoldBack?
  }

  function MarkerOf(m: Marking): Write {
    Marker(m.entry.itemId, m.agent, m.entryId)
  }

  predicate DeskEnabled(d: Desk, step: DeskStep) {
    match step
    case QueueStep(s) => QueueMachine.Enabled(d.q, s) && !MakesMarker(s)
    case ListEntry(_, _, _) => true
    case FindEntry(id, _, _) => id !in d.found && id !in d.markings
    case MarkItem(id) => id in d.found && id !in d.markings
    case HoldMarker(id) => id in d.markings && d.q.h.ids.issued > 0 && 0 !in d.q.calls
  }

  function DeskApply(d: Desk, step: DeskStep): Desk
    requires DeskEnabled(d, step)
  {
    match step
    case QueueStep(s) => d.(q := QueueMachine.Apply(d.q, s))
    case ListEntry(agent, entryId, entry) => d.(listed := d.listed[(agent, entryId) := entry])
    case FindEntry(id, agent, entryId) =>
      if (agent, entryId) !in d.listed then d
      else d.(found := d.found[id := Marking(agent, entryId, d.listed[(agent, entryId)])])
    case MarkItem(id) =>
      var m := d.found[id];
      var left := d.(found := d.found - {id});
      if WonBy(m) in d.marked then left
      else if !d.hasInbox then left.(marked := d.marked + {WonBy(m)})
      else left.(marked := d.marked + {WonBy(m)}, markings := d.markings[id := m])
    case HoldMarker(id) =>
      var m := d.markings[id];
      d.(q := QueueMachine.Apply(d.q, HoldBack(MarkerOf(m), FinishOf(m.entry))),
         markings := d.markings - {id},
         finish := d.finish[d.q.h.ids.issued := FinishOf(m.entry)])
  }

  ghost predicate IsDeskRun(states: seq<Desk>, steps: seq<DeskStep>) {
    && |states| == |steps| + 1
    && states[0] == Desk(Start, map[], {}, map[], map[], states[0].hasInbox, map[])
    && forall i | 0 <= i < |steps| ::
           DeskEnabled(states[i], steps[i]) && states[i + 1] == DeskApply(states[i], steps[i])
  }

  // ===== one marker per agent and item =====

  /** What a marker marks. */
  function MarkOf(write: Write): Option<(Uuid, Uuid)> {
    if write.Marker? then Some((write.agentId, write.itemId)) else None
  }

  function WonBy(m: Marking): (Uuid, Uuid) {
    (m.agent, m.entry.itemId)
  }

  ghost predicate OneMarker(write: map<EndId, Write>) {
    forall c, d | c in write && d in write && MarkOf(write[c]).Some? && MarkOf(write[c]) == MarkOf(write[d]) :: c == d
  }

  ghost predicate MarksKnown(d: Desk) {
    && (forall e | e in d.q.h.ids.write && MarkOf(d.q.h.ids.write[e]).Some? ::
          MarkOf(d.q.h.ids.write[e]).value in d.marked)
    && (forall i | i in d.markings :: WonBy(d.markings[i]) in d.marked)
    && (forall i, e | i in d.markings && e in d.q.h.ids.write ::
          MarkOf(d.q.h.ids.write[e]) != Some(WonBy(d.markings[i])))
    && (forall i, j | i in d.markings && j in d.markings && WonBy(d.markings[i]) == WonBy(d.markings[j]) :: i == j)
  }

  // ===== the finish in front of its marker =====

  ghost predicate Linked(h: History, finish: map<EndId, Option<Write>>, end: EndId) {
    end in finish && finish[end].Some? ==>
      end in h.follow && h.follow[end] in h.ids.write && h.ids.write[h.follow[end]] == finish[end].value
  }

  ghost predicate HeldWith(held: Held, finish: map<EndId, Option<Write>>) {
    held.entry.end in finish && held.follow == finish[held.entry.end]
  }

  ghost predicate Follows(q: Queue, finish: map<EndId, Option<Write>>) {
    && (forall e | e in finish :: e < q.h.ids.issued && (finish[e].Some? ==> finish[e].value.Finish?))
    && (forall n | n in q.held :: HeldWith(q.held[n], finish))
    && (forall i | 0 <= i < |q.st.newHeld| :: HeldWith(q.st.newHeld[i], finish))
    && (forall i | 0 <= i < |q.st.fifo| :: Linked(q.h, finish, q.st.fifo[i].end))
  }

  /** Markers never go straight into the line, and a finish joined it only for a gate that said stored. */
  ghost predicate OnlyStored(q: Queue) {
    && (forall e | e in q.h.ids.direct && e in q.h.ids.write :: !q.h.ids.write[e].Marker?)
    && (forall e | e in q.h.follow :: e in q.h.gate && q.h.gate[e].Stored?)
  }

  ghost predicate DeskInv(d: Desk) {
    && Good(d.q) && OneMarker(d.q.h.ids.write) && MarksKnown(d) && Follows(d.q, d.finish) && OnlyStored(d.q)
  }

  // ----- steps of the queue

  lemma HandOverStored(q: Queue, q': Queue, step: QueueMachine.Step)
    requires OnlyStored(q) && (step.HandOver? || step.HoldBack?) && HandedOver(q, q', step)
    requires step.HandOver? ==> !step.write.Marker?
    requires q.h.ids.issued !in q.h.ids.direct
    ensures OnlyStored(q')
  {
    hide Blocked;
    assert SameTask(q, q') && GotEnd(q, q', step.write, step.HandOver?);
    hide HandedOver;
  }

  lemma ReleaseStored(q: Queue, q': Queue, n: nat, gate: Gate)
    requires OnlyStored(q) && Good(q) && n in q.held && Released(q, q', n, gate)
    ensures OnlyStored(q')
  {
    FreshEnd(q);
    NotFollowed(q, n);
    hide Good;
    var e := q.held[n].entry.end;
    var end := q.h.ids.issued;
    if gate.Dropped? || q.st.stopped || q.held[n].follow.None? {
      assert q'.h.ids == q.h.ids && q'.h.follow == q.h.follow && q'.h.gate == q.h.gate[e := gate];
    } else {
      assert q'.h.ids.direct == q.h.ids.direct && q'.h.ids.write == q.h.ids.write[end := q.held[n].follow.value];
      assert q'.h.follow == q.h.follow[e := end] && q'.h.gate == q.h.gate[e := gate][end := gate];
    }
    hide Released;
    StoredMaps(q, q', e, end, gate);
  }

  lemma StoredMaps(q: Queue, q': Queue, e: EndId, end: EndId, gate: Gate)
    requires OnlyStored(q) && e !in q.h.follow && end !in q.h.ids.direct && q'.h.ids.direct == q.h.ids.direct
    requires forall d | d in q'.h.ids.write && d != end :: d in q.h.ids.write && q'.h.ids.write[d] == q.h.ids.write[d]
    requires || (q'.h.ids == q.h.ids && q'.h.follow == q.h.follow && q'.h.gate == q.h.gate[e := gate])
             || (gate.Stored? && q'.h.follow == q.h.follow[e := end] && q'.h.gate == q.h.gate[e := gate][end := gate])
    ensures OnlyStored(q')
  {}

  /** A write that is still held has had no gate, hence no follow-up. */
  lemma NotFollowed(q: Queue, n: nat)
    requires OnlyStored(q) && Good(q) && n in q.held
    ensures q.held[n].entry.end !in q.h.follow
  {
    hide Inv, QueueOutcomes.Outcomes, QueueOrder.Order, Table, StartedFirst, Drains, Woken;
    assert Shut(q.h, q.held[n]);
  }

  lemma StoredStep(q: Queue, step: QueueMachine.Step)
    requires OnlyStored(q) && Good(q) && QueueMachine.Enabled(q, step) && !(step.HandOver? && step.write.Marker?)
    ensures OnlyStored(QueueMachine.Apply(q, step))
  {
    hide QueueMachine.Apply, Good, Blocked, Keep;
    var q' := QueueMachine.Apply(q, step);
    if step.HandOver? || step.HoldBack? {
      FreshEnd(q);
      HandOverEffect(q, step);
      HandOverStored(q, q', step);
    } else if step.GateEnds? {
      GateEndsEffect(q, step.seqNo, step.gate);
      ReleaseStored(q, q', step.seqNo, step.gate);
    } else if Quiet(step) {
      QuietEffect(q, step);
    } else if Ending(step) {
      EndingEffect(q, step);
    } else {
      UnqueuedEffect(q, step);
    }
  }

  /** The ends of a held write and of the line are ends that were given out. */
  lemma HandOverFollows(q: Queue, q': Queue, step: QueueMachine.Step, finish: map<EndId, Option<Write>>)
    requires Follows(q, finish) && Numbers(q) && step.HandOver? && HandedOver(q, q', step)
    ensures Follows(q', finish)
  {
    hide Blocked;
    UnusedEnd(q);
    hide Numbers;
    forall i | 0 <= i < |q'.st.fifo| ensures Linked(q'.h, finish, q'.st.fifo[i].end) {
      if i < |q.st.fifo| {
        assert q'.st.fifo[i] == q.st.fifo[i];
        assert Linked(q.h, finish, q.st.fifo[i].end);
      }
    }
  }

  lemma HoldFollows(q: Queue, q': Queue, write: Write, follow: Option<Write>, finish: map<EndId, Option<Write>>)
    requires Follows(q, finish) && Good(q) && HandedOver(q, q', HoldBack(write, follow))
    requires follow.Some? ==> follow.value.Finish?
    ensures Follows(q', finish[q.h.ids.issued := follow])
  {
    hide Blocked, Good;
    FreshEnd(q);
    var finish' := finish[q.h.ids.issued := follow];
    assert q'.held == q.held && q'.st.fifo == q.st.fifo && q'.h.follow == q.h.follow;
    assert q'.h.ids.issued == q.h.ids.issued + 1 && q'.h.ids.write == q.h.ids.write[q.h.ids.issued := write];
    assert q'.st.newHeld == q.st.newHeld ||
           q'.st.newHeld == q.st.newHeld + [Held(Entry(q.st.nextSeq, write, q.h.ids.issued), follow)];
    hide HandedOver;
    forall i | 0 <= i < |q'.st.fifo| ensures Linked(q'.h, finish', q'.st.fifo[i].end) {
      assert Linked(q.h, finish, q.st.fifo[i].end);
      InLine(q, i);
    }
  }

  lemma InLine(q: Queue, i: nat)
    requires Good(q) && i < |q.st.fifo|
    ensures q.st.fifo[i].end < q.h.ids.issued
  {
    hide Conserved, Numbers, Shape, QueueOutcomes.Outcomes, QueueOrder.Order, Tables, LoadOf;
    FifoInLoad(q, i);
    Located(q, q.st.fifo[i]);
  }

  lemma ReleaseFollows(q: Queue, q': Queue, n: nat, gate: Gate, finish: map<EndId, Option<Write>>)
    requires Follows(q, finish) && Numbers(q) && n in q.held && Released(q, q', n, gate)
    ensures Follows(q', finish)
  {
    UnusedEnd(q);
    hide Numbers;
    assert HeldWith(q.held[n], finish);
    var e := q.held[n].entry;
    forall i | 0 <= i < |q'.st.fifo| ensures Linked(q'.h, finish, q'.st.fifo[i].end) {
      if i < |q.st.fifo| {
        assert q'.st.fifo[i] == q.st.fifo[i];
        assert Linked(q.h, finish, q.st.fifo[i].end);
      }
    }
  }

  lemma TaskFollows(q: Queue, q': Queue, finish: map<EndId, Option<Write>>)
    requires Follows(q, finish) && Fewer(q, q')
    ensures Follows(q', finish)
  {
    hide Linked, HeldWith;
    forall n | n in q'.held ensures HeldWith(q'.held[n], finish) {
      if !(n in q.held && q'.held[n] == q.held[n]) {
        var i :| 0 <= i < |q.st.newHeld| && q.st.newHeld[i] == q'.held[n];
      }
    }
    forall i | 0 <= i < |q'.st.fifo| ensures Linked(q'.h, finish, q'.st.fifo[i].end) {
      var was := if q'.st.fifo == q.st.fifo then i else i + 1;
      assert Linked(q.h, finish, q.st.fifo[was].end);
      SameLink(q.h, q'.h, finish, q.st.fifo[was].end);
    }
  }

  lemma SameLink(h: History, h': History, finish: map<EndId, Option<Write>>, end: EndId)
    requires Linked(h, finish, end) && h'.follow == h.follow && h'.ids == h.ids
    ensures Linked(h', finish, end)
  {
  }

  ghost predicate UnchangedForFollows(q: Queue, q': Queue) {
    && q'.h.follow == q.h.follow && q'.h.ids == q.h.ids
    && q'.held == q.held && q'.st.newHeld == q.st.newHeld && q'.st.fifo == q.st.fifo
  }

  lemma OtherEffect(q: Queue, step: QueueMachine.Step)
    requires QueueMachine.Enabled(q, step) && !step.HandOver? && !step.HoldBack? && !step.GateEnds? && !TaskKind(step)
    ensures UnchangedForFollows(q, QueueMachine.Apply(q, step))
  {
    hide QueueMachine.Apply, Keep;
    if Quiet(step) {
      QuietEffect(q, step);
    } else if Ending(step) {
      EndingEffect(q, step);
    } else {
      UnqueuedEffect(q, step);
    }
  }

  lemma SameFollows(q: Queue, q': Queue, finish: map<EndId, Option<Write>>)
    requires Follows(q, finish) && UnchangedForFollows(q, q')
    ensures Follows(q', finish)
  {}

  lemma StepFollows(q: Queue, step: QueueMachine.Step, finish: map<EndId, Option<Write>>)
    requires Follows(q, finish) && Good(q) && QueueMachine.Enabled(q, step) && !MakesMarker(step)
    ensures Follows(QueueMachine.Apply(q, step), finish)
  {
    hide QueueMachine.Apply, Blocked, Absorb, Conserved, Shape, QueueOutcomes.Outcomes, QueueOrder.Order, Tables,
        Numbers,
         Follows, UnchangedForFollows;
    var q' := QueueMachine.Apply(q, step);
    if step.HandOver? {
      HandOverEffect(q, step);
      HandOverFollows(q, q', step, finish);
    } else if step.GateEnds? {
      GateEndsEffect(q, step.seqNo, step.gate);
      ReleaseFollows(q, q', step.seqNo, step.gate, finish);
    } else if TaskKind(step) {
      TaskEffect(q, step);
      TaskFewer(q, q', step);
      TaskFollows(q, q', finish);
    } else {
      OtherEffect(q, step);
      SameFollows(q, q', finish);
    }
  }

  lemma NoNewMarker(q: Queue, step: QueueMachine.Step, finish: map<EndId, Option<Write>>)
    requires Follows(q, finish) && QueueMachine.Enabled(q, step) && !MakesMarker(step)
    ensures NewWriteOf(q, step).Some? ==> MarkOf(NewWriteOf(q, step).value).None?
  {
    if step.GateEnds? {
      assert HeldWith(q.held[step.seqNo], finish);
    }
  }

  lemma MarksKept(d: Desk, q': Queue)
    requires OneMarker(d.q.h.ids.write) && MarksKnown(d)
    requires forall e | e in d.q.h.ids.write :: e in q'.h.ids.write && q'.h.ids.write[e] == d.q.h.ids.write[e]
    requires forall e | e in q'.h.ids.write && e !in d.q.h.ids.write :: MarkOf(q'.h.ids.write[e]).None?
    ensures OneMarker(q'.h.ids.write) && MarksKnown(d.(q := q'))
  {}

  lemma NoMarkerStored(q: Queue, step: QueueMachine.Step)
    requires OnlyStored(q) && Good(q) && QueueMachine.Enabled(q, step) && !MakesMarker(step)
    ensures OnlyStored(QueueMachine.Apply(q, step))
  {
    hide QueueMachine.Apply, Good, OnlyStored, QueueMachine.Enabled;
    StoredStep(q, step);
  }

  lemma QueueStepKeeps(d: Desk, step: QueueMachine.Step)
    requires DeskInv(d) && DeskEnabled(d, QueueStep(step))
    ensures DeskInv(d.(q := QueueMachine.Apply(d.q, step)))
  {
    hide QueueMachine.Apply, QueueMachine.Enabled, Good, Follows, OnlyStored, OneMarker, MarksKnown, MakesMarker,
        MarkOf,
         NewWriteOf;
    var q' := QueueMachine.Apply(d.q, step);
    GoodStep(d.q, step);
    StepRemembers(d.q, step);
    StepFollows(d.q, step, d.finish);
    assert OnlyStored(q') by { NoMarkerStored(d.q, step); }
    NoNewMarker(d.q, step, d.finish);
    NewWriteEffect(d.q, step);
    MarksKept(d, q');
  }

  // ----- steps of the marking

  lemma MarkerAdded(d: Desk, id: nat, q': Queue)
    requires OneMarker(d.q.h.ids.write) && MarksKnown(d) && id in d.markings
    requires d.q.h.ids.issued !in d.q.h.ids.write
    requires q'.h.ids.write == d.q.h.ids.write[d.q.h.ids.issued := MarkerOf(d.markings[id])]
    ensures OneMarker(q'.h.ids.write)
    ensures MarksKnown(d.(q := q', markings := d.markings - {id}))
  {
    assert MarkOf(MarkerOf(d.markings[id])) == Some(WonBy(d.markings[id]));
  }

  lemma HoldKeeps(d: Desk, id: nat)
    requires DeskInv(d) && DeskEnabled(d, HoldMarker(id))
    ensures DeskInv(DeskApply(d, HoldMarker(id)))
  {
    hide QueueMachine.Apply, Good, Follows, OnlyStored, OneMarker, MarksKnown, Blocked;
    var m := d.markings[id];
    var step := HoldBack(MarkerOf(m), FinishOf(m.entry));
    var q' := QueueMachine.Apply(d.q, step);
    GoodStep(d.q, step);
    StoredStep(d.q, step);
    HandOverEffect(d.q, step);
    HoldFollows(d.q, q', MarkerOf(m), FinishOf(m.entry), d.finish);
    assert d.q.h.ids.issued !in d.q.h.ids.write by { FreshEnd(d.q); }
    MarkerAdded(d, id, q');
    MarksOnlySee(d.(q := q', markings := d.markings - {id}), DeskApply(d, HoldMarker(id)));
  }

  lemma FreshEnd(q: Queue)
    requires Good(q)
    ensures q.h.ids.issued !in q.h.ids.write && q.h.ids.issued !in q.h.ids.direct
  {
    hide Conserved, Shape, QueueOutcomes.Outcomes, QueueOrder.Order, Tables;
    UnusedEnd(q);
  }

  lemma MarksOnlySee(c: Desk, d: Desk)
    requires MarksKnown(c) && c.q == d.q && c.marked == d.marked && c.markings == d.markings
    ensures MarksKnown(d)
  {}

  lemma DeskStepKeeps(d: Desk, step: DeskStep)
    requires DeskInv(d) && DeskEnabled(d, step)
    ensures DeskInv(DeskApply(d, step))
  {
    hide QueueMachine.Apply, QueueMachine.Enabled, Good, Follows, OnlyStored, OneMarker, MarksKnown, WonBy;
    match step
    case QueueStep(s) => QueueStepKeeps(d, s);
    case HoldMarker(id) => HoldKeeps(d, id);
    case MarkItem(id) => MarkKeeps(d, id);
    case _ => MarksOnlySee(d, DeskApply(d, step));
  }

  /** The call that wins the mark is the first one to speak of its item. */
  lemma MarkKeeps(d: Desk, id: nat)
    requires MarksKnown(d) && DeskEnabled(d, DeskStep.MarkItem(id))
    ensures MarksKnown(DeskApply(d, DeskStep.MarkItem(id)))
  {
    hide QueueMachine.Apply, QueueMachine.Enabled, MarksKnown, WonBy;
    var m := d.found[id];
    if WonBy(m) !in d.marked && d.hasInbox {
      MarkWon(d, DeskApply(d, DeskStep.MarkItem(id)), id, m);
    } else {
      MarkLost(d, DeskApply(d, DeskStep.MarkItem(id)));
    }
  }

  lemma MarkWon(c: Desk, d: Desk, id: nat, m: Marking)
    requires MarksKnown(c) && WonBy(m) !in c.marked && id !in c.markings
    requires d.q == c.q && d.marked == c.marked + {WonBy(m)} && d.markings == c.markings[id := m]
    ensures MarksKnown(d)
  {
    hide MarkOf, WonBy;
  }

  lemma MarkLost(c: Desk, d: Desk)
    requires MarksKnown(c) && d.q == c.q && c.marked <= d.marked && d.markings == c.markings
    ensures MarksKnown(d)
  {}

  lemma {:induction false} DeskRunKeeps(states: seq<Desk>, steps: seq<DeskStep>, i: nat)
    requires IsDeskRun(states, steps) && i < |states|
    ensures DeskInv(states[i])
  {
    hide DeskEnabled, DeskApply, Good;
    if i == 0 {
      StartGood();
    } else {
      DeskRunKeeps(states, steps, i - 1);
      hide DeskInv;
      DeskStepKeeps(states[i - 1], steps[i - 1]);
    }
  }

  // ===== the theorems =====

  /** For each agent and item at most one read marker is ever handed to the queue. */
  lemma AtMostOneMarker(states: seq<Desk>, steps: seq<DeskStep>, i: nat, c: EndId, d: EndId)
    requires IsDeskRun(states, steps) && i < |states|
    requires c in states[i].q.h.ids.write && d in states[i].q.h.ids.write
    requires states[i].q.h.ids.write[c].Marker? && states[i].q.h.ids.write[d].Marker?
    requires states[i].q.h.ids.write[c].agentId == states[i].q.h.ids.write[d].agentId
    requires states[i].q.h.ids.write[c].itemId == states[i].q.h.ids.write[d].itemId
    ensures c == d
  {
    hide DeskEnabled, DeskApply, Good, Follows;
    DeskRunKeeps(states, steps, i);
  }

  // ----- a mark that was won leads to a marker

  ghost predicate HasMarker(d: Desk, mark: (Uuid, Uuid)) {
    || (exists i :: i in d.markings && WonBy(d.markings[i]) == mark)
    || (exists e :: e in d.q.h.ids.write && MarkOf(d.q.h.ids.write[e]) == Some(mark))
  }

  ghost predicate AllMarked(d: Desk) {
    d.hasInbox ==> forall mark | mark in d.marked :: HasMarker(d, mark)
  }

  lemma MarkedStep(d: Desk, step: DeskStep)
    requires DeskInv(d) && AllMarked(d) && DeskEnabled(d, step)
    ensures AllMarked(DeskApply(d, step)) && DeskApply(d, step).hasInbox == d.hasInbox
  {
    hide QueueMachine.Apply, QueueMachine.Enabled, Good, Follows, OnlyStored, OneMarker, MarksKnown, Blocked, HasMarker;
    DeskStepRemembers(d, step);
    var d' := DeskApply(d, step);
    if d.hasInbox {
      forall mark | mark in d'.marked ensures HasMarker(d', mark) {
        match step
        case MarkItem(id) =>
          if mark in d.marked {
            MarkerKept(d, d', mark);
          } else {
            NewMarking(d', id, mark);
          }
        case HoldMarker(id) =>
          if mark == WonBy(d.markings[id]) {
            HeldMarker(d, id);
          } else {
            MarkerStays(d, d', id, mark);
          }
        case _ => MarkerKept(d, d', mark);
      }
    }
  }

  lemma NewMarking(d: Desk, id: nat, mark: (Uuid, Uuid))
    requires id in d.markings && WonBy(d.markings[id]) == mark
    ensures HasMarker(d, mark)
  {}

  lemma MarkerKept(d: Desk, d': Desk, mark: (Uuid, Uuid))
    requires HasMarker(d, mark) && Remembers(d.q.h, d'.q.h)
    requires forall i | i in d.markings :: i in d'.markings && d'.markings[i] == d.markings[i]
    ensures HasMarker(d', mark)
  {}

  lemma MarkerStays(d: Desk, d': Desk, id: nat, mark: (Uuid, Uuid))
    requires HasMarker(d, mark) && Remembers(d.q.h, d'.q.h) && d'.markings == d.markings - {id}
    requires id in d.markings && WonBy(d.markings[id]) != mark
    ensures HasMarker(d', mark)
  {
    if i :| i in d.markings && WonBy(d.markings[i]) == mark {
      assert i in d'.markings && WonBy(d'.markings[i]) == mark;
    }
  }

  lemma HeldMarker(d: Desk, id: nat)
    requires DeskEnabled(d, HoldMarker(id))
    ensures HasMarker(DeskApply(d, HoldMarker(id)), WonBy(d.markings[id]))
  {
    hide QueueMachine.Apply, Blocked;
    var m := d.markings[id];
    HoldIsEnabled(d, id);
    HandOverEffect(d.q, HoldBack(MarkerOf(m), FinishOf(m.entry)));
    var d' := DeskApply(d, HoldMarker(id));
    assert d.q.h.ids.issued in d'.q.h.ids.write && MarkOf(d'.q.h.ids.write[d.q.h.ids.issued]) == Some(WonBy(m));
  }

  /** With an inbox, every item that was marked has its marker, handed over or about to be. */
  lemma {:induction false} MarkedHasItsMarker(states: seq<Desk>, steps: seq<DeskStep>, i: nat)
    requires IsDeskRun(states, steps) && i < |states|
    ensures AllMarked(states[i])
  {
    if i == 0 {
      hide DeskEnabled, DeskApply, DeskInv;
      assert states[0].marked == {};
    } else {
      hide DeskEnabled, DeskApply, DeskInv, AllMarked;
      MarkedHasItsMarker(states, steps, i - 1);
      DeskRunKeeps(states, steps, i - 1);
      MarkedStep(states[i - 1], steps[i - 1]);
      assert states[i] == DeskApply(states[i - 1], steps[i - 1]);
    }
  }

  lemma FindFinds(d: Desk, id: nat, agent: Uuid, entryId: Uuid)
    requires DeskEnabled(d, FindEntry(id, agent, entryId)) && (agent, entryId) in d.listed
    ensures var d' := DeskApply(d, FindEntry(id, agent, entryId));
            id in d'.found && d'.found[id] == Marking(agent, entryId, d.listed[(agent, entryId)])
  {}

  /** A call that found its entry in the listing marks the item of it; so a read entry that was listed is marked. */
  lemma FoundIsMarked(states: seq<Desk>, steps: seq<DeskStep>, k: nat, j: nat, id: nat, agent: Uuid, entryId: Uuid)
    requires IsDeskRun(states, steps) && k < j < |steps|
    requires steps[k] == FindEntry(id, agent, entryId) && (agent, entryId) in states[k].listed
    requires steps[j] == DeskStep.MarkItem(id) && forall n | k < n < j :: steps[n] != DeskStep.MarkItem(id)
    ensures (agent, states[k].listed[(agent, entryId)].itemId) in states[j + 1].marked
  {
    hide DeskApply, DeskEnabled;
    FindFinds(states[k], id, agent, entryId);
    FoundStays(states, steps, k + 1, j, id);
    MarksIt(states[j], id);
  }

  lemma MarksIt(d: Desk, id: nat)
    requires DeskEnabled(d, DeskStep.MarkItem(id))
    ensures WonBy(d.found[id]) in DeskApply(d, DeskStep.MarkItem(id)).marked
  {}

  lemma {:induction false} FoundStays(states: seq<Desk>, steps: seq<DeskStep>, i: nat, j: nat, id: nat)
    requires IsDeskRun(states, steps) && i <= j < |states| && id in states[i].found
    requires forall n | i <= n < j :: steps[n] != DeskStep.MarkItem(id)
    ensures id in states[j].found && states[j].found[id] == states[i].found[id]
  {
    if i < j {
      hide DeskApply, DeskEnabled;
      FoundStays(states, steps, i, j - 1, id);
      FoundKept(states[j - 1], steps[j - 1], id);
    }
  }

  lemma FoundKept(d: Desk, step: DeskStep, id: nat)
    requires DeskEnabled(d, step) && id in d.found && step != DeskStep.MarkItem(id)
    ensures var d' := DeskApply(d, step); id in d'.found && d'.found[id] == d.found[id]
  {
    hide QueueMachine.Apply, QueueMachine.Enabled;
  }

  /**
   When the marker of a completed call is attempted, the finish it was held with has ended,
   attempted or removed.
   */
  lemma FinishEndsBeforeItsMarker(states: seq<Desk>, steps: seq<DeskStep>, i: nat)
    requires IsDeskRun(states, steps) && i < |steps|
    requires steps[i].QueueStep? && StartsAttempt(states[i].q, steps[i].step)
    ensures var end := states[i].q.st.fifo[0].end;
            end in states[i].finish && states[i].finish[end].Some? ==>
              && end in states[i].q.h.follow
              && var f := states[i].q.h.follow[end];
                 && f in states[i].q.h.ids.write && states[i].q.h.ids.write[f] == states[i].finish[end].value
                 && f in states[i].q.h.results
  {
    hide DeskEnabled, DeskApply, QueueMachine.Apply, Inv, QueueOutcomes.Outcomes, QueueOrder.Order, Table, StartedFirst,
         Drains, Woken, Blocked;
    DeskRunKeeps(states, steps, i);
    var q := states[i].q;
    var end := q.st.fifo[0].end;
    assert Linked(q.h, states[i].finish, end);
    if end in states[i].finish && states[i].finish[end].Some? {
      QueueOrder.AttemptInOrder(q, steps[i].step);
      assert q.h.follow[end] in q.h.results;
    }
  }

  /** A marker is attempted only after the gate of its entry said stored. */
  lemma MarkerOnlyAfterStored(states: seq<Desk>, steps: seq<DeskStep>, i: nat, e: EndId)
    requires IsDeskRun(states, steps) && i < |states| && e in states[i].q.h.attempted
    requires e in states[i].q.h.ids.write && states[i].q.h.ids.write[e].Marker?
    ensures e in states[i].q.h.gate && states[i].q.h.gate[e].Stored?
  {
    hide DeskEnabled, DeskApply, Inv, QueueOutcomes.Outcomes, QueueOrder.Order, Table, StartedFirst, Drains, Woken,
         Follows, OneMarker, MarksKnown;
    DeskRunKeeps(states, steps, i);
    assert Allowed(states[i].q.h, e);
  }

  lemma {:induction false} DeskRemembers(states: seq<Desk>, steps: seq<DeskStep>, i: nat, j: nat)
    requires IsDeskRun(states, steps) && i <= j < |states|
    ensures Remembers(states[i].q.h, states[j].q.h)
  {
    hide DeskInv, Good, DeskEnabled, DeskApply;
    if i < j {
      DeskRemembers(states, steps, i, j - 1);
      DeskRunKeeps(states, steps, j - 1);
      DeskStepRemembers(states[j - 1], steps[j - 1]);
    }
  }

  lemma DeskStepRemembers(d: Desk, step: DeskStep)
    requires DeskInv(d) && DeskEnabled(d, step)
    ensures Remembers(d.q.h, DeskApply(d, step).q.h)
  {
    hide QueueMachine.Apply, Good, Follows, OnlyStored, OneMarker, MarksKnown;
    match step
    case QueueStep(s) => StepRemembers(d.q, s);
    case HoldMarker(id) =>
      var m := d.markings[id];
      StepRemembers(d.q, HoldBack(MarkerOf(m), FinishOf(m.entry)));
    case _ =>
  }

  /** After a gate that said dropped, neither the marker nor its finish is ever sent. */
  lemma DroppedGateSendsNeither(states: seq<Desk>, steps: seq<DeskStep>, i: nat, j: nat, e: EndId)
    requires IsDeskRun(states, steps) && i <= j < |states|
    requires e in states[i].q.h.ids.write && states[i].q.h.ids.write[e].Marker?
    requires e in states[i].q.h.gate && states[i].q.h.gate[e].Dropped?
    ensures e !in states[j].q.h.attempted && e !in states[j].q.h.follow
  {
    hide DeskEnabled, DeskApply, Good, Follows, OneMarker, MarksKnown;
    DeskRemembers(states, steps, i, j);
    DeskRunKeeps(states, steps, j);
    if e in states[j].q.h.attempted {
      MarkerOnlyAfterStored(states, steps, j, e);
      assert false;
    }
  }

  /** A marker that was held was held with the finish of its entry. */
  lemma HeldWithItsFinish(states: seq<Desk>, steps: seq<DeskStep>, i: nat, id: nat)
    requires IsDeskRun(states, steps) && i < |steps| && steps[i] == HoldMarker(id)
    ensures var m := states[i].markings[id];
            var end := states[i].q.h.ids.issued;
            && end in states[i + 1].finish
            && states[i + 1].finish[end] == (if m.entry.kind.RunCompletedNotice? && m.entry.childJobId.Some?
                                             then Some(Finish(m.entry.childJobId.value, m.entry.itemId)) else None)
            && end in states[i + 1].q.h.ids.write
            && states[i + 1].q.h.ids.write[end] == Marker(m.entry.itemId, m.agent, m.entryId)
            && end !in states[i + 1].q.h.ids.direct
  {
    hide QueueMachine.Apply, Blocked, Good, Follows, OneMarker;
    var m := states[i].markings[id];
    HandOverEffect(states[i].q, HoldBack(MarkerOf(m), FinishOf(m.entry)));
    DeskRunKeeps(states, steps, i);
    FreshEnd(states[i].q);
  }

  lemma {:induction false} FinishKept(states: seq<Desk>, steps: seq<DeskStep>, i: nat, j: nat, end: EndId)
    requires IsDeskRun(states, steps) && i <= j < |states| && end in states[i].finish
    ensures end in states[j].finish && states[j].finish[end] == states[i].finish[end]
  {
    hide DeskEnabled, DeskApply, DeskInv;
    if i < j {
      FinishKept(states, steps, i, j - 1, end);
      DeskRunKeeps(states, steps, j - 1);
      FinishStays(states[j - 1], steps[j - 1], end);
    }
  }

  lemma FinishStays(d: Desk, step: DeskStep, end: EndId)
    requires DeskInv(d) && DeskEnabled(d, step) && end in d.finish
    ensures var d' := DeskApply(d, step); end in d'.finish && d'.finish[end] == d.finish[end]
  {
    hide QueueMachine.Apply, QueueMachine.Enabled, Good, OnlyStored, OneMarker, MarksKnown;
  }

  /**
   When the marker of the notice that a call completed is attempted, the finish of that call, under
   the id of the notice, has been queued in front of it and has ended.
   */
  lemma CompletedCallIsFinishedFirst(states: seq<Desk>, steps: seq<DeskStep>, k: nat, i: nat, id: nat)
    requires IsDeskRun(states, steps) && k < i < |steps| && steps[k] == HoldMarker(id)
    requires steps[i].QueueStep? && StartsAttempt(states[i].q, steps[i].step)
    requires states[i].q.st.fifo[0].end == states[k].q.h.ids.issued
    requires var m := states[k].markings[id]; m.entry.kind.RunCompletedNotice? && m.entry.childJobId.Some?
    ensures var m, q := states[k].markings[id], states[i].q;
            && q.st.fifo[0].end in q.h.follow
            && var f := q.h.follow[q.st.fifo[0].end];
               && f in q.h.ids.write && q.h.ids.write[f] == Finish(m.entry.childJobId.value, m.entry.itemId)
               && f in q.h.results
  {
    HeldWithItsFinish(states, steps, k, id);
    hide DeskEnabled, DeskApply, Blocked;
    FinishKept(states, steps, k + 1, i, states[k].q.h.ids.issued);
    FinishEndsBeforeItsMarker(states, steps, i);
  }

  /**
   When the finish that was held with a marker is attempted, every create of its child whose
   hand-over had returned when the marker was held has ended, and the last end recorded for that
   child's create is a delivery.
   */
  lemma HeldFinishNeedsItsCreate(states: seq<Desk>, steps: seq<DeskStep>, k: nat, i: nat, id: nat, d: EndId)
    requires IsDeskRun(states, steps) && k < i < |steps| && steps[k] == HoldMarker(id)
    requires steps[i].QueueStep? && StartsAttempt(states[i].q, steps[i].step)
    requires var end := states[k].q.h.ids.issued;
             end in states[i].q.h.follow && states[i].q.h.follow[end] == states[i].q.st.fifo[0].end
    requires states[i].q.st.fifo[0].write.Finish?
    requires d in states[k].q.h.ids.write && d !in states[k].q.calls && states[k].q.h.ids.write[d].Create?
    requires states[k].q.h.ids.write[d].jobId == states[i].q.st.fifo[0].write.jobId
    ensures d in states[i].q.h.results
    ensures var key := CreateKey(states[i].q.st.fifo[0].write.jobId);
            key in states[i].q.st.ended && states[i].q.st.ended[key].WasDelivered?
  {
    hide DeskEnabled, DeskApply, DeskInv, Good, Blocked, QueueMachine.Apply, Returned;
    var head := states[i].q.st.fifo[0];
    HeldPrior(states, steps, k, i, id);
    DeskRunKeeps(states, steps, k);
    DeskRunKeeps(states, steps, i);
    DeskRemembers(states, steps, k, i);
    assert Good(states[k].q) && Good(states[i].q) by { DeskIsGood(states[k]); DeskIsGood(states[i]); }
    KeyedIsReturned(states[k].q, d);
    BehindTheHeld(states[i].q, states[k].q.h.ids.issued, d);
    assert DependsOn(head.write)[1] == CreateKey(head.write.jobId);
    DependencyDelivered(states[i].q, steps[i].step, d, CreateKey(head.write.jobId));
  }

  lemma DeskIsGood(d: Desk)
    requires DeskInv(d)
    ensures Good(d.q)
  {}

  /** What had returned when a marker was held must not be overtaken by it ever after. */
  lemma HeldPrior(states: seq<Desk>, steps: seq<DeskStep>, k: nat, i: nat, id: nat)
    requires IsDeskRun(states, steps) && k < i < |states| && steps[k] == HoldMarker(id)
    ensures Returned(states[k].q) <= Prior(states[i].q.h, states[k].q.h.ids.issued)
  {
    hide QueueMachine.Apply, Good, Blocked, MarkerOf, FinishOf;
    var m := states[k].markings[id];
    var step := HoldBack(MarkerOf(m), FinishOf(m.entry));
    HoldIsEnabled(states[k], id);
    HandOverEffect(states[k].q, step);
    DeskRemembers(states, steps, k + 1, i);
  }

  lemma HoldIsEnabled(d: Desk, id: nat)
    requires DeskEnabled(d, HoldMarker(id))
    ensures QueueMachine.Enabled(d.q, HoldBack(MarkerOf(d.markings[id]), FinishOf(d.markings[id].entry)))
  {}

  lemma KeyedIsReturned(q: Queue, d: EndId)
    requires Good(q) && d in q.h.ids.write && d !in q.calls && OwnKey(q.h.ids.write[d]).Some?
    ensures d in Returned(q) && d in q.h.ids.direct
  {
    hide Inv, QueueOutcomes.Outcomes, QueueOrder.Order, Tables, OwnKey;
  }

  lemma BehindTheHeld(q: Queue, end: EndId, d: EndId)
    requires Good(q) && end in q.h.follow && d in Prior(q.h, end) && d in q.h.ids.direct
    ensures d in Prior(q.h, q.h.follow[end])
  {
    hide Inv, QueueOutcomes.Outcomes, QueueOrder.Order, Tables;
    assert QueueFollows.FollowOf(q.h, end);
  }
}
