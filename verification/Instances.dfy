/**
 The lookup of instances: late insertions race with the removal of a run, and lookups
 wait for an instance that is not there yet.
 */
module Instances {
  import opened Wrappers
  import opened Hooks

  type RecordId = nat
  type RunId = nat

  predicate Removed(phase: Phase) {
    phase.Gone? || phase.Aborted?
  }

  function Retained(byId: map<InstanceId, RecordId>, runOf: map<RecordId, RunId>, run: RunId)
    : map<InstanceId, RecordId>
  {
    map id | id in byId && !(byId[id] in runOf && runOf[byId[id]] == run) :: byId[id]
  }

  /** The map of the instances and its generation; each method is one section. */
  class InstanceMap {
    var byId: map<InstanceId, RecordId>
    var version: nat

    constructor ()
      ensures byId == map[] && version == 0
    {
      byId, version := map[], 0;
    }

    /** An instance of a run that was removed is not taken in. */
    method Insert(id: InstanceId, record: RecordId, phase: Phase) returns (held: bool)
      modifies this
      ensures held == !Removed(phase)
      ensures held ==> byId == old(byId)[id := record] && version == old(version) + 1
      ensures !held ==> byId == old(byId) && version == old(version)
    {
      if phase.Gone? || phase.Aborted? {
        return false;
      }
      byId := byId[id := record];
      version := version + 1;
      return true;
    }

    /** Exactly the instances of the run go. */
    method RemoveRun(runOf: map<RecordId, RunId>, run: RunId)
      modifies this`byId
      ensures byId == Retained(old(byId), runOf, run)
      ensures forall id | id in byId :: id in old(byId) && byId[id] == old(byId)[id]
      ensures forall id | id in old(byId) ::
                id in byId <==> !(old(byId)[id] in runOf && runOf[old(byId)[id]] == run)
    {
      byId := map id | id in byId && !(byId[id] in runOf && runOf[byId[id]] == run) :: byId[id];
    }
  }

  datatype Find = Subscribed(seen: nat) | Asleep(seen: nat) | Found(record: RecordId,
      seen: nat) | Answered(record: RecordId) | AnsweredEnded

  /**
   `lock` is the insertion that holds the lock of the map, past its look at the phase; `bumps`
   counts the insertions that are in the map and have not said so. `removed` are the records
   whose removal has returned.
   */
  datatype Lookup = Lookup(
    byId: map<InstanceId, RecordId>,
    version: nat,
    phase: map<RecordId, Phase>,
    runOf: map<RecordId, RunId>,
    lock: Option<(InstanceId, RecordId)>,
    bumps: nat,
    removing: set<RecordId>,
    removed: set<RecordId>,
    finds: map<nat, (InstanceId, Find)>)

  datatype Step =
    | NewRecord(record: RecordId, run: RunId)
    | ExecutorReturns(record: RecordId)
    | CheckInsert(id: InstanceId, record: RecordId)
    | Insert
    | Bump
    | MarkRemoved(record: RecordId, phase: Phase)
    | Retain(record: RecordId)
    | StartFind(find: nat, id: InstanceId)
    | Get(find: nat)
    | LookAtPhase(find: nat)
    | Wake(find: nat)

  const Fresh := Lookup(map[], 0, map[], map[], None, 0, {}, {}, map[])

  predicate Enabled(l: Lookup, step: Step) {
    match step
    case NewRecord(record, _) => record !in l.phase
    // Only the run itself says that its executor returned, and before it is removed.
    case ExecutorReturns(record) => record in l.phase && l.phase[record].Live?
    case CheckInsert(_, record) => l.lock.None? && record in l.phase
    case Insert => l.lock.Some?
    case Bump => l.bumps > 0
    case MarkRemoved(record, phase) => record in l.phase && Removed(phase)
    case Retain(record) => l.lock.None? && record in l.removing
    case StartFind(find, _) => find !in l.finds
    case Get(find) => find in l.finds && l.finds[find].1.Subscribed? && l.lock.None?
    case LookAtPhase(find) => find in l.finds && l.finds[find].1.Found? && l.finds[find].1.record in l.phase
    case Wake(find) => find in l.finds && l.finds[find].1.Asleep? && l.finds[find].1.seen != l.version
  }

  function SetFind(l: Lookup, find: nat, f: Find): Lookup
    requires find in l.finds
  {
    l.(finds := l.finds[find := (l.finds[find].0, f)])
  }

  function Apply(l: Lookup, step: Step): Lookup
    requires Enabled(l, step)
  {
    match step
    case NewRecord(record, run) => l.(phase := l.phase[record := Live], runOf := l.runOf[record := run])
    case ExecutorReturns(record) => l.(phase := l.phase[record := ExecutorReturned])
    case CheckInsert(id, record) => if Removed(l.phase[record]) then l else l.(lock := Some((id, record)))
    case Insert => l.(byId := l.byId[l.lock.value.0 := l.lock.value.1], lock := None, bumps := l.bumps + 1)
    case Bump => l.(version := l.version + 1, bumps := l.bumps - 1)
    case MarkRemoved(record, phase) => l.(phase := l.phase[record := phase], removing := l.removing + {record})
    case Retain(record) =>
      var byId := if record in l.runOf then Retained(l.byId, l.runOf, l.runOf[record]) else l.byId;
      l.(byId := byId, removing := l.removing - {record}, removed := l.removed + {record})
    case StartFind(find, id) => l.(finds := l.finds[find := (id, Subscribed(l.version))])
    case Get(find) =>
      var id := l.finds[find].0;
      var seen := l.finds[find].1.seen;
      SetFind(l, find, if id in l.byId then Found(l.byId[id], seen) else Asleep(seen))
    case LookAtPhase(find) =>
      var record := l.finds[find].1.record;
      SetFind(l, find, if l.phase[record].Live? then Answered(record) else AnsweredEnded)
    case Wake(find) => SetFind(l, find, Subscribed(l.version))
  }

  ghost predicate IsRun(states: seq<Lookup>, steps: seq<Step>) {
    && |states| == |steps| + 1 && states[0] == Fresh
    && forall i | 0 <= i < |steps| :: Enabled(states[i], steps[i]) && states[i + 1] == Apply(states[i], steps[i])
  }

  // ===== what every step keeps =====

  ghost predicate Known(l: Lookup) {
    && (forall r | r in l.phase :: r in l.runOf)
    && (forall r | r in l.removing || r in l.removed :: r in l.phase && Removed(l.phase[r]))
    && (l.lock.Some? ==> l.lock.value.1 in l.phase)
    && (forall id | id in l.byId :: l.byId[id] in l.phase)
  }

  /** A record whose removal returned is mapped nowhere, and no insertion is about to map it. */
  ghost predicate NotMapped(l: Lookup) {
    && (forall id | id in l.byId :: l.byId[id] !in l.removed)
    && (l.lock.Some? ==> l.lock.value.1 !in l.removed)
  }

  ghost predicate FindOk(l: Lookup, id: InstanceId, f: Find) {
    match f
    case Subscribed(seen) => seen <= l.version
    case Asleep(seen) => seen <= l.version && (id in l.byId ==> seen < l.version || l.bumps > 0)
    case Found(record, seen) => record in l.phase
    case _ => true
  }

  ghost predicate Finds(l: Lookup) {
    forall f | f in l.finds :: FindOk(l, l.finds[f].0, l.finds[f].1)
  }

  lemma KnownStep(l: Lookup, step: Step)
    requires Known(l) && Enabled(l, step)
    ensures Known(Apply(l, step))
  {}

  lemma NotMappedStep(l: Lookup, step: Step)
    requires Known(l) && NotMapped(l) && Enabled(l, step)
    ensures NotMapped(Apply(l, step))
  {}

  lemma FindsStep(l: Lookup, step: Step)
    requires Known(l) && Finds(l) && Enabled(l, step)
    ensures Finds(Apply(l, step))
  {
    var l' := Apply(l, step);
    forall f | f in l'.finds ensures FindOk(l', l'.finds[f].0, l'.finds[f].1) {
      if f in l.finds {
        assert FindOk(l, l.finds[f].0, l.finds[f].1);
      }
    }
  }

  lemma {:induction false} RunKeeps(states: seq<Lookup>, steps: seq<Step>, i: nat)
    requires IsRun(states, steps) && i < |states|
    ensures Known(states[i]) && NotMapped(states[i]) && Finds(states[i])
  {
    hide Apply, Enabled;
    if i > 0 {
      RunKeeps(states, steps, i - 1);
      hide Known, NotMapped, Finds;
      KnownStep(states[i - 1], steps[i - 1]);
      NotMappedStep(states[i - 1], steps[i - 1]);
      FindsStep(states[i - 1], steps[i - 1]);
    }
  }

  lemma {:induction false} StaysRemoved(states: seq<Lookup>, steps: seq<Step>, i: nat, j: nat, record: RecordId)
    requires IsRun(states, steps) && i <= j < |states| && record in states[i].removed
    ensures record in states[j].removed
  {
    if i < j {
      StaysRemoved(states, steps, i, j - 1, record);
      assert states[j] == Apply(states[j - 1], steps[j - 1]);
    }
  }

  // ===== the theorems =====

  /** Once the removal of a run has returned, no late insertion ever maps an instance to it again. */
  lemma RemovedForGood(states: seq<Lookup>, steps: seq<Step>, i: nat, j: nat, record: RecordId, id: InstanceId)
    requires IsRun(states, steps) && i < j < |states| && steps[i] == Retain(record)
    ensures id in states[j].byId ==> states[j].byId[id] != record
  {
    assert states[i + 1] == Apply(states[i], steps[i]);
    StaysRemoved(states, steps, i + 1, j, record);
    RunKeeps(states, steps, j);
  }

  /** What one step does to a lookup: nothing, unless the step is its own. */
  lemma FindMoves(l: Lookup, step: Step, find: nat)
    requires Enabled(l, step) && find in Apply(l, step).finds
    ensures var f := Apply(l, step).finds[find];
            || (find in l.finds && f == l.finds[find])
            || (step == Get(find) && (f.1.Found? ==> f.0 in l.byId && l.byId[f.0] == f.1.record) && !f.1.Answered?)
            || (&& step == LookAtPhase(find) && find in l.finds && l.finds[find].1.Found?
                && !f.1.Found? && f.0 == l.finds[find].0
                && (f.1.Answered? ==>
                      f.1.record == l.finds[find].1.record && f.1.record in l.phase && l.phase[f.1.record].Live?))
            || f.1.Subscribed?
  {}

  lemma {:induction false} FoundWasMapped(states: seq<Lookup>, steps: seq<Step>, i: nat, find: nat) returns (g: nat)
    requires IsRun(states, steps) && i < |states| && find in states[i].finds && states[i].finds[find].1.Found?
    ensures g < i && steps[g] == Get(find)
    ensures states[i].finds[find].0 in states[g].byId
    ensures states[g].byId[states[i].finds[find].0] == states[i].finds[find].1.record
  {
    hide Apply, Enabled;
    FindMoves(states[i - 1], steps[i - 1], find);
    if find in states[i - 1].finds && states[i].finds[find] == states[i - 1].finds[find] {
      g := FoundWasMapped(states, steps, i - 1, find);
    } else {
      g := i - 1;
    }
  }

  /**
   A lookup that answered with a record found its instance mapped to it, and after that found the
   record live; so the run was not yet removed when the answer was made.
   */
  lemma {:induction false} AnswerWasLive(states: seq<Lookup>, steps: seq<Step>, j: nat, find: nat)
      returns (g: nat, i: nat)
    requires IsRun(states, steps) && j < |states| && find in states[j].finds && states[j].finds[find].1.Answered?
    ensures g < i < j && steps[g] == Get(find) && steps[i] == LookAtPhase(find)
    ensures var id, record := states[j].finds[find].0, states[j].finds[find].1.record;
            && id in states[g].byId && states[g].byId[id] == record
            && record in states[i].phase && states[i].phase[record].Live? && record !in states[i].removed
  {
    hide Apply, Enabled;
    FindMoves(states[j - 1], steps[j - 1], find);
    if find in states[j - 1].finds && states[j].finds[find] == states[j - 1].finds[find] {
      g, i := AnswerWasLive(states, steps, j - 1, find);
    } else {
      i := j - 1;
      g := FoundWasMapped(states, steps, i, find);
      RunKeeps(states, steps, i);
    }
  }

  /** A look at the phase answers with the record exactly if it is live, else that its run has ended. */
  lemma LookAnswersExactly(l: Lookup, find: nat)
    requires Enabled(l, LookAtPhase(find))
    ensures var before, after := l.finds[find].1, Apply(l, LookAtPhase(find)).finds[find].1;
            && (after == Answered(before.record) <==> l.phase[before.record] == Live)
            && (after == AnsweredEnded <==> l.phase[before.record] != Live)
  {}

  /** A get finds the record its instance is mapped to, or sleeps. */
  lemma GetFindsExactly(l: Lookup, find: nat)
    requires Enabled(l, Get(find))
    ensures var id, after := l.finds[find].0, Apply(l, Get(find)).finds[find].1;
            && (id in l.byId ==> after.Found? && after.record == l.byId[id])
            && (id !in l.byId ==> after.Asleep?)
  {}

  /** An insertion goes on to the map unless its run was removed. */
  lemma CheckedIsInserted(l: Lookup, id: InstanceId, record: RecordId)
    requires Enabled(l, CheckInsert(id, record))
    ensures Apply(l, CheckInsert(id, record)).lock ==
            if l.phase[record] == Gone || l.phase[record] == Aborted then None else Some((id, record))
  {}

  /** An instance that was inserted stays mapped until it is inserted anew or a run of the same id is removed. */
  lemma {:induction false} InsertedStays(states: seq<Lookup>, steps: seq<Step>, k: nat, j: nat)
    requires IsRun(states, steps) && k < j < |states| && steps[k] == Insert && states[k].lock.Some?
    requires forall n | k < n < j :: steps[n] != Insert
    requires forall n | k < n < j && steps[n].Retain? ::
               states[k].lock.value.1 in states[n].runOf && steps[n].record in states[n].runOf &&
               states[n].runOf[steps[n].record] != states[n].runOf[states[k].lock.value.1]
    ensures states[k].lock.value.0 in states[j].byId
    ensures states[j].byId[states[k].lock.value.0] == states[k].lock.value.1
  {
    assert states[j] == Apply(states[j - 1], steps[j - 1]);
    if k + 1 < j {
      InsertedStays(states, steps, k, j - 1);
    }
  }

  /** A lookup that waits for an instance never sleeps on once it is there. */
  lemma NoLookupIsLeftAsleep(states: seq<Lookup>, steps: seq<Step>, i: nat, find: nat)
    requires IsRun(states, steps) && i < |states| && find in states[i].finds && states[i].finds[find].1.Asleep?
    requires states[i].finds[find].0 in states[i].byId
    ensures Enabled(states[i], Wake(find)) || Enabled(states[i], Bump)
  {
    RunKeeps(states, steps, i);
    assert FindOk(states[i], states[i].finds[find].0, states[i].finds[find].1);
  }
}
