/**
 The ends of child Jobs and the waits on them, over an arrival feed that may be lost
 and reopened.
 */
module EndWaits {
  import opened Wrappers
  import opened Writes

  datatype Outcome = Reached(end: string) | Fault(error: Error)

  datatype Held = Held(outcomes: map<Uuid, Outcome>, kept: Option<Error>, last: Option<Error>, generation: nat)

  const FeedEnded := InfraMissing("the arrival feed ended")

  /** The first outcome of a child stands. */
  function Record(held: Held, child: Uuid, outcome: Outcome): Held {
    if child in held.outcomes then held else held.(outcomes := held.outcomes[child := outcome])
  }

  function Missing(held: Held, error: Error): Held {
    held.(generation := held.generation + 1, kept := Some(error), last := Some(error))
  }

  function Decide(held: Held, child: Uuid, since: nat): Option<Outcome> {
    if child in held.outcomes then Some(held.outcomes[child])
    else if held.kept.Some? then Some(Fault(held.kept.value))
    else if held.generation != since then Some(Fault(if held.last.Some? then held.last.value else FeedEnded))
    else None
  }

  class EndStore {
    var outcomes: map<Uuid, Outcome>
    var kept: Option<Error>
    var last: Option<Error>
    var generation: nat
    var version: nat

    ghost function Value(): Held
      reads this
    {
      Held(outcomes, kept, last, generation)
    }

    constructor ()
      ensures Value() == Held(map[], None, None, 0) && version == 0
    {
      outcomes, kept, last, generation, version := map[], None, None, 0, 0;
    }

    method RecordEnd(child: Uuid, outcome: Outcome)
      modifies this`outcomes, this`version
      ensures Value() == Record(old(Value()), child, outcome)
      ensures version == old(version) + (if child in old(outcomes) then 0 else 1)
    {
      if child !in outcomes {
        outcomes := outcomes[child := outcome];
        version := version + 1;
      }
    }

    method InfraIsMissing(error: Error)
      modifies this`kept, this`last, this`generation, this`version
      ensures Value() == Missing(old(Value()), error) && version == old(version) + 1
    {
      generation := generation + 1;
      kept := Some(error);
      last := Some(error);
      version := version + 1;
    }

    method Reopened()
      modifies this`kept
      ensures Value() == old(Value()).(kept := None)
    {
      kept := None;
    }

    method DecideNow(child: Uuid, since: nat) returns (decided: Option<Outcome>)
      ensures decided == Decide(Value(), child, since)
    {
      if child in outcomes {
        return Some(outcomes[child]);
      }
      if kept.Some? {
        return Some(Fault(kept.value));
      }
      if generation != since {
        return Some(Fault(if last.Some? then last.value else FeedEnded));
      }
      return None;
    }
  }

  // ===== the store and its waits, every section and every signal a step =====

  datatype Phase = Looking | Asleep | Decided(outcome: Outcome)

  datatype Wait = Wait(child: Uuid, since: nat, seen: nat, phase: Phase)

  /** `signals` counts the callers that changed the store and have not signalled yet. */
  datatype Store = Store(held: Held, version: nat, signals: nat, dropped: bool, waits: map<nat, Wait>)

  datatype Step =
    | RecordStep(child: Uuid, outcome: Outcome)
    | MissingStep(error: Error)
    | ReopenStep
    | Signal
    | DropStore
    | Open(id: nat, child: Uuid)
    | Look(id: nat)
    | Wake(id: nat)

  const Fresh := Store(Held(map[], None, None, 0), 0, 0, false, map[])

  predicate Enabled(s: Store, step: Step) {
    match step
    case RecordStep(_, _) => !s.dropped
    case MissingStep(_) => !s.dropped
    case ReopenStep => !s.dropped
    case Signal => s.signals > 0
    // Whoever is about to signal still holds the store.
    case DropStore => s.signals == 0
    case Open(id, _) => id !in s.waits && !s.dropped
    case Look(id) => id in s.waits && s.waits[id].phase.Looking?
    case Wake(id) => id in s.waits && s.waits[id].phase.Asleep? && (s.waits[id].seen != s.version || s.dropped)
  }

  /** What a look of a wait finds: the store may be gone. */
  function Seen(s: Store, w: Wait): Option<Outcome> {
    if s.dropped then Some(Fault(BookDropped)) else Decide(s.held, w.child, w.since)
  }

  function Apply(s: Store, step: Step): Store
    requires Enabled(s, step)
  {
    match step
    case RecordStep(child, outcome) =>
      s.(held := Record(s.held, child, outcome), signals := s.signals + (if child in s.held.outcomes then 0 else 1))
    case MissingStep(error) => s.(held := Missing(s.held, error), signals := s.signals + 1)
    case ReopenStep => s.(held := s.held.(kept := None))
    case Signal => s.(version := s.version + 1, signals := s.signals - 1)
    case DropStore => s.(dropped := true)
    case Open(id, child) => s.(waits := s.waits[id := Wait(child, s.held.generation, s.version, Looking)])
    case Look(id) =>
      var found := Seen(s, s.waits[id]);
      s.(waits := s.waits[id := s.waits[id].(phase := if found.Some? then Decided(found.value) else Asleep)])
    case Wake(id) =>
      var again := if s.dropped then Decided(Fault(BookDropped)) else Looking;
      s.(waits := s.waits[id := s.waits[id].(phase := again, seen := s.version)])
  }

  ghost predicate IsRun(states: seq<Store>, steps: seq<Step>) {
    && |states| == |steps| + 1 && states[0] == Fresh
    && forall i | 0 <= i < |steps| :: Enabled(states[i], steps[i]) && states[i + 1] == Apply(states[i], steps[i])
  }

  // ===== what every step keeps =====

  ghost predicate WaitOk(s: Store, w: Wait) {
    && w.since <= s.held.generation && w.seen <= s.version
    && (w.phase.Asleep? && Decide(s.held, w.child, w.since).Some? ==> w.seen < s.version || s.signals > 0)
  }

  ghost predicate Inv(s: Store) {
    && (s.held.generation > 0 ==> s.held.last.Some?)
    && (s.held.kept.Some? ==> s.held.last == s.held.kept)
    && forall id | id in s.waits :: WaitOk(s, s.waits[id])
  }

  lemma StepKeeps(s: Store, step: Step)
    requires Inv(s) && Enabled(s, step)
    ensures Inv(Apply(s, step))
  {
    var s' := Apply(s, step);
    forall id | id in s'.waits ensures WaitOk(s', s'.waits[id]) {
      if id in s.waits {
        assert WaitOk(s, s.waits[id]);
      }
    }
  }

  lemma {:induction false} RunKeeps(states: seq<Store>, steps: seq<Step>, i: nat)
    requires IsRun(states, steps) && i < |states|
    ensures Inv(states[i])
  {
    hide Apply, Enabled;
    if i > 0 {
      RunKeeps(states, steps, i - 1);
      hide Inv;
      StepKeeps(states[i - 1], steps[i - 1]);
    }
  }

  /** Outcomes, generations and what a wait opened with never go back. */
  ghost predicate Grows(s: Store, s': Store) {
    && (forall c | c in s.held.outcomes :: c in s'.held.outcomes && s'.held.outcomes[c] == s.held.outcomes[c])
    && s.held.generation <= s'.held.generation
    && (forall id | id in s.waits ::
          id in s'.waits && s'.waits[id].child == s.waits[id].child && s'.waits[id].since == s.waits[id].since)
  }

  lemma StepGrows(s: Store, step: Step)
    requires Enabled(s, step)
    ensures Grows(s, Apply(s, step))
  {}

  lemma {:induction false} RunGrows(states: seq<Store>, steps: seq<Step>, i: nat, j: nat)
    requires IsRun(states, steps) && i <= j < |states|
    ensures Grows(states[i], states[j])
  {
    hide Apply, Enabled;
    if i < j {
      RunGrows(states, steps, i, j - 1);
      StepGrows(states[j - 1], steps[j - 1]);
    }
  }

  // ===== the theorems =====

  /**
   Once an outcome is recorded for a child, every wait on it that looks later is given that first
   outcome, or is told that the book is gone when it is.
   */
  lemma FirstOutcomeStands(states: seq<Store>, steps: seq<Step>, i: nat, j: nat, id: nat)
    requires IsRun(states, steps) && i <= j < |steps| && steps[j] == Look(id)
    requires id in states[j].waits && states[j].waits[id].child in states[i].held.outcomes
    ensures states[j + 1].waits[id].phase ==
            Decided(if states[j].dropped then Fault(BookDropped)
                else states[i].held.outcomes[states[j].waits[id].child])
  {
    RunGrows(states, steps, i, j);
  }

  /**
   A wait that was open when the feed was declared missing is decided by its next look, even if
   the feed was opened again before it.
   */
  lemma OpenWaitLearnsOfLoss(states: seq<Store>, steps: seq<Step>, i: nat, j: nat, id: nat)
    requires IsRun(states, steps) && i < j < |steps| && steps[i].MissingStep? && steps[j] == Look(id)
    requires id in states[i].waits
    ensures id in states[j + 1].waits && states[j + 1].waits[id].phase.Decided?
  {
    RunKeeps(states, steps, i);
    assert WaitOk(states[i], states[i].waits[id]);
    RunGrows(states, steps, i, i + 1);
    RunGrows(states, steps, i + 1, j);
  }

  /** From a loss until the feed reopens, a wait without an outcome is decided at once, opened before or after. */
  lemma {:induction false} LostUntilReopened(states: seq<Store>, steps: seq<Step>, i: nat, j: nat)
    requires IsRun(states, steps) && i < j < |states| && steps[i].MissingStep?
    requires forall k | i < k < j :: !steps[k].ReopenStep?
    ensures states[j].held.kept.Some?
    ensures forall id | id in states[j].waits :: Seen(states[j], states[j].waits[id]).Some?
  {
    assert states[j] == Apply(states[j - 1], steps[j - 1]);
    if i + 1 < j {
      LostUntilReopened(states, steps, i, j - 1);
    }
  }

  // ----- exactly when a look decides, told by the steps

  ghost predicate MissingIn(steps: seq<Step>, from: nat, to: nat) {
    exists m :: from <= m < to && m < |steps| && steps[m].MissingStep?
  }

  /** The feed was declared missing and has not been opened again. */
  ghost predicate StillMissing(steps: seq<Step>, to: nat) {
    exists m :: 0 <= m < to && m < |steps| && steps[m].MissingStep? &&
                forall r | m < r < to && r < |steps| :: !steps[r].ReopenStep?
  }

  ghost predicate RecordedIn(steps: seq<Step>, to: nat, child: Uuid) {
    exists m :: 0 <= m < to && m < |steps| && steps[m].RecordStep? && steps[m].child == child
  }

  lemma MissingLonger(steps: seq<Step>, from: nat, to: nat)
    requires from <= to < |steps|
    ensures MissingIn(steps, from, to + 1) <==> MissingIn(steps, from, to) || steps[to].MissingStep?
  {}

  lemma StillLonger(steps: seq<Step>, to: nat)
    requires to < |steps|
    ensures StillMissing(steps, to + 1) <==>
        steps[to].MissingStep? || (StillMissing(steps, to) && !steps[to].ReopenStep?)
  {
    if StillMissing(steps, to) && !steps[to].ReopenStep? {
      var m :| 0 <= m < to && m < |steps| && steps[m].MissingStep? &&
               forall r | m < r < to && r < |steps| :: !steps[r].ReopenStep?;
      assert steps[m].MissingStep?;
    }
    if StillMissing(steps, to + 1) && !steps[to].MissingStep? {
      var m :| 0 <= m < to + 1 && m < |steps| && steps[m].MissingStep? &&
               forall r | m < r < to + 1 && r < |steps| :: !steps[r].ReopenStep?;
      assert m != to && !steps[to].ReopenStep?;
    }
  }

  lemma RecordedLonger(steps: seq<Step>, to: nat, child: Uuid)
    requires to < |steps|
    ensures RecordedIn(steps, to + 1, child) <==>
            RecordedIn(steps, to, child) || (steps[to].RecordStep? && steps[to].child == child)
  {}

  /** What the store holds is what the steps so far say. */
  lemma {:induction false} StoreTellsSteps(states: seq<Store>, steps: seq<Step>, j: nat, child: Uuid)
    requires IsRun(states, steps) && j < |states|
    ensures states[j].held.kept.Some? <==> StillMissing(steps, j)
    ensures child in states[j].held.outcomes <==> RecordedIn(steps, j, child)
  {
    if j > 0 {
      StoreTellsSteps(states, steps, j - 1, child);
      StillLonger(steps, j - 1);
      RecordedLonger(steps, j - 1, child);
      hide StillMissing, RecordedIn;
      assert states[j] == Apply(states[j - 1], steps[j - 1]);
    }
  }

  lemma {:induction false} GenerationTellsLoss(states: seq<Store>, steps: seq<Step>, k: nat, j: nat)
    requires IsRun(states, steps) && k <= j < |states|
    ensures states[k].held.generation <= states[j].held.generation
    ensures states[k].held.generation != states[j].held.generation <==> MissingIn(steps, k, j)
  {
    if k < j {
      GenerationTellsLoss(states, steps, k, j - 1);
      MissingLonger(steps, k, j - 1);
      hide MissingIn;
      assert states[j] == Apply(states[j - 1], steps[j - 1]);
    }
  }

  lemma OpenedAt(s: Store, id: nat, child: Uuid)
    requires Enabled(s, Open(id, child))
    ensures var s' := Apply(s, Open(id, child));
            id in s'.waits && s'.waits[id].child == child && s'.waits[id].since == s.held.generation
  {}

  /**
   A look of a wait decides if and only if its child has an outcome, the feed is declared missing
   and not opened again, the feed was declared missing since the wait was opened, or the book is
   gone. In all other cases the wait is asleep after its look: one loss that was made good does not
   touch the waits that are opened after it.
   */
  lemma LookDecidesExactly(states: seq<Store>, steps: seq<Step>, k: nat, j: nat, id: nat, child: Uuid)
    requires IsRun(states, steps) && k < j < |steps| && steps[k] == Open(id, child) && steps[j] == Look(id)
    ensures id in states[j + 1].waits
    ensures var decided := states[j].dropped || RecordedIn(steps, j, child) || StillMissing(steps, j)
        || MissingIn(steps, k, j);
            if decided then states[j + 1].waits[id].phase.Decided? else states[j + 1].waits[id].phase.Asleep?
  {
    hide MissingIn, StillMissing, RecordedIn;
    OpenedAt(states[k], id, child);
    RunGrows(states, steps, k + 1, j);
    StoreTellsSteps(states, steps, j, child);
    GenerationTellsLoss(states, steps, k, j);
  }

  /** The last loss is the one the store remembers. */
  lemma {:induction false} LastLoss(states: seq<Store>, steps: seq<Step>, m: nat, j: nat)
    requires IsRun(states, steps) && m < j < |states| && steps[m].MissingStep?
    requires forall n | m < n < j :: !steps[n].MissingStep?
    ensures states[j].held.last == Some(steps[m].error)
  {
    assert states[j] == Apply(states[j - 1], steps[j - 1]);
    if m + 1 < j {
      LastLoss(states, steps, m, j - 1);
    }
  }

  /** A wait that is decided without an outcome, while the book stands, is given the error of the last loss. */
  lemma LossIsToldWithItsError(states: seq<Store>, steps: seq<Step>, m: nat, j: nat, id: nat)
    requires IsRun(states, steps) && m < j < |steps| && steps[m].MissingStep? && steps[j] == Look(id)
    requires forall n | m < n < j :: !steps[n].MissingStep?
    requires !states[j].dropped && id in states[j].waits && states[j].waits[id].child !in states[j].held.outcomes
    requires states[j + 1].waits[id].phase.Decided?
    ensures states[j + 1].waits[id].phase == Decided(Fault(steps[m].error))
  {
    LastLoss(states, steps, m, j);
    FallbackIsUnreachable(states, steps, j, id);
  }

  /** The first outcome recorded for a child is the one its waits are given. */
  lemma {:induction false} FirstRecorded(states: seq<Store>, steps: seq<Step>, m: nat, j: nat)
    requires IsRun(states, steps) && m < j < |states| && steps[m].RecordStep?
    requires forall n | 0 <= n < m :: !(steps[n].RecordStep? && steps[n].child == steps[m].child)
    ensures steps[m].child in states[j].held.outcomes && states[j].held.outcomes[steps[m].child] == steps[m].outcome
  {
    assert states[j] == Apply(states[j - 1], steps[j - 1]);
    if m + 1 < j {
      FirstRecorded(states, steps, m, j - 1);
    } else {
      StoreTellsSteps(states, steps, m, steps[m].child);
    }
  }

  /** No recording and no loss leaves a wait asleep: it can wake, or a signal is about to be given. */
  lemma NoWaitIsLeftAsleep(states: seq<Store>, steps: seq<Step>, i: nat, id: nat)
    requires IsRun(states, steps) && i < |states| && id in states[i].waits && states[i].waits[id].phase.Asleep?
    requires Seen(states[i], states[i].waits[id]).Some?
    ensures Enabled(states[i], Wake(id)) || Enabled(states[i], Signal)
  {
    RunKeeps(states, steps, i);
    assert WaitOk(states[i], states[i].waits[id]);
  }

  /**
   The error of last resort is never used: a wait that is decided without an outcome of its child
   gets the error with which the feed was last declared missing.
   */
  lemma FallbackIsUnreachable(states: seq<Store>, steps: seq<Step>, i: nat, id: nat)
    requires IsRun(states, steps) && i < |states| && id in states[i].waits
    requires states[i].waits[id].child !in states[i].held.outcomes
    ensures var w := states[i].waits[id];
            Decide(states[i].held, w.child, w.since).Some? ==>
              states[i].held.last.Some?
                  && Decide(states[i].held, w.child, w.since) == Some(Fault(states[i].held.last.value))
  {
    RunKeeps(states, steps, i);
    assert WaitOk(states[i], states[i].waits[id]);
  }
}
