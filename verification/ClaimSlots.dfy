/**
 The slots of a pod: each asks for work by claims or takes pushed triggers, as the
 dispatch mode says; a refusal may stop the claims of the mode they were made in.
 */
module ClaimSlots {
  import opened Wrappers

  type ClaimId = nat
  type Epoch = nat

  datatype Mode = NoEntry | Push | Claim

  datatype LoopState = LoopState(mode: Mode, replayComplete: bool)

  predicate CanAsk(state: LoopState) {
    !state.mode.NoEntry? && state.replayComplete
  }

  predicate MustWait(state: LoopState, holdsClaim: bool, claimsBlocked: bool) {
    !CanAsk(state) || (claimsBlocked && (!state.mode.Push? || holdsClaim))
  }

  datatype Reply =
    | Work
    | NoWork
    | RefusedBusy
    | RefusedUnknown
    | RefusedSpent
    | RefusedOtherwise
    | InvalidClaim
    | MissingAnswer

  /** The claim must be asked again under the same id. */
  predicate Repeats(reply: Reply) {
    reply.RefusedBusy? || reply.RefusedUnknown? || reply.MissingAnswer?
  }

  predicate Stops(reply: Reply) {
    reply.RefusedOtherwise? || reply.InvalidClaim?
  }

  /** Where the loop of a slot stands. */
  datatype Pc =
    | Top(held: Option<ClaimId>)
    | Borrowed(held: Option<ClaimId>, state: LoopState)
    | LoadedStop(held: Option<ClaimId>, state: LoopState, stop: Option<Epoch>)
    | Judged(held: Option<ClaimId>, state: LoopState, claiming: bool, blocked: bool)
    | Waiting(held: Option<ClaimId>)
    | Starting(id: ClaimId)
    | Claiming(id: ClaimId, epoch: Epoch)
    | Pausing(id: ClaimId)
    | StopCheck(epoch: Epoch)
    | StopStore(epoch: Epoch)
    | Executing
    | Taking

  /** `open` are the claims sent that have no final answer; `decided` the epochs of claims that decided a stop. */
  datatype Pod = Pod(
    epoch: Epoch,
    state: LoopState,
    stopped: Option<Epoch>,
    slots: map<nat, Pc>,
    nextId: ClaimId,
    open: map<nat, ClaimId>,
    decided: set<Epoch>)

  datatype Step =
    | NewSlot(slot: nat)
    | NextEpoch
    | SetState(state: LoopState)
    | Borrow(slot: nat)
    | LoadStop(slot: nat)
    | Compare(slot: nat)
    | Choose(slot: nat)
    | WakeUp(slot: nat)
    | Send(slot: nat)
    | Answer(slot: nat, reply: Reply)
    | PauseOver(slot: nat)
    | CheckEpoch(slot: nat)
    | StoreStop(slot: nat)
    | ExecutionOver(slot: nat)
    | TakeTrigger(slot: nat)
    | LeaveTriggers(slot: nat)

  predicate At(p: Pod, slot: nat, there: Pc -> bool) {
    slot in p.slots && there(p.slots[slot])
  }

  predicate Enabled(p: Pod, step: Step) {
    match step
    case NewSlot(slot) => slot !in p.slots
    case NextEpoch => true
    case SetState(_) => true
    case Borrow(slot) => At(p, slot, (c: Pc) => c.Top?)
    case LoadStop(slot) => At(p, slot, (c: Pc) => c.Borrowed?)
    case Compare(slot) => At(p, slot, (c: Pc) => c.LoadedStop?)
    case Choose(slot) => At(p, slot, (c: Pc) => c.Judged?)
    case WakeUp(slot) => At(p, slot, (c: Pc) => c.Waiting?)
    case Send(slot) => At(p, slot, (c: Pc) => c.Starting?)
    case Answer(slot, _) => At(p, slot, (c: Pc) => c.Claiming?)
    case PauseOver(slot) => At(p, slot, (c: Pc) => c.Pausing?)
    case CheckEpoch(slot) => At(p, slot, (c: Pc) => c.StopCheck?)
    case StoreStop(slot) => At(p, slot, (c: Pc) => c.StopStore?)
    case ExecutionOver(slot) => At(p, slot, (c: Pc) => c.Executing?)
    case TakeTrigger(slot) => At(p, slot, (c: Pc) => c.Taking?)
    case LeaveTriggers(slot) => At(p, slot, (c: Pc) => c.Taking?)
  }

  function Go(p: Pod, slot: nat, pc: Pc): Pod {
    p.(slots := p.slots[slot := pc])
  }

  /** The stop is looked up only when the slot is about to claim. */
  function DoLoadStop(p: Pod, slot: nat): Pod
    requires At(p, slot, (c: Pc) => c.Borrowed?)
  {
    var pc := p.slots[slot];
    if pc.held.Some? || pc.state.mode.Claim? then Go(p, slot, LoadedStop(pc.held, pc.state, p.stopped))
    else Go(p, slot, Judged(pc.held, pc.state, false, false))
  }

  function DoChoose(p: Pod, slot: nat): Pod
    requires At(p, slot, (c: Pc) => c.Judged?)
  {
    var pc := p.slots[slot];
    if MustWait(pc.state, pc.held.Some?, pc.blocked) then Go(p, slot, Waiting(pc.held))
    else if pc.claiming && !pc.blocked then
      if pc.held.Some? then Go(p, slot, Starting(pc.held.value))
      else Go(p, slot, Starting(p.nextId)).(nextId := p.nextId + 1)
    else Go(p, slot, Taking)
  }

  function DoAnswer(p: Pod, slot: nat, reply: Reply): Pod
    requires At(p, slot, (c: Pc) => c.Claiming?)
  {
    var pc := p.slots[slot];
    if Repeats(reply) then Go(p, slot, Pausing(pc.id))
    else
      var next := if Stops(reply) then StopCheck(pc.epoch) else if reply.Work? then Executing else Top(None);
      Go(p, slot, next).(open := p.open - {slot}, decided := if Stops(reply) then p.decided + {pc.epoch} else p.decided)
  }

  function Apply(p: Pod, step: Step): Pod
    requires Enabled(p, step)
  {
    match step
    case NewSlot(slot) => Go(p, slot, Top(None))
    case NextEpoch => p.(epoch := p.epoch + 1)
    case SetState(state) => p.(state := state)
    case Borrow(slot) => Go(p, slot, Borrowed(p.slots[slot].held, p.state))
    case LoadStop(slot) => DoLoadStop(p, slot)
    case Compare(slot) =>
      var pc := p.slots[slot];
      Go(p, slot, Judged(pc.held, pc.state, true, pc.stop == Some(p.epoch)))
    case Choose(slot) => DoChoose(p, slot)
    case WakeUp(slot) => Go(p, slot, Top(p.slots[slot].held))
    case Send(slot) =>
      Go(p, slot, Claiming(p.slots[slot].id, p.epoch)).(open := p.open[slot := p.slots[slot].id])
    case Answer(slot, reply) => DoAnswer(p, slot, reply)
    case PauseOver(slot) => Go(p, slot, Top(Some(p.slots[slot].id)))
    case CheckEpoch(slot) =>
      var e := p.slots[slot].epoch;
      Go(p, slot, if e == p.epoch then StopStore(e) else Top(None))
    case StoreStop(slot) => Go(p, slot, Top(None)).(stopped := Some(p.slots[slot].epoch))
    case ExecutionOver(slot) => Go(p, slot, Top(None))
    case TakeTrigger(slot) => Go(p, slot, Executing)
    case LeaveTriggers(slot) => Go(p, slot, Top(None))
  }

  const Fresh := Pod(0, LoopState(NoEntry, false), None, map[], 0, map[], {})

  ghost predicate IsRun(states: seq<Pod>, steps: seq<Step>) {
    && |states| == |steps| + 1 && states[0] == Fresh
    && forall i | 0 <= i < |steps| :: Enabled(states[i], steps[i]) && states[i + 1] == Apply(states[i], steps[i])
  }

  // ===== what every step keeps =====

  /** The claim id a slot has to itself, sent or about to be. */
  function IdAt(pc: Pc): Option<ClaimId> {
    match pc
    case Top(held) => held
    case Borrowed(held, _) => held
    case LoadedStop(held, _, _) => held
    case Judged(held, _, _, _) => held
    case Waiting(held) => held
    case Starting(id) => Some(id)
    case Claiming(id, _) => Some(id)
    case Pausing(id) => Some(id)
    case _ => None
  }

  /** The claim a slot has open is the one it works under. */
  ghost predicate OwnClaim(p: Pod, slot: nat, pc: Pc) {
    && (slot in p.open ==> IdAt(pc) == Some(p.open[slot]))
    && (IdAt(pc).Some? ==> IdAt(pc).value < p.nextId)
    && (slot !in p.open ==> IdAt(pc).None? || pc.Starting?)
    && (pc.Claiming? ==> slot in p.open)
    && (pc.Judged? ==> (pc.claiming <==> pc.held.Some? || pc.state.mode.Claim?))
    && (pc.LoadedStop? ==> pc.held.Some? || pc.state.mode.Claim?)
  }

  /** A stop that a slot saw, or is about to store, was decided in its epoch. */
  ghost predicate OwnStop(p: Pod, pc: Pc) {
    && (pc.LoadedStop? && pc.stop.Some? ==> pc.stop.value in p.decided && pc.stop.value <= p.epoch)
    && (pc.Claiming? || pc.StopCheck? || pc.StopStore? ==> pc.epoch <= p.epoch)
    && (pc.StopCheck? || pc.StopStore? ==> pc.epoch in p.decided)
  }

  ghost predicate SlotOk(p: Pod, slot: nat, pc: Pc) {
    OwnClaim(p, slot, pc) && OwnStop(p, pc)
  }

  ghost predicate Inv(p: Pod) {
    && (forall s | s in p.slots :: SlotOk(p, s, p.slots[s]))
    && (forall s | s in p.open :: s in p.slots)
    && (p.stopped.Some? ==> p.stopped.value in p.decided && p.stopped.value <= p.epoch)
    && Apart(p)
  }

  predicate OfPod(step: Step) {
    step.NewSlot? || step.NextEpoch? || step.SetState?
  }

  /** What a step of a slot does to the others: nothing but let the counters grow. */
  ghost predicate Moved(p: Pod, p': Pod, slot: nat) {
    && slot in p.slots && slot in p'.slots && p'.slots == p.slots[slot := p'.slots[slot]]
    && p'.epoch == p.epoch && p.nextId <= p'.nextId && p.decided <= p'.decided
    && p'.open - {slot} == p.open - {slot}
    && (p'.stopped == p.stopped || (p.slots[slot].StopStore? && p'.stopped == Some(p.slots[slot].epoch)))
    && (|| IdAt(p'.slots[slot]) == IdAt(p.slots[slot])
        || IdAt(p'.slots[slot]).None?
        || (IdAt(p'.slots[slot]) == Some(p.nextId) && p.nextId < p'.nextId))
  }

  lemma MovedEffect(p: Pod, step: Step)
    requires Enabled(p, step) && !OfPod(step)
    ensures Moved(p, Apply(p, step), step.slot)
  {
    hide Repeats, Stops, MustWait;
  }

  lemma OwnClaimStep(p: Pod, step: Step)
    requires Enabled(p, step) && !OfPod(step) && step.slot in p.slots && OwnClaim(p, step.slot, p.slots[step.slot])
    ensures OwnClaim(Apply(p, step), step.slot, Apply(p, step).slots[step.slot])
  {
    hide Repeats, Stops, CanAsk;
  }

  lemma OwnStopStep(p: Pod, step: Step)
    requires Inv(p) && Enabled(p, step) && !OfPod(step) && step.slot in p.slots && OwnStop(p, p.slots[step.slot])
    ensures OwnStop(Apply(p, step), Apply(p, step).slots[step.slot])
  {
    hide SlotOk, Apart, Repeats, Stops, MustWait;
  }

  lemma OwnSlot(p: Pod, step: Step)
    requires Inv(p) && Enabled(p, step) && !OfPod(step) && step.slot in p.slots
    ensures SlotOk(Apply(p, step), step.slot, Apply(p, step).slots[step.slot])
  {
    hide Apply, Enabled, OwnClaim, OwnStop;
    assert SlotOk(p, step.slot, p.slots[step.slot]);
    OwnClaimStep(p, step);
    OwnStopStep(p, step);
  }

  lemma OtherSlot(p: Pod, p': Pod, slot: nat, pc: Pc)
    requires SlotOk(p, slot, pc)
    requires p.epoch <= p'.epoch && p.nextId <= p'.nextId && p.decided <= p'.decided
    requires slot in p.open <==> slot in p'.open
    requires slot in p.open ==> p'.open[slot] == p.open[slot]
    ensures SlotOk(p', slot, pc)
  {}

  ghost predicate Apart(p: Pod) {
    forall s, t | s in p.slots && t in p.slots && IdAt(p.slots[s]).Some? && IdAt(p.slots[s]) == IdAt(p.slots[t]) ::
        s == t
  }

  lemma ApartMoved(p: Pod, p': Pod, slot: nat)
    requires Inv(p) && Moved(p, p', slot)
    ensures Apart(p')
  {
    hide IdAt;
    forall s | s in p.slots ensures IdAt(p.slots[s]).Some? ==> IdAt(p.slots[s]).value < p.nextId {
      assert SlotOk(p, s, p.slots[s]);
    }
    hide SlotOk;
  }

  lemma InvMoved(p: Pod, p': Pod, slot: nat)
    requires Inv(p) && Moved(p, p', slot) && SlotOk(p', slot, p'.slots[slot])
    ensures Inv(p')
  {
    hide SlotOk, IdAt;
    ApartMoved(p, p', slot);
    forall s | s in p'.slots ensures SlotOk(p', s, p'.slots[s]) {
      if s != slot {
        assert SlotOk(p, s, p.slots[s]);
        assert s in p.open <==> s in p.open - {slot};
        assert s in p'.open <==> s in p'.open - {slot};
        OtherSlot(p, p', s, p.slots[s]);
      }
    }
    forall s | s in p'.open ensures s in p'.slots {
      if s != slot {
        assert s in p'.open - {slot};
      }
    }
    StopKept(p, p', slot);
  }

  lemma StopKept(p: Pod, p': Pod, slot: nat)
    requires Inv(p) && Moved(p, p', slot)
    ensures p'.stopped.Some? ==> p'.stopped.value in p'.decided && p'.stopped.value <= p'.epoch
  {
    assert SlotOk(p, slot, p.slots[slot]);
  }

  lemma PodStep(p: Pod, step: Step)
    requires Inv(p) && Enabled(p, step) && OfPod(step)
    ensures Inv(Apply(p, step))
  {
    hide SlotOk;
    var p' := Apply(p, step);
    forall s | s in p'.slots ensures SlotOk(p', s, p'.slots[s]) {
      if s in p.slots {
        OtherSlot(p, p', s, p.slots[s]);
      } else {
        NewSlotOk(p', s);
      }
    }
  }

  lemma NewSlotOk(p: Pod, slot: nat)
    requires slot !in p.open
    ensures SlotOk(p, slot, Top(None))
  {}

  lemma StepKeeps(p: Pod, step: Step)
    requires Inv(p) && Enabled(p, step)
    ensures Inv(Apply(p, step))
  {
    hide Apply, Enabled, Inv;
    if OfPod(step) {
      PodStep(p, step);
    } else {
      MovedEffect(p, step);
      OwnSlot(p, step);
      InvMoved(p, Apply(p, step), step.slot);
    }
  }

  lemma {:induction false} RunKeeps(states: seq<Pod>, steps: seq<Step>, i: nat)
    requires IsRun(states, steps) && i < |states|
    ensures Inv(states[i])
  {
    hide Apply, Enabled;
    if i > 0 {
      RunKeeps(states, steps, i - 1);
      hide Inv;
      StepKeeps(states[i - 1], steps[i - 1]);
    }
  }

  // ===== the theorems =====

  /** A slot whose claim has no final answer takes no trigger and sends no other claim id. */
  lemma OpenClaimKeepsTheSlot(states: seq<Pod>, steps: seq<Step>, i: nat, slot: nat)
    requires IsRun(states, steps) && i < |steps| && slot in states[i].open
    ensures slot in states[i].slots && !states[i].slots[slot].Taking? && steps[i] != TakeTrigger(slot)
    ensures steps[i] == Send(slot) ==> states[i + 1].open == states[i].open
    ensures slot in states[i + 1].open ==> states[i + 1].open[slot] == states[i].open[slot]
    ensures slot !in states[i + 1].open <==>
              && steps[i].Answer? && steps[i].slot == slot
              && !steps[i].reply.RefusedBusy? && !steps[i].reply.RefusedUnknown? && !steps[i].reply.MissingAnswer?
  {
    RunKeeps(states, steps, i);
    assert SlotOk(states[i], slot, states[i].slots[slot]);
  }

  /** No two slots ever work under the same claim id. */
  lemma ClaimIdsAreApart(states: seq<Pod>, steps: seq<Step>, i: nat, s: nat, t: nat)
    requires IsRun(states, steps) && i < |states| && s in states[i].open && t in states[i].open
    requires states[i].open[s] == states[i].open[t]
    ensures s == t
  {
    hide Apply, Enabled;
    RunKeeps(states, steps, i);
    assert SlotOk(states[i], s, states[i].slots[s]) && SlotOk(states[i], t, states[i].slots[t]);
  }

  /**
   A slot sees the claims as stopped only if a claim that was begun in the mode epoch of that
   moment decided the stop, whatever happened between the check of a stop and its store.
   */
  lemma StopSeenIsOfThisEpoch(states: seq<Pod>, steps: seq<Step>, i: nat, slot: nat)
    requires IsRun(states, steps) && i < |steps| && steps[i] == Compare(slot)
    requires slot in states[i + 1].slots && states[i + 1].slots[slot].Judged? && states[i + 1].slots[slot].blocked
    ensures states[i].epoch in states[i].decided
  {
    RunKeeps(states, steps, i);
    assert SlotOk(states[i], slot, states[i].slots[slot]);
  }

  /** A slot keeps the stop it loaded until it compares it. */
  lemma {:induction false} LoadedStays(states: seq<Pod>, steps: seq<Step>, i: nat, j: nat, slot: nat)
    requires IsRun(states, steps) && i < j < |states| && steps[i] == LoadStop(slot)
    requires slot in states[i + 1].slots && states[i + 1].slots[slot].LoadedStop?
    requires forall n | i < n < j :: steps[n] != Compare(slot)
    ensures slot in states[j].slots && states[j].slots[slot].LoadedStop?
        && states[j].slots[slot].stop == states[i].stopped
  {
    if i + 1 < j {
      LoadedStays(states, steps, i, j - 1, slot);
      hide Repeats, Stops, MustWait;
      assert states[j] == Apply(states[j - 1], steps[j - 1]);
    }
  }

  /**
   A slot that is about to claim sees the claims as stopped exactly if the stop it loaded is of
   the epoch it compares with.
   */
  lemma StopIsSeen(states: seq<Pod>, steps: seq<Step>, i: nat, j: nat, slot: nat)
    requires IsRun(states, steps) && i < j < |steps| && steps[i] == LoadStop(slot) && steps[j] == Compare(slot)
    requires forall n | i < n < j :: steps[n] != Compare(slot) && steps[n] != LoadStop(slot)
    requires slot in states[i + 1].slots && states[i + 1].slots[slot].LoadedStop?
    ensures slot in states[j + 1].slots && states[j + 1].slots[slot].Judged?
    ensures states[j + 1].slots[slot].blocked <==> states[i].stopped == Some(states[j].epoch)
  {
    LoadedStays(states, steps, i, j, slot);
  }

  /** An epoch is decided only by a reply that stops the claims, to a claim begun in that epoch. */
  lemma {:induction false} DecidedByAClaim(states: seq<Pod>, steps: seq<Step>, i: nat, e: Epoch) returns (k: nat)
    requires IsRun(states, steps) && i < |states| && e in states[i].decided
    ensures k < i && steps[k].Answer? && (steps[k].reply.RefusedOtherwise? || steps[k].reply.InvalidClaim?)
    ensures steps[k].slot in states[k].slots
        && states[k].slots[steps[k].slot] == Claiming(states[k].slots[steps[k].slot].id, e)
  {
    if e in states[i - 1].decided {
      k := DecidedByAClaim(states, steps, i - 1, e);
    } else {
      assert states[i] == Apply(states[i - 1], steps[i - 1]);
      k := i - 1;
    }
  }

  /** Every such reply decides the stop of the epoch of its claim. */
  lemma StoppingReplyDecides(p: Pod, slot: nat, reply: Reply)
    requires Enabled(p, Answer(slot, reply)) && (reply.RefusedOtherwise? || reply.InvalidClaim?)
    ensures var p' := Apply(p, Answer(slot, reply));
            p.slots[slot].epoch in p'.decided && p'.slots[slot] == StopCheck(p.slots[slot].epoch)
  {}

  /**
   What a slot does with the answer to its claim: it runs the work, asks again under the same id,
   stops, or is free.
   */
  lemma AnswersMean(p: Pod, slot: nat, reply: Reply)
    requires Enabled(p, Answer(slot, reply))
    ensures var before, after := p.slots[slot], Apply(p, Answer(slot, reply)).slots[slot];
            match reply
            case Work => after == Executing
            case NoWork => after == Top(None)
            case RefusedSpent => after == Top(None)
            case RefusedBusy => after == Pausing(before.id)
            case RefusedUnknown => after == Pausing(before.id)
            case MissingAnswer => after == Pausing(before.id)
            case RefusedOtherwise => after == StopCheck(before.epoch)
            case InvalidClaim => after == StopCheck(before.epoch)
  {}

  // ----- on which state a slot acts

  /** The slot last looked at the state of the loop at step `g`. */
  ghost predicate LooksAt(states: seq<Pod>, steps: seq<Step>, g: nat, i: nat, slot: nat) {
    && g < i < |states| && |steps| + 1 == |states| && steps[g] == Borrow(slot)
    && forall n | g < n < i :: steps[n] != Borrow(slot)
  }

  /** What the slot carries from its last look. */
  ghost predicate Carries(p: Pod, pc: Pc) {
    match pc
    case Borrowed(_, state) => state == p.state
    case LoadedStop(_, state, _) => state == p.state
    case Judged(_, state, _, _) => state == p.state
    case Starting(_) => p.state.replayComplete && !p.state.mode.NoEntry?
    case Taking => p.state == LoopState(Push, true)
    case _ => true
  }

  predicate Carrying(pc: Pc) {
    pc.Borrowed? || pc.LoadedStop? || pc.Judged? || pc.Starting? || pc.Taking?
  }

  lemma CarriesOn(p: Pod, step: Step, slot: nat, g: Pod)
    requires Enabled(p, step) && slot in Apply(p, step).slots && step != Borrow(slot)
        && Carrying(Apply(p, step).slots[slot])
    requires slot in p.slots ==>
        SlotOk(p, slot, p.slots[slot]) && (Carrying(p.slots[slot]) ==> Carries(g, p.slots[slot]))
    ensures slot in p.slots && Carrying(p.slots[slot]) && Carries(g, Apply(p, step).slots[slot])
  {
    hide Repeats, Stops;
  }

  /** A slot on its way to ask had looked at the state before, and carries what it saw. */
  lemma {:induction false} LastLook(states: seq<Pod>, steps: seq<Step>, i: nat, slot: nat) returns (g: nat)
    requires IsRun(states, steps) && i < |states| && slot in states[i].slots && Carrying(states[i].slots[slot])
    ensures LooksAt(states, steps, g, i, slot) && Carries(states[g], states[i].slots[slot])
    decreases i
  {
    hide Apply, Enabled, SlotOk, Carries;
    if i == 0 {
      assert false;
    } else if steps[i - 1] == Borrow(slot) {
      g := i - 1;
      Borrows(states[g], slot);
    } else {
      RunKeeps(states, steps, i - 1);
      if slot in states[i - 1].slots && Carrying(states[i - 1].slots[slot]) {
        g := LastLook(states, steps, i - 1, slot);
        CarriesOn(states[i - 1], steps[i - 1], slot, states[g]);
      } else {
        CarriesOn(states[i - 1], steps[i - 1], slot, states[i - 1]);
        assert false;
      }
    }
  }

  lemma Borrows(p: Pod, slot: nat)
    requires Enabled(p, Borrow(slot))
    ensures slot in Apply(p, Borrow(slot)).slots && Carries(p, Apply(p, Borrow(slot)).slots[slot])
  {}

  /** A slot sends a claim only if its last look found the replay complete and a mode in which work is given. */
  lemma SendsOnlyWhenAsked(states: seq<Pod>, steps: seq<Step>, i: nat, slot: nat) returns (g: nat)
    requires IsRun(states, steps) && i < |steps| && steps[i] == Send(slot)
    ensures LooksAt(states, steps, g, i, slot) && states[g].state.replayComplete && !states[g].state.mode.NoEntry?
  {
    hide Apply;
    g := LastLook(states, steps, i, slot);
  }

  /** A slot takes a trigger only if its last look found the replay complete and the push mode. */
  lemma TakesOnlyWhenPushed(states: seq<Pod>, steps: seq<Step>, i: nat, slot: nat) returns (g: nat)
    requires IsRun(states, steps) && i < |steps| && steps[i] == TakeTrigger(slot)
    ensures LooksAt(states, steps, g, i, slot) && states[g].state == LoopState(Push, true)
  {
    hide Apply;
    g := LastLook(states, steps, i, slot);
  }

  /** What a slot that has judged its state does: it waits, claims, or goes to the triggers. */
  lemma ChoosesExactly(states: seq<Pod>, steps: seq<Step>, i: nat, slot: nat)
    requires IsRun(states, steps) && i < |steps| && steps[i] == Choose(slot)
    ensures slot in states[i].slots && states[i].slots[slot].Judged? && slot in states[i + 1].slots
    ensures var before, after := states[i].slots[slot], states[i + 1].slots[slot];
            var held, mode := before.held, before.state.mode;
            && (after.Waiting? <==>
                  || mode.NoEntry? || !before.state.replayComplete
                  || (before.blocked && (!mode.Push? || held.Some?)))
            && (after.Starting? <==> !after.Waiting? && (held.Some? || mode.Claim?))
            && (after.Taking? <==> !after.Waiting? && held.None? && mode.Push?)
            && (after.Waiting? ==> after.held == held)
            && (after.Starting? && held.Some? ==> after.id == held.value)
  {
    RunKeeps(states, steps, i);
    assert SlotOk(states[i], slot, states[i].slots[slot]);
  }

  // ----- a stop of the current epoch can be lost, and exactly how

  /** One step undoes a stop exactly by changing the mode or by storing an older epoch. */
  lemma StopStep(states: seq<Pod>, steps: seq<Step>, i: nat)
    requires IsRun(states, steps) && i < |steps| && states[i].stopped == Some(states[i].epoch)
    ensures states[i + 1].stopped != Some(states[i + 1].epoch) <==>
              steps[i].NextEpoch? ||
              (steps[i].StoreStop? && steps[i].slot in states[i].slots && states[i].slots[steps[i].slot].StopStore? &&
               states[i].slots[steps[i].slot].epoch < states[i].epoch)
  {
    RunKeeps(states, steps, i);
    if steps[i].StoreStop? {
      assert SlotOk(states[i], steps[i].slot, states[i].slots[steps[i].slot]);
    }
  }

  /** No slot is about to store an epoch that is over. */
  ghost predicate NoStaleStore(p: Pod) {
    forall s | s in p.slots && p.slots[s].StopStore? :: p.slots[s].epoch == p.epoch
  }

  lemma NoStaleStep(p: Pod, step: Step)
    requires NoStaleStore(p) && Enabled(p, step) && !step.NextEpoch?
    ensures NoStaleStore(Apply(p, step))
  {
    hide Repeats, Stops, MustWait;
  }

  lemma {:induction false} StopStandsUpTo(states: seq<Pod>, steps: seq<Step>, i: nat, j: nat)
    requires IsRun(states, steps) && i <= j < |states| && (forall n | i <= n < j :: !steps[n].NextEpoch?)
    requires states[i].stopped == Some(states[i].epoch) && NoStaleStore(states[i])
    ensures states[j].stopped == Some(states[j].epoch) && NoStaleStore(states[j])
  {
    hide Apply, Enabled;
    if i < j {
      StopStandsUpTo(states, steps, i, j - 1);
      StopStep(states, steps, j - 1);
      NoStaleStep(states[j - 1], steps[j - 1]);
    }
  }

  /** A way for the run to go on without a change of mode. */
  ghost predicate GoesOn(states: seq<Pod>, steps: seq<Step>, states': seq<Pod>, steps': seq<Step>) {
    && IsRun(states', steps') && states <= states' && steps <= steps'
    && forall n | |steps| <= n < |steps'| :: !steps'[n].NextEpoch?
  }

  /**
   Claims that are stopped stay so in every way to go on without a change of mode, if and only if
   no slot is about to store the epoch of an older mode.
   */
  lemma StopStands(states: seq<Pod>, steps: seq<Step>)
    requires IsRun(states, steps) && states[|steps|].stopped == Some(states[|steps|].epoch)
    ensures (forall states': seq<Pod>, steps': seq<Step> | GoesOn(states, steps, states', steps') ::
               states'[|steps'|].stopped == Some(states'[|steps'|].epoch))
            <==> NoStaleStore(states[|steps|])
  {
    var p := states[|steps|];
    if NoStaleStore(p) {
      hide NoStaleStore;
      forall states': seq<Pod>, steps': seq<Step> | GoesOn(states, steps, states', steps')
        ensures states'[|steps'|].stopped == Some(states'[|steps'|].epoch)
      {
        StopStandsUpTo(states', steps', |steps|, |steps'|);
      }
    } else {
      var s :| s in p.slots && p.slots[s].StopStore? && p.slots[s].epoch != p.epoch;
      var states', steps' := Extend(states, steps, StoreStop(s));
      assert states'[|steps'|].stopped == Some(p.slots[s].epoch) && states'[|steps'|].epoch == p.epoch;
      assert GoesOn(states, steps, states', steps');
    }
  }

  lemma Extend(states: seq<Pod>, steps: seq<Step>, step: Step) returns (states': seq<Pod>, steps': seq<Step>)
    requires IsRun(states, steps) && Enabled(states[|steps|], step)
    ensures steps' == steps + [step] && IsRun(states', steps') && |states'| == |steps'| + 1
    ensures states' == states + [Apply(states[|steps|], step)] && states'[|steps'|] == Apply(states[|steps|], step)
  {
    hide Apply, Enabled;
    states', steps' := states + [Apply(states[|steps|], step)], steps + [step];
  }

  /** A slot that may claim can come to the start of a claim, */
  lemma ComesToClaim(states: seq<Pod>, steps: seq<Step>, slot: nat) returns (states': seq<Pod>, steps': seq<Step>)
    requires IsRun(states, steps)
    requires var p := states[|steps|];
             slot in p.slots && p.slots[slot] == Top(None) && p.state == LoopState(Claim, true)
                 && p.stopped != Some(p.epoch)
    ensures IsRun(states', steps') && |states'| == |steps'| + 1
    ensures var p := states[|steps|];
            states'[|steps'|] == p.(slots := p.slots[slot := Starting(p.nextId)], nextId := p.nextId + 1)
  {
    var p := states[|steps|];
    hide IsRun;
    states', steps' := Extend(states, steps, Borrow(slot));
    states', steps' := Extend(states', steps', LoadStop(slot));
    assert states'[|steps'|] == p.(slots := p.slots[slot := LoadedStop(None, p.state, p.stopped)]);
    states', steps' := Extend(states', steps', Compare(slot));
    states', steps' := Extend(states', steps', Choose(slot));
  }

  /** and from there to the store of a stop. */
  lemma ComesToStop(states: seq<Pod>, steps: seq<Step>, slot: nat) returns (states': seq<Pod>, steps': seq<Step>)
    requires IsRun(states, steps)
    requires var p := states[|steps|]; slot in p.slots && p.slots[slot].Starting? && slot !in p.open
    ensures IsRun(states', steps') && |states'| == |steps'| + 1
    ensures var p := states[|steps|];
            states'[|steps'|] == p.(slots := p.slots[slot := StopStore(p.epoch)], decided := p.decided + {p.epoch})
  {
    var p := states[|steps|];
    hide IsRun;
    states', steps' := Extend(states, steps, Send(slot));
    states', steps' := Extend(states', steps', Answer(slot, RefusedOtherwise));
    assert p.open[slot := p.slots[slot].id] - {slot} == p.open;
    states', steps' := Extend(states', steps', CheckEpoch(slot));
  }

  /**
   Two slots. The first decides a stop and passes the check; the mode changes, the second claims
   anew and stops; then the first stores its epoch, and the claims of the mode go on.
   */
  lemma StopCanBeLost() returns (states: seq<Pod>, steps: seq<Step>, n: nat)
    ensures IsRun(states, steps) && |steps| == n + 1 && steps[n] == StoreStop(0)
    ensures states[n].stopped == Some(states[n].epoch)
    ensures states[n + 1].epoch == states[n].epoch && states[n + 1].stopped != Some(states[n + 1].epoch)
  {
    states, steps := [Fresh], [];
    assert IsRun(states, steps);
    hide IsRun;
    states, steps := Extend(states, steps, NewSlot(0));
    states, steps := Extend(states, steps, NewSlot(1));
    states, steps := Extend(states, steps, SetState(LoopState(Claim, true)));
    states, steps := ComesToClaim(states, steps, 0);
    states, steps := ComesToStop(states, steps, 0);
    states, steps := Extend(states, steps, NextEpoch);
    states, steps := ComesToClaim(states, steps, 1);
    states, steps := ComesToStop(states, steps, 1);
    states, steps := Extend(states, steps, StoreStop(1));
    n := |steps|;
    states, steps := Extend(states, steps, StoreStop(0));
  }
}
