/**
 The call of a child Job by a node or by a tool, over the delivery queue of the Run:
 an optional upload, the create, then a finish, a cancel or nothing.
 */
module ChildCall {
  import opened Wrappers
  import opened Writes
  import opened QueueState
  import opened QueueMachine
  import opened QueueEffects
  import opened QueueConservation
  import opened QueueOutcomes
  import opened QueueOrder
  import opened QueueTables
  import opened QueueTheorems

  datatype Caller = Node | SyncTool | BackgroundTool(address: Uuid)

  datatype End = Completed | OtherEnd | WaitError

  /** Where the call stands. What is due was checked, and is handed over at a later moment. */
  datatype Phase =
    | ToUpload
    | UploadDue
    | ToCreate
    | CreateDue
    | Created
    | Waiting
    | ToCancel
    | CancelDue
    | ToFinish
    | FinishDue
    | Over

  datatype Calling = Calling(
    q: Queue,
    caller: Caller,
    child: Uuid,
    content: Option<string>,
    phase: Phase,
    cancelled: bool,
    upload: Option<EndId>,
    created: Option<EndId>,
    last: Option<EndId>,
    end: Option<End>,
    handed: seq<Write>)

  datatype KStep =
    | QueueStep(step: Step)
    | TriggerCancel
    | CheckUpload
    | HandUpload
    | CheckCreate
    | HandCreate(commandId: Uuid)
    | CheckCreated
    | HearCancel
    | HearCreate
    | HearEnd(end: End)
    | LookAtCreate
    | HandCancel(commandId: Uuid)
    | CheckFinish
    | HandFinish(commandId: Uuid)
    | LeaveOff

  predicate IsFirst(k: Calling) {
    k == Calling(Start, k.caller, k.child, k.content, if k.content.Some? then ToUpload else ToCreate,
              k.cancelled, None, None, None, None, [])
  }

  /** The child Job a write is about, if any. */
  function JobOf(write: Write): Option<Uuid> {
    match write
    case Upload(jobId, _) => Some(jobId)
    case Create(jobId, _, _) => Some(jobId)
    case Finish(jobId, _) => Some(jobId)
    case Cancel(jobId, _) => Some(jobId)
    case _ => None
  }

  /**
   The id of the child is made by the call. Besides it only the reading of the inbox names the
   child: the marker of the notice that it completed is held with a finish of the child, and no
   such notice exists before the create was handed over.
   */
  predicate OthersMay(k: Calling, step: Step) {
    && (step.HandOver? ==> JobOf(step.write) != Some(k.child))
    && (step.HoldBack? && step.follow.Some? && JobOf(step.follow.value) == Some(k.child) ==>
          k.created.Some? && k.created.value !in k.q.calls)
  }

  function CreateOf(k: Calling, commandId: Uuid): Write {
    Create(k.child, commandId, if k.caller.BackgroundTool? then Background(k.caller.address) else Sync)
  }

  /** The end of the create is already known, and it was removed. */
  predicate CreateGone(k: Calling) {
    k.created.Some? && k.created.value in k.q.h.sends && k.q.h.sends[k.created.value] != []
    && k.q.h.sends[k.created.value][0].Err?
  }

  predicate Heard(k: Calling) {
    k.created.Some? && k.created.value in k.q.h.sends && k.q.h.sends[k.created.value] != []
  }

  predicate MayCall(k: Calling) {
    && k.q.h.ids.issued > 0 && 0 !in k.q.calls
    && (k.upload.Some? ==> k.upload.value !in k.q.calls)
    && (k.created.Some? ==> k.created.value !in k.q.calls)
  }

  /** A hand-over of the call itself has returned before its next step. */
  predicate KEnabled(k: Calling, step: KStep) {
    match step
    case QueueStep(s) => Enabled(k.q, s) && OthersMay(k, s)
    case TriggerCancel => true
    case CheckUpload => k.phase.ToUpload?
    case HandUpload => k.phase.UploadDue? && k.content.Some? && MayCall(k)
    case CheckCreate => k.phase.ToCreate? && MayCall(k)
    case HandCreate(_) => k.phase.CreateDue? && MayCall(k)
    case CheckCreated => k.phase.Created? && MayCall(k)
    case HearCancel => k.phase.Waiting? && MayCall(k) && k.cancelled
    case HearCreate => k.phase.Waiting? && MayCall(k) && Heard(k)
    case HearEnd(_) => k.phase.Waiting? && MayCall(k)
    case LookAtCreate => k.phase.ToCancel? && MayCall(k)
    case HandCancel(_) => k.phase.CancelDue? && MayCall(k)
    case CheckFinish => k.phase.ToFinish? && MayCall(k)
    case HandFinish(_) => k.phase.FinishDue? && MayCall(k)
    // The future of the call is dropped, or the caller handle turns the call away.
    case LeaveOff => !k.phase.Over?
  }

  function Hand(k: Calling, write: Write): Calling
    requires MayCall(k) && !write.Started?
  {
    k.(q := Apply(k.q, HandOver(write)), handed := k.handed + [write])
  }

  /** The last write of the call. */
  function HandLast(k: Calling, write: Write): Calling
    requires MayCall(k) && !write.Started?
  {
    Hand(k, write).(phase := Over, last := Some(k.q.h.ids.issued))
  }

  /** Tools look at the cancel view before each hand-over, nodes do not. */
  predicate Stopped(k: Calling) {
    !k.caller.Node? && k.cancelled
  }

  function KApply(k: Calling, step: KStep): Calling
    requires KEnabled(k, step)
  {
    match step
    case QueueStep(s) => k.(q := Apply(k.q, s))
    case TriggerCancel => k.(cancelled := true)
    case CheckUpload => k.(phase := if Stopped(k) then Over else UploadDue)
    case HandUpload =>
      Hand(k, Upload(k.child, k.content.value)).(phase := ToCreate, upload := Some(k.q.h.ids.issued))
    case CheckCreate => k.(phase := if Stopped(k) then Over else CreateDue)
    case HandCreate(commandId) =>
      Hand(k, CreateOf(k, commandId)).(phase := if k.caller.BackgroundTool? then Created else Waiting,
                                       created := Some(k.q.h.ids.issued))
    case CheckCreated => k.(phase := if k.cancelled then ToCancel else Over)
    case HearCancel => k.(phase := ToCancel)
    case HearCreate => if CreateGone(k) then k.(phase := Over) else k
    case HearEnd(end) =>
      k.(phase := if end.Completed? then ToFinish else if end.WaitError? then ToCancel else Over, end := Some(end))
    case LookAtCreate => k.(phase := if CreateGone(k) then Over else CancelDue)
    case HandCancel(commandId) => HandLast(k, Cancel(k.child, commandId))
    case CheckFinish => k.(phase := if k.cancelled then Over else FinishDue)
    case HandFinish(commandId) => HandLast(k, Finish(k.child, commandId))
    case LeaveOff => k.(phase := Over)
  }

  ghost predicate IsCallRun(states: seq<Calling>, steps: seq<KStep>) {
    && |states| == |steps| + 1 && IsFirst(states[0])
    && forall i | 0 <= i < |steps| :: KEnabled(states[i], steps[i]) && states[i + 1] == KApply(states[i], steps[i])
  }

  // ===== what the call keeps =====

  /**
   Uploads and creates of the child were handed over by the call, under the ends it kept; a finish
   or a cancel, whoever handed it over, must not overtake the create.
   */
  ghost predicate OwnJob(h: History, child: Uuid, upload: Option<EndId>, created: Option<EndId>) {
    forall d | d in h.ids.write && JobOf(h.ids.write[d]) == Some(child) ::
      && (h.ids.write[d].Upload? ==> upload == Some(d))
      && (h.ids.write[d].Create? ==> created == Some(d))
      && (h.ids.write[d].Finish? || h.ids.write[d].Cancel? ==> created.Some? && created.value in Prior(h, d))
  }

  /** A held write whose follow-up is about the child must not overtake the create. */
  ghost predicate ItemBehind(h: History, item: Held, child: Uuid, created: Option<EndId>) {
    item.follow.Some? && JobOf(item.follow.value) == Some(child) ==>
      && item.follow.value.Finish? && item.entry.end < h.ids.issued
      && created.Some? && created.value in Prior(h, item.entry.end)
  }

  ghost predicate HeldBehind(q: Queue, child: Uuid, created: Option<EndId>) {
    && (forall n | n in q.held :: ItemBehind(q.h, q.held[n], child, created))
    && (forall i | 0 <= i < |q.st.newHeld| :: ItemBehind(q.h, q.st.newHeld[i], child, created))
  }

  ghost predicate Kept(h: History, end: Option<EndId>) {
    end.Some? ==> end.value in h.ids.write && end.value in h.ids.direct && end.value < h.ids.issued
  }

  ghost predicate IsCreate(write: map<EndId, Write>, child: Uuid, created: Option<EndId>) {
    created.Some? ==> created.value in write && write[created.value].Create? && write[created.value].jobId == child
  }

  /** The writes handed over so far, in their order. */
  ghost predicate HandedOk(k: Calling) {
    var first := if k.upload.Some? then 1 else 0;
    && |k.handed| == first + (if k.created.Some? then 1 else 0) + (if k.last.Some? then 1 else 0)
    && (k.upload.Some? ==> k.content.Some? && k.handed[0] == Upload(k.child, k.content.value))
    && (k.created.Some? ==>
          && k.handed[first].Create? && k.handed[first].jobId == k.child
          && k.handed[first].mode == if k.caller.BackgroundTool? then Background(k.caller.address) else Sync)
    && (k.last.Some? ==>
          && k.created.Some?
          && (k.handed[first + 1].Finish? || k.handed[first + 1].Cancel?)
          && k.handed[first + 1].jobId == k.child
          && (k.handed[first + 1].Finish? ==> k.end == Some(Completed)))
    && (k.created.Some? ==> (k.content.Some? <==> k.upload.Some?))
  }

  predicate AfterCreate(phase: Phase) {
    || phase.Created? || phase.Waiting? || phase.ToCancel? || phase.CancelDue? || phase.ToFinish? || phase.FinishDue?
  }

  ghost predicate PhaseOk(k: Calling) {
    && (k.phase.ToUpload? || k.phase.UploadDue? ==>
          k.upload.None? && k.created.None? && k.last.None? && k.content.Some?)
    && (k.phase.ToCreate? || k.phase.CreateDue? ==>
          k.created.None? && k.last.None? && (k.content.Some? <==> k.upload.Some?))
    && (AfterCreate(k.phase) ==> k.created.Some? && k.last.None?)
    && (k.phase.ToFinish? || k.phase.FinishDue? ==> k.end == Some(Completed))
    && (k.phase.ToCancel? || k.phase.CancelDue? ==> k.cancelled || k.end == Some(WaitError))
    && (k.phase.CancelDue? || k.phase.FinishDue? ==> MayCall(k))
  }

  ghost predicate KInv(k: Calling) {
    && Good(k.q)
    && OwnJob(k.q.h, k.child, k.upload, k.created) && HeldBehind(k.q, k.child, k.created)
    && Kept(k.q.h, k.upload) && Kept(k.q.h, k.created)
    && IsCreate(k.q.h.ids.write, k.child, k.created)
    && HandedOk(k) && PhaseOk(k)
  }

  // ----- steps of the queue

  lemma ItemStays(h: History, h': History, item: Held, child: Uuid, created: Option<EndId>)
    requires ItemBehind(h, item, child, created) && Remembers(h, h')
    ensures ItemBehind(h', item, child, created)
  {}

  /** The held writes are among those that were held. */
  ghost predicate FewerHeld(q: Queue, q': Queue) {
    && (forall n | n in q'.held :: (n in q.held && q'.held[n] == q.held[n]) || q'.held[n] in q.st.newHeld)
    && (q'.st.newHeld == q.st.newHeld || q'.st.newHeld == [])
  }

  lemma FewerBehind(q: Queue, q': Queue, child: Uuid, created: Option<EndId>)
    requires HeldBehind(q, child, created) && FewerHeld(q, q') && Remembers(q.h, q'.h)
    ensures HeldBehind(q', child, created)
  {
    hide ItemBehind, Remembers;
    forall n | n in q'.held ensures ItemBehind(q'.h, q'.held[n], child, created) {
      if !(n in q.held && q'.held[n] == q.held[n]) {
        var i :| 0 <= i < |q.st.newHeld| && q.st.newHeld[i] == q'.held[n];
      }
      ItemStays(q.h, q'.h, q'.held[n], child, created);
    }
    forall i | 0 <= i < |q'.st.newHeld| ensures ItemBehind(q'.h, q'.st.newHeld[i], child, created) {
      ItemStays(q.h, q'.h, q.st.newHeld[i], child, created);
    }
  }

  lemma FewerAfter(q: Queue, step: Step)
    requires Enabled(q, step) && !step.HoldBack?
    ensures FewerHeld(q, Apply(q, step))
  {
    hide Apply, Blocked, Absorb, Keep;
    var q' := Apply(q, step);
    if step.HandOver? {
      HandOverEffect(q, step);
    } else if step.GateEnds? {
      GateEndsEffect(q, step.seqNo, step.gate);
    } else if TaskKind(step) {
      TaskEffect(q, step);
      TaskFewer(q, q', step);
    } else if Quiet(step) {
      QuietEffect(q, step);
    } else if Ending(step) {
      EndingEffect(q, step);
    } else {
      UnqueuedEffect(q, step);
    }
  }

  lemma HoldBehind(q: Queue, q': Queue, step: Step, child: Uuid, created: Option<EndId>)
    requires step.HoldBack? && HandedOver(q, q', step) && Remembers(q.h, q'.h) && HeldBehind(q, child, created)
    requires step.follow.Some? ==> step.follow.value.Finish?
    requires step.follow.Some? && JobOf(step.follow.value) == Some(child) ==>
        created.Some? && created.value in Returned(q)
    ensures HeldBehind(q', child, created)
  {
    hide Blocked, Remembers, ItemBehind, JobOf;
    var item := Held(Entry(q.st.nextSeq, step.write, q.h.ids.issued), step.follow);
    assert q'.held == q.held && (q'.st.newHeld == q.st.newHeld || q'.st.newHeld == q.st.newHeld + [item]);
    assert ItemBehind(q'.h, item, child, created) by { NewItemBehind(q, q', step, child, created); }
    hide HandedOver;
    forall n | n in q'.held ensures ItemBehind(q'.h, q'.held[n], child, created) {
      ItemStays(q.h, q'.h, q.held[n], child, created);
    }
    forall i | 0 <= i < |q'.st.newHeld| ensures ItemBehind(q'.h, q'.st.newHeld[i], child, created) {
      if i < |q.st.newHeld| {
        ItemStays(q.h, q'.h, q.st.newHeld[i], child, created);
      }
    }
  }

  lemma NewItemBehind(q: Queue, q': Queue, step: Step, child: Uuid, created: Option<EndId>)
    requires step.HoldBack? && HandedOver(q, q', step) && (step.follow.Some? ==> step.follow.value.Finish?)
    requires step.follow.Some? && JobOf(step.follow.value) == Some(child) ==>
        created.Some? && created.value in Returned(q)
    ensures ItemBehind(q'.h, Held(Entry(q.st.nextSeq, step.write, q.h.ids.issued), step.follow), child, created)
  {
    hide Blocked;
    assert GotEnd(q, q', step.write, step.HandOver?);
    hide HandedOver;
  }

  lemma HeldStep(k: Calling, step: Step)
    requires KInv(k) && KEnabled(k, QueueStep(step)) && Remembers(k.q.h, Apply(k.q, step).h)
    ensures HeldBehind(Apply(k.q, step), k.child, k.created)
  {
    hide Apply, Good, OwnJob, HeldBehind, Remembers, HandedOver, JobOf, HandedOk;
    if step.HoldBack? {
      HandOverEffect(k.q, step);
      HoldBehind(k.q, Apply(k.q, step), step, k.child, k.created);
    } else {
      FewerAfter(k.q, step);
      FewerBehind(k.q, Apply(k.q, step), k.child, k.created);
    }
  }

  /** A new write about the child is the follow-up of a held one, and is put behind the create with it. */
  lemma NewJob(k: Calling, step: Step, d: EndId)
    requires KInv(k) && KEnabled(k, QueueStep(step))
    requires d in Apply(k.q, step).h.ids.write && d !in k.q.h.ids.write
    requires JobOf(Apply(k.q, step).h.ids.write[d]) == Some(k.child)
    ensures var h := Apply(k.q, step).h;
            h.ids.write[d].Finish? && k.created.Some? && k.created.value in Prior(h, d)
  {
    hide Apply, Good, OwnJob, Blocked, HandedOk;
    NewWriteEffect(k.q, step);
    assert step.GateEnds?;
    assert ItemBehind(k.q.h, k.q.held[step.seqNo], k.child, k.created);
    GateEndsEffect(k.q, step.seqNo, step.gate);
  }

  lemma OwnJobStays(h: History, h': History, child: Uuid, upload: Option<EndId>, created: Option<EndId>)
    requires OwnJob(h, child, upload, created) && Remembers(h, h')
    requires forall d | d in h.ids.write :: d < h.ids.issued
    requires forall d | d in h'.ids.write && d !in h.ids.write && JobOf(h'.ids.write[d]) == Some(child) ::
               h'.ids.write[d].Finish? && created.Some? && created.value in Prior(h', d)
    ensures OwnJob(h', child, upload, created)
  {}

  /** A hand-over that has returned stays so. */
  lemma ReturnedStays(q: Queue, step: Step)
    requires Enabled(q, step)
    ensures forall d: nat | d < q.h.ids.issued && d !in q.calls :: d !in Apply(q, step).calls
  {
    hide Apply, Blocked, Keep;
    if step.HandOver? || step.HoldBack? {
      HandOverEffect(q, step);
    } else if step.GateEnds? {
      GateEndsEffect(q, step.seqNo, step.gate);
    } else if Quiet(step) {
      QuietEffect(q, step);
    } else if Ending(step) {
      EndingEffect(q, step);
    } else {
      UnqueuedEffect(q, step);
    }
  }

  lemma QueueStepKeeps(k: Calling, step: Step)
    requires KInv(k) && KEnabled(k, QueueStep(step))
    ensures KInv(k.(q := Apply(k.q, step)))
  {
    hide Apply, Enabled, Good, OwnJob, OthersMay, HeldBehind, JobOf;
    var q' := Apply(k.q, step);
    ReturnedStays(k.q, step);
    GoodStep(k.q, step);
    StepRemembers(k.q, step);
    HeldStep(k, step);
    forall d | d in q'.h.ids.write && d !in k.q.h.ids.write && JobOf(q'.h.ids.write[d]) == Some(k.child)
      ensures q'.h.ids.write[d].Finish? && k.created.Some? && k.created.value in Prior(q'.h, d)
    {
      NewJob(k, step, d);
    }
    EndsGiven(k.q);
    OwnJobStays(k.q.h, q'.h, k.child, k.upload, k.created);
  }

  lemma EndsGiven(q: Queue)
    requires Good(q)
    ensures forall d | d in q.h.ids.write :: d < q.h.ids.issued
    ensures q.h.ids.issued !in q.h.ids.write
  {
    hide Conserved, Shape, Outcomes, QueueOrder.Order, Tables, OneToOne, PendingKnown, CallsKnown,
        QueueFollows.Followed;
  }

  // ----- steps of the call

  /** What one hand-over of the call does to the queue. */
  lemma OwnHandOver(q: Queue, write: Write, child: Uuid, created: Option<EndId>)
    requires Good(q) && HeldBehind(q, child, created) && !write.Started? && q.h.ids.issued > 0 && 0 !in q.calls
    ensures Enabled(q, HandOver(write))
    ensures var q' := Apply(q, HandOver(write));
            && Good(q') && HeldBehind(q', child, created) && Remembers(q.h, q'.h)
            && HandedOn(q, q'.h, write)
  {
    hide Good, HeldBehind, Apply, Remembers, HandedOn, FewerHeld;
    GoodStep(q, HandOver(write));
    StepRemembers(q, HandOver(write));
    HandOverEffect(q, HandOver(write));
    EndsGiven(q);
    HandOnEffect(q, Apply(q, HandOver(write)), write);
    FewerAfter(q, HandOver(write));
    FewerBehind(q, Apply(q, HandOver(write)), child, created);
  }

  /** The write got the next end, and must not overtake what had returned. */
  ghost predicate HandedOn(q: Queue, h': History, write: Write) {
    && q.h.ids.issued !in q.h.ids.write
    && h'.ids.write == q.h.ids.write[q.h.ids.issued := write]
    && h'.ids.direct == q.h.ids.direct + {q.h.ids.issued}
    && h'.ids.issued == q.h.ids.issued + 1
    && Prior(h', q.h.ids.issued) == Returned(q)
  }

  lemma HandOnEffect(q: Queue, q': Queue, write: Write)
    requires HandedOver(q, q', HandOver(write)) && q.h.ids.issued !in q.h.ids.write
    ensures HandedOn(q, q'.h, write)
  {
    hide Blocked;
  }

  lemma OwnJobAdd(q: Queue, h': History, child: Uuid, upload: Option<EndId>, created: Option<EndId>, w: Write)
    requires OwnJob(q.h, child, upload, created) && HandedOn(q, h', w) && Remembers(q.h, h')
    requires forall d | d in q.h.ids.write :: d < q.h.ids.issued
    requires upload.Some? ==> upload.value in q.h.ids.write
    requires created.Some? ==> created.value in q.h.ids.write
    ensures w.Upload? && upload.None? ==> OwnJob(h', child, Some(q.h.ids.issued), created)
    ensures w.Create? && created.None? ==> OwnJob(h', child, upload, Some(q.h.ids.issued))
    ensures (w.Finish? || w.Cancel?) && created.Some? && created.value in Returned(q) ==>
        OwnJob(h', child, upload, created)
  {}

  /** Before the create no follow-up is about the child. */
  lemma AnyCreate(q: Queue, child: Uuid, created: Option<EndId>)
    requires HeldBehind(q, child, None)
    ensures HeldBehind(q, child, created)
  {}

  lemma UploadKeeps(k: Calling)
    requires KInv(k) && KEnabled(k, HandUpload)
    ensures KInv(KApply(k, HandUpload))
  {
    hide Apply, Enabled, Good, OwnJob, HeldBehind;
    var w := Upload(k.child, k.content.value);
    OwnHandOver(k.q, w, k.child, k.created);
    EndsGiven(k.q);
    OwnJobAdd(k.q, Apply(k.q, HandOver(w)).h, k.child, k.upload, k.created, w);
  }

  lemma CreateKeeps(k: Calling, commandId: Uuid)
    requires KInv(k) && KEnabled(k, HandCreate(commandId))
    ensures KInv(KApply(k, HandCreate(commandId)))
  {
    hide Apply, Enabled, Good, OwnJob, HeldBehind;
    var w := CreateOf(k, commandId);
    OwnHandOver(k.q, w, k.child, k.created);
    EndsGiven(k.q);
    OwnJobAdd(k.q, Apply(k.q, HandOver(w)).h, k.child, k.upload, k.created, w);
    AnyCreate(Apply(k.q, HandOver(w)), k.child, Some(k.q.h.ids.issued));
  }

  /** The last write of a call: a cancel, or a finish after a completed end. */
  lemma LastKeeps(k: Calling, write: Write)
    requires KInv(k) && MayCall(k) && k.created.Some? && k.last.None?
    requires write.Cancel? || (write.Finish? && k.end == Some(Completed))
    requires write.jobId == k.child
    ensures KInv(HandLast(k, write))
  {
    hide Apply, Enabled, Good, OwnJob, HeldBehind;
    OwnHandOver(k.q, write, k.child, k.created);
    EndsGiven(k.q);
    OwnJobAdd(k.q, Apply(k.q, HandOver(write)).h, k.child, k.upload, k.created, write);
  }

  lemma CallStepKeeps(k: Calling, step: KStep)
    requires KInv(k) && KEnabled(k, step)
    ensures KInv(KApply(k, step))
  {
    hide Apply, Enabled, Good, OwnJob, HeldBehind, Hand, HandLast;
    match step
    case QueueStep(s) => QueueStepKeeps(k, s);
    case HandUpload => UploadKeeps(k);
    case HandCreate(commandId) => CreateKeeps(k, commandId);
    case HandCancel(commandId) => LastKeeps(k, Cancel(k.child, commandId));
    case HandFinish(commandId) => LastKeeps(k, Finish(k.child, commandId));
    case _ =>
  }

  lemma FirstHolds(k: Calling)
    requires IsFirst(k)
    ensures KInv(k)
  {
    StartGood();
    hide Good;
  }

  lemma {:induction false} CallRunKeeps(states: seq<Calling>, steps: seq<KStep>, i: nat)
    requires IsCallRun(states, steps) && i < |states|
    ensures KInv(states[i])
  {
    hide KInv, KEnabled, KApply;
    if i == 0 {
      FirstHolds(states[0]);
    } else {
      CallRunKeeps(states, steps, i - 1);
      CallStepKeeps(states[i - 1], steps[i - 1]);
    }
  }

  // ===== the theorems =====

  /** The writes of a call are a prefix of: the upload if it has one, the create, then one cancel or finish. */
  lemma CallWritesInOrder(states: seq<Calling>, steps: seq<KStep>, i: nat)
    requires IsCallRun(states, steps) && i < |states|
    ensures var k := states[i];
            var first := if k.content.Some? then 1 else 0;
            && |k.handed| <= first + 2
            && (forall j | 0 <= j < |k.handed| :: JobOf(k.handed[j]) == Some(k.child))
            && (first == 1 && k.handed != [] ==> k.handed[0] == Upload(k.child, k.content.value))
            && (|k.handed| > first ==>
                  && k.handed[first].Create?
                  && k.handed[first].mode == if k.caller.BackgroundTool? then Background(k.caller.address) else Sync)
            && (|k.handed| > first + 1 ==>
                  || k.handed[first + 1].Cancel?
                  || (k.handed[first + 1].Finish? && k.end == Some(Completed)))
  {
    hide Apply, Enabled, Good, OwnJob, HeldBehind, KEnabled, KApply;
    CallRunKeeps(states, steps, i);
  }

  /** What was sent to the end of a write stays the first thing sent to it. */
  ghost predicate FirstSent(q: Queue, q': Queue, d: EndId) {
    d in q.h.sends && q.h.sends[d] != [] ==>
        d in q'.h.sends && q'.h.sends[d] != [] && q'.h.sends[d][0] == q.h.sends[d][0]
  }

  lemma FirstSentStays(q: Queue, step: Step, d: EndId)
    requires Enabled(q, step) && d < q.h.ids.issued
    ensures FirstSent(q, Apply(q, step), d)
  {
    hide Apply, Blocked, Keep, Record, HandedOver, Released;
    if step.HandOver? || step.HoldBack? || step.GateEnds? {
      NewSends(q, step);
    } else if Quiet(step) {
      QuietEffect(q, step);
    } else if Ending(step) {
      EndingEffect(q, step);
    } else {
      UnqueuedEffect(q, step);
    }
  }

  lemma NewSends(q: Queue, step: Step)
    requires Enabled(q, step) && (step.HandOver? || step.HoldBack? || step.GateEnds?)
    ensures var sends := Apply(q, step).h.sends; sends == q.h.sends || sends == q.h.sends[q.h.ids.issued := []]
  {
    hide Apply, Blocked;
    if step.GateEnds? {
      GateEndsEffect(q, step.seqNo, step.gate);
    } else {
      HandOverEffect(q, step);
    }
  }

  // ----- a call that was not left off has done its part

  /** How a call that is over came to its end. */
  ghost predicate OverOk(k: Calling) {
    && (k.phase.Created? || k.phase.Waiting? ==> k.end.None?)
    && (k.phase.ToCancel? || k.phase.CancelDue? ==> k.end.None? || k.end == Some(WaitError))
    && (k.phase.ToUpload? || k.phase.UploadDue? || k.phase.ToCreate? || k.phase.CreateDue? ==> k.end.None?)
    && (k.phase.Created? ==> k.caller.BackgroundTool?) && (k.phase.Waiting? ==> !k.caller.BackgroundTool?)
    && (k.phase.Over? ==>
          && (k.created.None? ==> k.cancelled && !k.caller.Node?)
          && (k.end == Some(Completed) ==> k.cancelled || LastIs(k, Finish(k.child, 0)))
          && (k.end == Some(WaitError) ==> CreateGone(k) || LastIs(k, Cancel(k.child, 0)))
          && (k.created.Some? && k.end.None? && !k.caller.BackgroundTool? ==>
                CreateGone(k) || LastIs(k, Cancel(k.child, 0))))
  }

  /** The last write of the call is of this kind. */
  ghost predicate LastIs(k: Calling, write: Write) {
    && k.handed != []
    && var last := k.handed[|k.handed| - 1];
       (last.Finish? && write.Finish?) || (last.Cancel? && write.Cancel?)
  }

  lemma OverStep(k: Calling, step: KStep)
    requires KInv(k) && OverOk(k) && KEnabled(k, step) && !step.LeaveOff?
    ensures OverOk(KApply(k, step))
  {
    hide Apply, Enabled, Good, OwnJob, HeldBehind;
    match step
    case QueueStep(s) =>
      if k.created.Some? {
        FirstSentStays(k.q, s, k.created.value);
      }
      hide HandedOk, PhaseOk;
    case _ =>
  }

  lemma {:induction false} CallComesToItsEnd(states: seq<Calling>, steps: seq<KStep>, i: nat)
    requires IsCallRun(states, steps) && i < |states| && forall n | 0 <= n < i :: !steps[n].LeaveOff?
    ensures OverOk(states[i])
  {
    hide KInv, KEnabled, KApply, CreateGone, LastIs;
    if i > 0 {
      CallComesToItsEnd(states, steps, i - 1);
      CallRunKeeps(states, steps, i - 1);
      hide OverOk;
      OverStep(states[i - 1], steps[i - 1]);
    }
  }

  /**
   A call that is over and was not left off: after a completed end it has handed over its finish
   unless it was cancelled; after a failed wait, or cancelled while it waited, it has handed over a
   cancel unless its create was removed; without a create it was a tool that was cancelled before.
   */
  lemma CallDoesItsPart(states: seq<Calling>, steps: seq<KStep>, i: nat)
    requires IsCallRun(states, steps) && i < |states| && states[i].phase.Over?
    requires forall n | 0 <= n < i :: !steps[n].LeaveOff?
    ensures var k := states[i];
            && (k.created.None? ==> k.cancelled && !k.caller.Node?)
            && (k.end == Some(Completed) && !k.cancelled ==> k.handed != [] && k.handed[|k.handed| - 1].Finish?)
            && ((k.end == Some(WaitError) || (k.created.Some? && k.end.None? && !k.caller.BackgroundTool?)) ==>
                  CreateGone(k) || (k.handed != [] && k.handed[|k.handed| - 1].Cancel?))
  {
    hide KInv, KEnabled, KApply;
    CallComesToItsEnd(states, steps, i);
  }

  /**
   A call turns to its cancel when it is cancelled, or its wait fails, after its create; a
   background call at its one check.
   */
  lemma TurnsToCancel(k: Calling, step: KStep)
    requires KEnabled(k, step)
    ensures step.HearCancel? || (step.HearEnd? && step.end.WaitError?) ==> KApply(k, step).phase.ToCancel?
    ensures step.CheckCreated? ==> (KApply(k, step).phase.ToCancel? <==> k.cancelled)
  {}

  /** What a call that has turned to its cancel comes to. */
  ghost predicate Cancelling(k: Calling) {
    || k.phase.ToCancel? || k.phase.CancelDue?
    || (k.phase.Over? && (CreateGone(k) || LastIs(k, Cancel(k.child, 0))))
  }

  lemma CancellingStep(k: Calling, step: KStep)
    requires KInv(k) && Cancelling(k) && KEnabled(k, step) && !step.LeaveOff?
    ensures Cancelling(KApply(k, step))
  {
    hide Apply, Enabled, Good, OwnJob, HeldBehind, HandedOk;
    match step
    case QueueStep(s) =>
      if k.created.Some? {
        FirstSentStays(k.q, s, k.created.value);
      }
      hide PhaseOk;
    case _ =>
  }

  /** A call that has turned to its cancel, and is not left off, hands it over unless its create was removed. */
  lemma {:induction false} CancelIsHandedOver(states: seq<Calling>, steps: seq<KStep>, i: nat, j: nat)
    requires IsCallRun(states, steps) && i <= j < |states| && states[i].phase.ToCancel?
    requires forall n | i <= n < j :: !steps[n].LeaveOff?
    ensures Cancelling(states[j])
  {
    hide KInv, KEnabled, KApply, CreateGone, LastIs;
    if i < j {
      CancelIsHandedOver(states, steps, i, j - 1);
      CallRunKeeps(states, steps, j - 1);
      hide Cancelling;
      CancellingStep(states[j - 1], steps[j - 1]);
    }
  }

  // ----- a check, and what is handed over after it

  /** A step that is not the call's own. */
  predicate OfOthers(step: KStep) {
    step.QueueStep? || step.TriggerCancel?
  }

  ghost predicate OnlyOthers(steps: seq<KStep>, g: nat, i: nat) {
    forall j | g < j < i && j < |steps| :: OfOthers(steps[j])
  }

  /** How a call comes to have something due. */
  lemma DueMoves(k: Calling, step: KStep)
    requires KEnabled(k, step)
    ensures var k' := KApply(k, step);
            && (k'.phase.CancelDue? ==>
                  (k.phase.CancelDue? && OfOthers(step)) || (step.LookAtCreate? && !CreateGone(k)))
            && (k'.phase.FinishDue? ==> (k.phase.FinishDue? && OfOthers(step)) || (step.CheckFinish? && !k.cancelled))
  {
    hide Apply, Enabled, CreateGone;
  }

  /** A tool that finds itself cancelled before its upload or its create leaves it; a node does not look. */
  lemma ToolsLookFirst(k: Calling, step: KStep)
    requires KEnabled(k, step) && (step.CheckUpload? || step.CheckCreate?)
    ensures var due := if step.CheckUpload? then UploadDue else CreateDue;
            KApply(k, step).phase == if k.cancelled && !k.caller.Node? then Over else due
  {}

  /** How a call comes to its upload or its create. */
  lemma FirstDueMoves(k: Calling, step: KStep)
    requires KEnabled(k, step)
    ensures var k' := KApply(k, step);
            && k'.caller == k.caller
            && (k'.phase.UploadDue? ==>
                  (k.phase.UploadDue? && OfOthers(step)) || (step.CheckUpload? && (k.cancelled ==> k.caller.Node?)))
            && (k'.phase.CreateDue? ==>
                  (k.phase.CreateDue? && OfOthers(step)) || (step.CheckCreate? && (k.cancelled ==> k.caller.Node?)))
  {
    hide Apply, Enabled, CreateGone;
  }

  /** A tool hands over its upload and its create only after a look that found the cancel view untriggered. */
  lemma {:induction false} DueAfterItsLook(states: seq<Calling>, steps: seq<KStep>, i: nat) returns (g: nat)
    requires IsCallRun(states, steps) && i < |states| && (states[i].phase.UploadDue? || states[i].phase.CreateDue?)
    ensures g < i && OnlyOthers(steps, g, i) && (states[g].cancelled ==> states[i].caller.Node?)
    ensures if states[i].phase.UploadDue? then steps[g].CheckUpload? else steps[g].CheckCreate?
  {
    hide KApply, KEnabled;
    FirstDueMoves(states[i - 1], steps[i - 1]);
    if OfOthers(steps[i - 1]) && states[i - 1].phase == states[i].phase {
      g := DueAfterItsLook(states, steps, i - 1);
    } else {
      g := i - 1;
    }
  }

  lemma {:induction false} CancelDueSince(states: seq<Calling>, steps: seq<KStep>, i: nat) returns (g: nat)
    requires IsCallRun(states, steps) && i < |states| && states[i].phase.CancelDue?
    ensures g < i && steps[g].LookAtCreate? && !CreateGone(states[g]) && OnlyOthers(steps, g, i)
  {
    hide KApply, KEnabled, CreateGone;
    DueMoves(states[i - 1], steps[i - 1]);
    if states[i - 1].phase.CancelDue? && OfOthers(steps[i - 1]) {
      g := CancelDueSince(states, steps, i - 1);
    } else {
      g := i - 1;
    }
  }

  lemma {:induction false} FinishDueSince(states: seq<Calling>, steps: seq<KStep>, i: nat) returns (g: nat)
    requires IsCallRun(states, steps) && i < |states| && states[i].phase.FinishDue?
    ensures g < i && steps[g].CheckFinish? && !states[g].cancelled && OnlyOthers(steps, g, i)
  {
    hide KApply, KEnabled;
    DueMoves(states[i - 1], steps[i - 1]);
    if states[i - 1].phase.FinishDue? && OfOthers(steps[i - 1]) {
      g := FinishDueSince(states, steps, i - 1);
    } else {
      g := i - 1;
    }
  }

  /**
   A cancel is handed over only after the call, once it was cancelled or its wait failed, looked at
   the create and did not find it removed; nothing but the steps of others comes in between.
   */
  lemma CancelFollowsItsLook(states: seq<Calling>, steps: seq<KStep>, i: nat) returns (g: nat)
    requires IsCallRun(states, steps) && i < |steps| && !steps[i].QueueStep?
    requires |states[i + 1].handed| > |states[i].handed| && states[i + 1].handed[|states[i].handed|].Cancel?
    ensures g < i && steps[g].LookAtCreate? && OnlyOthers(steps, g, i)
    ensures !CreateGone(states[g]) && (states[g].cancelled || states[g].end == Some(WaitError))
  {
    hide Apply, Enabled, Good, OwnJob, HeldBehind, CreateGone;
    assert steps[i].HandCancel?;
    g := CancelDueSince(states, steps, i);
    CallRunKeeps(states, steps, g);
  }

  /**
   A finish is handed over only after a completed end and after the call found the cancel view
   untriggered; nothing but the steps of others comes in between.
   */
  lemma FinishFollowsItsCheck(states: seq<Calling>, steps: seq<KStep>, i: nat) returns (g: nat)
    requires IsCallRun(states, steps) && i < |steps| && !steps[i].QueueStep?
    requires |states[i + 1].handed| > |states[i].handed| && states[i + 1].handed[|states[i].handed|].Finish?
    ensures g < i && steps[g].CheckFinish? && OnlyOthers(steps, g, i)
    ensures !states[g].cancelled && states[g].end == Some(Completed)
  {
    hide Apply, Enabled, Good, OwnJob, HeldBehind, CreateGone;
    assert steps[i].HandFinish?;
    g := FinishDueSince(states, steps, i);
    CallRunKeeps(states, steps, g);
  }

  /**
   Composed with the queue: jobs gets a finish or a cancel of the child, from the call or from the
   reading of the inbox, only after it took the create.
   */
  lemma NothingForARemovedCreate(states: seq<Calling>, steps: seq<KStep>, i: nat)
    requires IsCallRun(states, steps) && i < |steps| && steps[i].QueueStep? && StartsAttempt(states[i].q, steps[i].step)
    requires var w := states[i].q.st.fifo[0].write; (w.Finish? || w.Cancel?) && w.jobId == states[i].child
    ensures var k := states[i];
            && k.created.Some? && k.created.value in k.q.h.ids.write && k.q.h.ids.write[k.created.value].Create?
            && k.created.value in k.q.h.results && k.q.h.results[k.created.value] == Ok
  {
    hide Apply, Enabled, KEnabled, KApply, Good, Blocked;
    CallRunKeeps(states, steps, i);
    var k := states[i];
    var head := k.q.st.fifo[0];
    HeadKnown(k.q);
    assert JobOf(k.q.h.ids.write[head.end]) == Some(k.child);
    assert DependsOn(head.write)[1] == CreateKey(k.child);
    DependencyDelivered(k.q, steps[i].step, k.created.value, CreateKey(k.child));
    var d := DeliveredUnder(k.q, CreateKey(k.child));
    assert JobOf(k.q.h.ids.write[d]) == Some(k.child);
  }

  lemma HeadKnown(q: Queue)
    requires Good(q) && q.st.fifo != []
    ensures q.st.fifo[0].end in q.h.ids.write && q.h.ids.write[q.st.fifo[0].end] == q.st.fifo[0].write
  {
    hide Shape, Outcomes, QueueOrder.Order, Tables, LoadOf, QueueFollows.Followed;
    FifoInLoad(q, 0);
    Located(q, q.st.fifo[0]);
  }

  lemma DeliveredUnder(q: Queue, key: DepKey) returns (d: EndId)
    requires Good(q) && key in q.st.ended && q.st.ended[key].WasDelivered?
    ensures d in q.h.results && q.h.results[d] == Ok && d in q.h.ids.write && OwnKey(q.h.ids.write[d]) == Some(key)
  {
    hide Inv, Outcomes, QueueOrder.Order, StartedFirst, Gates, Drains, Woken, OwnKey, QueueFollows.Followed;
    d :| Witness(q.h, key, q.st.ended[key], d);
  }
}
