/**
 Why a write was removed: left unsent only by a stopped queue, removed for a
 dependency only when a write under one of its keys was itself removed or when its
 gate said dropped, and ended by an error only if it is not sent again after it.
 */
module QueueReasons {
  import opened Wrappers
  import opened Writes
  import opened QueueState
  import opened QueueMachine
  import opened QueueEffects
  import opened QueueConservation
  import opened QueueOutcomes
  import opened QueueOrder
  import opened QueueTables
  import opened QueueFollows
  import opened QueueTheorems

  /**
   A write that this one needs was removed; for the upload of a create, otherwise than by a refusal,
   which the create would take over.
   */
  ghost predicate NeedRemoved(h: History, write: Write) {
    exists c :: c in h.results && c in h.ids.write && Needs(write, h.ids.write[c]) && h.results[c].Err?
                && !(h.ids.write[c].Upload? && h.results[c].removal.RefusedBy?)
  }

  /** An upload of the job was refused with this error. */
  ghost predicate UploadRefused(h: History, job: Uuid, error: Error) {
    exists c :: c in h.results && c in h.ids.write && h.ids.write[c].Upload? && h.ids.write[c].jobId == job
                && h.results[c] == Err(RefusedBy(error))
  }

  ghost predicate GateDropped(h: History, d: EndId) {
    d in h.gate && h.gate[d].Dropped?
  }

  /** Errors after which an attempt is made again. */
  predicate Passing(error: Error) {
    || error.Unavailable? || error.Lost? || error.Unreadable?
    || (error.Credential? && error.kind.FetchFailed?)
  }

  ghost predicate Excused(q: Queue, d: EndId, write: Write, result: WriteResult) {
    && (result == Err(LeftUnsent) ==> q.st.stopped)
    && (result == Err(DependsOnRemoved) ==> GateDropped(q.h, d) || NeedRemoved(q.h, write))
    && (GateDropped(q.h, d) ==> result == Err(DependsOnRemoved))
    && (result == Ok ==> d in q.h.attempted)
    && (result.Err? ==> EndedByError(q, d, write, result.removal))
  }

  /**
   An error that ends a write was the answer to an attempt of it, and one after which it is not sent
   again; but a create may take over the refusal of its upload.
   */
  ghost predicate EndedByError(q: Queue, d: EndId, write: Write, removal: Removal) {
    match removal
    case FailedWith(error) => d in q.h.attempted && !Passing(error) && !error.Refused?
    case RefusedBy(error) =>
      && error.Refused?
      && if d in q.h.attempted then !(write.Started? && error.reason.InstanceUnknown?)
         else write.Create? && UploadRefused(q.h, write.jobId, error)
    case _ => true
  }

  /** Whatever has been decided about a write has its reason. */
  ghost predicate ReasonOf(q: Queue, d: EndId) {
    var write := WriteOf(q.h, d);
    && (d in q.h.results ==> Excused(q, d, write, q.h.results[d]))
    && (InCompletion(q.pc, d) ==> Excused(q, d, write, q.pc.result))
    && (StillLeaving(q.calls, d) ==> Excused(q, d, write, Err(q.calls[d].removal)))
  }

  /** A gate that said dropped decides its write at once. */
  ghost predicate DroppedDecided(q: Queue) {
    forall d | GateDropped(q.h, d) :: d in q.h.results || InCompletion(q.pc, d)
  }

  /** The write in flight is being attempted. */
  ghost predicate EntryAttempted(q: Queue) {
    q.entry.Some? ==> q.entry.value.end in q.h.attempted
  }

  ghost predicate Reasons(q: Queue) {
    (forall d | d in q.h.ids.write :: ReasonOf(q, d)) && DroppedDecided(q) && EntryAttempted(q)
  }

  /** An error that refused a write is a refusal. */
  ghost predicate RefusalsNamed(q: Queue) {
    forall c | c in q.h.results && q.h.results[c].Err? && q.h.results[c].removal.RefusedBy? ::
      q.h.results[c].removal.error.Refused?
  }

  lemma ReasonsName(q: Queue)
    requires Good(q) && Reasons(q)
    ensures RefusalsNamed(q)
  {
    hide Good, NeedRemoved, UploadRefused, GateDropped;
    ResultsWritten(q);
    forall c | c in q.h.results && q.h.results[c].Err? && q.h.results[c].removal.RefusedBy?
      ensures q.h.results[c].removal.error.Refused?
    {
      assert ReasonOf(q, c);
    }
  }

  /** Reasons stay: the queue never starts again, results never change, attempts are not forgotten. */
  ghost predicate ReasonsStay(q: Queue, q': Queue) {
    && (q.st.stopped ==> q'.st.stopped)
    && (forall c | c in q.h.results :: c in q'.h.results && q'.h.results[c] == q.h.results[c])
    && (forall c | c in q.h.ids.write :: c in q'.h.ids.write && q'.h.ids.write[c] == q.h.ids.write[c])
    && q.h.attempted <= q'.h.attempted
  }

  /** Nothing new is known of the gate of the write, nor of its attempts. */
  ghost predicate SameGate(q: Queue, q': Queue, d: EndId) {
    && (GateDropped(q.h, d) <==> GateDropped(q'.h, d))
    && (d in q'.h.attempted ==> d in q.h.attempted)
  }

  lemma RemovedStays(q: Queue, q': Queue, write: Write)
    requires NeedRemoved(q.h, write) && ReasonsStay(q, q')
    ensures NeedRemoved(q'.h, write)
  {
    var c :| c in q.h.results && c in q.h.ids.write && Needs(write, q.h.ids.write[c]) && q.h.results[c].Err?
             && !(q.h.ids.write[c].Upload? && q.h.results[c].removal.RefusedBy?);
    assert c in q'.h.results && q'.h.results[c] == q.h.results[c] && q'.h.ids.write[c] == q.h.ids.write[c];
  }

  lemma RefusedStays(q: Queue, q': Queue, job: Uuid, error: Error)
    requires UploadRefused(q.h, job, error) && ReasonsStay(q, q')
    ensures UploadRefused(q'.h, job, error)
  {
    var c :| c in q.h.results && c in q.h.ids.write && q.h.ids.write[c].Upload? && q.h.ids.write[c].jobId == job
             && q.h.results[c] == Err(RefusedBy(error));
    assert c in q'.h.results && q'.h.results[c] == Err(RefusedBy(error));
  }

  lemma ExcusedStays(q: Queue, q': Queue, d: EndId, write: Write, result: WriteResult)
    requires Excused(q, d, write, result) && ReasonsStay(q, q') && SameGate(q, q', d)
    ensures Excused(q', d, write, result)
  {
    hide NeedRemoved, UploadRefused, ReasonsStay, Passing, GateDropped;
    if result == Err(DependsOnRemoved) {
      if !GateDropped(q.h, d) {
        RemovedStays(q, q', write);
      }
    } else if result.Err? && result.removal.RefusedBy? && write.Create? {
      if UploadRefused(q.h, write.jobId, result.removal.error) {
        RefusedStays(q, q', write.jobId, result.removal.error);
      }
    }
    StopStays(q, q');
  }

  lemma StopStays(q: Queue, q': Queue)
    requires ReasonsStay(q, q')
    ensures q.st.stopped ==> q'.st.stopped
    ensures q.h.attempted <= q'.h.attempted
  {}

  lemma StepStays(q: Queue, step: Step)
    requires Good(q) && Enabled(q, step)
    ensures ReasonsStay(q, Apply(q, step))
  {
    hide Apply, Inv, Outcomes, Order, Tables;
    StepRemembers(q, step);
    ResultsStep(q, step);
    StoppedStays(q, step);
  }

  lemma StoppedStays(q: Queue, step: Step)
    requires Enabled(q, step)
    ensures q.st.stopped ==> Apply(q, step).st.stopped
  {
    hide Apply, Blocked, Keep;
    if step.HandOver? || step.HoldBack? {
      HandOverEffect(q, step);
    } else if step.GateEnds? {
      GateEndsEffect(q, step.seqNo, step.gate);
    } else if Quiet(step) {
      QuietEffect(q, step);
    } else if Ending(step) {
      EndingEffect(q, step);
    } else {
      UnqueuedEffect(q, step);
    }
  }

  /** What stands in the table under a key comes from a write with that key. */
  lemma KeyRemoved(q: Queue, write: Write, key: DepKey)
    requires Table(q.st.ended, q.h) && key in q.st.ended && !q.st.ended[key].WasDelivered?
    requires key in DependsOn(write) && (q.st.ended[key].WasRefused? ==> !key.UploadKey?)
    ensures NeedRemoved(q.h, write)
  {
    hide OwnKey, DependsOn, Needs;
    var c :| Witness(q.h, key, q.st.ended[key], c);
    KeysTellNeeds(write, q.h.ids.write[c]);
    UploadsKey(q.h.ids.write[c]);
  }

  lemma UploadsKey(write: Write)
    ensures write.Upload? ==> OwnKey(write) == Some(UploadKey(write.jobId))
  {}

  lemma KeyRefused(q: Queue, job: Uuid)
    requires Table(q.st.ended, q.h) && UploadKey(job) in q.st.ended && q.st.ended[UploadKey(job)].WasRefused?
    requires RefusalsNamed(q)
    ensures UploadRefused(q.h, job, q.st.ended[UploadKey(job)].error) && q.st.ended[UploadKey(job)].error.Refused?
  {
    var key := UploadKey(job);
    var c :| Witness(q.h, key, q.st.ended[key], c);
    assert q.h.results[c] == Err(RefusedBy(q.st.ended[key].error));
  }

  /** A blocked write needs a write that was removed. */
  lemma BlockedIsExcused(q: Queue, d: EndId, write: Write)
    requires Table(q.st.ended, q.h) && Blocked(write, q.st.ended).Some? && !GateDropped(q.h, d) && RefusalsNamed(q)
    ensures Excused(q, d, write, Err(Blocked(write, q.st.ended).value))
  {
    hide Table, DependsOn, NeedRemoved, UploadRefused, Resendable, GateDropped, RefusalsNamed;
    BlockedReason(write, q.st.ended);
    if Blocked(write, q.st.ended).value.RefusedBy? {
      KeyRefused(q, write.jobId);
    } else {
      FirstBlockReason(write, DependsOn(write), q.st.ended);
      var keys := DependsOn(write);
      var i :| 0 <= i < |keys| && FirstBlock(write, keys, q.st.ended) == BlockedAt(write, keys[i], q.st.ended)
               && forall j | 0 <= j < i :: BlockedAt(write, keys[j], q.st.ended).None?;
      UploadOfCreate(write, keys[i]);
      KeyRemoved(q, write, keys[i]);
    }
  }

  lemma UploadOfCreate(write: Write, key: DepKey)
    requires key in DependsOn(write)
    ensures key.UploadKey? ==> write.Create? && key == UploadKey(write.jobId)
  {}

  /** Every decision is an old one or has a reason of its own. */
  ghost predicate Decides(q: Queue, q': Queue, d: EndId) {
    var write := WriteOf(q'.h, d);
    && (d in q'.h.results ==> d in q.h.results || (InCompletion(q.pc, d) && q'.h.results[d] == q.pc.result)
                              || (StillLeaving(q.calls, d) && q'.h.results[d] == Err(q.calls[d].removal)))
    && (InCompletion(q'.pc, d) ==>
          (InCompletion(q.pc, d) && q'.pc.result == q.pc.result) || Excused(q, d, write, q'.pc.result))
    && (StillLeaving(q'.calls, d) ==> (StillLeaving(q.calls, d) && q'.calls[d].removal == q.calls[d].removal)
                                      || Excused(q, d, write, Err(q'.calls[d].removal)))
  }

  lemma DecidesKeeps(q: Queue, q': Queue, d: EndId)
    requires ReasonOf(q, d) && Decides(q, q', d) && ReasonsStay(q, q') && SameGate(q, q', d)
    requires WriteOf(q'.h, d) == WriteOf(q.h, d)
    ensures ReasonOf(q', d)
  {
    hide Excused, ReasonsStay, SameGate;
    var write := WriteOf(q.h, d);
    if d in q'.h.results {
      if d in q.h.results { SameResult(q, q', d); }
      ExcusedStays(q, q', d, write, q'.h.results[d]);
    }
    if InCompletion(q'.pc, d) {
      ExcusedStays(q, q', d, write, q'.pc.result);
    }
    if StillLeaving(q'.calls, d) {
      ExcusedStays(q, q', d, write, Err(q'.calls[d].removal));
    }
  }

  lemma SameResult(q: Queue, q': Queue, d: EndId)
    requires ReasonsStay(q, q') && d in q.h.results
    ensures q'.h.results[d] == q.h.results[d]
  {}

  // ----- what a hand-over decides

  /** An end that was not given out is spoken of nowhere. */
  lemma NewEnd(q: Queue)
    requires Good(q)
    ensures q.h.ids.issued !in q.h.results && !InCompletion(q.pc, q.h.ids.issued) && q.h.ids.issued !in q.calls
    ensures q.h.ids.issued !in q.h.gate && (forall d | d in q.h.ids.write :: d < q.h.ids.issued)
  {
    hide Conserved, Shape, OutcomeOf, OneToOne, PendingKnown, Order, Table, StartedFirst, Drains, Woken, Followed;
  }

  lemma HandOverOld(q: Queue, q': Queue, step: Step, d: EndId)
    requires (step.HandOver? || step.HoldBack?) && HandedOver(q, q', step) && d in q.h.ids.write && d != q.h.ids.issued
    ensures Decides(q, q', d) && SameGate(q, q', d) && WriteOf(q'.h, d) == WriteOf(q.h, d)
  {
    hide Blocked, Excused;
  }

  lemma HandOverNew(q: Queue, q': Queue, step: Step)
    requires Good(q) && (step.HandOver? || step.HoldBack?) && HandedOver(q, q', step) && ReasonsStay(q, q')
    requires RefusalsNamed(q)
    ensures ReasonOf(q', q.h.ids.issued)
  {
    hide Blocked, Good, Excused, ReasonsStay, RefusalsNamed;
    var d := q.h.ids.issued;
    NewEnd(q);
    var removal := HandOverRemoval(q, step);
    assert SameGate(q, q', d) && !GateDropped(q.h, d) && WriteOf(q'.h, d) == step.write;
    if removal.Some? {
      if q.st.stopped {
        StoppedExcuses(q, d, step.write);
      } else {
        GoodTable(q);
        BlockedIsExcused(q, d, step.write);
      }
      ExcusedStays(q, q', d, step.write, Err(removal.value));
    }
  }

  lemma GoodTable(q: Queue)
    requires Good(q)
    ensures Table(q.st.ended, q.h)
  {}

  lemma StoppedExcuses(q: Queue, d: EndId, write: Write)
    requires q.st.stopped && !GateDropped(q.h, d)
    ensures Excused(q, d, write, Err(LeftUnsent))
  {}

  // ----- what the task decides

  lemma AttemptExcuses(q: Queue, d: EndId, write: Write, reply: Option<Error>)
    requires !GateDropped(q.h, d) && d in q.h.attempted && (reply.Some? ==> !Resendable(write, reply.value))
    ensures Excused(q, d, write, if reply.None? then Ok else Err(RemovalOf(reply.value)))
  {}

  lemma HeadExcused(q: Queue)
    requires q.pc.TookHeld? && Table(q.st.ended, q.h) && RefusalsNamed(q)
    requires q.st.fifo != [] ==> !GateDropped(q.h, q.st.fifo[0].end)
    ensures var pc := DoTakeHead(q).pc; pc.Completing? ==> Excused(q, pc.entry.end, pc.entry.write, pc.result)
  {
    hide Excused, Table, Blocked, RefusalsNamed;
    if q.st.fifo != [] && Blocked(q.st.fifo[0].write, q.st.ended).Some? {
      BlockedIsExcused(q, q.st.fifo[0].end, q.st.fifo[0].write);
    }
  }

  lemma TaskExcused(q: Queue, q': Queue, step: Step)
    requires Shape(q) && Table(q.st.ended, q.h) && TaskKind(step) && TaskMoved(q, q', step)
    requires RefusalsNamed(q) && EntryAttempted(q)
    requires forall e | e in Load(q) && !q.pc.Completing? :: !GateDropped(q.h, e.end)
    ensures q'.pc.Completing? ==> Excused(q, q'.pc.entry.end, q'.pc.entry.write, q'.pc.result)
  {
    hide Excused, Absorb, Keyed, Table, DoTakeHead, GateDropped, LoadOf, RefusalsNamed;
    BeginsFromLoad(q, q', step);
    if step.TakeHead? {
      hide Shape;
      if q.st.fifo != [] {
        FifoInLoad(q, 0);
      }
      HeadExcused(q);
    } else if step.AttemptEnds? {
      hide Shape;
      AttemptExcuses(q, q.entry.value.end, q.entry.value.write, step.reply);
    } else if step.DropNext? && q.pc.rest != [] {
      StoppedExcuses(q, q.pc.rest[0].end, q.pc.rest[0].write);
    }
  }

  /** What the task still has to decide has no gate that said dropped. */
  lemma UndecidedGates(q: Queue, e: Entry)
    requires Good(q) && DroppedDecided(q) && e in Load(q) && !q.pc.Completing?
    ensures !GateDropped(q.h, e.end)
  {
    hide Shape, Order, Tables, Followed, LoadOf;
    Located(q, e);
    assert OutcomeOf(q, e.end);
  }

  /** A completion that the task begins has its reason, and is of the write with that end. */
  lemma TaskBegins(q: Queue, q': Queue, step: Step)
    requires Good(q) && DroppedDecided(q) && EntryAttempted(q) && RefusalsNamed(q)
    requires TaskKind(step) && TaskMoved(q, q', step)
    ensures q'.pc.Completing? ==>
              && Excused(q, q'.pc.entry.end, q'.pc.entry.write, q'.pc.result)
              && WriteOf(q.h, q'.pc.entry.end) == q'.pc.entry.write
  {
    hide Good, Excused, TaskMoved, Table, GateDropped, DroppedDecided, Shape, Conserved, Numbers, LoadOf, RefusalsNamed,
         EntryAttempted;
    forall e | e in Load(q) && !q.pc.Completing? ensures !GateDropped(q.h, e.end) {
      UndecidedGates(q, e);
    }
    GoodTable(q);
    InvShape(q);
    TaskExcused(q, q', step);
    BeginsFromLoad(q, q', step);
    if q'.pc.Completing? {
      Located(q, q'.pc.entry);
    }
  }

  lemma TaskDecides(q: Queue, q': Queue, step: Step, d: EndId)
    requires Good(q) && DroppedDecided(q) && EntryAttempted(q) && RefusalsNamed(q)
    requires TaskKind(step) && TaskMoved(q, q', step) && QuietKept(q, q', step)
    requires d in q'.h.attempted ==> d in q.h.attempted
    ensures Decides(q, q', d) && SameGate(q, q', d) && WriteOf(q'.h, d) == WriteOf(q.h, d)
  {
    hide Good, Excused, TaskMoved, DroppedDecided, EntryAttempted, RefusalsNamed;
    TaskBegins(q, q', step);
  }

  /** A write that is attempted now has not been decided. */
  lemma NewAttempt(q: Queue, q': Queue, step: Step, d: EndId)
    requires Good(q) && Enabled(q, step) && q' == Apply(q, step) && d in q'.h.attempted && d !in q.h.attempted
    ensures ReasonOf(q', d)
  {
    hide Apply, Inv, Outcomes, Order, Tables, Followed, Excused, Blocked, LoadOf, OutcomeOf;
    AttemptsAreStarts(q, step);
    assert d == q.st.fifo[0].end;
    TaskEffect(q, step);
    HeadEffect(q);
    LineUndecided(q);
  }

  lemma LineUndecided(q: Queue)
    requires Good(q) && q.st.fifo != []
    ensures q.st.fifo[0].end !in q.h.results && !StillLeaving(q.calls, q.st.fifo[0].end)
  {
    hide Shape, Order, Tables, Followed, LoadOf;
    FifoInLoad(q, 0);
    Located(q, q.st.fifo[0]);
    assert OutcomeOf(q, q.st.fifo[0].end);
  }

  // ----- what the other steps decide

  lemma OtherDecides(q: Queue, step: Step, d: EndId)
    requires Enabled(q, step) && Shape(q)
    requires (Quiet(step) && !TaskKind(step)) || Ending(step) || UnqueuedKind(step)
    requires d in Apply(q, step).h.attempted ==> d in q.h.attempted
    ensures Decides(q, Apply(q, step), d) && SameGate(q, Apply(q, step), d)
    ensures Apply(q, step).h.ids == q.h.ids
  {
    hide Excused, Apply, Keep, Decides;
    if Quiet(step) {
      QuietEffect(q, step);
      QuietDecides(q, Apply(q, step), d);
    } else if Ending(step) {
      EndingEffect(q, step);
      EndDecides(q, Apply(q, step), step, d);
    } else {
      UnqueuedEffect(q, step);
      UnqueuedDecides(q, Apply(q, step), step, d);
    }
  }

  lemma QuietDecides(q: Queue, q': Queue, d: EndId)
    requires q'.h.results == q.h.results && q'.pc == q.pc
    requires StillLeaving(q'.calls, d) ==> StillLeaving(q.calls, d) && q'.calls[d] == q.calls[d]
    ensures Decides(q, q', d)
  {
    hide Excused;
  }

  lemma EndDecides(q: Queue, q': Queue, step: Step, d: EndId)
    requires Shape(q) && Ending(step) && InStage(q, step) && Completed(q, q', step)
    ensures Decides(q, q', d)
  {
    hide Excused, Keep, Keyed;
  }

  lemma UnqueuedDecides(q: Queue, q': Queue, step: Step, d: EndId)
    requires UnqueuedKind(step) && step.end in q.calls && !q.calls[step.end].Notifying? && EndedUnqueued(q, q', step)
    ensures Decides(q, q', d)
  {
    hide Excused, Keep;
  }

  lemma InvShape(q: Queue)
    requires Good(q)
    ensures Shape(q) && Conserved(q) && Numbers(q)
  {}

  /** A gate decides its write when it says dropped or the queue is stopped, and nothing else. */
  lemma GateReason(q: Queue, q': Queue, n: nat, gate: Gate, d: EndId)
    requires Good(q) && q.pc.Parked? && n in q.held && Released(q, q', n, gate) && ReasonsStay(q, q')
    requires d in q'.h.ids.write && (d in q.h.ids.write ==> ReasonOf(q, d))
    ensures ReasonOf(q', d)
  {
    hide Good, Excused, ReasonsStay, GateDropped;
    var e := q.held[n].entry;
    NewEnd(q);
    HeldUndecided(q, n);
    if d == e.end {
      OwnGate(q, q', n, gate);
    } else if d in q.h.ids.write {
      OtherGate(q, q', n, gate, d);
      DecidesKeeps(q, q', d);
    } else {
      assert d == q.h.ids.issued;
      assert q'.h.results == q.h.results && q'.calls == q.calls && !InCompletion(q'.pc, d);
    }
  }

  lemma OtherGate(q: Queue, q': Queue, n: nat, gate: Gate, d: EndId)
    requires n in q.held && Released(q, q', n, gate) && d in q.h.ids.write
    requires d != q.held[n].entry.end && d != q.h.ids.issued
    ensures Decides(q, q', d) && SameGate(q, q', d) && WriteOf(q'.h, d) == WriteOf(q.h, d)
  {
    hide Excused;
  }

  /** A held write has not been decided. */
  lemma HeldUndecided(q: Queue, n: nat)
    requires Good(q) && n in q.held
    ensures var d := q.held[n].entry.end;
            d !in q.h.results && !StillLeaving(q.calls, d) && d !in q.h.gate && d in q.h.ids.write && d < q.h.ids.issued
    ensures q.h.ids.write[q.held[n].entry.end] == q.held[n].entry.write
  {
    hide Shape, Order, Table, StartedFirst, Drains, Woken, Followed, LoadOf;
    HeldInLoad(q, n);
    Located(q, q.held[n].entry);
    assert OutcomeOf(q, q.held[n].entry.end);
    assert Shut(q.h, q.held[n]);
  }

  lemma OwnGate(q: Queue, q': Queue, n: nat, gate: Gate)
    requires n in q.held && Released(q, q', n, gate) && q.held[n].entry.end < q.h.ids.issued
    requires var d := q.held[n].entry.end; d !in q.h.results && !StillLeaving(q.calls, d)
    ensures ReasonOf(q', q.held[n].entry.end)
  {}

  // ----- a gate that said dropped has decided its write

  lemma DroppedStep(q: Queue, step: Step)
    requires Good(q) && DroppedDecided(q) && Enabled(q, step)
    ensures DroppedDecided(Apply(q, step))
  {
    hide Apply, Good, Keep, Blocked, Absorb, GateDropped;
    var q' := Apply(q, step);
    if step.HandOver? || step.HoldBack? {
      HandOverEffect(q, step);
      assert q'.h.gate == q.h.gate && q'.h.results == q.h.results && q'.pc == q.pc;
      SameDecided(q, q');
    } else if step.GateEnds? {
      GateEndsEffect(q, step.seqNo, step.gate);
      GateDecided(q, q', step.seqNo, step.gate);
    } else if Ending(step) {
      EndingEffect(q, step);
      EndDecided(q, q', step);
    } else if Quiet(step) {
      QuietEffect(q, step);
      if TaskKind(step) {
        TaskEffect(q, step);
        assert !q.pc.Completing?;
      }
      SameDecided(q, q');
    } else {
      UnqueuedEffect(q, step);
      SameDecided(q, q');
    }
  }

  lemma SameDecided(q: Queue, q': Queue)
    requires DroppedDecided(q) && q'.h.gate == q.h.gate && (q'.pc == q.pc || !q.pc.Completing?)
    requires forall d | d in q.h.results :: d in q'.h.results
    ensures DroppedDecided(q')
  {
    forall d | GateDropped(q'.h, d) ensures d in q'.h.results || InCompletion(q'.pc, d) {
      assert GateDropped(q.h, d);
    }
  }

  lemma GateDecided(q: Queue, q': Queue, n: nat, gate: Gate)
    requires DroppedDecided(q) && q.pc.Parked? && n in q.held && Released(q, q', n, gate)
    ensures DroppedDecided(q')
  {
    forall d | GateDropped(q'.h, d) ensures d in q'.h.results || InCompletion(q'.pc, d) {
      assert d != q.held[n].entry.end ==> GateDropped(q.h, d);
    }
  }

  lemma EndDecided(q: Queue, q': Queue, step: Step)
    requires Good(q) && DroppedDecided(q) && Ending(step) && InStage(q, step) && Completed(q, q', step)
    ensures DroppedDecided(q')
  {
    hide Inv, Order, Tables, Followed, Keep;
    assert OutcomeOf(q, q.pc.entry.end);
    hide OutcomeOf;
    forall d | GateDropped(q'.h, d) ensures d in q'.h.results || InCompletion(q'.pc, d) {
      assert GateDropped(q.h, d);
    }
  }

  // ----- every step

  lemma ReasonStep(q: Queue, step: Step, d: EndId)
    requires Good(q) && Reasons(q) && RefusalsNamed(q) && Enabled(q, step)
    requires d in Apply(q, step).h.ids.write && ReasonsStay(q, Apply(q, step))
    ensures ReasonOf(Apply(q, step), d)
  {
    hide Apply, Good, ReasonOf, Decides, ReasonsStay, DroppedDecided, HandedOver, Released, SameGate, QuietKept,
         TaskMoved, RefusalsNamed, EntryAttempted;
    var q' := Apply(q, step);
    NewEnd(q);
    NewEnds(q, step);
    if step.HandOver? || step.HoldBack? {
      HandOverEffect(q, step);
      if d == q.h.ids.issued {
        HandOverNew(q, q', step);
      } else {
        HandOverOld(q, q', step, d);
        DecidesKeeps(q, q', d);
      }
    } else if step.GateEnds? {
      GateEndsEffect(q, step.seqNo, step.gate);
      GateReason(q, q', step.seqNo, step.gate, d);
    } else {
      if d in q'.h.attempted && d !in q.h.attempted {
        NewAttempt(q, q', step, d);
      } else {
        if TaskKind(step) {
          QuietEffect(q, step);
          TaskEffect(q, step);
          TaskDecides(q, q', step, d);
        } else {
          InvShape(q);
          AttemptsAreStarts(q, step);
          OtherDecides(q, step, d);
        }
        DecidesKeeps(q, q', d);
      }
    }
  }

  lemma NewEnds(q: Queue, step: Step)
    requires Enabled(q, step)
    ensures forall d | d in Apply(q, step).h.ids.write ::
              d in q.h.ids.write || (d == q.h.ids.issued && (step.HandOver? || step.HoldBack? || step.GateEnds?))
  {
    hide Apply, Blocked;
    if step.HandOver? || step.HoldBack? {
      HandOverEffect(q, step);
    } else if step.GateEnds? {
      GateEndsEffect(q, step.seqNo, step.gate);
    } else {
      OtherFollows(q, step);
    }
  }

  lemma ReasonsStep(q: Queue, step: Step)
    requires Good(q) && Reasons(q) && Enabled(q, step)
    ensures Reasons(Apply(q, step))
  {
    hide Apply, Enabled, Good, ReasonOf, DroppedDecided, EntryAttempted, RefusalsNamed;
    StepStays(q, step);
    DroppedStep(q, step);
    EntryStep(q, step);
    ReasonsName(q);
    forall d | d in Apply(q, step).h.ids.write ensures ReasonOf(Apply(q, step), d) {
      ReasonStep(q, step, d);
    }
  }

  lemma EntryStep(q: Queue, step: Step)
    requires EntryAttempted(q) && Enabled(q, step)
    ensures EntryAttempted(Apply(q, step))
  {
    hide Apply, Blocked, Keep, Absorb, DoTakeHead;
    if step.HandOver? || step.HoldBack? {
      HandOverEffect(q, step);
    } else if step.GateEnds? {
      GateEndsEffect(q, step.seqNo, step.gate);
    } else if TaskKind(step) {
      TaskEffect(q, step);
      if step.TakeHead? {
        HeadEffect(q);
      }
    } else if Quiet(step) {
      QuietEffect(q, step);
    } else if Ending(step) {
      EndingEffect(q, step);
    } else {
      UnqueuedEffect(q, step);
    }
  }

  lemma {:induction false} RunHasReasons(states: seq<Queue>, steps: seq<Step>, i: nat)
    requires IsRun(states, steps) && i < |states|
    ensures Reasons(states[i])
  {
    hide Apply, Enabled, Good, ReasonOf;
    if i > 0 {
      RunHasReasons(states, steps, i - 1);
      RunIsGood(states, steps, i - 1);
      ReasonsStep(states[i - 1], steps[i - 1]);
    }
  }

  /**
   In every run, for every write. Left unsent: the queue was stopped. Removed for a dependency: its
   gate said dropped, or a write that it needs was removed, otherwise than by the refusal of an
   upload. A gate that said dropped always ends its write that way. Delivered: it was attempted.
   Ended by an error: as an answer to an attempt, and never by an error that passes; or, for a
   create, by the refusal of its upload.
   */
  lemma RemovalsHaveReasons(states: seq<Queue>, steps: seq<Step>, i: nat, d: EndId)
    requires IsRun(states, steps) && i < |states| && d in states[i].h.results
    ensures d in states[i].h.ids.write && Excused(states[i], d, states[i].h.ids.write[d], states[i].h.results[d])
  {
    hide Apply, Enabled, Excused;
    RunHasReasons(states, steps, i);
    RunIsGood(states, steps, i);
    ResultsWritten(states[i]);
    assert ReasonOf(states[i], d);
  }

  /** A write that came by `enqueue` has no gate: it is removed for a dependency only because of one. */
  lemma DirectReason(q: Queue, d: EndId) returns (c: EndId)
    requires Good(q) && Reasons(q) && d in q.h.ids.direct && d in q.h.ids.write
    requires d in q.h.results && q.h.results[d] == Err(DependsOnRemoved)
    ensures c in q.h.results && c in q.h.ids.write && Needs(q.h.ids.write[d], q.h.ids.write[c]) && q.h.results[c].Err?
  {
    hide Inv, Outcomes, Order, Table, StartedFirst, Drains, Woken, Followed, Needs;
    assert ReasonOf(q, d);
    assert NeedRemoved(q.h, q.h.ids.write[d]);
    c :| c in q.h.results && c in q.h.ids.write && Needs(q.h.ids.write[d], q.h.ids.write[c]) && q.h.results[c].Err?;
  }

  lemma ResultsWritten(q: Queue)
    requires Good(q)
    ensures forall d | d in q.h.results :: d in q.h.ids.write
  {
    hide Conserved, Shape, OutcomeOf, OneToOne, PendingKnown, CallsKnown, Order, Tables, Followed;
  }
}
