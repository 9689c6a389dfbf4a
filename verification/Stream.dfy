/**
 The handle of a message stream: chunks pushed one after another behind a gate, and
 closings that overlap with them and with each other.
 */
module Stream {
  import opened Wrappers

  datatype Chunk = Keepalive | Carrying(content: string)

  datatype Closing = Waiting | Refused | Lost | Confirmed

  datatype Verdict = Fine | StreamClosed | StreamBroken

  /** The hash of a seal stands here as the chunks it is computed from. */
  datatype Seal = Seal(lastSeq: nat, hashed: seq<Chunk>)

  type ClosingId = nat

  datatype Flags = Flags(broken: bool, closings: map<ClosingId, Closing>, nextClosing: nat)

  predicate AnyConfirmed(flags: Flags) {
    exists id :: id in flags.closings && flags.closings[id].Confirmed?
  }

  predicate AllRefused(flags: Flags) {
    forall id | id in flags.closings :: flags.closings[id].Refused?
  }

  /** A chunk passes exactly when nothing broke and every closing was refused. */
  function JudgeChunk(flags: Flags): (v: Verdict)
    ensures v.Fine? <==> !flags.broken && AllRefused(flags)
    ensures v.StreamBroken? <==> flags.broken && !AnyConfirmed(flags)
  {
    if AnyConfirmed(flags) then StreamClosed
    else if flags.broken then StreamBroken
    else if exists id :: id in flags.closings && !flags.closings[id].Refused? then StreamClosed
    else Fine
  }

  function JudgeClosing(flags: Flags, sealed: bool): Verdict {
    if AnyConfirmed(flags) then StreamClosed
    else if sealed && flags.broken then StreamBroken
    else Fine
  }

  predicate Healthy(flags: Flags) {
    !flags.broken && AllRefused(flags)
  }

  function BeginClosing(flags: Flags): Flags {
    flags.(closings := flags.closings[flags.nextClosing := Waiting], nextClosing := flags.nextClosing + 1)
  }

  /** The end of a closing; none when it was never sent. */
  function Settle(flags: Flags, id: ClosingId, outcome: Option<Closing>): Flags {
    flags.(closings := if outcome.Some? then flags.closings[id := outcome.value] else flags.closings - {id})
  }

  predicate CarriesContent(chunks: seq<Chunk>) {
    exists i :: 0 <= i < |chunks| && !chunks[i].Keepalive?
  }

  function SealOf(chunks: seq<Chunk>): Option<Seal> {
    if chunks == [] then None else Some(Seal(|chunks| - 1, chunks))
  }

  /** The seal of a closing: always when it completes the message, else only on a healthy handle. */
  function SealFor(chunks: seq<Chunk>, completed: bool, healthy: bool): Option<Seal> {
    if CarriesContent(chunks) && (completed || healthy) then SealOf(chunks) else None
  }

  // ----- the same, told of the chunks and the closings themselves

  ghost predicate HasContent(chunks: seq<Chunk>) {
    exists k :: 0 <= k < |chunks| && chunks[k].Carrying?
  }

  ghost predicate EachRefused(closings: map<ClosingId, Closing>) {
    forall id | id in closings :: closings[id] == Refused
  }

  // ===== the handle =====

  class Core {
    var chunks: seq<Chunk>
    var broken: bool
    var closings: map<ClosingId, Closing>
    var nextClosing: nat

    ghost function FlagsNow(): Flags
      reads this
    {
      Flags(broken, closings, nextClosing)
    }

    constructor ()
      ensures chunks == [] && FlagsNow() == Flags(false, map[], 0)
    {
      chunks, broken, closings, nextClosing := [], false, map[], 0;
    }

    method Judge() returns (v: Verdict)
      ensures v == JudgeChunk(FlagsNow())
    {
      var confirmed := false;
      var open := false;
      var left := closings.Keys;
      while left != {}
        invariant left <= closings.Keys
        invariant confirmed <==> exists id :: id in closings && id !in left && closings[id].Confirmed?
        invariant open <==> exists id :: id in closings && id !in left && !closings[id].Refused?
        decreases left
      {
        var id :| id in left;
        confirmed := confirmed || closings[id].Confirmed?;
        open := open || !closings[id].Refused?;
        left := left - {id};
      }
      return if confirmed then StreamClosed else if broken then StreamBroken else if open then StreamClosed else Fine;
    }

    /** The part of a push before the backend is called. */
    method StartPush(built: Option<Chunk>) returns (seqNo: Option<nat>)
      modifies this`chunks
      ensures seqNo.Some? <==> JudgeChunk(FlagsNow()).Fine? && built.Some?
      ensures seqNo.Some? <==> !broken && EachRefused(closings) && built.Some?
      ensures seqNo.Some? ==> seqNo.value == |old(chunks)| && chunks == old(chunks) + [built.value]
      ensures seqNo.None? ==> chunks == old(chunks)
    {
      var v := Judge();
      if !v.Fine? || built.None? {
        return None;
      }
      seqNo := Some(|chunks|);
      chunks := chunks + [built.value];
    }

    /** A push that failed, or was dropped while the backend had the chunk. */
    method BreakHandle()
      modifies this`broken
      ensures broken
    {
      broken := true;
    }

    /** The part of `close_message` under the gate; `makes` tells whether the command could be made. */
    method StartClosing(completed: bool, makes: bool) returns (begun: Option<ClosingId>, seal: Option<Seal>)
      modifies this`closings, this`nextClosing
      ensures begun.Some? <==>
                && (forall id | id in old(closings) :: !old(closings)[id].Confirmed?)
                && (completed ==> !broken && HasContent(chunks)) && makes
      ensures begun.None? ==> FlagsNow() == old(FlagsNow())
      ensures begun.Some? ==>
                && begun.value == old(nextClosing) && nextClosing == old(nextClosing) + 1
                && closings == old(closings)[begun.value := Waiting]
      ensures begun.Some? ==>
                (seal.Some? <==> HasContent(chunks) && (completed || (!broken && EachRefused(old(closings)))))
      ensures begun.Some? && seal.Some? ==> chunks != [] && seal.value == Seal(|chunks| - 1, chunks)
      ensures begun.Some? ==> seal == SealFor(chunks, completed, Healthy(old(FlagsNow())))
    {
      if (exists id :: id in closings && closings[id].Confirmed?) || (completed && broken) {
        return None, None;
      }
      var content := CarriesContent(chunks);
      if completed && !content {
        return None, None;
      }
      var healthy := !broken && forall id | id in closings :: closings[id].Refused?;
      seal := if content && (completed || healthy) then SealOf(chunks) else None;
      if !makes {
        return None, seal;
      }
      begun := Some(nextClosing);
      closings := closings[nextClosing := Waiting];
      nextClosing := nextClosing + 1;
    }

    method SettleClosing(id: ClosingId, outcome: Option<Closing>)
      modifies this`closings
      ensures outcome.Some? ==> closings == old(closings)[id := outcome.value]
      ensures outcome.None? ==> closings == old(closings) - {id}
      ensures FlagsNow() == Settle(old(FlagsNow()), id, outcome)
    {
      closings := if outcome.Some? then closings[id := outcome.value] else closings - {id};
    }
  }

  // ===== the protocol, every await a step =====

  /** Who holds the gate, and how far that call is. */
  datatype Gate =
    | Free
    | PushEntered
    | PushJudged
    | Publishing(seqNo: nat)
    | PushFailing
    | CloseEntered(completed: bool)
    | CloseJudged(completed: bool)
    | CloseMade(completed: bool, seal: Option<Seal>)
    | CloseBegun

  /** What a closing carried, and how many chunks there were when it began. */
  datatype Begun = Begun(completed: bool, seal: Option<Seal>, count: nat)

  datatype Handle = Handle(
    chunks: seq<Chunk>,
    flags: Flags,
    gate: Gate,
    sent: seq<(nat, Chunk)>,
    acked: set<nat>,
    begun: map<ClosingId, Begun>)

  datatype Step =
    | EnterPush
    | JudgePush
    | BuildPush(built: Option<Chunk>)
    | Published(ok: bool)
    | DropPush
    | BreakPush
    | EnterClose(completed: bool)
    | JudgeClose
    | MakeClose(makes: bool)
    | BeginClose
    | LeaveGate
    | Ends(id: ClosingId, outcome: Option<Closing>)

  const Fresh := Handle([], Flags(false, map[], 0), Free, [], {}, map[])

  predicate Enabled(s: Handle, step: Step) {
    match step
    case EnterPush => s.gate.Free?
    case JudgePush => s.gate.PushEntered?
    case BuildPush(_) => s.gate.PushJudged?
    case Published(_) => s.gate.Publishing?
    case DropPush => s.gate.Publishing?
    case BreakPush => s.gate.PushFailing?
    case EnterClose(_) => s.gate.Free?
    case JudgeClose => s.gate.CloseEntered?
    case MakeClose(_) => s.gate.CloseJudged?
    case BeginClose => s.gate.CloseMade?
    case LeaveGate => s.gate.CloseBegun?
    // One guard per closing, so it settles once; dropped unsettled it settles as lost.
    case Ends(id, outcome) =>
      id in s.flags.closings && s.flags.closings[id].Waiting? && outcome != Some(Waiting)
  }

  function Apply(s: Handle, step: Step): Handle
    requires Enabled(s, step)
  {
    match step
    case EnterPush => s.(gate := PushEntered)
    case JudgePush => s.(gate := if JudgeChunk(s.flags).Fine? then PushJudged else Free)
    case BuildPush(built) =>
      if built.None? then s.(gate := Free)
      else s.(chunks := s.chunks + [built.value], gate := Publishing(|s.chunks|),
          sent := s.sent + [(|s.chunks|, built.value)])
    case Published(ok) =>
      if ok then s.(gate := Free, acked := s.acked + {s.gate.seqNo}) else s.(gate := PushFailing)
    case DropPush => s.(gate := PushFailing)
    case BreakPush => s.(flags := s.flags.(broken := true), gate := Free)
    case EnterClose(completed) => s.(gate := CloseEntered(completed))
    case JudgeClose =>
      s.(gate := if JudgeClosing(s.flags, s.gate.completed).Fine? then CloseJudged(s.gate.completed) else Free)
    case MakeClose(makes) =>
      if !makes || (s.gate.completed && !CarriesContent(s.chunks)) then s.(gate := Free)
      else s.(gate := CloseMade(s.gate.completed, SealFor(s.chunks, s.gate.completed, Healthy(s.flags))))
    case BeginClose =>
      s.(flags := BeginClosing(s.flags), gate := CloseBegun,
         begun := s.begun[s.flags.nextClosing := Begun(s.gate.completed, s.gate.seal, |s.chunks|)])
    case LeaveGate => s.(gate := Free)
    case Ends(id, outcome) => s.(flags := Settle(s.flags, id, outcome))
  }

  ghost predicate IsRun(states: seq<Handle>, steps: seq<Step>) {
    && |states| == |steps| + 1 && states[0] == Fresh
    && forall i | 0 <= i < |steps| :: Enabled(states[i], steps[i]) && states[i + 1] == Apply(states[i], steps[i])
  }

  // ===== what every step keeps =====

  /** A push that passed the judge holds the gate. */
  predicate InPush(gate: Gate) {
    gate.PushJudged? || gate.Publishing? || gate.PushFailing?
  }

  /** The chunks went out numbered from nought, and the unacknowledged ones broke the handle. */
  ghost predicate Numbered(s: Handle) {
    && |s.sent| == |s.chunks|
    && (forall k | 0 <= k < |s.sent| :: s.sent[k] == (k, s.chunks[k]))
    && (s.gate.Publishing? ==> |s.chunks| == s.gate.seqNo + 1)
    && (!s.flags.broken ==> forall k: nat | k < |s.chunks| ::
          k in s.acked || ((s.gate.Publishing? || s.gate.PushFailing?) && k == |s.chunks| - 1))
  }

  ghost predicate AllAcked(s: Handle, count: nat) {
    forall k: nat | k < count :: k in s.acked
  }

  /** A closing that still stands, or stood to its end, saw all the chunks there are. */
  ghost predicate Standing(s: Handle) {
    && (InPush(s.gate) ==> AllRefused(s.flags))
    && (forall id | id in s.flags.closings && !s.flags.closings[id].Refused? ::
          id in s.begun && s.begun[id].count == |s.chunks|)
    && (forall id | id in s.flags.closings || id in s.begun :: id < s.flags.nextClosing)
  }

  ghost predicate Sealed(s: Handle, seal: Option<Seal>, count: nat, completed: bool) {
    && count <= |s.chunks|
    && (seal.Some? ==> seal == SealOf(s.chunks[..count]) && AllAcked(s, count))
    && (completed ==> seal.Some?)
  }

  ghost predicate Seals(s: Handle) {
    && (forall id | id in s.begun :: Sealed(s, s.begun[id].seal, s.begun[id].count, s.begun[id].completed))
    && (s.gate.CloseJudged? && s.gate.completed ==> !s.flags.broken)
    && (s.gate.CloseMade? ==> Sealed(s, s.gate.seal, |s.chunks|, s.gate.completed))
  }

  ghost predicate Inv(s: Handle) {
    Numbered(s) && Standing(s) && Seals(s)
  }

  lemma SealsStay(s: Handle, s': Handle)
    requires Seals(s) && s'.begun == s.begun && s.chunks <= s'.chunks && s.acked <= s'.acked
    ensures forall id | id in s'.begun :: Sealed(s', s'.begun[id].seal, s'.begun[id].count, s'.begun[id].completed)
  {
    forall id | id in s'.begun ensures Sealed(s', s'.begun[id].seal, s'.begun[id].count, s'.begun[id].completed) {
      assert Sealed(s, s.begun[id].seal, s.begun[id].count, s.begun[id].completed);
      assert s'.chunks[..s.begun[id].count] == s.chunks[..s.begun[id].count];
    }
  }

  lemma StepKeepsNumbered(s: Handle, step: Step)
    requires Inv(s) && Enabled(s, step)
    ensures Numbered(Apply(s, step))
  {
    hide Standing, Seals, AnyConfirmed, AllRefused, CarriesContent;
  }

  lemma StepKeepsStanding(s: Handle, step: Step)
    requires Inv(s) && Enabled(s, step)
    ensures Standing(Apply(s, step))
  {
    hide Numbered, Seals, CarriesContent;
  }

  lemma MadeIsSealed(s: Handle)
    requires Inv(s) && s.gate.CloseJudged? && (s.gate.completed ==> CarriesContent(s.chunks))
    ensures Sealed(s, SealFor(s.chunks, s.gate.completed, Healthy(s.flags)), |s.chunks|, s.gate.completed)
  {
    assert s.chunks[..|s.chunks|] == s.chunks;
  }

  lemma StepKeepsSeals(s: Handle, step: Step)
    requires Inv(s) && Enabled(s, step)
    ensures Seals(Apply(s, step))
  {
    var s' := Apply(s, step);
    hide Standing, CarriesContent, SealOf;
    match step
    case MakeClose(makes) =>
      if s'.gate.CloseMade? {
        MadeIsSealed(s);
      }
      hide Numbered;
      SealsStay(s, s');
    case BeginClose =>
      hide Numbered;
    case _ =>
      hide Numbered;
      SealsStay(s, s');
  }

  lemma StepKeeps(s: Handle, step: Step)
    requires Inv(s) && Enabled(s, step)
    ensures Inv(Apply(s, step))
  {
    StepKeepsNumbered(s, step);
    StepKeepsStanding(s, step);
    StepKeepsSeals(s, step);
  }

  lemma {:induction false} RunKeeps(states: seq<Handle>, steps: seq<Step>, i: nat)
    requires IsRun(states, steps) && i < |states|
    ensures Inv(states[i])
  {
    hide Inv, Apply, Enabled;
    if i == 0 {
      FreshHolds();
    } else {
      RunKeeps(states, steps, i - 1);
      StepKeeps(states[i - 1], steps[i - 1]);
    }
  }

  lemma FreshHolds()
    ensures Inv(Fresh)
  {}

  /** A closing that was lost or confirmed stays so, and from its beginning no chunk was or will be added. */
  ghost predicate Closed(s: Handle, id: ClosingId) {
    id in s.flags.closings && (s.flags.closings[id].Lost? || s.flags.closings[id].Confirmed?)
  }

  lemma ClosedStep(s: Handle, step: Step, id: ClosingId)
    requires Inv(s) && Enabled(s, step) && Closed(s, id)
    ensures var s' := Apply(s, step);
            && id in s'.flags.closings && s'.flags.closings[id] == s.flags.closings[id]
            && s'.chunks == s.chunks && s'.sent == s.sent
            && id in s.begun && id in s'.begun && s'.begun[id] == s.begun[id]
  {
    hide Numbered, Seals, CarriesContent;
  }

  // ===== the theorems =====

  lemma {:induction false} ClosedForEver(states: seq<Handle>, steps: seq<Step>, i: nat, j: nat, id: ClosingId)
    requires IsRun(states, steps) && i <= j < |states| && Closed(states[i], id)
    ensures id in states[j].flags.closings && states[j].flags.closings[id] == states[i].flags.closings[id]
    ensures states[j].chunks == states[i].chunks && states[j].sent == states[i].sent
    ensures id in states[i].begun && id in states[j].begun && states[j].begun[id] == states[i].begun[id]
  {
    hide Apply, Enabled, Numbered, Seals;
    if i < j {
      ClosedForEver(states, steps, i, j - 1, id);
      RunKeeps(states, steps, j - 1);
      assert Closed(states[j - 1], id);
      ClosedStep(states[j - 1], steps[j - 1], id);
    } else {
      RunKeeps(states, steps, i);
    }
  }

  /**
   A closing that ended confirmed or lost freezes the chunks for good, and a seal it carried
   covers exactly the final chunks: they went out numbered from nought without gap, its last
   number is that of the last chunk, it hashes all of them in order, and each was acknowledged.
   */
  lemma SealCoversFinalChunks(states: seq<Handle>, steps: seq<Step>, i: nat, j: nat, id: ClosingId)
    requires IsRun(states, steps) && i <= j < |states| && Closed(states[i], id)
    ensures id in states[i].begun && states[j].chunks == states[i].chunks
    ensures |states[j].sent| == |states[j].chunks|
    ensures forall k | 0 <= k < |states[j].sent| :: states[j].sent[k] == (k, states[j].chunks[k])
    ensures states[i].begun[id].seal.Some? ==>
              && states[j].chunks != []
              && states[i].begun[id].seal == Some(Seal(|states[j].chunks| - 1, states[j].chunks))
              && forall k: nat | k < |states[j].chunks| :: k in states[j].acked
    ensures states[i].begun[id].completed ==> states[i].begun[id].seal.Some?
  {
    hide Apply, Enabled;
    ClosedForEver(states, steps, i, j, id);
    RunKeeps(states, steps, i);
    RunKeeps(states, steps, j);
    var s := states[j];
    assert Sealed(s, s.begun[id].seal, s.begun[id].count, s.begun[id].completed);
    assert s.begun[id].count == |s.chunks|;
    assert s.chunks[..|s.chunks|] == s.chunks;
  }

  /** However many closings overlap, those that ended confirmed or lost carry the same seal or none. */
  lemma SealsAgree(states: seq<Handle>, steps: seq<Step>, i: nat, a: ClosingId, b: ClosingId)
    requires IsRun(states, steps) && i < |states| && Closed(states[i], a) && Closed(states[i], b)
    ensures a in states[i].begun && b in states[i].begun
    ensures states[i].begun[a].seal.Some? && states[i].begun[b].seal.Some? ==>
              states[i].begun[a].seal == states[i].begun[b].seal
  {
    SealCoversFinalChunks(states, steps, i, i, a);
    SealCoversFinalChunks(states, steps, i, i, b);
  }

  /** A closing has passed its judge and holds the gate. */
  predicate PastJudge(gate: Gate) {
    gate.CloseJudged? || gate.CloseMade?
  }

  /** After a closing was confirmed none begins any more, but for one that had passed its judge. */
  lemma {:induction false} ConfirmedIsLast(states: seq<Handle>, steps: seq<Step>, i: nat, j: nat, id: ClosingId)
    requires IsRun(states, steps) && i <= j < |states| && !PastJudge(states[i].gate)
    requires id in states[i].flags.closings && states[i].flags.closings[id].Confirmed?
    ensures states[j].begun == states[i].begun && !PastJudge(states[j].gate)
  {
    if i < j {
      ConfirmedIsLast(states, steps, i, j - 1, id);
      ClosedForEver(states, steps, i, j - 1, id);
      assert AnyConfirmed(states[j - 1].flags);
      hide AnyConfirmed, AllRefused, CarriesContent;
      assert states[j] == Apply(states[j - 1], steps[j - 1]);
    }
  }

  // ----- when a closing begins, and with which seal

  /** The closing that holds the gate has passed its judge. */
  lemma {:induction false} JudgedBefore(states: seq<Handle>, steps: seq<Step>, i: nat) returns (j: nat)
    requires IsRun(states, steps) && i < |states| && states[i].gate.CloseJudged?
    ensures j < i && steps[j] == JudgeClose && states[j].gate == CloseEntered(states[i].gate.completed)
    ensures forall id | id in states[j].flags.closings :: !states[j].flags.closings[id].Confirmed?
    ensures states[i].gate.completed ==> !states[j].flags.broken
  {
    if steps[i - 1] == JudgeClose {
      j := i - 1;
    } else {
      j := JudgedBefore(states, steps, i - 1);
    }
  }

  /** What is made of a judged closing: the step, the judge before it, and the seal. */
  lemma {:induction false} MadeBefore(states: seq<Handle>, steps: seq<Step>, i: nat) returns (j: nat, g: nat)
    requires IsRun(states, steps) && i < |states| && states[i].gate.CloseMade?
    ensures j < g < i && steps[j] == JudgeClose && steps[g].MakeClose? && steps[g].makes
    ensures states[j].gate == CloseEntered(states[i].gate.completed)
    ensures forall id | id in states[j].flags.closings :: !states[j].flags.closings[id].Confirmed?
    ensures var completed := states[i].gate.completed;
            && (completed ==> !states[j].flags.broken && HasContent(states[g].chunks))
            && states[i].chunks == states[g].chunks
            && (states[i].gate.seal.Some? <==>
                  && HasContent(states[g].chunks)
                  && (completed || (!states[g].flags.broken && EachRefused(states[g].flags.closings))))
  {
    if steps[i - 1].MakeClose? {
      g := i - 1;
      j := JudgedBefore(states, steps, g);
    } else {
      j, g := MadeBefore(states, steps, i - 1);
    }
  }

  /**
   A closing begins only after its judge found no closing confirmed, and the handle unbroken when it
   completes the message. It carries a seal exactly if there was content when it was made, and it
   completes the message or the handle was unbroken then with every closing refused.
   */
  lemma BegunAsJudged(states: seq<Handle>, steps: seq<Step>, i: nat) returns (j: nat, g: nat)
    requires IsRun(states, steps) && i < |steps| && steps[i] == BeginClose
    ensures j < g < i && steps[j] == JudgeClose && steps[g].MakeClose?
    ensures forall id | id in states[j].flags.closings :: !states[j].flags.closings[id].Confirmed?
    ensures var id := states[i].flags.nextClosing;
            && id in states[i + 1].begun && id in states[i + 1].flags.closings
            && states[i + 1].flags.closings[id].Waiting?
            && var begun := states[i + 1].begun[id];
               && (begun.completed ==> !states[j].flags.broken && HasContent(states[g].chunks))
               && (begun.seal.Some? <==>
                     && HasContent(states[g].chunks)
                     && (begun.completed || (!states[g].flags.broken && EachRefused(states[g].flags.closings))))
  {
    j, g := MadeBefore(states, steps, i);
  }

  /** A closing that holds the gate begins if it can: the judge lets it pass and its command can be made. */
  lemma ClosingGoesOn(s: Handle)
    ensures s.gate.CloseEntered? && (forall id | id in s.flags.closings :: !s.flags.closings[id].Confirmed?)
            && (s.gate.completed ==> !s.flags.broken) ==>
              Enabled(s, JudgeClose) && Apply(s, JudgeClose).gate == CloseJudged(s.gate.completed)
    ensures s.gate.CloseJudged? && (s.gate.completed ==> HasContent(s.chunks)) ==>
              Enabled(s, MakeClose(true)) && Apply(s, MakeClose(true)).gate.CloseMade?
  {}

  /** A push that holds the gate goes on exactly on an unbroken handle with every closing refused. */
  lemma PushGoesOn(s: Handle, built: Option<Chunk>)
    ensures s.gate.PushEntered? ==>
              && Enabled(s, JudgePush)
              && (Apply(s, JudgePush).gate.PushJudged? <==> !s.flags.broken && EachRefused(s.flags.closings))
    ensures s.gate.PushJudged? ==>
              && Enabled(s, BuildPush(built))
              && Apply(s, BuildPush(built)).chunks == s.chunks + (if built.Some? then [built.value] else [])
              && (Apply(s, BuildPush(built)).gate == Publishing(|s.chunks|) <==> built.Some?)
  {}

  /** The outcome of a closing is kept: refused for good, lost for good, confirmed for good, or forgotten. */
  lemma {:induction false} OutcomeStays(states: seq<Handle>, steps: seq<Step>, i: nat, j: nat, id: ClosingId)
    requires IsRun(states, steps) && i < j < |states| && steps[i].Ends? && steps[i].id == id
    ensures if steps[i].outcome.Some? then
              id in states[j].flags.closings && states[j].flags.closings[id] == steps[i].outcome.value
            else
              id !in states[j].flags.closings
    ensures id < states[j].flags.nextClosing
  {
    assert states[j] == Apply(states[j - 1], steps[j - 1]);
    if i + 1 < j {
      OutcomeStays(states, steps, i, j - 1, id);
    } else {
      RunKeeps(states, steps, i);
    }
  }

  /** While a closing waits for its outcome the chunks are those it began with. */
  lemma NothingPassesAWaitingClosing(states: seq<Handle>, steps: seq<Step>, i: nat, id: ClosingId)
    requires IsRun(states, steps) && i < |states| && id in states[i].flags.closings
        && states[i].flags.closings[id].Waiting?
    ensures id in states[i].begun && states[i].begun[id].count == |states[i].chunks|
    ensures !InPush(states[i].gate)
  {
    hide Apply, Enabled, Numbered, Seals;
    RunKeeps(states, steps, i);
  }
}
