/**
 The writes of a Run, their names in the dependency table, and the rule that
 removes a write because of an earlier one.
 */
module Writes {
  import opened Wrappers

  type Uuid = nat

  datatype CredentialKind = NoUsable | FetchFailed

  datatype RefusalReason = Busy | InstanceUnknown | ClaimSpent | MalformedClaim | OtherReason(word: string)

  datatype Error =
    | InvalidInput(text: string)
    | Credential(kind: CredentialKind)
    | Unauthenticated
    | Unavailable(text: string)
    | Lost(text: string)
    | Refused(reason: RefusalReason, text: string)
    | InfraMissing(text: string)
    | Unreadable(text: string)
    | BookDropped

  datatype CallMode = Sync | Background(callerAddress: Uuid)

  datatype Fact = PlanFact | StepFact | CompletedFact | FailedFact(code: string, cause: Option<Error>)

  datatype Write =
    | Started(startId: Uuid)
    | Registration(agentId: Uuid)
    | Mail(mailId: Uuid, fromAddress: Uuid)
    | Marker(itemId: Uuid, agentId: Uuid, entryId: Uuid)
    | Upload(jobId: Uuid, content: string)
    | Create(jobId: Uuid, commandId: Uuid, mode: CallMode)
    | Finish(jobId: Uuid, commandId: Uuid)
    | Cancel(jobId: Uuid, commandId: Uuid)
    | Answer(content: string)
    | SavedState(value: string)
    | RunFact(fact: Fact)

  datatype Removal =
    | RefusedBy(error: Error)
    | FailedWith(error: Error)
    | DependsOnRemoved
    | LeftUnsent

  datatype WriteResult = Ok | Err(removal: Removal)

  datatype DepKey =
    | StartedKey
    | RegistrationKey(agentId: Uuid)
    | UploadKey(jobId: Uuid)
    | CreateKey(jobId: Uuid)
    | AnswerKey
    | SavedStateKey

  datatype Ended =
    | WasDelivered
    | WasRefused(error: Error)
    | HasFailed
    | Depends
    | Unsent

  function EndedOf(result: WriteResult): Ended {
    match result
    case Ok => WasDelivered
    case Err(RefusedBy(error)) => WasRefused(error)
    case Err(FailedWith(_)) => HasFailed
    case Err(DependsOnRemoved) => Depends
    case Err(LeftUnsent) => Unsent
  }

  /** The key under which the end of a write is kept, if any write depends on its kind. */
  function OwnKey(write: Write): Option<DepKey> {
    match write
    case Started(_) => Some(StartedKey)
    case Registration(agentId) => Some(RegistrationKey(agentId))
    case Upload(jobId, _) => Some(UploadKey(jobId))
    case Create(jobId, _, _) => Some(CreateKey(jobId))
    case Answer(_) => Some(AnswerKey)
    case SavedState(_) => Some(SavedStateKey)
    case _ => None
  }

  /** The keys a write depends on, in the order in which they are looked up. */
  function DependsOn(write: Write): seq<DepKey> {
    (if write.Started? then [] else [StartedKey]) +
    match write
    case Mail(_, fromAddress) => [RegistrationKey(fromAddress)]
    case Marker(_, agentId, _) => [RegistrationKey(agentId)]
    case Create(jobId, _, mode) =>
      [UploadKey(jobId)] + (if mode.Background? then [RegistrationKey(mode.callerAddress)] else [])
    case Finish(jobId, _) => [CreateKey(jobId)]
    case Cancel(jobId, _) => [CreateKey(jobId)]
    case RunFact(CompletedFact) => [AnswerKey, SavedStateKey]
    case _ => []
  }

  // ----- who waits for whom, told by the writes themselves

  /**
   What a write must not go without: Started for every other write, the registration of an agent
   for its mails, its markers and the background jobs it calls, the upload for the create of its
   job, the create for the finish and the cancel, the answer and the saved state for the completed
   fact.
   */
  predicate Needs(write: Write, dep: Write) {
    || (dep.Started? && !write.Started?)
    || (dep.Registration? && write.Mail? && write.fromAddress == dep.agentId)
    || (dep.Registration? && write.Marker? && write.agentId == dep.agentId)
    || (dep.Registration? && write.Create? && write.mode == Background(dep.agentId))
    || (dep.Upload? && write.Create? && write.jobId == dep.jobId)
    || (dep.Create? && (write.Finish? || write.Cancel?) && write.jobId == dep.jobId)
    || ((dep.Answer? || dep.SavedState?) && write == RunFact(CompletedFact))
  }

  /** The ends of these two writes are kept in the same place. */
  predicate SamePlace(c: Write, d: Write) {
    || (c.Started? && d.Started?)
    || (c.Registration? && d.Registration? && c.agentId == d.agentId)
    || (c.Upload? && d.Upload? && c.jobId == d.jobId)
    || (c.Create? && d.Create? && c.jobId == d.jobId)
    || (c.Answer? && d.Answer?)
    || (c.SavedState? && d.SavedState?)
  }

  /** The same, for the place under which the end of such a write is kept. */
  predicate NeedsKey(write: Write, key: DepKey) {
    match key
    case StartedKey => !write.Started?
    case RegistrationKey(agent) =>
      || (write.Mail? && write.fromAddress == agent)
      || (write.Marker? && write.agentId == agent)
      || (write.Create? && write.mode == Background(agent))
    case UploadKey(job) => write.Create? && write.jobId == job
    case CreateKey(job) => (write.Finish? || write.Cancel?) && write.jobId == job
    case AnswerKey => write == RunFact(CompletedFact)
    case SavedStateKey => write == RunFact(CompletedFact)
  }

  /** The keys looked up for a write are the places of exactly what it needs. */
  lemma DependsOnItsNeeds(write: Write, key: DepKey)
    ensures key in DependsOn(write) <==> NeedsKey(write, key)
  {}

  /** The keys tell the same story as the writes: who needs whom, and whose ends share a place. */
  lemma KeysTellNeeds(write: Write, dep: Write)
    ensures Needs(write, dep) <==> OwnKey(dep).Some? && OwnKey(dep).value in DependsOn(write)
    ensures SamePlace(write, dep) <==> OwnKey(dep).Some? && OwnKey(write) == OwnKey(dep)
  {}

  /** What the end recorded under one key does to a write that depends on it. */
  function BlockedAt(write: Write, key: DepKey, ended: map<DepKey, Ended>): Option<Removal> {
    if key !in ended || ended[key].WasDelivered? then None
    else if ended[key].WasRefused? && write.Create? && key.UploadKey? then Some(RefusedBy(ended[key].error))
    else Some(DependsOnRemoved)
  }

  function FirstBlock(write: Write, keys: seq<DepKey>, ended: map<DepKey, Ended>): Option<Removal> {
    if keys == [] then None
    else
      var first := BlockedAt(write, keys[0], ended);
      if first.Some? then first else FirstBlock(write, keys[1..], ended)
  }

  function Blocked(write: Write, ended: map<DepKey, Ended>): Option<Removal> {
    FirstBlock(write, DependsOn(write), ended)
  }

  /** Every dependency that has ended so far ended delivered. */
  ghost predicate Unblocked(write: Write, ended: map<DepKey, Ended>) {
    forall key | NeedsKey(write, key) && key in ended :: ended[key].WasDelivered?
  }

  lemma {:induction false} FirstBlockNone(write: Write, keys: seq<DepKey>, ended: map<DepKey, Ended>)
    ensures FirstBlock(write, keys, ended).None? <==>
            forall key | key in keys && key in ended :: ended[key].WasDelivered?
  {
    if keys != [] {
      FirstBlockNone(write, keys[1..], ended);
      assert keys == [keys[0]] + keys[1..];
    }
  }

  /** A write is let through exactly when no dependency that ended was removed. */
  lemma BlockedIffRemovedDependency(write: Write, ended: map<DepKey, Ended>)
    ensures Blocked(write, ended).None? <==> Unblocked(write, ended)
  {
    FirstBlockNone(write, DependsOn(write), ended);
    forall key ensures key in DependsOn(write) <==> NeedsKey(write, key) {
      DependsOnItsNeeds(write, key);
    }
  }

  lemma {:induction false} FirstBlockReason(write: Write, keys: seq<DepKey>, ended: map<DepKey, Ended>)
    requires FirstBlock(write, keys, ended).Some?
    ensures exists i :: 0 <= i < |keys| && FirstBlock(write, keys, ended) == BlockedAt(write, keys[i], ended)
                        && forall j | 0 <= j < i :: BlockedAt(write, keys[j], ended).None?
  {
    if BlockedAt(write, keys[0], ended).Some? {
      assert FirstBlock(write, keys, ended) == BlockedAt(write, keys[0], ended);
    } else {
      FirstBlockReason(write, keys[1..], ended);
      var i :| 0 <= i < |keys[1..]|
               && FirstBlock(write, keys[1..], ended) == BlockedAt(write, keys[1..][i], ended)
               && forall j | 0 <= j < i :: BlockedAt(write, keys[1..][j], ended).None?;
      assert keys[1..][i] == keys[i + 1];
      forall j | 0 <= j < i + 1 ensures BlockedAt(write, keys[j], ended).None? {
        if j > 0 {
          assert keys[1..][j - 1] == keys[j];
        }
      }
    }
  }

  /**
   A blocked write takes over a refusal only when it is a create whose upload was
   refused while Started stands; every other block reads as a removed dependency.
   */
  lemma BlockedReason(write: Write, ended: map<DepKey, Ended>)
    requires Blocked(write, ended).Some?
    ensures Blocked(write, ended).value.DependsOnRemoved? || Blocked(write, ended).value.RefusedBy?
    ensures Blocked(write, ended).value.RefusedBy? <==>
            && write.Create?
            && UploadKey(write.jobId) in ended
            && ended[UploadKey(write.jobId)].WasRefused?
            && (StartedKey in ended ==> ended[StartedKey].WasDelivered?)
    ensures Blocked(write, ended).value.RefusedBy? ==>
            Blocked(write, ended).value.error == ended[UploadKey(write.jobId)].error
  {
    FirstBlockReason(write, DependsOn(write), ended);
    if write.Create? {
      assert DependsOn(write)[0] == StartedKey && DependsOn(write)[1] == UploadKey(write.jobId);
    }
  }

  /** The look-up of the source: one pass over the keys with an early return. */
  method BlockedLoop(write: Write, ended: map<DepKey, Ended>) returns (removal: Option<Removal>)
    ensures removal == Blocked(write, ended)
    ensures removal.None? <==> Unblocked(write, ended)
  {
    BlockedIffRemovedDependency(write, ended);
    var keys := DependsOn(write);
    for i := 0 to |keys|
      invariant FirstBlock(write, keys, ended) == FirstBlock(write, keys[i..], ended)
    {
      var key := keys[i];
      assert keys[i..][0] == key && keys[i..][1..] == keys[i + 1..];
      if key in ended && !ended[key].WasDelivered? {
        if ended[key].WasRefused? && write.Create? && key.UploadKey? {
          return Some(RefusedBy(ended[key].error));
        }
        return Some(DependsOnRemoved);
      }
    }
    return None;
  }

  /** Whether a failed attempt is made again. */
  predicate Resendable(write: Write, error: Error) {
    match error
    case Unavailable(_) => true
    case Lost(_) => true
    case Unreadable(_) => true
    case Credential(kind) => kind.FetchFailed?
    case Refused(reason, _) => write.Started? && reason.InstanceUnknown?
    case _ => false
  }

  /** The end of an attempt whose error is not made again. */
  function RemovalOf(error: Error): Removal {
    if error.Refused? then RefusedBy(error) else FailedWith(error)
  }
}
