/**
 The items of one thread on their way to the backend: a first-in first-out line, a
 worker that exists only while there is work, and the waits on the line.
 */
module ThreadLine {
  import opened Wrappers
  import Stream

  type Uuid = nat

  datatype Body =
    | WholeMessage
    | Opening
    | ChunkBody(seqNo: nat, chunk: Stream.Chunk)
    | ClosingBody(seal: Option<Stream.Seal>)

  datatype Item = Item(id: Uuid, agent: Uuid, message: Uuid, entries: seq<Uuid>, body: Body)

  datatype Queued = Queued(item: Item, no: nat)

  datatype Error = Unavailable | LostOutcome | Unreadable | BrokenStream | OtherError

  /** How an item ended; the error is the one it is reported with. */
  datatype How = Delivered | Refused(error: Error) | Unsent

  predicate Retryable(body: Body, error: Error) {
    if body.ChunkBody? then error.BrokenStream?
    else error.Unavailable? || error.LostOutcome? || error.Unreadable?
  }

  datatype Line = Line(
    items: seq<Queued>,
    lastFailure: Option<(Uuid, Error)>,
    dropped: set<Uuid>,
    workerRunning: bool,
    lastNo: nat)

  predicate Carries(item: Item, entry: Uuid) {
    entry in item.entries
  }

  function EntriesOf(item: Item): set<Uuid> {
    set e | e in item.entries
  }

  function PushBack(line: Line, item: Item, no: nat): Line {
    line.(items := line.items + [Queued(item, no)], dropped := line.dropped - EntriesOf(item),
          workerRunning := true, lastNo := no)
  }

  function PopFront(items: seq<Queued>): seq<Queued> {
    if items == [] then [] else items[1..]
  }

  /** The section of `end_item`. */
  function EndHead(line: Line, head: Queued, how: How): Line {
    line.(items := PopFront(line.items), lastFailure := None,
          dropped := if how.Delivered? then line.dropped else line.dropped + EntriesOf(head.item))
  }

  datatype WaitKind = ForDrain(target: nat) | ForEntry(entry: Uuid)

  datatype Answer = Drained | EntryStored | EntryDropped

  /** What a look at the line answers to a wait; none when it has to sleep. */
  function AnswerTo(line: Line, kind: WaitKind): Option<Answer> {
    match kind
    case ForDrain(target) => if line.items == [] || line.items[0].no > target then Some(Drained) else None
    case ForEntry(entry) =>
      if entry in line.dropped then Some(EntryDropped)
      else if exists i :: 0 <= i < |line.items| && Carries(line.items[i].item, entry) then None
      else Some(EntryStored)
  }

  /** The line behind its lock; each method is one section. */
  class QueueInner {
    var items: seq<Queued>
    var lastFailure: Option<(Uuid, Error)>
    var dropped: set<Uuid>
    var workerRunning: bool
    var lastNo: nat

    ghost function Value(): Line
      reads this
    {
      Line(items, lastFailure, dropped, workerRunning, lastNo)
    }

    constructor ()
      ensures Value() == Line([], None, {}, false, 0)
    {
      items, lastFailure, dropped, workerRunning, lastNo := [], None, {}, false, 0;
    }

    /** False when the adapter is stopped; `spawn` tells that a worker must be started. */
    method Enqueue(item: Item, no: nat, stopped: bool) returns (queued: bool, spawn: bool)
      modifies this
      ensures queued == !stopped && spawn == (queued && !old(workerRunning))
      ensures Value() == if queued then PushBack(old(Value()), item, no) else old(Value())
    {
      if stopped {
        return false, false;
      }
      for i := 0 to |item.entries|
        invariant Value() == old(Value()).(dropped := old(dropped) - (set e | e in item.entries[..i]))
      {
        dropped := dropped - {item.entries[i]};
        assert item.entries[..i + 1] == item.entries[..i] + [item.entries[i]];
      }
      assert item.entries[..|item.entries|] == item.entries;
      items := items + [Queued(item, no)];
      lastNo := no;
      queued, spawn := true, !workerRunning;
      workerRunning := true;
    }

    /** The head to work on; with none the worker is over. */
    method TakeHead() returns (head: Option<Queued>)
      modifies this`workerRunning
      ensures head == if items == [] then None else Some(items[0])
      ensures workerRunning == (old(workerRunning) && items != [])
    {
      if items == [] {
        workerRunning := false;
        return None;
      }
      return Some(items[0]);
    }

    method EndItem(head: Queued, how: How)
      modifies this
      ensures Value() == EndHead(old(Value()), head, how)
    {
      items := if items == [] then [] else items[1..];
      lastFailure := None;
      if how != Delivered {
        dropped := dropped + EntriesOf(head.item);
      }
    }

    method Look(kind: WaitKind) returns (answer: Option<Answer>)
      ensures answer == AnswerTo(Value(), kind)
    {
      if kind.ForDrain? {
        return if items == [] || items[0].no > kind.target then Some(Drained) else None;
      }
      if kind.entry in dropped {
        return Some(EntryDropped);
      }
      var i := 0;
      while i < |items| && kind.entry !in items[i].item.entries
        invariant i <= |items|
        invariant forall j | 0 <= j < i :: !Carries(items[j].item, kind.entry)
      {
        i := i + 1;
      }
      if i < |items| {
        assert Carries(items[i].item, kind.entry);
        return None;
      }
      return Some(EntryStored);
    }
  }

  // ===== the slot of a thread, every section and every await a step =====

  datatype Pc =
    | Looking
    | Took(head: Queued)
    | Attempting(head: Queued)
    | Rejected(head: Queued, error: Error)
    | Sleeping
    | Ending(head: Queued, how: How)
    | Popping(head: Queued, how: How)
    | Bumping
    | Removing

  /** The call that holds the order lock, from its number to its return. */
  datatype Producer =
    | Idle
    | Numbered(item: Item, no: nat)
    | Pushed(spawn: bool)
    | Signalled(spawn: bool)

  datatype Phase = Subscribing | Checking | Asleep | Answered(answer: Answer)

  /** `handedBefore` counts the items in the line when the wait began. */
  datatype Wait = Wait(kind: WaitKind, phase: Phase, seen: nat, handedBefore: nat)

  /** How an item ended, and how many had been queued by then. */
  datatype Ended = Ended(queued: Queued, how: How, queuedThen: nat)

  datatype History = History(handed: seq<Item>, pushed: seq<Queued>, log: seq<Ended>)

  datatype Slot = Slot(
    line: Line,
    numbers: nat,
    version: nat,
    stopped: bool,
    refused: set<Uuid>,
    broken: set<Uuid>,
    producer: Producer,
    workers: map<nat, Pc>,
    waits: map<nat, Wait>,
    h: History)

  datatype Step =
    | Elsewhere(numbers: nat, refused: set<Uuid>, broken: set<Uuid>)
    | Stop
    | TakeNumber(item: Item)
    | Push
    | Bump
    | Spawn(worker: nat)
    | Abort(worker: nat)
    | LookAtHead(worker: nat)
    | CheckRefused(worker: nat)
    | Reply(worker: nat, error: Option<Error>)
    | Retry(worker: nat)
    | Refuse(worker: nat)
    | Break(worker: nat)
    | Pop(worker: nat)
    | BumpEnd(worker: nat)
    | Removed(worker: nat)
    | StartDrain(wait: nat)
    | StartEntry(wait: nat, entry: Uuid)
    | Subscribe(wait: nat)
    | Check(wait: nat)
    | Wake(wait: nat)

  const FreshSlot :=
    Slot(Line([], None, {}, false, 0), 0, 0, false, {}, {}, Idle, map[], map[], History([], [], []))

  predicate At(s: Slot, worker: nat, p: Pc -> bool) {
    worker in s.workers && p(s.workers[worker])
  }

  predicate Enabled(s: Slot, step: Step) {
    match step
    // Other threads number their items too, and mark and forget messages of their own.
    case Elsewhere(numbers, refused, broken) =>
      && s.numbers <= numbers && s.refused <= refused
      && forall k | 0 <= k < |s.h.handed| && s.h.handed[k].message in s.broken :: s.h.handed[k].message in broken
    case Stop => true
    case TakeNumber(_) => s.producer.Idle?
    case Push => s.producer.Numbered?
    case Bump => s.producer.Pushed?
    case Spawn(worker) => s.producer.Signalled? && worker !in s.workers
    case Abort(worker) => s.stopped
        && At(s, worker, (p: Pc) => p.Looking? || p.Attempting? || p.Sleeping? || p.Removing?)
    case LookAtHead(worker) => At(s, worker, (p: Pc) => p.Looking?)
    case CheckRefused(worker) => At(s, worker, (p: Pc) => p.Took?)
    case Reply(worker, _) => At(s, worker, (p: Pc) => p.Attempting?)
    case Retry(worker) => At(s, worker, (p: Pc) => p.Sleeping?)
    case Refuse(worker) => At(s, worker, (p: Pc) => p.Rejected?)
    case Break(worker) => At(s, worker, (p: Pc) => p.Ending?)
    case Pop(worker) => At(s, worker, (p: Pc) => p.Popping?)
    case BumpEnd(worker) => At(s, worker, (p: Pc) => p.Bumping?)
    case Removed(worker) => At(s, worker, (p: Pc) => p.Removing?)
    case StartDrain(wait) => wait !in s.waits
    case StartEntry(wait, _) => wait !in s.waits
    case Subscribe(wait) => wait in s.waits && s.waits[wait].phase.Subscribing?
    case Check(wait) => wait in s.waits && s.waits[wait].phase.Checking?
    case Wake(wait) => wait in s.waits && s.waits[wait].phase.Asleep? && s.waits[wait].seen != s.version
  }

  function Move(s: Slot, worker: nat, pc: Pc): Slot {
    s.(workers := s.workers[worker := pc])
  }

  function SetWait(s: Slot, wait: nat, w: Wait): Slot {
    s.(waits := s.waits[wait := w])
  }

  function DoPush(s: Slot): Slot
    requires s.producer.Numbered?
  {
    if s.stopped then s.(producer := Idle)
    else s.(line := PushBack(s.line, s.producer.item, s.producer.no),
            producer := Pushed(!s.line.workerRunning),
            h := s.h.(pushed := s.h.pushed + [Queued(s.producer.item, s.producer.no)]))
  }

  function DoLook(s: Slot, worker: nat): Slot {
    if s.line.items == [] then s.(line := s.line.(workerRunning := false), workers := s.workers - {worker})
    else Move(s, worker, Took(s.line.items[0]))
  }

  function DoReply(s: Slot, worker: nat, error: Option<Error>): Slot
    requires At(s, worker, (p: Pc) => p.Attempting?)
  {
    var head := s.workers[worker].head;
    if error.None? then Move(s, worker, Ending(head, Delivered))
    else if Retryable(head.item.body, error.value) then
      Move(s, worker, Sleeping).(line := s.line.(lastFailure := Some((head.item.id, error.value))))
    else Move(s, worker, Rejected(head, error.value))
  }

  function DoPop(s: Slot, worker: nat): Slot
    requires At(s, worker, (p: Pc) => p.Popping?)
  {
    var pc := s.workers[worker];
    Move(s, worker, Bumping).(line := EndHead(s.line, pc.head, pc.how),
                              h := s.h.(log := s.h.log + [Ended(pc.head, pc.how, |s.h.pushed|)]))
  }

  /** The steps of a worker that leave the line alone. */
  function DoWorker(s: Slot, step: Step): Slot
    requires Enabled(s, step)
    requires step.CheckRefused? || step.Retry? || step.Refuse? || step.Break? || step.BumpEnd? || step.Removed?
  {
    var pc := s.workers[step.worker];
    match step
    case CheckRefused(worker) =>
      if !pc.head.item.body.Opening? && pc.head.item.message in s.refused
      then Move(s, worker, Ending(pc.head, Unsent))
      else Move(s, worker, Attempting(pc.head))
    case Retry(worker) => Move(s, worker, Looking)
    case Refuse(worker) =>
      Move(s, worker, Ending(pc.head, Refused(pc.error)))
      .(refused := if pc.head.item.body.Opening? then s.refused + {pc.head.item.message} else s.refused)
    case Break(worker) =>
      Move(s, worker, Popping(pc.head, pc.how))
      .(broken := if pc.head.item.body.ChunkBody? && !pc.how.Delivered? then s.broken + {pc.head.item.message}
          else s.broken)
    case BumpEnd(worker) => Move(s, worker, Removing).(version := s.version + 1)
    case Removed(worker) => Move(s, worker, Looking)
  }

  function DoCheck(s: Slot, wait: nat): Slot
    requires wait in s.waits
  {
    var w := s.waits[wait];
    var answer := AnswerTo(s.line, w.kind);
    SetWait(s, wait, w.(phase := if answer.Some? then Answered(answer.value) else Asleep))
  }

  function Apply(s: Slot, step: Step): Slot
    requires Enabled(s, step)
  {
    match step
    case Elsewhere(numbers, refused, broken) => s.(numbers := numbers, refused := refused, broken := broken)
    case Stop => s.(stopped := true)
    case TakeNumber(item) =>
      s.(numbers := s.numbers + 1, producer := Numbered(item, s.numbers + 1), h := s.h.(handed := s.h.handed + [item]))
    case Push => DoPush(s)
    case Bump => s.(version := s.version + 1, producer := Signalled(s.producer.spawn))
    case Spawn(worker) =>
      s.(producer := Idle, workers := if s.producer.spawn then s.workers[worker := Looking] else s.workers)
    case Abort(worker) => s.(workers := s.workers - {worker})
    case LookAtHead(worker) => DoLook(s, worker)
    case Reply(worker, error) => DoReply(s, worker, error)
    case Pop(worker) => DoPop(s, worker)
    case StartDrain(wait) => SetWait(s, wait, Wait(ForDrain(s.line.lastNo), Subscribing, 0, |s.h.pushed|))
    case StartEntry(wait, entry) => SetWait(s, wait, Wait(ForEntry(entry), Subscribing, 0, |s.h.pushed|))
    case Subscribe(wait) => SetWait(s, wait, s.waits[wait].(phase := Checking, seen := s.version))
    case Check(wait) => DoCheck(s, wait)
    case Wake(wait) => SetWait(s, wait, s.waits[wait].(phase := Subscribing))
    case _ => DoWorker(s, step)
  }

  ghost predicate IsRun(states: seq<Slot>, steps: seq<Step>) {
    && |states| == |steps| + 1 && states[0] == FreshSlot
    && forall i | 0 <= i < |steps| :: Enabled(states[i], steps[i]) && states[i + 1] == Apply(states[i], steps[i])
  }
}
