/**
 The turns of a thread: how the adapter opens a turn, numbers its chunks and seals it,
 over the line of the thread.
 */
module ThreadTurns {
  import opened Wrappers
  import opened ThreadLine
  import opened ThreadWorker
  import Stream

  /** What the adapter remembers of a turn. `life` tells one memory of a message from a later one. */
  datatype Turn = Turn(agent: Uuid, chunks: seq<Stream.Chunk>, entries: set<Uuid>, closed: bool, life: nat)

  datatype Task =
    | OpenTurn(agent: Uuid)
    | AddChunk(chunk: Stream.Chunk)
    | CloseTurn(agent: Uuid)
    | AddWhole

  /** The call that holds the order lock. */
  datatype Op =
    | NoOp
    | Appending(task: Task, item: Item)
    | Queueing(task: Task, item: Item)

  /** The items accepted so far and, for each, the life of a turn it belongs to. */
  datatype Accepted = Accepted(life: Option<nat>, item: Item)

  datatype Thread = Thread(
    slot: Slot,
    turns: map<Uuid, Turn>,
    op: Op,
    lives: nat,
    accepted: seq<Accepted>)

  datatype TStep =
    | SlotStep(step: Step)
    | Restore(item: Item)
    | Ensure(id: Uuid, message: Uuid, agent: Uuid)
    | Chunk(id: Uuid, message: Uuid, entries: seq<Uuid>, chunk: Stream.Chunk)
    | Close(id: Uuid, message: Uuid, agent: Uuid, completed: bool, makes: bool)
    | Whole(item: Item)
    | Appended(ok: bool)
    | Finish
    | Forget(agent: Uuid)

  function ChunksOf(turns: map<Uuid, Turn>, message: Uuid): seq<Stream.Chunk> {
    if message in turns then turns[message].chunks else []
  }

  predicate Closed(turns: map<Uuid, Turn>, message: Uuid) {
    message in turns && turns[message].closed
  }

  predicate Open(turns: map<Uuid, Turn>, message: Uuid) {
    message in turns && !turns[message].closed
  }

  predicate TEnabled(t: Thread, step: TStep) {
    match step
    case SlotStep(s) => Enabled(t.slot, s) && !s.TakeNumber?
    // What a former life of the adapter left in the store is queued before anything else.
    case Restore(_) => t.op.NoOp? && t.slot.producer.Idle? && t.lives == 0 && t.turns == map[]
    case Ensure(_, _, _) => t.op.NoOp? && t.slot.producer.Idle?
    case Chunk(_, _, _, _) => t.op.NoOp? && t.slot.producer.Idle?
    case Close(_, _, _, _, _) => t.op.NoOp? && t.slot.producer.Idle?
    case Whole(item) => t.op.NoOp? && t.slot.producer.Idle? && item.body.WholeMessage?
    case Appended(_) => t.op.Appending? && t.slot.producer.Idle?
    case Finish => t.op.Queueing? && t.slot.producer.Idle?
    case Forget(_) => t.op.NoOp? && t.slot.producer.Idle?
  }

  /** The start of `accept`: nothing more is taken once the adapter is stopped. */
  function StartAccept(t: Thread, task: Task, item: Item): Thread {
    if t.slot.stopped then t else t.(op := Appending(task, item))
  }

  function DoEnsure(t: Thread, id: Uuid, message: Uuid, agent: Uuid): Thread {
    if message in t.turns then t
    else StartAccept(t, OpenTurn(agent), Item(id, agent, message, [], Opening))
  }

  function DoChunk(t: Thread, id: Uuid, message: Uuid, entries: seq<Uuid>, chunk: Stream.Chunk): Thread {
    if !Open(t.turns, message) then t
    else
      var turn := t.turns[message];
      StartAccept(t, AddChunk(chunk), Item(id, turn.agent, message, entries, ChunkBody(|turn.chunks|, chunk)))
  }

  function DoClose(t: Thread, id: Uuid, message: Uuid, agent: Uuid, completed: bool, makes: bool): Thread {
    var chunks := ChunksOf(t.turns, message);
    if Closed(t.turns, message) || !makes || (completed && !Stream.CarriesContent(chunks)) then t
    else
      var seal := Stream.SealFor(chunks, completed, message !in t.slot.broken);
      StartAccept(t, CloseTurn(agent), Item(id, agent, message, [], ClosingBody(seal)))
  }

  /** The life an accepted item belongs to: a new one when the adapter holds no turn of the message. */
  function LifeOf(turns: map<Uuid, Turn>, lives: nat, task: Task, message: Uuid): Option<nat> {
    if task.AddWhole? then None
    else Some(if message in turns then turns[message].life else lives)
  }

  function DoAppended(t: Thread, ok: bool): Thread
    requires t.op.Appending? && t.slot.producer.Idle?
  {
    if !ok then t.(op := NoOp)
    else
      var item := t.op.item;
      t.(slot := Apply(t.slot, TakeNumber(item)), op := Queueing(t.op.task, item),
         accepted := t.accepted + [Accepted(LifeOf(t.turns, t.lives, t.op.task, item.message), item)])
  }

  /** What is remembered of the turns, and the next free life, once the item is in the line. */
  function Remember(turns: map<Uuid, Turn>, lives: nat, task: Task, item: Item): (map<Uuid, Turn>, nat) {
    var message := item.message;
    match task
    case OpenTurn(agent) => (turns[message := Turn(agent, [], {}, false, lives)], lives + 1)
    case AddChunk(chunk) =>
      if message !in turns then (turns, lives)
      else
        var turn := turns[message];
        (turns[message := turn.(chunks := turn.chunks + [chunk], entries := turn.entries + EntriesOf(item))], lives)
    case CloseTurn(agent) =>
      if message in turns then (turns[message := turns[message].(closed := true)], lives)
      else (turns[message := Turn(agent, [], {}, true, lives)], lives + 1)
    case AddWhole => (turns, lives)
  }

  function DoFinish(t: Thread): Thread
    requires t.op.Queueing?
  {
    var after := Remember(t.turns, t.lives, t.op.task, t.op.item);
    t.(op := NoOp, turns := after.0, lives := after.1)
  }

  function DoForget(t: Thread, agent: Uuid): Thread {
    var gone := set m | m in t.turns && t.turns[m].agent == agent;
    t.(slot := t.slot.(broken := t.slot.broken - gone), turns := t.turns - gone)
  }

  function TApply(t: Thread, step: TStep): Thread
    requires TEnabled(t, step)
  {
    match step
    case SlotStep(s) => t.(slot := Apply(t.slot, s))
    case Restore(item) => t.(slot := Apply(t.slot, TakeNumber(item)), accepted := t.accepted + [Accepted(None, item)])
    case Ensure(id, message, agent) => DoEnsure(t, id, message, agent)
    case Chunk(id, message, entries, chunk) => DoChunk(t, id, message, entries, chunk)
    case Close(id, message, agent, completed, makes) => DoClose(t, id, message, agent, completed, makes)
    case Whole(item) => StartAccept(t, AddWhole, item)
    case Appended(ok) => DoAppended(t, ok)
    case Finish => DoFinish(t)
    case Forget(agent) => DoForget(t, agent)
  }

  const FreshThread := Thread(FreshSlot, map[], NoOp, 0, [])

  ghost predicate IsThreadRun(states: seq<Thread>, steps: seq<TStep>) {
    && |states| == |steps| + 1 && states[0] == FreshThread
    && forall i | 0 <= i < |steps| :: TEnabled(states[i], steps[i]) && states[i + 1] == TApply(states[i], steps[i])
  }

  // ===== the items of one life =====

  function OfLife(accepted: seq<Accepted>, life: nat): seq<Item> {
    if accepted == [] then []
    else
      var last := accepted[|accepted| - 1];
      OfLife(accepted[..|accepted| - 1], life) + (if last.life == Some(life) then [last.item] else [])
  }

  /** The bodies of the chunks, numbered from nought. */
  ghost predicate Chunked(items: seq<Item>, chunks: seq<Stream.Chunk>) {
    && |items| == |chunks|
    && forall k | 0 <= k < |chunks| :: items[k].body == ChunkBody(k, chunks[k])
  }

  /** One opening, then the chunks numbered from nought, then a closing or not. */
  ghost predicate WellFormed(items: seq<Item>, chunks: seq<Stream.Chunk>, closed: bool) {
    && |items| == 1 + |chunks| + (if closed then 1 else 0)
    && items[0].body.Opening?
    && Chunked(items[1..1 + |chunks|], chunks)
    && (closed ==> ClosesWith(items[|items| - 1], chunks))
  }

  /** A closing, and a seal it carries names the last number and hashes all the chunks. */
  ghost predicate ClosesWith(item: Item, chunks: seq<Stream.Chunk>) {
    && item.body.ClosingBody?
    && (item.body.seal.Some? ==> chunks != [] && item.body.seal == Some(Stream.Seal(|chunks| - 1, chunks)))
  }

  ghost predicate OfMessage(items: seq<Item>, message: Uuid) {
    forall k | 0 <= k < |items| :: items[k].message == message
  }

  /** A life is well formed for some chunks; one that was never opened is a closing alone. */
  ghost predicate LifeOk(items: seq<Item>) {
    && items != [] && OfMessage(items, items[0].message)
    && (|| (|items| == 1 && ClosesWith(items[0], []))
        || exists chunks, closed :: WellFormed(items, chunks, closed))
  }

  /** The entries carried by the items of a turn: those that an annotation may follow. */
  ghost function EntriesIn(items: seq<Item>): set<Uuid> {
    set i, e | 0 <= i < |items| && e in items[i].entries :: e
  }

  lemma EntriesOfOneMore(items: seq<Item>, item: Item)
    ensures EntriesIn(items + [item]) == EntriesIn(items) + EntriesOf(item)
  {
    var more := items + [item];
    forall e ensures e in EntriesIn(more) <==> e in EntriesIn(items) || e in item.entries {
      if e in EntriesIn(items) {
        var i :| 0 <= i < |items| && e in items[i].entries;
        assert e in more[i].entries;
      }
      if e in item.entries {
        assert e in more[|items|].entries;
      }
      if e in EntriesIn(more) {
        var i :| 0 <= i < |more| && e in more[i].entries;
        assert i < |items| ==> e in items[i].entries;
      }
    }
  }

  lemma NoEntries()
    ensures EntriesIn([]) == {}
  {}

  /** What the adapter remembers of the turn is what it accepted for it. */
  ghost predicate Remembered(items: seq<Item>, message: Uuid, turn: Turn) {
    && items != [] && OfMessage(items, message)
    && turn.entries == EntriesIn(items)
    && (|| WellFormed(items, turn.chunks, turn.closed)
        || (|items| == 1 && turn.closed && turn.chunks == [] && ClosesWith(items[0], [])))
  }

  ghost predicate TurnOk(accepted: seq<Accepted>, lives: nat, message: Uuid, turn: Turn) {
    turn.life < lives && Remembered(OfLife(accepted, turn.life), message, turn)
  }

  ghost predicate BookOk(turns: map<Uuid, Turn>, lives: nat, accepted: seq<Accepted>) {
    && (forall m | m in turns :: TurnOk(accepted, lives, m, turns[m]))
    && (forall m, n | m in turns && n in turns && turns[m].life == turns[n].life :: m == n)
    && (forall k | 0 <= k < |accepted| && accepted[k].life.Some? :: accepted[k].life.value < lives)
    && (forall l: nat | l < lives :: LifeOk(OfLife(accepted, l)))
  }

  /** The item under way fits what is remembered. */
  ghost predicate Agrees(turns: map<Uuid, Turn>, task: Task, item: Item) {
    match task
    case OpenTurn(_) => item.message !in turns && item.body.Opening? && item.entries == []
    case AddChunk(chunk) => Open(turns, item.message) && item.body == ChunkBody(|turns[item.message].chunks|, chunk)
    case CloseTurn(_) =>
      !Closed(turns, item.message) && ClosesWith(item, ChunksOf(turns, item.message)) && item.entries == []
    case AddWhole => item.body.WholeMessage?
  }

  // ===== the memory of a thread =====

  /**
   What the adapter keeps of a thread in memory. `lives` numbers the turns it came to remember;
   the adapter itself does not count them. `accepts` is how the accepting of the item went.
   */
  class Mem {
    var turns: map<Uuid, Turn>
    var tip: Option<Uuid>
    var lives: nat

    constructor ()
      ensures turns == map[] && tip.None? && lives == 0
    {
      turns, tip, lives := map[], None, 0;
    }

    /** Opens the turn unless it is open; fails when it is closed or the opening was not accepted. */
    method EnsureTurn(id: Uuid, message: Uuid, agent: Uuid, accepts: bool) returns (ok: bool, item: Option<Item>)
      modifies this
      ensures ok == Open(turns, message)
      ensures item.Some? <==> message !in old(turns)
      ensures item.Some? ==> item.value.message == message && Agrees(old(turns), OpenTurn(agent), item.value)
      ensures (turns, lives) == if item.Some?
          && accepts then Remember(old(turns), old(lives), OpenTurn(agent), item.value)
                                else (old(turns), old(lives))
      ensures tip == if item.Some? && accepts then Some(message) else old(tip)
    {
      if message in turns {
        return !turns[message].closed, None;
      }
      item := Some(Item(id, agent, message, [], Opening));
      if !accepts {
        return false, item;
      }
      tip := Some(message);
      turns := turns[message := Turn(agent, [], {}, false, lives)];
      lives := lives + 1;
      ok := true;
    }

    /** The end of an instance: its turns are forgotten, those of other agents kept. */
    method ForgetAgent(agent: Uuid) returns (gone: set<Uuid>)
      modifies this`turns
      ensures forall m :: m in gone <==> m in old(turns) && old(turns)[m].agent == agent
      ensures turns == old(turns) - gone
    {
      gone := {};
      var left := turns.Keys;
      while left != {}
        invariant left <= turns.Keys && turns == old(turns)
        invariant forall m :: m in gone <==> m in turns && m !in left && turns[m].agent == agent
        decreases left
      {
        var m :| m in left;
        if turns[m].agent == agent {
          gone := gone + {m};
        }
        left := left - {m};
      }
      turns := turns - gone;
    }

    method PushChunk(id: Uuid, message: Uuid, entries: seq<Uuid>, chunk: Stream.Chunk, accepts: bool)
      returns (ok: bool, item: Option<Item>)
      modifies this`turns
      ensures ok == (item.Some? && accepts)
      ensures item.Some? <==> Open(old(turns), message)
      ensures item.Some? ==> item.value.message == message && item.value.entries == entries &&
                             Agrees(old(turns), AddChunk(chunk), item.value)
      ensures turns == if ok then Remember(old(turns), lives, AddChunk(chunk), item.value).0 else old(turns)
    {
      if message !in turns || turns[message].closed {
        return false, None;
      }
      var turn := turns[message];
      item := Some(Item(id, turn.agent, message, entries, ChunkBody(|turn.chunks|, chunk)));
      if !accepts {
        return false, item;
      }
      turns := turns[message := turn.(chunks := turn.chunks + [chunk],
          entries := turn.entries + EntriesOf(item.value))];
      ok := true;
    }

    /** An annotation is a chunk of an open turn, behind an entry that was queued into it. */
    method Annotate(id: Uuid, message: Uuid, after: Uuid, chunk: Stream.Chunk, accepts: bool)
      returns (ok: bool, item: Option<Item>)
      modifies this`turns
      ensures ok == (item.Some? && accepts)
      ensures item.Some? <==> Open(old(turns), message) && after in old(turns)[message].entries
      ensures item.Some? ==> item.value.message == message && item.value.entries == [] &&
                             Agrees(old(turns), AddChunk(chunk), item.value)
      ensures turns == if ok then Remember(old(turns), lives, AddChunk(chunk), item.value).0 else old(turns)
    {
      if message !in turns || turns[message].closed || after !in turns[message].entries {
        return false, None;
      }
      ok, item := PushChunk(id, message, [], chunk, accepts);
    }

    /** Closes a turn; `makes` tells whether the command of the closing could be made. */
    method CloseTurn(id: Uuid, message: Uuid, agent: Uuid, completed: bool, broken: bool, makes: bool, accepts: bool)
      returns (ok: bool, item: Option<Item>)
      modifies this`turns, this`lives
      ensures ok == (item.Some? && accepts)
      ensures item.Some? <==> !Closed(old(turns), message) && makes &&
                              (completed ==> Stream.CarriesContent(ChunksOf(old(turns), message)))
      ensures item.Some? ==> item.value.message == message && Agrees(old(turns), Task.CloseTurn(agent), item.value)
      ensures item.Some? ==> (item.value.body.seal.Some? <==>
                              Stream.CarriesContent(ChunksOf(old(turns), message)) && (completed || !broken))
      ensures (turns, lives) == if ok then Remember(old(turns), old(lives), Task.CloseTurn(agent), item.value)
                                else (old(turns), old(lives))
    {
      if message in turns && turns[message].closed {
        return false, None;
      }
      var chunks := if message in turns then turns[message].chunks else [];
      var content := Stream.CarriesContent(chunks);
      if completed && !content {
        return false, None;
      }
      var seal := if content && (completed || !broken) then Stream.SealOf(chunks) else None;
      if !makes {
        return false, None;
      }
      item := Some(Item(id, agent, message, [], ClosingBody(seal)));
      if !accepts {
        return false, item;
      }
      if message in turns {
        turns := turns[message := turns[message].(closed := true)];
      } else {
        turns := turns[message := Turn(agent, [], {}, true, lives)];
        lives := lives + 1;
      }
      ok := true;
    }
  }

  // ----- one more item

  lemma OneMore(accepted: seq<Accepted>, a: Accepted, life: nat)
    ensures OfLife(accepted + [a], life) == OfLife(accepted, life) + (if a.life == Some(life) then [a.item] else [])
  {
    assert (accepted + [a])[..|accepted|] == accepted;
  }

  lemma {:induction false} NoneOfLife(accepted: seq<Accepted>, life: nat)
    requires forall k | 0 <= k < |accepted| :: accepted[k].life != Some(life)
    ensures OfLife(accepted, life) == []
  {
    if accepted != [] {
      NoneOfLife(accepted[..|accepted| - 1], life);
    }
  }

  lemma OneMoreChunk(items: seq<Item>, item: Item, message: Uuid, turn: Turn, chunk: Stream.Chunk)
    requires Remembered(items, message, turn) && !turn.closed && item.message == message
    requires item.body == ChunkBody(|turn.chunks|, chunk)
    ensures WellFormed(items + [item], turn.chunks + [chunk], false) && OfMessage(items + [item], message)
  {
    var n := |turn.chunks|;
    assert (items + [item])[1..1 + n + 1] == items[1..1 + n] + [item];
  }

  lemma OneClosing(items: seq<Item>, item: Item, message: Uuid, turn: Turn)
    requires Remembered(items, message, turn) && !turn.closed && item.message == message
        && ClosesWith(item, turn.chunks)
    ensures WellFormed(items + [item], turn.chunks, true) && OfMessage(items + [item], message)
  {
    var n := |turn.chunks|;
    assert (items + [item])[1..1 + n] == items[1..1 + n];
  }

  lemma OneOpening(item: Item)
    requires item.body.Opening?
    ensures WellFormed([item], [], false) && OfMessage([item], item.message)
  {
    assert [item][1..1] == [];
  }

  /** What one accepted item makes of its own life. */
  lemma OwnLife(turns: map<Uuid, Turn>, lives: nat, accepted: seq<Accepted>, task: Task, item: Item)
    requires BookOk(turns, lives, accepted) && Agrees(turns, task, item) && !task.AddWhole?
    ensures var life := LifeOf(turns, lives, task, item.message).value;
            var after := Remember(turns, lives, task, item);
            && item.message in after.0 && after.0[item.message].life == life < after.1
            && OfLife(accepted + [Accepted(Some(life), item)], life) == OfLife(accepted, life) + [item]
            && Remembered(OfLife(accepted, life) + [item], item.message, after.0[item.message])
            && LifeOk(OfLife(accepted, life) + [item])
  {
    hide OfLife, WellFormed, EntriesIn;
    var m := item.message;
    var life := LifeOf(turns, lives, task, m).value;
    var after := Remember(turns, lives, task, item);
    var items := OfLife(accepted, life);
    OneMore(accepted, Accepted(Some(life), item), life);
    EntriesOfOneMore(items, item);
    assert EntriesIn([]) == {} by { NoEntries(); }
    if m in turns {
      assert TurnOk(accepted, lives, m, turns[m]);
      if task.AddChunk? {
        OneMoreChunk(items, item, m, turns[m], task.chunk);
      } else {
        OneClosing(items, item, m, turns[m]);
      }
      assert WellFormed(items + [item], after.0[m].chunks, after.0[m].closed);
    } else {
      NoneOfLife(accepted, life);
      assert [] + [item] == [item];
      if task.OpenTurn? {
        OneOpening(item);
      }
    }
  }

  lemma BookAdd(turns: map<Uuid, Turn>, lives: nat, accepted: seq<Accepted>, task: Task, item: Item)
    requires BookOk(turns, lives, accepted) && Agrees(turns, task, item)
    ensures var after := Remember(turns, lives, task, item);
            BookOk(after.0, after.1, accepted + [Accepted(LifeOf(turns, lives, task, item.message), item)])
  {
    hide OfLife, WellFormed, Remembered, LifeOk, EntriesOf;
    var after := Remember(turns, lives, task, item);
    var a := Accepted(LifeOf(turns, lives, task, item.message), item);
    var longer := accepted + [a];
    if !task.AddWhole? {
      OwnLife(turns, lives, accepted, task, item);
    }
    forall m | m in after.0 ensures TurnOk(longer, after.1, m, after.0[m]) {
      if task.AddWhole? || m != item.message {
        assert TurnOk(accepted, lives, m, turns[m]);
        OneMore(accepted, a, turns[m].life);
        assert OfLife(accepted, turns[m].life) + [] == OfLife(accepted, turns[m].life);
      }
    }
    forall l: nat | l < after.1 ensures LifeOk(OfLife(longer, l)) {
      if a.life != Some(l) {
        OneMore(accepted, a, l);
        assert OfLife(accepted, l) + [] == OfLife(accepted, l);
      }
    }
    forall k | 0 <= k < |longer| && longer[k].life.Some? ensures longer[k].life.value < after.1 {
      if k < |accepted| {
        assert longer[k] == accepted[k];
      }
    }
  }

  lemma BookRestore(turns: map<Uuid, Turn>, lives: nat, accepted: seq<Accepted>, item: Item)
    requires BookOk(turns, lives, accepted)
    ensures BookOk(turns, lives, accepted + [Accepted(None, item)])
  {
    hide OfLife, WellFormed, Remembered, LifeOk;
    var a := Accepted(None, item);
    var longer := accepted + [a];
    forall l: nat ensures OfLife(longer, l) == OfLife(accepted, l) {
      OneMore(accepted, a, l);
    }
    forall m | m in turns ensures TurnOk(longer, lives, m, turns[m]) {
      assert TurnOk(accepted, lives, m, turns[m]);
    }
  }

  // ===== what every step keeps =====

  /** The turns and lives as they are once the call under way has returned. */
  ghost function Settled(t: Thread): (map<Uuid, Turn>, nat) {
    if t.op.Queueing? then Remember(t.turns, t.lives, t.op.task, t.op.item) else (t.turns, t.lives)
  }

  ghost predicate SameItems(t: Thread) {
    && |t.accepted| == |t.slot.h.handed|
    && forall k | 0 <= k < |t.accepted| :: t.accepted[k].item == t.slot.h.handed[k]
  }

  ghost predicate TInv(t: Thread) {
    && Inv(t.slot) && SameItems(t)
    && BookOk(Settled(t).0, Settled(t).1, t.accepted)
    && (!t.op.NoOp? ==> Agrees(t.turns, t.op.task, t.op.item))
  }

  lemma NumberKeeps(s: Slot, item: Item)
    requires Inv(s) && s.producer.Idle?
    ensures Enabled(s, TakeNumber(item)) && Inv(Apply(s, TakeNumber(item)))
    ensures Apply(s, TakeNumber(item)).h.handed == s.h.handed + [item]
  {
    hide Inv;
    StepKeeps(s, TakeNumber(item));
  }

  lemma SlotStepKeeps(t: Thread, step: Step)
    requires TInv(t) && TEnabled(t, SlotStep(step))
    ensures TInv(t.(slot := Apply(t.slot, step)))
  {
    hide Inv, BookOk, Remember;
    StepKeeps(t.slot, step);
    HandedKept(t.slot, step);
  }

  lemma HandedKept(s: Slot, step: Step)
    requires Enabled(s, step) && !step.TakeNumber?
    ensures Apply(s, step).h.handed == s.h.handed
  {
    hide AnswerTo, EntriesOf, Retryable;
  }

  lemma AppendedKeeps(t: Thread, ok: bool)
    requires TInv(t) && TEnabled(t, Appended(ok))
    ensures TInv(TApply(t, Appended(ok)))
  {
    hide Inv, BookOk, Remember, Apply, Enabled, Agrees;
    if ok {
      NumberKeeps(t.slot, t.op.item);
      BookAdd(t.turns, t.lives, t.accepted, t.op.task, t.op.item);
    }
  }

  lemma RestoreKeeps(t: Thread, item: Item)
    requires TInv(t) && TEnabled(t, Restore(item))
    ensures TInv(TApply(t, Restore(item)))
  {
    hide Inv, BookOk, Remember, Apply, Enabled, Agrees;
    NumberKeeps(t.slot, item);
    BookRestore(t.turns, t.lives, t.accepted, item);
  }

  /** The broken messages play no part in what the line keeps. */
  lemma AnyBroken(s: Slot, broken: set<Uuid>)
    requires Inv(s)
    ensures Inv(s.(broken := broken))
  {
    hide OneWorker, Fifo, Numbers, Handed, NoneRefused;
    var s' := s.(broken := broken);
    assert OneWorker(s') && Fifo(s') && Numbers(s') && Handed(s') by { SameLine(s, broken); }
    forall k: nat | k < |s'.h.log| ensures OpeningEnded(s', k) && EndedOk(s'.h.log, k) {
      assert OpeningEnded(s, k) && EndedOk(s.h.log, k);
    }
    forall w | w in s'.workers ensures PcOk(s', s'.workers[w]) {
      assert PcOk(s, s.workers[w]);
    }
  }

  lemma SameLine(s: Slot, broken: set<Uuid>)
    requires OneWorker(s) && Fifo(s) && Numbers(s) && Handed(s)
    ensures OneWorker(s.(broken := broken)) && Fifo(s.(broken := broken))
    ensures Numbers(s.(broken := broken)) && Handed(s.(broken := broken))
  {}

  lemma ForgetKeeps(t: Thread, agent: Uuid)
    requires TInv(t) && TEnabled(t, Forget(agent))
    ensures TInv(TApply(t, Forget(agent)))
  {
    hide Inv, TurnOk, LifeOk, OfLife;
    AnyBroken(t.slot, TApply(t, Forget(agent)).slot.broken);
  }

  lemma SealAgrees(chunks: seq<Stream.Chunk>, completed: bool, healthy: bool, item: Item)
    requires item.body == ClosingBody(Stream.SealFor(chunks, completed, healthy))
    ensures ClosesWith(item, chunks)
  {}

  lemma TStepKeeps(t: Thread, step: TStep)
    requires TInv(t) && TEnabled(t, step)
    ensures TInv(TApply(t, step))
  {
    hide Inv, BookOk, Remember, Apply, Enabled, ClosesWith, Stream.SealFor, Stream.CarriesContent;
    match step
    case SlotStep(s) => SlotStepKeeps(t, s);
    case Restore(item) => RestoreKeeps(t, item);
    case Appended(ok) => AppendedKeeps(t, ok);
    case Forget(agent) => ForgetKeeps(t, agent);
    case Close(id, message, agent, completed, makes) =>
      var t' := TApply(t, step);
      if t'.op.Appending? {
        SealAgrees(ChunksOf(t.turns, message), completed, message !in t.slot.broken, t'.op.item);
      }
    case _ =>
  }

  lemma FreshThreadHolds()
    ensures TInv(FreshThread)
  {
    FreshHolds();
  }

  lemma {:induction false} ThreadRunKeeps(states: seq<Thread>, steps: seq<TStep>, i: nat)
    requires IsThreadRun(states, steps) && i < |states|
    ensures TInv(states[i])
  {
    hide TApply, TEnabled, TInv;
    if i == 0 {
      FreshThreadHolds();
    } else {
      ThreadRunKeeps(states, steps, i - 1);
      TStepKeeps(states[i - 1], steps[i - 1]);
    }
  }

  // ===== the theorems =====

  /**
   The items accepted for one life of a turn are one opening, then chunks numbered 0, 1, 2 and
   so on whatever appends failed in between, then at most one closing and nothing after it; a
   seal it carries has the last number and hashes exactly those chunks in order. A life that
   was closed without having been opened is that closing alone, without a seal.
   */
  lemma LifeIsNumberedAndSealed(states: seq<Thread>, steps: seq<TStep>, i: nat, life: nat)
    requires IsThreadRun(states, steps) && i < |states|
    ensures var items := OfLife(states[i].accepted, life); items != [] ==> LifeOk(items)
  {
    hide TApply, TEnabled, Inv, TurnOk, LifeOk, OfLife;
    ThreadRunKeeps(states, steps, i);
    var t := states[i];
    if life >= Settled(t).1 {
      NoneOfLife(t.accepted, life);
    }
  }

  /**
   A closing is made exactly for a turn that is not closed, with content if it completes the turn; it
   carries a seal exactly if there is content and it completes the turn or no loss is known of it.
   */
  lemma ClosingIsSealedExactly(t: Thread, id: Uuid, message: Uuid, agent: Uuid, completed: bool)
    requires TEnabled(t, Close(id, message, agent, completed, true)) && !t.slot.stopped
    ensures var t' := TApply(t, Close(id, message, agent, completed, true));
            var chunks := if message in t.turns then t.turns[message].chunks else [];
            && (t'.op.Appending? <==>
                  && !(message in t.turns && t.turns[message].closed) && (completed ==> Stream.HasContent(chunks)))
            && (t'.op.Appending? ==>
                  && t'.op.item.message == message && t'.op.item.body.ClosingBody?
                  && (t'.op.item.body.seal.Some? <==>
                        Stream.HasContent(chunks) && (completed || message !in t.slot.broken)))
  {}

  /**
   A call on a turn comes to an item exactly when the turn allows it: a chunk when it is open, an
   opening when it is unknown.
   */
  lemma CallsComeToItems(t: Thread, id: Uuid, message: Uuid, agent: Uuid, entries: seq<Uuid>, chunk: Stream.Chunk)
    requires t.op.NoOp? && t.slot.producer.Idle? && !t.slot.stopped
    ensures TEnabled(t, Chunk(id, message, entries, chunk)) && TEnabled(t, Ensure(id, message, agent))
    ensures TApply(t, Chunk(id, message, entries, chunk)).op.Appending? <==>
              message in t.turns && !t.turns[message].closed
    ensures TApply(t, Chunk(id, message, entries, chunk)).op.Appending? ==>
              var turn := t.turns[message];
              TApply(t, Chunk(id, message, entries, chunk)).op.item ==
              Item(id, turn.agent, message, entries, ChunkBody(|turn.chunks|, chunk))
    ensures TApply(t, Ensure(id, message, agent)).op.Appending? <==> message !in t.turns
  {}

  /** The end of an instance forgets its turns, with what was known of their losses, and nothing else. */
  lemma ForgetForgets(t: Thread, agent: Uuid, message: Uuid)
    requires TEnabled(t, Forget(agent))
    ensures var t' := TApply(t, Forget(agent));
            var gone := message in t.turns && t.turns[message].agent == agent;
            && (message in t'.turns <==> message in t.turns && !gone)
            && (message in t'.turns ==> t'.turns[message] == t.turns[message])
            && (message in t'.slot.broken <==> message in t.slot.broken && !gone)
            && t'.accepted == t.accepted && t'.slot.line == t.slot.line
  {}

  /** An item whose append succeeded is given to the line, and the next step of the call remembers it. */
  lemma AppendedIsGiven(t: Thread)
    requires TEnabled(t, Appended(true)) && TInv(t)
    ensures var t' := TApply(t, Appended(true));
            && |t'.accepted| == |t.accepted| + 1 && t'.accepted[|t.accepted|].item == t.op.item
            && t'.slot.h.handed == t.slot.h.handed + [t.op.item]
  {
    hide Inv, BookOk, Agrees;
  }

  /**
   Between two calls the adapter remembers of a turn exactly what it accepted for it: chunks,
   entries, and its closing.
   */
  lemma MemoryIsWhatWasAccepted(states: seq<Thread>, steps: seq<TStep>, i: nat, message: Uuid)
    requires IsThreadRun(states, steps) && i < |states| && !states[i].op.Queueing? && message in states[i].turns
    ensures var t := states[i];
            Remembered(OfLife(t.accepted, t.turns[message].life), message, t.turns[message])
  {
    hide TApply, TEnabled, Inv, Remembered, LifeOk, OfLife;
    ThreadRunKeeps(states, steps, i);
    var t := states[i];
    assert TurnOk(t.accepted, Settled(t).1, message, t.turns[message]);
  }

  /** What was accepted is, in its order, what the line was given. */
  lemma AcceptedAreQueued(states: seq<Thread>, steps: seq<TStep>, i: nat)
    requires IsThreadRun(states, steps) && i < |states|
    ensures var t := states[i];
            && |t.slot.h.pushed| <= |t.accepted|
            && (forall k | 0 <= k < |t.slot.h.pushed| :: t.slot.h.pushed[k].item == t.accepted[k].item)
            && (!t.slot.stopped && t.op.NoOp? && t.slot.producer.Idle? ==> |t.slot.h.pushed| == |t.accepted|)
  {
    hide TApply, TEnabled, BookOk, OneWorker, Fifo, Numbers, Openings;
    ThreadRunKeeps(states, steps, i);
  }

  /** The first item of a life stands at or before any other of it. */
  lemma {:induction false} FirstOfLife(accepted: seq<Accepted>, life: nat, n: nat) returns (j: nat)
    requires n < |accepted| && accepted[n].life == Some(life)
    ensures j <= n && accepted[j].life == Some(life) && OfLife(accepted, life) != []
    ensures accepted[j].item == OfLife(accepted, life)[0]
    decreases |accepted|
  {
    var last := |accepted| - 1;
    if n < last {
      j := FirstOfLife(accepted[..last], life, n);
    } else if k :| 0 <= k < last && accepted[k].life == Some(life) {
      j := FirstOfLife(accepted[..last], life, k);
    } else {
      NoneOfLife(accepted[..last], life);
      j := n;
    }
  }

  /** A chunk is on its way to the backend only after the opening of its own life was delivered. */
  lemma ChunkAfterItsOpening(states: seq<Thread>, steps: seq<TStep>, i: nat, worker: nat) returns (j: nat)
    requires IsThreadRun(states, steps) && i < |states|
    requires var s := states[i].slot;
             worker in s.workers && s.workers[worker].Attempting? && s.workers[worker].head.item.body.ChunkBody?
    requires |states[i].slot.h.log| < |states[i].accepted| && states[i].accepted[|states[i].slot.h.log|].life.Some?
    ensures var t := states[i];
            && j < |t.slot.h.log| && t.slot.h.log[j].how.Delivered?
            && t.accepted[j].life == t.accepted[|t.slot.h.log|].life
            && t.accepted[j].item.body.Opening? && t.slot.h.log[j].queued.item == t.accepted[j].item
  {
    hide TApply, TEnabled, OfLife, Openings, Agrees, TurnOk, Remember;
    ThreadRunKeeps(states, steps, i);
    var t := states[i];
    var n := |t.slot.h.log|;
    var life := t.accepted[n].life.value;
    assert HeadOf(t.slot.workers[worker]) == Some(t.slot.workers[worker].head);
    assert t.slot.workers[worker].head == t.slot.h.pushed[n];
    j := FirstOfLife(t.accepted, life, n);
    var items := OfLife(t.accepted, life);
    assert LifeOk(items);
    ChunkInLife(t.accepted, life, n);
    hide LifeOk, BookOk;
    BehindDelivered(t.slot, worker, j);
  }

  lemma {:induction false} InLife(accepted: seq<Accepted>, life: nat, n: nat)
    requires n < |accepted| && accepted[n].life == Some(life)
    ensures accepted[n].item in OfLife(accepted, life)
    decreases |accepted|
  {
    if n < |accepted| - 1 {
      InLife(accepted[..|accepted| - 1], life, n);
    }
  }

  /** A life that holds a chunk begins with an opening, of the message of the chunk. */
  lemma ChunkInLife(accepted: seq<Accepted>, life: nat, n: nat)
    requires n < |accepted| && accepted[n].life == Some(life) && accepted[n].item.body.ChunkBody?
    requires LifeOk(OfLife(accepted, life))
    ensures OfLife(accepted, life)[0].body.Opening? && OfLife(accepted, life)[0].message == accepted[n].item.message
  {
    InLife(accepted, life, n);
  }
}
