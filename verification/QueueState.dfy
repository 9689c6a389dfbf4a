/**
 The locked state of the delivery queue and what each critical section does to it.
 */
module QueueState {
  import opened Wrappers
  import opened Writes

  /** The one-shot channel that carries the end of one write to its caller. */
  type EndId = nat

  datatype Gate = Stored | Dropped

  datatype Entry = Entry(seqNo: nat, write: Write, end: EndId)

  datatype Held = Held(entry: Entry, follow: Option<Write>)

  datatype State = State(
    fifo: seq<Entry>,
    newHeld: seq<Held>,
    pending: map<nat, Write>,
    ended: map<DepKey, Ended>,
    nextSeq: nat,
    stopped: bool,
    lastFailure: Option<(nat, Error)>)

  const EmptyState := State([], [], map[], map[], 0, false, None)

  function Register(st: State, write: Write): State {
    st.(nextSeq := st.nextSeq + 1, pending := st.pending[st.nextSeq := write])
  }

  /** The section of `enqueue` that queues a write at the end of the line. */
  function Enqueue(st: State, write: Write, end: EndId): State {
    Register(st, write).(fifo := st.fifo + [Entry(st.nextSeq, write, end)])
  }

  /** The section of `hold` that keeps a write outside the line until its gate ends. */
  function Hold(st: State, write: Write, follow: Option<Write>, end: EndId): State {
    Register(st, write).(newHeld := st.newHeld + [Held(Entry(st.nextSeq, write, end), follow)])
  }

  /** The section of a gate that ended stored: the follow-up joins the line, then the write. */
  function Release(st: State, held: Held, followEnd: EndId): State {
    match held.follow
    case None => st.(fifo := st.fifo + [held.entry])
    case Some(follow) =>
      Register(st, follow).(fifo := st.fifo + [Entry(st.nextSeq, follow, followEnd)] + [held.entry])
  }

  function Keep(ended: map<DepKey, Ended>, write: Write, result: WriteResult): map<DepKey, Ended> {
    var key := OwnKey(write);
    if key.Some? then ended[key.value := EndedOf(result)] else ended
  }

  /** The section of `complete`. */
  function Record(st: State, entry: Entry, result: WriteResult): State {
    st.(pending := st.pending - {entry.seqNo},
        ended := Keep(st.ended, entry.write, result),
        lastFailure := if st.lastFailure.Some? && st.lastFailure.value.0 == entry.seqNo then None else st.lastFailure)
  }

  function PopHead(st: State): State
    requires st.fifo != []
  {
    st.(fifo := st.fifo[1..])
  }

  function EntriesOf(held: seq<Held>): seq<Entry> {
    seq(|held|, i requires 0 <= i < |held| => held[i].entry)
  }

  /**
   The state behind the lock. Each method is one critical section; what it returns
   is what the caller carries out of the section.
   */
  class Shared {
    var fifo: seq<Entry>
    var newHeld: seq<Held>
    var pending: map<nat, Write>
    var ended: map<DepKey, Ended>
    var nextSeq: nat
    var stopped: bool
    var lastFailure: Option<(nat, Error)>

    ghost function Value(): State
      reads this
    {
      State(fifo, newHeld, pending, ended, nextSeq, stopped, lastFailure)
    }

    constructor ()
      ensures Value() == EmptyState
    {
      fifo, newHeld, pending, ended := [], [], map[], map[];
      nextSeq, stopped, lastFailure := 0, false, None;
    }

    method RegisterWrite(write: Write) returns (seqNo: nat)
      modifies this
      ensures seqNo == old(nextSeq)
      ensures Value() == Register(old(Value()), write)
    {
      seqNo := nextSeq;
      nextSeq := nextSeq + 1;
      pending := pending[seqNo := write];
    }

    /** The write is queued, or the reason why it is removed at once is given back. */
    method EnqueueWrite(write: Write, end: EndId) returns (removal: Option<Removal>)
      modifies this
      ensures removal == if old(stopped) then Some(LeftUnsent) else Blocked(write, old(ended))
      ensures removal.None? <==> !old(stopped) && Unblocked(write, old(ended))
      ensures Value() == if removal.Some? then old(Value()) else Enqueue(old(Value()), write, end)
    {
      if stopped {
        return Some(LeftUnsent);
      }
      removal := BlockedLoop(write, ended);
      if removal.Some? {
        return;
      }
      var seqNo := RegisterWrite(write);
      fifo := fifo + [Entry(seqNo, write, end)];
    }

    method HoldWrite(write: Write, follow: Option<Write>, end: EndId) returns (removal: Option<Removal>)
      modifies this
      ensures removal == if old(stopped) then Some(LeftUnsent) else None
      ensures Value() == if removal.Some? then old(Value()) else Hold(old(Value()), write, follow, end)
    {
      if stopped {
        return Some(LeftUnsent);
      }
      var seqNo := RegisterWrite(write);
      newHeld := newHeld + [Held(Entry(seqNo, write, end), follow)];
      return None;
    }

    /** The later section of a write that was never queued. */
    method KeepUnqueued(write: Write, removal: Removal)
      modifies this`ended
      ensures ended == Keep(old(ended), write, Err(removal))
    {
      var key := OwnKey(write);
      if key.Some? {
        ended := ended[key.value := EndedOf(Err(removal))];
      }
    }

    method RecordEnd(entry: Entry, result: WriteResult)
      modifies this
      ensures Value() == Record(old(Value()), entry, result)
    {
      pending := pending - {entry.seqNo};
      var key := OwnKey(entry.write);
      if key.Some? {
        ended := ended[key.value := EndedOf(result)];
      }
      if lastFailure.Some? && lastFailure.value.0 == entry.seqNo {
        lastFailure := None;
      }
    }

    method RecordFailure(seqNo: nat, error: Error)
      modifies this`lastFailure
      ensures lastFailure == Some((seqNo, error))
    {
      lastFailure := Some((seqNo, error));
    }

    method StopNow()
      modifies this`stopped
      ensures stopped
    {
      stopped := true;
    }

    /** One round of `next_head`: the head leaves the line, with the removal that blocks it. */
    method TakeHead() returns (head: Option<Entry>, removal: Option<Removal>)
      modifies this`fifo
      ensures head.Some? <==> !stopped && old(fifo) != []
      ensures head.None? ==> fifo == old(fifo) && removal.None?
      ensures head.Some? ==> old(fifo) == [head.value] + fifo && removal == Blocked(head.value.write, ended)
      ensures head.Some? ==> (removal.None? <==> Unblocked(head.value.write, ended))
    {
      head, removal := None, None;
      if !stopped && fifo != [] {
        head := Some(fifo[0]);
        fifo := fifo[1..];
        removal := BlockedLoop(head.value.write, ended);
      }
    }

    /** The section of a stored gate; false when the queue stopped first. */
    method ReleaseHeld(held: Held, followEnd: EndId) returns (released: bool)
      modifies this
      ensures released == !old(stopped)
      ensures Value() == if released then Release(old(Value()), held, followEnd) else old(Value())
    {
      if stopped {
        return false;
      }
      if held.follow.Some? {
        var seqNo := RegisterWrite(held.follow.value);
        fifo := fifo + [Entry(seqNo, held.follow.value, followEnd)];
      }
      fifo := fifo + [held.entry];
      return true;
    }

    method TakeNewHeld() returns (taken: seq<Held>)
      modifies this`newHeld
      ensures taken == old(newHeld) && newHeld == []
    {
      taken := newHeld;
      newHeld := [];
    }

    /** The section of the dropped task: nothing is queued or held from here on. */
    method DrainAll() returns (left: seq<Entry>)
      modifies this`fifo, this`newHeld, this`stopped
      ensures stopped && fifo == [] && newHeld == []
      ensures left == old(fifo) + EntriesOf(old(newHeld))
    {
      stopped := true;
      left := fifo;
      fifo := [];
      var i := 0;
      while i < |newHeld|
        invariant 0 <= i <= |newHeld|
        invariant left == old(fifo) + EntriesOf(newHeld[..i])
        invariant stopped && fifo == [] && newHeld == old(newHeld)
      {
        left := left + [newHeld[i].entry];
        i := i + 1;
        assert EntriesOf(newHeld[..i]) == EntriesOf(newHeld[..i - 1]) + [newHeld[i - 1].entry];
      }
      assert newHeld[..i] == newHeld;
      newHeld := [];
    }

    /** The look of a drain wait: is anything handed over before its mark still pending? */
    method Waiting(upto: nat) returns (waiting: bool)
      ensures waiting <==> exists n :: n in pending && n < upto
    {
      waiting := exists n | n in pending.Keys :: n < upto;
    }
  }

  predicate SortedBySeq(entries: seq<Entry>) {
    forall i, j | 0 <= i < j < |entries| :: entries[i].seqNo <= entries[j].seqNo
  }

  function InsertAt(sorted: seq<Entry>, at: nat, entry: Entry): seq<Entry>
    requires at <= |sorted|
  {
    sorted[..at] + [entry] + sorted[at..]
  }

  lemma InsertKeepsOrder(sorted: seq<Entry>, at: nat, entry: Entry)
    requires SortedBySeq(sorted) && at <= |sorted|
    requires at > 0 ==> sorted[at - 1].seqNo <= entry.seqNo
    requires at < |sorted| ==> entry.seqNo <= sorted[at].seqNo
    ensures SortedBySeq(InsertAt(sorted, at, entry))
  {
    var longer := InsertAt(sorted, at, entry);
    forall i, j | 0 <= i < j < |longer| ensures longer[i].seqNo <= longer[j].seqNo {
      var from := if i < at then sorted[i] else if i == at then entry else sorted[i - 1];
      var to := if j < at then sorted[j] else if j == at then entry else sorted[j - 1];
      assert longer[i] == from && longer[j] == to;
    }
  }

  lemma InsertKeepsEntries(sorted: seq<Entry>, at: nat, entry: Entry)
    requires at <= |sorted|
    ensures multiset(InsertAt(sorted, at, entry)) == multiset(sorted) + multiset{entry}
  {
    assert sorted == sorted[..at] + sorted[at..];
  }

  method InsertBySeq(sorted: seq<Entry>, entry: Entry) returns (longer: seq<Entry>)
    requires SortedBySeq(sorted)
    ensures SortedBySeq(longer)
    ensures multiset(longer) == multiset(sorted) + multiset{entry}
  {
    var at := |sorted|;
    while at > 0 && sorted[at - 1].seqNo > entry.seqNo
      invariant 0 <= at <= |sorted|
      invariant at < |sorted| ==> entry.seqNo <= sorted[at].seqNo
    {
      at := at - 1;
    }
    longer := InsertAt(sorted, at, entry);
    InsertKeepsOrder(sorted, at, entry);
    InsertKeepsEntries(sorted, at, entry);
  }

  /** The order in which a dropped task ends what it left unsent. */
  method SortBySeq(entries: seq<Entry>) returns (sorted: seq<Entry>)
    ensures SortedBySeq(sorted)
    ensures multiset(sorted) == multiset(entries)
  {
    sorted := [];
    for i := 0 to |entries|
      invariant SortedBySeq(sorted)
      invariant multiset(sorted) == multiset(entries[..i])
    {
      sorted := InsertBySeq(sorted, entries[i]);
      assert entries[..i + 1] == entries[..i] + [entries[i]];
    }
    assert entries[..|entries|] == entries;
  }
}
