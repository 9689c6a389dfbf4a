/**
 The sending task as the source writes it: loops over the locked state. Each loop is
 proved against a function of the state, and the head loop against a run of the
 transition system.
 */
module QueueTask {
  import opened Wrappers
  import opened Writes
  import opened QueueState
  import opened QueueMachine
  import opened QueueEffects
  import opened QueueConservation

  /** What `next_head` leaves behind: blocked heads are ended until one is let through. */
  function NextHead(st: State): (State, Option<Entry>)
    decreases |st.fifo|
  {
    if st.stopped || st.fifo == [] then (st, None)
    else
      var head := st.fifo[0];
      var removal := Blocked(head.write, st.ended);
      if removal.None? then (PopHead(st), Some(head))
      else NextHead(Record(PopHead(st), head, Err(removal.value)))
  }

  function RecordAll(st: State, entries: seq<Entry>, result: WriteResult): State
    decreases |entries|
  {
    if entries == [] then st else RecordAll(Record(st, entries[0], result), entries[1..], result)
  }

  function NumbersOf(entries: seq<Entry>): set<nat> {
    set i | 0 <= i < |entries| :: entries[i].seqNo
  }

  /** Exactly the numbers that were ended are pending no more; nothing else of the line changes. */
  lemma {:induction false} RecordAllEnds(st: State, entries: seq<Entry>, result: WriteResult)
    ensures var st' := RecordAll(st, entries, result);
            && st'.pending == st.pending - NumbersOf(entries)
            && st'.fifo == st.fifo && st'.newHeld == st.newHeld && st'.nextSeq == st.nextSeq
                   && st'.stopped == st.stopped
    decreases |entries|
  {
    hide Keep;
    if entries != [] {
      RecordAllEnds(Record(st, entries[0], result), entries[1..], result);
      assert forall n :: n in NumbersOf(entries) <==> n == entries[0].seqNo || n in NumbersOf(entries[1..]) by {
        forall n | n in NumbersOf(entries) && n != entries[0].seqNo ensures n in NumbersOf(entries[1..]) {
          var i :| 0 <= i < |entries| && entries[i].seqNo == n;
          assert entries[1..][i - 1].seqNo == n;
        }
        forall n | n in NumbersOf(entries[1..]) ensures n in NumbersOf(entries) {
          var i :| 0 <= i < |entries[1..]| && entries[1..][i].seqNo == n;
          assert entries[i + 1].seqNo == n;
        }
      }
    }
  }

  /** The end of the line after which a dropped task starts to complete what it had. */
  function Emptied(st: State): State {
    st.(stopped := true, fifo := [], newHeld := [])
  }

  class Task {
    const shared: Shared
    var held: map<nat, Held>
    var entry: Option<Entry>

    constructor (shared: Shared)
      ensures this.shared == shared && held == map[] && entry.None?
    {
      this.shared := shared;
      held, entry := map[], None;
    }

    /** The new held writes come under the task, whatever it held before. */
    method TakeNewHeld()
      modifies this`held, shared`newHeld
      ensures held == Absorb(old(held), old(shared.newHeld)) && shared.newHeld == []
    {
      var taken := shared.TakeNewHeld();
      var i := 0;
      while i < |taken|
        invariant 0 <= i <= |taken|
        invariant Absorb(held, taken[i..]) == Absorb(old(held), taken)
        invariant shared.newHeld == []
        modifies this`held
      {
        assert taken[i..][0] == taken[i] && taken[i..][1..] == taken[i + 1..];
        held := held[taken[i].entry.seqNo := taken[i]];
        i := i + 1;
      }
      assert taken[i..] == [];
    }

    /** The head loop: every blocked head is completed, the first free one is given back. */
    method TakeNext() returns (head: Option<Entry>)
      modifies shared
      ensures (shared.Value(), head) == NextHead(old(shared.Value()))
    {
      ghost var goal := NextHead(shared.Value());
      while true
        invariant NextHead(shared.Value()) == goal
        decreases |shared.fifo|
      {
        ghost var before := shared.Value();
        var next, removal := shared.TakeHead();
        if next.None? {
          return None;
        }
        assert before.fifo[0] == next.value && before.fifo[1..] == shared.fifo;
        assert shared.Value() == PopHead(before);
        if removal.None? {
          return next;
        }
        shared.RecordEnd(next.value, Err(removal.value));
      }
    }

    /** A free task takes the next head; a busy one keeps what it sends. */
    method TakeHead()
      modifies this`entry, shared
      ensures old(entry).Some? ==> entry == old(entry) && shared.Value() == old(shared.Value())
      ensures old(entry).None? ==> (shared.Value(), entry) == NextHead(old(shared.Value()))
    {
      if entry.None? {
        entry := TakeNext();
      }
    }

    method HeldList() returns (entries: seq<Entry>)
      requires Keyed(held)
      ensures multiset(entries) == multiset(HeldEntries(held))
    {
      entries := [];
      var rest := held;
      while rest != map[]
        invariant Keyed(rest)
        invariant multiset(entries) + multiset(HeldEntries(rest)) == multiset(HeldEntries(held))
        decreases |rest|
      {
        var n :| n in rest.Keys;
        HeldRemove(rest, n);
        entries := entries + [rest[n].entry];
        assert (rest - {n}).Keys == rest.Keys - {n};
        rest := rest - {n};
      }
      assert HeldEntries(map[]) == {};
    }

    method CompleteAll(entries: seq<Entry>)
      modifies shared
      ensures shared.Value() == RecordAll(old(shared.Value()), entries, Err(LeftUnsent))
    {
      var i := 0;
      while i < |entries|
        invariant 0 <= i <= |entries|
        invariant RecordAll(shared.Value(), entries[i..], Err(LeftUnsent)) ==
            RecordAll(old(shared.Value()), entries, Err(LeftUnsent))
      {
        assert entries[i..][0] == entries[i] && entries[i..][1..] == entries[i + 1..];
        shared.RecordEnd(entries[i], Err(LeftUnsent));
        i := i + 1;
      }
      assert entries[i..] == [];
    }

    /** The drop: what the task and the queue still had is ended unsent, oldest number first. */
    method Drop() returns (ended: seq<Entry>)
      requires Keyed(held)
      modifies this, shared
      ensures SortedBySeq(ended)
      ensures multiset(ended) == multiset(OptEntry(old(entry))) + multiset(HeldEntries(old(held)))
                                 + multiset(old(shared.fifo)) + multiset(EntriesOf(old(shared.newHeld)))
      ensures held == map[] && entry.None?
      ensures shared.Value() == RecordAll(Emptied(old(shared.Value())), ended, Err(LeftUnsent))
      ensures shared.pending == old(shared.pending) - NumbersOf(ended)
      ensures shared.stopped && shared.fifo == [] && shared.newHeld == []
    {
      var own := if entry.Some? then [entry.value] else [];
      entry := None;
      var kept := HeldList();
      held := map[];
      var left := shared.DrainAll();
      ended := SortBySeq(own + kept + left);
      assert shared.Value() == Emptied(old(shared.Value()));
      RecordAllEnds(shared.Value(), ended, Err(LeftUnsent));
      CompleteAll(ended);
    }
  }

  // ----- the head loop is a run of the transition system

  ghost predicate Runs(states: seq<Queue>, steps: seq<Step>) {
    && |states| == |steps| + 1
    && forall i | 0 <= i < |steps| :: Enabled(states[i], steps[i]) && states[i + 1] == Apply(states[i], steps[i])
  }

  lemma Join(first: seq<Queue>, firstSteps: seq<Step>, second: seq<Queue>, secondSteps: seq<Step>)
    requires Runs(first, firstSteps) && Runs(second, secondSteps) && first[|first| - 1] == second[0]
    ensures Runs(first[..|first| - 1] + second, firstSteps + secondSteps)
  {
    hide Apply, Enabled;
    var states, steps := first[..|first| - 1] + second, firstSteps + secondSteps;
    forall i | 0 <= i < |steps| ensures Enabled(states[i], steps[i]) && states[i + 1] == Apply(states[i], steps[i]) {
      if i < |firstSteps| {
        assert states[i] == first[i] && states[i + 1] == first[i + 1];
      } else {
        assert states[i] == second[i - |firstSteps|] && states[i + 1] == second[i - |firstSteps| + 1];
      }
    }
  }

  /** A completion, run alone: its four parts, after which the task goes on where it was. */
  lemma CompletionRuns(q: Queue) returns (states: seq<Queue>, steps: seq<Step>)
    requires q.pc.Completing? && q.pc.stage.Reporting?
    ensures Runs(states, steps) && |states| == 5 && states[0] == q
    ensures states[4].pc == q.pc.next && states[4].entry == q.entry
    ensures states[4].h.sends == Append(q.h.sends, q.pc.entry.end, q.pc.result)
    ensures states[4].calls == q.calls && states[4].h.ids == q.h.ids
    ensures steps == [ReportEnd, RecordEnd, SendEnd, SignalEnd]
    ensures states[4].st == Record(q.st, q.pc.entry, q.pc.result)
  {
    hide Record, Apply;
    EndingEffect(q, ReportEnd);
    var q1 := Apply(q, ReportEnd);
    EndingEffect(q1, RecordEnd);
    var q2 := Apply(q1, RecordEnd);
    EndingEffect(q2, SendEnd);
    var q3 := Apply(q2, SendEnd);
    EndingEffect(q3, SignalEnd);
    states := [q, q1, q2, q3, Apply(q3, SignalEnd)];
    steps := [ReportEnd, RecordEnd, SendEnd, SignalEnd];
  }

  /** One blocked head: five steps, after which the task looks at the line again. */
  lemma BlockedHeadRuns(q: Queue) returns (states: seq<Queue>, steps: seq<Step>)
    requires q.pc.TookHeld? && q.entry.None? && !q.st.stopped && q.st.fifo != []
    requires Blocked(q.st.fifo[0].write, q.st.ended).Some?
    ensures Runs(states, steps) && |states| == 6 && states[0] == q
    ensures states[5].pc.TookHeld? && states[5].entry.None?
    ensures states[5].st == Record(PopHead(q.st), q.st.fifo[0], Err(Blocked(q.st.fifo[0].write, q.st.ended).value))
  {
    hide Blocked, Record, Apply;
    TaskEffect(q, Step.TakeHead);
    var q1 := Apply(q, Step.TakeHead);
    var ends, endSteps := CompletionRuns(q1);
    Join([q, q1], [Step.TakeHead], ends, endSteps);
    states, steps := [q] + ends, [Step.TakeHead] + endSteps;
    assert [q, q1][..1] == [q];
  }

  /** A look that ends no head is the last one of the loop. */
  lemma LastLook(q: Queue)
    requires q.pc.TookHeld? && q.entry.None?
    requires q.st.stopped || q.st.fifo == [] || Blocked(q.st.fifo[0].write, q.st.ended).None?
    ensures var q' := DoTakeHead(q); q'.pc.Parked? && (q'.st, q'.entry) == NextHead(q.st)
  {
    hide Blocked;
  }

  /** Run alone, the head loop of the task is a run of steps that ends where the loop ends. */
  lemma {:induction false} HeadLoopIsARun(q: Queue) returns (states: seq<Queue>, steps: seq<Step>)
    requires q.pc.TookHeld? && q.entry.None?
    ensures Runs(states, steps) && states[0] == q
    ensures states[|states| - 1].pc.Parked?
    ensures (states[|states| - 1].st, states[|states| - 1].entry) == NextHead(q.st)
    decreases |q.st.fifo|
  {
    hide Blocked, Apply, DoTakeHead;
    if !q.st.stopped && q.st.fifo != [] && Blocked(q.st.fifo[0].write, q.st.ended).Some? {
      var first, firstSteps := BlockedHeadRuns(q);
      var second, secondSteps := HeadLoopIsARun(first[5]);
      Join(first, firstSteps, second, secondSteps);
      states, steps := first[..5] + second, firstSteps + secondSteps;
    } else {
      TaskEffect(q, Step.TakeHead);
      LastLook(q);
      states, steps := [q, Apply(q, Step.TakeHead)], [Step.TakeHead];
    }
  }
}
