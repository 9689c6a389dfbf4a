/**
 The inbox of an agent: the listing in pages over a kept read, while items are being
 marked, and the marks themselves.
 */
module Inbox {
  import opened Wrappers
  import opened Writes
  import opened Sequences

  /** The items after the one a cursor names. */
  function AfterItem(items: seq<Uuid>, after: Uuid): Option<seq<Uuid>> {
    if items == [] then None
    else if items[0] == after then Some(items[1..])
    else AfterItem(items[1..], after)
  }

  function LaterThan(items: seq<Uuid>, after: Uuid): seq<Uuid> {
    if items == [] then []
    else (if items[0] > after then [items[0]] else []) + LaterThan(items[1..], after)
  }

  function LeaveOut(items: seq<Uuid>, marked: set<Uuid>): seq<Uuid> {
    if items == [] then []
    else (if items[0] in marked then [] else [items[0]]) + LeaveOut(items[1..], marked)
  }

  /** What is left to list, and the read it comes from when the kept one was not used. */
  function RestOfListing(kept: Option<seq<Uuid>>, read: seq<Uuid>, after: Option<Uuid>): (seq<Uuid>,
      Option<seq<Uuid>>) {
    if after.Some? && kept.Some? && AfterItem(kept.value, after.value).Some? then
      (AfterItem(kept.value, after.value).value, None)
    else
      var rest :=
        if after.None? then read
        else if AfterItem(read, after.value).Some? then AfterItem(read, after.value).value
        else LaterThan(read, after.value);
      (rest, Some(read))
  }

  datatype Batch = Batch(items: seq<Uuid>, next: Option<Uuid>)

  /** One page, and the read kept for the next one. */
  function Page(kept: Option<seq<Uuid>>, read: seq<Uuid>, marked: set<Uuid>, after: Option<Uuid>,
      limit: nat): (Batch, Option<seq<Uuid>>)
    requires limit > 0
  {
    var left := RestOfListing(kept, read, after);
    var rest := LeaveOut(left.0, marked);
    if |rest| > limit then
      (Batch(rest[..limit], Some(rest[limit - 1])), if left.1.Some? then left.1 else kept)
    else (Batch(rest, None), None)
  }

  datatype EntryKind = DirectMail | CcNotice | RunCompletedNotice | OtherNotice

  datatype MailEntry = MailEntry(itemId: Uuid, childJobId: Option<Uuid>, kind: EntryKind)

  /** The finish that goes before the marker of a completed call. */
  function FinishOf(listed: MailEntry): Option<Write> {
    if listed.kind.RunCompletedNotice? && listed.childJobId.Some?
    then Some(Finish(listed.childJobId.value, listed.itemId))
    else None
  }

  class Book {
    var listed: map<(Uuid, Uuid), MailEntry>
    var marked: map<Uuid, set<Uuid>>
    var snapshots: map<Uuid, seq<Uuid>>

    constructor ()
      ensures listed == map[] && marked == map[] && snapshots == map[]
    {
      listed, marked, snapshots := map[], map[], map[];
    }

    function Kept(agent: Uuid): Option<seq<Uuid>>
      reads this
    {
      if agent in snapshots then Some(snapshots[agent]) else None
    }

    function MarkedItems(agent: Uuid): set<Uuid>
      reads this
    {
      if agent in marked then marked[agent] else {}
    }

    /** True for the first mark of an item of an agent, false ever after. */
    method Mark(agent: Uuid, item: Uuid) returns (first: bool)
      modifies this`marked
      ensures first == (item !in old(MarkedItems(agent)))
      ensures marked == old(marked)[agent := old(MarkedItems(agent)) + {item}]
    {
      var items := MarkedItems(agent);
      first := item !in items;
      marked := marked[agent := items + {item}];
    }

    method RetainUnmarked(agent: Uuid, items: seq<Uuid>) returns (rest: seq<Uuid>)
      ensures rest == LeaveOut(items, MarkedItems(agent))
    {
      rest := [];
      var gone := MarkedItems(agent);
      for i := 0 to |items|
        invariant rest + LeaveOut(items[i..], gone) == LeaveOut(items, gone)
      {
        assert items[i..][0] == items[i] && items[i..][1..] == items[i + 1..];
        if items[i] !in gone {
          rest := rest + [items[i]];
        }
      }
    }

    /**
     The listing of one page. `convert` reads one item in full; when that fails for an item of
     the page, nothing is kept and nothing is recorded.
     */
    method Items(agent: Uuid, registrationQueued: bool, read: seq<Uuid>,
                 convert: Uuid -> Option<(Uuid, MailEntry)>, after: Option<Uuid>, limit: nat)
      returns (batch: Option<Batch>)
      requires limit > 0
      modifies this`listed, this`snapshots
      ensures registrationQueued ==>
          batch == Some(Batch([], None)) && snapshots == old(snapshots) && listed == old(listed)
      ensures !registrationQueued ==>
                var page := Page(old(Kept(agent)), read, MarkedItems(agent), after, limit);
                if Converts(page.0.items, convert)
                then batch == Some(page.0) && snapshots == old(snapshots) - {agent} + KeptAs(agent, page.1) &&
                     listed == Recorded(old(listed), agent, page.0.items, convert)
                else batch.None? && snapshots == old(snapshots) && listed == old(listed)
    {
      if registrationQueued {
        return Some(Batch([], None));
      }
      var left := RestOfListing(Kept(agent), read, after);
      var rest := RetainUnmarked(agent, left.0);
      var more := |rest| > limit;
      if more {
        rest := rest[..limit];
      }
      var next := if more then Some(rest[limit - 1]) else None;
      ghost var page := Page(Kept(agent), read, MarkedItems(agent), after, limit);
      assert page.0 == Batch(rest, next);
      if !Converts(rest, convert) {
        return None;
      }
      KeepRead(agent, next, left.1);
      RecordListed(agent, rest, convert);
      batch := Some(Batch(rest, next));
    }

    /** The read behind a page with a next cursor is kept, that of the last page let go. */
    method KeepRead(agent: Uuid, next: Option<Uuid>, answer: Option<seq<Uuid>>)
      modifies this`snapshots
      ensures snapshots == old(snapshots) - {agent} +
                           KeptAs(agent, if next.None? then None else if answer.Some? then answer else old(Kept(agent)))
    {
      if next.Some? {
        if answer.Some? {
          snapshots := snapshots[agent := answer.value];
        }
      } else {
        snapshots := snapshots - {agent};
      }
    }

    method RecordListed(agent: Uuid, items: seq<Uuid>, convert: Uuid -> Option<(Uuid, MailEntry)>)
      requires Converts(items, convert)
      modifies this`listed
      ensures listed == Recorded(old(listed), agent, items, convert)
    {
      for i := 0 to |items|
        invariant listed == Recorded(old(listed), agent, items[..i], convert)
      {
        assert items[..i + 1][..i] == items[..i];
        var done := convert(items[i]).value;
        listed := listed[(agent, done.0) := done.1];
      }
      assert items[..|items|] == items;
    }
  }

  predicate Converts(items: seq<Uuid>, convert: Uuid -> Option<(Uuid, MailEntry)>) {
    forall i | 0 <= i < |items| :: convert(items[i]).Some?
  }

  function KeptAs(agent: Uuid, read: Option<seq<Uuid>>): map<Uuid, seq<Uuid>> {
    if read.Some? then map[agent := read.value] else map[]
  }

  function Recorded(listed: map<(Uuid, Uuid), MailEntry>, agent: Uuid, items: seq<Uuid>,
                    convert: Uuid -> Option<(Uuid, MailEntry)>): map<(Uuid, Uuid), MailEntry>
    requires Converts(items, convert)
  {
    if items == [] then listed
    else
      var last := |items| - 1;
      var done := convert(items[last]).value;
      Recorded(listed, agent, items[..last], convert)[(agent, done.0) := done.1]
  }

  // ===== a listing from its first page to its last =====

  /**
   One listing of one agent. `kept` and `marked` are the agent's entries in the book, `cursor`
   what the last page gave. `read` is what the backend answers to the first page, `pages` and
   `listed` what the caller has had so far.
   */
  datatype Listing = Listing(
    kept: Option<seq<Uuid>>,
    marked: set<Uuid>,
    cursor: Option<Uuid>,
    over: bool,
    read: seq<Uuid>,
    pages: nat,
    listed: seq<Uuid>)

  datatype ListingStep =
    | MarkItem(item: Uuid)
    | NextPage(limit: nat, answer: seq<Uuid>)

  /** A read that a later page makes may answer anything. */
  predicate Enabled(l: Listing, step: ListingStep) {
    match step
    case MarkItem(_) => true
    case NextPage(limit, answer) => !l.over && limit > 0 && (l.pages == 0 ==> answer == l.read)
  }

  function Apply(l: Listing, step: ListingStep): Listing
    requires Enabled(l, step)
  {
    match step
    case MarkItem(item) => l.(marked := l.marked + {item})
    case NextPage(limit, answer) =>
      var page := Page(l.kept, answer, l.marked, l.cursor, limit);
      l.(kept := page.1, cursor := page.0.next, over := page.0.next.None?,
         pages := l.pages + 1, listed := l.listed + page.0.items)
  }

  ghost predicate IsListing(trace: seq<Listing>, steps: seq<ListingStep>) {
    && |trace| == |steps| + 1
    && trace[0].cursor.None? && !trace[0].over && trace[0].pages == 0 && trace[0].listed == []
    && forall i | 0 <= i < |steps| :: Enabled(trace[i], steps[i]) && trace[i + 1] == Apply(trace[i], steps[i])
  }

  lemma {:induction false} LeaveOutKeepsRest(items: seq<Uuid>, marked: set<Uuid>)
    ensures Subsequence(LeaveOut(items, marked), items)
    ensures forall x :: x in LeaveOut(items, marked) <==> x in items && x !in marked
    ensures forall x | x !in marked :: multiset(LeaveOut(items, marked))[x] == multiset(items)[x]
  {
    if items != [] {
      LeaveOutKeepsRest(items[1..], marked);
      OneInFront(items[0], LeaveOut(items[1..], marked), items[1..]);
      hide Subsequence;
      assert items == [items[0]] + items[1..];
      assert LeaveOut(items, marked) == if items[0] in marked then LeaveOut(items[1..], marked)
                                        else [items[0]] + LeaveOut(items[1..], marked);
    }
  }

  /** The items with a later id, in their order, each as often as it was there. */
  lemma {:induction false} LaterThanKeepsLater(items: seq<Uuid>, after: Uuid)
    ensures Subsequence(LaterThan(items, after), items)
    ensures forall x :: multiset(LaterThan(items, after))[x] == if x > after then multiset(items)[x] else 0
  {
    if items != [] {
      LaterThanKeepsLater(items[1..], after);
      OneInFront(items[0], LaterThan(items[1..], after), items[1..]);
      hide Subsequence;
      assert items == [items[0]] + items[1..];
      assert LaterThan(items, after) == if items[0] > after then [items[0]] + LaterThan(items[1..], after)
                                        else LaterThan(items[1..], after);
    }
  }

  /** A cursor that names an item leads behind the first place of it; no other cursor leads anywhere. */
  lemma {:induction false} CursorNamesAnItem(items: seq<Uuid>, after: Uuid)
    ensures AfterItem(items, after).None? <==> after !in items
    ensures after in items ==> exists n :: 0 <= n < |items| && items[n] == after && after !in items[..n] &&
                                           AfterItem(items, after) == Some(items[n + 1..])
  {
    if items != [] {
      assert items == [items[0]] + items[1..];
      if items[0] == after {
        assert items[..0] == [] && items[1..] == items[0 + 1..];
      } else {
        CursorNamesAnItem(items[1..], after);
        if after in items {
          var n :| 0 <= n < |items[1..]| && items[1..][n] == after && after !in items[1..][..n] &&
                   AfterItem(items[1..], after) == Some(items[1..][n + 1..]);
          assert items[n + 1] == after && items[..n + 1] == [items[0]] + items[1..][..n];
          assert items[1..][n + 1..] == items[n + 1 + 1..];
        }
      }
    }
  }

  /**
   What a page has left to list: all of the read without a cursor; what stands behind the cursor in
   the kept read, else in a new one; and when neither holds the item of the cursor, what is later.
   */
  lemma RestIsWhatIsLeft(kept: Option<seq<Uuid>>, read: seq<Uuid>, after: Option<Uuid>)
    ensures var rest := RestOfListing(kept, read, after);
            && (after.None? ==> rest == (read, Some(read)))
            && (after.Some? && kept.Some? && after.value in kept.value ==>
                  AfterItem(kept.value, after.value) == Some(rest.0) && rest.1.None?)
            && (after.Some? && !(kept.Some? && after.value in kept.value) && after.value in read ==>
                  AfterItem(read, after.value) == Some(rest.0) && rest.1 == Some(read))
            && (after.Some? && !(kept.Some? && after.value in kept.value) && after.value !in read ==>
                  rest == (LaterThan(read, after.value), Some(read)))
  {
    if after.Some? {
      CursorNamesAnItem(read, after.value);
      if kept.Some? {
        CursorNamesAnItem(kept.value, after.value);
      }
    }
  }

  /** A page is full when it has a next cursor, which names its last item; the last page lists all that is left. */
  lemma PageIsFull(kept: Option<seq<Uuid>>, read: seq<Uuid>, marked: set<Uuid>, after: Option<Uuid>, limit: nat)
    requires limit > 0
    ensures var left := LeaveOut(RestOfListing(kept, read, after).0, marked);
            var batch := Page(kept, read, marked, after, limit).0;
            && batch.items <= left && |batch.items| <= limit
            && (batch.next.Some? <==> |left| > limit)
            && (batch.next.Some? ==> |batch.items| == limit && batch.next.value == batch.items[limit - 1])
            && (batch.next.None? ==> batch.items == left)
  {}

  /** The key under which an item is recorded. */
  function KeyOf(agent: Uuid, item: Uuid, convert: Uuid -> Option<(Uuid, MailEntry)>): (Uuid, Uuid)
    requires convert(item).Some?
  {
    (agent, convert(item).value.0)
  }

  /** Entries that no item of the page has stay as they were. */
  lemma {:induction false} RecordedLeavesOthers(listed: map<(Uuid, Uuid), MailEntry>, agent: Uuid, items: seq<Uuid>,
                                                convert: Uuid -> Option<(Uuid, MailEntry)>, key: (Uuid, Uuid))
    requires Converts(items, convert) && forall i | 0 <= i < |items| :: key != KeyOf(agent, items[i], convert)
    ensures var after := Recorded(listed, agent, items, convert);
            (key in after <==> key in listed) && (key in listed ==> after[key] == listed[key])
  {
    if items != [] {
      var last := |items| - 1;
      assert key != KeyOf(agent, items[last], convert);
      RecordedLeavesOthers(listed, agent, items[..last], convert, key);
    }
  }

  /** An item of the page is recorded with the entry it was read with, unless a later one has the same entry id. */
  lemma {:induction false} RecordedHoldsThePage(listed: map<(Uuid, Uuid), MailEntry>, agent: Uuid, items: seq<Uuid>,
                                                convert: Uuid -> Option<(Uuid, MailEntry)>, i: nat)
    requires Converts(items, convert) && i < |items|
    requires forall j | i < j < |items| :: KeyOf(agent, items[j], convert) != KeyOf(agent, items[i], convert)
    ensures var key := KeyOf(agent, items[i], convert);
            var after := Recorded(listed, agent, items, convert);
            key in after && after[key] == convert(items[i]).value.1
  {
    var last := |items| - 1;
    if i < last {
      assert KeyOf(agent, items[last], convert) != KeyOf(agent, items[i], convert);
      RecordedHoldsThePage(listed, agent, items[..last], convert, i);
    }
  }

  /** How many items one must go through to list `count` unmarked ones. */
  ghost function Cut(items: seq<Uuid>, marked: set<Uuid>, count: nat): nat {
    if items == [] || count == 0 then 0
    else 1 + Cut(items[1..], marked, if items[0] in marked then count else count - 1)
  }

  lemma {:induction false} CutIsAPage(items: seq<Uuid>, marked: set<Uuid>, count: nat)
    requires 0 < count <= |LeaveOut(items, marked)|
    ensures 0 < Cut(items, marked, count) <= |items|
    ensures LeaveOut(items[..Cut(items, marked, count)], marked) == LeaveOut(items, marked)[..count]
    ensures items[Cut(items, marked, count) - 1] == LeaveOut(items, marked)[count - 1]
  {
    var c := Cut(items, marked, count);
    var less := if items[0] in marked then count else count - 1;
    var rest := LeaveOut(items[1..], marked);
    if less == 0 {
      assert c == 1 && items[..c] == [items[0]];
      assert LeaveOut(items[..c], marked) == [items[0]];
    } else {
      CutIsAPage(items[1..], marked, less);
      assert items[..c][1..] == items[1..][..c - 1];
      assert items[..c][0] == items[0];
      assert items[c - 1] == items[1..][c - 2];
      assert items[0] in marked ==> LeaveOut(items, marked) == rest;
    }
  }

  lemma {:induction false} CursorFindsItsPlace(items: seq<Uuid>, n: nat)
    requires Distinct(items) && 0 < n <= |items|
    ensures AfterItem(items, items[n - 1]) == Some(items[n..])
  {
    if n > 1 {
      assert items[0] != items[n - 1];
      assert forall i | 0 <= i < |items[1..]| :: items[1..][i] == items[i + 1];
      CursorFindsItsPlace(items[1..], n - 1);
      assert items[1..][n - 1..] == items[n..];
    }
  }

  // ----- what every page keeps -----

  /** The pages so far went through exactly the first `covered` items of the read. */
  ghost predicate ListedUpTo(l: Listing, covered: nat) {
    && covered <= |l.read|
    && Subsequence(l.listed, l.read[..covered])
    && (forall i | 0 <= i < covered :: l.read[i] in l.listed || l.read[i] in l.marked)
    && (l.pages == 0 ==> covered == 0 && l.cursor.None? && !l.over && l.listed == [])
    && (l.pages > 0 && !l.over ==> covered > 0 && l.kept == Some(l.read) && l.cursor == Some(l.read[covered - 1]))
    && (l.over ==> covered == |l.read|)
    && l.pages <= covered + (if l.over then 1 else 0)
  }

  lemma RestIsBehind(l: Listing, covered: nat, answer: seq<Uuid>)
    requires Distinct(l.read) && ListedUpTo(l, covered) && !l.over
    requires l.pages == 0 ==> answer == l.read
    ensures RestOfListing(l.kept, answer, l.cursor).0 == l.read[covered..]
    ensures RestOfListing(l.kept, answer, l.cursor).1 == (if l.pages == 0 then Some(l.read) else None)
  {
    if l.pages > 0 {
      CursorFindsItsPlace(l.read, covered);
    } else {
      assert l.read[0..] == l.read;
    }
  }

  lemma {:induction false} ListedJoin(l: Listing, covered: nat, more: nat, batch: seq<Uuid>)
    requires ListedUpTo(l, covered) && covered + more <= |l.read|
    requires batch == LeaveOut(l.read[covered..][..more], l.marked)
    ensures Subsequence(l.listed + batch, l.read[..covered + more])
    ensures forall i | 0 <= i < covered + more :: l.read[i] in l.listed + batch || l.read[i] in l.marked
  {
    var part := l.read[covered..][..more];
    LeaveOutKeepsRest(part, l.marked);
    SubsequencesJoin(l.listed, l.read[..covered], batch, part);
    assert l.read[..covered] + part == l.read[..covered + more];
    forall i | 0 <= i < covered + more ensures l.read[i] in l.listed + batch || l.read[i] in l.marked {
      if i >= covered {
        assert part[i - covered] == l.read[i];
      }
    }
  }

  /** A page with a next cursor goes strictly further; one without covers the whole read. */
  lemma PageAdvances(l: Listing, covered: nat, limit: nat, answer: seq<Uuid>) returns (further: nat)
    requires Distinct(l.read) && ListedUpTo(l, covered)
    requires Enabled(l, NextPage(limit, answer))
    ensures ListedUpTo(Apply(l, NextPage(limit, answer)), further)
    ensures covered <= further
    ensures Apply(l, NextPage(limit, answer)).cursor.Some? ==> covered < further
  {
    var rest := l.read[covered..];
    RestIsBehind(l, covered, answer);
    if |LeaveOut(rest, l.marked)| > limit {
      CutIsAPage(rest, l.marked, limit);
      var more := Cut(rest, l.marked, limit);
      ListedJoin(l, covered, more, LeaveOut(rest, l.marked)[..limit]);
      further := covered + more;
      assert rest[more - 1] == l.read[further - 1];
    } else {
      assert rest[..|rest|] == rest;
      ListedJoin(l, covered, |rest|, LeaveOut(rest, l.marked));
      further := |l.read|;
    }
  }

  lemma {:induction false} ListingKeeps(trace: seq<Listing>, steps: seq<ListingStep>) returns (covered: nat)
    requires IsListing(trace, steps) && Distinct(trace[0].read)
    ensures trace[|steps|].read == trace[0].read
    ensures ListedUpTo(trace[|steps|], covered)
    decreases |steps|
  {
    if steps == [] {
      covered := 0;
    } else {
      var n := |steps| - 1;
      covered := ListingKeeps(trace[..n + 1], steps[..n]);
      assert trace[n + 1] == Apply(trace[n], steps[n]);
      match steps[n]
      case MarkItem(_) =>
      case NextPage(limit, answer) => covered := PageAdvances(trace[n], covered, limit, answer);
    }
  }

  /**
   Paging from no cursor to the end, with marks made at any moment: what was listed is the first
   read in its order with some items left out, no item twice, and every item that was left out
   was marked. At most one page more than there are items is ever needed.
   */
  lemma ListingIsTheReadWithoutMarked(trace: seq<Listing>, steps: seq<ListingStep>)
    requires IsListing(trace, steps) && Distinct(trace[0].read)
    ensures var l := trace[|steps|];
            && Subsequence(l.listed, trace[0].read) && Distinct(l.listed)
            && (l.over ==> forall x | x in trace[0].read && x !in l.marked :: x in l.listed)
            && l.pages <= |trace[0].read| + 1
  {
    var l := trace[|steps|];
    var covered := ListingKeeps(trace, steps);
    var read := trace[0].read;
    SubsequencesJoin(l.listed, read[..covered], [], read[covered..]);
    assert l.listed + [] == l.listed && read[..covered] + read[covered..] == read;
    PartIsDistinct(l.listed, read);
  }
}
