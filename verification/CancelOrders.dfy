/**
 The cancel orders of a pod: replayed from a feed that may be lost and opened again, and
 applied to the runs that are registered.
 */
module CancelOrders {

  type RunId = nat
  type TokenId = nat

  datatype Event = OrderMade(run: RunId) | OrderDeleted(run: RunId) | ReplayComplete | OtherEvent

  /** The runs in flight with their cancel tokens, and the orders known. */
  datatype Registry = Registry(runs: map<RunId, TokenId>, known: set<RunId>, triggered: set<TokenId>)

  function TokensOf(runs: map<RunId, TokenId>, orders: set<RunId>): set<TokenId> {
    set r | r in runs && r in orders :: runs[r]
  }

  function Register(g: Registry, run: RunId, token: TokenId): Registry {
    if run in g.runs then g
    else g.(runs := g.runs[run := token], triggered := if run in g.known then g.triggered + {token} else g.triggered)
  }

  function Forget(g: Registry, run: RunId): Registry {
    g.(runs := g.runs - {run})
  }

  function Made(g: Registry, run: RunId): Registry {
    g.(known := g.known + {run}, triggered := if run in g.runs then g.triggered + {g.runs[run]} else g.triggered)
  }

  function Deleted(g: Registry, run: RunId): Registry {
    g.(known := g.known - {run})
  }

  function Replaced(g: Registry, orders: set<RunId>): Registry {
    g.(known := orders, triggered := g.triggered + TokensOf(g.runs, orders))
  }

  /** Every registered run with a known order has its token triggered. */
  ghost predicate OrdersHeeded(g: Registry) {
    forall r | r in g.runs && r in g.known :: g.runs[r] in g.triggered
  }

  // ===== the registry behind its lock =====

  class Shared {
    var runs: map<RunId, TokenId>
    var known: set<RunId>
    var triggered: set<TokenId>

    ghost function Value(): Registry
      reads this
    {
      Registry(runs, known, triggered)
    }

    constructor ()
      ensures Value() == Registry(map[], {}, {})
    {
      runs, known, triggered := map[], {}, {};
    }

    method RegisterRun(run: RunId, token: TokenId) returns (registered: bool)
      requires OrdersHeeded(Value())
      modifies this`runs, this`triggered
      ensures OrdersHeeded(Value()) && old(triggered) <= triggered
      ensures registered <==> run !in old(runs)
      ensures run in runs && runs == if registered then old(runs)[run := token] else old(runs)
      ensures triggered == if registered && run in known then old(triggered) + {token} else old(triggered)
      ensures Value() == Register(old(Value()), run, token)
    {
      if run in runs {
        return false;
      }
      if run in known {
        triggered := triggered + {token};
      }
      runs := runs[run := token];
      return true;
    }

    method ForgetRun(run: RunId)
      requires OrdersHeeded(Value())
      modifies this`runs
      ensures OrdersHeeded(Value()) && runs == old(runs) - {run} && Value() == Forget(old(Value()), run)
    {
      runs := runs - {run};
    }

    method OrderIsMade(run: RunId)
      requires OrdersHeeded(Value())
      modifies this`known, this`triggered
      ensures OrdersHeeded(Value()) && old(triggered) <= triggered && Value() == Made(old(Value()), run)
      ensures known == old(known) + {run} && (run in runs ==> runs[run] in triggered)
    {
      known := known + {run};
      if run in runs {
        triggered := triggered + {runs[run]};
      }
    }

    method OrderIsDeleted(run: RunId)
      requires OrdersHeeded(Value())
      modifies this`known
      ensures OrdersHeeded(Value()) && known == old(known) - {run} && Value() == Deleted(old(Value()), run)
    {
      known := known - {run};
    }

    method ReplaceOrders(orders: set<RunId>)
      requires OrdersHeeded(Value())
      modifies this`known, this`triggered
      ensures OrdersHeeded(Value()) && old(triggered) <= triggered && Value() == Replaced(old(Value()), orders)
      ensures known == orders && forall r | r in runs && r in orders :: runs[r] in triggered
    {
      var left := orders;
      while left != {}
        invariant left <= orders && known == old(known) && runs == old(runs)
        invariant triggered == old(triggered) + TokensOf(runs, orders - left)
        decreases left
      {
        var run :| run in left;
        if run in runs {
          triggered := triggered + {runs[run]};
        }
        left := left - {run};
      }
      assert orders - left == orders;
      known := orders;
    }

    /** One feed, from its opening to its end, when nothing else touches the registry. */
    method FollowFeed(events: seq<Event>) returns (replayed: set<RunId>, complete: bool)
      requires OrdersHeeded(Value())
      modifies this`known, this`triggered
      ensures OrdersHeeded(Value()) && old(triggered) <= triggered
      ensures complete == (ReplayComplete in events)
      ensures known == KnownAfter(events, old(known))
    {
      replayed, complete := {}, false;
      for i := 0 to |events|
        invariant OrdersHeeded(Value()) && old(triggered) <= triggered
        invariant complete == (ReplayComplete in events[..i])
        invariant replayed == ReplayedAfter(events[..i]) && known == KnownAfter(events[..i], old(known))
      {
        assert events[..i + 1] == events[..i] + [events[i]];
        match events[i] {
          case OrderMade(run) =>
            if complete {
              OrderIsMade(run);
            } else {
              replayed := replayed + {run};
            }
          case OrderDeleted(run) =>
            if complete {
              OrderIsDeleted(run);
            } else {
              replayed := replayed - {run};
            }
          case ReplayComplete =>
            complete := true;
            ReplaceOrders(replayed);
            replayed := {};
          case OtherEvent =>
        }
      }
      assert events[..|events|] == events;
    }
  }

  // ===== what a feed means =====

  /** The orders collected and not yet taken over. */
  function ReplayedAfter(events: seq<Event>): set<RunId> {
    if events == [] then {}
    else
      var before := events[..|events| - 1];
      var was := ReplayedAfter(before);
      match events[|events| - 1]
      case OrderMade(run) => if ReplayComplete in before then was else was + {run}
      case OrderDeleted(run) => if ReplayComplete in before then was else was - {run}
      case ReplayComplete => {}
      case OtherEvent => was
  }

  /** The orders known, when `known` were known as the feed opened. */
  function KnownAfter(events: seq<Event>, known: set<RunId>): set<RunId> {
    if events == [] then known
    else
      var before := events[..|events| - 1];
      var was := KnownAfter(before, known);
      match events[|events| - 1]
      case OrderMade(run) => if ReplayComplete in before then was + {run} else was
      case OrderDeleted(run) => if ReplayComplete in before then was - {run} else was
      case ReplayComplete => ReplayedAfter(before)
      case OtherEvent => was
  }

  predicate Concerns(event: Event, run: RunId) {
    event == OrderMade(run) || event == OrderDeleted(run)
  }

  /** The last event about the run, if there is one, is that its order was made. */
  ghost predicate LastIsMade(events: seq<Event>, run: RunId) {
    exists i :: 0 <= i < |events| && events[i] == OrderMade(run) && forall j | i < j < |events| ::
        !Concerns(events[j], run)
  }

  /** The feed completes its replay at most once. */
  ghost predicate OneReplay(events: seq<Event>) {
    forall i, j | 0 <= i < |events| && 0 <= j < |events| && events[i].ReplayComplete? && events[j].ReplayComplete? ::
        i == j
  }

  lemma LastIsMadeStep(events: seq<Event>, event: Event, run: RunId)
    ensures LastIsMade(events + [event], run) <==>
        event == OrderMade(run) || (!Concerns(event, run) && LastIsMade(events, run))
  {
    var longer := events + [event];
    if event == OrderMade(run) {
      assert longer[|events|] == OrderMade(run);
    }
    if !Concerns(event, run) && LastIsMade(events, run) {
      var i :| 0 <= i < |events| && events[i] == OrderMade(run) && forall j | i < j < |events| ::
          !Concerns(events[j], run);
      assert longer[i] == OrderMade(run);
    }
    if event != OrderMade(run) && LastIsMade(longer, run) {
      var i :| 0 <= i < |longer| && longer[i] == OrderMade(run) && forall j | i < j < |longer| ::
          !Concerns(longer[j], run);
      assert longer[|events|] == event;
      assert events[i] == OrderMade(run);
      assert forall j | i < j < |events| :: events[j] == longer[j];
    }
  }

  /** Before the replay is complete, what was collected is the orders that stand; nothing else changes. */
  lemma {:induction false} BeforeComplete(events: seq<Event>, known: set<RunId>)
    requires ReplayComplete !in events
    ensures KnownAfter(events, known) == known
    ensures forall run :: run in ReplayedAfter(events) <==> LastIsMade(events, run)
  {
    if events != [] {
      var n := |events| - 1;
      var before := events[..n];
      assert events == before + [events[n]];
      BeforeComplete(before, known);
      forall run ensures run in ReplayedAfter(events) <==> LastIsMade(events, run) {
        LastIsMadeStep(before, events[n], run);
      }
    }
  }

  lemma {:induction false} NothingLeftToReplay(events: seq<Event>)
    requires ReplayComplete in events
    ensures ReplayedAfter(events) == {}
  {
    var n := |events| - 1;
    assert events == events[..n] + [events[n]];
    if ReplayComplete in events[..n] {
      NothingLeftToReplay(events[..n]);
    }
  }

  /**
   What is known after a feed whose replay completed at `at` for the last time: the orders that
   stand by the events after it, and, when it completed there for the first time, also those that
   stand by the events before it.
   */
  lemma {:induction false} KnownFrom(events: seq<Event>, known: set<RunId>, at: nat, run: RunId)
    requires at < |events| && events[at].ReplayComplete?
    requires forall j | at < j < |events| :: !events[j].ReplayComplete?
    ensures run in KnownAfter(events, known) <==>
              LastIsMade(if ReplayComplete in events[..at] then events[at + 1..] else events, run)
    decreases |events|
  {
    var n := |events| - 1;
    var before := events[..n];
    assert events == before + [events[n]];
    if at == n {
      if ReplayComplete in before {
        NothingLeftToReplay(before);
        assert events[at + 1..] == [];
      } else {
        BeforeComplete(before, known);
        LastIsMadeStep(before, events[n], run);
      }
    } else {
      KnownFrom(before, known, at, run);
      assert before[..at] == events[..at];
      assert before[at] == ReplayComplete;
      assert events[at + 1..] == before[at + 1..] + [events[n]];
      LastIsMadeStep(before, events[n], run);
      LastIsMadeStep(before[at + 1..], events[n], run);
    }
  }

  // ===== the theorems =====

  /** A replay keeps the old orders until it is complete, whatever it has heard. */
  lemma {:induction false} OldOrdersUntilComplete(events: seq<Event>, known: set<RunId>)
    requires ReplayComplete !in events
    ensures KnownAfter(events, known) == known
  {
    BeforeComplete(events, known);
  }

  /** After the one replay of a feed is complete, the known orders are those whose last event made them. */
  lemma KnownIsWhatStands(events: seq<Event>, known: set<RunId>, run: RunId)
    requires ReplayComplete in events && OneReplay(events)
    ensures run in KnownAfter(events, known) <==> LastIsMade(events, run)
  {
    var at :| 0 <= at < |events| && events[at] == ReplayComplete;
    assert ReplayComplete !in events[..at];
    KnownFrom(events, known, at, run);
  }

  /**
   A feed that completes its replay again forgets every order made before: the known orders are
   those that stand exactly if no order that stands was last made before the last completion.
   */
  lemma RepeatedReplayForgets(events: seq<Event>, known: set<RunId>, at: nat)
    requires at < |events| && events[at].ReplayComplete? && ReplayComplete in events[..at]
    requires forall j | at < j < |events| :: !events[j].ReplayComplete?
    ensures (forall run :: run in KnownAfter(events, known) <==> LastIsMade(events, run)) <==>
            (forall run | LastIsMade(events, run) :: exists j :: at < j < |events| && events[j] == OrderMade(run))
  {
    forall run
      ensures LastIsMade(events[at + 1..], run) <==>
                LastIsMade(events, run) && exists j :: at < j < |events| && events[j] == OrderMade(run)
    {
      SuffixMade(events, at + 1, run);
    }
    forall run ensures run in KnownAfter(events, known) <==> LastIsMade(events[at + 1..], run) {
      KnownFrom(events, known, at, run);
    }
    if forall run :: run in KnownAfter(events, known) <==> LastIsMade(events, run) {
      forall run | LastIsMade(events, run) ensures exists j :: at < j < |events| && events[j] == OrderMade(run) {
        assert run in KnownAfter(events, known);
      }
    }
  }

  lemma SuffixMade(events: seq<Event>, from: nat, run: RunId)
    requires from <= |events|
    ensures LastIsMade(events[from..], run) <==>
              LastIsMade(events, run) && exists j :: from <= j < |events| && events[j] == OrderMade(run)
  {
    var tail := events[from..];
    if LastIsMade(tail, run) {
      var i :| 0 <= i < |tail| && tail[i] == OrderMade(run) && forall j | i < j < |tail| :: !Concerns(tail[j], run);
      assert events[from + i] == OrderMade(run);
      forall j | from + i < j < |events| ensures !Concerns(events[j], run) {
        assert tail[j - from] == events[j];
      }
    }
    if LastIsMade(events, run) && exists j :: from <= j < |events| && events[j] == OrderMade(run) {
      var i :| 0 <= i < |events| && events[i] == OrderMade(run) && forall j | i < j < |events| ::
          !Concerns(events[j], run);
      var j :| from <= j < |events| && events[j] == OrderMade(run);
      assert j <= i;
      assert tail[i - from] == OrderMade(run);
    }
  }

  /** One order, and two completions of the same feed: the order is forgotten. */
  lemma RepeatedReplayExample()
    ensures var events := [OrderMade(1), ReplayComplete, ReplayComplete];
            LastIsMade(events, 1) && 1 !in KnownAfter(events, {})
  {
    var events := [OrderMade(1), ReplayComplete, ReplayComplete];
    assert events[0] == OrderMade(1);
    KnownFrom(events, {}, 2, 1);
    assert events[..2][1] == ReplayComplete;
  }

  // ===== every interleaving of the feed with the runs =====

  datatype Step =
    | RegisterStep(run: RunId, token: TokenId)
    | ForgetStep(run: RunId)
    | FeedEvent(event: Event)
    | NewFeed

  /** `heard` are the events of the feed that is open, `base` what was known as it opened. */
  datatype Pod = Pod(registry: Registry, heard: seq<Event>, base: set<RunId>)

  function Hear(g: Registry, heard: seq<Event>, event: Event): Registry {
    match event
    case OrderMade(run) => if ReplayComplete in heard then Made(g, run) else g
    case OrderDeleted(run) => if ReplayComplete in heard then Deleted(g, run) else g
    case ReplayComplete => Replaced(g, ReplayedAfter(heard))
    case OtherEvent => g
  }

  function Apply(p: Pod, step: Step): Pod {
    match step
    case RegisterStep(run, token) => p.(registry := Register(p.registry, run, token))
    case ForgetStep(run) => p.(registry := Forget(p.registry, run))
    case FeedEvent(event) => p.(registry := Hear(p.registry, p.heard, event), heard := p.heard + [event])
    case NewFeed => p.(heard := [], base := p.registry.known)
  }

  ghost predicate IsRun(states: seq<Pod>, steps: seq<Step>) {
    && |states| == |steps| + 1 && states[0] == Pod(Registry(map[], {}, {}), [], {})
    && forall i | 0 <= i < |steps| :: states[i + 1] == Apply(states[i], steps[i])
  }

  ghost predicate Inv(p: Pod) {
    OrdersHeeded(p.registry) && p.registry.known == KnownAfter(p.heard, p.base)
  }

  lemma StepKeeps(p: Pod, step: Step)
    requires Inv(p)
    ensures Inv(Apply(p, step)) && p.registry.triggered <= Apply(p, step).registry.triggered
  {
    if step.FeedEvent? {
      assert (p.heard + [step.event])[..|p.heard|] == p.heard;
    }
  }

  lemma {:induction false} RunKeeps(states: seq<Pod>, steps: seq<Step>, i: nat, j: nat)
    requires IsRun(states, steps) && i <= j < |states|
    ensures Inv(states[j]) && states[i].registry.triggered <= states[j].registry.triggered
    decreases j
  {
    if j > 0 {
      RunKeeps(states, steps, if i < j then i else j - 1, j - 1);
      hide Inv, Apply;
      StepKeeps(states[j - 1], steps[j - 1]);
    }
  }

  /** A run that is registered and not forgotten stays in the registry, under the token it first came with. */
  lemma {:induction false} RegisteredStays(states: seq<Pod>, steps: seq<Step>, k: nat, j: nat, run: RunId,
      token: TokenId)
    requires IsRun(states, steps) && k < j < |states| && steps[k] == RegisterStep(run, token)
    requires forall n | k < n < j :: steps[n] != ForgetStep(run)
    ensures run in states[j].registry.runs
    ensures states[j].registry.runs[run] ==
            if run in states[k].registry.runs then states[k].registry.runs[run] else token
  {
    assert states[j] == Apply(states[j - 1], steps[j - 1]);
    if k + 1 < j {
      RegisteredStays(states, steps, k, j - 1, run, token);
    }
  }

  /** A run that was forgotten, or never registered, is not in the registry. */
  lemma {:induction false} UnregisteredStays(states: seq<Pod>, steps: seq<Step>, k: nat, j: nat, run: RunId)
    requires IsRun(states, steps) && k <= j < |states|
    requires k == 0 || steps[k - 1] == ForgetStep(run)
    requires forall n | k <= n < j :: !(steps[n].RegisterStep? && steps[n].run == run)
    ensures run !in states[j].registry.runs
  {
    if j > 0 {
      assert states[j] == Apply(states[j - 1], steps[j - 1]);
    }
    if k < j {
      UnregisteredStays(states, steps, k, j - 1, run);
    }
  }

  /** An order that is heard of a registered run, after the feed completed its replay, triggers its token for good. */
  lemma HeardOrderTriggers(states: seq<Pod>, steps: seq<Step>, k: nat, m: nat, j: nat, run: RunId, token: TokenId)
    requires IsRun(states, steps) && k < m < j < |states| && steps[k] == RegisterStep(run, token)
    requires forall n | k < n < m :: steps[n] != ForgetStep(run)
    requires steps[m] == FeedEvent(OrderMade(run)) && ReplayComplete in states[m].heard
    ensures run in states[m].registry.runs && states[m].registry.runs[run] in states[j].registry.triggered
    ensures run !in states[k].registry.runs ==> token in states[j].registry.triggered
  {
    RegisteredStays(states, steps, k, m, run, token);
    assert states[m + 1] == Apply(states[m], steps[m]);
    RunKeeps(states, steps, m + 1, j);
  }

  /** What the open feed has told so far is what came after it was opened. */
  lemma {:induction false} HeardSince(states: seq<Pod>, steps: seq<Step>, k: nat, j: nat, event: Event)
    requires IsRun(states, steps) && k < j < |states| && steps[k] == FeedEvent(event)
    requires forall n | k < n < j :: !steps[n].NewFeed?
    ensures event in states[j].heard
  {
    assert states[j] == Apply(states[j - 1], steps[j - 1]);
    if k + 1 < j {
      HeardSince(states, steps, k, j - 1, event);
    }
  }

  /**
   In every state each registered run with a known order has its token triggered, which is never
   undone, and the known orders are what the open feed says of them.
   */
  lemma OrdersReachTheirRuns(states: seq<Pod>, steps: seq<Step>, i: nat, j: nat, run: RunId)
    requires IsRun(states, steps) && i <= j < |states|
    requires run in states[i].registry.runs && run in states[i].registry.known
    ensures states[i].registry.runs[run] in states[j].registry.triggered
    ensures states[i].registry.known == KnownAfter(states[i].heard, states[i].base)
  {
    RunKeeps(states, steps, i, i);
    RunKeeps(states, steps, i, j);
  }
}
