/**
 The lifecycle hook of the instances of a run: the observer that reports an instance
 races with the settling that changes the phase and sweeps the instances.
 */
module Hooks {
  import opened Wrappers
  import opened Sequences

  type InstanceId = nat

  datatype Phase = Live | ExecutorReturned | Aborted | Gone

  datatype Info = Info(node: string, hooked: bool)

  datatype Agent = Agent(node: string, tag: string)

  datatype InstanceEnded = InstanceEnded(instance: InstanceId, node: string, agents: seq<Agent>)

  function AgentsOf(agents: seq<Agent>, node: string): seq<Agent> {
    if agents == [] then []
    else (if agents[0].node == node then [agents[0]] else []) + AgentsOf(agents[1..], node)
  }

  predicate MayClaim(instances: map<InstanceId, Info>, id: InstanceId) {
    id in instances && !instances[id].hooked
  }

  function Claimed(instances: map<InstanceId, Info>, id: InstanceId): map<InstanceId, Info> {
    if MayClaim(instances, id) then instances[id := instances[id].(hooked := true)] else instances
  }

  function WithoutId(ids: seq<InstanceId>, id: InstanceId): seq<InstanceId> {
    if ids == [] then [] else (if ids[0] == id then [] else [ids[0]]) + WithoutId(ids[1..], id)
  }

  /** The agents of a node keep their order and come as often as they did; the others are gone. */
  ghost predicate OfNode(own: seq<Agent>, agents: seq<Agent>, node: string) {
    && Subsequence(own, agents)
    && forall a :: multiset(own)[a] == if a.node == node then multiset(agents)[a] else 0
  }

  lemma {:induction false} AgentsOfNode(agents: seq<Agent>, node: string)
    ensures OfNode(AgentsOf(agents, node), agents, node)
  {
    if agents != [] {
      AgentsOfNode(agents[1..], node);
      FirstOfNode(agents[0], AgentsOf(agents[1..], node), agents[1..], node);
      assert agents == [agents[0]] + agents[1..];
      hide OfNode;
      assert AgentsOf(agents, node) ==
             if agents[0].node == node then [agents[0]] + AgentsOf(agents[1..], node) else AgentsOf(agents[1..], node);
    }
  }

  lemma FirstOfNode(first: Agent, own: seq<Agent>, agents: seq<Agent>, node: string)
    requires OfNode(own, agents, node)
    ensures OfNode(if first.node == node then [first] + own else own, [first] + agents, node)
  {
    OneInFront(first, own, agents);
    hide Subsequence;
    var more := if first.node == node then [first] + own else own;
    forall a: Agent ensures multiset(more)[a] == if a.node == node then multiset([first] + agents)[a] else 0 {
      assert multiset([first] + agents)[a] == multiset{first}[a] + multiset(agents)[a];
    }
  }

  /** The ids but one keep their order and come as often as they did; that one is gone. */
  ghost predicate AllBut(rest: seq<InstanceId>, ids: seq<InstanceId>, id: InstanceId) {
    && Subsequence(rest, ids)
    && forall x :: multiset(rest)[x] == if x == id then 0 else multiset(ids)[x]
  }

  lemma {:induction false} WithoutIdIsAllBut(ids: seq<InstanceId>, id: InstanceId)
    ensures AllBut(WithoutId(ids, id), ids, id)
  {
    if ids != [] {
      WithoutIdIsAllBut(ids[1..], id);
      var rest := WithoutId(ids[1..], id);
      OneInFront(ids[0], rest, ids[1..]);
      hide Subsequence;
      assert ids == [ids[0]] + ids[1..];
      assert WithoutId(ids, id) == if ids[0] == id then rest else [ids[0]] + rest;
    }
  }

  method OwnAgents(agents: seq<Agent>, node: string) returns (own: seq<Agent>)
    ensures own == AgentsOf(agents, node)
    ensures OfNode(own, agents, node)
  {
    hide OfNode;
    AgentsOfNode(agents, node);
    own := [];
    for i := 0 to |agents|
      invariant own + AgentsOf(agents[i..], node) == AgentsOf(agents, node)
    {
      assert agents[i..][0] == agents[i] && agents[i..][1..] == agents[i + 1..];
      if agents[i].node == node {
        own := own + [agents[i]];
      }
    }
  }

  method Retain(ids: seq<InstanceId>, id: InstanceId) returns (rest: seq<InstanceId>)
    ensures rest == WithoutId(ids, id)
    ensures AllBut(rest, ids, id)
  {
    hide AllBut;
    WithoutIdIsAllBut(ids, id);
    rest := [];
    for i := 0 to |ids|
      invariant rest + WithoutId(ids[i..], id) == WithoutId(ids, id)
    {
      assert ids[i..][0] == ids[i] && ids[i..][1..] == ids[i + 1..];
      if ids[i] != id {
        rest := rest + [ids[i]];
      }
    }
  }

  /** The record of a run behind its lock; each method is one section. */
  class RunRecord {
    var phase: Phase
    var book: Option<seq<Agent>>
    var lastAgents: seq<Agent>
    var runningHooks: seq<InstanceId>
    var instances: map<InstanceId, Info>

    constructor ()
      ensures phase == Live && book.None? && lastAgents == [] && runningHooks == [] && instances == map[]
    {
      phase, book, lastAgents, runningHooks, instances := Live, None, [], [], map[];
    }

    /** The agents a hook is told of: those of the book, or those it held when it was taken. */
    function KnownAgents(): seq<Agent>
      reads this
    {
      if book.Some? then book.value else lastAgents
    }

    method InstanceCreated(id: InstanceId, node: string)
      modifies this`instances
      ensures instances == old(instances)[id := Info(node, false)]
    {
      instances := instances[id := Info(node, false)];
    }

    /** Taking the book away changes nothing for the hooks that are claimed later. */
    method TakeBook() returns (taken: Option<seq<Agent>>)
      modifies this`book, this`lastAgents
      ensures taken == old(book) && book.None? && KnownAgents() == old(KnownAgents())
    {
      taken := book;
      if book.Some? {
        lastAgents := book.value;
      }
      book := None;
    }

    method UnhookedInstances() returns (ids: set<InstanceId>)
      ensures forall id :: id in ids <==> MayClaim(instances, id)
    {
      ids := {};
      var left := instances.Keys;
      while left != {}
        invariant left <= instances.Keys
        invariant forall id :: id in ids <==> MayClaim(instances, id) && id !in left
        decreases left
      {
        var id :| id in left;
        if !instances[id].hooked {
          ids := ids + {id};
        }
        left := left - {id};
      }
    }

    /** A hook is given out at most once, with the agents of its node. */
    method ClaimHook(id: InstanceId) returns (ended: Option<InstanceEnded>)
      modifies this`instances, this`runningHooks
      ensures ended.Some? <==> MayClaim(old(instances), id)
      ensures instances == Claimed(old(instances), id) && !MayClaim(instances, id)
      ensures runningHooks == old(runningHooks) + (if ended.Some? then [id] else [])
      ensures ended.Some? ==> OfNode(ended.value.agents, KnownAgents(), old(instances)[id].node)
      ensures ended.Some? ==> ended.value == InstanceEnded(id, old(instances)[id].node,
                                                           AgentsOf(KnownAgents(), old(instances)[id].node))
    {
      if id !in instances || instances[id].hooked {
        return None;
      }
      var agents := KnownAgents();
      instances := instances[id := instances[id].(hooked := true)];
      var node := instances[id].node;
      var own := OwnAgents(agents, node);
      runningHooks := runningHooks + [id];
      ended := Some(InstanceEnded(id, node, own));
    }

    method HookReturned(id: InstanceId)
      modifies this`runningHooks
      ensures AllBut(runningHooks, old(runningHooks), id)
    {
      runningHooks := Retain(runningHooks, id);
    }
  }

  // ===== the observer against the sweeps =====

  /** How far the observer is with an instance it reports. */
  datatype Report = Recorded | ToCall | Reported

  /** How far a sweep is; `call_all` claims what it read one after the other. */
  datatype Sweep = ToRead | Claiming(left: seq<InstanceId>) | Swept

  /** The claims that gave out a hook, in their order. */
  datatype Run = Run(
    phase: Phase,
    instances: map<InstanceId, Info>,
    reports: map<InstanceId, Report>,
    sweeps: map<nat, Sweep>,
    claims: seq<InstanceId>)

  datatype Step =
    | Create(id: InstanceId, node: string)
    | ReadPhase(id: InstanceId)
    | CallHook(id: InstanceId)
    | EventHandled(id: InstanceId)
    | SetPhase(sweep: nat, phase: Phase)
    | ReadUnhooked(sweep: nat, order: seq<InstanceId>)
    | ClaimNext(sweep: nat)

  const Fresh := Run(Live, map[], map[], map[], [])

  predicate Enabled(r: Run, step: Step) {
    match step
    // The executor reports an instance once.
    case Create(id, _) => id !in r.reports
    case ReadPhase(id) => id in r.reports && r.reports[id].Recorded?
    case CallHook(id) => id in r.reports && r.reports[id].ToCall?
    case EventHandled(_) => true
    case SetPhase(sweep, phase) => sweep !in r.sweeps && !phase.Live?
    case ReadUnhooked(sweep, order) =>
      && sweep in r.sweeps && r.sweeps[sweep].ToRead?
      && (forall id | id in order :: MayClaim(r.instances, id))
      && (forall id | id in r.instances && MayClaim(r.instances, id) :: id in order)
    case ClaimNext(sweep) => sweep in r.sweeps && r.sweeps[sweep].Claiming?
  }

  function CallOnce(r: Run, id: InstanceId): Run {
    if MayClaim(r.instances, id) then r.(instances := Claimed(r.instances, id), claims := r.claims + [id]) else r
  }

  function Apply(r: Run, step: Step): Run
    requires Enabled(r, step)
  {
    match step
    case Create(id, node) => r.(instances := r.instances[id := Info(node, false)], reports := r.reports[id := Recorded])
    case ReadPhase(id) => r.(reports := r.reports[id := if r.phase.Live? then Reported else ToCall])
    case CallHook(id) => CallOnce(r, id).(reports := r.reports[id := Reported])
    case EventHandled(id) => CallOnce(r, id)
    case SetPhase(sweep, phase) => r.(phase := phase, sweeps := r.sweeps[sweep := ToRead])
    case ReadUnhooked(sweep, order) => r.(sweeps := r.sweeps[sweep := Claiming(order)])
    case ClaimNext(sweep) =>
      var left := r.sweeps[sweep].left;
      if left == [] then r.(sweeps := r.sweeps[sweep := Swept])
      else CallOnce(r, left[0]).(sweeps := r.sweeps[sweep := Claiming(left[1..])])
  }

  ghost predicate IsRun(states: seq<Run>, steps: seq<Step>) {
    && |states| == |steps| + 1 && states[0] == Fresh
    && forall i | 0 <= i < |steps| :: Enabled(states[i], steps[i]) && states[i + 1] == Apply(states[i], steps[i])
  }

  // ===== what every step keeps =====

  /** An instance was claimed exactly when it is marked as hooked, and then once. */
  ghost predicate ClaimedOnce(r: Run) {
    && (forall id :: id in r.instances <==> id in r.reports)
    && (forall id :: id in r.claims <==> id in r.instances && r.instances[id].hooked)
    && (forall i, j | 0 <= i < j < |r.claims| :: r.claims[i] != r.claims[j])
  }

  /** A sweep that has still to come to this instance. */
  ghost predicate WillSweep(sweep: Sweep, id: InstanceId) {
    sweep.ToRead? || (sweep.Claiming? && id in sweep.left)
  }

  /** Whom the observer let pass without a hook is caught by every sweep. */
  ghost predicate Caught(r: Run) {
    && (r.phase.Live? ==> r.sweeps == map[])
    && (forall id, s | id in r.reports && r.reports[id].Reported? && MayClaim(r.instances, id) && s in r.sweeps ::
          WillSweep(r.sweeps[s], id))
  }

  lemma OnceStep(r: Run, step: Step)
    requires ClaimedOnce(r) && Enabled(r, step)
    ensures ClaimedOnce(Apply(r, step))
  {}

  lemma CaughtStep(r: Run, step: Step)
    requires ClaimedOnce(r) && Caught(r) && Enabled(r, step)
    ensures Caught(Apply(r, step))
  {
    var r' := Apply(r, step);
    forall id, s | id in r'.reports && r'.reports[id].Reported? && MayClaim(r'.instances, id) && s in r'.sweeps
      ensures WillSweep(r'.sweeps[s], id)
    {
      if step.ClaimNext? && s == step.sweep && r.sweeps[s].left != [] {
        assert id in r.sweeps[s].left && id != r.sweeps[s].left[0];
      }
    }
  }

  lemma {:induction false} RunKeeps(states: seq<Run>, steps: seq<Step>, i: nat)
    requires IsRun(states, steps) && i < |states|
    ensures ClaimedOnce(states[i]) && Caught(states[i])
  {
    hide Apply, Enabled;
    if i > 0 {
      RunKeeps(states, steps, i - 1);
      hide ClaimedOnce, Caught;
      OnceStep(states[i - 1], steps[i - 1]);
      CaughtStep(states[i - 1], steps[i - 1]);
    }
  }

  // ===== the theorems =====

  /** At no time was the hook of an instance given out twice. */
  lemma NeverTwice(states: seq<Run>, steps: seq<Step>, i: nat, id: InstanceId)
    requires IsRun(states, steps) && i < |states|
    ensures multiset(states[i].claims)[id] <= 1
  {
    RunKeeps(states, steps, i);
    CountOnce(states[i].claims, id);
  }

  lemma {:induction false} CountOnce(ids: seq<InstanceId>, id: InstanceId)
    requires forall i, j | 0 <= i < j < |ids| :: ids[i] != ids[j]
    ensures multiset(ids)[id] == if id in ids then 1 else 0
  {
    if ids != [] {
      var last := |ids| - 1;
      assert ids == ids[..last] + [ids[last]];
      CountOnce(ids[..last], id);
    }
  }

  /**
   Whatever the interleaving: once the report of an instance has run and a sweep has run, its
   hook was given out exactly once.
   */
  lemma ExactlyOnceAfterBoth(states: seq<Run>, steps: seq<Step>, i: nat, id: InstanceId, sweep: nat)
    requires IsRun(states, steps) && i < |states|
    requires id in states[i].reports && states[i].reports[id].Reported?
    requires sweep in states[i].sweeps && states[i].sweeps[sweep].Swept?
    ensures multiset(states[i].claims)[id] == 1
  {
    RunKeeps(states, steps, i);
    CountOnce(states[i].claims, id);
  }
}
