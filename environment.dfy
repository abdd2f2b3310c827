/**
 * The service-deployment environment: a discrete-event simulation of compute
 * nodes that host agents, fail and recover.
 *
 * The transition is first given as a function on values (`Transition`), about
 * which the invariants and the per-event effects are proved; the class
 * `ServiceDeploymentEnv` then keeps the state in arrays that `Step` and `Reset`
 * update in place, and its contracts tie the new state to that function.
 * The random draws of the original (which node departs, fails or recovers, and
 * which event comes next) are parameters supplied by the caller.
 */
module Environment {

  datatype Option<T> = None | Some(value: T)

  /** The five event kinds, in the order of their one-hot position. */
  datatype Event = AgentArrival | AgentDeparture | NodeFailure | NodeRecovery | NoEvent

  const NumEventTypes: nat := 5
  const MaxSteps: nat := 100
  const DefaultEventProbabilities: seq<real> := [0.3, 0.2, 0.1, 0.1, 0.3]

  /** Position of an event kind in the list of event kinds. */
  function EventIndex(e: Event): (i: nat)
    ensures i < NumEventTypes
  {
    match e
    case AgentArrival => 0
    case AgentDeparture => 1
    case NodeFailure => 2
    case NodeRecovery => 3
    case NoEvent => 4
  }

  /** The event kind at a position of the list of event kinds. */
  function EventOf(i: nat): (e: Event)
    requires i < NumEventTypes
    ensures EventIndex(e) == i
  {
    if i == 0 then AgentArrival
    else if i == 1 then AgentDeparture
    else if i == 2 then NodeFailure
    else if i == 3 then NodeRecovery
    else NoEvent
  }

  lemma EventOfIndex(e: Event)
    ensures EventOf(EventIndex(e)) == e
  {
  }

  // ---------------------------------------------------------------------------
  // Sums of occupancies

  function Sum(s: seq<int>): int
  {
    if s == [] then 0 else s[0] + Sum(s[1..])
  }

  lemma {:induction false} SumUpdate(s: seq<int>, i: nat, v: int)
    requires i < |s|
    ensures Sum(s[i := v]) == Sum(s) - s[i] + v
  {
    if i == 0 {
      assert s[i := v][1..] == s[1..];
    } else {
      assert s[i := v][1..] == s[1..][i - 1 := v];
      SumUpdate(s[1..], i - 1, v);
    }
  }

  lemma {:induction false} SumNonNegative(s: seq<int>)
    requires forall k :: 0 <= k < |s| ==> s[k] >= 0
    ensures Sum(s) >= 0
  {
    if s != [] {
      SumNonNegative(s[1..]);
    }
  }

  lemma {:induction false} SumAtLeastElement(s: seq<int>, i: nat)
    requires forall k :: 0 <= k < |s| ==> s[k] >= 0
    requires i < |s|
    ensures s[i] <= Sum(s)
  {
    if i == 0 {
      SumNonNegative(s[1..]);
    } else {
      SumAtLeastElement(s[1..], i - 1);
    }
  }

  lemma {:induction false} SumOfZeros(s: seq<int>)
    requires forall k :: 0 <= k < |s| ==> s[k] == 0
    ensures Sum(s) == 0
  {
    if s != [] {
      SumOfZeros(s[1..]);
    }
  }

  // ---------------------------------------------------------------------------
  // The node state as a value

  /** Per-node status (1 active, 0 failed), per-node occupancy and the agent count. */
  datatype Nodes = Nodes(status: seq<int>, occupancy: seq<int>, agents: int)

  /** What one step of the environment yields: the new node state and the reward. */
  datatype Outcome = Outcome(next: Nodes, reward: real)

  predicate WellShaped(s: Nodes, capacity: seq<int>)
  {
    |s.status| == |capacity| && |s.occupancy| == |capacity|
  }

  /**
   * The environment's invariant: the agent count is the total occupancy, each
   * occupancy lies between 0 and the node's capacity, status flags are 0 or 1,
   * and a failed node hosts nothing.
   */
  predicate NodesInvariant(s: Nodes, capacity: seq<int>)
  {
    && WellShaped(s, capacity)
    && s.agents == Sum(s.occupancy)
    && (forall i :: 0 <= i < |capacity| ==> 0 <= s.occupancy[i] <= capacity[i])
    && (forall i :: 0 <= i < |capacity| ==> s.status[i] == 0 || s.status[i] == 1)
    && (forall i :: 0 <= i < |capacity| ==> s.status[i] == 0 ==> s.occupancy[i] == 0)
  }

  /** All nodes active and empty, no agents. */
  function InitialNodes(n: nat): Nodes
  {
    Nodes(seq(n, _ => 1), seq(n, _ => 0), 0)
  }

  predicate HasOccupied(occupancy: seq<int>)
  {
    exists i :: 0 <= i < |occupancy| && occupancy[i] > 0
  }

  predicate HasActive(status: seq<int>)
  {
    exists i :: 0 <= i < |status| && status[i] == 1
  }

  predicate HasFailed(status: seq<int>)
  {
    exists i :: 0 <= i < |status| && status[i] == 0
  }

  /**
   * The node the caller supplies in place of the original's random choice must
   * be one the original could have drawn: an occupied node for a departure, an
   * active node for a failure, a failed node for a recovery (whenever the event
   * has any node to draw from).
   */
  predicate ChoiceEligible(e: Event, s: Nodes, choice: nat)
  {
    match e
    case AgentDeparture =>
      s.agents > 0 && HasOccupied(s.occupancy) ==> choice < |s.occupancy| && s.occupancy[choice] > 0
    case NodeFailure =>
      HasActive(s.status) ==> choice < |s.status| && choice < |s.occupancy| && s.status[choice] == 1
    case NodeRecovery =>
      HasFailed(s.status) ==> choice < |s.status| && s.status[choice] == 0
    case _ => true
  }

  /** `max(0, x)` */
  function ClampAtZero(x: int): int
  {
    if x < 0 then 0 else x
  }

  /**
   * The effect of the current event and the action on the nodes, and the
   * reward. The action is looked at only for an arrival; `choice` stands for
   * the node drawn at random by the other events.
   */
  function Transition(e: Event, s: Nodes, capacity: seq<int>, action: nat, choice: nat): (o: Outcome)
    requires WellShaped(s, capacity)
    requires ChoiceEligible(e, s, choice)
    ensures WellShaped(o.next, capacity)
  {
    match e
    case AgentArrival =>
      if action < |capacity| then
        if s.status[action] == 1 && s.occupancy[action] < capacity[action] then
          Outcome(Nodes(s.status, s.occupancy[action := s.occupancy[action] + 1], s.agents + 1), 1.0)
        else
          Outcome(s, -1.0)
      else
        Outcome(s, -0.5)
    case AgentDeparture =>
      if s.agents > 0 && HasOccupied(s.occupancy) then
        Outcome(Nodes(s.status, s.occupancy[choice := s.occupancy[choice] - 1], s.agents - 1), 0.0)
      else
        Outcome(s, 0.0)
    case NodeFailure =>
      if HasActive(s.status) then
        var lost := s.occupancy[choice];
        Outcome(Nodes(s.status[choice := 0], s.occupancy[choice := 0], ClampAtZero(s.agents - lost)),
                -2.0 * lost as real)
      else
        Outcome(s, 0.0)
    case NodeRecovery =>
      if HasFailed(s.status) then
        Outcome(Nodes(s.status[choice := 1], s.occupancy, s.agents), 0.5)
      else
        Outcome(s, 0.0)
    case NoEvent =>
      Outcome(s, 0.0)
  }

  // ---------------------------------------------------------------------------
  // Properties of the transition

  lemma InitialNodesSatisfyInvariant(n: nat, capacity: seq<int>)
    requires |capacity| == n
    requires forall i :: 0 <= i < n ==> capacity[i] > 0
    ensures NodesInvariant(InitialNodes(n), capacity)
  {
    SumOfZeros(InitialNodes(n).occupancy);
  }

  /** Under the invariant, a positive agent count means some node is occupied. */
  lemma DepartureGuardRedundant(s: Nodes, capacity: seq<int>)
    requires NodesInvariant(s, capacity)
    ensures s.agents > 0 <==> HasOccupied(s.occupancy)
  {
    if !HasOccupied(s.occupancy) {
      SumOfZeros(s.occupancy);
    } else {
      var i :| 0 <= i < |s.occupancy| && s.occupancy[i] > 0;
      SumAtLeastElement(s.occupancy, i);
    }
  }

  /** Every step keeps the invariant. */
  lemma TransitionPreservesInvariant(e: Event, s: Nodes, capacity: seq<int>, action: nat, choice: nat)
    requires NodesInvariant(s, capacity)
    requires ChoiceEligible(e, s, choice)
    ensures NodesInvariant(Transition(e, s, capacity, action, choice).next, capacity)
  {
    match e
    case AgentArrival =>
      if action < |capacity| && s.status[action] == 1 && s.occupancy[action] < capacity[action] {
        SumUpdate(s.occupancy, action, s.occupancy[action] + 1);
      }
    case AgentDeparture =>
      if s.agents > 0 && HasOccupied(s.occupancy) {
        SumUpdate(s.occupancy, choice, s.occupancy[choice] - 1);
      }
    case NodeFailure =>
      if HasActive(s.status) {
        SumUpdate(s.occupancy, choice, 0);
        SumAtLeastElement(s.occupancy, choice);
      }
    case NodeRecovery =>
    case NoEvent =>
  }

  /**
   * Arrival with a node index: the deployment succeeds exactly when the node is
   * active and below capacity; then that node gains one agent, the count grows
   * by one, nothing else changes and the reward is 1. Otherwise the state is
   * unchanged and the reward is -1.
   */
  lemma ArrivalOnNode(s: Nodes, capacity: seq<int>, action: nat, choice: nat)
    requires WellShaped(s, capacity)
    requires action < |capacity|
    ensures var o := Transition(AgentArrival, s, capacity, action, choice);
      && (o.reward == 1.0 <==> s.status[action] == 1 && s.occupancy[action] < capacity[action])
      && (o.reward == 1.0 ==>
            && o.next.status == s.status
            && o.next.occupancy[action] == s.occupancy[action] + 1
            && (forall j :: 0 <= j < |capacity| && j != action ==> o.next.occupancy[j] == s.occupancy[j])
            && o.next.agents == s.agents + 1)
      && (o.reward != 1.0 ==> o.next == s && o.reward == -1.0)
  {
  }

  /** Arrival with the reject action (any index at or past the node count). */
  lemma ArrivalReject(s: Nodes, capacity: seq<int>, action: nat, choice: nat)
    requires WellShaped(s, capacity)
    requires action >= |capacity|
    ensures Transition(AgentArrival, s, capacity, action, choice) == Outcome(s, -0.5)
  {
  }

  /** For every event but an arrival the action is never consulted. */
  lemma ActionIgnoredUnlessArrival(e: Event, s: Nodes, capacity: seq<int>, a1: nat, a2: nat, choice: nat)
    requires WellShaped(s, capacity)
    requires ChoiceEligible(e, s, choice)
    requires e != AgentArrival
    ensures Transition(e, s, capacity, a1, choice) == Transition(e, s, capacity, a2, choice)
  {
  }

  /**
   * Departure: with agents present, the chosen occupied node loses one and the
   * count drops by one; with none it is a no-op. The reward is 0 either way.
   */
  lemma DepartureEffect(s: Nodes, capacity: seq<int>, action: nat, choice: nat)
    requires NodesInvariant(s, capacity)
    requires ChoiceEligible(AgentDeparture, s, choice)
    ensures var o := Transition(AgentDeparture, s, capacity, action, choice);
      && o.reward == 0.0
      && (s.agents > 0 ==>
            && choice < |capacity| && s.occupancy[choice] > 0
            && o.next == Nodes(s.status, s.occupancy[choice := s.occupancy[choice] - 1], s.agents - 1))
      && (s.agents <= 0 ==> o.next == s)
  {
    DepartureGuardRedundant(s, capacity);
  }

  /**
   * Failure: the chosen active node goes down and loses its agents, the count
   * drops by exactly that many (the clamp at zero never fires under the
   * invariant) and the reward is -2 per lost agent; with no active node it is
   * a no-op with reward 0.
   */
  lemma FailureEffect(s: Nodes, capacity: seq<int>, action: nat, choice: nat)
    requires NodesInvariant(s, capacity)
    requires ChoiceEligible(NodeFailure, s, choice)
    ensures var o := Transition(NodeFailure, s, capacity, action, choice);
      && (HasActive(s.status) ==>
            && choice < |capacity|
            && o.next.status == s.status[choice := 0]
            && o.next.occupancy == s.occupancy[choice := 0]
            && o.next.agents == s.agents - s.occupancy[choice]
            && o.reward == -2.0 * s.occupancy[choice] as real)
      && (!HasActive(s.status) ==> o == Outcome(s, 0.0))
  {
    if HasActive(s.status) {
      SumAtLeastElement(s.occupancy, choice);
    }
  }

  /**
   * Recovery: the chosen failed node comes back with its occupancy untouched
   * (which is 0) and the reward is 0.5; with no failed node it is a no-op with
   * reward 0. The empty event changes nothing and rewards 0.
   */
  lemma RecoveryAndNoEventEffect(s: Nodes, capacity: seq<int>, action: nat, choice: nat)
    requires NodesInvariant(s, capacity)
    requires ChoiceEligible(NodeRecovery, s, choice)
    ensures var o := Transition(NodeRecovery, s, capacity, action, choice);
      && (HasFailed(s.status) ==>
            && choice < |capacity|
            && o.next.status == s.status[choice := 1]
            && o.next.occupancy == s.occupancy
            && o.next.occupancy[choice] == 0
            && o.next.agents == s.agents
            && o.reward == 0.5)
      && (!HasFailed(s.status) ==> o == Outcome(s, 0.0))
    ensures Transition(NoEvent, s, capacity, action, choice) == Outcome(s, 0.0)
  {
  }

  /** A single node of capacity 1, empty and active: an arrival deploys to it. */
  lemma ScenarioArrivalOnEmptyNode()
    ensures Transition(AgentArrival, Nodes([1], [0], 0), [1], 0, 0) == Outcome(Nodes([1], [1], 1), 1.0)
  {
  }

  /** The same node already full: the arrival fails and nothing changes. */
  lemma ScenarioArrivalOnFullNode()
    ensures Transition(AgentArrival, Nodes([1], [1], 1), [1], 0, 0) == Outcome(Nodes([1], [1], 1), -1.0)
  {
  }

  /** The sole active node, holding 3 agents, fails. */
  lemma ScenarioFailureOfLoadedNode()
    ensures Transition(NodeFailure, Nodes([1], [3], 3), [5], 0, 0) == Outcome(Nodes([0], [0], 0), -6.0)
  {
    assert HasActive([1]) by { assert [1][0] == 1; }
  }

  // ---------------------------------------------------------------------------
  // Observations

  function ObservationDim(numNodes: nat): nat
  {
    NumEventTypes + numNodes + numNodes + 1
  }

  /**
   * The observation vector: the one-hot of the current event, the status flags,
   * each node's occupancy divided by its capacity, and the agent count divided
   * by the maximum agent count.
   */
  function Observation(e: Event, s: Nodes, capacity: seq<int>, maxAgents: int): (obs: seq<real>)
    requires WellShaped(s, capacity)
    requires forall i :: 0 <= i < |capacity| ==> capacity[i] != 0
    requires maxAgents != 0
    ensures |obs| == ObservationDim(|capacity|) == NumEventTypes + 2 * |capacity| + 1
    ensures forall k :: 0 <= k < NumEventTypes ==> obs[k] == if k == EventIndex(e) then 1.0 else 0.0
    ensures forall i :: 0 <= i < |capacity| ==>
      && obs[NumEventTypes + i] == s.status[i] as real
      && obs[NumEventTypes + |capacity| + i] == s.occupancy[i] as real / capacity[i] as real
    ensures obs[|obs| - 1] == s.agents as real / maxAgents as real
  {
    var n := |capacity|;
    var oneHot := seq(NumEventTypes, k requires 0 <= k < NumEventTypes => if k == EventIndex(e) then 1.0 else 0.0);
    var status := seq(n, i requires 0 <= i < n => s.status[i] as real);
    var load := seq(n, i requires 0 <= i < n => s.occupancy[i] as real / capacity[i] as real);
    oneHot + status + load + [s.agents as real / maxAgents as real]
  }

  /**
   * Under the invariant every entry but the last lies in [0, 1]: the one-hot,
   * the flags and the occupancy ratios. The agent ratio is only non-negative.
   */
  lemma ObservationBounds(e: Event, s: Nodes, capacity: seq<int>, maxAgents: int)
    requires NodesInvariant(s, capacity)
    requires forall i :: 0 <= i < |capacity| ==> capacity[i] > 0
    requires maxAgents > 0
    ensures var obs := Observation(e, s, capacity, maxAgents);
      && (forall k :: 0 <= k < |obs| - 1 ==> 0.0 <= obs[k] <= 1.0)
      && 0.0 <= obs[|obs| - 1]
  {
    var obs := Observation(e, s, capacity, maxAgents);
    var n := |capacity|;
    assert 0.0 <= obs[|obs| - 1] by {
      SumNonNegative(s.occupancy);
      RatioNonNegative(s.agents, maxAgents);
    }
    forall k | 0 <= k < |obs| - 1
      ensures 0.0 <= obs[k] <= 1.0
    {
      ObservationEntryBounds(e, s, capacity, maxAgents, k);
    }
  }

  lemma ObservationEntryBounds(e: Event, s: Nodes, capacity: seq<int>, maxAgents: int, k: nat)
    requires NodesInvariant(s, capacity)
    requires forall i :: 0 <= i < |capacity| ==> capacity[i] > 0
    requires maxAgents > 0
    requires k < ObservationDim(|capacity|) - 1
    ensures 0.0 <= Observation(e, s, capacity, maxAgents)[k] <= 1.0
  {
    var obs := Observation(e, s, capacity, maxAgents);
    var n := |capacity|;
    if k < NumEventTypes {
    } else if k < NumEventTypes + n {
      assert obs[k] == s.status[k - NumEventTypes] as real;
    } else {
      var i := k - NumEventTypes - n;
      assert obs[k] == s.occupancy[i] as real / capacity[i] as real;
      RatioInUnit(s.occupancy[i], capacity[i]);
    }
  }

  lemma RatioInUnit(a: int, b: int)
    requires 0 <= a <= b && b > 0
    ensures 0.0 <= a as real / b as real <= 1.0
  {
    assert a as real / b as real * b as real == a as real;
  }

  lemma RatioNonNegative(a: int, b: int)
    requires 0 <= a && b > 0
    ensures 0.0 <= a as real / b as real
  {
  }

  /** The node state after a run of arrival events, deployed to the given nodes in turn. */
  function Arrivals(s: Nodes, capacity: seq<int>, actions: seq<nat>): (r: Nodes)
    requires WellShaped(s, capacity)
    ensures WellShaped(r, capacity)
    decreases |actions|
  {
    if actions == [] then s
    else Arrivals(Transition(AgentArrival, s, capacity, actions[0], 0).next, capacity, actions[1..])
  }

  /** Running the arrivals of `a` and then those of `b` is running those of `a + b`. */
  lemma {:induction false} ArrivalsConcat(s: Nodes, capacity: seq<int>, a: seq<nat>, b: seq<nat>)
    requires WellShaped(s, capacity)
    ensures Arrivals(s, capacity, a + b) == Arrivals(Arrivals(s, capacity, a), capacity, b)
    decreases |a|
  {
    if a != [] {
      assert (a + b)[1..] == a[1..] + b;
      ArrivalsConcat(Transition(AgentArrival, s, capacity, a[0], 0).next, capacity, a[1..], b);
    } else {
      assert a + b == b;
    }
  }

  /** k arrivals deployed to an active node with room for k more services all succeed. */
  lemma {:induction false} FillNode(s: Nodes, capacity: seq<int>, i: nat, k: nat)
    requires WellShaped(s, capacity)
    requires i < |capacity| && s.status[i] == 1 && s.occupancy[i] + k <= capacity[i]
    ensures Arrivals(s, capacity, seq(k, _ => i))
         == Nodes(s.status, s.occupancy[i := s.occupancy[i] + k], s.agents + k)
    decreases k
  {
    if k > 0 {
      var next := Transition(AgentArrival, s, capacity, i, 0).next;
      assert next == Nodes(s.status, s.occupancy[i := s.occupancy[i] + 1], s.agents + 1);
      assert seq(k, _ => i)[1..] == seq(k - 1, _ => i);
      FillNode(next, capacity, i, k - 1);
      assert next.occupancy[i := next.occupancy[i] + (k - 1)] == s.occupancy[i := s.occupancy[i] + k];
    }
  }

  /** c arrivals to each of three nodes in turn: node 0, then node 1, then node 2. */
  function FillThreeNodes(c: nat): seq<nat>
  {
    seq(c, _ => 0) + seq(c, _ => 1) + seq(c, _ => 2)
  }

  /** From the reset state of three nodes of capacity c, those arrivals fill every node. */
  lemma ThreeNodesFilled(c: nat)
    ensures Arrivals(InitialNodes(3), [c, c, c], FillThreeNodes(c)) == Nodes([1, 1, 1], [c, c, c], 3 * c)
  {
    var capacity := [c, c, c];
    var s0 := Nodes([1, 1, 1], [0, 0, 0], 0);
    assert InitialNodes(3) == s0;
    var s1 := Nodes([1, 1, 1], [c, 0, 0], c);
    var s2 := Nodes([1, 1, 1], [c, c, 0], c + c);
    var a0, a1, a2 := seq(c, _ => 0), seq(c, _ => 1), seq(c, _ => 2);
    assert Arrivals(s0, capacity, a0) == s1 by {
      FillNode(s0, capacity, 0, c);
      assert [0, 0, 0][0 := c] == [c, 0, 0];
    }
    assert Arrivals(s1, capacity, a1) == s2 by {
      FillNode(s1, capacity, 1, c);
      assert [c, 0, 0][1 := c] == [c, c, 0];
    }
    assert Arrivals(s2, capacity, a2) == Nodes([1, 1, 1], [c, c, c], 3 * c) by {
      FillNode(s2, capacity, 2, c);
      assert [c, c, 0][2 := c] == [c, c, c];
    }
    ArrivalsConcat(s0, capacity, a0, a1);
    ArrivalsConcat(s0, capacity, a0 + a1, a2);
  }

  /**
   * Three nodes of capacity c hold more services than `maxAgents` whenever
   * 3c > maxAgents, as with the defaults (capacity 5, at most 10 agents): then
   * the arrivals that fill every node from the reset state reach a state whose
   * agent ratio exceeds 1 (1.5 with the defaults). The ratio is not confined
   * to [0, 1].
   */
  lemma AgentRatioCanExceedOne(c: nat, maxAgents: int)
    requires 0 < maxAgents < 3 * c
    ensures var s := Arrivals(InitialNodes(3), [c, c, c], FillThreeNodes(c));
      && NodesInvariant(s, [c, c, c])
      && Observation(NoEvent, s, [c, c, c], maxAgents)[ObservationDim(3) - 1] == (3 * c) as real / maxAgents as real > 1.0
  {
    ThreeNodesFilled(c);
    var s := Nodes([1, 1, 1], [c, c, c], 3 * c);
    assert Sum(s.occupancy) == 3 * c by {
      assert [c, c, c][1..] == [c, c] && [c, c][1..] == [c] && [c][1..] == [];
    }
    RatioAboveOne(3 * c, maxAgents);
  }

  lemma RatioAboveOne(a: int, b: int)
    requires 0 < b < a
    ensures a as real / b as real > 1.0
  {
    assert a as real / b as real * b as real == a as real;
  }

  /** The observation after a reset: event `no_event`, all flags 1, all loads 0, no agents. */
  lemma InitialObservation(n: nat, capacity: seq<int>, maxAgents: int)
    requires |capacity| == n
    requires forall i :: 0 <= i < n ==> capacity[i] > 0
    requires maxAgents != 0
    ensures Observation(NoEvent, InitialNodes(n), capacity, maxAgents)
         == [0.0, 0.0, 0.0, 0.0, 1.0] + seq(n, _ => 1.0) + seq(n, _ => 0.0) + [0.0]
  {
    var obs := Observation(NoEvent, InitialNodes(n), capacity, maxAgents);
    var expected := [0.0, 0.0, 0.0, 0.0, 1.0] + seq(n, _ => 1.0) + seq(n, _ => 0.0) + [0.0];
    assert |obs| == |expected|;
    forall k | 0 <= k < |obs|
      ensures obs[k] == expected[k]
    {
      if k < NumEventTypes {
      } else if k < NumEventTypes + n {
        assert obs[k] == InitialNodes(n).status[k - NumEventTypes] as real;
      } else if k < NumEventTypes + 2 * n {
        assert obs[k] == InitialNodes(n).occupancy[k - NumEventTypes - n] as real / capacity[k - NumEventTypes - n] as real;
      }
    }
  }

  // ---------------------------------------------------------------------------
  // The environment object

  class ServiceDeploymentEnv {
    const numNodes: nat
    const numServices: int      // informational only: never read by the dynamics
    const maxAgents: int
    const defaultNodeCapacity: int
    const eventProbabilities: seq<real>
    const obsDim: nat
    const actionDim: nat        // deploy to node 0 .. numNodes-1, or reject (numNodes)

    var nodeStatus: array<int>
    var nodeOccupancy: array<int>
    var nodeCapacity: array<int>
    var numAgents: int
    var currentEvent: Event
    var steps: nat

    /** The node state held by the three arrays and the agent counter. */
    function State(): Nodes
      reads this, nodeStatus, nodeOccupancy
    {
      Nodes(nodeStatus[..], nodeOccupancy[..], numAgents)
    }

    ghost predicate Valid()
      reads this, nodeStatus, nodeOccupancy, nodeCapacity
    {
      && maxAgents != 0
      && defaultNodeCapacity > 0
      && nodeStatus != nodeOccupancy && nodeStatus != nodeCapacity && nodeOccupancy != nodeCapacity
      && nodeStatus.Length == numNodes && nodeOccupancy.Length == numNodes && nodeCapacity.Length == numNodes
      && (forall i :: 0 <= i < numNodes ==> nodeCapacity[i] == defaultNodeCapacity)
      && NodesInvariant(State(), nodeCapacity[..])
    }

    /** The canonical start of an episode. */
    ghost predicate InResetState()
      reads this, nodeStatus, nodeOccupancy, nodeCapacity
    {
      && State() == InitialNodes(numNodes)
      && nodeCapacity[..] == seq(numNodes, _ => defaultNodeCapacity)
      && currentEvent == NoEvent
      && steps == 0
    }

    /** Fresh arrays for an episode start: all nodes active, empty, at the default capacity. */
    static method NewNodeArrays(n: nat, capacity: int) returns (status: array<int>, occupancy: array<int>, caps: array<int>)
      ensures fresh(status) && fresh(occupancy) && fresh(caps)
      ensures status != occupancy && status != caps && occupancy != caps
      ensures status[..] == seq(n, _ => 1)
      ensures occupancy[..] == seq(n, _ => 0)
      ensures caps[..] == seq(n, _ => capacity)
    {
      status := new int[n](_ => 1);
      occupancy := new int[n](_ => 0);
      caps := new int[n](_ => capacity);
    }

    /**
     * Builds the environment in its reset state. A zero maximum agent count
     * would make the observation divide by zero, and capacities are positive
     * integers.
     */
    constructor(numNodes: nat := 3, numServices: int := 5, maxAgents: int := 10,
                capacity: int := 5, eventProbabilities: Option<seq<real>> := None)
      requires maxAgents != 0
      requires capacity > 0
      ensures Valid() && InResetState()
      ensures fresh(nodeStatus) && fresh(nodeOccupancy) && fresh(nodeCapacity)
      ensures this.numNodes == numNodes && this.numServices == numServices
      ensures this.maxAgents == maxAgents && this.defaultNodeCapacity == capacity
      ensures this.eventProbabilities ==
        if eventProbabilities.Some? && eventProbabilities.value != [] then eventProbabilities.value
        else DefaultEventProbabilities
      ensures obsDim == NumEventTypes + 2 * numNodes + 1 && actionDim == numNodes + 1
    {
      this.numNodes := numNodes;
      this.numServices := numServices;
      this.maxAgents := maxAgents;
      this.defaultNodeCapacity := capacity;
      this.eventProbabilities :=
        if eventProbabilities.Some? && eventProbabilities.value != [] then eventProbabilities.value
        else DefaultEventProbabilities;
      this.actionDim := numNodes + 1;
      this.obsDim := ObservationDim(numNodes);
      var status, occupancy, caps := NewNodeArrays(numNodes, capacity);
      nodeStatus, nodeOccupancy, nodeCapacity := status, occupancy, caps;
      numAgents := 0;
      currentEvent := NoEvent;
      steps := 0;
      new;
      InitialNodesSatisfyInvariant(numNodes, nodeCapacity[..]);
    }

    /** The observation of the current state. */
    function GetObservation(): seq<real>
      reads this, nodeStatus, nodeOccupancy, nodeCapacity
      requires Valid()
    {
      Observation(currentEvent, State(), nodeCapacity[..], maxAgents)
    }

    /** Starts a new episode: fresh arrays, every node active and empty, event `no_event`. */
    method Reset() returns (obs: seq<real>)
      requires Valid()
      modifies this
      ensures Valid() && InResetState()
      ensures fresh(nodeStatus) && fresh(nodeOccupancy) && fresh(nodeCapacity)
      ensures obs == GetObservation()
    {
      nodeStatus, nodeOccupancy, nodeCapacity := NewNodeArrays(numNodes, defaultNodeCapacity);
      numAgents := 0;
      currentEvent := NoEvent;
      steps := 0;
      InitialNodesSatisfyInvariant(numNodes, nodeCapacity[..]);
      obs := GetObservation();
    }

    /** Sets the next event from the index the caller draws. */
    method GenerateNextEvent(index: nat)
      requires index < NumEventTypes
      modifies this`currentEvent
      ensures currentEvent == EventOf(index)
    {
      currentEvent := EventOf(index);
    }

    /**
     * One step: applies the current event (with the action, for an arrival),
     * counts the step, sets the next event and reports termination at the
     * horizon. `choice` is the node the event draws; `nextEventIndex` the next
     * event's index.
     */
    method Step(action: nat, choice: nat, nextEventIndex: nat)
      returns (obs: seq<real>, reward: real, terminated: bool, truncated: bool)
      requires Valid()
      requires ChoiceEligible(currentEvent, State(), choice)
      requires nextEventIndex < NumEventTypes
      modifies this, nodeStatus, nodeOccupancy
      ensures Valid()
      ensures nodeStatus == old(nodeStatus) && nodeOccupancy == old(nodeOccupancy) && nodeCapacity == old(nodeCapacity)
      ensures Outcome(State(), reward) == Transition(old(currentEvent), old(State()), nodeCapacity[..], action, choice)
      ensures steps == old(steps) + 1
      ensures currentEvent == EventOf(nextEventIndex)
      ensures terminated == (steps >= MaxSteps) && !truncated
      ensures obs == GetObservation()
    {
      ghost var s := State();
      reward := ApplyEvent(action, choice);
      TransitionPreservesInvariant(currentEvent, s, nodeCapacity[..], action, choice);

      steps := steps + 1;
      GenerateNextEvent(nextEventIndex);

      terminated := steps >= MaxSteps;
      truncated := false;
      obs := GetObservation();
    }

    /** The event-dependent part of a step: the effect of the action and of the current event, and the reward. */
    method ApplyEvent(action: nat, choice: nat) returns (reward: real)
      requires Valid()
      requires ChoiceEligible(currentEvent, State(), choice)
      modifies this`numAgents, nodeStatus, nodeOccupancy
      ensures Outcome(State(), reward) == Transition(currentEvent, old(State()), nodeCapacity[..], action, choice)
    {
      reward := 0.0;
      match currentEvent {
      case AgentArrival =>
        if action < numNodes {
          var nodeIdx := action;
          if nodeStatus[nodeIdx] == 1 && nodeOccupancy[nodeIdx] < nodeCapacity[nodeIdx] {
            nodeOccupancy[nodeIdx] := nodeOccupancy[nodeIdx] + 1;
            numAgents := numAgents + 1;
            reward := 1.0;
          } else {
            reward := -1.0;
          }
        } else {
          reward := -0.5;
        }
      case AgentDeparture =>
        if numAgents > 0 {
          if HasOccupied(nodeOccupancy[..]) {
            var nodeIdx := choice;
            nodeOccupancy[nodeIdx] := nodeOccupancy[nodeIdx] - 1;
            numAgents := numAgents - 1;
            reward := 0.0;
          }
        }
      case NodeFailure =>
        if HasActive(nodeStatus[..]) {
          var failedNode := choice;
          nodeStatus[failedNode] := 0;
          var lostServices := nodeOccupancy[failedNode];
          nodeOccupancy[failedNode] := 0;
          numAgents := ClampAtZero(numAgents - lostServices);
          reward := -2.0 * lostServices as real;
        }
      case NodeRecovery =>
        if HasFailed(nodeStatus[..]) {
          var recoveredNode := choice;
          nodeStatus[recoveredNode] := 1;
          reward := 0.5;
        }
      case NoEvent =>
      }
    }
  }
}
