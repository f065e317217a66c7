/** The round scheduler (workflow.py): a graph of three nodes, the
    coordinator, the aggregator that runs the five specialists, and the
    waiting node that takes the user's decision, with END reachable only
    from waiting. */
module Workflow {
  import opened Types
  import opened Conversation
  import opened State
  import opened BaseAgent
  import opened Chat
  import CoordinatorAgent
  import MissionPlannerAgent
  import StructuresAgent
  import ManufacturingAgent

  // ---------------------------------------------------------------------
  // The graph

  datatype Node = CoordinatorStage | AggregatorStage | WaitingStage | End

  /** The answers of `should_continue`. */
  datatype Route = Continue | Wait

  /** The graph is entered at the coordinator. */
  const Entry: Node := CoordinatorStage

  /** `should_continue`: the coordinator's exit never leads to END. */
  function ShouldContinue(waitingForUserDecision: bool): (r: Route)
    ensures r == Wait <==> waitingForUserDecision
    ensures r == Continue <==> !waitingForUserDecision
  {
    if waitingForUserDecision then Wait else Continue
  }

  /** The edges of the compiled graph, out of every node but END. */
  function Next(n: Node, waitingForUserDecision: bool, projectComplete: bool): (r: Node)
    requires n != End
    ensures r == End <==> n == WaitingStage && projectComplete
    ensures n == AggregatorStage ==> r == CoordinatorStage
    ensures n == WaitingStage && !projectComplete ==> r == CoordinatorStage
    ensures n == CoordinatorStage ==> (r == WaitingStage <==> waitingForUserDecision)
    ensures n == CoordinatorStage ==> (r == AggregatorStage <==> !waitingForUserDecision)
  {
    match n
    case CoordinatorStage =>
      if ShouldContinue(waitingForUserDecision) == Wait then WaitingStage else AggregatorStage
    case AggregatorStage => CoordinatorStage
    case WaitingStage => if projectComplete then End else CoordinatorStage
  }

  // ---------------------------------------------------------------------
  // The coordinator node

  /** Where the coordinator node sends the run, and the round it leaves
      the state in. */
  datatype Routing = Routing(waits: bool, iteration: int)

  /** The routing of `coordinator_node`: it waits for the user once the
      round reaches the maximum or the project is complete, keeping the
      round; otherwise it moves on to the next round. */
  function RouteAfter(current: int, maxIterations: int, projectComplete: bool): (r: Routing)
    ensures r.waits <==> current >= maxIterations || projectComplete
    ensures r.waits ==> r.iteration == current
    ensures !r.waits ==> r.iteration == current + 1
  {
    if current >= maxIterations then Routing(true, current)
    else if projectComplete then Routing(true, current)
    else Routing(false, current + 1)
  }

  /** The round at which the run first reaches the waiting node, starting
      from the coordinator at `current`, when the coordinator never marks
      the project complete. */
  function FirstWait(current: int, maxIterations: int): int
    decreases if current < maxIterations then maxIterations - current else 0
  {
    var route := RouteAfter(current, maxIterations, false);
    if route.waits then current else FirstWait(route.iteration, maxIterations)
  }

  /** Without completion, the run first waits exactly at the maximum round,
      or at once when it is already past it. */
  lemma {:induction false} IterationAtFirstWait(current: int, maxIterations: int)
    ensures FirstWait(current, maxIterations) == if current <= maxIterations then maxIterations else current
    decreases if current < maxIterations then maxIterations - current else 0
  {
    if current < maxIterations {
      IterationAtFirstWait(current + 1, maxIterations);
    }
  }

  /** The routing half of `coordinator_node`, after the coordinator has
      decided. */
  method RouteRound(state: GlobalState, now: nat)
    modifies state`waitingForUserDecision, state`workflowStatus, state`currentAgentProcessing,
             state`currentIteration, state`workflowError, state`lastProgressUpdate
    ensures var route := RouteAfter(old(state.currentIteration), state.maxIterations, state.projectComplete);
      state.currentIteration == route.iteration &&
      state.waitingForUserDecision == (route.waits || old(state.waitingForUserDecision)) &&
      state.workflowStatus == (if route.waits then "waiting_for_user" else old(state.workflowStatus)) &&
      state.currentAgentProcessing == Some(if route.waits then "coordinator_waiting" else "coordinator_continuing")
    ensures state.workflowError == old(state.workflowError) && state.lastProgressUpdate == now
  {
    if state.currentIteration >= state.maxIterations {
      state.waitingForUserDecision := true;
      state.workflowStatus := "waiting_for_user";
      state.UpdateProgressFile(Some("waiting_for_user"), Some("coordinator_waiting"), None, None, now);
    } else if state.projectComplete {
      state.waitingForUserDecision := true;
      state.workflowStatus := "waiting_for_user";
      state.UpdateProgressFile(Some("waiting_for_user"), Some("coordinator_waiting"), None, None, now);
    } else {
      state.currentIteration := state.currentIteration + 1;
      state.UpdateProgressFile(None, Some("coordinator_continuing"), None, None, now);
    }
    state.lastProgressUpdate := now;
  }

  /** `coordinator_node`. `reply` is the model's decision, `None` when the
      call fails; then the failure propagates out of the node (`ok` is
      false) with only the progress fields touched. `now` stands for the
      wall-clock time. */
  method CoordinatorNode(state: GlobalState, reply: Option<CoordinatorOutput>, now: nat) returns (ok: bool)
    requires state.Valid()
    modifies state`coordinatorOutputs, state`projectComplete, state`lastUpdateIteration, state`chats,
             state`chatOrder, state`clock, state`waitingForUserDecision, state`workflowStatus,
             state`currentAgentProcessing, state`currentIteration, state`workflowError, state`lastProgressUpdate
    ensures state.Valid()
    ensures var stable := IsStable(old(state.currentIteration), state.stabilityThreshold, old(state.lastUpdateIteration));
      ok == CoordinatorAgent.Decision(old(state.currentIteration), stable, reply).Some? &&
      state.lastUpdateIteration == CoordinatorAgent.LastUpdateAfter(old(state.currentIteration), stable, reply, old(state.lastUpdateIteration))
    ensures var stable := IsStable(old(state.currentIteration), state.stabilityThreshold, old(state.lastUpdateIteration));
      ok ==> var output := CoordinatorAgent.Decision(old(state.currentIteration), stable, reply).value;
        state.coordinatorOutputs == old(state.coordinatorOutputs)[old(state.currentIteration) := output] &&
        state.projectComplete == output.projectComplete &&
        state.Conversations() == CoordinatorAgent.Deliver(old(state.Conversations()), output, old(state.currentIteration))
    ensures ok ==> var route := RouteAfter(old(state.currentIteration), state.maxIterations, state.projectComplete);
      state.currentIteration == route.iteration &&
      state.waitingForUserDecision == (route.waits || old(state.waitingForUserDecision)) &&
      state.workflowStatus == (if route.waits then "waiting_for_user" else old(state.workflowStatus)) &&
      state.currentAgentProcessing == Some(if route.waits then "coordinator_waiting" else "coordinator_continuing")
    ensures !ok ==> state.coordinatorOutputs == old(state.coordinatorOutputs)
    ensures !ok ==> state.projectComplete == old(state.projectComplete) && state.Conversations() == old(state.Conversations())
    ensures !ok ==> state.currentIteration == old(state.currentIteration)
    ensures !ok ==> state.waitingForUserDecision == old(state.waitingForUserDecision)
    ensures !ok ==> state.workflowStatus == old(state.workflowStatus) && state.currentAgentProcessing == Some("coordinator")
    ensures state.workflowError == old(state.workflowError) && state.lastProgressUpdate == now
  {
    ok := Consult(state, reply, now);
    if ok {
      RouteRound(state, now);
    }
  }

  /** The coordinator reported processing, then its decision applied. */
  method Consult(state: GlobalState, reply: Option<CoordinatorOutput>, now: nat) returns (ok: bool)
    requires state.Valid()
    modifies state`coordinatorOutputs, state`projectComplete, state`lastUpdateIteration, state`chats,
             state`chatOrder, state`clock, state`workflowStatus,
             state`currentAgentProcessing, state`currentIteration, state`workflowError, state`lastProgressUpdate
    ensures state.Valid()
    ensures var stable := IsStable(old(state.currentIteration), state.stabilityThreshold, old(state.lastUpdateIteration));
      ok == CoordinatorAgent.Decision(old(state.currentIteration), stable, reply).Some? &&
      state.lastUpdateIteration == CoordinatorAgent.LastUpdateAfter(old(state.currentIteration), stable, reply, old(state.lastUpdateIteration))
    ensures var stable := IsStable(old(state.currentIteration), state.stabilityThreshold, old(state.lastUpdateIteration));
      ok ==> var output := CoordinatorAgent.Decision(old(state.currentIteration), stable, reply).value;
        state.coordinatorOutputs == old(state.coordinatorOutputs)[old(state.currentIteration) := output] &&
        state.projectComplete == output.projectComplete &&
        state.Conversations() == CoordinatorAgent.Deliver(old(state.Conversations()), output, old(state.currentIteration))
    ensures !ok ==> state.coordinatorOutputs == old(state.coordinatorOutputs)
    ensures !ok ==> state.projectComplete == old(state.projectComplete) && state.Conversations() == old(state.Conversations())
    ensures state.currentIteration == old(state.currentIteration)
    ensures state.workflowStatus == old(state.workflowStatus) && state.currentAgentProcessing == Some("coordinator")
    ensures state.workflowError == old(state.workflowError) && state.lastProgressUpdate == now
  {
    state.UpdateProgressFile(None, Some("coordinator"), None, None, now);
    ok := CoordinatorAgent.Process(state, reply);
  }

  // ---------------------------------------------------------------------
  // The waiting node

  /** What the user interface leaves in the progress data; an absent or
      empty entry is `None`-like for the node. */
  datatype ProgressData = ProgressData(
    userDecision: Option<string>,
    additionalRequirements: Option<string>,
    newMaxIterations: Option<int>)

  /** The part of the state a poll of the progress data may write. */
  datatype Pending = Pending(userDecision: Option<string>, additionalRequirements: string, maxIterations: int)

  /** Python truthiness of an optional string and of an optional integer. */
  predicate Given(s: Option<string>) { s.Some? && s.value != "" }
  predicate GivenNumber(n: Option<int>) { n.Some? && n.value != 0 }

  /** One read of the progress data: a decision is taken over only when
      the data carries one, and with it the extra requirements and the new
      maximum, each only when present. */
  function Poll(p: Pending, data: ProgressData): (r: Pending)
    ensures !Given(data.userDecision) ==> r == p
    ensures Given(data.userDecision) ==> r.userDecision == data.userDecision
    ensures Given(data.userDecision) && Given(data.additionalRequirements) ==>
      r.additionalRequirements == data.additionalRequirements.value
    ensures !Given(data.additionalRequirements) ==> r.additionalRequirements == p.additionalRequirements
    ensures Given(data.userDecision) && GivenNumber(data.newMaxIterations) ==> r.maxIterations == data.newMaxIterations.value
    ensures !GivenNumber(data.newMaxIterations) ==> r.maxIterations == p.maxIterations
  {
    if !Given(data.userDecision) then p
    else
      Pending(data.userDecision,
              if Given(data.additionalRequirements) then data.additionalRequirements.value else p.additionalRequirements,
              if GivenNumber(data.newMaxIterations) then data.newMaxIterations.value else p.maxIterations)
  }

  /** The decision the node acts on: one already on the state, or else the
      one a poll takes over. */
  function Awaited(p: Pending, data: ProgressData): (r: Pending)
    ensures p.userDecision.Some? ==> r == p
    ensures p.userDecision.None? ==> r == Poll(p, data)
  {
    if p.userDecision.Some? then p else Poll(p, data)
  }

  /** The text a "continue" adds to the user's requirements. */
  function WithAdditional(requirements: string, additional: string): (r: string)
    ensures |r| > |requirements| && r[..|requirements|] == requirements
    ensures r[|requirements|..] == "\n\nADDITIONAL REQUIREMENTS:\n" + additional
  {
    requirements + "\n\nADDITIONAL REQUIREMENTS:\n" + additional
  }

  /** A "continue" decision leaves the project open, so the waiting node
      hands back to the coordinator; a "start_new" ends the run. */
  lemma DecisionRoutes(waitingForUserDecision: bool)
    ensures Next(WaitingStage, waitingForUserDecision, false) == CoordinatorStage
    ensures Next(WaitingStage, waitingForUserDecision, true) == End
  {
  }

  method ReadProgress(state: GlobalState, data: ProgressData)
    modifies state`userDecision, state`additionalRequirements, state`maxIterations
    ensures Pending(state.userDecision, state.additionalRequirements, state.maxIterations) ==
      Poll(Pending(old(state.userDecision), old(state.additionalRequirements), old(state.maxIterations)), data)
  {
    if Given(data.userDecision) {
      state.userDecision := data.userDecision;
      if Given(data.additionalRequirements) {
        state.additionalRequirements := data.additionalRequirements.value;
      }
      if GivenNumber(data.newMaxIterations) {
        state.maxIterations := data.newMaxIterations.value;
      }
    }
  }

  /** `waiting_node`, with its polling loop reduced to one read of `data`
      when no decision is on the state yet. `decided` is false when there
      is still none; the node has then only announced that it waits. */
  method WaitingNode(state: GlobalState, data: ProgressData, now: nat) returns (decided: bool)
    modifies state`userDecision, state`additionalRequirements, state`maxIterations, state`userRequirements,
             state`waitingForUserDecision, state`projectComplete, state`workflowStatus,
             state`currentAgentProcessing, state`currentIteration, state`workflowError, state`lastProgressUpdate
    ensures var p := Awaited(Pending(old(state.userDecision), old(state.additionalRequirements), old(state.maxIterations)), data);
      decided == p.userDecision.Some? &&
      state.additionalRequirements == p.additionalRequirements && state.maxIterations == p.maxIterations
    ensures var p := Awaited(Pending(old(state.userDecision), old(state.additionalRequirements), old(state.maxIterations)), data);
      p.userDecision == Some("continue") ==>
        state.userRequirements == WithAdditional(old(state.userRequirements), p.additionalRequirements) &&
        !state.waitingForUserDecision && !state.projectComplete && state.userDecision == None &&
        state.workflowStatus == "waiting_for_user"
    ensures var p := Awaited(Pending(old(state.userDecision), old(state.additionalRequirements), old(state.maxIterations)), data);
      p.userDecision == Some("start_new") ==>
        state.userRequirements == old(state.userRequirements) &&
        state.waitingForUserDecision == old(state.waitingForUserDecision) && state.projectComplete &&
        state.userDecision == p.userDecision && state.workflowStatus == "completed"
    ensures var p := Awaited(Pending(old(state.userDecision), old(state.additionalRequirements), old(state.maxIterations)), data);
      p.userDecision != Some("continue") && p.userDecision != Some("start_new") ==>
        state.userRequirements == old(state.userRequirements) &&
        state.waitingForUserDecision == old(state.waitingForUserDecision) &&
        state.projectComplete == old(state.projectComplete) &&
        state.userDecision == p.userDecision && state.workflowStatus == "waiting_for_user"
    ensures state.currentIteration == old(state.currentIteration)
    ensures state.currentAgentProcessing == Some("waiting_for_user_decision")
    ensures state.workflowError == old(state.workflowError) && state.lastProgressUpdate == now
  {
    state.UpdateProgressFile(Some("waiting_for_user"), Some("waiting_for_user_decision"), Some(state.currentIteration), None, now);
    if state.userDecision.None? {
      ReadProgress(state, data);
    }
    decided := state.userDecision.Some?;
    if state.userDecision == Some("continue") {
      state.userRequirements := WithAdditional(state.userRequirements, state.additionalRequirements);
      state.waitingForUserDecision := false;
      state.projectComplete := false;
      state.userDecision := None;
    } else if state.userDecision == Some("start_new") {
      state.projectComplete := true;
      state.workflowStatus := "completed";
    }
  }

  // ---------------------------------------------------------------------
  // The aggregator node

  /** The dependency gate of each specialist. The aerodynamics and
      propulsion agents' own gates are not part of this model and come in
      as booleans. */
  function DependenciesReady(outputs: map<Agent, map<int, Output>>, a: Agent,
                             aerodynamicsReady: bool, propulsionReady: bool): bool
    requires Specialists <= outputs.Keys
  {
    match a
    case MissionPlanner => MissionPlannerAgent.DependenciesReady(outputs)
    case Aerodynamics => aerodynamicsReady
    case Propulsion => propulsionReady
    case Structures => StructuresAgent.DependenciesReady(outputs)
    case Manufacturing => ManufacturingAgent.DependenciesReady(outputs)
    case Coordinator => false
  }

  /** The gates of `process` for agent `a` on the threads and output
      slots of the round-start state. */
  function Gate(chats: map<string, AgentChat>, outputs: map<Agent, map<int, Output>>, current: int, a: Agent,
                aerodynamicsReady: bool, propulsionReady: bool): bool
    requires Specialists <= outputs.Keys
  {
    a in outputs &&
    Admitted(CurrentTask(ChatBetween(chats, "coordinator", Name(a)), Name(a), current),
             DependenciesReady(outputs, a, aerodynamicsReady, propulsionReady), outputs[a], current)
  }

  /** Those of `agents` whose gates open. */
  function Gated(chats: map<string, AgentChat>, outputs: map<Agent, map<int, Output>>, current: int, agents: seq<Agent>,
                 aerodynamicsReady: bool, propulsionReady: bool): (r: set<Agent>)
    requires Specialists <= outputs.Keys
    ensures r <= outputs.Keys
  {
    if agents == [] then {}
    else Gated(chats, outputs, current, agents[..|agents| - 1], aerodynamicsReady, propulsionReady) +
         (if Gate(chats, outputs, current, agents[|agents| - 1], aerodynamicsReady, propulsionReady)
          then {agents[|agents| - 1]} else {})
  }

  /** An agent of the list is admitted exactly when its gates open. */
  lemma {:induction false} GatedMembers(chats: map<string, AgentChat>, outputs: map<Agent, map<int, Output>>, current: int,
                                        agents: seq<Agent>, aerodynamicsReady: bool, propulsionReady: bool)
    requires Specialists <= outputs.Keys
    ensures forall a :: a in Gated(chats, outputs, current, agents, aerodynamicsReady, propulsionReady) <==>
      a in agents && Gate(chats, outputs, current, a, aerodynamicsReady, propulsionReady)
  {
    if agents != [] {
      GatedMembers(chats, outputs, current, agents[..|agents| - 1], aerodynamicsReady, propulsionReady);
      assert forall a :: a in agents <==> a in agents[..|agents| - 1] || a == agents[|agents| - 1];
    }
  }

  /** The specialists whose gates open on the round-start state. Every
      coroutine handed to `asyncio.gather` runs its gates before its first
      suspension, the model call, so all five see the same state. */
  function AdmittedAgents(chats: map<string, AgentChat>, outputs: map<Agent, map<int, Output>>, current: int,
                          aerodynamicsReady: bool, propulsionReady: bool): (r: set<Agent>)
    requires Specialists <= outputs.Keys
    ensures r <= outputs.Keys
  {
    Gated(chats, outputs, current, SpecialistOrder, aerodynamicsReady, propulsionReady)
  }

  lemma ListedSpecialists(a: Agent)
    ensures a in SpecialistOrder <==> IsSpecialist(a)
  {
    match a
    case Coordinator =>
    case MissionPlanner => assert SpecialistOrder[0] == a;
    case Aerodynamics => assert SpecialistOrder[1] == a;
    case Propulsion => assert SpecialistOrder[2] == a;
    case Structures => assert SpecialistOrder[3] == a;
    case Manufacturing => assert SpecialistOrder[4] == a;
  }

  /** A specialist is admitted exactly when its own gates open; the
      coordinator never is. */
  lemma AdmittedAgentsExact(chats: map<string, AgentChat>, outputs: map<Agent, map<int, Output>>, current: int,
                            aerodynamicsReady: bool, propulsionReady: bool)
    requires Specialists <= outputs.Keys
    ensures forall a :: a in AdmittedAgents(chats, outputs, current, aerodynamicsReady, propulsionReady) <==>
      IsSpecialist(a) && Gate(chats, outputs, current, a, aerodynamicsReady, propulsionReady)
  {
    GatedMembers(chats, outputs, current, SpecialistOrder, aerodynamicsReady, propulsionReady);
    forall a ensures a in SpecialistOrder <==> IsSpecialist(a) {
      ListedSpecialists(a);
    }
  }

  /** One specialist's gates, with its own dependency gate. */
  method AdmitOne(state: GlobalState, a: Agent, aerodynamicsReady: bool, propulsionReady: bool) returns (open: bool)
    requires state.SlotsOk() && IsSpecialist(a)
    ensures open == Gate(state.chats, state.outputs, state.currentIteration, a, aerodynamicsReady, propulsionReady)
  {
    open := Admit(state, a, DependenciesReady(state.outputs, a, aerodynamicsReady, propulsionReady));
  }

  /** The first phase of the round: the gates of every agent of the list,
      in list order. */
  method AdmitAll(state: GlobalState, agents: seq<Agent>, aerodynamicsReady: bool, propulsionReady: bool)
    returns (admitted: set<Agent>)
    requires state.SlotsOk() && forall i :: 0 <= i < |agents| ==> IsSpecialist(agents[i])
    ensures admitted == Gated(state.chats, state.outputs, state.currentIteration, agents, aerodynamicsReady, propulsionReady)
  {
    ghost var chats, outputs, current := state.chats, state.outputs, state.currentIteration;
    admitted := {};
    var j := 0;
    while j < |agents|
      invariant 0 <= j <= |agents|
      invariant admitted == Gated(chats, outputs, current, agents[..j], aerodynamicsReady, propulsionReady)
    {
      assert agents[..j + 1][..j] == agents[..j];
      var open := AdmitOne(state, agents[j], aerodynamicsReady, propulsionReady);
      if open {
        admitted := admitted + {agents[j]};
      }
      j := j + 1;
    }
    assert agents[..j] == agents;
  }

  /** A model call coming back: the agent and its structured result, if
      it produced one. */
  datatype Arrival = Arrival(agent: Agent, reply: Option<Output>)

  /** The part of the state a round writes. */
  datatype Round = Round(outputs: map<Agent, map<int, Output>>, lastUpdate: map<Agent, int>, box: Store)

  /** What one agent's commit does to that part (`process` after a
      structured result). */
  function CommitStep(v: Round, a: Agent, o: Output, current: int): Round
    requires a in v.outputs
  {
    var stamped := Stamp(o, current);
    var slots := v.outputs[a][current := stamped];
    Round(v.outputs[a := slots],
          if ShouldUpdateLastIteration(slots, current, stamped) then v.lastUpdate[a := current] else v.lastUpdate,
          PostAll(v.box, Name(a), o.messages, current, "communication"))
  }

  /** A map entry as an option. */
  function EntryOf(m: map<Agent, int>, a: Agent): Option<int>
  {
    if a in m then Some(m[a]) else None
  }
  /** A commit writes the committing agent's slot and no other. */
  lemma CommitStepSlot(v: Round, a: Agent, o: Output, current: int, b: Agent)
    requires a in v.outputs && b in v.outputs
    ensures CommitStep(v, a, o, current).outputs[b] ==
      if b == a then v.outputs[a][current := Stamp(o, current)] else v.outputs[b]
  {
  }

  /** A commit moves the committing agent's entry, and only when its
      result is an update. */
  lemma CommitStepEntry(v: Round, a: Agent, o: Output, current: int, b: Agent)
    requires a in v.outputs
    ensures EntryOf(CommitStep(v, a, o, current).lastUpdate, b) ==
      if b == a && ShouldUpdateLastIteration(v.outputs[a][current := Stamp(o, current)], current, Stamp(o, current))
      then Some(current) else EntryOf(v.lastUpdate, b)
  {
  }

  /** The second phase of the round: the results committed in the order
      they arrive. An agent whose gates were closed did not call the model,
      so its arrival changes nothing. */
  function AfterArrivals(v: Round, admitted: set<Agent>, arrivals: seq<Arrival>, current: int): (r: Round)
    requires admitted <= v.outputs.Keys
    ensures r.outputs.Keys == v.outputs.Keys
    decreases |arrivals|
  {
    if arrivals == [] then v
    else
      var prev := AfterArrivals(v, admitted, arrivals[..|arrivals| - 1], current);
      var x := arrivals[|arrivals| - 1];
      if x.agent in admitted && x.reply.Some? then CommitStep(prev, x.agent, x.reply.value, current) else prev
  }

  /** Each agent arrives at most once. */
  ghost predicate DistinctAgents(arrivals: seq<Arrival>)
  {
    forall i, j :: 0 <= i < j < |arrivals| ==> arrivals[i].agent != arrivals[j].agent
  }

  /** The result `b` arrived with, `None` if it did not arrive. */
  function ReplyOf(arrivals: seq<Arrival>, b: Agent): (r: Option<Output>)
    ensures r.Some? ==> exists i :: 0 <= i < |arrivals| && arrivals[i].agent == b && arrivals[i].reply == r
  {
    if arrivals == [] then None
    else if arrivals[|arrivals| - 1].agent == b then arrivals[|arrivals| - 1].reply
    else ReplyOf(arrivals[..|arrivals| - 1], b)
  }

  lemma DistinctPrefix(arrivals: seq<Arrival>)
    requires arrivals != [] && DistinctAgents(arrivals)
    ensures DistinctAgents(arrivals[..|arrivals| - 1])
    ensures ReplyOf(arrivals[..|arrivals| - 1], arrivals[|arrivals| - 1].agent) == None
  {
  }

  /** Agents write disjoint slots: after the round, an agent's slot holds
      its own result under the round when it was admitted and produced
      one, and is otherwise as before, whatever the others did. */
  lemma {:induction false} ArrivalSlot(v: Round, admitted: set<Agent>, arrivals: seq<Arrival>, current: int, b: Agent)
    requires admitted <= v.outputs.Keys && b in v.outputs && DistinctAgents(arrivals)
    ensures AfterArrivals(v, admitted, arrivals, current).outputs[b] ==
      if b in admitted && ReplyOf(arrivals, b).Some?
      then v.outputs[b][current := Stamp(ReplyOf(arrivals, b).value, current)]
      else v.outputs[b]
    decreases |arrivals|
  {
    if arrivals != [] {
      var prefix, x := arrivals[..|arrivals| - 1], arrivals[|arrivals| - 1];
      DistinctPrefix(arrivals);
      ArrivalSlot(v, admitted, prefix, current, b);
      if x.agent in admitted && x.reply.Some? {
        CommitStepSlot(AfterArrivals(v, admitted, prefix, current), x.agent, x.reply.value, current, b);
      }
    }
  }

  /** Likewise for the stability entries: an agent's entry moves to the
      round exactly when its own result is an update. */
  lemma {:induction false} ArrivalEntry(v: Round, admitted: set<Agent>, arrivals: seq<Arrival>, current: int, b: Agent)
    requires admitted <= v.outputs.Keys && b in v.outputs && DistinctAgents(arrivals)
    ensures EntryOf(AfterArrivals(v, admitted, arrivals, current).lastUpdate, b) ==
      if b in admitted && ReplyOf(arrivals, b).Some? &&
         ShouldUpdateLastIteration(v.outputs[b][current := Stamp(ReplyOf(arrivals, b).value, current)], current,
                                   Stamp(ReplyOf(arrivals, b).value, current))
      then Some(current)
      else EntryOf(v.lastUpdate, b)
    decreases |arrivals|
  {
    if arrivals != [] {
      var prefix, x := arrivals[..|arrivals| - 1], arrivals[|arrivals| - 1];
      DistinctPrefix(arrivals);
      ArrivalEntry(v, admitted, prefix, current, b);
      ArrivalSlot(v, admitted, prefix, current, b);
      if x.agent in admitted && x.reply.Some? {
        CommitStepEntry(AfterArrivals(v, admitted, prefix, current), x.agent, x.reply.value, current, b);
      }
    }
  }

  /** The slots and stability entries a round leaves do not depend on the
      order the model calls come back in; only the conversation does. */
  lemma ArrivalOrderIrrelevant(v: Round, admitted: set<Agent>, xs: seq<Arrival>, ys: seq<Arrival>, current: int)
    requires admitted <= v.outputs.Keys && DistinctAgents(xs) && DistinctAgents(ys)
    requires forall b: Agent :: ReplyOf(xs, b) == ReplyOf(ys, b)
    ensures AfterArrivals(v, admitted, xs, current).outputs == AfterArrivals(v, admitted, ys, current).outputs
    ensures forall b: Agent :: b in v.outputs ==>
      EntryOf(AfterArrivals(v, admitted, xs, current).lastUpdate, b) == EntryOf(AfterArrivals(v, admitted, ys, current).lastUpdate, b)
  {
    var rx, ry := AfterArrivals(v, admitted, xs, current), AfterArrivals(v, admitted, ys, current);
    forall b | b in v.outputs
      ensures rx.outputs[b] == ry.outputs[b]
      ensures EntryOf(rx.lastUpdate, b) == EntryOf(ry.lastUpdate, b)
    {
      ArrivalSlot(v, admitted, xs, current, b);
      ArrivalSlot(v, admitted, ys, current, b);
      ArrivalEntry(v, admitted, xs, current, b);
      ArrivalEntry(v, admitted, ys, current, b);
    }
  }

  /** The second phase as it runs on the state. */
  method CommitAll(state: GlobalState, admitted: set<Agent>, arrivals: seq<Arrival>)
    requires state.Valid() && admitted <= Specialists
    modifies state`outputs, state`lastUpdateIteration, state`chats, state`chatOrder, state`clock
    ensures state.Valid()
    ensures Round(state.outputs, state.lastUpdateIteration, state.Conversations()) ==
      AfterArrivals(Round(old(state.outputs), old(state.lastUpdateIteration), old(state.Conversations())),
                    admitted, arrivals, state.currentIteration)
  {
    ghost var v := Round(state.outputs, state.lastUpdateIteration, state.Conversations());
    var i := 0;
    while i < |arrivals|
      invariant 0 <= i <= |arrivals|
      invariant state.Valid()
      invariant Round(state.outputs, state.lastUpdateIteration, state.Conversations()) ==
        AfterArrivals(v, admitted, arrivals[..i], state.currentIteration)
    {
      var x := arrivals[i];
      assert arrivals[..i + 1][..i] == arrivals[..i];
      if x.agent in admitted && x.reply.Some? {
        Commit(state, x.agent, x.reply.value);
      }
      i := i + 1;
    }
    assert arrivals[..i] == arrivals;
  }

  /** The `asyncio.gather` of the five specialists: the gates of all five
      on the round-start state, then the results committed in `arrivals`
      order. The gather awaits each coroutine once, so each agent arrives
      at most once. */
  method Gather(state: GlobalState, aerodynamicsReady: bool, propulsionReady: bool, arrivals: seq<Arrival>)
    requires state.Valid() && DistinctAgents(arrivals)
    modifies state`outputs, state`lastUpdateIteration, state`chats, state`chatOrder, state`clock
    ensures state.Valid()
    ensures Round(state.outputs, state.lastUpdateIteration, state.Conversations()) ==
      AfterArrivals(Round(old(state.outputs), old(state.lastUpdateIteration), old(state.Conversations())),
                    AdmittedAgents(old(state.chats), old(state.outputs), state.currentIteration, aerodynamicsReady, propulsionReady),
                    arrivals, state.currentIteration)
  {
    var admitted := AdmitAll(state, SpecialistOrder, aerodynamicsReady, propulsionReady);
    CommitAll(state, admitted, arrivals);
  }

  /** The progress records before the gather: a resumed run is marked
      running again, then the agents are reported starting and
      processing. */
  method StartRound(state: GlobalState, now: nat)
    modifies state`workflowStatus, state`currentAgentProcessing, state`currentIteration, state`workflowError,
             state`lastProgressUpdate
    ensures state.workflowStatus == if old(state.workflowStatus) == "resuming" then "running" else old(state.workflowStatus)
    ensures state.currentAgentProcessing == Some("agents_processing")
    ensures state.currentIteration == old(state.currentIteration)
    ensures state.workflowError == old(state.workflowError) && state.lastProgressUpdate == now
  {
    if state.workflowStatus == "resuming" {
      state.UpdateProgressFile(Some("running"), Some("agents_starting"), None, None, now);
    } else {
      state.UpdateProgressFile(None, Some("agents_starting"), None, None, now);
    }
    state.UpdateProgressFile(None, Some("agents_processing"), None, None, now);
  }

  /** `aggregator_node`: the progress record around the gathered round.
      `now` stands for the wall-clock time. */
  method AggregatorNode(state: GlobalState, aerodynamicsReady: bool, propulsionReady: bool,
                        arrivals: seq<Arrival>, now: nat)
    requires state.Valid() && DistinctAgents(arrivals)
    modifies state`outputs, state`lastUpdateIteration, state`chats, state`chatOrder, state`clock,
             state`workflowStatus, state`currentAgentProcessing, state`currentIteration, state`workflowError,
             state`lastProgressUpdate
    ensures state.Valid()
    ensures Round(state.outputs, state.lastUpdateIteration, state.Conversations()) ==
      AfterArrivals(Round(old(state.outputs), old(state.lastUpdateIteration), old(state.Conversations())),
                    AdmittedAgents(old(state.chats), old(state.outputs), old(state.currentIteration), aerodynamicsReady, propulsionReady),
                    arrivals, state.currentIteration)
    ensures state.currentIteration == old(state.currentIteration)
    ensures state.workflowStatus == if old(state.workflowStatus) == "resuming" then "running" else old(state.workflowStatus)
    ensures state.currentAgentProcessing == Some("agents_completed")
    ensures state.workflowError == old(state.workflowError) && state.lastProgressUpdate == now
  {
    ghost var before := Round(state.outputs, state.lastUpdateIteration, state.Conversations());
    ghost var admitted := AdmittedAgents(state.chats, state.outputs, state.currentIteration, aerodynamicsReady, propulsionReady);
    StartRound(state, now);
    Gather(state, aerodynamicsReady, propulsionReady, arrivals);
    ghost var after := Round(state.outputs, state.lastUpdateIteration, state.Conversations());
    assert after == AfterArrivals(before, admitted, arrivals, state.currentIteration);
    state.UpdateProgressFile(None, Some("agents_completed"), None, None, now);
    assert Round(state.outputs, state.lastUpdateIteration, state.Conversations()) == after;
  }
}
