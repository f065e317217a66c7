/** The coordinator (coordinator.py, `CoordinatorAgent`): in round 0 it
    hands out the first tasks; in a later round it consults the model only
    when the specialists have been stable, and otherwise continues with a
    fixed decision. The model's decision is an input, `None` when the call
    raises; the exception then leaves the state as it was. */
module CoordinatorAgent {
  import opened Types
  import opened Access
  import opened Conversation
  import opened State

  /** `check_stability`: the same test as the state's. */
  method CheckStability(state: GlobalState) returns (stable: bool)
    ensures stable == IsStable(state.currentIteration, state.stabilityThreshold, state.lastUpdateIteration)
    ensures state.currentIteration < state.stabilityThreshold ==> !stable
  {
    stable := state.CheckStability();
  }

  /** The reason an unstable round gives, up to the next round's number. */
  const UnstablePrefix: string := "System not stable - agents still updating. Continuing to iteration "

  /** The decision of a later round that is not stable. */
  function UnstableOutput(current: int): CoordinatorOutput
  {
    CoordinatorOutput(false, UnstablePrefix + IntString(current + 1) + ".",
                      [], [], current)
  }

  /** The reason of an unstable round is the fixed prefix, the next
      round's number in decimal and a full stop; the number reads back as
      the next round. */
  lemma {:induction false} UnstableReasonNamesNextRound(current: int)
    requires current >= 0
    ensures var reason := UnstableOutput(current).completionReason;
      |UnstablePrefix| < |reason| - 1 && reason[..|UnstablePrefix|] == UnstablePrefix && reason[|reason| - 1] == '.' &&
      var digits := reason[|UnstablePrefix|..|reason| - 1];
      (forall i :: 0 <= i < |digits| ==> '0' <= digits[i] <= '9') && ParseDecimal(digits) == current + 1
  {
    var reason := UnstableOutput(current).completionReason;
    var d := Decimal(current + 1);
    assert reason == UnstablePrefix + d + ".";
    assert reason[|UnstablePrefix|..|reason| - 1] == d;
    DecimalRoundTrip(current + 1);
  }

  /** The model is consulted in round 0 and in stable later rounds. */
  predicate ConsultsModel(current: int, stable: bool)
  {
    current == 0 || stable
  }

  /** The round's decision, stamped with the round; none when the model
      was consulted and failed. */
  function Decision(current: int, stable: bool, reply: Option<CoordinatorOutput>): (r: Option<CoordinatorOutput>)
    ensures r.None? <==> ConsultsModel(current, stable) && reply.None?
    ensures r.Some? ==> r.value.iteration == current
    ensures r.Some? && ConsultsModel(current, stable) ==> r.value == reply.value.(iteration := current)
  {
    if !ConsultsModel(current, stable) then Some(UnstableOutput(current))
    else if reply.None? then None
    else Some(reply.value.(iteration := current))
  }

  /** `last_update_iteration` after the round: a stable later round whose
      decision is to continue marks the coordinator as updated now. */
  function LastUpdateAfter(current: int, stable: bool, reply: Option<CoordinatorOutput>, lastUpdate: map<Agent, int>): map<Agent, int>
  {
    if current != 0 && stable && reply.Some? && !reply.value.projectComplete then lastUpdate[Coordinator := current]
    else lastUpdate
  }

  /** The recipients the coordinator's loops accept: the registered names. */
  function Known(msgs: seq<AgentMessage>): seq<AgentMessage>
  {
    if msgs == [] then []
    else Known(msgs[..|msgs| - 1]) + (if AgentNamed(msgs[|msgs| - 1].toAgent).Some? then [msgs[|msgs| - 1]] else [])
  }

  /** Appending a message extends the known list by that message exactly
      when its recipient is registered. */
  lemma KnownSnoc(msgs: seq<AgentMessage>, m: AgentMessage)
    ensures Known(msgs + [m]) == Known(msgs) + (if AgentNamed(m.toAgent).Some? then [m] else [])
  {
    assert (msgs + [m])[..|msgs|] == msgs;
  }

  /** Exactly the messages to registered names survive. */
  lemma {:induction false} KnownMembers(msgs: seq<AgentMessage>)
    ensures forall m :: m in Known(msgs) <==> m in msgs && AgentNamed(m.toAgent).Some?
  {
    if msgs != [] {
      KnownMembers(msgs[..|msgs| - 1]);
      assert forall m :: m in msgs <==> m in msgs[..|msgs| - 1] || m == msgs[|msgs| - 1];
    }
  }

  function TaskMessages(tasks: seq<AgentTask>): seq<AgentMessage>
  {
    if tasks == [] then []
    else TaskMessages(tasks[..|tasks| - 1]) + [AgentMessage(tasks[|tasks| - 1].agentName, "TASK ASSIGNMENT: " + tasks[|tasks| - 1].taskDescription)]
  }

  /** One assignment message per task, in task order, addressed to the
      task's agent and carrying its description behind the fixed prefix. */
  lemma {:induction false} TaskMessagesExact(tasks: seq<AgentTask>)
    ensures |TaskMessages(tasks)| == |tasks|
    ensures forall i :: 0 <= i < |tasks| ==>
      TaskMessages(tasks)[i] == AgentMessage(tasks[i].agentName, "TASK ASSIGNMENT: " + tasks[i].taskDescription)
  {
    if tasks != [] {
      TaskMessagesExact(tasks[..|tasks| - 1]);
    }
  }

  /** The round's sends: first the explicit messages, then one message per
      task, all as `task_assignment` from the coordinator, each only to a
      registered name. */
  function Deliver(box: Store, output: CoordinatorOutput, current: int): Store
  {
    PostAll(PostAll(box, "coordinator", Known(output.messages), current, "task_assignment"),
            "coordinator", Known(TaskMessages(output.agentTasks)), current, "task_assignment")
  }

  /** The loop of `process` over one list of sends. */
  method SendKnown(state: GlobalState, msgs: seq<AgentMessage>)
    requires StoreOk(state.Conversations())
    modifies state`chats, state`chatOrder, state`clock
    ensures StoreOk(state.Conversations())
    ensures state.Conversations() == PostAll(old(state.Conversations()), "coordinator", Known(msgs), state.currentIteration, "task_assignment")
  {
    ghost var box := state.Conversations();
    var i := 0;
    while i < |msgs|
      invariant 0 <= i <= |msgs|
      invariant StoreOk(state.Conversations())
      invariant state.Conversations() == PostAll(box, "coordinator", Known(msgs[..i]), state.currentIteration, "task_assignment")
    {
      assert msgs[..i + 1][..i] == msgs[..i];
      KnownSnoc(msgs[..i], msgs[i]);
      SendIfKnown(state, box, msgs[..i], msgs[i]);
      i := i + 1;
    }
    assert msgs[..i] == msgs;
  }

  /** One message of a `task_assignment` broadcast, sent when its
      recipient names an agent. */
  method SendIfKnown(state: GlobalState, ghost box: Store, ghost done: seq<AgentMessage>, m: AgentMessage)
    requires StoreOk(state.Conversations())
    requires state.Conversations() == PostAll(box, "coordinator", Known(done), state.currentIteration, "task_assignment")
    modifies state`chats, state`chatOrder, state`clock
    ensures StoreOk(state.Conversations())
    ensures state.Conversations() == PostAll(box, "coordinator", Known(done + [m]), state.currentIteration, "task_assignment")
  {
    if AgentNamed(m.toAgent).Some? {
      PostAllSnoc(box, "coordinator", Known(done), m, state.currentIteration, "task_assignment");
      var sent := state.SendMessage("coordinator", m.toAgent, m.content, "task_assignment");
    } else {
      assert Known(done) + [] == Known(done);
    }
  }

  /** The decision half of `process`: the round's output, and the
      coordinator's stability entry when it decides to continue after a
      stable round. */
  method Decide(state: GlobalState, reply: Option<CoordinatorOutput>) returns (ok: bool, output: CoordinatorOutput)
    modifies state`lastUpdateIteration
    ensures var stable := IsStable(state.currentIteration, state.stabilityThreshold, old(state.lastUpdateIteration));
      ok == Decision(state.currentIteration, stable, reply).Some? &&
      (ok ==> output == Decision(state.currentIteration, stable, reply).value) &&
      state.lastUpdateIteration == LastUpdateAfter(state.currentIteration, stable, reply, old(state.lastUpdateIteration))
  {
    var current := state.currentIteration;
    if current == 0 {
      if reply.None? {
        return false, UnstableOutput(current);
      }
      output := reply.value;
    } else {
      var stable := CheckStability(state);
      if !stable {
        output := UnstableOutput(current);
      } else {
        if reply.None? {
          return false, UnstableOutput(current);
        }
        output := reply.value;
        if !output.projectComplete {
          state.lastUpdateIteration := state.lastUpdateIteration[Coordinator := current];
        }
      }
    }
    ok, output := true, output.(iteration := current);
  }

  /** The recording half of `process`: the output is stored under the
      round, the project's completion flag follows it, and its sends go
      out. */
  method Publish(state: GlobalState, output: CoordinatorOutput)
    requires state.Valid() && output.iteration == state.currentIteration
    modifies state`coordinatorOutputs, state`projectComplete, state`chats, state`chatOrder, state`clock
    ensures state.Valid()
    ensures state.coordinatorOutputs == old(state.coordinatorOutputs)[state.currentIteration := output]
    ensures state.projectComplete == output.projectComplete
    ensures state.Conversations() == Deliver(old(state.Conversations()), output, state.currentIteration)
  {
    state.coordinatorOutputs := state.coordinatorOutputs[state.currentIteration := output];
    state.projectComplete := output.projectComplete;
    SendKnown(state, output.messages);
    SendKnown(state, TaskMessages(output.agentTasks));
  }

  /** `process`. It never changes the round: that is the scheduler's. */
  method Process(state: GlobalState, reply: Option<CoordinatorOutput>) returns (ok: bool)
    requires state.Valid()
    modifies state`coordinatorOutputs, state`projectComplete, state`lastUpdateIteration, state`chats, state`chatOrder, state`clock
    ensures state.Valid()
    ensures var stable := IsStable(state.currentIteration, state.stabilityThreshold, old(state.lastUpdateIteration));
      ok == Decision(state.currentIteration, stable, reply).Some? &&
      state.lastUpdateIteration == LastUpdateAfter(state.currentIteration, stable, reply, old(state.lastUpdateIteration))
    ensures var stable := IsStable(state.currentIteration, state.stabilityThreshold, old(state.lastUpdateIteration));
      ok ==> var output := Decision(state.currentIteration, stable, reply).value;
        state.coordinatorOutputs == old(state.coordinatorOutputs)[state.currentIteration := output] &&
        state.projectComplete == output.projectComplete &&
        state.Conversations() == Deliver(old(state.Conversations()), output, state.currentIteration)
    ensures !ok ==> state.coordinatorOutputs == old(state.coordinatorOutputs)
    ensures !ok ==> state.projectComplete == old(state.projectComplete) && state.Conversations() == old(state.Conversations())
  {
    ghost var decision := Decision(state.currentIteration, IsStable(state.currentIteration, state.stabilityThreshold, state.lastUpdateIteration), reply);
    ghost var box := state.Conversations();
    var output;
    ok, output := Decide(state, reply);
    if ok {
      assert output == decision.value;
      Publish(state, output);
      assert state.Conversations() == Deliver(box, output, state.currentIteration);
    }
  }

  // ---------------------------------------------------------------------
  // What the decision logic guarantees

  /** An unstable later round continues without the model: not complete,
      no tasks, no messages, nothing sent, and no stability entry written. */
  lemma UnstableRoundContinues(box: Store, current: int, reply: Option<CoordinatorOutput>, lastUpdate: map<Agent, int>)
    requires current != 0
    ensures Decision(current, false, reply).Some?
    ensures var o := Decision(current, false, reply).value;
      !o.projectComplete && o.agentTasks == [] && o.messages == [] && Deliver(box, o, current) == box
    ensures LastUpdateAfter(current, false, reply, lastUpdate) == lastUpdate
  {
  }

  /** Deciding to continue after a stable round re-arms the stability
      test: with a positive threshold the same round is no longer stable. */
  lemma ContinueReArms(current: int, threshold: int, reply: Option<CoordinatorOutput>, lastUpdate: map<Agent, int>)
    requires 0 < threshold && current != 0 && IsStable(current, threshold, lastUpdate)
    requires reply.Some? && !reply.value.projectComplete
    ensures Decision(current, true, reply).Some? && !Decision(current, true, reply).value.projectComplete
    ensures !IsStable(current, threshold, LastUpdateAfter(current, true, reply, lastUpdate))
  {
    RecentUpdateBlocksStability(current, threshold, LastUpdateAfter(current, true, reply, lastUpdate), Coordinator);
  }

  /** A decision to complete leaves the stability entries alone. */
  lemma CompleteLeavesStability(current: int, stable: bool, reply: Option<CoordinatorOutput>, lastUpdate: map<Agent, int>)
    requires reply.Some? && reply.value.projectComplete
    ensures LastUpdateAfter(current, stable, reply, lastUpdate) == lastUpdate
  {
  }

  /** Skipping unregistered recipients changes nothing: the access check
      of each send rejects them anyway. */
  lemma {:induction false} KnownIsRedundant(box: Store, from: string, msgs: seq<AgentMessage>, iteration: int, messageType: string)
    ensures PostAll(box, from, Known(msgs), iteration, messageType) == PostAll(box, from, msgs, iteration, messageType)
    decreases |msgs|
  {
    if msgs != [] {
      var init, last := msgs[..|msgs| - 1], msgs[|msgs| - 1];
      assert msgs == init + [last];
      KnownIsRedundant(box, from, init, iteration, messageType);
      PostAllSnoc(box, from, init, last, iteration, messageType);
      if AgentNamed(last.toAgent).Some? {
        PostAllSnoc(box, from, Known(init), last, iteration, messageType);
      } else {
        UnregisteredCannotTalk(from, last.toAgent);
        assert Known(msgs) == Known(init);
      }
    }
  }
}
