/** The shared state of one design run (state.py, `StaticGlobalState`):
    per-agent outputs by round, the chat threads, the round counters and
    the progress fields. */
module State {
  import opened Types
  import opened Chat
  import opened Access
  import opened Conversation

  /** The specialists, each with its own output slot. */
  const Specialists: set<Agent> := {MissionPlanner, Aerodynamics, Propulsion, Structures, Manufacturing}

  /** `_check_stability`: at least `threshold` rounds have passed and no
      entry of `last_update_iteration` is more recent than `threshold`
      rounds ago. */
  predicate IsStable(current: int, threshold: int, lastUpdate: map<Agent, int>)
  {
    current >= threshold && forall a :: a in lastUpdate ==> current - lastUpdate[a] >= threshold
  }

  /** An entry stamped with the current round makes the state unstable
      whenever the threshold is positive. */
  lemma RecentUpdateBlocksStability(current: int, threshold: int, lastUpdate: map<Agent, int>, a: Agent)
    requires 0 < threshold && a in lastUpdate && lastUpdate[a] == current
    ensures !IsStable(current, threshold, lastUpdate)
  {
  }

  /** No round below the threshold is stable, whatever the entries. */
  lemma EarlyRoundsUnstable(current: int, threshold: int, lastUpdate: map<Agent, int>)
    requires current < threshold
    ensures !IsStable(current, threshold, lastUpdate)
  {
  }

  /** What a round summary reports. */
  datatype IterationSummary = IterationSummary(
    iteration: int,
    agentsExecuted: seq<Agent>,
    messagesSent: nat,
    newChatsCreated: nat)

  /** The progress fields of the state, as one value. */
  datatype Progress = Progress(
    workflowStatus: string,
    currentAgentProcessing: Option<string>,
    currentIteration: int,
    workflowError: Option<string>,
    lastProgressUpdate: nat)

  /** The internal half of `update_progress_file`: each given field is
      written; an error also forces the status to "error"; the progress
      time is always refreshed. */
  function ProgressUpdated(c: Progress, status: Option<string>, agent: Option<string>, iteration: Option<int>,
                           error: Option<string>, now: nat): (r: Progress)
    ensures r.workflowStatus == (if error.Some? then "error" else if status.Some? then status.value else c.workflowStatus)
    ensures r.currentAgentProcessing == (if agent.Some? then agent else c.currentAgentProcessing)
    ensures r.currentIteration == (if iteration.Some? then iteration.value else c.currentIteration)
    ensures r.workflowError == (if error.Some? then error else c.workflowError)
    ensures r.lastProgressUpdate == now
  {
    var c1 := if status.Some? then c.(workflowStatus := status.value) else c;
    var c2 := if agent.Some? then c1.(currentAgentProcessing := agent) else c1;
    var c3 := if iteration.Some? then c2.(currentIteration := iteration.value) else c2;
    var c4 := if error.Some? then c3.(workflowError := error, workflowStatus := "error") else c3;
    c4.(lastProgressUpdate := now)
  }

  /** Writing the same progress twice is the same as writing it once. */
  lemma ProgressUpdateIdempotent(c: Progress, status: Option<string>, agent: Option<string>, iteration: Option<int>,
                                 error: Option<string>, now: nat)
    ensures ProgressUpdated(ProgressUpdated(c, status, agent, iteration, error, now), status, agent, iteration, error, now)
         == ProgressUpdated(c, status, agent, iteration, error, now)
  {
  }

  /** Every output is stamped with the round it is stored under. */
  ghost predicate SlotsStamped(outputs: map<Agent, map<int, Output>>)
  {
    forall a, k :: a in outputs && k in outputs[a] ==> outputs[a][k].iteration == k
  }

  /** Storing an output under the round it is stamped with keeps every
      slot stamped. */
  lemma StoreKeepsStamped(outputs: map<Agent, map<int, Output>>, a: Agent, k: int, o: Output)
    requires SlotsStamped(outputs) && a in outputs && o.iteration == k
    ensures SlotsStamped(outputs[a := outputs[a][k := o]])
  {
    var r: map<Agent, map<int, Output>> := outputs[a := outputs[a][k := o]];
    forall b: Agent, j: int | b in r && j in r[b] ensures r[b][j].iteration == j {
      if b != a || j != k {
        assert r[b][j] == outputs[b][j];
      }
    }
  }

  /** The thread under the key of a pair in a thread map, if there is one. */
  function ChatBetween(chats: map<string, AgentChat>, a: string, b: string): Option<AgentChat>
  {
    if ChatKey(a, b) in chats then Some(chats[ChatKey(a, b)]) else None
  }

  class GlobalState {
    var outputs: map<Agent, map<int, Output>>
    var coordinatorOutputs: map<int, CoordinatorOutput>
    var chats: map<string, AgentChat>
    /** The keys of `chats` in insertion order, the order Python's dict
        iterates them in. */
    var chatOrder: seq<string>
    var currentIteration: int
    var maxIterations: int
    var stabilityThreshold: int
    var lastUpdateIteration: map<Agent, int>
    var projectComplete: bool
    var userRequirements: string
    var toolsUsage: map<string, int>
    var workflowStatus: string
    var currentAgentProcessing: Option<string>
    var workflowError: Option<string>
    var lastProgressUpdate: nat
    var waitingForUserDecision: bool
    var userDecision: Option<string>
    var additionalRequirements: string
    /** The logical clock that stamps messages. */
    var clock: nat

    function ProgressOf(): Progress
      reads this`workflowStatus, this`currentAgentProcessing, this`currentIteration, this`workflowError,
            this`lastProgressUpdate
    {
      Progress(workflowStatus, currentAgentProcessing, currentIteration, workflowError, lastProgressUpdate)
    }

    /** The threads, their iteration order and the clock, as one value. */
    function Conversations(): Store
      reads this`chats, this`chatOrder, this`clock
    {
      Store(chats, chatOrder, clock)
    }

    /** One output slot per specialist, each output stamped with the
        round it is stored under. */
    ghost predicate SlotsOk()
      reads this`outputs, this`coordinatorOutputs
    {
      outputs.Keys == Specialists && SlotsStamped(outputs) &&
      (forall k :: k in coordinatorOutputs ==> coordinatorOutputs[k].iteration == k)
    }

    /** The class invariant: the output slots and the thread store are
        well formed. */
    ghost predicate Valid()
      reads this`outputs, this`coordinatorOutputs, this`chats, this`chatOrder, this`clock
    {
      SlotsOk() && StoreOk(Conversations())
    }

    /** The state a run starts from. */
    constructor ()
      ensures Valid() && PairsRegistered(Conversations())
      ensures outputs == map[MissionPlanner := map[], Aerodynamics := map[], Propulsion := map[],
                             Structures := map[], Manufacturing := map[]]
      ensures coordinatorOutputs == map[] && chats == map[] && chatOrder == [] && clock == 0
      ensures currentIteration == 0 && maxIterations == 10 && stabilityThreshold == 3
      ensures lastUpdateIteration == map[MissionPlanner := -1, Aerodynamics := -1, Propulsion := -1,
                                         Structures := -1, Manufacturing := -1]
      ensures !projectComplete && userRequirements == "" && toolsUsage == map[]
      ensures workflowStatus == "inactive" && currentAgentProcessing == None && workflowError == None
      ensures !waitingForUserDecision && userDecision == None && additionalRequirements == ""
    {
      outputs := map[MissionPlanner := map[], Aerodynamics := map[], Propulsion := map[],
                     Structures := map[], Manufacturing := map[]];
      coordinatorOutputs := map[];
      chats := map[];
      chatOrder := [];
      currentIteration := 0;
      maxIterations := 10;
      stabilityThreshold := 3;
      lastUpdateIteration := map[MissionPlanner := -1, Aerodynamics := -1, Propulsion := -1,
                                 Structures := -1, Manufacturing := -1];
      projectComplete := false;
      userRequirements := "";
      toolsUsage := map[];
      workflowStatus := "inactive";
      currentAgentProcessing := None;
      workflowError := None;
      lastProgressUpdate := 0;
      waitingForUserDecision := false;
      userDecision := None;
      additionalRequirements := "";
      clock := 0;
      EmptyStoreOk(0);
    }

    /** `get_chat`: the thread of the pair, if it exists, found the same
        way whichever of the two names comes first. */
    function GetChat(a: string, b: string): (r: Option<AgentChat>)
      reads this`chats
      ensures r.Some? <==> ChatKey(b, a) in chats
      ensures r.Some? ==> r.value == chats[ChatKey(b, a)]
    {
      ChatKeySymmetric(a, b);
      ChatBetween(chats, a, b)
    }

    /** `create_chat`: a new, empty thread of the sorted pair under the
        pair's key, replacing any thread already there. The store stays
        well formed. */
    method CreateChat(a: string, b: string) returns (chat: AgentChat)
      requires StoreOk(Conversations())
      modifies this`chats, this`chatOrder
      ensures StoreOk(Conversations())
      ensures Conversations() == Create(old(Conversations()), a, b)
      ensures chat == chats[ChatKey(a, b)] && chat.messages == []
    {
      chat := InsertChat(a, b);
      CreateKeepsStoreOk(old(Conversations()), a, b);
    }

    /** The assignment `create_chat` makes. */
    method InsertChat(a: string, b: string) returns (chat: AgentChat)
      modifies this`chats, this`chatOrder
      ensures Conversations() == Create(old(Conversations()), a, b)
      ensures chat == chats[ChatKey(a, b)] && chat.messages == []
    {
      var key := ChatKey(a, b);
      chat := NewChat(SortedPair(a, b), ChatType(a, b));
      if key !in chats {
        chatOrder := chatOrder + [key];
      }
      chats := chats[key := chat];
    }

    /** `send_message`: a send the access table rejects returns false and
        changes nothing; an accepted one returns true, creates the pair's
        thread if it is missing and appends one message stamped with the
        clock and the current round. The store stays well formed. */
    method SendMessage(from: string, to: string, content: string, messageType: string) returns (ok: bool)
      requires StoreOk(Conversations())
      modifies this`chats, this`chatOrder, this`clock
      ensures StoreOk(Conversations())
      ensures ok == CanCommunicate(from, to)
      ensures Conversations() == Post(old(Conversations()), from, to, content, currentIteration, messageType)
    {
      ghost var before := Conversations();
      ok := Transmit(from, to, content, messageType);
      PostKeepsStoreOk(before, from, to, content, currentIteration, messageType);
    }

    /** The steps of `send_message`. */
    method Transmit(from: string, to: string, content: string, messageType: string) returns (ok: bool)
      modifies this`chats, this`chatOrder, this`clock
      ensures ok == CanCommunicate(from, to)
      ensures Conversations() == Post(old(Conversations()), from, to, content, currentIteration, messageType)
    {
      if !CanCommunicate(from, to) {
        return false;
      }
      var key := ChatKey(from, to);
      if key !in chats {
        var created := InsertChat(from, to);
      }
      ghost var ready := Conversations();
      var message := ChatMessage(from, to, content, clock, currentIteration, messageType);
      chats := chats[key := chats[key].AddMessage(message)];
      clock := clock + 1;
      assert Conversations() == Append(ready, key, message);
      return true;
    }

    /** `get_agent_chats`: the chats `name` takes part in, in iteration
        order. */
    method GetAgentChats(name: string) returns (r: seq<AgentChat>)
      requires OrderOk(Conversations())
      ensures var ks := Involving(Conversations(), chatOrder, name);
        |r| == |ks| && forall i :: 0 <= i < |r| ==> r[i] == chats[ks[i]]
      ensures forall c :: c in r <==> c in chats.Values && name in c.participants
    {
      r := [];
      ghost var ks: seq<string> := [];
      var i := 0;
      while i < |chatOrder|
        invariant 0 <= i <= |chatOrder|
        invariant ks == Involving(Conversations(), chatOrder[..i], name)
        invariant forall k :: k in ks ==> k in chats
        invariant |r| == |ks| && forall j :: 0 <= j < |r| ==> r[j] == chats[ks[j]]
      {
        var c := chats[chatOrder[i]];
        if name in c.participants {
          r := r + [c];
          ks := ks + [chatOrder[i]];
        }
        assert chatOrder[..i + 1][..i] == chatOrder[..i];
        i := i + 1;
      }
      assert chatOrder[..i] == chatOrder;
      InvolvingCovers(Conversations(), name, r);
    }

    /** `get_messages_for_agent`: exactly the messages addressed to `name`
        in the chats it takes part in (of round `iteration` when one is
        given), in time order. */
    method GetMessagesForAgent(name: string, iteration: Option<int>) returns (r: seq<ChatMessage>)
      requires OrderOk(Conversations())
      ensures r == SortByTime(Inbox(Conversations(), chatOrder, name, iteration))
      ensures NonDecreasing(r)
      ensures forall m :: m in r <==> exists k :: k in chats && InboxOf(chats[k], name, iteration, m)
    {
      var collected := [];
      var i := 0;
      while i < |chatOrder|
        invariant 0 <= i <= |chatOrder|
        invariant collected == Inbox(Conversations(), chatOrder[..i], name, iteration)
      {
        var c := chats[chatOrder[i]];
        if name in c.participants {
          var ms := c.messages;
          if iteration.Some? {
            ms := c.MessagesForIteration(iteration.value);
          }
          collected := collected + Where(ms, (m: ChatMessage) => m.toAgent == name);
        }
        assert chatOrder[..i + 1][..i] == chatOrder[..i];
        i := i + 1;
      }
      assert chatOrder[..i] == chatOrder;
      r := SortByTime(collected);
      assert forall m :: m in r <==> m in collected by {
        assert multiset(r) == multiset(collected);
        forall m ensures m in r <==> m in collected {
          assert m in r <==> m in multiset(r);
          assert m in collected <==> m in multiset(collected);
        }
      }
    }

    function PreviousRoundNotes(name: string): seq<Note>
      requires OrderOk(Conversations())
      reads this`chats, this`chatOrder, this`clock, this`currentIteration
    {
      SenderNotes(SortByTime(Inbox(Conversations(), chatOrder, name, Some(currentIteration - 1))))
    }

    /** `get_messages_from_previous_iteration`: nothing before round 1;
        otherwise the sender and body of each message addressed to `name`
        in the previous round, in time order. */
    method GetMessagesFromPreviousIteration(name: string) returns (r: seq<Note>)
      requires OrderOk(Conversations())
      ensures currentIteration <= 0 ==> r == []
      ensures currentIteration > 0 ==> r == PreviousRoundNotes(name)
    {
      if currentIteration <= 0 {
        return [];
      }
      var previous := Some(currentIteration - 1);
      var ms := GetMessagesForAgent(name, previous);
      r := SenderNotes(ms);
    }

    /** The specialists among `agents`, in their order there, with an
        output at `iteration`. */
    function Executed(agents: seq<Agent>, iteration: int): (r: seq<Agent>)
      requires forall a :: a in agents ==> a in outputs
      reads this`outputs
      ensures forall a :: a in r <==> a in agents && iteration in outputs[a]
    {
      if agents == [] then []
      else
        var last := agents[|agents| - 1];
        var r := Executed(agents[..|agents| - 1], iteration) + (if iteration in outputs[last] then [last] else []);
        assert forall a :: a in agents <==> a in agents[..|agents| - 1] || a == last;
        r
    }

    /** `Executed` distributes over concatenation of the agent list. */
    lemma {:induction false} ExecutedAppend(a: seq<Agent>, b: seq<Agent>, iteration: int)
      requires forall x :: x in a ==> x in outputs
      requires forall x :: x in b ==> x in outputs
      ensures Executed(a + b, iteration) == Executed(a, iteration) + Executed(b, iteration)
    {
      if b == [] {
        assert a + b == a;
      } else {
        var init, last := b[..|b| - 1], b[|b| - 1];
        assert a + b == (a + init) + [last] && b == init + [last];
        assert forall x :: x in init ==> x in b;
        ExecutedAppend(a, init, iteration);
        ExecutedSnoc(a + init, last, iteration);
        ExecutedSnoc(init, last, iteration);
        ConcatAssoc(Executed(a, iteration), Executed(init, iteration),
          if iteration in outputs[last] then [last] else []);
      }
    }

    lemma ExecutedSnoc(agents: seq<Agent>, a: Agent, iteration: int)
      requires forall x :: x in agents ==> x in outputs
      requires a in outputs
      ensures Executed(agents + [a], iteration) == Executed(agents, iteration) + (if iteration in outputs[a] then [a] else [])
    {
      assert (agents + [a])[..|agents|] == agents;
    }

    /** Each listed agent with an output at `iteration` occurs as often as
        it is listed; the others never. */
    lemma {:induction false} ExecutedCount(agents: seq<Agent>, iteration: int)
      requires forall a :: a in agents ==> a in outputs
      ensures forall a ::
        multiset(Executed(agents, iteration))[a] ==
          (if a in outputs && iteration in outputs[a] then multiset(agents)[a] else 0)
    {
      if agents != [] {
        var init := agents[..|agents| - 1];
        assert agents == init + [agents[|agents| - 1]];
        ExecutedCount(init, iteration);
      }
    }

    /** Each specialist with an output at `iteration` occurs once in the
        summary's list; no other agent occurs. */
    lemma SpecialistsExecutedOnce(iteration: int)
      requires SlotsOk()
      ensures forall a ::
        multiset(Executed(SpecialistOrder, iteration))[a] ==
          (if IsSpecialist(a) && iteration in outputs[a] then 1 else 0)
    {
      ExecutedCount(SpecialistOrder, iteration);
      SpecialistsListedOnce();
    }

    /** `get_iteration_summary`: the specialists that produced output in
        the round and the number of messages sent in it, over all chats. No
        chat creation is counted. */
    method GetIterationSummary(iteration: int) returns (s: IterationSummary)
      requires OrderOk(Conversations()) && SlotsOk()
      ensures s.iteration == iteration && s.newChatsCreated == 0
      ensures s.agentsExecuted == Executed(SpecialistOrder, iteration)
      ensures forall a :: a in s.agentsExecuted <==> IsSpecialist(a) && iteration in outputs[a]
      ensures forall a :: multiset(s.agentsExecuted)[a] == if IsSpecialist(a) && iteration in outputs[a] then 1 else 0
      ensures s.messagesSent == |RoundTraffic(Conversations(), chatOrder, iteration)|
    {
      var executed := ExecutedSpecialists(iteration);
      SpecialistsExecutedOnce(iteration);
      var sent := CountRoundMessages(iteration);
      s := IterationSummary(iteration, executed, sent, 0);
    }

    /** The agent list of `get_iteration_summary`. */
    method ExecutedSpecialists(iteration: int) returns (executed: seq<Agent>)
      requires SlotsOk()
      ensures executed == Executed(SpecialistOrder, iteration)
    {
      executed := [];
      var j := 0;
      while j < |SpecialistOrder|
        invariant 0 <= j <= |SpecialistOrder|
        invariant executed == Executed(SpecialistOrder[..j], iteration)
      {
        var a := SpecialistOrder[j];
        if iteration in outputs[a] {
          executed := executed + [a];
        }
        assert SpecialistOrder[..j + 1][..j] == SpecialistOrder[..j];
        j := j + 1;
      }
      assert SpecialistOrder[..j] == SpecialistOrder;
    }

    /** The message count of `get_iteration_summary`. */
    method CountRoundMessages(iteration: int) returns (sent: nat)
      requires OrderOk(Conversations())
      ensures sent == |RoundTraffic(Conversations(), chatOrder, iteration)|
    {
      sent := 0;
      var i := 0;
      while i < |chatOrder|
        invariant 0 <= i <= |chatOrder|
        invariant sent == |RoundTraffic(Conversations(), chatOrder[..i], iteration)|
      {
        sent := sent + |chats[chatOrder[i]].MessagesForIteration(iteration)|;
        assert chatOrder[..i + 1][..i] == chatOrder[..i];
        i := i + 1;
      }
      assert chatOrder[..i] == chatOrder;
    }

    /** `_check_stability`, a scan of `last_update_iteration` that stops
        at the first recent entry. */
    method CheckStability() returns (stable: bool)
      ensures stable == IsStable(currentIteration, stabilityThreshold, lastUpdateIteration)
    {
      if currentIteration < stabilityThreshold {
        return false;
      }
      var pending := lastUpdateIteration.Keys;
      while pending != {}
        invariant pending <= lastUpdateIteration.Keys
        invariant forall a :: a in lastUpdateIteration && a !in pending ==>
          currentIteration - lastUpdateIteration[a] >= stabilityThreshold
        decreases |pending|
      {
        NonEmptyHasElement(pending);
        var a :| a in pending;
        if currentIteration - lastUpdateIteration[a] < stabilityThreshold {
          return false;
        }
        pending := pending - {a};
      }
      return true;
    }

    /** `reset_chats`: no chats and no tool usage; the clock and every
        other field are untouched. */
    method ResetChats()
      requires Valid()
      modifies this`chats, this`chatOrder, this`toolsUsage
      ensures Valid() && PairsRegistered(Conversations())
      ensures Conversations() == Store(map[], [], old(clock)) && toolsUsage == map[]
    {
      chats := map[];
      chatOrder := [];
      toolsUsage := map[];
      EmptyStoreOk(clock);
    }

    /** `increment_tool_usage`: the named counter goes up by one, an
        absent one starting from 0; no other field changes. */
    method IncrementToolUsage(tool: string)
      modifies this`toolsUsage
      ensures toolsUsage == Bumped(old(toolsUsage), tool)
    {
      toolsUsage := Bumped(toolsUsage, tool);
    }

    /** The state-field half of `update_progress_file`; `now` stands for
        the wall-clock time. */
    method UpdateProgressFile(status: Option<string>, agent: Option<string>, iteration: Option<int>,
                              error: Option<string>, now: nat)
      modifies this`workflowStatus, this`currentAgentProcessing, this`currentIteration, this`workflowError,
               this`lastProgressUpdate
      ensures ProgressOf() == ProgressUpdated(old(ProgressOf()), status, agent, iteration, error, now)
    {
      if status.Some? {
        workflowStatus := status.value;
      }
      if agent.Some? {
        currentAgentProcessing := agent;
      }
      if iteration.Some? {
        currentIteration := iteration.value;
      }
      if error.Some? {
        workflowError := error;
        workflowStatus := "error";
      }
      lastProgressUpdate := now;
    }
  }
}
