# Round-based orchestration of the UAV design loop

This project is a Dafny model of the deterministic core of a multi-agent
UAV design system. A coordinator and five specialists (mission planner,
aerodynamics, propulsion, structures, manufacturing) work in rounds over
one shared state:

- the **conversation store**: one chat thread per pair of agents, under a
  symmetric key. Threads are created lazily, are append-only, and every
  send is checked against a fixed access table.
- the **agent runner**: one specialist's round. It resolves the task
  (current round first, then backward), applies the dependency gate and
  the "already produced this round" gate, stores the stamped output,
  classifies it as update or maintain, and sends its outgoing messages.
- the **coordinator decision**. Round 0 hands out tasks. An unstable later
  round continues without the model. A stable round consults the model;
  a decision to continue re-arms the stability test.
- the **round scheduler**: the coordinator, aggregator and waiting nodes,
  `should_continue`, and the graph edges. The aggregator runs the
  five specialists.
- the **tool-call counters**.

How the model is laid out:

- One module per source file: `Types`, `Access`, `Chat`, `Conversation`,
  `State`, `Tools`, `BaseAgent`, `CoordinatorAgent`, `MissionPlannerAgent`,
  `StructuresAgent`, `ManufacturingAgent` and `Workflow`. `Access` and
  `Conversation` split state.py's access table, chat keys and the thread
  store, viewed as a value, out of the `State` class.
- The shared state is a class, `State.GlobalState`. Its fields follow the
  source's state, with these differences:
  - the five `*_outputs` dicts are one map `outputs` from agent to round to
    output;
  - `static_agents` is the constant table in `Access`;
  - `last_update_iteration` is keyed by the agent rather than its name;
  - `chatOrder` is added, standing for the insertion order of `chats`;
  - `clock` is added as the logical timestamp source;
  - `last_progress_update` is a natural number, standing for the time;
  - `thread_id`, `workflow_checkpoint_id`, `checkpoint_metadata` and
    `is_resuming_workflow` are not modelled.

  Its methods change those fields in place, and each is proved against a
  function on values. For example, `SendMessage`
  against `Conversation.Post`, and the whole of `send_messages` against
  `Conversation.PostAll`. The tool counters are a class as well.
- The class invariant `GlobalState.Valid()` has two parts:
  - one output slot per specialist, each output stamped with its round;
  - a well-formed thread store (`Conversation.StoreOk`).

  The constructor establishes it, and every method that changes outputs
  or threads keeps it, up to the nodes of the workflow. The send-level
  methods (`CreateChat`, `SendMessage` and the agents' send loops) state
  only the thread-store half. They do not touch the output slots.
- Read-only loops of the source are methods with loop invariants, proved
  equal to a specification function. The properties are proved as lemmas
  about those functions.
- The language model appears only as an input: an `Option` of its
  structured result, where `None` stands for an exception or a missing
  structured response.
- Wall-clock time is a `now` parameter. Message timestamps come from a
  logical clock in the state that ticks once per accepted send.

## Model

| member | source | states |
|---|---|---|
| Types.AgentNamed | backend/langgraph/state.py:87-124 | The registry lookup by name. It finds an agent exactly when the name is registered, and the agent found carries that name. |
| Types.MaxKey | backend/agents/base_agent.py:92 | `max(d.keys())` of a non-empty map is a key, and no key is larger. |
| Types.Latest | backend/agents/base_agent.py:86-93 | The value under the largest key is stored under some key that no other key exceeds. |
| Types.Bumped | backend/langgraph/state.py:372-377 | `d[k] = d.get(k, 0) + 1`: the key set gains `k`, `k` goes up by one from its old count (absent counts as 0), and every other key keeps its count. |
| Types.SliceFrom | backend/langgraph/state.py:59 | Python's `s[start:]` is a suffix of `s`, with the length Python gives for positive, negative and out-of-range starts. |
| Types.IntString | backend/agents/coordinator.py:55 | An f-string integer: the decimal digits of the number, preceded by a minus sign when it is negative. |
| Types.DecimalRoundTrip | backend/agents/coordinator.py:55 | The digits written for a natural number read back as that number. |
| Types.SpecialistsListedOnce | backend/langgraph/state.py:290 | The roster of `get_iteration_summary` lists each of the five specialists once and never the coordinator. |
| Access.AllowedNames | backend/langgraph/state.py:87-124 | Each agent's `communication_allowed` list, name for name in the order of the table. |
| Access.CanCommunicateByName | backend/langgraph/state.py:251-257 | `_can_communicate` is false for an unregistered sender. Otherwise it holds exactly when the recipient is on the sender's allowed list. |
| Access.TableIsPolicy | backend/langgraph/state.py:87-124 | The table is exactly this policy: the coordinator and every specialist, the four design disciplines among themselves, and structures with manufacturing. |
| Access.CanCommunicateIsPolicy | backend/langgraph/state.py:251-257 | Sending is allowed exactly between two registered agents that the policy connects. |
| Access.CanCommunicateSymmetric | backend/langgraph/state.py:87-124 | The table is symmetric: `a` may send to `b` exactly when `b` may send to `a`. |
| Access.NoSelfMessages | backend/langgraph/state.py:87-124 | No agent may send to itself. |
| Access.UnregisteredCannotTalk | backend/langgraph/state.py:251-257 | A sender or recipient outside the registry makes every send fail. |
| Access.SortedPair | backend/langgraph/state.py:177 | `sorted([a, b])` is one of the two orders of the pair, and its first element is lexicographically no greater than the second. |
| Access.SortedPairSymmetric | backend/langgraph/state.py:177 | Sorting a pair does not depend on its argument order. |
| Access.ChatKeySymmetric | backend/langgraph/state.py:247-249 | `_get_chat_key(a, b) == _get_chat_key(b, a)`. |
| Access.JoinInjective | backend/langgraph/state.py:247-249 | Two keys joined with a registered first name are equal only when both halves are equal. |
| Access.ChatType | backend/langgraph/state.py:174 | A new thread is "coordinator_to_agent" exactly when the coordinator is one of the pair. Otherwise it is "agent_to_agent". |
| Chat.SenderNotes | backend/langgraph/state.py:245 | `{"from", "content"}` of each message, one per message and in order. |
| Chat.Where | backend/langgraph/state.py:53-55 | A list comprehension filter keeps exactly the elements that satisfy the condition, and the result is no longer than the input. |
| Chat.WhereCount | backend/langgraph/state.py:53-55 | The filter keeps each element that satisfies the condition as many times as the input holds it, and drops every other element. |
| Chat.WhereAppend | backend/langgraph/state.py:53-55 | Filtering a concatenation gives the concatenation of the filtered parts, so kept elements stay in input order. |
| Chat.RecipientNotes | backend/agents/base_agent.py:124 | `{"to", "content"}` of each message, one per message and in order. |
| Chat.WhereKeepsOrder | backend/langgraph/state.py:53-55 | Filtering a time-ordered list leaves it time-ordered. |
| Chat.InsertByTimeSorted | backend/langgraph/state.py:236 | Insertion into a time-ordered list keeps it time-ordered, and the result holds the old elements plus the new one. |
| Chat.SortByTime | backend/langgraph/state.py:236 | `sorted(..., key=timestamp)` is time-ordered and a permutation of its input. |
| Chat.SortOfSortedIsIdentity | backend/langgraph/state.py:236 | Sorting a list that is already time-ordered leaves it unchanged. |
| Chat.Recent | backend/langgraph/state.py:57-59 | `get_recent_messages`: time-ordered, drawn from the thread, with Python's `[-limit:]` length for every `limit`. On a time-ordered thread it is exactly the thread's tail. |
| Chat.AgentChat.AddMessage | backend/langgraph/state.py:48-51 | The message goes at the end, `last_activity` becomes its timestamp, and participants and kind are unchanged. |
| Chat.AgentChat.MessagesForIteration | backend/langgraph/state.py:53-55 | Exactly the thread's messages of that round, each as many times as the thread holds it. |
| Chat.AgentChat.AddMessageExtendsRound | backend/langgraph/state.py:48-55 | After `add_message`, the round query is the old answer, with the new message at the end when it belongs to that round. |
| Chat.AgentChat.AddMessageExtendsFrom | backend/langgraph/state.py:48-51 | After `add_message`, the sender query is the old answer, with the new message at the end when it is from that agent. |
| Chat.AgentChat.AddMessageExtendsTo | backend/langgraph/state.py:48-51 | After `add_message`, the recipient query is the old answer, with the new message at the end when it is to that agent. |
| Chat.AgentChat.MessagesFromAgent | backend/langgraph/state.py:61-63 | Exactly the thread's messages from that agent, each as many times as the thread holds it. |
| Chat.AgentChat.MessagesToAgent | backend/langgraph/state.py:65-67 | Exactly the thread's messages to that agent, each as many times as the thread holds it. |
| Chat.AgentChat.RecentMessages | backend/langgraph/state.py:57-59 | `get_recent_messages`, with the properties stated for `Chat.Recent`. |
| Chat.NewChat | backend/langgraph/state.py:39-46 | A new thread has the given pair and kind, no messages, and no last activity. |
| Conversation.Create | backend/langgraph/state.py:169-181 | `create_chat` stores a new, empty thread of the sorted pair, of the right kind, under the pair's key. No other thread changes, and a new key goes at the end of the iteration order. |
| Conversation.Post | backend/langgraph/state.py:183-217 | A rejected send changes nothing. An accepted one creates the thread if it is absent and appends exactly one message. That message carries sender, recipient, body, type, the current round and the clock as timestamp. Every other thread is unchanged. |
| Conversation.PostAllSnoc | backend/agents/base_agent.py:184-196 | A run of sends followed by one more send is the longer run. |
| Conversation.PostKeepsStoreOk | backend/langgraph/state.py:183-217 | Sends keep the store well formed. Each thread lies under its sorted pair's key, and its kind follows from the pair. Its messages are allowed, in strictly increasing time and stamped before the clock. `last_activity` is the last stamp, and each key is listed once in the iteration order. |
| Conversation.PostAllKeepsStoreOk | backend/agents/base_agent.py:184-196 | A run of sends keeps the store well formed. |
| Conversation.PostKeepsPairsRegistered | backend/langgraph/state.py:193-201 | Threads only ever come into being between registered agents. |
| Conversation.KeyedThreadIsPair | backend/langgraph/state.py:164-167 | In a well-formed store, the thread under a registered pair's key is between exactly that pair. |
| Conversation.PostDelivers | backend/langgraph/state.py:197-217 | An accepted send reaches the recipient. Afterwards the new message is in the recipient's inbox, both for its round and over all rounds. |
| Conversation.PostAllGrows | backend/langgraph/state.py:197-216 | Threads are append-only. Sends never remove a thread or rewrite a message, and the clock only advances. |
| Conversation.PostAllTicks | backend/langgraph/state.py:193-195 | The clock advances once per accepted send. A rejected send leaves no trace. |
| Conversation.PostAllOnlyAdds | backend/agents/base_agent.py:184-196 | Every message a run of sends adds comes from the sender and goes to an allowed recipient. It has the run's round and type, and its recipient and body are one of the requested pairs. |
| Conversation.Involving | backend/langgraph/state.py:219-225 | Exactly the listed keys whose thread includes the agent. |
| Conversation.InvolvingAppend | backend/langgraph/state.py:219-225 | The pick over a concatenated key list is the concatenation of the picks, so the keys keep their listed order. |
| Conversation.InvolvingCount | backend/langgraph/state.py:219-225 | A key whose thread includes the agent is picked as many times as it is listed. Any other key is never picked. |
| Conversation.InvolvingCovers | backend/langgraph/state.py:219-225 | The threads picked are exactly all threads in which the agent takes part. |
| Conversation.Inbox | backend/langgraph/state.py:227-235 | Exactly the messages addressed to the agent in threads it takes part in, restricted to one round when one is given. |
| Conversation.ThreadInboxCount | backend/langgraph/state.py:230-234 | One thread's contribution keeps each message to the agent (of the round, if one is given) as many times as the thread holds it. Nothing else is kept, and nothing at all when the agent is not a participant. |
| Conversation.InboxAppend | backend/langgraph/state.py:227-235 | The inbox over a concatenated key list is the concatenation of the inboxes, so the threads contribute in key order. |
| Conversation.InboxCount | backend/langgraph/state.py:227-235 | A message to the agent (of the round, if one is given) occurs in the inbox once for each copy of it in a listed thread the agent takes part in. No other message occurs. |
| Conversation.RoundTraffic | backend/langgraph/state.py:296-299 | Exactly the messages of one round, across the listed threads. |
| Conversation.RoundTrafficAppend | backend/langgraph/state.py:296-299 | The traffic over a concatenated key list is the concatenation of the two traffics. |
| Conversation.RoundTrafficCount | backend/langgraph/state.py:296-299 | A message of the round occurs once for each copy of it in the listed threads, and no other message occurs, so the length is the round's message count over those threads. |
| State.RecentUpdateBlocksStability | backend/langgraph/state.py:349-351 | When the threshold is positive, an entry stamped with the current round makes the state unstable. |
| State.EarlyRoundsUnstable | backend/langgraph/state.py:345-346 | No round below the threshold is stable. |
| State.ProgressUpdated | backend/langgraph/state.py:655-663 | Each given field is written. An error also forces the status to "error". The update time becomes `now`. |
| State.ProgressUpdateIdempotent | backend/langgraph/state.py:655-663 | Writing the same progress twice equals writing it once. |
| State.StoreKeepsStamped | backend/agents/base_agent.py:279-280 | Storing an output under the round it is stamped with keeps every slot stamped with its own key. |
| State.GlobalState.constructor | backend/langgraph/state.py:84-159 | The initial state: empty chats and outputs, round 0, at most 10 rounds, threshold 3, every specialist's last update at -1, status "inactive". |
| State.GlobalState.GetChat | backend/langgraph/state.py:164-167 | The thread of the pair if one exists, found whichever way round the pair is given. |
| State.GlobalState.CreateChat | backend/langgraph/state.py:169-181 | The state's threads become `Conversation.Create` of the old ones. The returned thread is the one stored, and it is empty. A well-formed store stays well formed. |
| State.GlobalState.SendMessage | backend/langgraph/state.py:183-217 | Returns exactly `_can_communicate`. The threads, their order and the clock become `Conversation.Post` of the old ones. A well-formed store stays well formed. |
| State.GlobalState.InsertChat | backend/langgraph/state.py:169-181 | The assignment of `create_chat`: the threads become `Conversation.Create` of the old ones, and the returned thread is the stored, empty one. |
| State.GlobalState.Transmit | backend/langgraph/state.py:183-217 | The steps of `send_message`: the result is `_can_communicate`, and the threads, their order and the clock become `Conversation.Post` of the old ones. |
| State.GlobalState.GetAgentChats | backend/langgraph/state.py:219-225 | The threads picked by `Conversation.Involving` in the dict's order, which are exactly the threads that include the agent. |
| State.GlobalState.GetMessagesForAgent | backend/langgraph/state.py:227-236 | The inbox over the threads in dict order, sorted by time. It is time-ordered and holds exactly the messages to the agent in the threads it takes part in, of the given round when there is one. |
| State.GlobalState.GetMessagesFromPreviousIteration | backend/langgraph/state.py:238-245 | Empty from round 0. Otherwise `{from, content}` of the agent's inbox of the previous round. |
| State.GlobalState.Executed | backend/langgraph/state.py:290-294 | Exactly the agents of the list that have an output in that round. |
| State.GlobalState.ExecutedAppend | backend/langgraph/state.py:290-294 | The result over a concatenated agent list is the concatenation of the results, so the agents keep their listed order. |
| State.GlobalState.ExecutedCount | backend/langgraph/state.py:290-294 | An agent with an output in the round occurs as many times as it is listed. Any other agent never occurs. |
| State.GlobalState.SpecialistsExecutedOnce | backend/langgraph/state.py:290-294 | Over the roster, each specialist with an output in the round occurs exactly once, and no other agent occurs. |
| State.GlobalState.GetIterationSummary | backend/langgraph/state.py:280-301 | The round, and the specialists that produced output in it, each once and in roster order. Also the number of that round's messages over the threads in dict order, and 0 new chats. |
| State.GlobalState.ExecutedSpecialists | backend/langgraph/state.py:289-294 | The loop over the five specialists yields `Executed` over the roster. |
| State.GlobalState.CountRoundMessages | backend/langgraph/state.py:296-299 | The loop over the threads counts exactly `RoundTraffic` of that round. |
| State.GlobalState.CheckStability | backend/langgraph/state.py:343-353 | The early-returning scan decides exactly `IsStable`: the threshold has been reached and every entry is at least the threshold rounds old. |
| State.GlobalState.ResetChats | backend/langgraph/state.py:355-363 | No threads, an empty order, the clock kept, and no tool usage. The rest of the state is unchanged and well formed. |
| State.GlobalState.IncrementToolUsage | backend/langgraph/state.py:372-377 | Only the named counter goes up, by one, with an absent key read as 0. |
| State.GlobalState.UpdateProgressFile | backend/langgraph/state.py:645-663 | The progress fields become `ProgressUpdated` of the old ones. |
| Tools.SumBumped | backend/tools.py:19-21 | Raising one counter raises the total by the number of times that counter is summed. |
| Tools.SumBounds | backend/tools.py:19-21 | The total of non-negative counters is non-negative and bounds each of them. |
| Tools.ToolCounters.constructor | backend/tools.py:7-13 | Exactly the five counters, all at 0. |
| Tools.ToolCounters.GetToolCounts | backend/tools.py:15-17 | A copy with the same keys and values. Being a value, it cannot alias the counters. |
| Tools.ToolCounters.GetTotalToolCalls | backend/tools.py:19-21 | The sum of all counters, which is at least any single counter. |
| Tools.ToolCounters.ResetToolCounts | backend/tools.py:23-27 | Every counter is 0, the key set is unchanged, and the total is 0. |
| Tools.ToolCounters.Record | backend/tools.py:33-34 | A tool call raises its own counter by exactly one, leaves the others alone, and raises the total by one. |
| BaseAgent.CanCommunicateWith | backend/agents/base_agent.py:49-51 | The agent's own filter agrees with the state's access table for its name. |
| BaseAgent.FirstTaskIsFirst | backend/agents/base_agent.py:62-65 | Nothing is found exactly when no message is a coordinator task for the agent. Otherwise the body is that of the first such message. |
| BaseAgent.ScanForTask | backend/agents/base_agent.py:62-65 | The early-returning loop over one round's messages finds `FirstTask`. |
| BaseAgent.LatestTaskIsLatest | backend/agents/base_agent.py:67-73 | The backward scan finds the task of the most recent round, at or below the start, that has one, or nothing when no round down to 0 has one. |
| BaseAgent.CurrentTaskIsLatest | backend/agents/base_agent.py:53-75 | No coordinator thread means no task. Otherwise the task is the current round's, or else the latest earlier round's, or nothing. |
| BaseAgent.GetTaskForCurrentIteration | backend/agents/base_agent.py:53-75 | The two loops compute `CurrentTask` of the coordinator thread. |
| BaseAgent.ScanEarlierRounds | backend/agents/base_agent.py:67-73 | The `range(current - 1, -1, -1)` loop computes `LatestTask`. |
| BaseAgent.GetMessagesFromPreviousIteration | backend/agents/base_agent.py:77-84 | Empty from round 0. Otherwise the previous round's inbox of the agent as `{from, content}`. |
| BaseAgent.GetOwnPreviousOutput | backend/agents/base_agent.py:86-93 | Empty exactly when the agent has no output. Otherwise the output under the largest key. |
| BaseAgent.PeerLatest | backend/agents/base_agent.py:100-103 | A peer's latest output exists exactly when the peer has one. The coordinator's outputs are its decisions. |
| BaseAgent.GetCommunicableAgentsOutputs | backend/agents/base_agent.py:95-105 | Exactly the allowed peers that have an output, each mapped to its latest output. |
| BaseAgent.ReceivedNotesExact | backend/agents/base_agent.py:121-122 | The received notes are exactly `{from, content}` of the messages to the agent. |
| BaseAgent.SentNotesExact | backend/agents/base_agent.py:123-124 | The sent notes are exactly `{to, content}` of the messages the agent sent that are not to itself. |
| BaseAgent.ReceivedNotesAre | backend/agents/base_agent.py:119-122 | The received notes are `{from, content}` of the messages to the agent, in message order and with repetitions. |
| BaseAgent.SentNotesAre | backend/agents/base_agent.py:119-124 | The sent notes are `{to, content}` of the messages from the agent to someone else, in message order and with repetitions. |
| BaseAgent.NotesAppend | backend/agents/base_agent.py:116-124 | Over a concatenation of messages, the received notes are the concatenation of the parts' received notes, and likewise for the sent notes. |
| BaseAgent.SplitMessages | backend/agents/base_agent.py:120-124 | The loop over a round's messages yields exactly those received and sent notes. |
| BaseAgent.ExchangesAt | backend/agents/base_agent.py:111-124 | Entry `r` of the run is what the agent received and sent in round `r` over all its threads. |
| BaseAgent.EntriesExact | backend/agents/base_agent.py:126-131 | Every history entry is a round with traffic and holds exactly that round's exchange. |
| BaseAgent.EntriesIncreasing | backend/agents/base_agent.py:111 | History entries are in strictly increasing round order. |
| BaseAgent.EntriesComplete | backend/agents/base_agent.py:126-131 | Every round with traffic has an entry. |
| BaseAgent.HistoryShape | backend/agents/base_agent.py:107-133 | The history covers only rounds below the current one, in increasing order, one entry per round with traffic, each holding that round's traffic. |
| BaseAgent.CollectRound | backend/agents/base_agent.py:116-124 | The loop over the threads gathers exactly one round's received and sent notes. |
| BaseAgent.GetCompleteAgentHistory | backend/agents/base_agent.py:107-133 | The nested loops compute `History` of the rounds below the current one. |
| BaseAgent.EarlierOutputs | backend/agents/base_agent.py:162 | Exactly the outputs of rounds before the current one. |
| BaseAgent.ShouldUpdateMeaning | backend/agents/base_agent.py:152-182 | With no output before the current round, the output is an update. Otherwise it is an update exactly when its fields differ from those of the latest earlier output. |
| BaseAgent.ShouldUpdateIgnoresMetadata | backend/agents/base_agent.py:174-177 | `iteration` and `messages` play no part in the classification. |
| BaseAgent.RepeatIsMaintain | backend/agents/base_agent.py:179-180 | An output that repeats the fields of the latest earlier one is a maintain. |
| BaseAgent.SendMessages | backend/agents/base_agent.py:184-196 | The threads become `PostAll` of the messages as "communication" sends, in order. Each rejected recipient is dropped. The store stays well formed. |
| BaseAgent.SendOne | backend/agents/base_agent.py:187-196 | One message: a `Post` when the agent's filter allows the recipient, and no change otherwise. The store stays well formed. |
| BaseAgent.Admit | backend/agents/base_agent.py:253-266 | The round proceeds exactly when there is a non-empty task, the dependencies are ready, and there is no output for the current round yet. |
| BaseAgent.Record | backend/agents/base_agent.py:278-284 | The stamped result goes under the current round and other rounds keep theirs. The agent's last update moves to the current round exactly when `should_update_last_iteration` says update. |
| BaseAgent.Commit | backend/agents/base_agent.py:277-288 | `Record`, and then the result's messages go out. The class invariant is kept. |
| BaseAgent.Process | backend/agents/base_agent.py:249-295 | A closed gate or a failed model call changes nothing. Otherwise the result is committed. The class invariant is kept. |
| MissionPlannerAgent.DependencyOutputs | backend/agents/mission_planner.py:31-33 | The mission planner has no dependency outputs. |
| MissionPlannerAgent.AdmittedByTaskAlone | backend/agents/mission_planner.py:27-29 | Its dependency gate never blocks. Only the task and the once-per-round gate decide admission. |
| StructuresAgent.DependenciesReady | backend/agents/structures.py:33-36 | Ready exactly when both the mission planner and aerodynamics have output. |
| StructuresAgent.DependencyOutputs | backend/agents/structures.py:43-52 | "mission_plan" and "aerodynamics" are present exactly when those agents have output, each holding the latest. |
| StructuresAgent.BlockedWithoutDependencies | backend/agents/structures.py:33-36 | While either dependency has no output, structures is never admitted. |
| ManufacturingAgent.DependenciesReady | backend/agents/manufacturing.py:26-28 | Ready exactly when structures has output. |
| ManufacturingAgent.DependencyOutputs | backend/agents/manufacturing.py:30-37 | Empty without structures output. Otherwise exactly "structures", holding its latest output. |
| ManufacturingAgent.BlockedWithoutStructures | backend/agents/manufacturing.py:26-28 | Manufacturing is never admitted until structures has output. |
| CoordinatorAgent.CheckStability | backend/agents/coordinator.py:25-36 | The coordinator's test is `IsStable`, and it fails below the threshold. |
| CoordinatorAgent.Decision | backend/agents/coordinator.py:42-73 | The model is consulted in round 0 and in stable later rounds. Without a reply there, there is no decision. A decision is stamped with the round and, when the model was consulted, is its reply. |
| CoordinatorAgent.KnownMembers | backend/agents/coordinator.py:80 | Exactly the messages to registered names are kept. |
| CoordinatorAgent.TaskMessagesExact | backend/agents/coordinator.py:97-115 | One message per task, in order, to the task's agent, with body "TASK ASSIGNMENT: " followed by the description. |
| CoordinatorAgent.SendKnown | backend/agents/coordinator.py:79-94 | The loop sends each message to a known name as "task_assignment" and skips the rest. The store stays well formed. |
| CoordinatorAgent.SendIfKnown | backend/agents/coordinator.py:79-94 | One pass of the loop: the message is posted when its recipient is a registered name. The store stays well formed. |
| CoordinatorAgent.Decide | backend/agents/coordinator.py:40-71 | The round's decision, and the coordinator's own stability entry set to the round exactly when a stable later round continues. |
| CoordinatorAgent.Publish | backend/agents/coordinator.py:73-115 | The decision goes under the round, `project_complete` mirrors it, and its messages and then its tasks are delivered. The class invariant is kept. |
| CoordinatorAgent.Process | backend/agents/coordinator.py:38-120 | `Decide` then `Publish`. A failed model call changes nothing, and the round number is never changed. The class invariant is kept. |
| CoordinatorAgent.UnstableReasonNamesNextRound | backend/agents/coordinator.py:55 | From a round that is at least 0, the unstable reason is the fixed prefix, then decimal digits, then a full stop. Those digits read back as the next round's number. |
| CoordinatorAgent.UnstableRoundContinues | backend/agents/coordinator.py:50-59 | An unstable later round is not complete, has no tasks or messages, sends nothing, and leaves the stability entries alone. |
| CoordinatorAgent.ContinueReArms | backend/agents/coordinator.py:63-69 | Deciding to continue in a stable round makes that round unstable again. |
| CoordinatorAgent.CompleteLeavesStability | backend/agents/coordinator.py:70-71 | A decision to complete leaves the stability entries unchanged. |
| CoordinatorAgent.KnownIsRedundant | backend/agents/coordinator.py:80-94 | Skipping unknown names sends the same as sending everything, because the access table rejects unknown names anyway. |
| Workflow.ShouldContinue | backend/langgraph/workflow.py:199-203 | "wait" exactly when the run waits for the user, "continue" otherwise. |
| Workflow.Next | backend/langgraph/workflow.py:218-241 | END is reached only from the waiting node, and only when the project is complete. The aggregator and an unfinished waiting node lead back to the coordinator. The coordinator leads to waiting exactly when it waits, and to the aggregator otherwise. |
| Workflow.RouteAfter | backend/langgraph/workflow.py:134-151 | The run waits exactly at or above the round ceiling or on completion, and then keeps the round. Otherwise the round goes up by exactly one. |
| Workflow.IterationAtFirstWait | backend/langgraph/workflow.py:134-148 | Without completion, the run first waits exactly at the round ceiling, or at once above it. |
| Workflow.RouteRound | backend/langgraph/workflow.py:134-153 | The state takes `RouteAfter`'s round and waiting flag. Status becomes "waiting_for_user" when waiting, with the matching `current_agent` record. |
| Workflow.CoordinatorNode | backend/langgraph/workflow.py:116-154 | The coordinator's round followed by the routing. A failed model call stops the node with nothing routed. The class invariant is kept. |
| Workflow.Consult | backend/langgraph/workflow.py:119-127 | The coordinator is recorded as processing, then `CoordinatorAgent.Process` applies. The class invariant is kept. |
| Workflow.Poll | backend/langgraph/workflow.py:172-178 | One read of the progress data: the decision is copied when given, and the requirements and new ceiling only when present. |
| Workflow.Awaited | backend/langgraph/workflow.py:169-178 | A decision already on the state is kept without reading. Otherwise it comes from the poll. |
| Workflow.WithAdditional | backend/langgraph/workflow.py:183 | The requirements are extended, never rewritten, by "\n\nADDITIONAL REQUIREMENTS:\n" and the addition. |
| Workflow.DecisionRoutes | backend/langgraph/workflow.py:234-241 | After "continue" the run goes back to the coordinator. After "start_new" it ends. |
| Workflow.ReadProgress | backend/langgraph/workflow.py:172-178 | The pending fields become `Poll` of the old ones. |
| Workflow.WaitingNode | backend/langgraph/workflow.py:157-196 | "continue" appends the requirements, clears waiting, completion and the decision, and keeps the round. "start_new" completes the project with status "completed". Any other decision changes nothing. |
| Workflow.Gated | backend/langgraph/workflow.py:57-69 | The agents of the list whose gates open on the round-start state, a subset of the output slots. |
| Workflow.GatedMembers | backend/langgraph/workflow.py:57-69 | An agent of the list is taken exactly when its gates open. |
| Workflow.AdmittedAgentsExact | backend/langgraph/workflow.py:57-69 | A specialist is admitted exactly when its own task, dependency and once-per-round gates open on the state at the start of the round. |
| Workflow.AdmitOne | backend/agents/base_agent.py:253-266 | One specialist's gates, with its own dependency gate. |
| Workflow.AdmitAll | backend/langgraph/workflow.py:57-69 | The loop over the agents yields `Gated`. |
| Workflow.CommitStepSlot | backend/agents/base_agent.py:278-280 | A commit writes only the committing agent's output slot. |
| Workflow.CommitStepEntry | backend/agents/base_agent.py:283-284 | A commit moves only the committing agent's stability entry, and only on an update. |
| Workflow.AfterArrivals | backend/langgraph/workflow.py:69 | The results, in arrival order, are committed for the admitted agents. The set of output slots is unchanged. |
| Workflow.ArrivalSlot | backend/langgraph/workflow.py:69 | After the round, an agent's slot holds its result exactly when it was admitted and its result arrived. |
| Workflow.ArrivalEntry | backend/langgraph/workflow.py:69 | After the round, an agent's stability entry depends only on its own admission and result. |
| Workflow.ArrivalOrderIrrelevant | backend/langgraph/workflow.py:69 | The round's output slots and stability entries do not depend on the order the results arrive in. |
| Workflow.CommitAll | backend/langgraph/workflow.py:69 | Sequential commits on the state compute `AfterArrivals`, keeping the class invariant. |
| Workflow.Gather | backend/langgraph/workflow.py:57-69 | With each agent arriving at most once: all gates on the round-start state, then commits in arrival order. The class invariant is kept. |
| Workflow.StartRound | backend/langgraph/workflow.py:44-66 | A resumed run becomes "running". The round is recorded as processing, and the round number is kept. |
| Workflow.AggregatorNode | backend/langgraph/workflow.py:40-113 | The round's outputs, stability entries and threads are `AfterArrivals` of the round-start state. The round number is kept, and processing is recorded as completed. The class invariant is kept. |

## Left out

- The language model, the prompts and the pre-model hook are left out. Their result is the `reply` input. An exception and a missing structured response are both `None`.
- `asyncio.gather` is concurrency. It is modelled in two phases. First, every agent's gates are evaluated on the round-start state, since each coroutine runs without yielding until its model call. Then the results are committed in an arbitrary arrival order, and `Workflow.ArrivalOrderIrrelevant` shows that this order does not matter for slots and stability entries. Interleaving of message sends between agents is kept as the arrival order.
- Workflow.WaitingNode: the `asyncio.sleep` polling loop is reduced to one read of the progress data. When no decision has been given, the node returns `decided == false` instead of sleeping again.
- Workflow.CoordinatorNode: the coordinator's model call has no exception handler, so a failure propagates out of the node. The model returns `ok == false` with nothing routed. This follows the code.
- File I/O is left out: the progress file's write, read, sync and cleanup, file locking, and the file half of `update_progress_file`. So are MemorySaver checkpointing, `get_workflow_history` and `get_progress_snapshot`.
- Wall-clock time is left out. Progress updates take a `now`, and message timestamps come from a logical clock that ticks once per accepted send.
- The message `id` and `metadata` are left out. No part of the core reads them.
- `get_all_chat_summaries` and `get_workflow_progress` are left out. They format data for the UI and sort by a float `last_activity`.
- `reset_chats_and_tools` is the composition of `State.GlobalState.ResetChats` and `Tools.ToolCounters.ResetToolCounts`. The model keeps the two counter stores as separate objects and has no combined member.
- The state's `get_current_tool_counts`, `get_total_tool_calls` and `reset_tool_counts` forward to tools.py through a runtime import. They are modelled once, as `Tools.ToolCounters`; the import failure that returns `{}` or `0` is left out.
- Tools.ToolCounters.Record: the engineering formulas of the five tools (floating point) are left out. Each tool call is reduced to its counter increment.
- The aerodynamics and propulsion agents (backend/agents/aerodynamics.py and backend/agents/propulsion.py) are not part of this model. Their dependency gates are the boolean inputs `aerodynamicsReady` and `propulsionReady`.
- `config.COMMUNICATION_RULES`, which `BaseAgent.communication_allowed` reads, is not part of this model. It is taken to be the registry's `communication_allowed` table.
- Printing, `debug_dependencies`, `_debug_dependency_status`, the aggregator's summary print and its tool-usage deltas (`tools_before`) are left out.
- `run_static_workflow`, `sync_complete_data_to_state`, `is_resuming_workflow`, `thread_id` and the checkpoint fields are left out.
- An output's fields other than `iteration` and `messages` are one `map<string, string>`. Pydantic's `dict()` comparison becomes map equality.
- The unresolved merge-conflict blocks in backend/agents/structures.py:8-20 and backend/agents/base_agent.py:14-27 only choose import paths, and are left out.
