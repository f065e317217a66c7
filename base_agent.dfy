/** What every specialist does in a round (base_agent.py, `BaseAgent`):
    find its task, check its gates, store the model's structured result
    under the round, decide whether it is an update, and send its
    messages. The model call itself is an input: `reply` is the structured
    result, `None` when the call raised or returned nothing. The
    per-agent dependency gate is an input too (`depsReady`); the agents
    whose files define one compute it in their own modules. */
module BaseAgent {
  import opened Types
  import opened Chat
  import opened Access
  import opened Conversation
  import opened State

  /** `communication_allowed`: the agent's entry in the communication
      rules, which are the registry's table. */
  function CommunicationAllowed(a: Agent): seq<string>
  {
    AllowedNames(a)
  }

  /** `can_communicate_with`: the agent's own filter agrees with the
      state's access check for its name. */
  function CanCommunicateWith(a: Agent, other: string): (r: bool)
    ensures r <==> CanCommunicate(Name(a), other)
  {
    CanCommunicateByName(Name(a), other);
    NamedByName(a);
    other in CommunicationAllowed(a)
  }

  // ---------------------------------------------------------------------
  // The task

  /** A task assignment from the coordinator to `name`. */
  predicate IsTaskFor(m: ChatMessage, name: string)
  {
    m.fromAgent == "coordinator" && m.toAgent == name && m.messageType == "task_assignment"
  }

  /** The body of the first task assignment to `name` in `ms`. */
  function FirstTask(ms: seq<ChatMessage>, name: string): Option<string>
  {
    if ms == [] then None
    else if IsTaskFor(ms[0], name) then Some(ms[0].content)
    else FirstTask(ms[1..], name)
  }

  /** Nothing is found iff no message is a task for `name`; what is found
      is the body of the first one. */
  lemma {:induction false} FirstTaskIsFirst(ms: seq<ChatMessage>, name: string)
    ensures FirstTask(ms, name).None? <==> forall m :: m in ms ==> !IsTaskFor(m, name)
    ensures FirstTask(ms, name).Some? ==>
      exists i :: 0 <= i < |ms| && IsTaskFor(ms[i], name) && ms[i].content == FirstTask(ms, name).value &&
                  forall j :: 0 <= j < i ==> !IsTaskFor(ms[j], name)
  {
    if ms != [] && !IsTaskFor(ms[0], name) {
      FirstTaskIsFirst(ms[1..], name);
      assert forall m :: m in ms ==> m == ms[0] || m in ms[1..];
      var r := FirstTask(ms, name);
      if r.Some? {
        var i :| 0 <= i < |ms[1..]| && IsTaskFor(ms[1..][i], name) && ms[1..][i].content == r.value &&
                 forall j :: 0 <= j < i ==> !IsTaskFor(ms[1..][j], name);
        forall j | 0 <= j < i + 1 ensures !IsTaskFor(ms[j], name) {
          if j > 0 { assert ms[j] == ms[1..][j - 1]; }
        }
        assert ms[i + 1] == ms[1..][i];
      }
    }
  }

  /** The loop over one round's messages that returns at the first task. */
  method ScanForTask(ms: seq<ChatMessage>, name: string) returns (r: Option<string>)
    ensures r == FirstTask(ms, name)
  {
    var i := 0;
    while i < |ms|
      invariant 0 <= i <= |ms|
      invariant FirstTask(ms[i..], name) == FirstTask(ms, name)
    {
      if IsTaskFor(ms[i], name) {
        return Some(ms[i].content);
      }
      assert ms[i..][1..] == ms[i + 1..];
      i := i + 1;
    }
    return None;
  }

  /** The task sent to `name` in round `iteration` of the coordinator chat. */
  function TaskInRound(c: AgentChat, name: string, iteration: int): Option<string>
  {
    FirstTask(c.MessagesForIteration(iteration), name)
  }

  /** The task of the most recent round at or below `iteration`, down to
      round 0, that has one. */
  function LatestTask(c: AgentChat, name: string, iteration: int): Option<string>
    decreases if iteration < 0 then 0 else iteration + 1
  {
    if iteration < 0 then None
    else if TaskInRound(c, name, iteration).Some? then TaskInRound(c, name, iteration)
    else LatestTask(c, name, iteration - 1)
  }

  /** What `get_task_for_current_iteration` returns: nothing without a
      coordinator chat, else the current round's task, else the latest
      earlier one. */
  function CurrentTask(chat: Option<AgentChat>, name: string, current: int): Option<string>
  {
    if chat.None? then None
    else if TaskInRound(chat.value, name, current).Some? then TaskInRound(chat.value, name, current)
    else LatestTask(chat.value, name, current - 1)
  }

  lemma {:induction false} LatestTaskIsLatest(c: AgentChat, name: string, iteration: int)
    ensures LatestTask(c, name, iteration).None? ==>
      forall r :: 0 <= r <= iteration ==> TaskInRound(c, name, r).None?
    ensures LatestTask(c, name, iteration).Some? ==>
      exists r :: 0 <= r <= iteration && TaskInRound(c, name, r) == LatestTask(c, name, iteration) &&
                  forall q :: r < q <= iteration ==> TaskInRound(c, name, q).None?
    decreases if iteration < 0 then 0 else iteration + 1
  {
    if iteration < 0 {
    } else if TaskInRound(c, name, iteration).Some? {
      assert forall q :: iteration < q <= iteration ==> TaskInRound(c, name, q).None?;
    } else {
      LatestTaskIsLatest(c, name, iteration - 1);
      if LatestTask(c, name, iteration).Some? {
        var r :| 0 <= r <= iteration - 1 && TaskInRound(c, name, r) == LatestTask(c, name, iteration - 1) &&
                 forall q :: r < q <= iteration - 1 ==> TaskInRound(c, name, q).None?;
        assert forall q :: r < q <= iteration ==> TaskInRound(c, name, q).None?;
      }
    }
  }

  /** The task found is the one of the most recent round, up to the
      current one, that has a task; none is found only when no such round
      has one or there is no coordinator chat. */
  lemma CurrentTaskIsLatest(chat: Option<AgentChat>, name: string, current: int)
    ensures chat.None? ==> CurrentTask(chat, name, current).None?
    ensures chat.Some? && CurrentTask(chat, name, current).None? ==>
      TaskInRound(chat.value, name, current).None? &&
      forall r :: 0 <= r < current ==> TaskInRound(chat.value, name, r).None?
    ensures chat.Some? && CurrentTask(chat, name, current).Some? ==>
      exists r :: (r == current || 0 <= r < current) &&
                  TaskInRound(chat.value, name, r) == CurrentTask(chat, name, current) &&
                  forall q :: r < q <= current ==> TaskInRound(chat.value, name, q).None?
  {
    if chat.Some? && TaskInRound(chat.value, name, current).None? {
      LatestTaskIsLatest(chat.value, name, current - 1);
    }
  }

  /** `get_task_for_current_iteration`. */
  method GetTaskForCurrentIteration(state: GlobalState, a: Agent) returns (task: Option<string>)
    ensures task == CurrentTask(state.GetChat("coordinator", Name(a)), Name(a), state.currentIteration)
  {
    var name := Name(a);
    var current := state.currentIteration;
    var chat := state.GetChat("coordinator", name);
    if chat.None? {
      return None;
    }
    task := ScanForTask(chat.value.MessagesForIteration(current), name);
    if task.None? {
      task := ScanEarlierRounds(chat.value, name, current - 1);
    }
  }

  /** The backward loop of `get_task_for_current_iteration`, from round
      `from` down to round 0. */
  method ScanEarlierRounds(c: AgentChat, name: string, from: int) returns (task: Option<string>)
    ensures task == LatestTask(c, name, from)
  {
    var iteration := from;
    while iteration >= 0
      invariant iteration <= from
      invariant LatestTask(c, name, iteration) == LatestTask(c, name, from)
      decreases iteration + 1
    {
      task := ScanForTask(c.MessagesForIteration(iteration), name);
      if task.Some? {
        return;
      }
      iteration := iteration - 1;
    }
    return None;
  }

  // ---------------------------------------------------------------------
  // Context read from the state

  /** `get_messages_from_previous_iteration`: the same query as the
      state's. */
  method GetMessagesFromPreviousIteration(state: GlobalState, a: Agent) returns (r: seq<Note>)
    requires OrderOk(state.Conversations())
    ensures state.currentIteration <= 0 ==> r == []
    ensures state.currentIteration > 0 ==> r == state.PreviousRoundNotes(Name(a))
  {
    r := state.GetMessagesFromPreviousIteration(Name(a));
  }

  /** `get_own_previous_output`: nothing iff the agent has no output, else
      the output under the largest round. */
  function GetOwnPreviousOutput(slots: map<int, Output>): (r: Option<Output>)
    ensures r.None? <==> slots == map[]
    ensures r.Some? ==> exists k :: k in slots && slots[k] == r.value && forall j :: j in slots ==> j <= k
  {
    if slots == map[] then None else Some(Latest(slots))
  }

  /** The latest output of a peer, the coordinator's being its decisions. */
  function PeerLatest(b: Agent, outputs: map<Agent, map<int, Output>>, decisions: map<int, CoordinatorOutput>): (r: Option<PeerOutput>)
    requires b != Coordinator ==> b in outputs
    ensures b == Coordinator ==> (r.None? <==> decisions == map[])
    ensures b == Coordinator && r.Some? ==>
      exists k :: k in decisions && r.value == CoordinatorDecision(decisions[k]) && forall j :: j in decisions ==> j <= k
    ensures b != Coordinator ==> (r.None? <==> outputs[b] == map[])
    ensures b != Coordinator && r.Some? ==>
      exists k :: k in outputs[b] && r.value == SpecialistOutput(outputs[b][k]) && forall j :: j in outputs[b] ==> j <= k
  {
    if b == Coordinator then
      (if decisions == map[] then None else Some(CoordinatorDecision(Latest(decisions))))
    else
      (if outputs[b] == map[] then None else Some(SpecialistOutput(Latest(outputs[b]))))
  }

  /** `get_communicable_agents_outputs`: the latest output of each peer the
      agent may address, for the peers that have one. */
  method GetCommunicableAgentsOutputs(state: GlobalState, a: Agent) returns (r: map<Agent, PeerOutput>)
    requires state.SlotsOk()
    ensures forall b :: b in r <==> b in Allowed(a) && PeerLatest(b, state.outputs, state.coordinatorOutputs).Some?
    ensures forall b :: b in r ==> r[b] == PeerLatest(b, state.outputs, state.coordinatorOutputs).value
  {
    r := map[];
    var allowed := Allowed(a);
    var i := 0;
    while i < |allowed|
      invariant 0 <= i <= |allowed|
      invariant forall b :: b in r <==> b in allowed[..i] && PeerLatest(b, state.outputs, state.coordinatorOutputs).Some?
      invariant forall b :: b in r ==> r[b] == PeerLatest(b, state.outputs, state.coordinatorOutputs).value
    {
      var b := allowed[i];
      assert b != Coordinator ==> b in Specialists;
      var latest := PeerLatest(b, state.outputs, state.coordinatorOutputs);
      if latest.Some? {
        r := r[b := latest.value];
      }
      assert allowed[..i + 1] == allowed[..i] + [b];
      i := i + 1;
    }
    assert allowed[..i] == allowed;
  }

  // ---------------------------------------------------------------------
  // History

  /** One round of an agent's history. */
  datatype HistoryEntry = HistoryEntry(iteration: int, received: seq<Note>, sent: seq<Note>)

  /** Sender and body of each message in `ms` addressed to `name`. */
  function ReceivedNotes(ms: seq<ChatMessage>, name: string): seq<Note>
  {
    if ms == [] then []
    else
      var last := ms[|ms| - 1];
      ReceivedNotes(ms[..|ms| - 1], name) + (if last.toAgent == name then [Note(last.fromAgent, last.content)] else [])
  }

  /** Recipient and body of each message in `ms` sent by `name` to someone
      else; a message to itself counts as received only. */
  function SentNotes(ms: seq<ChatMessage>, name: string): seq<Note>
  {
    if ms == [] then []
    else
      var last := ms[|ms| - 1];
      SentNotes(ms[..|ms| - 1], name) +
      (if last.toAgent != name && last.fromAgent == name then [Note(last.toAgent, last.content)] else [])
  }

  /** The received notes are exactly those of the messages to `name`. */
  lemma {:induction false} ReceivedNotesExact(ms: seq<ChatMessage>, name: string)
    ensures forall n :: n in ReceivedNotes(ms, name) <==>
      exists m :: m in ms && m.toAgent == name && n == Note(m.fromAgent, m.content)
  {
    if ms != [] {
      ReceivedNotesExact(ms[..|ms| - 1], name);
      assert forall m :: m in ms <==> m in ms[..|ms| - 1] || m == ms[|ms| - 1];
    }
  }

  /** The sent notes are exactly those of the messages from `name` to
      someone else. */
  lemma {:induction false} SentNotesExact(ms: seq<ChatMessage>, name: string)
    ensures forall n :: n in SentNotes(ms, name) <==>
      exists m :: m in ms && m.toAgent != name && m.fromAgent == name && n == Note(m.toAgent, m.content)
  {
    if ms != [] {
      SentNotesExact(ms[..|ms| - 1], name);
      assert forall m :: m in ms <==> m in ms[..|ms| - 1] || m == ms[|ms| - 1];
    }
  }

  /** The received notes are the sender notes of the messages to `name`,
      in their order and with their repetitions. */
  lemma {:induction false} ReceivedNotesAre(ms: seq<ChatMessage>, name: string)
    ensures ReceivedNotes(ms, name) == SenderNotes(Where(ms, (m: ChatMessage) => m.toAgent == name))
  {
    if ms != [] {
      var init, last := ms[..|ms| - 1], ms[|ms| - 1];
      var toName := (m: ChatMessage) => m.toAgent == name;
      assert ms == init + [last];
      ReceivedNotesAre(init, name);
      WhereSnoc(init, last, toName);
      SenderNotesAppend(Where(init, toName), if toName(last) then [last] else []);
    }
  }

  /** The sent notes are the recipient notes of the messages from `name` to
      someone else, in their order and with their repetitions. */
  lemma {:induction false} SentNotesAre(ms: seq<ChatMessage>, name: string)
    ensures SentNotes(ms, name) ==
      RecipientNotes(Where(ms, (m: ChatMessage) => m.toAgent != name && m.fromAgent == name))
  {
    if ms != [] {
      var init, last := ms[..|ms| - 1], ms[|ms| - 1];
      var byName := (m: ChatMessage) => m.toAgent != name && m.fromAgent == name;
      assert ms == init + [last];
      SentNotesAre(init, name);
      WhereSnoc(init, last, byName);
      RecipientNotesAppend(Where(init, byName), if byName(last) then [last] else []);
    }
  }

  /** Both note lists distribute over concatenation of the messages. */
  lemma NotesAppend(a: seq<ChatMessage>, b: seq<ChatMessage>, name: string)
    ensures ReceivedNotes(a + b, name) == ReceivedNotes(a, name) + ReceivedNotes(b, name)
    ensures SentNotes(a + b, name) == SentNotes(a, name) + SentNotes(b, name)
  {
    var toName := (m: ChatMessage) => m.toAgent == name;
    var byName := (m: ChatMessage) => m.toAgent != name && m.fromAgent == name;
    ReceivedNotesAre(a + b, name);
    ReceivedNotesAre(a, name);
    ReceivedNotesAre(b, name);
    WhereAppend(a, b, toName);
    SenderNotesAppend(Where(a, toName), Where(b, toName));
    SentNotesAre(a + b, name);
    SentNotesAre(a, name);
    SentNotesAre(b, name);
    WhereAppend(a, b, byName);
    RecipientNotesAppend(Where(a, byName), Where(b, byName));
  }

  /** The loop over one thread's messages of a round, sorting each into
      received or sent. */
  method SplitMessages(ms: seq<ChatMessage>, name: string) returns (received: seq<Note>, sent: seq<Note>)
    ensures received == ReceivedNotes(ms, name) && sent == SentNotes(ms, name)
  {
    received, sent := [], [];
    var i := 0;
    while i < |ms|
      invariant 0 <= i <= |ms|
      invariant received == ReceivedNotes(ms[..i], name) && sent == SentNotes(ms[..i], name)
    {
      var m := ms[i];
      if m.toAgent == name {
        received := received + [Note(m.fromAgent, m.content)];
      } else if m.fromAgent == name {
        sent := sent + [Note(m.toAgent, m.content)];
      }
      assert ms[..i + 1][..i] == ms[..i];
      i := i + 1;
    }
    assert ms[..i] == ms;
  }

  function ThreadReceived(c: AgentChat, name: string, iteration: int): seq<Note>
  {
    if name in c.participants then ReceivedNotes(c.MessagesForIteration(iteration), name) else []
  }

  function ThreadSent(c: AgentChat, name: string, iteration: int): seq<Note>
  {
    if name in c.participants then SentNotes(c.MessagesForIteration(iteration), name) else []
  }

  /** What `name` received in round `iteration`, over the threads of `keys`. */
  function RoundReceived(box: Store, keys: seq<string>, name: string, iteration: int): seq<Note>
    requires forall k :: k in keys ==> k in box.chats
  {
    if keys == [] then []
    else RoundReceived(box, keys[..|keys| - 1], name, iteration) + ThreadReceived(box.chats[keys[|keys| - 1]], name, iteration)
  }

  /** What `name` sent in round `iteration`, over the threads of `keys`. */
  function RoundSent(box: Store, keys: seq<string>, name: string, iteration: int): seq<Note>
    requires forall k :: k in keys ==> k in box.chats
  {
    if keys == [] then []
    else RoundSent(box, keys[..|keys| - 1], name, iteration) + ThreadSent(box.chats[keys[|keys| - 1]], name, iteration)
  }

  /** One more thread at the end of the scan. */
  lemma RoundStep(box: Store, keys: seq<string>, i: nat, name: string, iteration: int)
    requires i < |keys| && forall k :: k in keys ==> k in box.chats
    ensures RoundReceived(box, keys[..i + 1], name, iteration)
         == RoundReceived(box, keys[..i], name, iteration) + ThreadReceived(box.chats[keys[i]], name, iteration)
    ensures RoundSent(box, keys[..i + 1], name, iteration)
         == RoundSent(box, keys[..i], name, iteration) + ThreadSent(box.chats[keys[i]], name, iteration)
  {
    assert keys[..i + 1][..i] == keys[..i];
  }

  /** What an agent received and sent in one round. */
  datatype Exchange = Exchange(received: seq<Note>, sent: seq<Note>)

  /** The exchanges of rounds `0 .. n - 1`, one per round. */
  function Exchanges(box: Store, name: string, n: int): (xs: seq<Exchange>)
    requires OrderOk(box)
    ensures |xs| == if n < 0 then 0 else n
    decreases if n < 0 then 0 else n
  {
    if n <= 0 then []
    else Exchanges(box, name, n - 1) + [Exchange(RoundReceived(box, box.order, name, n - 1), RoundSent(box, box.order, name, n - 1))]
  }

  /** Entry `r` of the run is round `r`'s exchange. */
  lemma {:induction false} ExchangesAt(box: Store, name: string, n: int)
    requires OrderOk(box)
    ensures forall r :: 0 <= r < n ==>
      Exchanges(box, name, n)[r] == Exchange(RoundReceived(box, box.order, name, r), RoundSent(box, box.order, name, r))
    decreases if n < 0 then 0 else n
  {
    if n > 0 {
      ExchangesAt(box, name, n - 1);
      var xs, ys := Exchanges(box, name, n), Exchanges(box, name, n - 1);
      assert xs == ys + [Exchange(RoundReceived(box, box.order, name, n - 1), RoundSent(box, box.order, name, n - 1))];
      forall r | 0 <= r < n
        ensures xs[r] == Exchange(RoundReceived(box, box.order, name, r), RoundSent(box, box.order, name, r))
      {
        if r < n - 1 {
          assert xs[r] == ys[r];
        }
      }
    }
  }

  /** The entries of a run of exchanges: one per round with traffic, in
      round order. */
  function Entries(xs: seq<Exchange>): seq<HistoryEntry>
  {
    if xs == [] then []
    else
      var r := |xs| - 1;
      Entries(xs[..r]) + (if xs[r].received != [] || xs[r].sent != [] then [HistoryEntry(r, xs[r].received, xs[r].sent)] else [])
  }

  /** `get_complete_agent_history` of the rounds before `n`. */
  function History(box: Store, name: string, n: int): seq<HistoryEntry>
    requires OrderOk(box)
  {
    Entries(Exchanges(box, name, n))
  }

  /** Each entry is of a round of the run with traffic, and holds exactly
      that round's exchange. */
  lemma {:induction false} EntriesExact(xs: seq<Exchange>)
    ensures forall e :: e in Entries(xs) ==>
      0 <= e.iteration < |xs| && (e.received != [] || e.sent != []) &&
      e.received == xs[e.iteration].received && e.sent == xs[e.iteration].sent
  {
    if xs != [] {
      EntriesExact(xs[..|xs| - 1]);
    }
  }

  /** The entries are in strictly increasing round order. */
  lemma {:induction false} EntriesIncreasing(xs: seq<Exchange>)
    ensures forall i, j :: 0 <= i < j < |Entries(xs)| ==> Entries(xs)[i].iteration < Entries(xs)[j].iteration
  {
    if xs != [] {
      var r := |xs| - 1;
      EntriesIncreasing(xs[..r]);
      EntriesExact(xs[..r]);
      var h0 := Entries(xs[..r]);
      var h := Entries(xs);
      forall i, j | 0 <= i < j < |h| ensures h[i].iteration < h[j].iteration {
        assert h[i] == h0[i];
        if j < |h0| {
          assert h[j] == h0[j];
        } else {
          assert h0[i] in h0 && h0[i].iteration < r;
          assert h[j] in Entries(xs)[|h0|..] && h[j].iteration == r;
        }
      }
    }
  }

  /** Every round of the run with traffic has an entry. */
  lemma {:induction false} EntriesComplete(xs: seq<Exchange>)
    ensures forall r :: 0 <= r < |xs| && (xs[r].received != [] || xs[r].sent != []) ==>
      exists e :: e in Entries(xs) && e.iteration == r
  {
    if xs != [] {
      var r := |xs| - 1;
      EntriesComplete(xs[..r]);
      var h0 := Entries(xs[..r]);
      var h := Entries(xs);
      assert forall e :: e in h0 ==> e in h;
      forall q | 0 <= q < r && (xs[q].received != [] || xs[q].sent != [])
        ensures exists e :: e in h && e.iteration == q
      {
        assert xs[..r][q] == xs[q];
      }
      if xs[r].received != [] || xs[r].sent != [] {
        assert h[|h0|] in h && h[|h0|].iteration == r;
      }
    }
  }

  /** The history covers the rounds below `n` in increasing order: one
      entry per round with traffic and none for a round without, each
      entry holding what `name` received and sent in that round. */
  lemma HistoryShape(box: Store, name: string, n: int)
    requires OrderOk(box)
    ensures var h := History(box, name, n);
      (forall e :: e in h ==>
         0 <= e.iteration < n &&
         e.received == RoundReceived(box, box.order, name, e.iteration) &&
         e.sent == RoundSent(box, box.order, name, e.iteration) &&
         (e.received != [] || e.sent != [])) &&
      (forall i, j :: 0 <= i < j < |h| ==> h[i].iteration < h[j].iteration) &&
      (forall r :: 0 <= r < n && (RoundReceived(box, box.order, name, r) != [] || RoundSent(box, box.order, name, r) != []) ==>
         exists e :: e in h && e.iteration == r)
  {
    var xs := Exchanges(box, name, n);
    assert History(box, name, n) == Entries(xs);
    ExchangesAt(box, name, n);
    EntriesExact(xs);
    EntriesIncreasing(xs);
    EntriesComplete(xs);
    forall r | 0 <= r < n && (RoundReceived(box, box.order, name, r) != [] || RoundSent(box, box.order, name, r) != [])
      ensures exists e :: e in History(box, name, n) && e.iteration == r
    {
      assert xs[r].received != [] || xs[r].sent != [];
    }
  }

  /** The loop over the threads for one round of the history. */
  method CollectRound(state: GlobalState, name: string, iteration: int) returns (received: seq<Note>, sent: seq<Note>)
    requires OrderOk(state.Conversations())
    ensures received == RoundReceived(state.Conversations(), state.chatOrder, name, iteration)
    ensures sent == RoundSent(state.Conversations(), state.chatOrder, name, iteration)
  {
    received, sent := [], [];
    var box := state.Conversations();
    var order := box.order;
    var i := 0;
    while i < |order|
      invariant 0 <= i <= |order|
      invariant received == RoundReceived(box, order[..i], name, iteration)
      invariant sent == RoundSent(box, order[..i], name, iteration)
    {
      RoundStep(box, order, i, name, iteration);
      var c := box.chats[order[i]];
      if name in c.participants {
        var r, s := SplitMessages(c.MessagesForIteration(iteration), name);
        received, sent := received + r, sent + s;
      }
      i := i + 1;
    }
    assert order[..i] == order;
  }

  /** `get_complete_agent_history`. */
  method GetCompleteAgentHistory(state: GlobalState, a: Agent) returns (history: seq<HistoryEntry>)
    requires OrderOk(state.Conversations())
    ensures history == History(state.Conversations(), Name(a), state.currentIteration)
  {
    history := [];
    var box := state.Conversations();
    var name := Name(a);
    ghost var xs: seq<Exchange> := [];
    var iteration := 0;
    while iteration < state.currentIteration
      invariant 0 <= iteration && (iteration <= state.currentIteration || iteration == 0)
      invariant xs == Exchanges(box, name, iteration)
      invariant history == Entries(xs)
    {
      var received, sent := CollectRound(state, name, iteration);
      assert (xs + [Exchange(received, sent)])[..iteration] == xs;
      xs := xs + [Exchange(received, sent)];
      if received != [] || sent != [] {
        history := history + [HistoryEntry(iteration, received, sent)];
      }
      iteration := iteration + 1;
    }
  }

  // ---------------------------------------------------------------------
  // Update or maintain

  /** The agent's outputs from rounds before `current`. */
  function EarlierOutputs(slots: map<int, Output>, current: int): (r: map<int, Output>)
    ensures forall k :: k in r <==> k in slots && k < current
    ensures forall k :: k in r ==> r[k] == slots[k]
  {
    map k | k in slots && k < current :: slots[k]
  }

  /** `should_update_last_iteration`: an output is an update when the
      agent has no output from an earlier round, or when it differs from
      the latest earlier one in a field other than `iteration` and
      `messages`. */
  function ShouldUpdateLastIteration(slots: map<int, Output>, current: int, output: Output): bool
  {
    if slots == map[] then true
    else
      var earlier := EarlierOutputs(slots, current);
      if earlier == map[] then true
      else Latest(earlier).fields != output.fields
  }

  /** With no earlier output the result is an update; otherwise it is one
      exactly when it differs from the output of the latest earlier round. */
  lemma ShouldUpdateMeaning(slots: map<int, Output>, current: int, output: Output)
    ensures (forall k :: k in slots ==> k >= current) ==> ShouldUpdateLastIteration(slots, current, output)
    ensures forall k :: k in slots && k < current && (forall j :: j in slots && j < current ==> j <= k) ==>
      (ShouldUpdateLastIteration(slots, current, output) <==> slots[k].fields != output.fields)
  {
    var earlier := EarlierOutputs(slots, current);
    assert forall k :: k in slots && k < current ==> k in earlier;
  }

  /** The classification looks only at the fields other than `iteration`
      and `messages`. */
  lemma ShouldUpdateIgnoresMetadata(slots: map<int, Output>, current: int, output: Output, iteration: int, messages: seq<AgentMessage>)
    ensures ShouldUpdateLastIteration(slots, current, output)
         == ShouldUpdateLastIteration(slots, current, Output(output.fields, iteration, messages))
  {
  }

  /** Producing again exactly the fields of the latest earlier output is a
      maintain, whatever `iteration` and `messages` say. */
  lemma RepeatIsMaintain(slots: map<int, Output>, current: int, output: Output)
    requires EarlierOutputs(slots, current) != map[]
    requires output.fields == Latest(EarlierOutputs(slots, current)).fields
    ensures !ShouldUpdateLastIteration(slots, current, output)
  {
  }

  // ---------------------------------------------------------------------
  // Sending

  /** `send_messages`: each message, in order, goes out as a
      `communication` send if the recipient is on the agent's list; the
      others are dropped. */
  method SendMessages(state: GlobalState, a: Agent, msgs: seq<AgentMessage>)
    requires StoreOk(state.Conversations())
    modifies state`chats, state`chatOrder, state`clock
    ensures StoreOk(state.Conversations())
    ensures state.Conversations() == PostAll(old(state.Conversations()), Name(a), msgs, state.currentIteration, "communication")
  {
    ghost var box := state.Conversations();
    var i := 0;
    while i < |msgs|
      invariant 0 <= i <= |msgs|
      invariant StoreOk(state.Conversations())
      invariant state.Conversations() == PostAll(box, Name(a), msgs[..i], state.currentIteration, "communication")
    {
      PostAllPrefix(box, Name(a), msgs, i, state.currentIteration, "communication");
      SendOne(state, a, msgs[i]);
      i := i + 1;
    }
    assert msgs[..i] == msgs;
  }

  /** One message of `send_messages`. */
  method SendOne(state: GlobalState, a: Agent, m: AgentMessage)
    requires StoreOk(state.Conversations())
    modifies state`chats, state`chatOrder, state`clock
    ensures StoreOk(state.Conversations())
    ensures state.Conversations() == Post(old(state.Conversations()), Name(a), m.toAgent, m.content, state.currentIteration, "communication")
  {
    if CanCommunicateWith(a, m.toAgent) {
      var sent := state.SendMessage(Name(a), m.toAgent, m.content, "communication");
    }
  }

  // ---------------------------------------------------------------------
  // A round of the agent

  /** The output as stored: stamped with the round it belongs to. */
  function Stamp(output: Output, current: int): Output
  {
    output.(iteration := current)
  }

  /** The gates of `process`: a non-empty task, ready dependencies, and no
      output yet in the current round. */
  predicate Admitted(task: Option<string>, depsReady: bool, slots: map<int, Output>, current: int)
  {
    task.Some? && task.value != "" && depsReady && current !in slots
  }

  /** The part of `process` before the model call. */
  method Admit(state: GlobalState, a: Agent, depsReady: bool) returns (admitted: bool)
    requires state.SlotsOk() && IsSpecialist(a)
    ensures admitted == Admitted(CurrentTask(state.GetChat("coordinator", Name(a)), Name(a), state.currentIteration),
                                 depsReady, state.outputs[a], state.currentIteration)
  {
    var task := GetTaskForCurrentIteration(state, a);
    if task.None? || task.value == "" {
      return false;
    }
    if !depsReady {
      return false;
    }
    assert a in Specialists;
    if state.currentIteration in state.outputs[a] {
      return false;
    }
    return true;
  }

  /** The bookkeeping of `process` after a structured result: the result,
      stamped with the round, goes into the agent's slot under the round,
      and the round becomes the agent's last update only if the result is
      an update. */
  method Record(state: GlobalState, a: Agent, output: Output)
    requires state.SlotsOk() && IsSpecialist(a)
    modifies state`outputs, state`lastUpdateIteration
    ensures state.SlotsOk()
    ensures state.outputs == old(state.outputs)[a := old(state.outputs[a])[state.currentIteration := Stamp(output, state.currentIteration)]]
    ensures state.lastUpdateIteration ==
      if ShouldUpdateLastIteration(state.outputs[a], state.currentIteration, Stamp(output, state.currentIteration))
      then old(state.lastUpdateIteration)[a := state.currentIteration] else old(state.lastUpdateIteration)
  {
    assert a in Specialists;
    var current := state.currentIteration;
    var stamped := Stamp(output, current);
    var slots := state.outputs[a][current := stamped];
    var update := ShouldUpdateLastIteration(slots, current, stamped);
    StoreKeepsStamped(state.outputs, a, current, stamped);
    state.outputs := state.outputs[a := slots];
    if update {
      state.lastUpdateIteration := state.lastUpdateIteration[a := current];
    }
  }

  /** The part of `process` after a structured result: it is recorded and
      its messages are sent. */
  method Commit(state: GlobalState, a: Agent, output: Output)
    requires state.Valid() && IsSpecialist(a)
    modifies state`outputs, state`lastUpdateIteration, state`chats, state`chatOrder, state`clock
    ensures state.Valid()
    ensures state.outputs == old(state.outputs)[a := old(state.outputs[a])[state.currentIteration := Stamp(output, state.currentIteration)]]
    ensures state.lastUpdateIteration ==
      if ShouldUpdateLastIteration(state.outputs[a], state.currentIteration, Stamp(output, state.currentIteration))
      then old(state.lastUpdateIteration)[a := state.currentIteration] else old(state.lastUpdateIteration)
    ensures state.Conversations() == PostAll(old(state.Conversations()), Name(a), output.messages, state.currentIteration, "communication")
  {
    Record(state, a, output);
    if output.messages != [] {
      SendMessages(state, a, output.messages);
    }
  }

  /** `process`: a round of the agent when the gates hold and the model
      returns a structured result; otherwise nothing changes. */
  method Process(state: GlobalState, a: Agent, depsReady: bool, reply: Option<Output>)
    requires state.Valid() && IsSpecialist(a)
    modifies state`outputs, state`lastUpdateIteration, state`chats, state`chatOrder, state`clock
    ensures state.Valid()
    ensures var current := state.currentIteration;
      var task := CurrentTask(old(state.GetChat("coordinator", Name(a))), Name(a), current);
      if Admitted(task, depsReady, old(state.outputs[a]), current) && reply.Some? then
        var stamped := Stamp(reply.value, current);
        state.outputs == old(state.outputs)[a := old(state.outputs[a])[current := stamped]] &&
        state.lastUpdateIteration ==
          (if ShouldUpdateLastIteration(state.outputs[a], current, stamped)
           then old(state.lastUpdateIteration)[a := current] else old(state.lastUpdateIteration)) &&
        state.Conversations() == PostAll(old(state.Conversations()), Name(a), reply.value.messages, current, "communication")
      else
        state.outputs == old(state.outputs) && state.lastUpdateIteration == old(state.lastUpdateIteration) &&
        state.Conversations() == old(state.Conversations())
  {
    var admitted := Admit(state, a, depsReady);
    if admitted && reply.Some? {
      Commit(state, a, reply.value);
    }
  }
}
