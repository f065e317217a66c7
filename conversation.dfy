/** The conversation store as a value: the chat threads by key, the order
    in which the keys were first used (the order Python's dict iterates
    them in), and the logical clock that stamps every message. */
module Conversation {
  import opened Types
  import opened Chat
  import opened Access

  datatype Store = Store(chats: map<string, AgentChat>, order: seq<string>, clock: nat)

  /** The messages under `key`, none if there is no thread. */
  function ThreadAt(box: Store, key: string): seq<ChatMessage>
  {
    if key in box.chats then box.chats[key].messages else []
  }

  /** `create_chat`: a new, empty thread of the sorted pair under the
      pair's key; a thread already there is replaced and keeps its place
      in the iteration order. */
  function Create(box: Store, a: string, b: string): (r: Store)
    ensures r.chats.Keys == box.chats.Keys + {ChatKey(a, b)}
    ensures r.chats[ChatKey(a, b)] == NewChat(SortedPair(a, b), ChatType(a, b))
    ensures forall k :: k in box.chats && k != ChatKey(a, b) ==> r.chats[k] == box.chats[k]
    ensures r.order == if ChatKey(a, b) in box.chats then box.order else box.order + [ChatKey(a, b)]
    ensures r.clock == box.clock
  {
    var key := ChatKey(a, b);
    Store(box.chats[key := NewChat(SortedPair(a, b), ChatType(a, b))],
          if key in box.chats then box.order else box.order + [key],
          box.clock)
  }

  /** The message an accepted send adds. */
  function Stamped(box: Store, from: string, to: string, content: string, iteration: int, messageType: string): ChatMessage
  {
    ChatMessage(from, to, content, box.clock, iteration, messageType)
  }

  /** `send_message`: a send the access table rejects changes nothing. An
      accepted one creates the pair's thread if it is missing and then
      appends one message, stamped with the clock and the round, to that
      thread and to no other. */
  function Post(box: Store, from: string, to: string, content: string, iteration: int, messageType: string): (r: Store)
    ensures !CanCommunicate(from, to) ==> r == box
    ensures CanCommunicate(from, to) ==>
      var key := ChatKey(from, to);
      r.clock == box.clock + 1 &&
      r.chats.Keys == box.chats.Keys + {key} &&
      r.chats[key].messages == ThreadAt(box, key) + [Stamped(box, from, to, content, iteration, messageType)] &&
      r.chats[key].lastActivity == Some(box.clock) &&
      (key in box.chats ==> r.chats[key].participants == box.chats[key].participants &&
                            r.chats[key].chatType == box.chats[key].chatType) &&
      (key !in box.chats ==> r.chats[key].participants == SortedPair(from, to) &&
                             r.chats[key].chatType == ChatType(from, to)) &&
      (forall k :: k in box.chats && k != key ==> r.chats[k] == box.chats[k]) &&
      r.order == if key in box.chats then box.order else box.order + [key]
  {
    if !CanCommunicate(from, to) then box
    else Append(Ready(box, from, to), ChatKey(from, to), Stamped(box, from, to, content, iteration, messageType))
  }

  /** The store with a thread for the pair, created if it was missing. */
  function Ready(box: Store, a: string, b: string): Store
  {
    if ChatKey(a, b) in box.chats then box else Create(box, a, b)
  }

  /** `m` added to the thread under `key`, and one clock tick. */
  function Append(box: Store, key: string, m: ChatMessage): Store
    requires key in box.chats
  {
    Store(box.chats[key := box.chats[key].AddMessage(m)], box.order, box.clock + 1)
  }

  /** A sequence of sends from one agent, in order. */
  function PostAll(box: Store, from: string, msgs: seq<AgentMessage>, iteration: int, messageType: string): Store
    decreases |msgs|
  {
    if msgs == [] then box
    else
      PostAll(Post(box, from, msgs[0].toAgent, msgs[0].content, iteration, messageType),
              from, msgs[1..], iteration, messageType)
  }

  /** One more send at the end of a run. */
  lemma {:induction false} PostAllSnoc(box: Store, from: string, msgs: seq<AgentMessage>, m: AgentMessage, iteration: int, messageType: string)
    ensures PostAll(box, from, msgs + [m], iteration, messageType)
         == Post(PostAll(box, from, msgs, iteration, messageType), from, m.toAgent, m.content, iteration, messageType)
    decreases |msgs|
  {
    if msgs == [] {
      assert [] + [m] == [m];
      assert [m][1..] == [];
    } else {
      assert (msgs + [m])[1..] == msgs[1..] + [m];
      PostAllSnoc(Post(box, from, msgs[0].toAgent, msgs[0].content, iteration, messageType), from, msgs[1..], m, iteration, messageType);
    }
  }

  /** The run of the first `i + 1` sends is the run of the first `i` and
      then send `i`. */
  lemma PostAllPrefix(box: Store, from: string, msgs: seq<AgentMessage>, i: nat, iteration: int, messageType: string)
    requires i < |msgs|
    ensures PostAll(box, from, msgs[..i + 1], iteration, messageType)
         == Post(PostAll(box, from, msgs[..i], iteration, messageType), from, msgs[i].toAgent, msgs[i].content, iteration, messageType)
  {
    assert msgs[..i + 1] == msgs[..i] + [msgs[i]];
    PostAllSnoc(box, from, msgs[..i], msgs[i], iteration, messageType);
  }

  /** The number of sends in `msgs` the access table lets through. */
  function Permitted(from: string, msgs: seq<AgentMessage>): nat
  {
    if msgs == [] then 0
    else (if CanCommunicate(from, msgs[0].toAgent) then 1 else 0) + Permitted(from, msgs[1..])
  }

  // ---------------------------------------------------------------------
  // Well-formedness of the store

  /** The thread under `key` is between the sorted pair the key joins, and
      its kind follows from that pair. */
  ghost predicate PairOk(key: string, c: AgentChat)
  {
    |c.participants| == 2 && LexLe(c.participants[0], c.participants[1]) &&
    key == c.participants[0] + "_" + c.participants[1] &&
    c.chatType == ChatType(c.participants[0], c.participants[1])
  }

  /** Every message of a thread lies under its pair's key, was allowed,
      and is older than the clock; within a thread the stamps increase. */
  ghost predicate ThreadOk(key: string, t: seq<ChatMessage>, clock: nat)
  {
    StrictlyIncreasing(t) &&
    forall m :: m in t ==>
      m.timestamp < clock && ChatKey(m.fromAgent, m.toAgent) == key && CanCommunicate(m.fromAgent, m.toAgent)
  }

  ghost predicate ChatOk(key: string, c: AgentChat, clock: nat)
  {
    PairOk(key, c) && c.ActivityOk() && ThreadOk(key, c.messages, clock)
  }

  /** The iteration order lists each key exactly once. */
  ghost predicate OrderOk(box: Store)
  {
    (forall k :: k in box.chats <==> k in box.order) &&
    (forall i, j :: 0 <= i < j < |box.order| ==> box.order[i] != box.order[j])
  }

  ghost predicate StoreOk(box: Store)
  {
    OrderOk(box) && forall k :: k in box.chats ==> ChatOk(k, box.chats[k], box.clock)
  }

  lemma EmptyStoreOk(clock: nat)
    ensures StoreOk(Store(map[], [], clock))
  {
  }

  lemma ThreadOkLater(key: string, t: seq<ChatMessage>, clock: nat, later: nat)
    requires ThreadOk(key, t, clock) && clock <= later
    ensures ThreadOk(key, t, later)
  {
  }

  lemma ThreadAppendOk(key: string, t: seq<ChatMessage>, m: ChatMessage, clock: nat)
    requires ThreadOk(key, t, clock)
    requires m.timestamp == clock && ChatKey(m.fromAgent, m.toAgent) == key && CanCommunicate(m.fromAgent, m.toAgent)
    ensures ThreadOk(key, t + [m], clock + 1)
  {
    forall x | x in t + [m]
      ensures x.timestamp < clock + 1 && ChatKey(x.fromAgent, x.toAgent) == key && CanCommunicate(x.fromAgent, x.toAgent)
    {
      if x != m { assert x in t; }
    }
    forall i, j | 0 <= i < j < |t + [m]| ensures (t + [m])[i].timestamp < (t + [m])[j].timestamp {
      if j == |t| {
        assert (t + [m])[i] in t;
      } else {
        assert (t + [m])[i] == t[i] && (t + [m])[j] == t[j];
      }
    }
  }

  /** A new thread is well formed under its pair's key. */
  lemma NewChatOk(a: string, b: string, clock: nat)
    ensures ChatOk(ChatKey(a, b), NewChat(SortedPair(a, b), ChatType(a, b)), clock)
  {
  }

  lemma OrderAppendOk(box: Store, key: string, c: AgentChat)
    requires OrderOk(box) && key !in box.chats
    ensures OrderOk(Store(box.chats[key := c], box.order + [key], box.clock))
  {
    var order := box.order + [key];
    forall i, j | 0 <= i < j < |order| ensures order[i] != order[j] {
      if j == |box.order| {
        assert order[i] in box.order;
      } else {
        assert order[i] == box.order[i] && order[j] == box.order[j];
      }
    }
  }

  lemma CreateKeepsStoreOk(box: Store, a: string, b: string)
    requires StoreOk(box)
    ensures StoreOk(Create(box, a, b))
  {
    var key := ChatKey(a, b);
    var r := Create(box, a, b);
    if key !in box.chats {
      OrderAppendOk(box, key, NewChat(SortedPair(a, b), ChatType(a, b)));
    }
    forall k | k in r.chats ensures ChatOk(k, r.chats[k], r.clock) {
      if k == key { NewChatOk(a, b, r.clock); }
    }
  }

  /** Appending a stamped, allowed message to the thread of its pair and
      ticking the clock keeps the store well formed. */
  lemma AppendKeepsStoreOk(box: Store, key: string, m: ChatMessage)
    requires StoreOk(box) && key in box.chats
    requires m.timestamp == box.clock && ChatKey(m.fromAgent, m.toAgent) == key && CanCommunicate(m.fromAgent, m.toAgent)
    ensures StoreOk(Append(box, key, m))
  {
    var r := Append(box, key, m);
    forall k | k in r.chats ensures ChatOk(k, r.chats[k], r.clock) {
      if k == key {
        ThreadAppendOk(key, box.chats[key].messages, m, box.clock);
      } else {
        ThreadOkLater(k, box.chats[k].messages, box.clock, r.clock);
      }
    }
  }

  lemma PostKeepsStoreOk(box: Store, from: string, to: string, content: string, iteration: int, messageType: string)
    requires StoreOk(box)
    ensures StoreOk(Post(box, from, to, content, iteration, messageType))
  {
    if CanCommunicate(from, to) {
      CreateKeepsStoreOk(box, from, to);
      AppendKeepsStoreOk(Ready(box, from, to), ChatKey(from, to), Stamped(box, from, to, content, iteration, messageType));
    }
  }

  lemma {:induction false} PostAllKeepsStoreOk(box: Store, from: string, msgs: seq<AgentMessage>, iteration: int, messageType: string)
    requires StoreOk(box)
    ensures StoreOk(PostAll(box, from, msgs, iteration, messageType))
    decreases |msgs|
  {
    if msgs != [] {
      PostKeepsStoreOk(box, from, msgs[0].toAgent, msgs[0].content, iteration, messageType);
      PostAllKeepsStoreOk(Post(box, from, msgs[0].toAgent, msgs[0].content, iteration, messageType),
                          from, msgs[1..], iteration, messageType);
    }
  }

  /** Every thread is between registered agents: all threads a run
      creates come from accepted sends. */
  ghost predicate PairsRegistered(box: Store)
  {
    forall k, p :: k in box.chats && p in box.chats[k].participants ==> AgentNamed(p).Some?
  }

  lemma AllowedAreRegistered(from: string, to: string)
    requires CanCommunicate(from, to)
    ensures AgentNamed(from).Some? && AgentNamed(to).Some?
  {
    if AgentNamed(from).None? || AgentNamed(to).None? {
      UnregisteredCannotTalk(from, to);
    }
  }

  lemma PostKeepsPairsRegistered(box: Store, from: string, to: string, content: string, iteration: int, messageType: string)
    requires PairsRegistered(box)
    ensures PairsRegistered(Post(box, from, to, content, iteration, messageType))
  {
    if CanCommunicate(from, to) {
      AllowedAreRegistered(from, to);
      var r := Post(box, from, to, content, iteration, messageType);
      var key := ChatKey(from, to);
      forall k, p | k in r.chats && p in r.chats[k].participants ensures AgentNamed(p).Some? {
        if k == key && key !in box.chats {
          assert p == from || p == to;
        } else {
          assert p in box.chats[k].participants;
        }
      }
    }
  }

  /** The thread under a registered pair's key, in a well-formed store,
      is that pair's thread. */
  lemma KeyedThreadIsPair(box: Store, a: string, b: string)
    requires StoreOk(box) && PairsRegistered(box) && ChatKey(a, b) in box.chats
    requires AgentNamed(a).Some? && AgentNamed(b).Some?
    ensures box.chats[ChatKey(a, b)].participants == SortedPair(a, b)
  {
    var c := box.chats[ChatKey(a, b)];
    var p := SortedPair(a, b);
    assert ChatOk(ChatKey(a, b), c, box.clock);
    assert c.participants[0] in c.participants;
    JoinInjective(c.participants[0], c.participants[1], p[0], p[1]);
  }

  /** An accepted send reaches its recipient: afterwards the message is
      among the recipient's messages of that round (and of all rounds). */
  lemma PostDelivers(box: Store, from: string, to: string, content: string, iteration: int, messageType: string)
    requires StoreOk(box) && PairsRegistered(box) && CanCommunicate(from, to)
    ensures var r := Post(box, from, to, content, iteration, messageType);
      var m := Stamped(box, from, to, content, iteration, messageType);
      OrderOk(r) && m in Inbox(r, r.order, to, Some(iteration)) && m in Inbox(r, r.order, to, None)
  {
    var r := Post(box, from, to, content, iteration, messageType);
    var m := Stamped(box, from, to, content, iteration, messageType);
    var key := ChatKey(from, to);
    PostKeepsStoreOk(box, from, to, content, iteration, messageType);
    AllowedAreRegistered(from, to);
    if key in box.chats {
      KeyedThreadIsPair(box, from, to);
    }
    assert to in r.chats[key].participants;
    assert m in r.chats[key].messages;
    assert key in r.order;
    assert InboxOf(r.chats[key], to, Some(iteration), m) && InboxOf(r.chats[key], to, None, m);
  }

  // ---------------------------------------------------------------------
  // Properties of a run of sends

  /** `s` is a prefix of `t`. */
  ghost predicate IsPrefix(s: seq<ChatMessage>, t: seq<ChatMessage>)
  {
    |s| <= |t| && t[..|s|] == s
  }

  ghost predicate Grows(before: Store, after: Store)
  {
    before.clock <= after.clock &&
    forall k :: k in before.chats ==> k in after.chats && IsPrefix(before.chats[k].messages, after.chats[k].messages)
  }

  /** Threads are append-only: sends never remove or rewrite a message. */
  lemma {:induction false} PostAllGrows(box: Store, from: string, msgs: seq<AgentMessage>, iteration: int, messageType: string)
    ensures Grows(box, PostAll(box, from, msgs, iteration, messageType))
    decreases |msgs|
  {
    if msgs != [] {
      var mid := Post(box, from, msgs[0].toAgent, msgs[0].content, iteration, messageType);
      PostAllGrows(mid, from, msgs[1..], iteration, messageType);
      var r := PostAll(mid, from, msgs[1..], iteration, messageType);
      forall k | k in box.chats ensures k in r.chats && IsPrefix(box.chats[k].messages, r.chats[k].messages) {
        var b, c, e := box.chats[k].messages, mid.chats[k].messages, r.chats[k].messages;
        assert IsPrefix(b, c);
        assert IsPrefix(c, e);
        assert e[..|b|] == c[..|b|];
      }
    }
  }

  /** Exactly one clock tick per permitted send; rejected sends leave no
      trace. */
  lemma {:induction false} PostAllTicks(box: Store, from: string, msgs: seq<AgentMessage>, iteration: int, messageType: string)
    ensures PostAll(box, from, msgs, iteration, messageType).clock == box.clock + Permitted(from, msgs)
    decreases |msgs|
  {
    if msgs != [] {
      PostAllTicks(Post(box, from, msgs[0].toAgent, msgs[0].content, iteration, messageType),
                   from, msgs[1..], iteration, messageType);
    }
  }

  /** A message a run of sends may add: from the sender, to an allowed
      recipient, of the given round and type, carrying one of the requested
      bodies to its requested recipient. */
  ghost predicate AddedBy(m: ChatMessage, from: string, msgs: seq<AgentMessage>, iteration: int, messageType: string)
  {
    m.fromAgent == from && CanCommunicate(from, m.toAgent) &&
    m.iteration == iteration && m.messageType == messageType &&
    AgentMessage(m.toAgent, m.content) in msgs
  }

  ghost predicate OnlyAdds(before: Store, after: Store, from: string, msgs: seq<AgentMessage>, iteration: int, messageType: string)
  {
    forall k, i ::
      (k in after.chats && 0 <= i < |after.chats[k].messages| &&
       (k !in before.chats || |before.chats[k].messages| <= i))
      ==> AddedBy(after.chats[k].messages[i], from, msgs, iteration, messageType)
  }

  lemma {:induction false} PostAllOnlyAdds(box: Store, from: string, msgs: seq<AgentMessage>, iteration: int, messageType: string)
    ensures OnlyAdds(box, PostAll(box, from, msgs, iteration, messageType), from, msgs, iteration, messageType)
    decreases |msgs|
  {
    if msgs != [] {
      var mid := Post(box, from, msgs[0].toAgent, msgs[0].content, iteration, messageType);
      var r := PostAll(mid, from, msgs[1..], iteration, messageType);
      PostAllOnlyAdds(mid, from, msgs[1..], iteration, messageType);
      PostAllGrows(mid, from, msgs[1..], iteration, messageType);
      forall k, i | k in r.chats && 0 <= i < |r.chats[k].messages| &&
                    (k !in box.chats || |box.chats[k].messages| <= i)
        ensures AddedBy(r.chats[k].messages[i], from, msgs, iteration, messageType)
      {
        if k in mid.chats && i < |mid.chats[k].messages| {
          // added by the first send
          assert r.chats[k].messages[i] == mid.chats[k].messages[i];
          assert CanCommunicate(from, msgs[0].toAgent) && k == ChatKey(from, msgs[0].toAgent) by {
            if !CanCommunicate(from, msgs[0].toAgent) || k != ChatKey(from, msgs[0].toAgent) {
              assert false;
            }
          }
          assert msgs[0] == AgentMessage(msgs[0].toAgent, msgs[0].content);
        } else {
          assert AddedBy(r.chats[k].messages[i], from, msgs[1..], iteration, messageType);
          assert forall x :: x in msgs[1..] ==> x in msgs;
        }
      }
    }
  }

  // ---------------------------------------------------------------------
  // Queries over the threads, taken in iteration order

  /** The keys among `keys` whose thread has `name` as a participant. */
  function Involving(box: Store, keys: seq<string>, name: string): (r: seq<string>)
    requires forall k :: k in keys ==> k in box.chats
    ensures forall k :: k in r <==> k in keys && name in box.chats[k].participants
  {
    if keys == [] then []
    else
      var last := keys[|keys| - 1];
      var r := Involving(box, keys[..|keys| - 1], name) + (if name in box.chats[last].participants then [last] else []);
      assert forall k :: k in keys <==> k in keys[..|keys| - 1] || k == last;
      r
  }

  /** `Involving` distributes over concatenation of the key list, so the
      picked keys keep the order they are listed in. */
  lemma {:induction false} InvolvingAppend(box: Store, a: seq<string>, b: seq<string>, name: string)
    requires forall k :: k in a ==> k in box.chats
    requires forall k :: k in b ==> k in box.chats
    ensures Involving(box, a + b, name) == Involving(box, a, name) + Involving(box, b, name)
  {
    if b == [] {
      assert a + b == a;
    } else {
      var init, last := b[..|b| - 1], b[|b| - 1];
      assert a + b == (a + init) + [last] && b == init + [last];
      InvolvingAppend(box, a, init, name);
      InvolvingSnoc(box, a + init, last, name);
      InvolvingSnoc(box, init, last, name);
      ConcatAssoc(Involving(box, a, name), Involving(box, init, name),
        if name in box.chats[last].participants then [last] else []);
    }
  }

  lemma InvolvingSnoc(box: Store, ks: seq<string>, k: string, name: string)
    requires forall k :: k in ks ==> k in box.chats
    requires k in box.chats
    ensures Involving(box, ks + [k], name) == Involving(box, ks, name) + (if name in box.chats[k].participants then [k] else [])
  {
    assert (ks + [k])[..|ks|] == ks;
  }


  /** Each listed key is picked as often as it is listed when its thread
      has `name`, and never otherwise. */
  lemma {:induction false} InvolvingCount(box: Store, keys: seq<string>, name: string)
    requires forall k :: k in keys ==> k in box.chats
    ensures forall k ::
      multiset(Involving(box, keys, name))[k] ==
        (if k in box.chats && name in box.chats[k].participants then multiset(keys)[k] else 0)
  {
    if keys != [] {
      var init := keys[..|keys| - 1];
      assert keys == init + [keys[|keys| - 1]];
      InvolvingCount(box, init, name);
    }
  }

  /** The threads listed by the keys `Involving` picks are exactly the
      threads `name` takes part in. */
  lemma InvolvingCovers(box: Store, name: string, r: seq<AgentChat>)
    requires OrderOk(box)
    requires var ks := Involving(box, box.order, name);
      |r| == |ks| && forall i :: 0 <= i < |r| ==> r[i] == box.chats[ks[i]]
    ensures forall c :: c in r <==> c in box.chats.Values && name in c.participants
  {
    var ks := Involving(box, box.order, name);
    forall c | c in box.chats.Values && name in c.participants ensures c in r {
      var k :| k in box.chats && box.chats[k] == c;
      var j :| 0 <= j < |ks| && ks[j] == k;
      assert r[j] == c;
    }
  }

  /** `m` is a message to `name` in a thread `name` takes part in, of the
      given round if one is given. */
  ghost predicate InboxOf(c: AgentChat, name: string, iteration: Option<int>, m: ChatMessage)
  {
    name in c.participants && m in c.messages && m.toAgent == name &&
    (iteration.None? || m.iteration == iteration.value)
  }

  /** What one thread contributes to `get_messages_for_agent`. */
  function ThreadInbox(c: AgentChat, name: string, iteration: Option<int>): (r: seq<ChatMessage>)
    ensures forall m :: m in r <==> InboxOf(c, name, iteration, m)
  {
    if name !in c.participants then []
    else
      var ms := if iteration.Some? then c.MessagesForIteration(iteration.value) else c.messages;
      Where(ms, (m: ChatMessage) => m.toAgent == name)
  }

  /** A message occurs in one thread's contribution as often as in the
      thread when it is addressed to a participant `name` (in the given
      round, if one is given), and not at all otherwise. */
  lemma ThreadInboxCount(c: AgentChat, name: string, iteration: Option<int>)
    ensures forall m ::
      multiset(ThreadInbox(c, name, iteration))[m] ==
        (if name in c.participants && m.toAgent == name && (iteration.None? || m.iteration == iteration.value)
         then multiset(c.messages)[m] else 0)
  {
    if name in c.participants {
      var ms := if iteration.Some? then c.MessagesForIteration(iteration.value) else c.messages;
      WhereCount(ms, (m: ChatMessage) => m.toAgent == name);
    }
  }

  /** How many times `m` occurs in the threads of `keys`, counting only the
      threads `name` takes part in when a name is given. */
  ghost function Occurrences(box: Store, keys: seq<string>, name: Option<string>, m: ChatMessage): nat
    requires forall k :: k in keys ==> k in box.chats
  {
    if keys == [] then 0
    else
      var c := box.chats[keys[|keys| - 1]];
      Occurrences(box, keys[..|keys| - 1], name, m) +
      (if name.None? || name.value in c.participants then multiset(c.messages)[m] else 0)
  }

  /** The threads' contributions, concatenated in the order of `keys`. */
  function Inbox(box: Store, keys: seq<string>, name: string, iteration: Option<int>): (r: seq<ChatMessage>)
    requires forall k :: k in keys ==> k in box.chats
    ensures forall m :: m in r <==> exists k :: k in keys && InboxOf(box.chats[k], name, iteration, m)
  {
    if keys == [] then []
    else
      var last := keys[|keys| - 1];
      var r := Inbox(box, keys[..|keys| - 1], name, iteration) + ThreadInbox(box.chats[last], name, iteration);
      assert forall k :: k in keys <==> k in keys[..|keys| - 1] || k == last;
      r
  }

  /** The messages of round `iteration` in the threads of `keys`. */
  function RoundTraffic(box: Store, keys: seq<string>, iteration: int): (r: seq<ChatMessage>)
    requires forall k :: k in keys ==> k in box.chats
    ensures forall m :: m in r <==> exists k :: k in keys && m in box.chats[k].messages && m.iteration == iteration
  {
    if keys == [] then []
    else
      var last := keys[|keys| - 1];
      var r := RoundTraffic(box, keys[..|keys| - 1], iteration) + box.chats[last].MessagesForIteration(iteration);
      assert forall k :: k in keys <==> k in keys[..|keys| - 1] || k == last;
      r
  }

  /** `Inbox` distributes over concatenation of the key list: the threads'
      contributions follow the order the keys are listed in. */
  lemma {:induction false} InboxAppend(box: Store, a: seq<string>, b: seq<string>, name: string, iteration: Option<int>)
    requires forall k :: k in a ==> k in box.chats
    requires forall k :: k in b ==> k in box.chats
    ensures Inbox(box, a + b, name, iteration) == Inbox(box, a, name, iteration) + Inbox(box, b, name, iteration)
  {
    if b == [] {
      assert a + b == a;
    } else {
      var init, last := b[..|b| - 1], b[|b| - 1];
      assert a + b == (a + init) + [last] && b == init + [last];
      InboxAppend(box, a, init, name, iteration);
      InboxSnoc(box, a + init, last, name, iteration);
      InboxSnoc(box, init, last, name, iteration);
      var x, y, t := Inbox(box, a, name, iteration), Inbox(box, init, name, iteration), ThreadInbox(box.chats[last], name, iteration);
      ConcatAssoc(x, y, t);
    }
  }

  lemma InboxSnoc(box: Store, ks: seq<string>, k: string, name: string, iteration: Option<int>)
    requires forall k :: k in ks ==> k in box.chats
    requires k in box.chats
    ensures Inbox(box, ks + [k], name, iteration) == Inbox(box, ks, name, iteration) + ThreadInbox(box.chats[k], name, iteration)
  {
    assert (ks + [k])[..|ks|] == ks;
  }


  /** A message occurs in the inbox once for each time it occurs in a
      thread `name` takes part in, when it is addressed to `name` (in the
      given round, if one is given); otherwise not at all. */
  lemma {:induction false} InboxCount(box: Store, keys: seq<string>, name: string, iteration: Option<int>)
    requires forall k :: k in keys ==> k in box.chats
    ensures forall m ::
      multiset(Inbox(box, keys, name, iteration))[m] ==
        (if m.toAgent == name && (iteration.None? || m.iteration == iteration.value)
         then Occurrences(box, keys, Some(name), m) else 0)
  {
    if keys != [] {
      InboxCount(box, keys[..|keys| - 1], name, iteration);
      ThreadInboxCount(box.chats[keys[|keys| - 1]], name, iteration);
    }
  }

  /** `RoundTraffic` distributes over concatenation of the key list. */
  lemma {:induction false} RoundTrafficAppend(box: Store, a: seq<string>, b: seq<string>, iteration: int)
    requires forall k :: k in a ==> k in box.chats
    requires forall k :: k in b ==> k in box.chats
    ensures RoundTraffic(box, a + b, iteration) == RoundTraffic(box, a, iteration) + RoundTraffic(box, b, iteration)
  {
    if b == [] {
      assert a + b == a;
    } else {
      var init, last := b[..|b| - 1], b[|b| - 1];
      assert a + b == (a + init) + [last] && b == init + [last];
      RoundTrafficAppend(box, a, init, iteration);
      RoundTrafficSnoc(box, a + init, last, iteration);
      RoundTrafficSnoc(box, init, last, iteration);
      var x, y, t := RoundTraffic(box, a, iteration), RoundTraffic(box, init, iteration), box.chats[last].MessagesForIteration(iteration);
      ConcatAssoc(x, y, t);
    }
  }

  lemma RoundTrafficSnoc(box: Store, ks: seq<string>, k: string, iteration: int)
    requires forall k :: k in ks ==> k in box.chats
    requires k in box.chats
    ensures RoundTraffic(box, ks + [k], iteration) == RoundTraffic(box, ks, iteration) + box.chats[k].MessagesForIteration(iteration)
  {
    assert (ks + [k])[..|ks|] == ks;
  }


  /** A message of round `iteration` occurs in the round's traffic once for
      each time it occurs in the threads of `keys`; other messages not at
      all. So the traffic's length is the number of that round's messages
      across those threads. */
  lemma {:induction false} RoundTrafficCount(box: Store, keys: seq<string>, iteration: int)
    requires forall k :: k in keys ==> k in box.chats
    ensures forall m ::
      multiset(RoundTraffic(box, keys, iteration))[m] ==
        (if m.iteration == iteration then Occurrences(box, keys, None, m) else 0)
  {
    if keys != [] {
      RoundTrafficCount(box, keys[..|keys| - 1], iteration);
    }
  }
}
