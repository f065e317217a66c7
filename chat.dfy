/** Chat messages and the per-pair chat thread (state.py, `ChatMessage`
    and `AgentChat`). */
module Chat {
  import opened Types

  /** One message between two agents. `timestamp` is a tick of the state's
      logical clock; `iteration` is the round it was sent in. */
  datatype ChatMessage = ChatMessage(
    fromAgent: string,
    toAgent: string,
    content: string,
    timestamp: nat,
    iteration: int,
    messageType: string)

  /** A message as an agent sees it in its context: the other party and
      the body (`{"from": ..., "content": ...}` or `{"to": ..., ...}`). */
  datatype Note = Note(peer: string, content: string)

  /** `[{"from": m.from_agent, "content": m.content} for m in ms]`. */
  function SenderNotes(ms: seq<ChatMessage>): (r: seq<Note>)
    ensures |r| == |ms|
    ensures forall i :: 0 <= i < |ms| ==> r[i] == Note(ms[i].fromAgent, ms[i].content)
  {
    if ms == [] then [] else [Note(ms[0].fromAgent, ms[0].content)] + SenderNotes(ms[1..])
  }

  lemma SenderNotesAppend(a: seq<ChatMessage>, b: seq<ChatMessage>)
    ensures SenderNotes(a + b) == SenderNotes(a) + SenderNotes(b)
  {
    var l, r := SenderNotes(a + b), SenderNotes(a) + SenderNotes(b);
    assert |l| == |r|;
    forall i | 0 <= i < |l| ensures l[i] == r[i] {
      if i < |a| { assert (a + b)[i] == a[i]; } else { assert (a + b)[i] == b[i - |a|]; }
    }
  }

  /** The subsequence of `ms` whose elements satisfy `p`: a list
      comprehension with a filter. */
  function Where(ms: seq<ChatMessage>, p: ChatMessage -> bool): (r: seq<ChatMessage>)
    ensures |r| <= |ms|
    ensures forall m :: m in r <==> m in ms && p(m)
  {
    if ms == [] then [] else (if p(ms[0]) then [ms[0]] else []) + Where(ms[1..], p)
  }

  /** Each message occurs in the filtered list exactly as often as in `ms`
      when it satisfies `p`, and not at all otherwise. */
  lemma {:induction false} WhereCount(ms: seq<ChatMessage>, p: ChatMessage -> bool)
    ensures forall m :: multiset(Where(ms, p))[m] == if p(m) then multiset(ms)[m] else 0
  {
    if ms != [] {
      assert ms == [ms[0]] + ms[1..];
      WhereCount(ms[1..], p);
    }
  }

  /** Filtering distributes over concatenation: the kept messages stay in
      the order of the list they came from. */
  lemma {:induction false} WhereAppend(a: seq<ChatMessage>, b: seq<ChatMessage>, p: ChatMessage -> bool)
    ensures Where(a + b, p) == Where(a, p) + Where(b, p)
  {
    if a == [] {
      assert a + b == b;
    } else {
      var ab := a + b;
      assert ab[0] == a[0] && ab[1..] == a[1..] + b;
      WhereAppend(a[1..], b, p);
      var head := if p(a[0]) then [a[0]] else [];
      assert Where(ab, p) == head + Where(a[1..] + b, p);
      assert Where(a, p) == head + Where(a[1..], p);
    }
  }

  lemma WhereSnoc(ms: seq<ChatMessage>, m: ChatMessage, p: ChatMessage -> bool)
    ensures Where(ms + [m], p) == Where(ms, p) + (if p(m) then [m] else [])
  {
    WhereAppend(ms, [m], p);
    assert [m][1..] == [];
  }

  /** `[{"to": m.to_agent, "content": m.content} for m in ms]`. */
  function RecipientNotes(ms: seq<ChatMessage>): (r: seq<Note>)
    ensures |r| == |ms|
    ensures forall i :: 0 <= i < |ms| ==> r[i] == Note(ms[i].toAgent, ms[i].content)
  {
    if ms == [] then [] else [Note(ms[0].toAgent, ms[0].content)] + RecipientNotes(ms[1..])
  }
  lemma RecipientNotesAppend(a: seq<ChatMessage>, b: seq<ChatMessage>)
    ensures RecipientNotes(a + b) == RecipientNotes(a) + RecipientNotes(b)
  {
    var l, r := RecipientNotes(a + b), RecipientNotes(a) + RecipientNotes(b);
    assert |l| == |r|;
    forall i | 0 <= i < |l| ensures l[i] == r[i] {
      if i < |a| { assert (a + b)[i] == a[i]; } else { assert (a + b)[i] == b[i - |a|]; }
    }
  }


  lemma {:induction false} WhereKeepsOrder(ms: seq<ChatMessage>, p: ChatMessage -> bool)
    requires NonDecreasing(ms)
    ensures NonDecreasing(Where(ms, p))
  {
    if ms != [] {
      WhereKeepsOrder(ms[1..], p);
      var rest := Where(ms[1..], p);
      forall m | m in rest ensures ms[0].timestamp <= m.timestamp {
        var j :| 0 <= j < |ms[1..]| && ms[1..][j] == m;
        assert ms[j + 1] == m;
      }
    }
  }

  // ---------------------------------------------------------------------
  // Ordering by timestamp (Python's stable `sorted(..., key=timestamp)`)

  ghost predicate NonDecreasing(ms: seq<ChatMessage>)
  {
    forall i, j :: 0 <= i < j < |ms| ==> ms[i].timestamp <= ms[j].timestamp
  }

  ghost predicate StrictlyIncreasing(ms: seq<ChatMessage>)
  {
    forall i, j :: 0 <= i < j < |ms| ==> ms[i].timestamp < ms[j].timestamp
  }

  /** Inserts `m` into a sequence before the first element that is not
      earlier than it. */
  function InsertByTime(m: ChatMessage, s: seq<ChatMessage>): seq<ChatMessage>
  {
    if s == [] || m.timestamp <= s[0].timestamp then [m] + s
    else [s[0]] + InsertByTime(m, s[1..])
  }

  /** Insertion into a time-ordered sequence keeps it in time order and
      adds exactly `m`. */
  lemma {:induction false} InsertByTimeSorted(m: ChatMessage, s: seq<ChatMessage>)
    requires NonDecreasing(s)
    ensures NonDecreasing(InsertByTime(m, s))
    ensures multiset(InsertByTime(m, s)) == multiset(s) + multiset{m}
  {
    if s == [] || m.timestamp <= s[0].timestamp {
      ConsNonDecreasing(m, s);
    } else {
      SuffixNonDecreasing(s, 1);
      InsertByTimeSorted(m, s[1..]);
      var rest := InsertByTime(m, s[1..]);
      assert s == [s[0]] + s[1..];
      forall y | y in rest ensures s[0].timestamp <= y.timestamp {
        assert y in multiset(rest);
        assert y == m || y in multiset(s[1..]);
        if y != m {
          var j :| 0 <= j < |s[1..]| && s[1..][j] == y;
          assert s[j + 1] == y;
        }
      }
      ConsNonDecreasing(s[0], rest);
    }
  }

  /** A message no later than any of a time-ordered sequence may go in
      front of it. */
  lemma ConsNonDecreasing(x: ChatMessage, s: seq<ChatMessage>)
    requires NonDecreasing(s) && forall y :: y in s ==> x.timestamp <= y.timestamp
    ensures NonDecreasing([x] + s)
  {
    forall i, j | 0 <= i < j < |[x] + s| ensures ([x] + s)[i].timestamp <= ([x] + s)[j].timestamp {
      assert ([x] + s)[j] == s[j - 1];
      if i > 0 {
        assert ([x] + s)[i] == s[i - 1];
      }
    }
  }

  /** A stable insertion sort by timestamp. */
  function SortByTime(s: seq<ChatMessage>): (r: seq<ChatMessage>)
    ensures NonDecreasing(r)
    ensures multiset(r) == multiset(s)
    ensures |r| == |s|
  {
    if s == [] then []
    else
      assert s == [s[0]] + s[1..];
      InsertByTimeSorted(s[0], SortByTime(s[1..]));
      InsertByTime(s[0], SortByTime(s[1..]))
  }

  /** Sorting a sequence that is already in time order changes nothing. */
  lemma {:induction false} SortOfSortedIsIdentity(s: seq<ChatMessage>)
    requires NonDecreasing(s)
    ensures SortByTime(s) == s
  {
    if s != [] {
      SortOfSortedIsIdentity(s[1..]);
      assert s == [s[0]] + s[1..];
    }
  }

  lemma SuffixNonDecreasing(s: seq<ChatMessage>, i: nat)
    requires NonDecreasing(s) && i <= |s|
    ensures NonDecreasing(s[i..])
  {
    forall a, b | 0 <= a < b < |s[i..]| ensures s[i..][a].timestamp <= s[i..][b].timestamp {
      assert s[i..][a] == s[i + a] && s[i..][b] == s[i + b];
    }
  }

  lemma SuffixSubMultiset(s: seq<ChatMessage>, i: nat)
    requires i <= |s|
    ensures multiset(s[i..]) <= multiset(s)
  {
    assert s == s[..i] + s[i..];
  }

  /** A slice of a time-ordered list is time-ordered and part of it. */
  lemma SliceFromSorted(s: seq<ChatMessage>, start: int)
    requires NonDecreasing(s)
    ensures NonDecreasing(SliceFrom(s, start))
    ensures multiset(SliceFrom(s, start)) <= multiset(s)
  {
    var k := |s| - |SliceFrom(s, start)|;
    SuffixNonDecreasing(s, k);
    SuffixSubMultiset(s, k);
  }

  /** The last `limit` messages in time order; as in Python's `[-limit:]`,
      a limit of 0 keeps every message. */
  function Recent(ms: seq<ChatMessage>, limit: int): (r: seq<ChatMessage>)
    ensures NonDecreasing(r)
    ensures multiset(r) <= multiset(ms)
    ensures 0 < limit ==> |r| == (if limit <= |ms| then limit else |ms|)
    ensures limit <= 0 ==> |r| == (if -limit <= |ms| then |ms| + limit else 0)
    ensures NonDecreasing(ms) ==> r == ms[|ms| - |r|..]
  {
    var sorted := SortByTime(ms);
    SliceFromSorted(sorted, -limit);
    assert NonDecreasing(ms) ==> sorted == ms by {
      if NonDecreasing(ms) { SortOfSortedIsIdentity(ms); }
    }
    SliceFrom(sorted, -limit)
  }

  // ---------------------------------------------------------------------

  /** The thread between two agents: its sorted pair of participants, its
      messages in the order they were added, the stamp of the last one and
      its kind. */
  datatype AgentChat = AgentChat(
    participants: seq<string>,
    messages: seq<ChatMessage>,
    lastActivity: Option<nat>,
    chatType: string)
  {
    /** `last_activity` is the stamp of the last message added, and absent
        while the thread is empty. */
    ghost predicate ActivityOk()
    {
      lastActivity == if messages == [] then None else Some(messages[|messages| - 1].timestamp)
    }

    /** `add_message`: the message goes at the end and becomes the last
        activity; participants and kind are untouched. */
    function AddMessage(m: ChatMessage): (r: AgentChat)
      ensures r.messages == messages + [m] && r.messages[|r.messages| - 1] == m
      ensures r.participants == participants && r.chatType == chatType
      ensures r.ActivityOk() && r.lastActivity == Some(m.timestamp)
    {
      AgentChat(participants, messages + [m], Some(m.timestamp), chatType)
    }

    function MessagesForIteration(iteration: int): (r: seq<ChatMessage>)
      ensures forall m :: m in r <==> m in messages && m.iteration == iteration
      ensures forall m {:trigger multiset(r)[m]} :: multiset(r)[m] == if m.iteration == iteration then multiset(messages)[m] else 0
    {
      WhereCount(messages, (m: ChatMessage) => m.iteration == iteration);
      Where(messages, (m: ChatMessage) => m.iteration == iteration)
    }

    function MessagesFromAgent(name: string): (r: seq<ChatMessage>)
      ensures forall m :: m in r <==> m in messages && m.fromAgent == name
      ensures forall m {:trigger multiset(r)[m]} :: multiset(r)[m] == if m.fromAgent == name then multiset(messages)[m] else 0
    {
      WhereCount(messages, (m: ChatMessage) => m.fromAgent == name);
      Where(messages, (m: ChatMessage) => m.fromAgent == name)
    }

    function MessagesToAgent(name: string): (r: seq<ChatMessage>)
      ensures forall m :: m in r <==> m in messages && m.toAgent == name
      ensures forall m {:trigger multiset(r)[m]} :: multiset(r)[m] == if m.toAgent == name then multiset(messages)[m] else 0
    {
      WhereCount(messages, (m: ChatMessage) => m.toAgent == name);
      Where(messages, (m: ChatMessage) => m.toAgent == name)
    }

    /** Adding a message extends each of the three queries at its end, and
        only the queries the message matches. */
    lemma AddMessageExtendsRound(m: ChatMessage, iteration: int)
      ensures AddMessage(m).MessagesForIteration(iteration) ==
        MessagesForIteration(iteration) + (if m.iteration == iteration then [m] else [])
    {
      WhereSnoc(messages, m, (x: ChatMessage) => x.iteration == iteration);
    }

    lemma AddMessageExtendsFrom(m: ChatMessage, name: string)
      ensures AddMessage(m).MessagesFromAgent(name) ==
        MessagesFromAgent(name) + (if m.fromAgent == name then [m] else [])
    {
      WhereSnoc(messages, m, (x: ChatMessage) => x.fromAgent == name);
    }

    lemma AddMessageExtendsTo(m: ChatMessage, name: string)
      ensures AddMessage(m).MessagesToAgent(name) ==
        MessagesToAgent(name) + (if m.toAgent == name then [m] else [])
    {
      WhereSnoc(messages, m, (x: ChatMessage) => x.toAgent == name);
    }

    /** `get_recent_messages`, as `Recent` states it. */
    function RecentMessages(limit: int): (r: seq<ChatMessage>)
      ensures r == Recent(messages, limit)
    {
      SliceFrom(SortByTime(messages), -limit)
    }
  }

  /** A new, empty thread (the pydantic defaults). */
  function NewChat(participants: seq<string>, chatType: string): (c: AgentChat)
    ensures c.participants == participants && c.chatType == chatType
    ensures c.messages == [] && c.ActivityOk()
  {
    AgentChat(participants, [], None, chatType)
  }
}
