/** Shared vocabulary of the design loop: the fixed agent roster, the
    structured outputs the reasoning collaborator returns, and the few
    Python primitives (string ordering, `s[start:]`, `max` over dict keys,
    decimal formatting) that the orchestration code relies on. */
module Types {

  datatype Option<T> = None | Some(value: T)

  /** The six registered agents: one coordinator and five specialists. */
  datatype Agent = Coordinator | MissionPlanner | Aerodynamics | Propulsion | Structures | Manufacturing

  /** The name each agent is registered under. */
  function Name(a: Agent): string
  {
    match a
    case Coordinator => "coordinator"
    case MissionPlanner => "mission_planner"
    case Aerodynamics => "aerodynamics"
    case Propulsion => "propulsion"
    case Structures => "structures"
    case Manufacturing => "manufacturing"
  }

  /** The agent registered under `s`, if there is one. */
  function AgentNamed(s: string): (r: Option<Agent>)
    ensures r.Some? ==> Name(r.value) == s
    ensures r.None? ==> forall a: Agent :: Name(a) != s
  {
    if s == "coordinator" then Some(Coordinator)
    else if s == "mission_planner" then Some(MissionPlanner)
    else if s == "aerodynamics" then Some(Aerodynamics)
    else if s == "propulsion" then Some(Propulsion)
    else if s == "structures" then Some(Structures)
    else if s == "manufacturing" then Some(Manufacturing)
    else None
  }

  /** The specialists in the order the round aggregator lists them. */
  const SpecialistOrder: seq<Agent> := [MissionPlanner, Aerodynamics, Propulsion, Structures, Manufacturing]

  predicate IsSpecialist(a: Agent) { a != Coordinator }

  /** The specialist order lists every specialist once and the coordinator
      not at all. */
  lemma SpecialistsListedOnce()
    ensures forall a :: multiset(SpecialistOrder)[a] == if IsSpecialist(a) then 1 else 0
  {
    forall a: Agent ensures multiset(SpecialistOrder)[a] == if IsSpecialist(a) then 1 else 0 {
      assert SpecialistOrder == [MissionPlanner] + [Aerodynamics] + [Propulsion] + [Structures] + [Manufacturing];
    }
  }

  /** A message an agent asks to send: recipient name and body. */
  datatype AgentMessage = AgentMessage(toAgent: string, content: string)

  /** A specialist's structured output. `fields` stands for every field of
      the output record other than `iteration` and `messages`; those are
      what the update-or-maintain classification compares. */
  datatype Output = Output(fields: map<string, string>, iteration: int, messages: seq<AgentMessage>)

  datatype AgentTask = AgentTask(agentName: string, taskDescription: string)

  /** The coordinator's structured decision. */
  datatype CoordinatorOutput = CoordinatorOutput(
    projectComplete: bool,
    completionReason: string,
    agentTasks: seq<AgentTask>,
    messages: seq<AgentMessage>,
    iteration: int)

  /** A latest output as handed to an agent about one of its peers: the
      peers include the coordinator, whose outputs have their own type. */
  datatype PeerOutput = SpecialistOutput(output: Output) | CoordinatorDecision(decision: CoordinatorOutput)

  // ---------------------------------------------------------------------
  // Python's `max(d.keys())` on a dict keyed by iteration

  lemma NonEmptyHasElement<T>(s: set<T>)
    requires s != {}
    ensures exists x :: x in s
  {
    if forall x :: x !in s { assert false; }
  }

  /** Some element of a non-empty set. */
  lemma ElementOf<T>(s: set<T>) returns (x: T)
    requires s != {}
    ensures x in s
  {
    NonEmptyHasElement(s);
    x :| x in s;
  }

  lemma {:induction false} MaximumExists(s: set<int>)
    requires s != {}
    ensures exists k :: k in s && forall j :: j in s ==> j <= k
  {
    var x := ElementOf(s);
    if s != {x} {
      var r := s - {x};
      MaximumExists(r);
      var y :| y in r && forall j :: j in r ==> j <= y;
      var k := if x > y then x else y;
      forall j | j in s ensures j <= k {
        if j != x { assert j in r; }
      }
    } else {
      assert forall j :: j in s ==> j <= x;
    }
  }

  /** The largest key of a non-empty map. */
  function MaxKey<V>(m: map<int, V>): (k: int)
    requires m != map[]
    ensures k in m && forall j :: j in m ==> j <= k
  {
    assert m.Keys != {} by {
      if m.Keys == {} { assert false; }
    }
    MaximumExists(m.Keys);
    var k :| k in m && forall j :: j in m ==> j <= k; k
  }

  /** The value stored under the largest key: an agent's latest output. */
  function Latest<V>(m: map<int, V>): (v: V)
    requires m != map[]
    ensures exists k :: k in m && m[k] == v && forall j :: j in m ==> j <= k
  {
    m[MaxKey(m)]
  }

  // ---------------------------------------------------------------------
  // Counters kept in a dict

  /** The value of a counter, an absent key reading as 0 (`d.get(k, 0)`). */
  function CountOf<K>(counts: map<K, int>, key: K): int
  {
    if key in counts then counts[key] else 0
  }

  /** `d[k] = d.get(k, 0) + 1`: exactly the named counter goes up by one. */
  function Bumped<K>(counts: map<K, int>, key: K): (r: map<K, int>)
    ensures r.Keys == counts.Keys + {key}
    ensures r[key] == CountOf(counts, key) + 1
    ensures forall k :: k in counts && k != key ==> r[k] == counts[k]
  {
    counts[key := CountOf(counts, key) + 1]
  }

  // ---------------------------------------------------------------------
  // Python's ordering of `str` values: lexicographic by code point, a
  // proper prefix sorting first.

  predicate LexLe(a: string, b: string)
  {
    |a| == 0 || (|b| > 0 && (a[0] < b[0] || (a[0] == b[0] && LexLe(a[1..], b[1..]))))
  }

  lemma {:induction false} LexTotal(a: string, b: string)
    ensures LexLe(a, b) || LexLe(b, a)
  {
    if |a| > 0 && |b| > 0 && a[0] == b[0] {
      LexTotal(a[1..], b[1..]);
    }
  }

  lemma {:induction false} LexAntisymmetric(a: string, b: string)
    requires LexLe(a, b) && LexLe(b, a)
    ensures a == b
  {
    if |a| > 0 {
      LexAntisymmetric(a[1..], b[1..]);
      assert a == [a[0]] + a[1..];
      assert b == [b[0]] + b[1..];
    }
  }

  // ---------------------------------------------------------------------
  // Python's `s[start:]`

  /** Python's `s[start:]`: a negative start counts from the end, and the
      start is clamped into the sequence. */
  function SliceFrom<T>(s: seq<T>, start: int): (r: seq<T>)
    ensures |r| <= |s| && r == s[|s| - |r|..]
    ensures 0 <= start ==> |r| == (if start <= |s| then |s| - start else 0)
    ensures start < 0 ==> |r| == (if -start <= |s| then -start else |s|)
  {
    var i := if start < 0 then (if |s| + start < 0 then 0 else |s| + start)
             else (if start > |s| then |s| else start);
    s[i..]
  }

  // ---------------------------------------------------------------------
  // Decimal formatting of a round number, as an f-string writes it

  function DigitChar(d: nat): (c: char)
    requires d < 10
    ensures '0' <= c <= '9' && (c as int) - ('0' as int) == d
  {
    (('0' as int) + d) as char
  }

  function Decimal(n: nat): (s: string)
    ensures |s| > 0
    ensures forall i :: 0 <= i < |s| ==> '0' <= s[i] <= '9'
  {
    if n < 10 then [DigitChar(n)] else Decimal(n / 10) + [DigitChar(n % 10)]
  }

  /** An integer as an f-string writes it: a minus sign before the digits
      of a negative one. */
  function IntString(i: int): (s: string)
    ensures |s| > 0
    ensures i >= 0 ==> s == Decimal(i)
    ensures i < 0 ==> s == "-" + Decimal(-i)
  {
    if i < 0 then "-" + Decimal(-i) else Decimal(i)
  }

  /** Reads back a string of decimal digits. */
  function ParseDecimal(s: string): nat
    requires forall i :: 0 <= i < |s| ==> '0' <= s[i] <= '9'
  {
    if |s| == 0 then 0
    else 10 * ParseDecimal(s[..|s| - 1]) + ((s[|s| - 1] as int) - ('0' as int))
  }

  /** Concatenation is associative; stated once so that proofs about long
      lists of messages need not rediscover it. */
  lemma ConcatAssoc<T>(x: seq<T>, y: seq<T>, z: seq<T>)
    ensures (x + y) + z == x + (y + z)
  {
  }

  lemma {:induction false} DecimalRoundTrip(n: nat)
    ensures ParseDecimal(Decimal(n)) == n
  {
    if n >= 10 {
      DecimalRoundTrip(n / 10);
      var s := Decimal(n);
      assert s[..|s| - 1] == Decimal(n / 10);
    }
  }
}
