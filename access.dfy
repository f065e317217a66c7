/** The fixed access table of the agent registry and the symmetric key
    under which each pair of agents shares one chat thread. */
module Access {
  import opened Types

  /** `communication_allowed` of each registered agent. */
  function Allowed(a: Agent): seq<Agent>
  {
    match a
    case Coordinator => [MissionPlanner, Aerodynamics, Propulsion, Structures, Manufacturing]
    case MissionPlanner => [Coordinator, Aerodynamics, Propulsion, Structures]
    case Aerodynamics => [Coordinator, MissionPlanner, Propulsion, Structures]
    case Propulsion => [Coordinator, MissionPlanner, Aerodynamics, Structures]
    case Structures => [Coordinator, MissionPlanner, Aerodynamics, Propulsion, Manufacturing]
    case Manufacturing => [Coordinator, Structures]
  }

  /** The allowed list as the registry stores it, by name. */
  function AllowedNames(a: Agent): (r: seq<string>)
    ensures |r| == |Allowed(a)|
    ensures forall i :: 0 <= i < |r| ==> r[i] == Name(Allowed(a)[i])
  {
    seq(|Allowed(a)|, i requires 0 <= i < |Allowed(a)| => Name(Allowed(a)[i]))
  }

  /** The registry's entries in declaration order. */
  const Roster: seq<Agent> := [Coordinator, MissionPlanner, Aerodynamics, Propulsion, Structures, Manufacturing]

  lemma RosterComplete(a: Agent)
    ensures a in Roster
  {
    match a
    case Coordinator => assert Roster[0] == a;
    case MissionPlanner => assert Roster[1] == a;
    case Aerodynamics => assert Roster[2] == a;
    case Propulsion => assert Roster[3] == a;
    case Structures => assert Roster[4] == a;
    case Manufacturing => assert Roster[5] == a;
  }

  /** A registry lookup of `from` followed by a test of its allowed list;
      a sender not in `roster` may send nothing. */
  function Permits(roster: seq<Agent>, from: string, to: string): bool
  {
    if roster == [] then false
    else if Name(roster[0]) == from then to in AllowedNames(roster[0])
    else Permits(roster[1..], from, to)
  }

  /** `_can_communicate`: the sender is looked up in the registry. */
  function CanCommunicate(from: string, to: string): bool
  {
    Permits(Roster, from, to)
  }

  lemma {:induction false} PermitsFinds(roster: seq<Agent>, from: string, to: string)
    ensures Permits(roster, from, to) <==> exists a :: a in roster && Name(a) == from && to in AllowedNames(a)
  {
    if roster != [] {
      PermitsFinds(roster[1..], from, to);
      assert forall a :: a in roster <==> a == roster[0] || a in roster[1..];
      if Name(roster[0]) == from {
        forall a | Name(a) == from ensures a == roster[0] {
          NameInjective(a, roster[0]);
        }
      }
    }
  }

  /** An unregistered sender may send nothing; a registered one may send
      exactly to the names on its list. */
  lemma CanCommunicateByName(from: string, to: string)
    ensures CanCommunicate(from, to) <==> AgentNamed(from).Some? && to in AllowedNames(AgentNamed(from).value)
  {
    PermitsFinds(Roster, from, to);
    match AgentNamed(from)
    case None =>
    case Some(b) =>
      RosterComplete(b);
      forall a | Name(a) == from ensures a == b {
        NameInjective(a, b);
      }
  }

  // ---------------------------------------------------------------------
  // The policy the table encodes, stated independently of it: the
  // coordinator talks to every specialist, the four design disciplines
  // talk among themselves, and manufacturing talks only to structures.

  predicate DesignDiscipline(a: Agent)
  {
    a == MissionPlanner || a == Aerodynamics || a == Propulsion || a == Structures
  }

  ghost predicate MayAddress(a: Agent, b: Agent)
  {
    a != b &&
    ((a == Coordinator || b == Coordinator) ||
     (DesignDiscipline(a) && DesignDiscipline(b)) ||
     (a == Structures && b == Manufacturing) ||
     (a == Manufacturing && b == Structures))
  }

  lemma NameInjective(a: Agent, b: Agent)
    requires Name(a) == Name(b)
    ensures a == b
  {
    assert AgentNamed(Name(a)) == Some(a);
    assert AgentNamed(Name(b)) == Some(b);
  }

  /** Looking up an agent's own name finds that agent. */
  lemma NamedByName(a: Agent)
    ensures AgentNamed(Name(a)) == Some(a)
  {
    match AgentNamed(Name(a))
    case None =>
    case Some(b) => NameInjective(a, b);
  }

  /** The table is exactly the policy. */
  lemma TableIsPolicy(a: Agent, b: Agent)
    ensures b in Allowed(a) <==> MayAddress(a, b)
  {
    match a
    case Coordinator =>
    case MissionPlanner =>
    case Aerodynamics =>
    case Propulsion =>
    case Structures =>
    case Manufacturing =>
  }

  lemma InAllowedNames(a: Agent, b: Agent)
    ensures Name(b) in AllowedNames(a) <==> b in Allowed(a)
  {
    if Name(b) in AllowedNames(a) {
      var i :| 0 <= i < |AllowedNames(a)| && AllowedNames(a)[i] == Name(b);
      NameInjective(Allowed(a)[i], b);
    }
    if b in Allowed(a) {
      var i :| 0 <= i < |Allowed(a)| && Allowed(a)[i] == b;
      assert AllowedNames(a)[i] == Name(b);
    }
  }

  lemma AllowedIsPolicy(a: Agent, b: Agent)
    ensures Name(b) in AllowedNames(a) <==> MayAddress(a, b)
  {
    InAllowedNames(a, b);
    TableIsPolicy(a, b);
  }

  /** `_can_communicate` holds exactly between registered agents the
      policy connects. */
  lemma CanCommunicateIsPolicy(from: string, to: string)
    ensures CanCommunicate(from, to) <==>
            exists a: Agent, b: Agent :: Name(a) == from && Name(b) == to && MayAddress(a, b)
  {
    CanCommunicateByName(from, to);
    match AgentNamed(from)
    case None =>
    case Some(a) =>
      if CanCommunicate(from, to) {
        var i :| 0 <= i < |AllowedNames(a)| && AllowedNames(a)[i] == to;
        var b := Allowed(a)[i];
        AllowedIsPolicy(a, b);
      } else {
        forall a': Agent, b: Agent | Name(a') == from && Name(b) == to
          ensures !MayAddress(a', b)
        {
          NameInjective(a, a');
          AllowedIsPolicy(a, b);
        }
      }
  }

  lemma CanCommunicateSymmetric(from: string, to: string)
    ensures CanCommunicate(from, to) <==> CanCommunicate(to, from)
  {
    CanCommunicateIsPolicy(from, to);
    CanCommunicateIsPolicy(to, from);
    if CanCommunicate(from, to) {
      var a: Agent, b: Agent :| Name(a) == from && Name(b) == to && MayAddress(a, b);
      assert MayAddress(b, a);
    }
    if CanCommunicate(to, from) {
      var a: Agent, b: Agent :| Name(a) == to && Name(b) == from && MayAddress(a, b);
      assert MayAddress(b, a);
    }
  }

  lemma NoSelfMessages(name: string)
    ensures !CanCommunicate(name, name)
  {
    CanCommunicateIsPolicy(name, name);
    if CanCommunicate(name, name) {
      var a: Agent, b: Agent :| Name(a) == name && Name(b) == name && MayAddress(a, b);
      NameInjective(a, b);
    }
  }

  lemma UnregisteredCannotTalk(from: string, to: string)
    requires AgentNamed(from).None? || AgentNamed(to).None?
    ensures !CanCommunicate(from, to)
  {
    CanCommunicateIsPolicy(from, to);
  }

  // ---------------------------------------------------------------------
  // Chat keys

  /** `sorted([a, b])`. */
  function SortedPair(a: string, b: string): (p: seq<string>)
    ensures p == [a, b] || p == [b, a]
    ensures LexLe(p[0], p[1])
  {
    LexTotal(a, b);
    if LexLe(a, b) then [a, b] else [b, a]
  }

  lemma SortedPairSymmetric(a: string, b: string)
    ensures SortedPair(a, b) == SortedPair(b, a)
  {
    if LexLe(a, b) && LexLe(b, a) {
      LexAntisymmetric(a, b);
    }
  }

  /** `"_".join(sorted([a, b]))`. */
  function ChatKey(a: string, b: string): string
  {
    var p := SortedPair(a, b);
    p[0] + "_" + p[1]
  }

  /** No two registered names share their first two letters. */
  lemma NamesDifferEarly(a: Agent, b: Agent)
    ensures |Name(a)| >= 2
    ensures Name(a)[0] == Name(b)[0] && Name(a)[1] == Name(b)[1] ==> a == b
  {
  }

  /** A key joined from a registered first name determines both halves:
      the names are told apart before the separator, so no two pairs of
      registered agents share a key. */
  lemma JoinInjective(x1: string, y1: string, x2: string, y2: string)
    requires AgentNamed(x1).Some? && AgentNamed(x2).Some?
    requires x1 + "_" + y1 == x2 + "_" + y2
    ensures x1 == x2 && y1 == y2
  {
    var a1, a2 := AgentNamed(x1).value, AgentNamed(x2).value;
    var k := x1 + "_" + y1;
    NamesDifferEarly(a1, a2);
    NamesDifferEarly(a2, a1);
    assert k[0] == x1[0] == x2[0] && k[1] == x1[1] == x2[1];
    assert y1 == k[|x1| + 1..] && y2 == k[|x2| + 1..];
  }

  /** Both directions of a pair share one thread. */
  lemma ChatKeySymmetric(a: string, b: string)
    ensures ChatKey(a, b) == ChatKey(b, a)
  {
    SortedPairSymmetric(a, b);
  }

  /** The kind of a new chat: "coordinator_to_agent" iff the coordinator is
      one of the pair. */
  function ChatType(a: string, b: string): (t: string)
    ensures t == "coordinator_to_agent" <==> (a == "coordinator" || b == "coordinator")
    ensures t != "coordinator_to_agent" ==> t == "agent_to_agent"
  {
    if a == "coordinator" || b == "coordinator" then "coordinator_to_agent" else "agent_to_agent"
  }
}
