/** The structures discipline (structures.py): it needs the mission plan
    and the wing geometry before it can size the airframe. */
module StructuresAgent {
  import opened Types
  import opened BaseAgent

  /** `check_dependencies_ready`: both the mission planner and aerodynamics
      have produced at least one output. */
  function DependenciesReady(outputs: map<Agent, map<int, Output>>): (r: bool)
    requires MissionPlanner in outputs && Aerodynamics in outputs
    ensures r <==> outputs[MissionPlanner] != map[] && outputs[Aerodynamics] != map[]
  {
    |outputs[MissionPlanner]| > 0 && |outputs[Aerodynamics]| > 0
  }

  /** `get_dependency_outputs`: the latest mission plan under
      "mission_plan" and the latest aerodynamics output under
      "aerodynamics", each only when there is one. */
  function DependencyOutputs(outputs: map<Agent, map<int, Output>>): (r: map<string, Output>)
    requires MissionPlanner in outputs && Aerodynamics in outputs
    ensures r.Keys <= {"mission_plan", "aerodynamics"}
    ensures "mission_plan" in r <==> outputs[MissionPlanner] != map[]
    ensures "mission_plan" in r ==>
      exists k :: k in outputs[MissionPlanner] && r["mission_plan"] == outputs[MissionPlanner][k] && forall j :: j in outputs[MissionPlanner] ==> j <= k
    ensures "aerodynamics" in r <==> outputs[Aerodynamics] != map[]
    ensures "aerodynamics" in r ==>
      exists k :: k in outputs[Aerodynamics] && r["aerodynamics"] == outputs[Aerodynamics][k] && forall j :: j in outputs[Aerodynamics] ==> j <= k
  {
    var withPlan: map<string, Output> :=
      if outputs[MissionPlanner] != map[] then map["mission_plan" := Latest(outputs[MissionPlanner])] else map[];
    if outputs[Aerodynamics] != map[] then withPlan["aerodynamics" := Latest(outputs[Aerodynamics])] else withPlan
  }

  /** The round of the structures agent cannot start while either of its
      dependencies has produced nothing. */
  lemma BlockedWithoutDependencies(task: Option<string>, outputs: map<Agent, map<int, Output>>, current: int)
    requires MissionPlanner in outputs && Aerodynamics in outputs && Structures in outputs
    requires outputs[MissionPlanner] == map[] || outputs[Aerodynamics] == map[]
    ensures !Admitted(task, DependenciesReady(outputs), outputs[Structures], current)
  {
  }
}
