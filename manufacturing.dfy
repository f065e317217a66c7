/** The manufacturing discipline (manufacturing.py): it needs the
    structural design before it can cost the build. */
module ManufacturingAgent {
  import opened Types
  import opened BaseAgent

  /** `check_dependencies_ready`: structures has produced at least one
      output. */
  function DependenciesReady(outputs: map<Agent, map<int, Output>>): (r: bool)
    requires Structures in outputs
    ensures r <==> outputs[Structures] != map[]
  {
    |outputs[Structures]| > 0
  }

  /** `get_dependency_outputs`: the latest structures output under
      "structures", or nothing when there is none. */
  function DependencyOutputs(outputs: map<Agent, map<int, Output>>): (r: map<string, Output>)
    requires Structures in outputs
    ensures outputs[Structures] == map[] ==> r == map[]
    ensures outputs[Structures] != map[] ==> r.Keys == {"structures"}
    ensures outputs[Structures] != map[] ==>
      exists k :: k in outputs[Structures] && r["structures"] == outputs[Structures][k] && forall j :: j in outputs[Structures] ==> j <= k
  {
    if outputs[Structures] != map[] then map["structures" := Latest(outputs[Structures])] else map[]
  }

  /** The round of the manufacturing agent cannot start until structures
      has produced. */
  lemma BlockedWithoutStructures(task: Option<string>, outputs: map<Agent, map<int, Output>>, current: int)
    requires Structures in outputs && Manufacturing in outputs
    requires outputs[Structures] == map[]
    ensures !Admitted(task, DependenciesReady(outputs), outputs[Manufacturing], current)
  {
  }
}
