/** The mission planner (mission_planner.py): the first discipline of a
    round, which depends on no other agent's output. */
module MissionPlannerAgent {
  import opened Types
  import opened BaseAgent

  /** `check_dependencies_ready`: the mission planner never waits. */
  function DependenciesReady(outputs: map<Agent, map<int, Output>>): bool
  {
    true
  }

  /** `get_dependency_outputs`: nothing. */
  function DependencyOutputs(outputs: map<Agent, map<int, Output>>): (r: map<string, Output>)
    ensures r.Keys == {}
  {
    map[]
  }

  /** With the dependency gate always open, the mission planner is admitted
      exactly when it has a non-empty task and no output in the current
      round; what its round then produces is up to the model alone. */
  lemma AdmittedByTaskAlone(task: Option<string>, outputs: map<Agent, map<int, Output>>, current: int)
    requires MissionPlanner in outputs
    ensures Admitted(task, DependenciesReady(outputs), outputs[MissionPlanner], current)
        <==> task.Some? && task.value != "" && current !in outputs[MissionPlanner]
  {
  }
}
