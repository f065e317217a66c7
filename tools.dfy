/** The global tool-call counters (tools.py): one counter per engineering
    tool, read, totalled and reset by the orchestration. The tools'
    engineering formulas are not part of this model; each call is reduced
    to the increment of its own counter. */
module Tools {

  /** The five engineering tools. */
  datatype Tool = WeightEstimator | AerodynamicCalculator | PowerRequirementCalculator | CostEstimator | FeasibilityChecker

  /** The key each counter is stored under. */
  function ToolName(t: Tool): string
  {
    match t
    case WeightEstimator => "weight_estimator"
    case AerodynamicCalculator => "aerodynamic_calculator"
    case PowerRequirementCalculator => "power_requirement_calculator"
    case CostEstimator => "cost_estimator"
    case FeasibilityChecker => "feasibility_checker"
  }

  /** The counters in the order the dict literal declares them. */
  const ToolOrder: seq<Tool> := [WeightEstimator, AerodynamicCalculator, PowerRequirementCalculator, CostEstimator, FeasibilityChecker]

  lemma ToolOrderComplete(t: Tool)
    ensures t in ToolOrder
  {
    match t
    case WeightEstimator => assert ToolOrder[0] == t;
    case AerodynamicCalculator => assert ToolOrder[1] == t;
    case PowerRequirementCalculator => assert ToolOrder[2] == t;
    case CostEstimator => assert ToolOrder[3] == t;
    case FeasibilityChecker => assert ToolOrder[4] == t;
  }

  /** The sum of the counters of `ts`. */
  function Sum(counts: map<Tool, int>, ts: seq<Tool>): int
    requires forall t :: t in ts ==> t in counts
  {
    if ts == [] then 0 else counts[ts[0]] + Sum(counts, ts[1..])
  }

  /** How often `t` occurs in `ts`. */
  function Occurrences(t: Tool, ts: seq<Tool>): nat
  {
    if ts == [] then 0 else (if ts[0] == t then 1 else 0) + Occurrences(t, ts[1..])
  }

  /** Raising one counter by one raises the sum by the number of times
      that counter is summed. */
  lemma {:induction false} SumBumped(counts: map<Tool, int>, ts: seq<Tool>, t: Tool)
    requires t in counts && forall x :: x in ts ==> x in counts
    ensures Sum(counts[t := counts[t] + 1], ts) == Sum(counts, ts) + Occurrences(t, ts)
  {
    if ts != [] {
      SumBumped(counts, ts[1..], t);
    }
  }

  lemma {:induction false} SumOfZeros(counts: map<Tool, int>, ts: seq<Tool>)
    requires forall x :: x in ts ==> x in counts && counts[x] == 0
    ensures Sum(counts, ts) == 0
  {
    if ts != [] {
      SumOfZeros(counts, ts[1..]);
    }
  }

  lemma {:induction false} SumBounds(counts: map<Tool, int>, ts: seq<Tool>)
    requires forall x :: x in ts ==> x in counts && counts[x] >= 0
    ensures Sum(counts, ts) >= 0
    ensures forall x :: x in ts ==> counts[x] <= Sum(counts, ts)
  {
    if ts != [] {
      SumBounds(counts, ts[1..]);
    }
  }

  lemma OccursOnce(t: Tool)
    ensures Occurrences(t, ToolOrder) == 1
  {
    assert ToolOrder[1..][1..][1..][1..][1..] == [];
  }

  class ToolCounters {
    var counts: map<Tool, int>

    /** Exactly the five counters, none of them negative. */
    ghost predicate Valid()
      reads this
    {
      (forall t: Tool :: t in counts) && forall t :: t in counts ==> counts[t] >= 0
    }

    /** `tool_call_counts`: the five counters, all at 0. */
    constructor ()
      ensures Valid()
      ensures forall t: Tool :: t in counts && counts[t] == 0
    {
      counts := map[WeightEstimator := 0, AerodynamicCalculator := 0, PowerRequirementCalculator := 0,
                    CostEstimator := 0, FeasibilityChecker := 0];
      new;
      forall t: Tool ensures t in counts && counts[t] == 0 {
        match t
        case WeightEstimator =>
        case AerodynamicCalculator =>
        case PowerRequirementCalculator =>
        case CostEstimator =>
        case FeasibilityChecker =>
      }
    }

    /** `get_tool_counts`: a copy of the counters. A map is a value, so
        nothing done to the copy reaches the counters. */
    function GetToolCounts(): (r: map<Tool, int>)
      reads this
      ensures r.Keys == counts.Keys && forall t :: t in r ==> r[t] == counts[t]
    {
      counts
    }

    /** `get_total_tool_calls`: the sum of all counters; it bounds each of
        them. */
    function GetTotalToolCalls(): (total: int)
      requires Valid()
      reads this
      ensures total == Sum(counts, ToolOrder)
      ensures total >= 0 && forall t :: counts[t] <= total
    {
      SumBounds(counts, ToolOrder);
      forall t ensures counts[t] <= Sum(counts, ToolOrder) {
        ToolOrderComplete(t);
      }
      Sum(counts, ToolOrder)
    }

    /** `reset_tool_counts`: every counter, in key order, is set to 0; the
        set of counters is unchanged and the total is 0. */
    method ResetToolCounts()
      requires Valid()
      modifies this
      ensures Valid() && counts.Keys == old(counts).Keys
      ensures forall t :: counts[t] == 0
      ensures GetTotalToolCalls() == 0
    {
      var i := 0;
      while i < |ToolOrder|
        invariant 0 <= i <= |ToolOrder|
        invariant Valid() && counts.Keys == old(counts).Keys
        invariant forall j :: 0 <= j < i ==> counts[ToolOrder[j]] == 0
      {
        counts := counts[ToolOrder[i] := 0];
        i := i + 1;
      }
      forall t ensures counts[t] == 0 {
        ToolOrderComplete(t);
      }
      SumOfZeros(counts, ToolOrder);
    }

    /** One call of tool `t`: its own counter goes up by exactly one, no
        other counter moves, and the total goes up by one. */
    method Record(t: Tool)
      requires Valid()
      modifies this
      ensures Valid()
      ensures counts == old(counts)[t := old(counts)[t] + 1]
      ensures GetTotalToolCalls() == old(GetTotalToolCalls()) + 1
    {
      SumBumped(counts, ToolOrder, t);
      OccursOnce(t);
      counts := counts[t := counts[t] + 1];
    }
  }
}
