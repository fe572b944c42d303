/**
 * The adapter presenting a host problem with a single permutation variable as
 * a foreign permutation problem. The foreign permutation solution carries no
 * constraints, so constrained problems are refused when the adapter is built.
 */
module PermutationProblemAdapter {

  import opened JavaNumbers
  import opened Base
  import opened Host
  import opened Foreign
  import opened AdapterTypes
  import opened Errors

  /**
   * The constructor's two checks, in order: exactly one schema variable, then
   * no constraints. The variable's type is not checked here.
   */
  function New(p: Problem): (r: Result<Adapter, Error>)
    ensures r.Ok? <==> Host.NumberOfVariables(p) == 1 && Host.NumberOfConstraints(p) == 0
    ensures r.Ok? ==> r.value == PermutationAdapter(p)
    ensures Host.NumberOfVariables(p) != 1 ==> r == Err(NotSinglePermutation)
    ensures Host.NumberOfVariables(p) == 1 && Host.NumberOfConstraints(p) > 0 ==> r == Err(PermutationConstraints)
  {
    if Host.NumberOfVariables(p) != 1 then Err(NotSinglePermutation)
    else if Host.NumberOfConstraints(p) > 0 then Err(PermutationConstraints)
    else Ok(PermutationAdapter(p))
  }

  /** What a constructed adapter over a permutation schema satisfies. */
  predicate Valid(p: Problem)
  {
    && Host.NumberOfVariables(p) == 1
    && Host.NumberOfConstraints(p) == 0
    && p.template.variables[0].PermutationVar?
  }

  /** The size of the single permutation variable. */
  function Length(p: Problem): (r: nat)
    requires Valid(p)
  {
    |p.template.variables[0].elements|
  }

  /** Foreign operators size their index space by the permutation length, not by 1. */
  function NumberOfVariables(p: Problem): (n: nat)
    requires Valid(p)
    ensures n == Length(p)
  {
    Length(p)
  }

  /** The whole permutation is one mutable unit. */
  function NumberOfMutationIndices(p: Problem): (r: nat)
  {
    1
  }

  /**
   * A new foreign permutation solution of the schema's length with the
   * problem's objective count and no constraint slots; `order` is the foreign
   * library's random permutation.
   */
  function CreateSolution(p: Problem, order: seq<int>): (s: ForeignSolution)
    requires Valid(p) && IsPermutation(order, Length(p))
    ensures s.variables.IntPermutation? && s.variables.elements == order
    ensures |s.variables.elements| == Length(p)
    ensures |s.objectives| == Host.NumberOfObjectives(p) && s.constraints == []
  {
    ForeignSolution(IntPermutation(order), Zeros(Host.NumberOfObjectives(p)), [])
  }

  /**
   * A fresh host solution from the problem whose single variable holds the
   * foreign permutation, same length and same order.
   */
  function Convert(p: Problem, elements: seq<int>): (s: Solution)
    requires Valid(p) && IsPermutation(elements, Length(p))
    ensures |s.variables| == 1 && s.variables[0].PermutationVar?
    ensures |s.variables[0].elements| == |elements|
    ensures forall i :: 0 <= i < |elements| ==> s.variables[0].elements[i] == elements[i]
    ensures s.objectives == p.template.objectives && s.constraints == p.template.constraints
  {
    p.template.(variables := [PermutationVar(elements)])
  }

  /** A ten-element permutation problem reports ten variables and one mutation index. */
  lemma TenElementExample(p: Problem)
    requires p.template.variables == [PermutationVar(seq(10, i => i))] && p.template.constraints == []
    ensures New(p).Ok? && Valid(p)
    ensures NumberOfVariables(p) == 10 && Length(p) == 10 && NumberOfMutationIndices(p) == 1
  {
  }

  /** Converting a freshly created foreign solution reproduces its permutation. */
  lemma RoundTrip(p: Problem, order: seq<int>)
    requires Valid(p) && IsPermutation(order, Length(p))
    ensures Convert(p, CreateSolution(p, order).variables.elements).variables == [PermutationVar(order)]
  {
  }
}
