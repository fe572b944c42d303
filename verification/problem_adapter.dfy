/**
 * The contract common to the three encoding adapters: counts, the
 * mutation-index space, creating a foreign solution and converting one back
 * into a fresh host solution.
 */
module ProblemAdapter {

  import opened JavaNumbers
  import opened Host
  import opened Foreign
  import opened AdapterTypes
  import DoubleProblemAdapter
  import BinaryProblemAdapter
  import PermutationProblemAdapter

  /** What each adapter's constructor and casts establish about its problem. */
  predicate Valid(a: Adapter)
  {
    match a
    case DoubleAdapter(p) => DoubleProblemAdapter.Valid(p)
    case BinaryAdapter(p, total) => BinaryProblemAdapter.Valid(p) && total == BinaryProblemAdapter.TotalBits(p)
    case PermutationAdapter(p) => PermutationProblemAdapter.Valid(p)
  }

  function NumberOfVariables(a: Adapter): (r: nat)
    requires Valid(a)
  {
    match a
    case DoubleAdapter(p) => Host.NumberOfVariables(p)
    case BinaryAdapter(p, _) => Host.NumberOfVariables(p)
    case PermutationAdapter(p) => PermutationProblemAdapter.NumberOfVariables(p)
  }

  function NumberOfObjectives(a: Adapter): (r: nat)
  {
    Host.NumberOfObjectives(a.problem)
  }

  function NumberOfConstraints(a: Adapter): (r: nat)
  {
    Host.NumberOfConstraints(a.problem)
  }

  /**
   * The size of the index space foreign mutation operators work over: one per
   * real variable, one per bit, and one for a whole permutation.
   */
  function NumberOfMutationIndices(a: Adapter): (n: nat)
    requires Valid(a)
    ensures a.DoubleAdapter? ==> n == NumberOfVariables(a)
    ensures a.BinaryAdapter? ==> n == BinaryProblemAdapter.TotalBits(a.problem)
    ensures a.PermutationAdapter? ==> n == 1
  {
    match a
    case DoubleAdapter(p) => DoubleProblemAdapter.NumberOfMutationIndices(p)
    case BinaryAdapter(_, _) => BinaryProblemAdapter.NumberOfMutationIndices(a)
    case PermutationAdapter(p) => PermutationProblemAdapter.NumberOfMutationIndices(p)
  }

  /** The random initial values have the shape the adapter allocates. */
  predicate DrawsFit(a: Adapter, d: Draws)
    requires Valid(a)
  {
    match a
    case DoubleAdapter(p) =>
      d.RealDraws? && |d.values| == Host.NumberOfVariables(p)
    case BinaryAdapter(p, _) =>
      && d.BitDraws? && |d.sets| == Host.NumberOfVariables(p)
      && forall i :: 0 <= i < |d.sets| ==> |d.sets[i]| == BinaryProblemAdapter.BitsFromVariable(p, i)
    case PermutationAdapter(p) =>
      d.PermutationDraw? && IsPermutation(d.order, PermutationProblemAdapter.Length(p))
  }

  /** A foreign solution has the encoding and shape of the adapter's problem. */
  predicate Fits(a: Adapter, s: ForeignSolution)
    requires Valid(a)
  {
    match a
    case DoubleAdapter(p) =>
      s.variables.Doubles? && |s.variables.values| == Host.NumberOfVariables(p)
    case BinaryAdapter(p, _) =>
      s.variables.BinarySets? && |s.variables.sets| == Host.NumberOfVariables(p)
    case PermutationAdapter(p) =>
      s.variables.IntPermutation? && IsPermutation(s.variables.elements, PermutationProblemAdapter.Length(p))
  }

  function CreateSolution(a: Adapter, d: Draws): (s: ForeignSolution)
    requires Valid(a) && DrawsFit(a, d)
    ensures Fits(a, s)
    ensures |s.objectives| == NumberOfObjectives(a) && |s.constraints| == NumberOfConstraints(a)
  {
    match a
    case DoubleAdapter(p) => DoubleProblemAdapter.CreateSolution(p, d.values)
    case BinaryAdapter(p, _) => BinaryProblemAdapter.CreateSolution(p, d.sets)
    case PermutationAdapter(p) => PermutationProblemAdapter.CreateSolution(p, d.order)
  }

  /**
   * Two solutions share a layout: the same counts, and variable by variable
   * the same class and the same bounds, width or length.
   */
  predicate SameLayout(s: Solution, t: Solution)
  {
    && |s.variables| == |t.variables|
    && |s.objectives| == |t.objectives|
    && |s.constraints| == |t.constraints|
    && forall i :: 0 <= i < |s.variables| ==> SameShape(s.variables[i], t.variables[i])
  }

  predicate SameShape(v: Variable, w: Variable)
  {
    match v
    case RealVar(lb, ub, _) => w.RealVar? && w.lowerBound == lb && w.upperBound == ub
    case BinaryVar(bits) => w.BinaryVar? && |w.bits| == |bits|
    case PermutationVar(elements) => w.PermutationVar? && |w.elements| == |elements|
    case OtherVar(name) => w == v
  }

  function Convert(a: Adapter, s: ForeignSolution): (h: Solution)
    requires Valid(a) && Fits(a, s)
    ensures SameLayout(a.problem.template, h)
    ensures h.objectives == a.problem.template.objectives
    ensures h.constraints == a.problem.template.constraints
  {
    match a
    case DoubleAdapter(p) => DoubleProblemAdapter.Convert(p, s.variables.values)
    case BinaryAdapter(p, _) => BinaryProblemAdapter.Convert(p, s.variables.sets)
    case PermutationAdapter(p) => PermutationProblemAdapter.Convert(p, s.variables.elements)
  }

  /** Host variables carry exactly the drawn foreign values. */
  predicate Carries(vars: seq<Variable>, d: Draws)
  {
    match d
    case RealDraws(values) =>
      |vars| == |values| && forall i :: 0 <= i < |vars| ==> vars[i].RealVar? && vars[i].value == values[i]
    case BitDraws(sets) =>
      |vars| == |sets| && forall i :: 0 <= i < |vars| ==> vars[i] == BinaryVar(sets[i])
    case PermutationDraw(order) =>
      vars == [PermutationVar(order)]
  }

  /**
   * For every adapter, converting a foreign solution it created yields a host
   * solution of the problem's layout carrying the same real values, bit
   * patterns or permutation order.
   */
  lemma RoundTrip(a: Adapter, d: Draws)
    requires Valid(a) && DrawsFit(a, d)
    ensures var h := Convert(a, CreateSolution(a, d));
            SameLayout(a.problem.template, h) && Carries(h.variables, d)
  {
    match a
    case DoubleAdapter(p) =>
    case BinaryAdapter(p, _) =>
      BinaryProblemAdapter.RoundTrip(p, d.sets);
    case PermutationAdapter(p) =>
  }
}
