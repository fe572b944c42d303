/**
 * The adapter presenting a host problem with real-valued variables as a
 * foreign double problem. Its metadata is read from the problem's schema (the
 * template solution).
 */
module DoubleProblemAdapter {

  import opened JavaNumbers
  import opened Host
  import opened Foreign
  import opened AdapterTypes

  /** Every schema variable is a real variable, as the adapter's casts demand. */
  predicate Valid(p: Problem)
  {
    AllReal(p.template.variables)
  }

  function New(p: Problem): (a: Adapter)
    ensures a.DoubleAdapter? && a.problem == p
  {
    DoubleAdapter(p)
  }

  function LowerBound(p: Problem, i: nat): (lower: Double)
    requires Valid(p) && i < NumberOfVariables(p)
  {
    p.template.variables[i].lowerBound
  }

  function UpperBound(p: Problem, i: nat): (upper: Double)
    requires Valid(p) && i < NumberOfVariables(p)
  {
    p.template.variables[i].upperBound
  }

  /** One (lower, upper) pair per variable, in variable order. */
  function GetBounds(p: Problem): (bs: seq<Bounds>)
    requires Valid(p)
    ensures |bs| == NumberOfVariables(p)
    ensures forall i :: 0 <= i < |bs| ==> bs[i] == Bounds(LowerBound(p, i), UpperBound(p, i))
  {
    seq(NumberOfVariables(p), i requires 0 <= i < NumberOfVariables(p) => Bounds(LowerBound(p, i), UpperBound(p, i)))
  }

  /**
   * A new foreign double solution sized by the problem, carrying the schema's
   * bounds; `values` are the foreign library's random initial values.
   */
  function CreateSolution(p: Problem, values: seq<Double>): (s: ForeignSolution)
    requires Valid(p) && |values| == NumberOfVariables(p)
    ensures s.variables.Doubles? && s.variables.values == values
    ensures s.variables.bounds == GetBounds(p)
    ensures |s.objectives| == NumberOfObjectives(p) && |s.constraints| == NumberOfConstraints(p)
  {
    ForeignSolution(Doubles(values, GetBounds(p)), Zeros(NumberOfObjectives(p)), Zeros(NumberOfConstraints(p)))
  }

  /**
   * A fresh host solution from the problem whose real variable i holds foreign
   * value i; bounds, objectives and constraints are the template's.
   */
  function Convert(p: Problem, values: seq<Double>): (s: Solution)
    requires Valid(p) && |values| == NumberOfVariables(p)
    ensures |s.variables| == NumberOfVariables(p)
    ensures forall i :: 0 <= i < |s.variables| ==>
              && s.variables[i].RealVar?
              && s.variables[i].lowerBound == LowerBound(p, i)
              && s.variables[i].upperBound == UpperBound(p, i)
              && s.variables[i].value == values[i]
    ensures s.objectives == p.template.objectives && s.constraints == p.template.constraints
  {
    var vars := p.template.variables;
    p.template.(variables := seq(|vars|, i requires 0 <= i < |vars| => vars[i].(value := values[i])))
  }

  /** The inherited default: one mutation index per variable. */
  function NumberOfMutationIndices(p: Problem): (r: nat)
  {
    NumberOfVariables(p)
  }

  /**
   * Converting a freshly created foreign solution back gives each host
   * variable the bounds the foreign solution was created with and the value
   * it was initialised to; the result is still a valid real schema.
   */
  lemma RoundTrip(p: Problem, values: seq<Double>)
    requires Valid(p) && |values| == NumberOfVariables(p)
    ensures var f := CreateSolution(p, values);
            var h := Convert(p, f.variables.values);
            && AllReal(h.variables)
            && |h.variables| == |f.variables.bounds|
            && forall i :: 0 <= i < |h.variables| ==>
                 && Bounds(h.variables[i].lowerBound, h.variables[i].upperBound) == f.variables.bounds[i]
                 && h.variables[i].value == values[i]
  {
  }
}
