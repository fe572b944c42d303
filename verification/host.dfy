/**
 * The host framework's view of a candidate solution: an ordered sequence of
 * typed decision variables plus objective and constraint vectors, and the
 * problem that hands out template solutions establishing that layout.
 */
module Host {

  import opened JavaNumbers

  /**
   * A host decision variable. `OtherVar` covers every variable class this
   * bridge has no encoding for (grammars, programs, subsets, ...), tagged with
   * the class's simple name.
   */
  datatype Variable =
    | RealVar(lowerBound: Double, upperBound: Double, value: Double)
    | BinaryVar(bits: seq<bool>)
    | PermutationVar(elements: seq<int>)
    | OtherVar(className: string)

  /** The runtime class of a variable, as collected by adapter selection. */
  datatype VarClass = RealClass | BinaryClass | PermutationClass | OtherClass(name: string)

  function ClassOf(v: Variable): (r: VarClass)
  {
    match v
    case RealVar(_, _, _) => RealClass
    case BinaryVar(_) => BinaryClass
    case PermutationVar(_) => PermutationClass
    case OtherVar(name) => OtherClass(name)
  }

  /** The number of bits of a binary variable. */
  function Width(v: Variable): (r: nat)
    requires v.BinaryVar?
  {
    |v.bits|
  }

  datatype Solution = Solution(variables: seq<Variable>, objectives: seq<Double>, constraints: seq<Double>)

  /**
   * A host problem. `template` is what `newSolution()` returns: a fresh
   * solution whose layout is the problem's schema. The problem's variable,
   * objective and constraint counts are those of the template.
   */
  datatype Problem = Problem(name: string, template: Solution)

  function NumberOfVariables(p: Problem): (r: nat)
  {
    |p.template.variables|
  }

  function NumberOfObjectives(p: Problem): (r: nat)
  {
    |p.template.objectives|
  }

  function NumberOfConstraints(p: Problem): (r: nat)
  {
    |p.template.constraints|
  }

  /** The set of distinct variable classes in a problem's schema. */
  function SchemaClasses(p: Problem): (classes: set<VarClass>)
    ensures forall i :: 0 <= i < NumberOfVariables(p) ==> ClassOf(p.template.variables[i]) in classes
    ensures forall c :: c in classes ==> exists i :: 0 <= i < NumberOfVariables(p) && ClassOf(p.template.variables[i]) == c
  {
    set i | 0 <= i < |p.template.variables| :: ClassOf(p.template.variables[i])
  }

  predicate AllReal(vars: seq<Variable>)
  {
    forall i :: 0 <= i < |vars| ==> vars[i].RealVar?
  }

  predicate AllBinary(vars: seq<Variable>)
  {
    forall i :: 0 <= i < |vars| ==> vars[i].BinaryVar?
  }

  /** A sequence of length n holding each of 0 .. n-1 exactly once. */
  predicate IsPermutation(elements: seq<int>, n: nat)
  {
    && |elements| == n
    && (forall i :: 0 <= i < n ==> 0 <= elements[i] < n)
    && (forall i, j :: 0 <= i < j < n ==> elements[i] != elements[j])
  }
}
