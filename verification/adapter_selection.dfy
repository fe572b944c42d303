/**
 * Choosing the encoding adapter for a host problem from the classes of its
 * schema's variables, and the two narrowing helpers used by algorithms that
 * only support one encoding. Both versions of the algorithm provider carry
 * the same code for this.
 */
module AdapterSelection {

  import opened Base
  import opened Host
  import opened AdapterTypes
  import opened Errors
  import ProblemAdapter
  import Foreign
  import DoubleProblemAdapter
  import BinaryProblemAdapter
  import PermutationProblemAdapter

  /** Every schema variable is of class c, and there is at least one. */
  predicate Homogeneous(p: Problem, c: VarClass)
  {
    && NumberOfVariables(p) > 0
    && forall i :: 0 <= i < NumberOfVariables(p) ==> ClassOf(p.template.variables[i]) == c
  }

  /** The schema has exactly one variable class exactly when all variables share the first one's. */
  lemma SingleClass(p: Problem)
    ensures |SchemaClasses(p)| == 1 <==>
            NumberOfVariables(p) > 0 && Homogeneous(p, ClassOf(p.template.variables[0]))
  {
    var cs := SchemaClasses(p);
    if NumberOfVariables(p) > 0 {
      var c := ClassOf(p.template.variables[0]);
      if Homogeneous(p, c) {
        assert cs == {c};
      } else {
        var i :| 0 <= i < NumberOfVariables(p) && ClassOf(p.template.variables[i]) != c;
        var d := ClassOf(p.template.variables[i]);
        assert {c, d} <= cs;
        assert |{c, d}| == 2;
        SubsetCard({c, d}, cs);
      }
    } else {
      assert cs == {};
    }
  }

  lemma SubsetCard<T>(a: set<T>, b: set<T>)
    requires a <= b
    ensures |a| <= |b|
  {
    assert b == a + (b - a);
  }

  /**
   * The schema's classes decide the adapter: none and several are errors, a
   * single real, binary or permutation class builds the matching adapter, and
   * any other class is unsupported.
   */
  function CreateProblemAdapter(p: Problem): (r: Result<Adapter, Error>)
    ensures r == Err(NoDefinedTypes) <==> NumberOfVariables(p) == 0
    ensures r.Err? && r.error.MultipleTypes? <==> |SchemaClasses(p)| > 1
    ensures r.Err? && r.error.MultipleTypes? ==> r.error.classes == SchemaClasses(p)
    ensures r.Ok? ==> ProblemAdapter.Valid(r.value) && r.value.problem == p
    ensures r.Ok? && r.value.DoubleAdapter? <==> Homogeneous(p, RealClass)
    ensures r.Ok? && r.value.BinaryAdapter? <==> Homogeneous(p, BinaryClass)
    ensures r.Ok? && r.value.PermutationAdapter? <==>
              Homogeneous(p, PermutationClass) && NumberOfVariables(p) == 1 && NumberOfConstraints(p) == 0
    ensures (forall name :: !Homogeneous(p, OtherClass(name))) || r.Err?
    ensures forall name :: Homogeneous(p, OtherClass(name)) ==> r == Err(UnsupportedType(name))
    ensures Homogeneous(p, PermutationClass) ==> r == PermutationProblemAdapter.New(p)
  {
    var classes := SchemaClasses(p);
    SingleClass(p);
    if |classes| == 0 then
      Err(NoDefinedTypes)
    else if |classes| > 1 then
      Err(MultipleTypes(classes))
    else
      match ClassOf(p.template.variables[0])
      case RealClass => Ok(DoubleProblemAdapter.New(p))
      case BinaryClass => Ok(BinaryProblemAdapter.New(p))
      case PermutationClass => PermutationProblemAdapter.New(p)
      case OtherClass(name) => Err(UnsupportedType(name))
  }

  /** Selection for algorithms that only accept real decision variables. */
  function CreateDoubleProblemAdapter(p: Problem): (r: Result<Adapter, Error>)
    ensures r.Ok? <==> Homogeneous(p, RealClass)
    ensures r.Ok? ==> r.value == DoubleAdapter(p) && ProblemAdapter.Valid(r.value)
    ensures CreateProblemAdapter(p).Err? ==> r == CreateProblemAdapter(p)
    ensures CreateProblemAdapter(p).Ok? && !Homogeneous(p, RealClass) ==> r == Err(RequiresRealVariables)
  {
    var a :- CreateProblemAdapter(p);
    if a.DoubleAdapter? then Ok(a) else Err(RequiresRealVariables)
  }

  /** Selection for algorithms that only accept binary decision variables. */
  function CreateBinaryProblemAdapter(p: Problem): (r: Result<Adapter, Error>)
    ensures r.Ok? <==> Homogeneous(p, BinaryClass)
    ensures r.Ok? ==> r.value.BinaryAdapter? && r.value.problem == p && ProblemAdapter.Valid(r.value)
    ensures CreateProblemAdapter(p).Err? ==> r == CreateProblemAdapter(p)
    ensures CreateProblemAdapter(p).Ok? && !Homogeneous(p, BinaryClass) ==> r == Err(RequiresBinaryVariables)
  {
    var a :- CreateProblemAdapter(p);
    if a.BinaryAdapter? then Ok(a) else Err(RequiresBinaryVariables)
  }

  /**
   * Whatever schema selection accepts, the adapter it returns round-trips
   * every foreign solution it creates.
   */
  lemma SelectedAdapterRoundTrips(p: Problem, d: Foreign.Draws)
    requires CreateProblemAdapter(p).Ok?
    requires ProblemAdapter.DrawsFit(CreateProblemAdapter(p).value, d)
    ensures var a := CreateProblemAdapter(p).value;
            var h := ProblemAdapter.Convert(a, ProblemAdapter.CreateSolution(a, d));
            ProblemAdapter.SameLayout(p.template, h) && ProblemAdapter.Carries(h.variables, d)
  {
    ProblemAdapter.RoundTrip(CreateProblemAdapter(p).value, d);
  }
}
