/**
 * The parts of the algorithm factories that belong to the bridge rather than
 * to the foreign library: the `pathWeights` guard of the two MOMBI factories,
 * what they hand to the foreign constructor, and how the provider reports a
 * failed factory.
 */
module Factories {

  import opened Base
  import opened JavaNumbers
  import opened Host
  import opened AdapterTypes
  import opened Errors
  import opened Properties
  import opened Configuration
  import AdapterSelection
  import JMetalAlgorithmAdapter

  datatype MombiVariant = Mombi | Mombi2

  /** What the foreign MOMBI constructor receives that the bridge decides. */
  datatype MombiSetup = MombiSetup(variant: MombiVariant, adapter: Adapter, maxIterations: Int32, pathWeights: Value)

  datatype Built = Built(setup: MombiSetup, run: JMetalAlgorithmAdapter.RunAdapter)

  const PATH_WEIGHTS: string := "pathWeights"

  /**
   * The MOMBI and MOMBI2 factories: select the encoding adapter, refuse a bag
   * without `pathWeights`, derive the iteration count, and wrap the foreign
   * algorithm in a run adapter.
   */
  function NewMombi(v: Version, variant: MombiVariant, bag: Bag, p: Problem): (r: Result<Built, Error>)
    ensures AdapterSelection.CreateProblemAdapter(p).Err? ==> r == Err(AdapterSelection.CreateProblemAdapter(p).error)
    ensures AdapterSelection.CreateProblemAdapter(p).Ok? && PATH_WEIGHTS !in bag ==> r == Err(MissingPathWeights)
    ensures r.Ok? ==> && PATH_WEIGHTS in bag
                      && AdapterSelection.CreateProblemAdapter(p) == Ok(r.value.setup.adapter)
                      && r.value.setup.variant == variant
                      && r.value.setup.pathWeights == bag[PATH_WEIGHTS]
                      && MaxIterationsFor(v, bag) == Ok(r.value.setup.maxIterations)
                      && r.value.run.adapter == r.value.setup.adapter
                      && JMetalAlgorithmAdapter.Valid(r.value.run)
                      && !JMetalAlgorithmAdapter.IsTerminated(r.value.run)
    ensures (&& AdapterSelection.CreateProblemAdapter(p).Ok? && PATH_WEIGHTS in bag
             && MaxIterationsFor(v, bag).Ok?
             && ("maxEvaluations" in bag ==> !bag["maxEvaluations"].StrV?)) ==> r.Ok?
  {
    var adapter :- AdapterSelection.CreateProblemAdapter(p);
    if PATH_WEIGHTS !in bag then Err(MissingPathWeights)
    else
      var maxIterations :- MaxIterationsFor(v, bag);
      var run :- JMetalAlgorithmAdapter.New(adapter, bag);
      Ok(Built(MombiSetup(variant, adapter, maxIterations, bag[PATH_WEIGHTS]), run))
  }

  /**
   * `getAlgorithm`: a foreign-library exception raised while building is
   * reported as "provider not found" for the requested name; anything else
   * propagates as it is.
   */
  function GetAlgorithm<T>(name: string, built: Result<T, Error>): (r: Result<T, Error>)
    ensures built.Ok? ==> r == built
    ensures built.Err? && RaisedAsJMetalException(built.error) ==> r == Err(ProviderNotFound(name, built.error))
    ensures built.Err? && !RaisedAsJMetalException(built.error) ==> r == built
  {
    match built
    case Ok(_) => built
    case Err(e) => if RaisedAsJMetalException(e) then Err(ProviderNotFound(name, e)) else built
  }

  /**
   * Requesting MOMBI or MOMBI2 for a supported problem without `pathWeights`
   * reports the provider as not found, in both versions, whatever the
   * iteration settings are.
   */
  lemma MissingPathWeightsNotFound(v: Version, variant: MombiVariant, name: string, bag: Bag, p: Problem)
    requires AdapterSelection.CreateProblemAdapter(p).Ok? && PATH_WEIGHTS !in bag
    ensures GetAlgorithm(name, NewMombi(v, variant, bag, p)) == Err(ProviderNotFound(name, MissingPathWeights))
  {
  }

  /** A schema the selection rejects is reported as the problem's own error, not as "not found". */
  lemma SchemaErrorsPropagate(v: Version, variant: MombiVariant, name: string, bag: Bag, p: Problem)
    requires AdapterSelection.CreateProblemAdapter(p).Err?
    ensures GetAlgorithm(name, NewMombi(v, variant, bag, p)) == Err(AdapterSelection.CreateProblemAdapter(p).error)
    ensures !GetAlgorithm(name, NewMombi(v, variant, bag, p)).error.ProviderNotFound?
  {
  }

  /**
   * An algorithm that needs real variables, asked for on a supported
   * non-real problem, is reported as not found.
   */
  lemma NarrowingMismatchNotFound(name: string, p: Problem)
    requires AdapterSelection.CreateProblemAdapter(p).Ok?
    requires !AdapterSelection.Homogeneous(p, RealClass)
    ensures GetAlgorithm(name, AdapterSelection.CreateDoubleProblemAdapter(p)) == Err(ProviderNotFound(name, RequiresRealVariables))
  {
  }

  /** The latest factory uses its own derivation: with only a population size of 50, 500 iterations. */
  lemma LatestMombiIterations(variant: MombiVariant, p: Problem, weights: Value)
    requires AdapterSelection.CreateProblemAdapter(p).Ok?
    ensures var bag := map[PATH_WEIGHTS := weights, "populationSize" := IntV(50)];
            && NewMombi(Latest, variant, bag, p).Ok?
            && NewMombi(Latest, variant, bag, p).value.setup.maxIterations == 500
            && NewMombi(Latest, variant, bag, p).value.run.maxEvaluations == 25000
  {
  }
}
