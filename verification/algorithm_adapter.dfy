/**
 * A foreign run-to-completion algorithm presented as a host algorithm whose
 * single step is the whole run. The adapter's only state is whether a
 * solution set has been stored.
 */
module JMetalAlgorithmAdapter {

  import opened Base
  import opened JavaNumbers
  import opened Host
  import opened Foreign
  import opened AdapterTypes
  import opened Errors
  import opened Properties
  import ProblemAdapter

  const DEFAULT_MAX_EVALUATIONS: Int32 := 25000

  datatype RunAdapter = RunAdapter(adapter: Adapter, maxEvaluations: Int32, solutionSet: Option<seq<ForeignSolution>>)

  /**
   * What one call of the foreign algorithm's run and `getResult` does: return
   * a result list, return `null`, or throw.
   */
  datatype RunOutcome = Returned(solutions: seq<ForeignSolution>) | ReturnedNull | Threw(cause: string)

  /** The state after a `step()`, whether the foreign algorithm was run, and what `step()` threw. */
  datatype StepResult = StepResult(next: RunAdapter, ran: bool, error: Option<Error>)

  /** Stored solutions were produced for the adapter's problem. */
  predicate Valid(ra: RunAdapter)
  {
    && ProblemAdapter.Valid(ra.adapter)
    && (ra.solutionSet.Some? ==> AllFit(ra.adapter, ra.solutionSet.value))
  }

  predicate AllFit(a: Adapter, sols: seq<ForeignSolution>)
    requires ProblemAdapter.Valid(a)
  {
    forall i :: 0 <= i < |sols| ==> ProblemAdapter.Fits(a, sols[i])
  }

  /**
   * The constructor reads the evaluation budget as `(int) getDouble(
   * "maxEvaluations", 25000)`; a new adapter has no solution set.
   */
  function New(adapter: Adapter, bag: Bag): (r: Result<RunAdapter, Error>)
    requires ProblemAdapter.Valid(adapter)
    ensures "maxEvaluations" !in bag ==> r.Ok? && r.value.maxEvaluations == DEFAULT_MAX_EVALUATIONS
    ensures "maxEvaluations" in bag && bag["maxEvaluations"].IntV? ==>
              r.Ok? && r.value.maxEvaluations == bag["maxEvaluations"].i
    ensures "maxEvaluations" in bag && bag["maxEvaluations"].RealV? ==>
              r.Ok? && r.value.maxEvaluations == DoubleToInt(bag["maxEvaluations"].d)
    ensures r.Ok? <==> !("maxEvaluations" in bag && bag["maxEvaluations"].StrV?)
    ensures r.Ok? ==> && Valid(r.value) && r.value.adapter == adapter
                      && !IsTerminated(r.value)
                      && NumberOfEvaluations(r.value) == 0
                      && GetResult(r.value) == []
  {
    var budget :- GetDoubleAsInt(bag, "maxEvaluations", DEFAULT_MAX_EVALUATIONS);
    Ok(RunAdapter(adapter, budget, None))
  }

  predicate IsTerminated(ra: RunAdapter)
  {
    ra.solutionSet.Some?
  }

  /** The budget is reported as a stand-in count once a solution set exists. */
  function NumberOfEvaluations(ra: RunAdapter): (n: Int32)
  {
    if ra.solutionSet.None? then 0 else ra.maxEvaluations
  }

  /**
   * Runs the foreign algorithm if no solution set is stored yet and stores
   * what it returns. A `null` result stores nothing; if it throws, the
   * exception is wrapped and nothing is stored. Either way the adapter stays
   * unterminated. With a solution set stored, nothing happens.
   */
  function Step(ra: RunAdapter, run: RunOutcome): (r: StepResult)
    requires Valid(ra)
    requires run.Returned? ==> AllFit(ra.adapter, run.solutions)
    ensures Valid(r.next)
    ensures r.ran <==> !IsTerminated(ra)
    ensures r.next.adapter == ra.adapter && r.next.maxEvaluations == ra.maxEvaluations
    ensures r.error.Some? <==> r.ran && run.Threw?
    ensures r.error.Some? ==> r.error.value == AlgorithmFailed(run.cause) && r.next == ra
    ensures IsTerminated(r.next) <==> IsTerminated(ra) || run.Returned?
    ensures r.ran && run.Returned? ==> r.next.solutionSet == Some(run.solutions)
    ensures run.ReturnedNull? ==> r.next == ra && r.error.None?
    ensures !r.ran ==> r.next == ra
  {
    if ra.solutionSet.None? then
      match run
      case Returned(sols) => StepResult(ra.(solutionSet := Some(sols)), true, None)
      case ReturnedNull => StepResult(ra, true, None)
      case Threw(cause) => StepResult(ra, true, Some(AlgorithmFailed(cause)))
    else
      StepResult(ra, false, None)
  }

  /**
   * Stores an empty solution set if none is stored, without running anything;
   * otherwise changes nothing.
   */
  function Terminate(ra: RunAdapter): (r: RunAdapter)
    requires Valid(ra)
    ensures Valid(r) && IsTerminated(r)
    ensures IsTerminated(ra) ==> r == ra
    ensures !IsTerminated(ra) ==> r.solutionSet == Some([])
    ensures r.adapter == ra.adapter && r.maxEvaluations == ra.maxEvaluations
  {
    if ra.solutionSet.None? then ra.(solutionSet := Some([])) else ra
  }

  /**
   * Every stored foreign solution, in order, converted through the encoding
   * adapter and given the foreign objectives and constraints verbatim.
   */
  function GetResult(ra: RunAdapter): (r: seq<Solution>)
    requires Valid(ra)
    ensures ra.solutionSet.None? ==> r == []
    ensures ra.solutionSet.Some? ==> |r| == |ra.solutionSet.value|
    ensures ra.solutionSet.Some? ==> forall i :: 0 <= i < |r| ==>
              var f := ra.solutionSet.value[i];
              && r[i].variables == ProblemAdapter.Convert(ra.adapter, f).variables
              && r[i].objectives == f.objectives
              && r[i].constraints == f.constraints
  {
    match ra.solutionSet
    case None => []
    case Some(sols) =>
      seq(|sols|, i requires 0 <= i < |sols| =>
        ProblemAdapter.Convert(ra.adapter, sols[i]).(objectives := sols[i].objectives, constraints := sols[i].constraints))
  }

  /**
   * `evaluate` hands the solution to the host problem's own evaluation, given
   * here as a function, whatever the adapter's state.
   */
  function Evaluate(ra: RunAdapter, problemEvaluate: Solution -> Solution, s: Solution): (evaluated: Solution)
  {
    problemEvaluate(s)
  }

  lemma EvaluateIgnoresState(ra: RunAdapter, run: RunOutcome, problemEvaluate: Solution -> Solution, s: Solution)
    requires Valid(ra) && (run.Returned? ==> AllFit(ra.adapter, run.solutions))
    ensures Evaluate(Step(ra, run).next, problemEvaluate, s) == Evaluate(ra, problemEvaluate, s)
    ensures Evaluate(Terminate(ra), problemEvaluate, s) == Evaluate(ra, problemEvaluate, s)
    ensures Evaluate(ra, problemEvaluate, s) == problemEvaluate(s)
  {
  }

  /**
   * Once a step has stored a solution set, any later step neither runs the
   * foreign algorithm again nor changes the result: stepping is idempotent.
   */
  lemma StepRunsOnce(ra: RunAdapter, first: RunOutcome, later: RunOutcome)
    requires Valid(ra)
    requires first.Returned? ==> AllFit(ra.adapter, first.solutions)
    requires later.Returned? ==> AllFit(ra.adapter, later.solutions)
    requires IsTerminated(Step(ra, first).next)
    ensures var s1 := Step(ra, first);
            var s2 := Step(s1.next, later);
            && !s2.ran && s2.error.None? && s2.next == s1.next
            && GetResult(s2.next) == GetResult(s1.next)
            && NumberOfEvaluations(s2.next) == NumberOfEvaluations(s1.next)
  {
  }

  /**
   * A run that throws leaves a fresh adapter as it was: not terminated, no
   * evaluations, an empty result, and a later step runs the algorithm again.
   */
  lemma FailedStepLeavesPending(ra: RunAdapter, cause: string, later: RunOutcome)
    requires Valid(ra) && !IsTerminated(ra)
    requires later.Returned? ==> AllFit(ra.adapter, later.solutions)
    ensures var s := Step(ra, Threw(cause));
            && s.error == Some(AlgorithmFailed(cause))
            && !IsTerminated(s.next) && NumberOfEvaluations(s.next) == 0 && GetResult(s.next) == []
            && Step(s.next, later).ran
  {
  }

  /**
   * Terminating before stepping yields a terminated adapter with an empty
   * result that never runs the foreign algorithm; terminating after a
   * successful step changes nothing.
   */
  lemma TerminateBeforeStep(ra: RunAdapter, later: RunOutcome)
    requires Valid(ra) && !IsTerminated(ra)
    requires later.Returned? ==> AllFit(ra.adapter, later.solutions)
    ensures var t := Terminate(ra);
            && IsTerminated(t) && GetResult(t) == []
            && NumberOfEvaluations(t) == ra.maxEvaluations
            && !Step(t, later).ran && Step(t, later).next == t
  {
  }

  /**
   * Terminating after a step that stored a solution set changes nothing;
   * after a step that threw or returned `null` it stores an empty set.
   */
  lemma TerminateAfterStep(ra: RunAdapter, run: RunOutcome)
    requires Valid(ra) && (run.Returned? ==> AllFit(ra.adapter, run.solutions))
    ensures var next := Step(ra, run).next;
            && (IsTerminated(next) ==> Terminate(next) == next)
            && (!IsTerminated(next) ==> Terminate(next) == ra.(solutionSet := Some([])))
            && (!IsTerminated(next) <==> !IsTerminated(ra) && !run.Returned?)
  {
  }

  /**
   * A run whose result is `null` leaves the adapter as it was: not
   * terminated, nothing reported, and a later step runs the algorithm again.
   */
  lemma NullResultLeavesPending(ra: RunAdapter, later: RunOutcome)
    requires Valid(ra) && !IsTerminated(ra)
    requires later.Returned? ==> AllFit(ra.adapter, later.solutions)
    ensures var s := Step(ra, ReturnedNull);
            && s.ran && s.error.None? && s.next == ra
            && !IsTerminated(s.next) && NumberOfEvaluations(s.next) == 0 && GetResult(s.next) == []
            && Step(s.next, later).ran
  {
  }

  /** A terminated adapter reports the budget; a pending one reports zero. */
  lemma EvaluationsFollowState(ra: RunAdapter)
    ensures IsTerminated(ra) ==> NumberOfEvaluations(ra) == ra.maxEvaluations
    ensures !IsTerminated(ra) ==> NumberOfEvaluations(ra) == 0
  {
  }
}
