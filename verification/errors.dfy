/**
 * The exceptions of the bridge, one constructor per distinct failure. The
 * Java class each one is raised as decides how the algorithm provider reports
 * it, see `RaisedAsJMetalException`.
 */
module Errors {

  import opened Host

  datatype Error =
      /** ProblemException "Problem has no defined types". */
    | NoDefinedTypes
      /** ProblemException "Problem has multiple types defined, expected only one: ...". */
    | MultipleTypes(classes: set<VarClass>)
      /** ProblemException "Problems with type ... are not currently supported by JMetal". */
    | UnsupportedType(name: string)
      /** FrameworkException: a permutation problem must have a single variable. */
    | NotSinglePermutation
      /** FrameworkException: the foreign permutation solution has no constraints. */
    | PermutationConstraints
      /** JMetalException: the algorithm needs real decision variables. */
    | RequiresRealVariables
      /** JMetalException: the algorithm needs binary decision variables. */
    | RequiresBinaryVariables
      /** JMetalException "must specify pathWeights file". */
    | MissingPathWeights
      /** NumberFormatException while reading a property as a number. */
    | MalformedNumber(key: string)
      /** ArithmeticException from an integer division by zero. */
    | DivisionByZero
      /** AlgorithmException wrapping whatever the foreign run threw. */
    | AlgorithmFailed(thrown: string)
      /** ProviderNotFoundException naming the algorithm and the wrapped cause. */
    | ProviderNotFound(name: string, cause: Error)

  predicate RaisedAsJMetalException(e: Error)
  {
    e.RequiresRealVariables? || e.RequiresBinaryVariables? || e.MissingPathWeights?
  }
}
