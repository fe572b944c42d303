/**
 * The foreign library's solution types, one per encoding. A binary set is
 * modelled by its bits up to its declared size; bits beyond the size read as
 * false.
 */
module Foreign {

  import opened JavaNumbers

  datatype Bounds = Bounds(lower: Double, upper: Double)

  /** The decision variables of a foreign solution, by encoding. */
  datatype Variables =
    | Doubles(values: seq<Double>, bounds: seq<Bounds>)
    | BinarySets(sets: seq<seq<bool>>)
    | IntPermutation(elements: seq<int>)

  datatype ForeignSolution = ForeignSolution(variables: Variables, objectives: seq<Double>, constraints: seq<Double>)

  /** A freshly allocated vector of n zeros, as Java allocates `double[n]`. */
  function Zeros(n: nat): (z: seq<Double>)
    ensures |z| == n && forall i :: 0 <= i < n ==> z[i] == ZERO
  {
    seq(n, _ => ZERO)
  }

  /**
   * The values the foreign library draws at random when it allocates a
   * solution. They are a parameter of the model rather than computed.
   */
  datatype Draws =
    | RealDraws(values: seq<Double>)
    | BitDraws(sets: seq<seq<bool>>)
    | PermutationDraw(order: seq<int>)
}
