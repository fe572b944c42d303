/**
 * The closed set of encoding adapters. Each holds the host problem it was
 * built from; the binary adapter also keeps the bit total its constructor
 * computed, which never changes afterwards.
 */
module AdapterTypes {

  import opened Host

  datatype Adapter =
    | DoubleAdapter(problem: Problem)
    | BinaryAdapter(problem: Problem, totalNumberOfBits: nat)
    | PermutationAdapter(problem: Problem)
}
