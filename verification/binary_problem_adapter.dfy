/**
 * The adapter presenting a host problem with binary variables as a foreign
 * binary problem. Widths are read from the schema; their sum is computed once,
 * by the constructor.
 */
module BinaryProblemAdapter {

  import opened JavaNumbers
  import opened Host
  import opened Foreign
  import opened AdapterTypes

  /** Every schema variable is a binary variable, as the adapter's casts demand. */
  predicate Valid(p: Problem)
  {
    AllBinary(p.template.variables)
  }

  function BitsFromVariable(p: Problem, i: nat): (r: nat)
    requires Valid(p) && i < NumberOfVariables(p)
  {
    Width(p.template.variables[i])
  }

  /** The width of every variable, in variable order. */
  function ListOfBitsPerVariable(p: Problem): (ws: seq<nat>)
    requires Valid(p)
    ensures |ws| == NumberOfVariables(p)
    ensures forall i :: 0 <= i < |ws| ==> ws[i] == BitsFromVariable(p, i)
  {
    seq(NumberOfVariables(p), i requires 0 <= i < NumberOfVariables(p) => BitsFromVariable(p, i))
  }

  /** The sum of a list of widths, peeling off the last one. */
  function Sum(ws: seq<nat>): (total: nat)
  {
    if |ws| == 0 then 0 else Sum(ws[..|ws| - 1]) + ws[|ws| - 1]
  }

  /** Summing distributes over concatenation. */
  lemma {:induction false} SumAppend(a: seq<nat>, b: seq<nat>)
    ensures Sum(a + b) == Sum(a) + Sum(b)
    decreases |b|
  {
    if |b| == 0 {
      assert a + b == a;
    } else {
      var b' := b[..|b| - 1];
      assert (a + b)[..|a + b| - 1] == a + b';
      SumAppend(a, b');
    }
  }

  /** No single width exceeds the sum. */
  lemma {:induction false} SumBoundsEach(ws: seq<nat>, i: nat)
    requires i < |ws|
    ensures ws[i] <= Sum(ws)
  {
    assert ws == ws[..i] + [ws[i]] + ws[i + 1..];
    SumAppend(ws[..i] + [ws[i]], ws[i + 1..]);
    SumAppend(ws[..i], [ws[i]]);
    assert [ws[i]][..0] == [];
  }

  /** The total number of bits across all variables. */
  function TotalBits(p: Problem): (total: nat)
    requires Valid(p)
  {
    Sum(ListOfBitsPerVariable(p))
  }

  /** The constructor's loop accumulating the bit total. */
  method CountBits(p: Problem) returns (total: nat)
    requires Valid(p)
    ensures total == TotalBits(p)
  {
    var ws := ListOfBitsPerVariable(p);
    total := 0;
    var i := 0;
    while i < NumberOfVariables(p)
      invariant 0 <= i <= |ws|
      invariant total == Sum(ws[..i])
    {
      assert ws[..i + 1][..i] == ws[..i];
      total := total + BitsFromVariable(p, i);
      i := i + 1;
    }
    assert ws[..i] == ws;
  }

  function New(p: Problem): (a: Adapter)
    requires Valid(p)
    ensures a.BinaryAdapter? && a.problem == p
    ensures a.totalNumberOfBits == TotalBits(p)
    ensures forall i :: 0 <= i < NumberOfVariables(p) ==> BitsFromVariable(p, i) <= a.totalNumberOfBits
    ensures a.totalNumberOfBits == 0 <==> forall i :: 0 <= i < NumberOfVariables(p) ==> BitsFromVariable(p, i) == 0
  {
    var ws := ListOfBitsPerVariable(p);
    forall i | 0 <= i < |ws|
      ensures ws[i] <= Sum(ws)
    {
      SumBoundsEach(ws, i);
    }
    ZeroSum(ws);
    BinaryAdapter(p, TotalBits(p))
  }

  /** A sum is zero exactly when every width is. */
  lemma {:induction false} ZeroSum(ws: seq<nat>)
    ensures Sum(ws) == 0 <==> forall i :: 0 <= i < |ws| ==> ws[i] == 0
  {
    if |ws| > 0 {
      ZeroSum(ws[..|ws| - 1]);
      assert forall i :: 0 <= i < |ws| - 1 ==> ws[..|ws| - 1][i] == ws[i];
    }
  }

  /** Each bit is a mutation index of its own. */
  function NumberOfMutationIndices(a: Adapter): (r: nat)
    requires a.BinaryAdapter?
  {
    a.totalNumberOfBits
  }

  /**
   * A new foreign binary solution with one bit set per variable of the
   * schema's width; `sets` are the foreign library's random initial bits.
   */
  function CreateSolution(p: Problem, sets: seq<seq<bool>>): (s: ForeignSolution)
    requires Valid(p) && |sets| == NumberOfVariables(p)
    requires forall i :: 0 <= i < |sets| ==> |sets[i]| == BitsFromVariable(p, i)
    ensures s.variables.BinarySets? && s.variables.sets == sets
    ensures forall i :: 0 <= i < |sets| ==> |s.variables.sets[i]| == ListOfBitsPerVariable(p)[i]
    ensures |s.objectives| == NumberOfObjectives(p) && |s.constraints| == NumberOfConstraints(p)
  {
    ForeignSolution(BinarySets(sets), Zeros(NumberOfObjectives(p)), Zeros(NumberOfConstraints(p)))
  }

  /**
   * Writes a foreign bit set into a host variable of width w: bit j of the
   * variable becomes bit j of the set, which reads false past the set's size.
   */
  function SetBitSet(w: nat, bitSet: seq<bool>): (bits: seq<bool>)
    ensures |bits| == w
    ensures forall j :: 0 <= j < w && j < |bitSet| ==> bits[j] == bitSet[j]
    ensures forall j :: |bitSet| <= j < w ==> !bits[j]
  {
    seq(w, j requires 0 <= j < w => j < |bitSet| && bitSet[j])
  }

  /**
   * A fresh host solution from the problem whose binary variable i holds
   * foreign bit set i, position by position, at the schema's width.
   */
  function Convert(p: Problem, sets: seq<seq<bool>>): (s: Solution)
    requires Valid(p) && |sets| == NumberOfVariables(p)
    ensures |s.variables| == NumberOfVariables(p) && AllBinary(s.variables)
    ensures forall i :: 0 <= i < |s.variables| ==>
              && Width(s.variables[i]) == BitsFromVariable(p, i)
              && (forall j :: 0 <= j < |sets[i]| && j < Width(s.variables[i]) ==> s.variables[i].bits[j] == sets[i][j])
              && (forall j :: |sets[i]| <= j < Width(s.variables[i]) ==> !s.variables[i].bits[j])
    ensures s.objectives == p.template.objectives && s.constraints == p.template.constraints
  {
    var n := NumberOfVariables(p);
    p.template.(variables := seq(n, i requires 0 <= i < n => BinaryVar(SetBitSet(BitsFromVariable(p, i), sets[i]))))
  }

  /** Converting a freshly created foreign solution reproduces its bit sets exactly. */
  lemma RoundTrip(p: Problem, sets: seq<seq<bool>>)
    requires Valid(p) && |sets| == NumberOfVariables(p)
    requires forall i :: 0 <= i < |sets| ==> |sets[i]| == BitsFromVariable(p, i)
    ensures var h := Convert(p, CreateSolution(p, sets).variables.sets);
            forall i :: 0 <= i < |sets| ==> h.variables[i].bits == sets[i]
  {
  }

  /** One variable of ten bits: one variable, ten bits, ten mutation indices. */
  lemma TenBitExample(p: Problem)
    requires p.template.variables == [BinaryVar(seq(10, _ => false))]
    ensures Valid(p) && NumberOfVariables(p) == 1 && BitsFromVariable(p, 0) == 10
    ensures TotalBits(p) == 10 && NumberOfMutationIndices(New(p)) == 10
  {
    assert ListOfBitsPerVariable(p) == [10];
    assert [10][..0] == [];
  }
}
