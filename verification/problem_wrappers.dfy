/**
 * The reverse direction: a foreign benchmark problem presented as a host
 * problem. The wrapper builds host solutions from the foreign problem's
 * metadata, and evaluates a host solution by copying it into a freshly created
 * foreign solution, letting the foreign problem evaluate that, and copying the
 * results back with the constraint sign convention reconciled.
 */
module ProblemWrappers {

  import opened JavaNumbers
  import opened Host
  import opened Foreign
  import DoubleProblemAdapter
  import BinaryProblemAdapter

  /** The metadata of a wrapped foreign problem. */
  datatype InnerProblem =
    | InnerDouble(numberOfObjectives: nat, numberOfConstraints: nat, bounds: seq<Bounds>)
    | InnerBinary(numberOfObjectives: nat, numberOfConstraints: nat, bitsPerVariable: seq<nat>)

  datatype Wrapper = Wrapper(name: string, inner: InnerProblem)

  /** What the foreign problem's evaluation produces. */
  datatype Evaluation = Evaluation(objectives: seq<Double>, constraints: seq<Double>)

  const SUFFIX: string := "-JMetal"

  /**
   * Registration: the problem is listed under its name with a suffix, and the
   * wrapper keeps the bare name as its own.
   */
  function Register(name: string, inner: InnerProblem): (entry: (string, Wrapper))
    ensures |entry.0| == |name| + |SUFFIX|
    ensures entry.0[..|name|] == entry.1.name && entry.0[|name|..] == SUFFIX
    ensures entry.1.inner == inner
  {
    (name + SUFFIX, Wrapper(name, inner))
  }

  /** Distinct problem names never collide in the registry. */
  lemma RegisteredNamesDistinct(a: string, b: string, inner: InnerProblem, other: InnerProblem)
    requires a != b
    ensures Register(a, inner).0 != Register(b, other).0
  {
  }

  /** The wrapper's counts are the foreign problem's, fixed at construction. */
  function NumberOfVariables(w: Wrapper): (r: nat)
  {
    match w.inner
    case InnerDouble(_, _, bounds) => |bounds|
    case InnerBinary(_, _, widths) => |widths|
  }

  function NumberOfObjectives(w: Wrapper): (r: nat)
  {
    w.inner.numberOfObjectives
  }

  function NumberOfConstraints(w: Wrapper): (r: nat)
  {
    w.inner.numberOfConstraints
  }

  /**
   * A host variable of the wrapper's schema at position i: a real variable
   * with the foreign bounds, or a binary variable of the foreign width.
   */
  predicate VariableFits(w: Wrapper, i: nat, v: Variable)
    requires i < NumberOfVariables(w)
  {
    match w.inner
    case InnerDouble(_, _, bounds) =>
      v.RealVar? && v.lowerBound == bounds[i].lower && v.upperBound == bounds[i].upper
    case InnerBinary(_, _, widths) =>
      v.BinaryVar? && |v.bits| == widths[i]
  }

  /** A host solution laid out as the wrapper's new solutions are. */
  predicate Conforms(w: Wrapper, s: Solution)
  {
    && |s.variables| == NumberOfVariables(w)
    && |s.objectives| == NumberOfObjectives(w)
    && |s.constraints| == NumberOfConstraints(w)
    && forall i :: 0 <= i < |s.variables| ==> VariableFits(w, i, s.variables[i])
  }

  /**
   * `initVariables`: variable i is a real variable with the foreign bounds i
   * (holding no value yet), or a binary variable, all clear, of the foreign
   * width i.
   */
  function InitVariables(w: Wrapper): (vars: seq<Variable>)
    ensures |vars| == NumberOfVariables(w)
    ensures forall i :: 0 <= i < |vars| ==> VariableFits(w, i, vars[i])
    ensures w.inner.InnerDouble? ==> forall i :: 0 <= i < |vars| ==> vars[i] == RealVar(w.inner.bounds[i].lower, w.inner.bounds[i].upper, NaN)
    ensures w.inner.InnerBinary? ==> forall i :: 0 <= i < |vars| ==> vars[i] == BinaryVar(seq(w.inner.bitsPerVariable[i], _ => false))
  {
    match w.inner
    case InnerDouble(_, _, bounds) =>
      seq(|bounds|, i requires 0 <= i < |bounds| => RealVar(bounds[i].lower, bounds[i].upper, NaN))
    case InnerBinary(_, _, widths) =>
      seq(|widths|, i requires 0 <= i < |widths| => BinaryVar(seq(widths[i], _ => false)))
  }

  /** `newSolution`: a solution of the wrapper's counts with its variables initialised. */
  function NewSolution(w: Wrapper): (s: Solution)
    ensures Conforms(w, s)
    ensures s.variables == InitVariables(w)
  {
    Solution(InitVariables(w), Zeros(NumberOfObjectives(w)), Zeros(NumberOfConstraints(w)))
  }

  /** What the foreign problem's `createSolution` hands back for this wrapper. */
  predicate CreatedFits(w: Wrapper, created: Variables)
  {
    match w.inner
    case InnerDouble(_, _, bounds) =>
      created.Doubles? && |created.values| == |bounds| && created.bounds == bounds
    case InnerBinary(_, _, widths) =>
      && created.BinarySets? && |created.sets| == |widths|
      && forall i :: 0 <= i < |widths| ==> |created.sets[i]| == widths[i]
  }

  /** `DoubleProblemWrapper.convert`: real i of the host goes into foreign slot i; the bounds stay. */
  function ConvertDouble(w: Wrapper, s: Solution, created: Variables): (v: Variables)
    requires w.inner.InnerDouble? && Conforms(w, s) && CreatedFits(w, created)
    ensures v.Doubles? && v.bounds == w.inner.bounds
    ensures |v.values| == |s.variables|
    ensures forall i :: 0 <= i < |v.values| ==> v.values[i] == s.variables[i].value
  {
    Doubles(seq(|s.variables|, i requires 0 <= i < |s.variables| => s.variables[i].value), created.bounds)
  }

  /**
   * The logical length of a Java `BitSet` holding these bits: one past the
   * highest set bit, or zero when none is set.
   */
  function BitSetLength(bits: seq<bool>): (n: nat)
    ensures n <= |bits|
    ensures n > 0 ==> bits[n - 1]
    ensures forall j :: n <= j < |bits| ==> !bits[j]
    decreases |bits|
  {
    if bits == [] then 0
    else if bits[|bits| - 1] then |bits|
    else BitSetLength(bits[..|bits| - 1])
  }

  /**
   * `BinaryProblemWrapper.convert` as written: the foreign set replacing slot
   * i is sized by the host bits' logical length, so trailing clear bits are
   * dropped.
   */
  function ConvertBinaryAsWritten(w: Wrapper, s: Solution, created: Variables): (v: Variables)
    requires w.inner.InnerBinary? && Conforms(w, s) && CreatedFits(w, created)
    ensures v.BinarySets? && |v.sets| == |s.variables|
    ensures forall i :: 0 <= i < |v.sets| ==> v.sets[i] == s.variables[i].bits[..BitSetLength(s.variables[i].bits)]
  {
    BinarySets(seq(|s.variables|, i requires 0 <= i < |s.variables| =>
      var bits := s.variables[i].bits;
      bits[..BitSetLength(bits)]))
  }

  /**
   * The conversion with the foreign set sized by the variable's width, so
   * slot i keeps the width the foreign problem declared.
   */
  function ConvertBinary(w: Wrapper, s: Solution, created: Variables): (v: Variables)
    requires w.inner.InnerBinary? && Conforms(w, s) && CreatedFits(w, created)
    ensures v.BinarySets? && |v.sets| == |s.variables|
    ensures forall i :: 0 <= i < |v.sets| ==> |v.sets[i]| == w.inner.bitsPerVariable[i] == |created.sets[i]|
    ensures forall i :: 0 <= i < |v.sets| ==> v.sets[i] == s.variables[i].bits
  {
    BinarySets(seq(|s.variables|, i requires 0 <= i < |s.variables| => s.variables[i].bits))
  }

  /**
   * The as-written conversion keeps the same bits as the corrected one up to
   * its length and drops only clear bits; it keeps the width exactly when the
   * variable is empty or its last bit is set.
   */
  lemma AsWrittenTruncatesClearTail(w: Wrapper, s: Solution, created: Variables, i: nat)
    requires w.inner.InnerBinary? && Conforms(w, s) && CreatedFits(w, created) && i < |s.variables|
    ensures var short := ConvertBinaryAsWritten(w, s, created).sets[i];
            var full := ConvertBinary(w, s, created).sets[i];
            && short == full[..|short|]
            && (forall j :: |short| <= j < |full| ==> !full[j])
            && (|short| == |full| <==> full == [] || full[|full| - 1])
  {
  }

  /**
   * The discrepancy, concretely: a ten-bit variable with no bit set reaches
   * the foreign problem as a set of size zero rather than ten.
   */
  lemma AsWrittenLosesWidth()
    ensures var w := Wrapper("OneZeroMax", InnerBinary(1, 0, [10]));
            var s := Solution([BinaryVar(seq(10, _ => false))], [ZERO], []);
            var created := BinarySets([seq(10, _ => true)]);
            && Conforms(w, s) && CreatedFits(w, created)
            && |ConvertBinaryAsWritten(w, s, created).sets[0]| == 0
            && |ConvertBinary(w, s, created).sets[0]| == 10
  {
  }

  /** `convert` as the wrapper performs it: real values, or bits cut at their logical length. */
  function Convert(w: Wrapper, s: Solution, created: Variables): (v: Variables)
    requires Conforms(w, s) && CreatedFits(w, created)
    ensures w.inner.InnerDouble? ==> v == ConvertDouble(w, s, created)
    ensures w.inner.InnerBinary? ==> v == ConvertBinaryAsWritten(w, s, created)
  {
    match w.inner
    case InnerDouble(_, _, _) => ConvertDouble(w, s, created)
    case InnerBinary(_, _, _) => ConvertBinaryAsWritten(w, s, created)
  }

  /** The conversion with the width-preserving binary case. */
  function ConvertCorrected(w: Wrapper, s: Solution, created: Variables): (v: Variables)
    requires Conforms(w, s) && CreatedFits(w, created)
    ensures w.inner.InnerDouble? ==> v == ConvertDouble(w, s, created)
    ensures w.inner.InnerBinary? ==> v == ConvertBinary(w, s, created)
  {
    match w.inner
    case InnerDouble(_, _, _) => ConvertDouble(w, s, created)
    case InnerBinary(_, _, _) => ConvertBinary(w, s, created)
  }

  /** Every binary variable is empty or has its last bit set, so its logical length is its width. */
  predicate NoClearTail(s: Solution)
  {
    forall i :: 0 <= i < |s.variables| && s.variables[i].BinaryVar? ==>
      var bits := s.variables[i].bits;
      bits == [] || bits[|bits| - 1]
  }

  /**
   * The two conversions agree exactly on real problems and on binary
   * solutions without a clear tail bit.
   */
  lemma ConvertsAgreeExactly(w: Wrapper, s: Solution, created: Variables)
    requires Conforms(w, s) && CreatedFits(w, created)
    ensures Convert(w, s, created) == ConvertCorrected(w, s, created) <==> w.inner.InnerDouble? || NoClearTail(s)
  {
    if w.inner.InnerBinary? {
      var short := ConvertBinaryAsWritten(w, s, created).sets;
      var full := ConvertBinary(w, s, created).sets;
      if NoClearTail(s) {
        forall i | 0 <= i < |short|
          ensures short[i] == full[i]
        {
          AsWrittenTruncatesClearTail(w, s, created, i);
        }
      } else {
        var i :| 0 <= i < |s.variables| && !(s.variables[i].bits == [] || s.variables[i].bits[|s.variables[i].bits| - 1]);
        AsWrittenTruncatesClearTail(w, s, created, i);
        assert short[i] != full[i];
      }
    }
  }

  /**
   * A foreign constraint is violated when negative, a host one when non-zero:
   * a positive foreign value is therefore reset to 0.0; anything else,
   * including NaN, is kept.
   */
  function Clamp(c: Double): (d: Double)
    ensures !IsPositive(d)
    ensures IsPositive(c) ==> d == ZERO
    ensures !IsPositive(c) ==> d == c
  {
    if IsPositive(c) then ZERO else c
  }

  lemma ClampExamples()
    ensures Clamp(Finite(-3.0)) == Finite(-3.0)
    ensures Clamp(ZERO) == ZERO
    ensures Clamp(Finite(2.0)) == ZERO
    ensures Clamp(PosInf) == ZERO && Clamp(NaN) == NaN
  {
  }

  /**
   * The results of the foreign evaluation copied back: the foreign objectives
   * verbatim and the foreign constraints with positive values cleared.
   */
  function Reconcile(w: Wrapper, s: Solution, e: Evaluation): (r: Solution)
    requires Conforms(w, s)
    requires |e.objectives| == NumberOfObjectives(w) && |e.constraints| == NumberOfConstraints(w)
    ensures Conforms(w, r) && r.variables == s.variables
    ensures r.objectives == e.objectives
    ensures forall i :: 0 <= i < |r.constraints| ==>
              && !IsPositive(r.constraints[i])
              && (IsPositive(e.constraints[i]) ==> r.constraints[i] == ZERO)
              && (!IsPositive(e.constraints[i]) ==> r.constraints[i] == e.constraints[i])
  {
    s.(objectives := e.objectives,
       constraints := seq(|e.constraints|, i requires 0 <= i < |e.constraints| => Clamp(e.constraints[i])))
  }

  /**
   * `evaluate`: the host solution keeps its variables, takes the foreign
   * objectives verbatim and the foreign constraints with positive values
   * cleared. `created` is the foreign solution `createSolution` returned, and
   * `innerEvaluate` the foreign problem's evaluation, which sees the host
   * solution as `convert` writes it.
   */
  function Evaluate(w: Wrapper, s: Solution, created: Variables, innerEvaluate: Variables -> Evaluation): (r: Solution)
    requires Conforms(w, s) && CreatedFits(w, created)
    requires forall v :: |innerEvaluate(v).objectives| == NumberOfObjectives(w)
    requires forall v :: |innerEvaluate(v).constraints| == NumberOfConstraints(w)
    ensures Conforms(w, r) && r.variables == s.variables
    ensures var e := innerEvaluate(Convert(w, s, created));
            && r.objectives == e.objectives
            && forall i :: 0 <= i < |r.constraints| ==>
                 && !IsPositive(r.constraints[i])
                 && (IsPositive(e.constraints[i]) ==> r.constraints[i] == ZERO)
                 && (!IsPositive(e.constraints[i]) ==> r.constraints[i] == e.constraints[i])
  {
    Reconcile(w, s, innerEvaluate(Convert(w, s, created)))
  }

  /** `evaluate` with the foreign problem seeing every binary variable at its declared width. */
  function EvaluateCorrected(w: Wrapper, s: Solution, created: Variables, innerEvaluate: Variables -> Evaluation): (r: Solution)
    requires Conforms(w, s) && CreatedFits(w, created)
    requires forall v :: |innerEvaluate(v).objectives| == NumberOfObjectives(w)
    requires forall v :: |innerEvaluate(v).constraints| == NumberOfConstraints(w)
    ensures Conforms(w, r) && r.variables == s.variables
    ensures var e := innerEvaluate(ConvertCorrected(w, s, created));
            && r.objectives == e.objectives
            && forall i :: 0 <= i < |r.constraints| ==>
                 && !IsPositive(r.constraints[i])
                 && (IsPositive(e.constraints[i]) ==> r.constraints[i] == ZERO)
                 && (!IsPositive(e.constraints[i]) ==> r.constraints[i] == e.constraints[i])
  {
    Reconcile(w, s, innerEvaluate(ConvertCorrected(w, s, created)))
  }

  /** Where the two conversions agree, so do the two evaluations, whatever the foreign problem computes. */
  lemma EvaluationsAgree(w: Wrapper, s: Solution, created: Variables, innerEvaluate: Variables -> Evaluation)
    requires Conforms(w, s) && CreatedFits(w, created)
    requires forall v :: |innerEvaluate(v).objectives| == NumberOfObjectives(w)
    requires forall v :: |innerEvaluate(v).constraints| == NumberOfConstraints(w)
    requires w.inner.InnerDouble? || NoClearTail(s)
    ensures Evaluate(w, s, created, innerEvaluate) == EvaluateCorrected(w, s, created, innerEvaluate)
  {
    ConvertsAgreeExactly(w, s, created);
  }

  /**
   * A foreign evaluation that reads the size of the first set reports zero
   * for an all-clear ten-bit variable, where the declared width is ten.
   */
  lemma EvaluateDiffers()
    ensures var w := Wrapper("OneZeroMax", InnerBinary(1, 0, [10]));
            var s := Solution([BinaryVar(seq(10, _ => false))], [ZERO], []);
            var created := BinarySets([seq(10, _ => true)]);
            var size := (v: Variables) => Evaluation([if v.BinarySets? && |v.sets| > 0 then Finite(|v.sets[0]| as real) else ZERO], []);
            && Conforms(w, s) && CreatedFits(w, created)
            && Evaluate(w, s, created, size).objectives == [ZERO]
            && EvaluateCorrected(w, s, created, size).objectives == [Finite(10.0)]
  {
  }

  /**
   * Every slot of the created foreign solution is overwritten, so what the
   * foreign problem's random initialisation put there never matters.
   */
  lemma EvaluateIgnoresCreatedValues(w: Wrapper, s: Solution, c1: Variables, c2: Variables, innerEvaluate: Variables -> Evaluation)
    requires Conforms(w, s) && CreatedFits(w, c1) && CreatedFits(w, c2)
    requires forall v :: |innerEvaluate(v).objectives| == NumberOfObjectives(w)
    requires forall v :: |innerEvaluate(v).constraints| == NumberOfConstraints(w)
    ensures Evaluate(w, s, c1, innerEvaluate) == Evaluate(w, s, c2, innerEvaluate)
  {
  }

  /** Evaluating twice with the same foreign evaluation changes nothing more. */
  lemma EvaluateIdempotent(w: Wrapper, s: Solution, created: Variables, innerEvaluate: Variables -> Evaluation)
    requires Conforms(w, s) && CreatedFits(w, created)
    requires forall v :: |innerEvaluate(v).objectives| == NumberOfObjectives(w)
    requires forall v :: |innerEvaluate(v).constraints| == NumberOfConstraints(w)
    ensures var once := Evaluate(w, s, created, innerEvaluate);
            Evaluate(w, once, created, innerEvaluate) == once
  {
  }

  /**
   * The wrapper and the forward adapter are inverse: a host solution of a
   * wrapped real problem, carried into the foreign representation and read
   * back by the forward real adapter over the wrapper's own schema, has the
   * same variables.
   */
  lemma DoubleRoundTrip(w: Wrapper, s: Solution, created: Variables)
    requires w.inner.InnerDouble? && Conforms(w, s) && CreatedFits(w, created)
    ensures var p := Problem(w.name, NewSolution(w));
            && DoubleProblemAdapter.Valid(p)
            && DoubleProblemAdapter.Convert(p, ConvertDouble(w, s, created).values).variables == s.variables
  {
  }

  /**
   * The same for a wrapped binary problem and the forward binary adapter, with
   * the conversion as written: the forward adapter pads a short set with clear
   * bits, which are exactly the bits the conversion dropped.
   */
  lemma BinaryRoundTrip(w: Wrapper, s: Solution, created: Variables)
    requires w.inner.InnerBinary? && Conforms(w, s) && CreatedFits(w, created)
    ensures var p := Problem(w.name, NewSolution(w));
            && BinaryProblemAdapter.Valid(p)
            && BinaryProblemAdapter.Convert(p, ConvertBinaryAsWritten(w, s, created).sets).variables == s.variables
  {
    var p := Problem(w.name, NewSolution(w));
    var h := BinaryProblemAdapter.Convert(p, ConvertBinaryAsWritten(w, s, created).sets);
    forall i | 0 <= i < |s.variables|
      ensures h.variables[i] == s.variables[i]
    {
      AsWrittenTruncatesClearTail(w, s, created, i);
      assert h.variables[i].bits == s.variables[i].bits;
    }
  }

  /** The corrected conversion round-trips as well. */
  lemma BinaryRoundTripCorrected(w: Wrapper, s: Solution, created: Variables)
    requires w.inner.InnerBinary? && Conforms(w, s) && CreatedFits(w, created)
    ensures var p := Problem(w.name, NewSolution(w));
            && BinaryProblemAdapter.Valid(p)
            && BinaryProblemAdapter.Convert(p, ConvertBinary(w, s, created).sets).variables == s.variables
  {
    var p := Problem(w.name, NewSolution(w));
    var h := BinaryProblemAdapter.Convert(p, ConvertBinary(w, s, created).sets);
    forall i | 0 <= i < |s.variables|
      ensures h.variables[i] == s.variables[i]
    {
      assert |h.variables[i].bits| == |s.variables[i].bits|;
    }
  }
}
