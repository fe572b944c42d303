# MOEA Framework ↔ jMetal bridge, modelled in Dafny

This project models the bridge between MOEA Framework (the host) and jMetal
(the foreign library). It covers both directions:

- **Encoding adapters.** A host problem is presented to jMetal as a real, binary or permutation problem. Each adapter builds foreign solutions of the right shape and converts foreign solutions back into fresh host solutions.
- **Adapter selection.** The provider picks the adapter from the classes of the schema's variables, rejects empty or mixed schemas, and narrows to real or binary adapters for algorithms that need one encoding.
- **The run adapter.** A run-to-completion jMetal algorithm is presented as a host algorithm whose single `step` is the whole run. This is a small state machine over an optional stored solution list.
- **Configuration.** A jMetal builder is configured from the property bag through its one-argument `set…` methods. The model covers the root and the latest provider versions and the latest version's iteration-count derivation.
- **The MOMBI factories.** The model covers the `pathWeights` guard and how `getAlgorithm` reports factory failures.
- **The reverse wrappers.** A jMetal benchmark problem is presented as a host problem. This covers schema construction, host→foreign conversion, and the constraint sign reconciliation in `evaluate`.

The modules are:

- `Base`: `Option`, `Result`.
- `JavaNumbers`: Java `int`, `double`, the `(int)` cast and `int` division.
- `Host`, `Foreign`, `Errors`: the data on each side and the exceptions.
- `DoubleProblemAdapter`, `BinaryProblemAdapter`, `PermutationProblemAdapter`, and their union `ProblemAdapter`.
- `AdapterSelection`, `JMetalAlgorithmAdapter`, `Properties`, `Configuration`, `Factories`, `ProblemWrappers`.

Where the code and its documentation disagree, the model follows the code:

- A run that throws inside `step`, or whose result is `null`, leaves the adapter unterminated.
- `getResult` copies constraints verbatim.
- The wrapper's `evaluate` resets only constraints that are `> 0.0`; zero, negative and NaN values are kept.
- The permutation adapter's constructor checks the variable count and the constraint count, but not the variable's type.

Java's `int` is a bounded subset type. The `(int)` cast of a `double` saturates, turns NaN into 0 and truncates toward zero. `int` division truncates toward zero and fails on a zero divisor. A `double` is a finite real, an infinity or NaN. The bridge only copies doubles, widens `int`s to them and compares them with `0.0`.

## Model

| member | source | states |
|---|---|---|
| DoubleProblemAdapter.GetBounds | src/main/java/org/moeaframework/algorithm/jmetal/adapters/DoubleProblemAdapter.java:75-78 | bound i of the list is the lower and upper bound of schema variable i, one entry per variable |
| DoubleProblemAdapter.CreateSolution | src/main/java/org/moeaframework/algorithm/jmetal/adapters/DoubleProblemAdapter.java:59-61 | the foreign solution has one value per schema variable, the schema's bounds, and the problem's objective and constraint counts |
| DoubleProblemAdapter.Convert | src/main/java/org/moeaframework/algorithm/jmetal/adapters/DoubleProblemAdapter.java:64-72 | host variable i is a real variable with schema bounds i holding foreign value i; objectives and constraints are the fresh template's |
| DoubleProblemAdapter.RoundTrip | src/main/java/org/moeaframework/algorithm/jmetal/adapters/DoubleProblemAdapter.java:59-72 | converting a freshly created foreign solution yields host reals with the schema's bounds and the created values |
| BinaryProblemAdapter.ListOfBitsPerVariable | src/main/java/org/moeaframework/algorithm/jmetal/adapters/BinaryProblemAdapter.java:62-74 | one width per variable, and width i is schema variable i's bit count |
| BinaryProblemAdapter.CountBits | src/main/java/org/moeaframework/algorithm/jmetal/adapters/BinaryProblemAdapter.java:48-59 | the constructor's accumulation loop computes the sum of all variable widths |
| BinaryProblemAdapter.New | src/main/java/org/moeaframework/algorithm/jmetal/adapters/BinaryProblemAdapter.java:48-59 | the stored total is the sum of all variable widths (the quantity `CountBits` accumulates); every width is at most it, and it is zero exactly when every width is |
| BinaryProblemAdapter.SumBoundsEach | src/main/java/org/moeaframework/algorithm/jmetal/adapters/BinaryProblemAdapter.java:52-58 | no single width exceeds the accumulated total |
| BinaryProblemAdapter.ZeroSum | src/main/java/org/moeaframework/algorithm/jmetal/adapters/BinaryProblemAdapter.java:52-58 | the total is zero if and only if every width is zero |
| BinaryProblemAdapter.CreateSolution | src/main/java/org/moeaframework/algorithm/jmetal/adapters/BinaryProblemAdapter.java:77-79 | foreign set i has the width listed for variable i; objective and constraint counts are the problem's |
| BinaryProblemAdapter.SetBitSet | src/main/java/org/moeaframework/algorithm/jmetal/adapters/BinaryProblemAdapter.java:82-90 | a host variable keeps its width, takes bit j from the foreign set, and reads clear past the set's size |
| BinaryProblemAdapter.Convert | src/main/java/org/moeaframework/algorithm/jmetal/adapters/BinaryProblemAdapter.java:82-90 | host variable i has schema width i and the foreign set's bits position by position, clear past a short set; objectives and constraints are the template's |
| BinaryProblemAdapter.RoundTrip | src/test/java/org/moeaframework/algorithm/jmetal/adapters/BinaryProblemAdapterTest.java:51-59 | converting a freshly created foreign solution reproduces each bit set exactly |
| BinaryProblemAdapter.TenBitExample | src/test/java/org/moeaframework/algorithm/jmetal/adapters/BinaryProblemAdapterTest.java:40-43 | one ten-bit variable gives one variable, ten bits and ten mutation indices |
| PermutationProblemAdapter.New | src/main/java/org/moeaframework/algorithm/jmetal/adapters/PermutationProblemAdapter.java:44-55 | construction succeeds exactly for one variable and no constraints; a wrong variable count is reported before constraints |
| PermutationProblemAdapter.NumberOfVariables | src/main/java/org/moeaframework/algorithm/jmetal/adapters/PermutationProblemAdapter.java:77-84 | the reported variable count is the permutation's length |
| PermutationProblemAdapter.CreateSolution | src/main/java/org/moeaframework/algorithm/jmetal/adapters/PermutationProblemAdapter.java:58-60 | the foreign permutation has the schema's length, the problem's objective count and no constraint slots |
| PermutationProblemAdapter.Convert | src/main/java/org/moeaframework/algorithm/jmetal/adapters/PermutationProblemAdapter.java:63-74 | the single host variable is a permutation of the same length and element order as the foreign one |
| PermutationProblemAdapter.TenElementExample | src/test/java/org/moeaframework/algorithm/jmetal/adapters/PermutationProblemAdapterTest.java:36-38 | a ten-element permutation reports ten variables, length ten and one mutation index |
| PermutationProblemAdapter.RoundTrip | src/test/java/org/moeaframework/algorithm/jmetal/adapters/PermutationProblemAdapterTest.java:46-56 | converting a freshly created permutation reproduces it |
| ProblemAdapter.NumberOfMutationIndices | src/test/java/org/moeaframework/algorithm/jmetal/adapters/ProblemAdapterTest.java:58-62 | one index per real variable, one per bit, one for a whole permutation |
| ProblemAdapter.CreateSolution | src/test/java/org/moeaframework/algorithm/jmetal/adapters/ProblemAdapterTest.java:73-74 | every adapter creates a foreign solution of its encoding and shape with the problem's objective and constraint counts |
| ProblemAdapter.Convert | src/main/java/org/moeaframework/algorithm/jmetal/adapters/DoubleProblemAdapter.java:64-72 | every adapter's conversion has the schema's layout and the template's objectives and constraints |
| ProblemAdapter.RoundTrip | src/main/java/org/moeaframework/algorithm/jmetal/adapters/BinaryProblemAdapter.java:77-90 | for every adapter, converting a created foreign solution carries the same reals, bits or permutation back |
| AdapterSelection.SingleClass | src/main/java/org/moeaframework/algorithm/jmetal/JMetalAlgorithms.java:157-170 | the schema has exactly one variable class if and only if it is non-empty and every variable shares the first one's class |
| AdapterSelection.CreateProblemAdapter | src/main/java/org/moeaframework/algorithm/jmetal/JMetalAlgorithms.java:153-182 | no variables fail with "no defined types", several encoding families with the list of them, a single other class with "not supported" naming it; a single real or binary family yields exactly the matching adapter, and a permutation schema whatever the permutation adapter's own checks give |
| AdapterSelection.CreateDoubleProblemAdapter | src/main/java/org/moeaframework/algorithm/jmetal/JMetalAlgorithms.java:184-192 | succeeds exactly for an all-real schema; selection errors pass through, other adapters fail as needing real variables |
| AdapterSelection.CreateBinaryProblemAdapter | src/main/java/org/moeaframework/algorithm/jmetal/JMetalAlgorithms.java:194-202 | succeeds exactly for an all-binary schema; selection errors pass through, other adapters fail as needing binary variables |
| AdapterSelection.SelectedAdapterRoundTrips | src/main/java/org/moeaframework/algorithm/jmetal/latest/JMetalAlgorithms.java:140-169 | whatever adapter selection returns round-trips the foreign solutions it creates |
| JMetalAlgorithmAdapter.New | src/main/java/org/moeaframework/algorithm/jmetal/adapters/JMetalAlgorithmAdapter.java:67-75 | the budget is `maxEvaluations` as given when an integer, its `(int)` cast when a real, 25000 when absent, and text fails; a new adapter is unterminated, reports 0 evaluations and an empty result |
| JMetalAlgorithmAdapter.Step | src/main/java/org/moeaframework/algorithm/jmetal/adapters/JMetalAlgorithmAdapter.java:113-122 | runs exactly when no solution list is stored; stores a returned list; a `null` result stores nothing; a throwing run is reported; after `null` or a throw the state is unchanged and the adapter stays unterminated |
| JMetalAlgorithmAdapter.Terminate | src/main/java/org/moeaframework/algorithm/jmetal/adapters/JMetalAlgorithmAdapter.java:130-134 | afterwards the adapter is terminated; an unterminated one gets an empty list, a terminated one is unchanged |
| JMetalAlgorithmAdapter.GetResult | src/main/java/org/moeaframework/algorithm/jmetal/adapters/JMetalAlgorithmAdapter.java:97-110 | one host solution per stored foreign solution, in order, converted by the adapter, with the foreign objectives and constraints verbatim |
| JMetalAlgorithmAdapter.StepRunsOnce | src/main/java/org/moeaframework/algorithm/jmetal/adapters/JMetalAlgorithmAdapter.java:113-122 | after a step that stored a solution list, no later step runs the algorithm or changes result or evaluation count |
| JMetalAlgorithmAdapter.FailedStepLeavesPending | src/main/java/org/moeaframework/algorithm/jmetal/adapters/JMetalAlgorithmAdapter.java:114-121 | a throwing run leaves the adapter unterminated with 0 evaluations and an empty result, and the next step runs again |
| JMetalAlgorithmAdapter.TerminateBeforeStep | src/main/java/org/moeaframework/algorithm/jmetal/adapters/JMetalAlgorithmAdapter.java:125-134 | terminating first gives a terminated adapter with an empty result and the budget as count, whose steps never run |
| JMetalAlgorithmAdapter.TerminateAfterStep | src/main/java/org/moeaframework/algorithm/jmetal/adapters/JMetalAlgorithmAdapter.java:113-134 | terminating after a step that stored a list changes nothing; after one that threw or returned `null` it stores an empty list |
| JMetalAlgorithmAdapter.NullResultLeavesPending | src/main/java/org/moeaframework/algorithm/jmetal/adapters/JMetalAlgorithmAdapter.java:113-127 | a `null` result leaves the adapter unterminated with 0 evaluations and an empty result, and the next step runs the algorithm again |
| JMetalAlgorithmAdapter.EvaluationsFollowState | src/main/java/org/moeaframework/algorithm/jmetal/adapters/JMetalAlgorithmAdapter.java:83-89 | a terminated adapter reports the budget, an unterminated one reports 0 |
| JMetalAlgorithmAdapter.EvaluateIgnoresState | src/main/java/org/moeaframework/algorithm/jmetal/adapters/JMetalAlgorithmAdapter.java:78-80 | evaluation is the host problem's own, before and after stepping or terminating |
| JavaNumbers.DoubleToInt | src/main/java/org/moeaframework/algorithm/jmetal/adapters/JMetalAlgorithmAdapter.java:73 | the `(int)` cast: NaN to 0, saturation at the `int` range, truncation toward zero otherwise |
| JavaNumbers.WidenNarrow | src/main/java/org/moeaframework/algorithm/jmetal/adapters/JMetalAlgorithmAdapter.java:73 | an integer budget read through `getDouble` and cast back is the same integer |
| JavaNumbers.IntDiv | src/main/java/org/moeaframework/algorithm/jmetal/latest/JMetalAlgorithms.java:136 | Java `int` division: fails on zero, quotient magnitude is the magnitudes' quotient with the product sign, `MIN_VALUE / -1` wraps |
| JavaNumbers.IntDivTruncates | src/main/java/org/moeaframework/algorithm/jmetal/latest/JMetalAlgorithms.java:136 | -7 / 2 is -3 in Java, not the floor -4 |
| Properties.GetInt | src/main/java/org/moeaframework/algorithm/jmetal/latest/JMetalAlgorithms.java:134 | the default when absent; succeeds exactly on an integer value and returns it |
| Properties.GetDouble | src/main/java/org/moeaframework/algorithm/jmetal/latest/JMetalAlgorithms.java:131-133 | the default when absent; integers widen, reals are kept, text fails |
| Properties.GetDoubleAsInt | src/main/java/org/moeaframework/algorithm/jmetal/adapters/JMetalAlgorithmAdapter.java:73 | the default when absent; an integer value as given, a real through the `(int)` cast, text fails |
| Properties.ResolveEnum | src/main/java/org/moeaframework/algorithm/jmetal/latest/JMetalAlgorithms.java:224-227 | `valueOf` succeeds exactly when the text is one of the constant names |
| Configuration.PropertyName | src/main/java/org/moeaframework/algorithm/jmetal/JMetalAlgorithms.java:229-230 | the property is the method name after `set` with its first character lower-cased |
| Configuration.PropertyNameInvertsSetterName | src/main/java/org/moeaframework/algorithm/jmetal/JMetalAlgorithms.java:230 | deriving the property from the bean setter name of a property gives that property back |
| Configuration.PropertyNameExample | src/main/java/org/moeaframework/algorithm/jmetal/latest/JMetalAlgorithms.java:211 | `setMaxIterations` configures `maxIterations`; a bare `set` configures the empty name |
| Configuration.GetMaxIterations | src/main/java/org/moeaframework/algorithm/jmetal/latest/JMetalAlgorithms.java:129-138 | an explicit `maxIterations` wins, an integer as given and a real through the `(int)` cast; otherwise a malformed swarm size fails even beside a population size, and a zero population size fails the division |
| Configuration.GetMaxIterationsDivides | src/main/java/org/moeaframework/algorithm/jmetal/latest/JMetalAlgorithms.java:132-136 | with non-negative integer budget and positive population size the count is their quotient |
| Configuration.GetMaxIterationsCastsBudget | src/main/java/org/moeaframework/algorithm/jmetal/latest/JMetalAlgorithms.java:131-136 | a real budget is cast to `int` and then divided by the population size |
| Configuration.GetMaxIterationsQuotient | src/main/java/org/moeaframework/algorithm/jmetal/latest/JMetalAlgorithms.java:131-136 | with integer numbers only, the count is the budget (25000 by default) over the population size, which falls back to the swarm size and then to 100 |
| Configuration.GetMaxIterationsUsesSwarmSize | src/main/java/org/moeaframework/algorithm/jmetal/latest/JMetalAlgorithms.java:134 | without a population size the swarm size divides the default budget |
| Configuration.GetMaxIterationsExamples | src/main/java/org/moeaframework/algorithm/jmetal/latest/JMetalAlgorithms.java:129-138 | nothing set gives 250, population size 50 gives 500, an explicit 12.9 gives 12, a malformed swarm size fails |
| Configuration.EffectOf | src/main/java/org/moeaframework/algorithm/jmetal/JMetalAlgorithms.java:225-262 | only considered setters are touched; an invocation passes an argument the parameter accepts; a resolution names a constant of the enum; only the latest version reports an uncallable type |
| Configuration.WhichSettersInvoked | src/main/java/org/moeaframework/algorithm/jmetal/JMetalAlgorithms.java:248-257 | in both versions an enum setter is never invoked; a setter of another type is invoked only as the `maxIterations` setter, with the derived count |
| Configuration.PresentPropertyPassedThrough | src/main/java/org/moeaframework/algorithm/jmetal/latest/JMetalAlgorithms.java:215-223 | a present property reaches an int or double setter as its value (widened for a double parameter); a non-integer for an int setter fails |
| Configuration.LatestFallbackOnlyWhenAbsent | src/main/java/org/moeaframework/algorithm/jmetal/latest/JMetalAlgorithms.java:231-235 | an absent property is only ever passed to the `maxIterations` setter, with the derived count |
| Configuration.FallbackInvoked | src/main/java/org/moeaframework/algorithm/jmetal/latest/JMetalAlgorithms.java:231-235 | in both versions an absent `maxIterations` property sends the derived count to its setter exactly when the count was derived and the setter takes and accepts an `int`; otherwise the setter fails |
| Configuration.PresentEnumResolved | src/main/java/org/moeaframework/algorithm/jmetal/latest/JMetalAlgorithms.java:224-227 | a present enum property resolves to its constant exactly when its text names one; any other value fails |
| Configuration.LatestFallbackExample | src/main/java/org/moeaframework/algorithm/jmetal/latest/JMetalAlgorithms.java:231-235 | with only a population size of 50, the builder's `setMaxIterations` is called once, with 500 |
| Configuration.VersionsAgreeOnTypedSetters | src/main/java/org/moeaframework/algorithm/jmetal/JMetalAlgorithms.java:234-262 | for int, double and enum setters the root version given the same derived count behaves as the latest |
| Configuration.VersionsDifferOnOtherSetters | src/main/java/org/moeaframework/algorithm/jmetal/latest/JMetalAlgorithms.java:228-230 | for another type with the property present, the latest version only reports it; the root version falls through to the fallback, calling a `maxIterations` setter that takes a boxed `int` with the derived count and leaving any other setter untouched |
| Configuration.AppliedAppend | src/main/java/org/moeaframework/algorithm/jmetal/JMetalAlgorithms.java:263-266 | a setter's failure does not affect the others: loading two halves of the table gives the calls of each half in order |
| Configuration.AppliedExactly | src/main/java/org/moeaframework/algorithm/jmetal/latest/JMetalAlgorithms.java:236-239 | the builder receives a call exactly for each setter whose own outcome is an invocation |
| Configuration.FailedReported | src/main/java/org/moeaframework/algorithm/jmetal/JMetalAlgorithms.java:263-266 | every property whose setter fails on its own is reported as failed, wherever it sits in the table |
| Configuration.FailedOnlyWhenFailing | src/main/java/org/moeaframework/algorithm/jmetal/latest/JMetalAlgorithms.java:236-239 | a property is reported as failed only if some setter for it failed on its own |
| Configuration.LoadProperties | src/main/java/org/moeaframework/algorithm/jmetal/latest/JMetalAlgorithms.java:203-242 | the walk over the builder's methods makes the table's calls in order and collects the failed properties, continuing past each failure |
| Factories.NewMombi | src/main/java/org/moeaframework/algorithm/jmetal/latest/JMetalAlgorithms.java:410-429 | selection errors come first, then a missing `pathWeights`; a built algorithm gets the selected adapter, the version's iteration count and the bag's `pathWeights` |
| Factories.GetAlgorithm | src/main/java/org/moeaframework/algorithm/jmetal/JMetalAlgorithms.java:139-145 | a foreign-library exception becomes "provider not found" for the name; everything else passes unchanged |
| Factories.MissingPathWeightsNotFound | src/main/java/org/moeaframework/algorithm/jmetal/JMetalAlgorithms.java:465-507 | MOMBI or MOMBI2 for a supported problem without `pathWeights` is "provider not found" in both versions |
| Factories.SchemaErrorsPropagate | src/main/java/org/moeaframework/algorithm/jmetal/latest/JMetalAlgorithms.java:120-127 | a rejected schema is reported as the problem's error, never as "provider not found" |
| Factories.NarrowingMismatchNotFound | src/main/java/org/moeaframework/algorithm/jmetal/JMetalAlgorithms.java:184-192 | a real-only algorithm on another supported problem is "provider not found" |
| Factories.LatestMombiIterations | src/main/java/org/moeaframework/algorithm/jmetal/latest/JMetalAlgorithms.java:432-451 | with only `pathWeights` and a population size of 50, the latest factory passes 500 iterations and a 25000 budget |
| ProblemWrappers.Register | src/main/java/org/moeaframework/problem/jmetal/JMetalProblems.java:165-171 | the registry key is the name followed by `-JMetal`; the wrapper keeps the bare name |
| ProblemWrappers.RegisteredNamesDistinct | src/main/java/org/moeaframework/problem/jmetal/JMetalProblems.java:165-171 | distinct names never share a registry key |
| ProblemWrappers.InitVariables | src/main/java/org/moeaframework/problem/jmetal/JMetalProblems.java:241-276 | real variable i has the foreign bounds i; binary variable i has the foreign width i, all clear |
| ProblemWrappers.NewSolution | src/main/java/org/moeaframework/problem/jmetal/JMetalProblems.java:214-218 | a new solution has the foreign problem's counts and the initialised variables |
| ProblemWrappers.ConvertDouble | src/main/java/org/moeaframework/problem/jmetal/JMetalProblems.java:234-238 | foreign value i is host real i; the foreign bounds stay |
| ProblemWrappers.BitSetLength | src/main/java/org/moeaframework/problem/jmetal/JMetalProblems.java:260 | one past the highest set bit, with every later bit clear |
| ProblemWrappers.ConvertBinaryAsWritten | src/main/java/org/moeaframework/problem/jmetal/JMetalProblems.java:258-269 | foreign set i is host variable i's bits cut at their logical length |
| ProblemWrappers.ConvertBinary | src/main/java/org/moeaframework/problem/jmetal/JMetalProblems.java:258-269 | the corrected definition of this conversion, not the code as written: foreign set i has the width the foreign problem declared and host variable i's bits |
| ProblemWrappers.AsWrittenTruncatesClearTail | src/main/java/org/moeaframework/problem/jmetal/JMetalProblems.java:258-269 | the as-written set is a prefix of the full one missing only clear bits; widths agree exactly when the last bit is set |
| ProblemWrappers.AsWrittenLosesWidth | src/main/java/org/moeaframework/problem/jmetal/JMetalProblems.java:258-269 | an all-clear ten-bit variable reaches the foreign problem as a set of size zero |
| ProblemWrappers.ConvertsAgreeExactly | src/main/java/org/moeaframework/problem/jmetal/JMetalProblems.java:258-269 | the as-written and the corrected conversions agree exactly on real problems and on binary solutions in which no variable ends in a clear bit |
| ProblemWrappers.Clamp | src/main/java/org/moeaframework/problem/jmetal/JMetalProblems.java:207-211 | a positive constraint becomes 0.0, anything else is kept, and the result is never positive |
| ProblemWrappers.ClampExamples | src/main/java/org/moeaframework/problem/jmetal/JMetalProblems.java:207-211 | -3 stays -3, 0 stays 0, 2 becomes 0, NaN stays NaN |
| ProblemWrappers.Reconcile | src/main/java/org/moeaframework/problem/jmetal/JMetalProblems.java:202-211 | the host solution keeps its variables, takes the foreign objectives verbatim and the foreign constraints with positive values reset to 0.0 |
| ProblemWrappers.Evaluate | src/main/java/org/moeaframework/problem/jmetal/JMetalProblems.java:196-212 | the foreign problem evaluates the host solution as the as-written `convert` writes it; variables untouched, foreign objectives verbatim, each constraint the foreign one with positive values reset to 0.0 |
| ProblemWrappers.EvaluateCorrected | src/main/java/org/moeaframework/problem/jmetal/JMetalProblems.java:196-211 | the corrected evaluation: the same copying back, with the foreign problem seeing every binary variable at its declared width |
| ProblemWrappers.EvaluationsAgree | src/main/java/org/moeaframework/problem/jmetal/JMetalProblems.java:196-211 | where the two conversions agree, the as-written and the corrected evaluations give the same solution for any foreign evaluation |
| ProblemWrappers.EvaluateDiffers | src/main/java/org/moeaframework/problem/jmetal/JMetalProblems.java:196-200 | a foreign evaluation reading the first set's size sees 0 for an all-clear ten-bit variable as written, 10 when corrected |
| ProblemWrappers.EvaluateIgnoresCreatedValues | src/main/java/org/moeaframework/problem/jmetal/JMetalProblems.java:197-198 | the random contents of the created foreign solution never affect the result |
| ProblemWrappers.EvaluateIdempotent | src/main/java/org/moeaframework/problem/jmetal/JMetalProblems.java:196-212 | evaluating an evaluated solution again changes nothing |
| ProblemWrappers.DoubleRoundTrip | src/main/java/org/moeaframework/problem/jmetal/JMetalProblems.java:234-247 | a host solution carried to the foreign side and read back by the forward real adapter over the wrapper's schema has the same variables |
| ProblemWrappers.BinaryRoundTrip | src/main/java/org/moeaframework/problem/jmetal/JMetalProblems.java:258-276 | the same for binary wrappers with the as-written conversion: the forward binary adapter pads a short set with exactly the clear bits it dropped |
| ProblemWrappers.BinaryRoundTripCorrected | src/main/java/org/moeaframework/problem/jmetal/JMetalProblems.java:258-276 | the corrected conversion round-trips through the forward binary adapter as well |

## Left out

- Reflection is replaced by an explicit table of setters. This covers `getMethods`, `canAccess`, `MethodUtils` and `TypeUtils`. A setter is given its name, accessibility, arity, parameter category and the arguments it throws on. How Java classifies a parameter type and which calls reflection can make are inputs to the model.
- Logging, verbose output and stack traces are not modelled. A caught setter failure is recorded as a failed property instead.
- `DefaultAlgorithms.getMaxIterations`, used by the root provider, is not part of this model. Its outcome is a parameter of the root version.
- `TypedProperties` parsing is not modelled. Bag values are already typed as integers, reals or text. Text never parses as a number. A number's text is never an enum constant name, which ignores constants named like numbers.
- Configuration.PropertyName lower-cases ASCII letters only. `Character.toLowerCase` also lower-cases other alphabets.
- Per-algorithm factory bodies are not modelled, apart from the MOMBI `pathWeights` guard, the iteration count and the run adapter. This leaves out operators, `JMetalFactory`, builders, evaluators and the foreign constructors, and so also the exceptions they can raise.
- The foreign algorithms' `run` is not modelled. Each `step` takes what the run returned or threw as an input.
- JMetalAlgorithmAdapter.Step assumes a returned list holds solutions of the adapter's encoding and variable layout. The source stores any list, and a list that does not fit fails only later, inside `getResult`'s conversion, with an index exception (or has surplus values ignored); those deferred exceptions are not modelled.
- Dominance filtering in the `NondominatedPopulation` that `getResult` fills is not modelled. The result is the converted list.
- `getState`, `setState`, `close`, `getProblem` and the provider registry are not modelled.
- The benchmark catalog entries and their reference sets are not modelled. Only the naming of a registration is.
- The `ProblemAdapter` base class is not part of this model. Its counts are taken from the schema solution, as its tests assert.
- Random initial values of created foreign solutions are inputs.
- ProblemWrappers.Evaluate requires a host solution laid out as the wrapper's new solutions are. It also requires foreign evaluations with the declared objective and constraint counts. The array-length exceptions raised otherwise are not modelled.
- ProblemWrappers.InitVariables assumes a new host real variable holds NaN until assigned. The host variable class is not part of this model.
- BinaryProblemAdapter.New stores an unbounded sum of the widths. The Java constructor accumulates it in an `int`, which wraps once the total passes 2^31-1 bits; that wrap-around is not modelled.
- BinaryProblemAdapter.CountBits likewise sums without the `int` wrap-around of the Java loop.
- PermutationProblemAdapter.Convert requires the foreign list to be a permutation of the schema's length. The host permutation setter that the source calls rejects any other list; that setter is not part of this model, so its error path is not modelled.
- AdapterSelection.CreateProblemAdapter identifies variables by encoding family (real, binary, permutation or another named class), not by runtime class. A schema that mixes a variable class with one of its subclasses has several runtime classes, and the source reports it as having multiple types; the model cannot express such a schema and treats both as one family.
- Which parameter types reflection can pass an `int` to is an input: `OtherParam(takesInt)` marks an `Object`- or `Number`-like parameter. Overload resolution among several same-named setters is not modelled.
- Signed zero and NaN payloads of `double` are not distinguished. Bounds checks inside the host real variable are not modelled either.

## Findings

| source | as written | input that shows it | evidently intended | confidence | as-written member | corrected member |
|---|---|---|---|---|---|---|
| src/main/java/org/moeaframework/problem/jmetal/JMetalProblems.java:258-269 | the foreign `BinarySet` for variable i is sized by `bits.length()`, one past the highest set bit | a 10-bit variable with no bit set reaches the foreign problem as a set of size 0 rather than 10; any variable whose last bit is clear loses its trailing bits | the set is sized by the variable's width, the `numberOfBitsPerVariable` the foreign problem declared and `initVariables` uses | medium, not executed | ProblemWrappers.ConvertBinaryAsWritten, used by ProblemWrappers.Evaluate (counterexamples ProblemWrappers.AsWrittenLosesWidth and ProblemWrappers.EvaluateDiffers) | ProblemWrappers.ConvertBinary, used by ProblemWrappers.EvaluateCorrected (agreement ProblemWrappers.ConvertsAgreeExactly, round trip ProblemWrappers.BinaryRoundTripCorrected) |
