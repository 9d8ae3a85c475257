# Database-search trial harness

A Dafny model of the classical harness around the Grover database-search
sample (`DatabaseSearch-Exercise1/Program.cs`, method `Main`). The harness:

- derives the database size `2^nDatabaseQubits`, the number of oracle
  queries `2*nIterations + 1` and the classical baseline `1/databaseSize`;
- runs exactly `repeats` trials; each trial calls the quantum search
  operation and gets back a marked-qubit measurement and a measured
  database register;
- classifies each trial as a success when no register element is `Zero`.
  This AND-reduction over the register starts from `true`, and the marked
  qubit plays no part in it;
- keeps the two running counters `numberSuccess` and `numberTotal`.

The quantum search call is replaced by a parameter. `RunTrials` and
`RunExperiment` receive the sequence of outcomes the search returned, one
`TrialOutcome(markedQubit, register)` per trial, in order. A measurement is
the datatype `Result = Zero | One`.

Modules:

- `Classification` (`classification.dfy`) holds `Result`, `TrialOutcome`,
  the recursive verdict `IsSuccess`, and the inner loop `ClassifyRegister`.
- `Harness` (`harness.dfy`) holds the counters `Statistics`, the per-trial
  update `Record`, the functional tally `Tally`, and the outer loop `RunTrials`.
- `Setup` (`setup.dfy`) holds `DatabaseSize`, `Queries` and
  `ClassicalSuccessProbability`, over `nat` and `real` instead of `double`.
- `Experiment` (`experiment.dfy`) composes the set-up and the loop, as `Main` does.

`Program.cs` checks neither the qubit count nor the repeat count: it uses
the literals 6, 3 and 100. The model follows the code: counts are `nat`, and
`repeats = 0` runs no trials.

## Model

The classification rows are about two predicates in `Classification`:
`IsSuccess`, the verdict on a register (`Program.cs:70-76`), and `Classify`,
the verdict on a whole trial outcome, which reads only the register
(`Program.cs:68-76`).

| member | source | states |
|---|---|---|
| Classification.IsSuccessIffAllOne | DatabaseSearch-Exercise1/Program.cs:70-76 | the recursive verdict holds exactly when every register element is One, and exactly when no element is Zero (both directions); the empty register is a success |
| Classification.ZeroAnywhereFails | DatabaseSearch-Exercise1/Program.cs:72-75 | a register with Zero at any position is classified as a failure |
| Classification.IsSuccessSnoc | DatabaseSearch-Exercise1/Program.cs:72-76 | measuring one more element keeps the verdict a success exactly when that element is not Zero |
| Classification.ClassifyIgnoresMarkedQubit | DatabaseSearch-Exercise1/Program.cs:68-76 | two outcomes with the same register get the same verdict, whatever their marked qubit |
| Classification.ClassifyRegister | DatabaseSearch-Exercise1/Program.cs:69-76 | the flag loop (start true, clear on each Zero) returns the recursive verdict, i.e. true iff every element is One |
| Harness.Record | DatabaseSearch-Exercise1/Program.cs:78-79 | one trial adds exactly 1 to the total; it adds 1 to the successes iff the trial succeeded and otherwise leaves them unchanged; successes <= total is preserved |
| Harness.Tally | DatabaseSearch-Exercise1/Program.cs:54-57 | after k trials the total is k and 0 <= successes <= total |
| Harness.TallyCountsSuccesses | DatabaseSearch-Exercise1/Program.cs:70-85 | the success counter equals the number of trial positions whose outcome is classified a success |
| Harness.TallyMonotone | DatabaseSearch-Exercise1/Program.cs:78-89 | both counters are non-decreasing as trials accumulate: a prefix's counters never exceed the whole run's |
| Harness.RunTrials | DatabaseSearch-Exercise1/Program.cs:53-85 | the loop runs exactly `repeats` trials; on exit numberTotal == repeats and numberSuccess is the number of successful trials among the supplied outcomes |
| Setup.DatabaseSize | DatabaseSearch-Exercise1/Program.cs:40-41 | 2^n is at least 1, and even for n > 0 |
| Setup.Log2DatabaseSize | DatabaseSearch-Exercise1/Program.cs:38-41 | the qubit count is recovered from the database size (base-2 logarithm is its inverse) |
| Setup.DatabaseSizeIncreasing | DatabaseSearch-Exercise1/Program.cs:38-41 | more qubits give a strictly larger database |
| Setup.Queries | DatabaseSearch-Exercise1/Program.cs:44-47 | the query count is odd, at least 1, and recovers nIterations as (queries - 1) / 2 |
| Setup.ClassicalSuccessProbability | DatabaseSearch-Exercise1/Program.cs:51 | the classical baseline lies in (0, 1] and is the reciprocal of the database size |
| Setup.ClassicalSuccessProbabilityHalves | DatabaseSearch-Exercise1/Program.cs:41-51 | one more qubit halves the classical baseline |
| Setup.Derive | DatabaseSearch-Exercise1/Program.cs:40-51 | the derived size, query count and baseline together satisfy the three properties above |
| Setup.ProgramConfigurationDerived | DatabaseSearch-Exercise1/Program.cs:40-53 | with the literals 6, 3, 100: 64 items, 7 queries, baseline 1/64 |
| Experiment.RunExperiment | DatabaseSearch-Exercise1/Program.cs:23-92 | set-up then loop: total == repeats, successes <= total and equal to the count of successful outcomes |

## Left out

- The simulator construction and the search call (`Program.cs:30`, `62-65`) run on a foreign quantum-simulation runtime. They are replaced by the supplied outcome sequence.
- An exception raised by the search call aborts the run in the source. The model covers runs in which every call returns. An aborting run would be an outcome sequence cut short, with no final counters.
- `quantumSuccessProbability` (`Program.cs:52`) is double-precision trigonometry (`Sin`, `Asin`, `Sqrt`, `Pow`), so it is not modelled.
- The console output of the register and the running counters (`Program.cs:82-89`) is not modelled. Neither is `Pause` with its `ReadKey` (`Program.cs:17-21`, `91`). The counters that would be printed are the values `Tally` gives on each prefix.
- The source decides `Zero` by comparing `elt.ToString()` with the string "Zero" (`Program.cs:73`). The model compares with the `Zero` constructor instead.
- Setup.DatabaseSize: `Math.Pow(2.0, n)` returns a double. The model uses the exact natural `2^n`, which the double equals for every qubit count up to 1023.
- Setup.ClassicalSuccessProbability: the model divides exact reals, not doubles. `1/2^n` is exact in binary floating point for the counts in range.
- Setup.Queries: it does not model C# 32-bit wrap-around of `nIterations * 2 + 1`. The only input in the source is the literal 3.
