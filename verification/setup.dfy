/** The integer and rational quantities the harness derives before any trial:
    the database size from the number of database qubits, the number of
    oracle queries from the number of Grover iterates, and the classical
    baseline probability of guessing the marked item. */
module Setup {

  /** The harness's fixed inputs. */
  datatype Configuration = Configuration(nDatabaseQubits: nat, nIterations: nat, repeats: nat)

  /** The quantities derived from a configuration before the loop starts. */
  datatype Derived = Derived(databaseSize: nat, queries: nat, classicalSuccessProbability: real)

  /** The literals the program is run with. */
  const ProgramConfiguration := Configuration(6, 3, 100)

  /** The number of items addressed by `nDatabaseQubits` qubits, 2^nDatabaseQubits. */
  function DatabaseSize(nDatabaseQubits: nat): (size: nat)
    ensures size >= 1
    ensures nDatabaseQubits > 0 ==> size % 2 == 0
  {
    if nDatabaseQubits == 0 then 1 else 2 * DatabaseSize(nDatabaseQubits - 1)
  }

  /** Floor of the base-2 logarithm; the inverse of DatabaseSize. */
  function Log2(size: nat): nat
    requires size >= 1
  {
    if size == 1 then 0 else 1 + Log2(size / 2)
  }

  /** The qubit count can be read back from the database size. */
  lemma {:induction false} Log2DatabaseSize(nDatabaseQubits: nat)
    ensures Log2(DatabaseSize(nDatabaseQubits)) == nDatabaseQubits
  {
    if nDatabaseQubits > 0 {
      var smaller := DatabaseSize(nDatabaseQubits - 1);
      assert DatabaseSize(nDatabaseQubits) / 2 == smaller;
      Log2DatabaseSize(nDatabaseQubits - 1);
    }
  }

  /** One more qubit strictly enlarges the database; more qubits, larger database. */
  lemma {:induction false} DatabaseSizeIncreasing(m: nat, n: nat)
    requires m < n
    ensures DatabaseSize(m) < DatabaseSize(n)
    decreases n
  {
    if m < n - 1 {
      DatabaseSizeIncreasing(m, n - 1);
    }
  }

  /** Queries to the database oracle: one per half of each Grover iterate, plus one. */
  function Queries(nIterations: nat): (queries: nat)
    ensures queries % 2 == 1
    ensures queries >= 1
    ensures (queries - 1) / 2 == nIterations
  {
    nIterations * 2 + 1
  }

  /** The chance of hitting the single marked item with one uniform classical guess. */
  function ClassicalSuccessProbability(nDatabaseQubits: nat): (p: real)
    ensures 0.0 < p <= 1.0
    ensures p * (DatabaseSize(nDatabaseQubits) as real) == 1.0
  {
    1.0 / (DatabaseSize(nDatabaseQubits) as real)
  }

  /** Each extra qubit halves the classical baseline. */
  lemma ClassicalSuccessProbabilityHalves(nDatabaseQubits: nat)
    ensures 2.0 * ClassicalSuccessProbability(nDatabaseQubits + 1)
         == ClassicalSuccessProbability(nDatabaseQubits)
  {
  }

  /** Everything the harness derives before the loop. */
  function Derive(config: Configuration): (d: Derived)
    ensures d.databaseSize >= 1 && Log2(d.databaseSize) == config.nDatabaseQubits
    ensures d.queries % 2 == 1 && (d.queries - 1) / 2 == config.nIterations
    ensures 0.0 < d.classicalSuccessProbability <= 1.0
    ensures d.classicalSuccessProbability * (d.databaseSize as real) == 1.0
  {
    Log2DatabaseSize(config.nDatabaseQubits);
    Derived(DatabaseSize(config.nDatabaseQubits),
            Queries(config.nIterations),
            ClassicalSuccessProbability(config.nDatabaseQubits))
  }

  /** With the program's literals: 64 items, 7 queries, baseline 1/64. */
  lemma ProgramConfigurationDerived()
    ensures Derive(ProgramConfiguration) == Derived(64, 7, 1.0 / 64.0)
  {
  }
}
