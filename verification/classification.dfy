/** How the database-search harness judges a single trial.

    The search operation returns the measurement of the marked qubit and the
    measured database register. The harness ignores the former and calls the
    trial a success when no element of the register was measured Zero: an
    AND-reduction over the register that starts from `true`. */
module Classification {

  /** A single-qubit measurement outcome. */
  datatype Result = Zero | One

  /** What one call of the search operation hands back: the marked qubit's
      measurement and the measured database register, in order. */
  datatype TrialOutcome = TrialOutcome(markedQubit: Result, register: seq<Result>)

  /** The harness's verdict on a register: nothing in it is Zero.
      The empty register is a success, since the initial `true` is never falsified. */
  predicate IsSuccess(register: seq<Result>)
  {
    |register| == 0 || (register[0] != Zero && IsSuccess(register[1..]))
  }

  /** Reference definition: every element of the register is One. */
  ghost predicate AllOne(register: seq<Result>)
  {
    forall i :: 0 <= i < |register| ==> register[i] == One
  }

  /** The verdict of a whole trial: only the register is consulted. */
  predicate Classify(outcome: TrialOutcome)
  {
    IsSuccess(outcome.register)
  }

  /** A register succeeds exactly when every element is One, which is
      exactly when no element is Zero. */
  lemma {:induction false} IsSuccessIffAllOne(register: seq<Result>)
    ensures IsSuccess(register) <==> AllOne(register)
    ensures IsSuccess(register) <==> Zero !in register
  {
    if |register| > 0 {
      IsSuccessIffAllOne(register[1..]);
      assert register == [register[0]] + register[1..];
      assert forall i :: 1 <= i < |register| ==> register[i] == register[1..][i - 1];
    }
  }

  /** A register with a Zero at any position is a failure. */
  lemma {:induction false} ZeroAnywhereFails(register: seq<Result>, i: nat)
    requires i < |register| && register[i] == Zero
    ensures !IsSuccess(register)
  {
    IsSuccessIffAllOne(register);
  }

  /** Appending one more measured element keeps success exactly when that
      element is not Zero. */
  lemma {:induction false} IsSuccessSnoc(prefix: seq<Result>, elt: Result)
    ensures IsSuccess(prefix + [elt]) <==> IsSuccess(prefix) && elt != Zero
  {
    IsSuccessIffAllOne(prefix);
    IsSuccessIffAllOne(prefix + [elt]);
  }

  /** States that the verdict does not depend on the marked qubit: two outcomes
      with the same register are judged alike, whatever their marked qubits.
      It holds by the definition of Classify, which reads only the register. */
  lemma ClassifyIgnoresMarkedQubit(a: TrialOutcome, b: TrialOutcome)
    requires a.register == b.register
    ensures Classify(a) == Classify(b)
  {
  }

  /** The harness's inner loop: start from `true` and clear the flag on every
      element measured Zero. */
  method ClassifyRegister(register: seq<Result>) returns (isSuccess: bool)
    ensures isSuccess == IsSuccess(register)
    ensures isSuccess <==> forall i :: 0 <= i < |register| ==> register[i] == One
  {
    isSuccess := true;
    for i := 0 to |register|
      invariant isSuccess <==> Zero !in register[..i]
    {
      assert register[..i + 1] == register[..i] + [register[i]];
      if register[i] == Zero {
        isSuccess := false;
      }
    }
    assert register[..|register|] == register;
    IsSuccessIffAllOne(register);
  }
}
