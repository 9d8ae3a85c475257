/** The running statistics of the trial loop.

    Before the loop both counters are zero. Each trial adds one to the total
    and adds one to the successes exactly when the trial is classified as a
    success. The calls to the search operation are replaced by the sequence
    of outcomes they returned, one per trial, in order. */
module Harness {
  import opened Classification

  /** The two counters the harness keeps: successes and attempts so far. */
  datatype Statistics = Statistics(numberSuccess: nat, numberTotal: nat)

  /** The counters before the first trial. */
  const Initial := Statistics(0, 0)

  /** Successes never outnumber attempts. */
  predicate Valid(stats: Statistics)
  {
    stats.numberSuccess <= stats.numberTotal
  }

  /** The counter update for one classified trial. */
  function Record(stats: Statistics, isSuccess: bool): (r: Statistics)
    ensures r.numberTotal == stats.numberTotal + 1
    ensures r.numberSuccess == stats.numberSuccess + 1 <==> isSuccess
    ensures !isSuccess ==> r.numberSuccess == stats.numberSuccess
    ensures stats.numberSuccess <= r.numberSuccess <= stats.numberSuccess + 1
    ensures Valid(stats) ==> Valid(r)
  {
    if isSuccess then
      Statistics(stats.numberSuccess + 1, stats.numberTotal + 1)
    else
      Statistics(stats.numberSuccess, stats.numberTotal + 1)
  }

  /** The counters after the given trials, recorded one by one from Initial. */
  function Tally(outcomes: seq<TrialOutcome>): (stats: Statistics)
    ensures stats.numberTotal == |outcomes|
    ensures Valid(stats)
  {
    if |outcomes| == 0 then Initial
    else Record(Tally(outcomes[..|outcomes| - 1]), Classify(outcomes[|outcomes| - 1]))
  }

  /** Reference definition: the positions of the trials that are successes. */
  ghost function SuccessfulTrials(outcomes: seq<TrialOutcome>): set<nat>
  {
    set i: nat | i < |outcomes| && Classify(outcomes[i])
  }

  /** The success counter counts exactly the successful trials. */
  lemma {:induction false} TallyCountsSuccesses(outcomes: seq<TrialOutcome>)
    ensures Tally(outcomes).numberSuccess == |SuccessfulTrials(outcomes)|
  {
    if |outcomes| > 0 {
      var n := |outcomes| - 1;
      var prefix := outcomes[..n];
      TallyCountsSuccesses(prefix);
      var before := SuccessfulTrials(prefix);
      assert n !in before;
      if Classify(outcomes[n]) {
        assert SuccessfulTrials(outcomes) == before + {n};
      } else {
        assert SuccessfulTrials(outcomes) == before;
      }
    }
  }

  /** Both counters only grow as trials accumulate: the counters after the
      first k trials never exceed the counters after all of them. */
  lemma {:induction false} TallyMonotone(outcomes: seq<TrialOutcome>, k: nat)
    requires k <= |outcomes|
    ensures Tally(outcomes[..k]).numberSuccess <= Tally(outcomes).numberSuccess
    ensures Tally(outcomes[..k]).numberTotal <= Tally(outcomes).numberTotal
    decreases |outcomes| - k
  {
    if k < |outcomes| {
      var prefix := outcomes[..|outcomes| - 1];
      assert prefix[..k] == outcomes[..k];
      TallyMonotone(prefix, k);
    } else {
      assert outcomes[..k] == outcomes;
    }
  }

  /** The harness's outer loop: exactly `repeats` trials, each classified and
      recorded in turn. `outcomes[k]` is what the search returned on trial k. */
  method RunTrials(repeats: nat, outcomes: seq<TrialOutcome>) returns (stats: Statistics)
    requires |outcomes| == repeats
    ensures stats.numberTotal == repeats
    ensures stats.numberSuccess == |SuccessfulTrials(outcomes)|
    ensures stats == Tally(outcomes)
  {
    var numberSuccess := 0;
    var numberTotal := 0;
    for idxAttempt := 0 to repeats
      invariant numberTotal == idxAttempt
      invariant numberSuccess <= numberTotal
      invariant Statistics(numberSuccess, numberTotal) == Tally(outcomes[..idxAttempt])
    {
      var data := outcomes[idxAttempt];
      var isSuccess := ClassifyRegister(data.register);
      if isSuccess {
        numberSuccess := numberSuccess + 1;
      }
      numberTotal := numberTotal + 1;
      assert outcomes[..idxAttempt + 1][..idxAttempt] == outcomes[..idxAttempt];
    }
    assert outcomes[..repeats] == outcomes;
    stats := Statistics(numberSuccess, numberTotal);
    TallyCountsSuccesses(outcomes);
  }
}
