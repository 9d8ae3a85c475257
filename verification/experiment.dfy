/** The whole experiment: derive the set-up quantities, then run the trials
    against the outcomes the search operation returned. */
module Experiment {
  import opened Classification
  import opened Harness
  import opened Setup

  /** One run of the harness with configuration `config`; `outcomes[k]` is
      the search result of trial k. */
  method RunExperiment(config: Configuration, outcomes: seq<TrialOutcome>)
    returns (derived: Derived, stats: Statistics)
    requires |outcomes| == config.repeats
    ensures derived == Derive(config)
    ensures derived.databaseSize >= 1 && derived.queries % 2 == 1
    ensures stats.numberTotal == config.repeats
    ensures stats.numberSuccess == |SuccessfulTrials(outcomes)|
    ensures stats.numberSuccess <= stats.numberTotal
  {
    derived := Derive(config);
    stats := RunTrials(config.repeats, outcomes);
  }
}
