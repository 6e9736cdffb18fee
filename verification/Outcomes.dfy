/** What an apply reports. */
module Outcomes {
  import opened Wrappers
  import opened StagedPlans

  datatype UnifiError = Upstream | NotFound | Malformed(reason: string)

  datatype State = Applied | AppliedUnverified | Partial | PartialRollbackFailed | RefusedStale

  datatype Outcome = Outcome(
    state: State,
    succeeded: seq<Mutation>,
    failed: seq<Mutation>,
    attemptedAndFailed: seq<Mutation>,
    neverAttempted: seq<Mutation>,
    rollbackFailures: seq<nat>,
    verificationFailure: Option<UnifiError>)

  /** Every mutation of the plan is accounted for once, in order, and the state says which lists it is in. */
  ghost predicate Conserves(o: Outcome, plan: seq<Mutation>) {
    && o.succeeded + o.attemptedAndFailed + o.neverAttempted == plan
    && o.failed == o.attemptedAndFailed + o.neverAttempted
    && |o.attemptedAndFailed| <= 1
    && (o.state.RefusedStale? ==> o.neverAttempted == plan && o.rollbackFailures == [])
    && (o.state.Applied? || o.state.AppliedUnverified? ==> o.succeeded == plan && o.rollbackFailures == [])
    && (o.state.Partial? || o.state.PartialRollbackFailed? ==> |o.attemptedAndFailed| == 1)
    && (o.state.PartialRollbackFailed? <==> o.rollbackFailures != [])
    && (o.state.AppliedUnverified? <==> o.verificationFailure.Some?)
  }
}
