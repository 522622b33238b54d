/**
 * The ballot of the leader-election component. Its definition (module
 * `ballot_leader_election`) is not part of this model: nothing in the storage
 * layer or in `NodeConfig` compares ballots, they only store and return them,
 * so a ballot is an opaque value with equality and a distinguished default,
 * `Ballot::default()`.
 */
module Ballots {

  type Ballot(==, 0)

  /** `Ballot::default()`. */
  const DefaultBallot: Ballot
}
