/** The phases of a match: backend/src/runtime/match.runtime-state.ts. */
module MatchPhase {

  datatype Phase = ShopPlace | Battle | Resolved | Finished

  /** The order of the phases of a match that goes on, over all its rounds. */
  function Height(phase: Phase, round: nat): nat {
    3 * round + match phase case ShopPlace => 0 case Battle => 1 case _ => 2
  }
}
