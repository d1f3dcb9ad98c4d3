/** Math.round: half goes up, below zero as well. */
module Rounding {

  function Round(x: real): int {
    (x + 0.5).Floor
  }
}
