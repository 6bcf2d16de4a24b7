// How a keeper's call ends.

module Calls {

  // It returns, returns an error, or panics.
  datatype Outcome = Done | Failed | Panicked
}
