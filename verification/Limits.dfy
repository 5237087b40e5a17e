/** Capacities of the server (utils/include/masterInclude.h) and the shared Option datatype. */
module Limits {
  type Positive = n: nat | 1 <= n witness 1

  // Compile-time constants of the program; every proof holds for any values that are at least 1.
  const MAX_USERS: Positive
  const MAX_DEVICES: Positive
  const BUFFER_SIZE: Positive

  datatype Option<+T> = None | Some(value: T)
}
