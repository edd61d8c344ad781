/** Small types shared by the other modules. */
module Wrappers {

  datatype Option<+T> = None | Some(value: T)

  /** How a write ends: Lost means that it took effect although the caller saw an error. */
  datatype Reply = Done | Refused | Lost {
    predicate Applied() { !Refused? }
  }
}
