/** Result types shared by the whole model. */
module Wrappers {
  datatype Option<+T> = None | Some(value: T)

  /** What a Rust call that may `unwrap`, `expect` or `panic!` comes to. */
  datatype Outcome<+T> = Returned(value: T) | Panicked

  /** `std::task::Poll`. */
  datatype Poll<+T> = Pending | Ready(value: T)
}
