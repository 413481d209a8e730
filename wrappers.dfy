/** The outcome of parsing a number typed into a portion field:
    `Some(v)` when it parses to `v`, `None` when it parses to NaN. */
module Wrappers {

  datatype Option<+T> = None | Some(value: T)

}
