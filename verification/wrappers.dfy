/** The absence marker used by the resolver: `None` stands for JavaScript's
    `null` (an unresolved reservation) and `undefined` (a selection over an
    empty candidate list). */
module Wrappers {

  datatype Option<+T> = None | Some(value: T)
}
