/** The usual optional value, used for parse results, pending delayed work
    and kernel code paths that end in a BUG_ON. */
module Wrappers {

  datatype Option<+T> = None | Some(value: T)

  function Min(a: int, b: int): int { if a < b then a else b }

  function Max(a: int, b: int): int { if a < b then b else a }
}
