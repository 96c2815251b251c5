/** Failure-carrying values shared by the rest of the model.

    The derive macro never returns an error value: every failure is a
    `panic!` or an `unwrap()` on `None`/`Err`, which aborts the expansion.
    The model turns each such abort into `Err(p)`, with `p` naming the call
    that panicked. */
module Outcomes {

  datatype Option<T> = None | Some(value: T)

  /** The ways an expansion of the derive macro can abort. */
  datatype Panic =
    | UnparseableAttribute  // `a.parse_meta().unwrap()` in log_level
    | EmptyLevelList        // `list.nested.first().unwrap()` on `level()`
    | LiteralArgument       // the `panic!` in unwrap_meta
    | NotAnIdentifier       // `meta.path().get_ident().unwrap()`
    | UnknownLevel          // the catch-all `panic!` in Level::from_ident
    | NotAnEnum             // the `panic!` in unwrap_enum

  datatype Result<T> = Ok(value: T) | Err(error: Panic)
}
