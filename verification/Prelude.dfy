// Shared definitions.

module Prelude {
  datatype Option<+T> = None | Some(value: T)

  datatype Result<+T, +E> = Ok(value: T) | Err(error: E)

  const Nul: char := '\U{0000}'

  predicate NulFree(text: string) {
    forall i :: 0 <= i < |text| ==> text[i] != Nul
  }
}
