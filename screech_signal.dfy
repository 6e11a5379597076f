/// A signal of the `screech` crate addresses a sample value: a slot of a patchbay,
/// a fixed value, or ground. It is a plain value (Rust `Copy`), so deriving one from a
/// patch point never consumes the point.
module ScreechSignal {

  datatype Signal =
    | PatchPoint(id: nat)   // refers to the slot written by another module
    | Fixed(value: real)    // a fixed sample value
    | None                  // nothing connected: ground

  /// A signal can be read from a patchbay of `size` slots without indexing out of bounds.
  predicate FitsIn(s: Signal, size: nat) {
    s.PatchPoint? ==> s.id < size
  }
}
