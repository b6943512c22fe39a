// Stock datatypes shared by the other modules.

module Wrappers {

  datatype Option<+T> = None | Some(value: T)

  /** How a call to a foreign backend came out: it returned, or it raised, having taken effect or not. */
  datatype CallResult = Returned | Raised(applied: bool) {
    /** True if the backend did what was asked, whatever the caller was told. */
    predicate TookEffect() {
      Returned? || applied
    }
  }

  /** No value occurs twice in xs. */
  ghost predicate NoDup<T>(xs: seq<T>) {
    forall i, j :: 0 <= i < j < |xs| ==> xs[i] != xs[j]
  }
}
