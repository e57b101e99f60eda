/** The optional-value datatype and a sequence fact shared by the other
    modules. */
module Wrappers {

  /** `None` stands for Go's nil, a nil map, JavaScript's `undefined` or a -1 index. */
  datatype Option<+T> = None | Some(value: T)

  /** Slicing a whole sequence gives it back; loops that run to the end
      use it to pass from their prefix invariant to the whole input. */
  lemma SliceWhole<T>(s: seq<T>)
    ensures s[..|s|] == s
  {
  }
}
