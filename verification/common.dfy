/** Values shared by the modules of the model: optional results, the
    outcome of a query on typed input, and order-preserving selection. */
module Common {

  datatype Option<T> = None | Some(value: T)

  /** Outcome of a query on typed input: the input was blank after
      stripping, nothing matched, or the first match. */
  datatype Lookup<T> = BlankInput | NotFound | Found(value: T)

  /** r is s with some elements left out and the rest kept in order. */
  predicate Subseq<T(==)>(r: seq<T>, s: seq<T>)
    decreases |s|
  {
    |r| == 0
    || (|s| > 0
        && ((r[|r| - 1] == s[|s| - 1] && Subseq(r[..|r| - 1], s[..|s| - 1]))
            || Subseq(r, s[..|s| - 1])))
  }
}
