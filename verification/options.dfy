/** Ruby's `nil`-or-a-value, as an explicit sum type. */
module Options {

  /** `None` stands for Ruby's `nil`; it is never the same as an empty value. */
  datatype Option<+T> = None | Some(value: T)

  /** The first element of a sequence, or `None` for the empty sequence
      (Ruby's `Array#first`). */
  function First<T>(xs: seq<T>): (r: Option<T>)
    ensures r.None? <==> |xs| == 0
    ensures r.Some? ==> r.value == xs[0] && r.value in xs
  {
    if xs == [] then None else Some(xs[0])
  }
}
