/** Optional values. */
module Options {
  datatype Option<+T> = None | Some(value: T) {
    /** The first present value of the two. */
    function Or(other: Option<T>): Option<T> {
      if Some? then this else other
    }
  }
}
