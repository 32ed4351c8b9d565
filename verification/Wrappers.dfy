module Wrappers {

  datatype Option<+T> = None | Some(value: T) {
    function Else(other: Option<T>): Option<T> {
      if Some? then this else other
    }
  }
}
