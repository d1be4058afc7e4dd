/** Small definitions shared by the editor's components. */
module Basics {

  /** The optional value used for results the editor may not produce:
      a key the virtual keyboard did not resolve, a file that could not be read. */
  datatype Option<+T> = None | Some(value: T)

  /** The distance between two integers. */
  function Dist(a: int, b: int): nat {
    if a >= b then a - b else b - a
  }

}
