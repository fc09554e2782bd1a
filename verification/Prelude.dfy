/** Values shared by every module. */
module Prelude {

  /** A value that may be absent, the program's `std::optional`. */
  datatype Option<+T> = None | Some(value: T)

  /** The concatenation of a list of strings. */
  function Flatten(parts: seq<string>): string {
    if parts == [] then "" else parts[0] + Flatten(parts[1..])
  }
}
