/** What many modules share: an optional value, and magnitudes. */
module Wrappers {
  datatype Option<+T> = None | Some(value: T)

  function Abs(x: real): real { if x < 0.0 then -x else x }
}
