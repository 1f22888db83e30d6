/** Types shared by every component of the model. */
module Prelude {

  datatype Option<+T> = None | Some(value: T)

  /** Go's int on the supported (64-bit) platforms, and int64. */
  type int64 = x: int | -0x8000_0000_0000_0000 <= x < 0x8000_0000_0000_0000

  /** The index of the first line break, or the length if there is none. */
  function LineBreak(s: string): (i: nat)
    ensures i <= |s| && (i < |s| ==> s[i] == '\n') && forall k :: 0 <= k < i ==> s[k] != '\n'
  {
    if s == "" || s[0] == '\n' then 0 else 1 + LineBreak(s[1..])
  }
}
