/** Small shared vocabulary: optional values and octets. */
module Util {

  datatype Option<+T> = None | Some(value: T)

  /** An `unsigned char`. */
  type Byte = b: int | 0 <= b < 256

  /** `n` NUL characters, the padding `bzero`/`strncpy` leave behind. */
  function Nuls(n: nat): (s: string)
    ensures |s| == n
    ensures forall i :: 0 <= i < n ==> s[i] == '\0'
  {
    if n == 0 then "" else Nuls(n - 1) + "\0"
  }

  /** `n` zero bytes. */
  function Zeros(n: nat): (s: seq<Byte>)
    ensures |s| == n
    ensures forall i :: 0 <= i < n ==> s[i] == 0
  {
    if n == 0 then [] else Zeros(n - 1) + [0]
  }
}
