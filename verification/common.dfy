/**
 * Failure-compatible wrappers and the byte type shared by every module:
 * `Option` stands for Swift's optionals (`init?`, `T?` results) and
 * `Outcome` for a `throws` function that returns nothing on success.
 */
module Common {

  /** One byte of host or device memory. */
  newtype Byte = b: int | 0 <= b < 256

  datatype Option<+T> = None | Some(value: T)

  datatype Outcome<+E> = Pass | Fail(error: E)

  /** `n` zero bytes: what Foundation puts in freshly added `NSMutableData` storage. */
  function Zeros(n: nat): (r: seq<Byte>)
    ensures |r| == n
    ensures forall i :: 0 <= i < n ==> r[i] == 0
  {
    seq(n, _ => 0)
  }
}
