/** `Array.Copy` from a device reply into a caller's byte array. */
module Buffers {
  import opened Wrappers
  import opened Ints

  /**
   * The exception `Array.Copy` throws for these extents, if any: a
   * negative index or length, or else a range that runs past its array.
   */
  function CopyFault(srcLength: int, srcIndex: int, dstLength: int, dstIndex: int, length: int): Option<Error>
  {
    if srcIndex < 0 || dstIndex < 0 || length < 0 then Some(ArgumentOutOfRange)
    else if srcIndex + length > srcLength || dstIndex + length > dstLength then Some(ArgumentError)
    else None
  }

  /**
   * Copy `length` bytes of `src` from `srcIndex` into `dst` at
   * `dstIndex`, or throw as `Array.Copy` does when an index or the
   * length is negative or a range runs past its array, in which case
   * nothing is written.
   */
  method Copy(src: seq<byte>, srcIndex: int, dst: array<byte>, dstIndex: int, length: int)
    returns (failure: Option<Error>)
    modifies dst
    ensures failure == CopyFault(|src|, srcIndex, dst.Length, dstIndex, length)
    ensures (srcIndex < 0 || dstIndex < 0 || length < 0) ==>
      failure == Some(ArgumentOutOfRange) && dst[..] == old(dst[..])
    ensures (srcIndex >= 0 && dstIndex >= 0 && length >= 0
             && (srcIndex + length > |src| || dstIndex + length > dst.Length)) ==>
      failure == Some(ArgumentError) && dst[..] == old(dst[..])
    ensures failure.None? <==>
      0 <= srcIndex && 0 <= dstIndex && 0 <= length && srcIndex + length <= |src| && dstIndex + length <= dst.Length
    ensures failure.None? ==>
      dst[..] == old(dst[..])[..dstIndex] + src[srcIndex .. srcIndex + length] + old(dst[..])[dstIndex + length..]
  {
    if srcIndex < 0 || dstIndex < 0 || length < 0 {
      return Some(ArgumentOutOfRange);
    }
    if srcIndex + length > |src| || dstIndex + length > dst.Length {
      return Some(ArgumentError);
    }
    forall i | dstIndex <= i < dstIndex + length {
      dst[i] := src[srcIndex + i - dstIndex];
    }
    assert dst[..] == old(dst[..])[..dstIndex] + src[srcIndex .. srcIndex + length] + old(dst[..])[dstIndex + length..];
    failure := None;
  }
}
