/**
 * The byte-to-sector arithmetic both partition streams share: which
 * sectors a read of `length` bytes at byte `start` touches, and where the
 * requested bytes sit in what the device returns.
 */
module SectorMath {
  import opened Ints
  import opened Arith

  /** The origins `Stream.Seek` accepts, and any other enum value. */
  datatype SeekOrigin = Begin | Current | End | Undefined

  /**
   * How many bytes a stream read at `position` delivers out of `count`
   * requested: all of them, or what is left before `length`, as computed
   * in C# longs and cast to `int`.
   */
  function ClampedCount(position: int, count: int, length: int): (n: int)
    ensures IsInt(count) ==> IsInt(n)
    ensures IsLong(position) && IsLong(length) && position < length && 0 <= count < TWO_31 ==> 0 <= n <= count
    ensures 0 <= position < length && 0 <= count < TWO_31 && position + count < TWO_63 ==>
      0 <= n <= count && position + n <= length && (n == count || position + n == length)
  {
    if ToLong(position + count) > length then ToInt(length - position) else count
  }

  /**
   * The position `Seek` moves to, in C# longs: `offset` itself, or
   * `offset` past the current position or past the end.
   */
  function SeekTarget(origin: SeekOrigin, offset: int, position: int, length: int): (p: int)
    requires origin != Undefined
    ensures IsLong(p)
    ensures IsLong(offset) && origin == Begin ==> p == offset
    ensures IsLong(position + offset) && origin == Current ==> p == position + offset
    ensures IsLong(length + offset) && origin == End ==> p == length + offset
  {
    match origin
    case Begin => ToLong(offset)
    case Current => ToLong(position + offset)
    case End => ToLong(length + offset)
  }

  /**
   * The sector window of a read: the first sector, the end sector (one
   * past the last sector holding a requested byte), and how many bytes of
   * the first sector come before `start`.
   */
  datatype Window = Window(first: int, end: int, skip: int)

  /**
   * The window as the streams compute it in C# longs: the start rounded
   * down to a sector boundary, the end rounded up.
   */
  function SectorWindow(start: int, length: int, blockSize: int): Window
    requires blockSize > 0
  {
    var startRemains := CsRem(start, blockSize);
    var end := ToLong(start + length);
    var endRemains := CsRem(end, blockSize);
    var offsetIntoEnd := if endRemains == 0 then 0 else blockSize - endRemains;
    Window(CsDiv(start - startRemains, blockSize), CsDiv(ToLong(end + offsetIntoEnd), blockSize), startRemains)
  }

  /** `a` rounded down to a multiple of `b`, and that multiple's quotient. */
  lemma RoundDown(a: int, b: int)
    requires a >= 0 && b > 0
    ensures (a - a % b) / b == a / b && (a / b) * b == a - a % b
  {
    assert a == (a / b) * b + a % b;
    MulDivCancel(a / b, b);
  }

  /** `a` rounded up to a multiple of `b`: exact when `a` is a multiple, else the next one. */
  lemma RoundUp(a: int, b: int)
    requires a >= 0 && b > 0
    ensures var up := if a % b == 0 then 0 else b - a % b;
      (a + up) / b * b == a + up && (a + up) / b == (if a % b == 0 then a / b else a / b + 1)
  {
    var q, r := a / b, a % b;
    assert a == q * b + r;
    if r == 0 {
      MulDivCancel(q, b);
    } else {
      assert a + (b - r) == (q + 1) * b;
      MulDivCancel(q + 1, b);
    }
  }

  /**
   * For a read that starts inside the device, the window is the smallest
   * run of whole sectors holding every requested byte: it starts at the
   * sector of `start`, ends at the first sector boundary at or after
   * `start + length`, and is empty only for an empty read on a boundary.
   */
  lemma SectorWindowCovers(start: int, length: int, blockSize: int)
    requires start >= 0 && length >= 0 && blockSize > 0 && start + length + blockSize <= TWO_63
    ensures var w := SectorWindow(start, length, blockSize);
      && w.first == start / blockSize && w.skip == start % blockSize
      && w.first * blockSize + w.skip == start && 0 <= w.skip < blockSize
      && 0 <= w.first <= w.end
      && start + length <= w.end * blockSize < start + length + blockSize
      && w.skip + length <= (w.end - w.first) * blockSize
      && (w.end == w.first <==> length == 0 && w.skip == 0)
  {
    SectorWindowValues(start, length, blockSize);
    RoundedWindow(start, length, blockSize);
  }

  /** `a / b` rounded up. */
  function CeilDiv(a: int, b: int): int
    requires b > 0
  {
    if a % b == 0 then a / b else a / b + 1
  }

  /** On a start inside the device, C#'s truncating operators agree with rounding down and up. */
  lemma SectorWindowValues(start: int, length: int, blockSize: int)
    requires start >= 0 && length >= 0 && blockSize > 0 && start + length + blockSize <= TWO_63
    ensures SectorWindow(start, length, blockSize)
         == Window(start / blockSize, CeilDiv(start + length, blockSize), start % blockSize)
  {
    var end := start + length;
    var up := if end % blockSize == 0 then 0 else blockSize - end % blockSize;
    assert CsRem(start, blockSize) == start % blockSize;
    assert ToLong(start + length) == end;
    assert CsRem(end, blockSize) == end % blockSize;
    assert ToLong(end + up) == end + up;
    DivMulBelow(start, blockSize);
    RoundDown(start, blockSize);
    assert CsDiv(start - start % blockSize, blockSize) == start / blockSize;
    RoundUp(end, blockSize);
    assert CsDiv(end + up, blockSize) == CeilDiv(end, blockSize);
  }

  /** The rounded-out byte range of a read: bounds, minimality, and when it is empty. */
  lemma RoundedWindow(start: int, length: int, blockSize: int)
    requires start >= 0 && length >= 0 && blockSize > 0
    ensures var first, end, skip := start / blockSize, CeilDiv(start + length, blockSize), start % blockSize;
      && first * blockSize + skip == start && 0 <= skip < blockSize
      && 0 <= first <= end
      && start + length <= end * blockSize < start + length + blockSize
      && skip + length <= (end - first) * blockSize
      && (end == first <==> length == 0 && skip == 0)
  {
    var stop := start + length;
    var up := if stop % blockSize == 0 then 0 else blockSize - stop % blockSize;
    RoundDown(start, blockSize);
    RoundUp(stop, blockSize);
    DivMulBelow(start, blockSize);
    WindowSpan(start / blockSize, CeilDiv(stop, blockSize), blockSize, start, stop, up, start % blockSize);
    if length == 0 && start % blockSize == 0 {
      assert stop % blockSize == 0;
    }
  }

  lemma WindowSpan(first: int, end: int, b: int, start: int, stop: int, up: int, skip: int)
    requires b > 0 && 0 <= skip < b && 0 <= up < b && start <= stop
    requires first * b + skip == start && end * b == stop + up
    ensures first <= end && (end - first) * b == stop - start + up + skip
    ensures end == first <==> stop - start + up + skip == 0
  {
    assert (end - first) * b == end * b - first * b;
    MulSign(end - first, b);
  }

  /**
   * Copying `length` bytes from offset `skip` of the device's reply gives
   * exactly the requested bytes of the underlying image, whenever the
   * reply starts with the window's sectors of that image.
   */
  lemma WindowCopyIsImageSlice(image: seq<int>, reply: seq<int>, start: int, length: int, blockSize: int)
    requires start >= 0 && length >= 0 && blockSize > 0 && start + length + blockSize <= TWO_63
    requires var w := SectorWindow(start, length, blockSize);
      && 0 <= w.first * blockSize <= w.end * blockSize <= |image| && (w.end - w.first) * blockSize <= |reply|
      && reply[..(w.end - w.first) * blockSize] == image[w.first * blockSize .. w.end * blockSize]
    ensures var w := SectorWindow(start, length, blockSize);
      && 0 <= w.skip && w.skip + length <= |reply| && start + length <= |image|
      && reply[w.skip .. w.skip + length] == image[start .. start + length]
  {
    SectorWindowCovers(start, length, blockSize);
    var w := SectorWindow(start, length, blockSize);
    var base, n := w.first * blockSize, (w.end - w.first) * blockSize;
    assert n == w.end * blockSize - base;
    SliceOfPrefix(image, reply, base, n, w.skip, length);
  }

  /** Bytes `skip..skip+length` of a reply that starts with `image[base..base+n]`. */
  lemma SliceOfPrefix(image: seq<int>, reply: seq<int>, base: int, n: int, skip: int, length: int)
    requires 0 <= base && 0 <= skip && 0 <= length && skip + length <= n && base + n <= |image| && n <= |reply|
    requires reply[..n] == image[base .. base + n]
    ensures reply[skip .. skip + length] == image[base + skip .. base + skip + length]
  {
    forall i | skip <= i < skip + length
      ensures reply[i] == image[base + i]
    {
      assert reply[i] == reply[..n][i];
      assert image[base .. base + n][i] == image[base + i];
    }
  }
}
