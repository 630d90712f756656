/**
 * `Int.padded(to:)` (older name `paddedToAlignment`): round a positive count
 * up to the next multiple of a positive alignment, or fail.
 *
 * Swift's `%` truncates toward zero and Dafny's is Euclidean; both operands
 * are positive whenever the remainder is taken, so the two agree here.
 */
module Alignment {
  import opened Common

  function Padded(count: int, alignment: int): (r: Option<int>)
    ensures r.None? <==> count <= 0 || alignment <= 0
    ensures r.Some? ==> r.value % alignment == 0
    ensures r.Some? ==> count <= r.value < count + alignment
  {
    if !(count > 0 && alignment > 0) then None
    else
      var remainder := count % alignment;
      if !(remainder > 0) then Some(count)
      else
        MultipleAfterRemainder(count, alignment);
        Some(count + alignment - remainder)
  }

  /** Filling up the remainder of `count` lands on a multiple of `alignment`. */
  lemma MultipleAfterRemainder(count: int, alignment: int)
    requires count > 0 && alignment > 0
    ensures (count + alignment - count % alignment) % alignment == 0
  {
    var q := count / alignment;
    assert count + alignment - count % alignment == (q + 1) * alignment;
    MultipleHasNoRemainder(q + 1, alignment);
  }

  lemma MultipleHasNoRemainder(k: int, alignment: int)
    requires alignment > 0
    ensures (k * alignment) % alignment == 0
  {
    var x := k * alignment;
    var q, r := x / alignment, x % alignment;
    assert x == q * alignment + r;
    assert (k - q) * alignment == r by {
      assert (k - q) * alignment == k * alignment - q * alignment;
    }
    SmallMultipleIsZero(k - q, alignment);
  }

  /** The only multiple of `alignment` strictly between `-alignment` and `alignment` is zero. */
  lemma SmallMultipleIsZero(d: int, alignment: int)
    requires alignment > 0 && -alignment < d * alignment < alignment
    ensures d == 0
  {
    MultipleBounds(d, alignment);
  }

  lemma MultipleBounds(d: int, alignment: int)
    requires alignment > 0
    ensures d >= 1 ==> d * alignment >= alignment
    ensures d <= -1 ==> d * alignment <= -alignment
  {
    if d >= 1 {
      assert d * alignment == (d - 1) * alignment + alignment;
    } else if d <= -1 {
      assert d * alignment == (d + 1) * alignment - alignment;
    }
  }

  /** A count that is already aligned is returned unchanged. */
  lemma AlignedCountUnchanged(count: int, alignment: int)
    requires count > 0 && alignment > 0 && count % alignment == 0
    ensures Padded(count, alignment) == Some(count)
  {
  }

  /** Padding is idempotent. */
  lemma PaddedIdempotent(count: int, alignment: int)
    requires Padded(count, alignment).Some?
    ensures Padded(Padded(count, alignment).value, alignment) == Padded(count, alignment)
  {
    AlignedCountUnchanged(Padded(count, alignment).value, alignment);
  }

  /** The padded count is the least multiple of the alignment that is at least the count. */
  lemma {:induction false} PaddedIsLeast(count: int, alignment: int, bound: int)
    requires Padded(count, alignment).Some?
    requires bound >= count && bound % alignment == 0
    ensures Padded(count, alignment).value <= bound
  {
    var p := Padded(count, alignment).value;
    if bound < p {
      var i, j := bound / alignment, p / alignment;
      assert bound == i * alignment && p == j * alignment;
      assert (j - i) * alignment == p - bound by {
        assert (j - i) * alignment == j * alignment - i * alignment;
      }
      SmallMultipleIsZero(j - i, alignment);
    }
  }
}
