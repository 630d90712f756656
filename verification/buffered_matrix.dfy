/**
 * `BufferedMatrix` and `ResizableBufferedMatrix`: a matrix whose padded
 * storage lives in a `ResizableBuffer` it owns. The storage only ever grows,
 * and a resize commits the new shape only once the storage can hold it.
 */
module BufferedMatrices {
  import opened Common
  import opened Alignment
  import opened Matrix
  import opened CPUBuffers
  import opened MetalBuffers

  /**
   * The `ResizableBuffer` protocol, closed over its two conforming classes:
   * host memory (`CPUBuffer`) and device memory (`MetalBuffer`).
   */
  datatype BufferRef = Host(cpu: CPUBuffer) | Device(metal: MetalBuffer)
  {
    function Object(): object {
      if Host? then cpu else metal
    }

    ghost function Repr(): set<object>
      reads Object()
    {
      if Host? then cpu.Repr else metal.Repr
    }

    ghost predicate Valid()
      reads Object(), Repr()
    {
      if Host? then cpu.Valid() else metal.Valid()
    }

    function Length(): nat
      reads Object(), Repr()
      requires Valid()
    {
      if Host? then cpu.Length() else metal.Length()
    }

    ghost function Contents(): (s: seq<Byte>)
      reads Object(), Repr()
      requires Valid()
      ensures |s| == Length()
    {
      if Host? then cpu.Contents() else metal.Contents()
    }

    /**
     * Whether a resize to a new positive length can be carried out: host
     * storage that already exists grows in place, which is modelled as never
     * failing (`increaseLength`'s allocation failure is not modelled).
     */
    ghost predicate CanAllocate(granted: bool)
      reads Object(), Repr()
      requires Valid()
    {
      granted || (Host? && Length() > 0)
    }

    /** `resizeToLength`: the protocol's contract, met by both buffers. */
    method Resize(newLength: int, granted: bool) returns (ok: bool)
      requires Valid()
      modifies Repr()
      ensures Valid() && fresh(Repr() - old(Repr()))
      ensures ok <==> Length() == newLength
      ensures ok <==> newLength >= 0 && (newLength == old(Length()) || newLength == 0 || old(CanAllocate(granted)))
      ensures !ok || newLength == old(Length()) ==> Contents() == old(Contents())
      ensures forall i :: 0 <= i < Length() && i < old(Length()) ==> Contents()[i] == old(Contents())[i]
      ensures Host? ==> forall i :: old(Length()) <= i < Length() ==> Contents()[i] == 0
    {
      if Host? {
        ok := cpu.Resize(newLength, granted);
      } else {
        ok := metal.Resize(newLength, granted);
      }
    }
  }

  /** `_byteCountForPaddedRowCount`: the storage a padded shape needs, or nil. */
  function ByteCountForPadded(paddedRowCount: int, paddedColumnCount: int): (r: Option<int>)
    ensures r.None? <==> paddedRowCount <= 0 || paddedColumnCount <= 0
    ensures r.Some? ==> r.value > 0
    ensures r.Some? ==> forall rows, columns :: r.value == Layout(rows, columns, paddedRowCount, paddedColumnCount).ByteCount()
  {
    if !(paddedRowCount > 0 && paddedColumnCount > 0) then None
    else
      assert paddedRowCount * paddedColumnCount > 0;
      Some(paddedRowCount * paddedColumnCount * ElementSize)
  }

  /**
   * The shape `init?` and `resizeToRowCount` compute: padded extents for a
   * positive row and column count under a positive alignment, or nil.
   */
  function PaddedLayout(rowCount: int, columnCount: int, alignment: int): (r: Option<Layout>)
    ensures r.None? <==> rowCount <= 0 || columnCount <= 0 || alignment <= 0
    ensures r.Some? ==> r.value.WellFormed()
    ensures r.Some? ==> r.value.rowCount == rowCount && r.value.columnCount == columnCount
    ensures r.Some? ==> Padded(rowCount, alignment) == Some(r.value.paddedRowCount)
    ensures r.Some? ==> Padded(columnCount, alignment) == Some(r.value.paddedColumnCount)
    ensures r.Some? ==> ByteCountForPadded(r.value.paddedRowCount, r.value.paddedColumnCount) == Some(r.value.ByteCount())
  {
    match (Padded(rowCount, alignment), Padded(columnCount, alignment))
    case (Some(paddedRowCount), Some(paddedColumnCount)) =>
      Some(Layout(rowCount, columnCount, paddedRowCount, paddedColumnCount))
    case _ => None
  }

  /** `ResizableBufferedMatrix` (with `BufferedMatrix`'s `init?` as `Create`). */
  class BufferedMatrix {
    const buffer: BufferRef
    const countAlignment: int
    var rowCount: int
    var columnCount: int
    var paddedRowCount: int
    var paddedColumnCount: int
    ghost var Repr: set<object>

    function Layout(): Layout
      reads this
    {
      Matrix.Layout(rowCount, columnCount, paddedRowCount, paddedColumnCount)
    }

    /** The buffer lies inside this matrix's footprint, apart from the matrix object itself. */
    ghost predicate BufferOwned()
      reads this, Repr
    {
      buffer.Object() in Repr && buffer.Repr() <= Repr && this !in buffer.Repr() && buffer.Valid()
    }

    function BufferLength(): nat
      reads this, Repr
      requires BufferOwned()
    {
      buffer.Length()
    }

    ghost function BufferContents(): seq<Byte>
      reads this, Repr
      requires BufferOwned()
    {
      buffer.Contents()
    }

    ghost predicate Valid()
      reads this, Repr
    {
      this in Repr && BufferOwned() &&
      PaddedLayout(rowCount, columnCount, countAlignment) == Some(Layout()) &&
      Layout().ByteCount() <= BufferLength()
    }

    /** `bytesPerRow`. */
    function BytesPerRow(): (n: int)
      reads this, Repr
      requires Valid()
      ensures n == paddedColumnCount * ElementSize
      ensures 0 < columnCount * ElementSize <= n
    {
      Layout().BytesPerRow()
    }

    /** `byteCount`: the padded storage, which never exceeds the buffer's length. */
    function ByteCount(): (n: int)
      reads this, Repr
      requires Valid()
      ensures n == paddedRowCount * BytesPerRow()
      ensures n == paddedRowCount * paddedColumnCount * ElementSize
      ensures 0 < n <= BufferLength()
    {
      assert ByteCountForPadded(paddedRowCount, paddedColumnCount) == Some(Layout().ByteCount());
      Layout().ByteCount()
    }

    constructor Init(rowCount: int, columnCount: int, countAlignment: int, layout: Layout, buffer: BufferRef)
      requires buffer.Valid() && layout.rowCount == rowCount && layout.columnCount == columnCount
      ensures this.buffer == buffer && this.countAlignment == countAlignment
      ensures Layout() == layout && Repr == {this} + buffer.Repr()
    {
      this.buffer := buffer;
      this.countAlignment := countAlignment;
      this.rowCount := rowCount;
      this.columnCount := columnCount;
      this.paddedRowCount := layout.paddedRowCount;
      this.paddedColumnCount := layout.paddedColumnCount;
      Repr := {this} + buffer.Repr();
    }

    /**
     * `BufferedMatrix.init?`: pad the counts, size `buffer` to exactly the
     * padded byte count, and fail (nil) when any count is not positive or
     * the buffer refuses the size.
     */
    static method Create(rowCount: int, columnCount: int, countAlignment: int, buffer: BufferRef, granted: bool)
      returns (m: BufferedMatrix?)
      requires buffer.Valid()
      modifies buffer.Repr()
      ensures buffer.Valid() && fresh(buffer.Repr() - old(buffer.Repr()))
      ensures PaddedLayout(rowCount, columnCount, countAlignment).None? ==>
        m == null && buffer.Contents() == old(buffer.Contents())
      ensures PaddedLayout(rowCount, columnCount, countAlignment).Some? ==>
        (m != null <==> buffer.Length() == PaddedLayout(rowCount, columnCount, countAlignment).value.ByteCount())
      ensures PaddedLayout(rowCount, columnCount, countAlignment).Some? ==>
        (m != null <==>
          PaddedLayout(rowCount, columnCount, countAlignment).value.ByteCount() == old(buffer.Length()) ||
          old(buffer.CanAllocate(granted)))
      ensures m == null ==> buffer.Contents() == old(buffer.Contents())
      ensures m != null && buffer.Host? ==>
        forall i :: old(buffer.Length()) <= i < buffer.Length() ==> buffer.Contents()[i] == 0
      ensures m != null ==>
        fresh(m) && m.Valid() && m.Repr == {m} + buffer.Repr() &&
        m.buffer == buffer && m.countAlignment == countAlignment &&
        Some(m.Layout()) == PaddedLayout(rowCount, columnCount, countAlignment) &&
        m.BufferLength() == m.ByteCount()
    {
      var paddedRowCount := Padded(rowCount, countAlignment);
      var paddedColumnCount := Padded(columnCount, countAlignment);
      if paddedRowCount.None? || paddedColumnCount.None? {
        return null;
      }
      var byteCount := ByteCountForPadded(paddedRowCount.value, paddedColumnCount.value);
      if byteCount.None? {
        return null;
      }
      ghost var before := buffer.Length();
      var ok := buffer.Resize(byteCount.value, granted);
      if !ok {
        return null;
      }
      ghost var contents := buffer.Contents();
      assert buffer.Host? ==> forall i :: before <= i < |contents| ==> contents[i] == 0;
      var layout := Matrix.Layout(rowCount, columnCount, paddedRowCount.value, paddedColumnCount.value);
      m := new BufferedMatrix.Init(rowCount, columnCount, countAlignment, layout, buffer);
      assert buffer.Contents() == contents;
    }

    /**
     * The growth step of `resizeToRowCount`: ask the buffer for `newLength`
     * bytes, leaving the counts alone.
     */
    method GrowBuffer(newLength: int, granted: bool) returns (grown: bool)
      requires Valid() && newLength > BufferLength()
      modifies Repr
      ensures BufferOwned() && this in Repr && fresh(Repr - old(Repr))
      ensures Layout() == old(Layout())
      ensures grown <==> BufferLength() == newLength
      ensures grown <==> old(buffer.CanAllocate(granted))
      ensures !grown ==> BufferLength() == old(BufferLength()) && BufferContents() == old(BufferContents())
      ensures forall i :: 0 <= i < old(BufferLength()) ==> BufferContents()[i] == old(BufferContents())[i]
      ensures buffer.Host? ==> forall i :: old(BufferLength()) <= i < BufferLength() ==> BufferContents()[i] == 0
    {
      grown := buffer.Resize(newLength, granted);
      Repr := Repr + buffer.Repr();
    }

    /**
     * `resizeToRowCount(_:columnCount:)`: a no-op success for the current
     * counts; otherwise pad the new counts, grow the buffer only when it is
     * too short, and commit the new shape only when that growth succeeded.
     */
    method ResizeToRowCount(newRowCount: int, newColumnCount: int, granted: bool) returns (ok: bool)
      requires Valid()
      modifies Repr
      ensures Valid() && fresh(Repr - old(Repr))
      ensures newRowCount == old(rowCount) && newColumnCount == old(columnCount) ==>
        ok && Layout() == old(Layout()) && BufferContents() == old(BufferContents())
      ensures PaddedLayout(newRowCount, newColumnCount, countAlignment).None? ==>
        !ok && Layout() == old(Layout()) && BufferContents() == old(BufferContents())
      ensures PaddedLayout(newRowCount, newColumnCount, countAlignment).Some? ==>
        (ok <==>
          PaddedLayout(newRowCount, newColumnCount, countAlignment).value.ByteCount() <= old(BufferLength()) ||
          old(buffer.CanAllocate(granted)))
      ensures ok ==> Some(Layout()) == PaddedLayout(newRowCount, newColumnCount, countAlignment)
      ensures !ok ==> Layout() == old(Layout()) && BufferContents() == old(BufferContents())
      ensures BufferLength() == if Layout().ByteCount() > old(BufferLength()) then Layout().ByteCount() else old(BufferLength())
      ensures Layout().ByteCount() <= old(BufferLength()) ==> BufferContents() == old(BufferContents())
      ensures forall i :: 0 <= i < old(BufferLength()) ==> BufferContents()[i] == old(BufferContents())[i]
      ensures buffer.Host? ==> forall i :: old(BufferLength()) <= i < BufferLength() ==> BufferContents()[i] == 0
    {
      if !(newRowCount != rowCount || newColumnCount != columnCount) {
        return true;
      }
      var newPaddedRowCount := Padded(newRowCount, countAlignment);
      var newPaddedColumnCount := Padded(newColumnCount, countAlignment);
      if newPaddedRowCount.None? || newPaddedColumnCount.None? {
        return false;
      }
      var newByteCount := ByteCountForPadded(newPaddedRowCount.value, newPaddedColumnCount.value);
      if newByteCount.None? {
        return false;
      }
      var layout := Matrix.Layout(newRowCount, newColumnCount, newPaddedRowCount.value, newPaddedColumnCount.value);
      assert Some(newByteCount.value) == ByteCountForPadded(layout.paddedRowCount, layout.paddedColumnCount);
      ok := Reshape(layout, granted);
    }

    /**
     * The tail of `resizeToRowCount` once the new padded shape is known:
     * grow the buffer only when it is shorter than the shape's byte count,
     * then commit all four counts, or leave everything as it was.
     */
    method Reshape(layout: Layout, granted: bool) returns (ok: bool)
      requires Valid()
      requires PaddedLayout(layout.rowCount, layout.columnCount, countAlignment) == Some(layout)
      modifies Repr
      ensures Valid() && fresh(Repr - old(Repr))
      ensures ok <==> layout.ByteCount() <= old(BufferLength()) || old(buffer.CanAllocate(granted))
      ensures Layout() == if ok then layout else old(Layout())
      ensures BufferLength() == if ok && layout.ByteCount() > old(BufferLength()) then layout.ByteCount() else old(BufferLength())
      ensures !ok || layout.ByteCount() <= old(BufferLength()) ==> BufferContents() == old(BufferContents())
      ensures forall i :: 0 <= i < old(BufferLength()) ==> BufferContents()[i] == old(BufferContents())[i]
      ensures buffer.Host? ==> forall i :: old(BufferLength()) <= i < BufferLength() ==> BufferContents()[i] == 0
    {
      if buffer.Length() < layout.ByteCount() {
        var grown := GrowBuffer(layout.ByteCount(), granted);
        if !grown {
          return false;
        }
      }
      Commit(layout);
      ok := true;
    }

    /** The four assignments that end a successful `resizeToRowCount`. */
    method Commit(layout: Layout)
      requires BufferOwned() && this in Repr
      requires PaddedLayout(layout.rowCount, layout.columnCount, countAlignment) == Some(layout)
      requires layout.ByteCount() <= BufferLength()
      modifies this
      ensures Valid() && Layout() == layout && Repr == old(Repr)
      ensures BufferLength() == old(BufferLength()) && BufferContents() == old(BufferContents())
    {
      rowCount := layout.rowCount;
      columnCount := layout.columnCount;
      paddedRowCount := layout.paddedRowCount;
      paddedColumnCount := layout.paddedColumnCount;
    }
  }
}
