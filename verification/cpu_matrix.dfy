/** `CPUMatrix`: a resizable buffered matrix over host memory. */
module CPUMatrices {
  import opened Common
  import opened Matrix
  import opened CPUBuffers
  import opened BufferedMatrices

  /**
   * `CPUMatrix.init?`: `BufferedMatrix` construction over a fresh, empty
   * `CPUBuffer`; it fails when a count or the alignment is not positive, or
   * when the host refuses the allocation.
   */
  method NewCPUMatrix(rowCount: int, columnCount: int, alignment: int, granted: bool) returns (m: BufferedMatrix?)
    ensures m == null <==> PaddedLayout(rowCount, columnCount, alignment).None? || !granted
    ensures m != null ==>
      fresh(m.Repr) && m.Valid() && m.buffer.Host? && m.countAlignment == alignment &&
      Some(m.Layout()) == PaddedLayout(rowCount, columnCount, alignment) &&
      m.BufferContents() == Zeros(m.ByteCount())
  {
    var buffer := new CPUBuffer();
    m := BufferedMatrix.Create(rowCount, columnCount, alignment, Host(buffer), granted);
    if m != null {
      assert m.BufferContents() == Zeros(m.ByteCount());
    }
  }

  /**
   * With the buffer as the source writes it, construction is fooled by a
   * refused allocation: `resize(to:)` reports success for the byte count of a
   * 1 x 1 matrix aligned to 8, yet the buffer stays empty, below `byteCount`.
   */
  lemma AsWrittenConstructionCommitsUnbackedShape()
    ensures PaddedLayout(1, 1, 8) == Some(Layout(1, 1, 8, 8))
    ensures Layout(1, 1, 8, 8).ByteCount() == 256
    ensures HostResizeAsWritten([], 256, false) == (true, [])
  {
  }
}
