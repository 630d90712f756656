/** `MetalMatrix`: a resizable buffered matrix over device memory. */
module MetalMatrices {
  import opened Common
  import opened Matrix
  import opened MetalBuffers
  import opened BufferedMatrices

  /**
   * `MetalMatrix.init?`: `BufferedMatrix` construction over a fresh
   * `MetalBuffer` bound to `device`; it fails when a count or the alignment
   * is not positive, or when the device refuses the allocation.
   */
  method NewMetalMatrix(rowCount: int, columnCount: int, countAlignment: int, device: DeviceId, granted: bool)
    returns (m: BufferedMatrix?)
    ensures m == null <==> PaddedLayout(rowCount, columnCount, countAlignment).None? || !granted
    ensures m != null ==>
      fresh(m.Repr) && m.Valid() && m.buffer.Device? && m.buffer.metal.device == device &&
      m.countAlignment == countAlignment &&
      Some(m.Layout()) == PaddedLayout(rowCount, columnCount, countAlignment) &&
      m.BufferLength() == m.ByteCount()
  {
    var buffer := new MetalBuffer(device);
    m := BufferedMatrix.Create(rowCount, columnCount, countAlignment, Device(buffer), granted);
  }

  /**
   * `metalBuffer`: the device allocation behind a Metal matrix, nil for a
   * matrix over host memory. A valid Metal matrix always has one, on its
   * buffer's device and long enough for `byteCount`.
   */
  function MetalBufferOf(m: BufferedMatrix): (r: DeviceBuffer?)
    reads m, m.Repr
    requires m.Valid()
    ensures m.buffer.Host? <==> r == null
    ensures r != null ==> r.device == m.buffer.metal.device && r.contents.Length >= m.ByteCount()
  {
    if m.buffer.Device? then m.buffer.metal.Memory() else null
  }

  /**
   * As written, `resizeToLength` on a Metal matrix's buffer reports a refused
   * growth as success and drops the allocation, while `resizeToRowCount`
   * then commits a shape that needs more bytes than the buffer has.
   */
  lemma AsWrittenGrowthCommitsUnbackedShape()
    ensures PaddedLayout(16, 16, 8) == Some(Layout(16, 16, 16, 16))
    ensures Layout(8, 8, 8, 8).ByteCount() == 256 && Layout(16, 16, 16, 16).ByteCount() == 1024
    ensures DeviceResizeAsWritten(256, 1024, false) == Some((true, 0))
  {
  }
}
