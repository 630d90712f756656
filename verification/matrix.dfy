/**
 * The `Matrix` protocol: a row-major matrix of 32-bit floats whose rows and
 * columns may be padded. `Layout` is the value a conforming object exposes
 * through its four counts; `bytesPerRow` and `byteCount` derive from them.
 */
module Matrix {
  import Alignment

  /** `MemoryLayout<Float32>.size`: every element is a 32-bit float. */
  const ElementSize := 4

  datatype Layout = Layout(
    rowCount: int,
    columnCount: int,
    paddedRowCount: int,
    paddedColumnCount: int)
  {
    /** The byte stride between the starts of consecutive rows. */
    function BytesPerRow(): int {
      paddedColumnCount * ElementSize
    }

    /** The protocol's `byteCount` invariant: every padded row is `bytesPerRow` long. */
    function ByteCount(): int {
      paddedRowCount * BytesPerRow()
    }

    /** The invariants the protocol's doc-comments promise, for a matrix with data. */
    predicate WellFormed() {
      rowCount > 0 && columnCount > 0 &&
      paddedRowCount >= rowCount && paddedColumnCount >= columnCount
    }

    /** Byte offset of element (`row`, `column`): rows are `paddedColumnCount` elements apart. */
    function ElementOffset(row: int, column: int): int {
      row * BytesPerRow() + column * ElementSize
    }
  }

  /** The logical columns of a row fit in its byte stride. */
  lemma ColumnsFitRow(m: Layout)
    requires m.WellFormed()
    ensures 0 < m.columnCount * ElementSize <= m.BytesPerRow()
  {
  }

  /** Every logical element lies wholly inside the matrix's `byteCount`. */
  lemma ElementInsideByteCount(m: Layout, row: int, column: int)
    requires m.WellFormed()
    requires 0 <= row < m.rowCount && 0 <= column < m.columnCount
    ensures 0 <= m.ElementOffset(row, column)
    ensures m.ElementOffset(row, column) + ElementSize <= m.ByteCount()
  {
    var stride := m.BytesPerRow();
    ScaleMonotone(0, row, stride);
    ScaleMonotone(column + 1, m.paddedColumnCount, ElementSize);
    ScaleMonotone(row + 1, m.paddedRowCount, stride);
    assert (row + 1) * stride == row * stride + stride;
  }

  /** Scaling by a non-negative factor preserves order. */
  lemma ScaleMonotone(a: int, b: int, c: int)
    requires a <= b && 0 <= c
    ensures a * c <= b * c
  {
    assert b * c - a * c == (b - a) * c;
  }

  /** Distinct logical elements never share a byte offset: the layout is row-major without overlap. */
  lemma ElementOffsetInjective(m: Layout, row: int, column: int, row': int, column': int)
    requires m.WellFormed()
    requires 0 <= row < m.rowCount && 0 <= column < m.columnCount
    requires 0 <= row' < m.rowCount && 0 <= column' < m.columnCount
    requires m.ElementOffset(row, column) == m.ElementOffset(row', column')
    ensures row == row' && column == column'
  {
    var stride := m.BytesPerRow();
    assert (row - row') * stride == (column' - column) * ElementSize by {
      assert (row - row') * stride == row * stride - row' * stride;
    }
    if row != row' {
      Alignment.MultipleBounds(row - row', stride);
      assert false;
    }
  }
}
