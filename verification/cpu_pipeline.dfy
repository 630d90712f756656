/**
 * `CPUPipeline`: validates a `MultiplicationData` and then hands the
 * multiplication `1 + repeatCount` times to `cblas_sgemm`. The BLAS routine
 * is foreign code over 32-bit floats; the model records the arguments of
 * each call instead of running it.
 */
module CPUPipelines {
  import opened Common
  import opened Matrix
  import opened PipelineErrors
  import opened Multiplication

  datatype Transpose = NoTrans | Trans

  /**
   * The arguments of one row-major `cblas_sgemm` call computing
   * C := alpha · op(A) · op(B) + beta · C, with C of `m` x `n` and an inner
   * dimension of `k`; `lda`, `ldb` and `ldc` are the element strides between
   * the rows of A, B and C as stored. The scalars 1.0 and 0.0 are kept as
   * the integers 1 and 0.
   */
  datatype SgemmCall = SgemmCall(
    transA: Transpose, transB: Transpose,
    m: int, n: int, k: int,
    alpha: int, lda: int, ldb: int, beta: int, ldc: int)

  /** The byte offset of element (`row`, `column`) of a row-major store with stride `ld`. */
  function ByteOffset(ld: int, row: int, column: int): int {
    (row * ld + column) * ElementSize
  }

  /** `_multiply`: the call made for `data`, which must pass both dimension checks. */
  function SgemmArguments(data: MultiplicationData): (c: SgemmCall)
    requires data.InputDimensionsAreValid() && data.OutputDimensionsAreValid()
    ensures c.m == data.inputA.columnCount && c.n == data.inputB.columnCount && c.k == data.inputA.rowCount
  {
    SgemmCall(
      Trans, NoTrans,
      data.output.rowCount, data.output.columnCount, data.inputB.rowCount,
      1, data.inputA.paddedColumnCount, data.inputB.paddedColumnCount,
      0, data.output.paddedColumnCount)
  }

  /** A byte offset in a store with the matrix's own stride is the matrix's element offset. */
  lemma ByteOffsetIsElementOffset(a: Layout, row: int, column: int)
    ensures ByteOffset(a.paddedColumnCount, row, column) == a.ElementOffset(row, column)
  {
    calc {
      ByteOffset(a.paddedColumnCount, row, column);
      (row * a.paddedColumnCount + column) * ElementSize;
      row * (a.paddedColumnCount * ElementSize) + column * ElementSize;
    }
  }

  /**
   * The call computes output := 1 · inputAᵀ · inputB + 0 · output with
   * arguments that satisfy BLAS's row-major requirements: A is stored
   * `k` x `m`, B `k` x `n`, C `m` x `n`, each leading dimension at least the
   * stored row length, and every element the routine reads or writes lies
   * inside its matrix's `byteCount`.
   */
  lemma SgemmArgumentsAreInBounds(data: MultiplicationData)
    requires data.inputA.WellFormed() && data.inputB.WellFormed() && data.output.WellFormed()
    requires data.InputDimensionsAreValid() && data.OutputDimensionsAreValid()
    ensures var c := SgemmArguments(data);
      c.transA == Trans && c.transB == NoTrans && c.alpha == 1 && c.beta == 0 &&
      c.m == data.inputA.columnCount && c.n == data.inputB.columnCount && c.k == data.inputA.rowCount &&
      c.m > 0 && c.n > 0 && c.k > 0 &&
      c.lda >= c.m && c.ldb >= c.n && c.ldc >= c.n &&
      (forall t, i :: 0 <= t < c.k && 0 <= i < c.m ==>
        0 <= ByteOffset(c.lda, t, i) && ByteOffset(c.lda, t, i) + ElementSize <= data.inputA.ByteCount()) &&
      (forall t, j :: 0 <= t < c.k && 0 <= j < c.n ==>
        0 <= ByteOffset(c.ldb, t, j) && ByteOffset(c.ldb, t, j) + ElementSize <= data.inputB.ByteCount()) &&
      (forall i, j :: 0 <= i < c.m && 0 <= j < c.n ==>
        0 <= ByteOffset(c.ldc, i, j) && ByteOffset(c.ldc, i, j) + ElementSize <= data.output.ByteCount())
  {
    var c := SgemmArguments(data);
    forall t, i | 0 <= t < c.k && 0 <= i < c.m
      ensures 0 <= ByteOffset(c.lda, t, i) && ByteOffset(c.lda, t, i) + ElementSize <= data.inputA.ByteCount()
    {
      ByteOffsetIsElementOffset(data.inputA, t, i);
      ElementInsideByteCount(data.inputA, t, i);
    }
    forall t, j | 0 <= t < c.k && 0 <= j < c.n
      ensures 0 <= ByteOffset(c.ldb, t, j) && ByteOffset(c.ldb, t, j) + ElementSize <= data.inputB.ByteCount()
    {
      ByteOffsetIsElementOffset(data.inputB, t, j);
      ElementInsideByteCount(data.inputB, t, j);
    }
    forall i, j | 0 <= i < c.m && 0 <= j < c.n
      ensures 0 <= ByteOffset(c.ldc, i, j) && ByteOffset(c.ldc, i, j) + ElementSize <= data.output.ByteCount()
    {
      ByteOffsetIsElementOffset(data.output, i, j);
      ElementInsideByteCount(data.output, i, j);
    }
  }

  /**
   * `CPUPipeline.multiplyData`: the dimension and repeat-count checks, then
   * one kernel call per pass of the `1...count` loop. `calls` is the
   * sequence of kernel calls made, in order.
   */
  method MultiplyData(data: MultiplicationData, repeatCount: int)
    returns (r: Outcome<PipelineError>, calls: seq<SgemmCall>)
    ensures r == data.Check(repeatCount)
    ensures r.Fail? ==> calls == []
    ensures r.Pass? ==>
      |calls| == 1 + repeatCount &&
      forall i :: 0 <= i < |calls| ==> calls[i] == SgemmArguments(data)
  {
    calls := [];
    if !data.InputDimensionsAreValid() {
      return Fail(InvalidInputDimensions), calls;
    }
    if !data.OutputDimensionsAreValid() {
      return Fail(InvalidOutputDimensions), calls;
    }
    if !(repeatCount >= 0) {
      return Fail(InvalidRepeatCount), calls;
    }
    var count := 1 + repeatCount;
    for pass := 1 to count + 1
      invariant |calls| == pass - 1
      invariant forall i :: 0 <= i < |calls| ==> calls[i] == SgemmArguments(data)
    {
      calls := calls + [SgemmArguments(data)];
    }
    r := Pass;
  }

  /**
   * The pipeline's tests: a 5 x 6 output for 2 x 4 and 2 x 6 inputs is
   * refused with `invalidOutputDimensions`, a repeat count of -1 with
   * `invalidRepeatCount`, and the 2 x 2 case passes with one call whose
   * strides are the padded column count 8.
   */
  lemma TestOutcomes()
    ensures MultiplicationData(Layout(2, 4, 8, 8), Layout(2, 6, 8, 8), Layout(5, 6, 8, 8)).Check(0)
      == Fail(InvalidOutputDimensions)
    ensures MultiplicationData(Layout(2, 4, 8, 8), Layout(2, 6, 8, 8), Layout(4, 6, 8, 8)).Check(-1)
      == Fail(InvalidRepeatCount)
    ensures var d := MultiplicationData(Layout(2, 2, 8, 8), Layout(2, 2, 8, 8), Layout(2, 2, 8, 8));
      d.Check(0) == Pass && SgemmArguments(d) == SgemmCall(Trans, NoTrans, 2, 2, 2, 1, 8, 8, 0, 8)
  {
  }
}
