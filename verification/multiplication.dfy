/**
 * `MultiplicationData`: the three matrices of `output = inputAᵀ · inputB`
 * and the dimension checks both pipelines make before multiplying.
 */
module Multiplication {
  import opened Common
  import opened Matrix
  import opened PipelineErrors

  datatype MultiplicationData = MultiplicationData(inputA: Layout, inputB: Layout, output: Layout)
  {
    /** `inputDimensionsAreValid`: Aᵀ and B agree on the inner dimension. */
    predicate InputDimensionsAreValid() {
      inputA.rowCount == inputB.rowCount
    }

    /** `outputDimensionsAreValid`: the output has the shape of Aᵀ · B. */
    predicate OutputDimensionsAreValid() {
      output.rowCount == inputA.columnCount && output.columnCount == inputB.columnCount
    }

    /**
     * The checks both pipelines' `multiplyData` make first, in this order,
     * the first failing one deciding the error.
     */
    function Check(repeatCount: int): (r: Outcome<PipelineError>)
      ensures r.Pass? <==> InputDimensionsAreValid() && OutputDimensionsAreValid() && repeatCount >= 0
      ensures !InputDimensionsAreValid() ==> r == Fail(InvalidInputDimensions)
      ensures InputDimensionsAreValid() && !OutputDimensionsAreValid() ==> r == Fail(InvalidOutputDimensions)
      ensures InputDimensionsAreValid() && OutputDimensionsAreValid() && repeatCount < 0 ==> r == Fail(InvalidRepeatCount)
    {
      if !InputDimensionsAreValid() then Fail(InvalidInputDimensions)
      else if !OutputDimensionsAreValid() then Fail(InvalidOutputDimensions)
      else if !(repeatCount >= 0) then Fail(InvalidRepeatCount)
      else Pass
    }
  }

  /** Both checks read only the logical counts: padding never changes their answer. */
  lemma DimensionsIgnorePadding(d: MultiplicationData, e: MultiplicationData)
    requires d.inputA.rowCount == e.inputA.rowCount && d.inputA.columnCount == e.inputA.columnCount
    requires d.inputB.rowCount == e.inputB.rowCount && d.inputB.columnCount == e.inputB.columnCount
    requires d.output.rowCount == e.output.rowCount && d.output.columnCount == e.output.columnCount
    ensures d.InputDimensionsAreValid() == e.InputDimensionsAreValid()
    ensures d.OutputDimensionsAreValid() == e.OutputDimensionsAreValid()
  {
  }

  // An integer reference for Aᵀ · B, against which the two checks are read.

  /** `a` has `rows` rows of `columns` entries each. */
  ghost predicate IsMatrix(a: seq<seq<int>>, rows: nat, columns: nat) {
    |a| == rows && forall i :: 0 <= i < |a| ==> |a[i]| == columns
  }

  /** Σ_{t < k} a[t][i] · b[t][j]: entry (i, j) of aᵀ · b over the first k rows. */
  function Dot(a: seq<seq<int>>, b: seq<seq<int>>, i: nat, j: nat, k: nat): int
    requires k <= |a| && k <= |b|
    requires forall t :: 0 <= t < k ==> i < |a[t]| && j < |b[t]|
  {
    if k == 0 then 0 else Dot(a, b, i, j, k - 1) + a[k - 1][i] * b[k - 1][j]
  }

  /** aᵀ · b for an `inner` × `m` matrix `a` and an `inner` × `n` matrix `b`. */
  function TransposeProduct(a: seq<seq<int>>, b: seq<seq<int>>, inner: nat, m: nat, n: nat): (c: seq<seq<int>>)
    requires IsMatrix(a, inner, m) && IsMatrix(b, inner, n)
    ensures IsMatrix(c, m, n)
  {
    seq(m, i requires 0 <= i < m => seq(n, j requires 0 <= j < n => Dot(a, b, i, j, inner)))
  }

  /**
   * For integer matrices shaped like the three layouts, the input check holds
   * exactly when Aᵀ · B is defined, and then the output check holds exactly
   * when the output has the product's shape.
   */
  lemma ChecksMatchProductShape(d: MultiplicationData, a: seq<seq<int>>, b: seq<seq<int>>, c: seq<seq<int>>)
    requires d.inputA.WellFormed() && d.inputB.WellFormed() && d.output.WellFormed()
    requires IsMatrix(a, d.inputA.rowCount, d.inputA.columnCount)
    requires IsMatrix(b, d.inputB.rowCount, d.inputB.columnCount)
    requires IsMatrix(c, d.output.rowCount, d.output.columnCount)
    ensures d.InputDimensionsAreValid() <==> |a| == |b|
    ensures d.InputDimensionsAreValid() ==>
      (d.OutputDimensionsAreValid() <==>
        |c| == |TransposeProduct(a, b, |a|, d.inputA.columnCount, d.inputB.columnCount)| &&
        |c[0]| == |TransposeProduct(a, b, |a|, d.inputA.columnCount, d.inputB.columnCount)[0]|)
  {
  }

  /** The product the CPU pipeline's test expects: [[1,2],[3,4]]ᵀ · [[5,6],[7,8]]. */
  lemma TransposeProductExample()
    ensures TransposeProduct([[1, 2], [3, 4]], [[5, 6], [7, 8]], 2, 2, 2) == [[26, 30], [38, 44]]
  {
    var a, b := [[1, 2], [3, 4]], [[5, 6], [7, 8]];
    assert Dot(a, b, 0, 0, 2) == 26 && Dot(a, b, 0, 1, 2) == 30;
    assert Dot(a, b, 1, 0, 2) == 38 && Dot(a, b, 1, 1, 2) == 44;
    var c := TransposeProduct(a, b, 2, 2, 2);
    assert c[0] == [26, 30] && c[1] == [38, 44];
  }

  /** 2 x 4, 2 x 6 and 4 x 6 matrices aligned to 8 pass both checks. */
  lemma ValidDimensionsExample()
    ensures var d := MultiplicationData(Layout(2, 4, 8, 8), Layout(2, 6, 8, 8), Layout(4, 6, 8, 8));
      d.InputDimensionsAreValid() && d.OutputDimensionsAreValid()
  {
  }

  /** A 3 x 6 inputB fails the input check but not the output check. */
  lemma InvalidInputDimensionsExample()
    ensures var d := MultiplicationData(Layout(2, 4, 8, 8), Layout(3, 6, 8, 8), Layout(4, 6, 8, 8));
      !d.InputDimensionsAreValid() && d.OutputDimensionsAreValid()
  {
  }

  /** A 5 x 6 output fails the output check but not the input check. */
  lemma InvalidOutputDimensionsExample()
    ensures var d := MultiplicationData(Layout(2, 4, 8, 8), Layout(2, 6, 8, 8), Layout(5, 6, 8, 8));
      d.InputDimensionsAreValid() && !d.OutputDimensionsAreValid()
  {
  }
}
