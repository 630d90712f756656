/**
 * `PerformanceTestCase`: the dimensions of one benchmark multiplication and
 * the plan `run` follows to reshape the shared matrices before handing them
 * to both pipelines. Timing and random fill are not modelled.
 */
module PerformanceTestCases {
  import opened Common
  import opened Matrix
  import opened PipelineErrors
  import opened Multiplication
  import opened BufferedMatrices
  import opened CPUPipelines
  import opened MetalPipelines

  /** `Int64.max`. */
  const Int64Max := 0x7FFF_FFFF_FFFF_FFFF

  /** `Dimensions`: output is `outputRowCount` x `outputColumnCount`, inner dimension `innerInputDimension`. */
  datatype Dimensions = Dimensions(outputRowCount: int, outputColumnCount: int, innerInputDimension: int)
  {
    /** What `init?` guarantees of every value it returns: all three counts positive. */
    predicate Valid() {
      outputRowCount > 0 && outputColumnCount > 0 && innerInputDimension > 0
    }
  }

  /** `Dimensions.init?`: nil when any count is not positive. */
  function MakeDimensions(outputRowCount: int, outputColumnCount: int, innerInputDimension: int): (d: Option<Dimensions>)
    ensures d.None? <==> outputRowCount <= 0 || outputColumnCount <= 0 || innerInputDimension <= 0
    ensures d.Some? ==>
      (d.value.Valid() &&
       d.value.outputRowCount == outputRowCount && d.value.outputColumnCount == outputColumnCount &&
       d.value.innerInputDimension == innerInputDimension)
  {
    if outputRowCount > 0 && outputColumnCount > 0 && innerInputDimension > 0 then
      Some(Dimensions(outputRowCount, outputColumnCount, innerInputDimension))
    else
      None
  }

  /** The dimension tests: 4 x 6 with inner dimension 2 is accepted, inner dimension 0 is not. */
  lemma MakeDimensionsExamples()
    ensures MakeDimensions(4, 6, 2).Some? && MakeDimensions(4, 6, 0).None?
  {
  }

  lemma ProductGrows(x: int, y: int)
    requires x >= 0 && y >= 1
    ensures x * y >= x
  {
    assert x * y == x + x * (y - 1);
  }

  /**
   * `operationCount`: 2 · inner · rows · columns, one multiply and one add
   * per term of each inner product, evaluated left to right in `Int64`;
   * `None` stands for the overflow trap.
   */
  function OperationCount(d: Dimensions): (r: Option<int>)
    requires d.Valid()
    ensures r.Some? <==> 2 * d.innerInputDimension * d.outputRowCount * d.outputColumnCount <= Int64Max
    ensures r.Some? ==> r.value == 2 * d.innerInputDimension * d.outputRowCount * d.outputColumnCount
  {
    var twice := 2 * d.innerInputDimension;
    ProductGrows(twice, d.outputRowCount);
    ProductGrows(twice * d.outputRowCount, d.outputColumnCount);
    if twice > Int64Max then None
    else if twice * d.outputRowCount > Int64Max then None
    else if twice * d.outputRowCount * d.outputColumnCount > Int64Max then None
    else Some(twice * d.outputRowCount * d.outputColumnCount)
  }

  /** `_max` of the benchmark's random dimension generator. */
  const MaxGeneratedDimension := 2048

  /** Dimensions the benchmark generates never overflow the operation count. */
  lemma GeneratedDimensionsNeverOverflow(d: Dimensions)
    requires d.Valid()
    requires d.outputRowCount <= MaxGeneratedDimension && d.outputColumnCount <= MaxGeneratedDimension
    requires d.innerInputDimension <= MaxGeneratedDimension
    ensures OperationCount(d).Some?
  {
    var k, m, n := d.innerInputDimension, d.outputRowCount, d.outputColumnCount;
    ProductBound(2 * k, m, 2 * MaxGeneratedDimension, MaxGeneratedDimension);
    ProductBound(2 * k * m, n, 2 * MaxGeneratedDimension * MaxGeneratedDimension, MaxGeneratedDimension);
  }

  lemma ProductBound(x: int, y: int, xBound: int, yBound: int)
    requires 0 <= x <= xBound && 0 <= y <= yBound
    ensures x * y <= xBound * yBound
  {
    assert x * y <= xBound * y by {
      assert xBound * y - x * y == (xBound - x) * y;
    }
    assert xBound * y <= xBound * yBound by {
      assert xBound * yBound - xBound * y == xBound * (yBound - y);
    }
  }

  // Decimal rendering of a count, as string interpolation writes it.

  predicate IsDigits(s: string) {
    forall i :: 0 <= i < |s| ==> '0' <= s[i] <= '9'
  }

  function Digit(d: int): (c: char)
    requires 0 <= d < 10
    ensures '0' <= c <= '9' && c as int - '0' as int == d
  {
    ('0' as int + d) as char
  }

  /** The decimal digits of `n`, without leading zeros. */
  function Decimal(n: nat): (s: string)
    ensures |s| > 0 && IsDigits(s)
    ensures |s| > 1 ==> s[0] != '0'
  {
    if n < 10 then [Digit(n)] else Decimal(n / 10) + [Digit(n % 10)]
  }

  /** The number a string of decimal digits denotes. */
  function DecimalValue(s: string): nat
    requires IsDigits(s)
  {
    if |s| == 0 then 0 else DecimalValue(s[..|s| - 1]) * 10 + (s[|s| - 1] as int - '0' as int)
  }

  /** Rendering loses nothing: the digits read back as the number. */
  lemma {:induction false} DecimalRoundTrip(n: nat)
    ensures DecimalValue(Decimal(n)) == n
  {
    if n >= 10 {
      DecimalRoundTrip(n / 10);
      var s := Decimal(n);
      assert s[..|s| - 1] == Decimal(n / 10);
    }
  }

  /** Different counts render differently. */
  lemma DecimalInjective(n: nat, n': nat)
    requires Decimal(n) == Decimal(n')
    ensures n == n'
  {
    DecimalRoundTrip(n);
    DecimalRoundTrip(n');
  }

  /** `description`: "[k x m]T[k x n] -> [m x n]" for inner dimension k and an m x n output. */
  function Description(d: Dimensions): string
    requires d.Valid()
  {
    var k, m, n := Decimal(d.innerInputDimension), Decimal(d.outputRowCount), Decimal(d.outputColumnCount);
    "[" + k + " x " + m + "]T" + "[" + k + " x " + n + "] -> " + "[" + m + " x " + n + "]"
  }

  lemma DescriptionExample()
    ensures Description(Dimensions(4, 6, 2)) == "[2 x 4]T[2 x 6] -> [4 x 6]"
  {
    assert Decimal(2) == "2" && Decimal(4) == "4" && Decimal(6) == "6";
    assert Description(Dimensions(4, 6, 2)) == "[" + "2" + " x " + "4" + "]T" + "[" + "2" + " x " + "6" + "] -> " + "[" + "4" + " x " + "6" + "]";
  }

  /**
   * `Resources`: the Metal pipeline, the two inputs and the Metal output it
   * vended, and the CPU output. The four matrices and the pipeline's
   * parameter storage are separate objects.
   */
  datatype Resources = Resources(
    metalPipeline: MetalPipeline,
    inputA: BufferedMatrix, inputB: BufferedMatrix, metalOutput: BufferedMatrix, cpuOutput: BufferedMatrix)
  {
    ghost function Repr(): set<object>
      reads inputA, inputB, metalOutput, cpuOutput
    {
      inputA.Repr + inputB.Repr + metalOutput.Repr + cpuOutput.Repr + {metalPipeline.dimensionBuffer.contents}
    }

    ghost predicate Valid()
      reads metalPipeline, inputA, inputB, metalOutput, cpuOutput, Repr()
    {
      metalPipeline.Valid() &&
      inputA.Valid() && inputB.Valid() && metalOutput.Valid() && cpuOutput.Valid() &&
      inputA.buffer.Device? && inputB.buffer.Device? && metalOutput.buffer.Device? && cpuOutput.buffer.Host? &&
      inputA.Repr !! inputB.Repr && inputA.Repr !! metalOutput.Repr && inputA.Repr !! cpuOutput.Repr &&
      inputB.Repr !! metalOutput.Repr && inputB.Repr !! cpuOutput.Repr && metalOutput.Repr !! cpuOutput.Repr &&
      metalPipeline.dimensionBuffer.contents !in inputA.Repr + inputB.Repr + metalOutput.Repr + cpuOutput.Repr
    }

    /** The `i`-th matrix in the order `run` resizes them. */
    function MatrixAt(i: int): BufferedMatrix {
      if i == 0 then inputA else if i == 1 then inputB else if i == 2 then metalOutput else cpuOutput
    }

    function CPUData(): MultiplicationData
      reads inputA, inputB, cpuOutput
    {
      MultiplicationData(inputA.Layout(), inputB.Layout(), cpuOutput.Layout())
    }

    function MetalData(): MetalPipelines.MetalData {
      MetalPipelines.MetalData(inputA, inputB, metalOutput)
    }
  }

  /** The shapes `run` gives inputA, inputB, the Metal output and the CPU output, in that order. */
  function Targets(d: Dimensions): (t: seq<(int, int)>)
    ensures |t| == 4
  {
    var k, m, n := d.innerInputDimension, d.outputRowCount, d.outputColumnCount;
    [(k, m), (k, n), (m, n), (m, n)]
  }

  /** Matrices with the planned shapes pass both dimension checks, whatever their padding. */
  lemma PlannedShapesAreValid(d: Dimensions, a: Layout, b: Layout, c: Layout)
    requires (a.rowCount, a.columnCount) == Targets(d)[0] && (b.rowCount, b.columnCount) == Targets(d)[1]
    requires (c.rowCount, c.columnCount) == Targets(d)[2]
    ensures MultiplicationData(a, b, c).InputDimensionsAreValid()
    ensures MultiplicationData(a, b, c).OutputDimensionsAreValid()
  {
  }

  /**
   * One operand of the guard in `run`: `resizeToRowCount` on the `i`-th
   * matrix, leaving the other three alone. A step is refused only when its
   * allocation is.
   */
  method ResizeMatrix(resources: Resources, i: int, rowCount: int, columnCount: int, granted: bool)
    returns (ok: bool)
    requires resources.Valid() && 0 <= i < 4 && rowCount > 0 && columnCount > 0
    modifies resources.Repr()
    ensures resources.Valid() && fresh(resources.Repr() - old(resources.Repr()))
    ensures granted ==> ok
    ensures ok ==> resources.MatrixAt(i).rowCount == rowCount && resources.MatrixAt(i).columnCount == columnCount
    ensures i != 0 || !ok ==> resources.inputA.Layout() == old(resources.inputA.Layout())
    ensures i != 1 || !ok ==> resources.inputB.Layout() == old(resources.inputB.Layout())
    ensures i != 2 || !ok ==> resources.metalOutput.Layout() == old(resources.metalOutput.Layout())
    ensures i != 3 || !ok ==> resources.cpuOutput.Layout() == old(resources.cpuOutput.Layout())
  {
    ok := resources.MatrixAt(i).ResizeToRowCount(rowCount, columnCount, granted);
  }

  /**
   * The guard of `run`: resize inputA to k x m, inputB to k x n, and both
   * outputs to m x n, stopping at the first refusal without undoing the
   * resizes before it. `resized` counts the resizes that succeeded.
   */
  method ResizeAll(targetDimensions: Dimensions, resources: Resources, grants: seq<bool>)
    returns (ok: bool, ghost resized: nat)
    requires targetDimensions.Valid() && resources.Valid() && |grants| == 4
    modifies resources.Repr()
    ensures resources.Valid()
    ensures resized <= 4 && (ok <==> resized == 4)
    ensures !ok ==> !grants[resized]
    ensures resized > 0 ==> (resources.inputA.rowCount, resources.inputA.columnCount) == Targets(targetDimensions)[0]
    ensures resized > 1 ==> (resources.inputB.rowCount, resources.inputB.columnCount) == Targets(targetDimensions)[1]
    ensures resized > 2 ==> (resources.metalOutput.rowCount, resources.metalOutput.columnCount) == Targets(targetDimensions)[2]
    ensures resized > 3 ==> (resources.cpuOutput.rowCount, resources.cpuOutput.columnCount) == Targets(targetDimensions)[3]
    ensures resized <= 0 ==> resources.inputA.Layout() == old(resources.inputA.Layout())
    ensures resized <= 1 ==> resources.inputB.Layout() == old(resources.inputB.Layout())
    ensures resized <= 2 ==> resources.metalOutput.Layout() == old(resources.metalOutput.Layout())
    ensures resized <= 3 ==> resources.cpuOutput.Layout() == old(resources.cpuOutput.Layout())
  {
    var targets := Targets(targetDimensions);
    resized := 0;
    ok := ResizeMatrix(resources, 0, targets[0].0, targets[0].1, grants[0]);
    if ok {
      resized := 1;
      ok := ResizeMatrix(resources, 1, targets[1].0, targets[1].1, grants[1]);
      if ok {
        resized := 2;
        ok := ResizeMatrix(resources, 2, targets[2].0, targets[2].1, grants[2]);
        if ok {
          resized := 3;
          ok := ResizeMatrix(resources, 3, targets[3].0, targets[3].1, grants[3]);
          if ok {
            resized := 4;
          }
        }
      }
    }
  }

  /**
   * The two timed calls of `run`, once the guard has passed: multiply on the
   * CPU, then on Metal, the first error ending `run`.
   */
  method MultiplyBoth(targetDimensions: Dimensions, resources: Resources, repeatCount: int)
    returns (r: Outcome<PipelineError>)
    requires targetDimensions.Valid() && resources.Valid() && repeatCount >= 0
    requires (resources.inputA.rowCount, resources.inputA.columnCount) == Targets(targetDimensions)[0]
    requires (resources.inputB.rowCount, resources.inputB.columnCount) == Targets(targetDimensions)[1]
    requires (resources.metalOutput.rowCount, resources.metalOutput.columnCount) == Targets(targetDimensions)[2]
    requires (resources.cpuOutput.rowCount, resources.cpuOutput.columnCount) == Targets(targetDimensions)[3]
    modifies resources.metalPipeline.dimensionBuffer.contents
    ensures resources.Valid()
    ensures (resources.inputA.rowCount, resources.inputA.columnCount) == Targets(targetDimensions)[0]
    ensures (resources.inputB.rowCount, resources.inputB.columnCount) == Targets(targetDimensions)[1]
    ensures (resources.metalOutput.rowCount, resources.metalOutput.columnCount) == Targets(targetDimensions)[2]
    ensures (resources.cpuOutput.rowCount, resources.cpuOutput.columnCount) == Targets(targetDimensions)[3]
    ensures resources.CPUData().Check(repeatCount) == Pass
    ensures resources.MetalData().Layouts().Check(repeatCount) == Pass
    ensures r == MultiplyOutcome(resources.MetalData().Layouts(), repeatCount, resources.MetalData().Devices(),
                                 resources.metalPipeline.device, DimensionBufferByteCount)
  {
    PlannedShapesAreValid(targetDimensions, resources.inputA.Layout(), resources.inputB.Layout(), resources.cpuOutput.Layout());
    PlannedShapesAreValid(targetDimensions, resources.inputA.Layout(), resources.inputB.Layout(), resources.metalOutput.Layout());
    var cpuResult, calls := CPUPipelines.MultiplyData(resources.CPUData(), repeatCount);
    if cpuResult.Fail? {
      return cpuResult;
    }
    r := resources.metalPipeline.MultiplyData(resources.MetalData(), repeatCount);
  }

  /**
   * `run`, up to the two multiplications: refuse a negative repeat count
   * before touching any matrix, run the resize guard (its refusal reported
   * as `unsupportedMatrixSize`), then multiply on the CPU and on Metal.
   * `grants[i]` says whether the i-th resize may allocate.
   */
  method Run(targetDimensions: Dimensions, resources: Resources, repeatCount: int, grants: seq<bool>)
    returns (r: Outcome<PipelineError>, ghost resized: nat)
    requires targetDimensions.Valid() && resources.Valid() && |grants| == 4
    modifies resources.Repr()
    ensures resources.Valid()
    ensures repeatCount < 0 ==> r == Fail(InvalidRepeatCount) && resized == 0
    ensures resized <= 4
    ensures repeatCount >= 0 && resized < 4 ==> r == Fail(UnsupportedMatrixSize) && !grants[resized]
    ensures repeatCount >= 0 && grants == [true, true, true, true] ==> resized == 4
    ensures resized > 0 ==> (resources.inputA.rowCount, resources.inputA.columnCount) == Targets(targetDimensions)[0]
    ensures resized > 1 ==> (resources.inputB.rowCount, resources.inputB.columnCount) == Targets(targetDimensions)[1]
    ensures resized > 2 ==> (resources.metalOutput.rowCount, resources.metalOutput.columnCount) == Targets(targetDimensions)[2]
    ensures resized > 3 ==> (resources.cpuOutput.rowCount, resources.cpuOutput.columnCount) == Targets(targetDimensions)[3]
    ensures resized <= 0 ==> resources.inputA.Layout() == old(resources.inputA.Layout())
    ensures resized <= 1 ==> resources.inputB.Layout() == old(resources.inputB.Layout())
    ensures resized <= 2 ==> resources.metalOutput.Layout() == old(resources.metalOutput.Layout())
    ensures resized <= 3 ==> resources.cpuOutput.Layout() == old(resources.cpuOutput.Layout())
    ensures resized == 4 ==>
      resources.CPUData().Check(repeatCount) == Pass &&
      resources.MetalData().Layouts().Check(repeatCount) == Pass &&
      r == MultiplyOutcome(resources.MetalData().Layouts(), repeatCount, resources.MetalData().Devices(),
                           resources.metalPipeline.device, DimensionBufferByteCount)
  {
    resized := 0;
    if !(repeatCount >= 0) {
      return Fail(InvalidRepeatCount), resized;
    }
    var ok;
    ok, resized := ResizeAll(targetDimensions, resources, grants);
    if !ok {
      return Fail(UnsupportedMatrixSize), resized;
    }
    r := MultiplyBoth(targetDimensions, resources, repeatCount);
  }
}
