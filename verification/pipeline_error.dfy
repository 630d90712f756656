/** `PipelineError`: the six ways a multiplication is refused. */
module PipelineErrors {

  datatype PipelineError =
    | InvalidInputDimensions
    | InvalidOutputDimensions
    | InvalidRepeatCount
    | InvalidBuffer
    | IncompatibleDevice
    | UnsupportedMatrixSize
  {
    /** `description`. */
    function Description(): string {
      match this
      case InvalidInputDimensions => "invalid input dimensions"
      case InvalidOutputDimensions => "invalid output dimensions"
      case InvalidRepeatCount => "invalid repeat count"
      case InvalidBuffer => "invalid buffer"
      case IncompatibleDevice => "incompatible device"
      case UnsupportedMatrixSize => "unsupported matrix size"
    }
  }

  /** The enumeration's cases, in declaration order. */
  function AllErrors(): (r: seq<PipelineError>)
    ensures |r| == 6
    ensures forall i, j :: 0 <= i < j < |r| ==> r[i] != r[j]
  {
    [InvalidInputDimensions, InvalidOutputDimensions, InvalidRepeatCount,
     InvalidBuffer, IncompatibleDevice, UnsupportedMatrixSize]
  }

  /** There are exactly six cases: every error is one of the listed ones. */
  lemma ExactlySixCases(e: PipelineError)
    ensures e in AllErrors()
  {
    match e
    case InvalidInputDimensions =>
    case InvalidOutputDimensions =>
    case InvalidRepeatCount =>
    case InvalidBuffer =>
    case IncompatibleDevice =>
    case UnsupportedMatrixSize =>
  }

  /** Every case has its own non-empty description, so no error is reported as another. */
  lemma DescriptionsDistinct(e: PipelineError, e': PipelineError)
    ensures |e.Description()| > 0
    ensures e.Description() == e'.Description() ==> e == e'
  {
  }

  lemma DescriptionExamples()
    ensures UnsupportedMatrixSize.Description() == "unsupported matrix size"
    ensures InvalidRepeatCount.Description() == "invalid repeat count"
    ensures IncompatibleDevice.Description() != InvalidBuffer.Description()
  {
  }
}
