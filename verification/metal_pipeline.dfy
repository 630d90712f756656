/**
 * `MetalPipeline`: vends Metal matrices with a fixed alignment on one
 * device, and validates a multiplication before encoding its dimensions as
 * six 16-bit values into a private parameter buffer. The kernel dispatch is
 * not present in the modelled code.
 */
module MetalPipelines {
  import opened Common
  import opened Matrix
  import opened PipelineErrors
  import opened Multiplication
  import opened MetalBuffers
  import opened BufferedMatrices
  import opened MetalMatrices

  /** `_dimensionCount`: the number of `UInt16` slots in the parameter buffer. */
  const DimensionCount := 6
  /** `sizeof(UInt16)`. */
  const DimensionSize := 2
  /** `_dimensionBufferByteCount`. */
  const DimensionBufferByteCount := DimensionCount * DimensionSize
  /** `UInt16.max`. */
  const MaxDimension := 0xFFFF

  /** `canEncode`: `value` fits in a `UInt16` slot. */
  predicate CanEncode(value: int) {
    0 <= value <= MaxDimension
  }

  /** `canEncodeDimensions` as written: only `bytesPerRow` and `columnCount` are range-checked. */
  predicate CanEncodeDimensionsAsWritten(m: Layout)
    ensures m.WellFormed() ==> (CanEncodeDimensionsAsWritten(m) <==> m.BytesPerRow() <= MaxDimension)
  {
    CanEncode(m.BytesPerRow()) && CanEncode(m.columnCount)
  }

  /**
   * `canEncodeDimensions` as intended: `rowCount` is encoded too, so it is
   * checked as well. `EncodableIffSlotsFit` states what the check guarantees.
   */
  predicate CanEncodeDimensions(m: Layout)
    ensures CanEncodeDimensions(m) <==> CanEncodeDimensionsAsWritten(m) && CanEncode(m.rowCount)
  {
    CanEncode(m.BytesPerRow()) && CanEncode(m.columnCount) && CanEncode(m.rowCount)
  }

  /** The values written to slots 0 to 5 of the parameter buffer, in slot order. */
  function DimensionSlots(data: MultiplicationData): (s: seq<int>)
    ensures |s| == DimensionCount
  {
    [data.output.rowCount, data.output.columnCount, data.inputB.rowCount,
     data.inputA.BytesPerRow(), data.inputB.BytesPerRow(), data.output.BytesPerRow()]
  }

  /** The encoding check on all three matrices, as intended. */
  predicate AllEncodable(data: MultiplicationData) {
    CanEncodeDimensions(data.inputA) && CanEncodeDimensions(data.inputB) && CanEncodeDimensions(data.output)
  }

  /** The encoding check on all three matrices, as written. */
  predicate AllEncodableAsWritten(data: MultiplicationData) {
    CanEncodeDimensionsAsWritten(data.inputA) && CanEncodeDimensionsAsWritten(data.inputB) &&
    CanEncodeDimensionsAsWritten(data.output)
  }

  /**
   * For data that passed the dimension checks, the intended check accepts
   * exactly the data whose six slot values all fit in 16 bits.
   */
  lemma EncodableIffSlotsFit(data: MultiplicationData)
    requires data.InputDimensionsAreValid() && data.OutputDimensionsAreValid()
    ensures AllEncodable(data) <==> forall i :: 0 <= i < DimensionCount ==> CanEncode(DimensionSlots(data)[i])
  {
    var s := DimensionSlots(data);
    if forall i :: 0 <= i < DimensionCount ==> CanEncode(s[i]) {
      assert CanEncode(s[0]) && CanEncode(s[1]) && CanEncode(s[2]);
      assert CanEncode(s[3]) && CanEncode(s[4]) && CanEncode(s[5]);
    }
  }

  /**
   * The check as written guarantees every slot but slot 2: slots 0 and 1
   * are column counts of the inputs, but `inputB.rowCount` is never checked.
   */
  lemma AsWrittenCoversAllButSlotTwo(data: MultiplicationData)
    requires data.InputDimensionsAreValid() && data.OutputDimensionsAreValid()
    requires AllEncodableAsWritten(data)
    ensures forall i :: 0 <= i < DimensionCount && i != 2 ==> CanEncode(DimensionSlots(data)[i])
  {
  }

  // The slot encoding: each value as two bytes, least significant first.

  function Low(value: int): Byte
    requires CanEncode(value)
  {
    (value % 256) as Byte
  }

  function High(value: int): Byte
    requires CanEncode(value)
  {
    (value / 256) as Byte
  }

  /** The bytes of `values` stored as consecutive little-endian `UInt16`s. */
  function Encode(values: seq<int>): (bytes: seq<Byte>)
    requires forall i :: 0 <= i < |values| ==> CanEncode(values[i])
    ensures |bytes| == DimensionSize * |values|
  {
    seq(DimensionSize * |values|, j requires 0 <= j < DimensionSize * |values| =>
      if j % 2 == 0 then Low(values[j / 2]) else High(values[j / 2]))
  }

  /** The `UInt16`s read back from little-endian byte pairs. */
  function Decode(bytes: seq<Byte>): (values: seq<int>)
    requires |bytes| % DimensionSize == 0
    ensures |values| == |bytes| / DimensionSize
    ensures forall i :: 0 <= i < |values| ==> CanEncode(values[i])
  {
    seq(|bytes| / DimensionSize, i requires 0 <= i < |bytes| / DimensionSize =>
      bytes[2 * i] as int + 256 * bytes[2 * i + 1] as int)
  }

  /** A value is its low byte plus 256 times its high byte. */
  lemma SlotBytes(value: int)
    requires CanEncode(value)
    ensures Low(value) as int + 256 * High(value) as int == value
  {
  }

  /** A byte pair read as a value splits back into the same pair. */
  lemma SplitPair(low: Byte, high: Byte)
    ensures CanEncode(low as int + 256 * high as int)
    ensures Low(low as int + 256 * high as int) == low && High(low as int + 256 * high as int) == high
  {
    var v := low as int + 256 * high as int;
    assert v / 256 == high as int && v % 256 == low as int;
  }

  /** Slot `i` of the encoding holds the two bytes of `values[i]`. */
  lemma EncodeAt(values: seq<int>, i: int)
    requires forall k :: 0 <= k < |values| ==> CanEncode(values[k])
    requires 0 <= i < |values|
    ensures Encode(values)[2 * i] == Low(values[i]) && Encode(values)[2 * i + 1] == High(values[i])
  {
    assert (2 * i) % 2 == 0 && (2 * i) / 2 == i;
    assert (2 * i + 1) % 2 == 1 && (2 * i + 1) / 2 == i;
  }

  /** Bytes that hold each value's pair in its slot are the encoding of the values. */
  lemma EncodedBySlots(bytes: seq<Byte>, values: seq<int>)
    requires forall k :: 0 <= k < |values| ==> CanEncode(values[k])
    requires |bytes| == DimensionSize * |values|
    requires forall k :: 0 <= k < |values| ==> bytes[2 * k] == Low(values[k]) && bytes[2 * k + 1] == High(values[k])
    ensures bytes == Encode(values)
  {
    forall j | 0 <= j < |bytes|
      ensures bytes[j] == Encode(values)[j]
    {
      var i := j / 2;
      EncodeAt(values, i);
      assert j == 2 * i || j == 2 * i + 1;
    }
  }

  lemma DecodeEncode(values: seq<int>)
    requires forall i :: 0 <= i < |values| ==> CanEncode(values[i])
    ensures Decode(Encode(values)) == values
  {
    forall i | 0 <= i < |values|
      ensures Decode(Encode(values))[i] == values[i]
    {
      EncodeAt(values, i);
      SlotBytes(values[i]);
    }
  }

  lemma EncodeDecode(bytes: seq<Byte>)
    requires |bytes| % DimensionSize == 0
    ensures Encode(Decode(bytes)) == bytes
  {
    var values := Decode(bytes);
    forall k | 0 <= k < |values|
      ensures bytes[2 * k] == Low(values[k]) && bytes[2 * k + 1] == High(values[k])
    {
      SplitPair(bytes[2 * k], bytes[2 * k + 1]);
    }
    EncodedBySlots(bytes, values);
  }

  /**
   * The intended outcome of `encodeDimensionsForData` on a parameter buffer
   * of `bufferLength` bytes: the range check first, then the buffer length.
   */
  function EncodeOutcome(data: MultiplicationData, bufferLength: int): (r: Outcome<PipelineError>)
    ensures r.Pass? <==> AllEncodable(data) && bufferLength >= DimensionBufferByteCount
    ensures !AllEncodable(data) ==> r == Fail(UnsupportedMatrixSize)
    ensures AllEncodable(data) && bufferLength < DimensionBufferByteCount ==> r == Fail(InvalidBuffer)
  {
    if !AllEncodable(data) then Fail(UnsupportedMatrixSize)
    else if !(DimensionBufferByteCount <= bufferLength) then Fail(InvalidBuffer)
    else Pass
  }

  /**
   * `encodeDimensionsForData` as written, with `None` standing for the
   * run-time trap of a `UInt16` conversion of a value out of range.
   */
  function EncodeOutcomeAsWritten(data: MultiplicationData, bufferLength: int): (r: Option<Outcome<PipelineError>>)
    ensures r.None? ==> AllEncodableAsWritten(data) && bufferLength >= DimensionBufferByteCount
    ensures r.None? <==>
      AllEncodableAsWritten(data) && bufferLength >= DimensionBufferByteCount &&
      exists i :: 0 <= i < DimensionCount && !CanEncode(DimensionSlots(data)[i])
  {
    if !AllEncodableAsWritten(data) then Some(Fail(UnsupportedMatrixSize))
    else if !(DimensionBufferByteCount <= bufferLength) then Some(Fail(InvalidBuffer))
    else if exists i :: 0 <= i < DimensionCount && !CanEncode(DimensionSlots(data)[i]) then None
    else Some(Pass)
  }

  /** On data that passed the dimension checks, both versions succeed on the same inputs. */
  lemma AsWrittenPassesExactlyWhenIntended(data: MultiplicationData, bufferLength: int)
    requires data.InputDimensionsAreValid() && data.OutputDimensionsAreValid()
    ensures EncodeOutcomeAsWritten(data, bufferLength) == Some(Pass) <==> EncodeOutcome(data, bufferLength) == Pass
  {
    EncodableIffSlotsFit(data);
    if EncodeOutcomeAsWritten(data, bufferLength) == Some(Pass) {
      assert forall i :: 0 <= i < DimensionCount ==> CanEncode(DimensionSlots(data)[i]);
    }
  }

  /**
   * Two 65536 x 1 inputs and a 1 x 1 output, padded to 8, pass the
   * dimension checks and the check as written, and then trap converting
   * `inputB.rowCount` to `UInt16`; the intended check refuses them.
   */
  lemma AsWrittenTrapsOnTallInput()
    ensures var d := MultiplicationData(Layout(65536, 1, 65536, 8), Layout(65536, 1, 65536, 8), Layout(1, 1, 8, 8));
      d.Check(0) == Pass && AllEncodableAsWritten(d) &&
      EncodeOutcomeAsWritten(d, DimensionBufferByteCount).None? &&
      EncodeOutcome(d, DimensionBufferByteCount) == Fail(UnsupportedMatrixSize)
  {
    var d := MultiplicationData(Layout(65536, 1, 65536, 8), Layout(65536, 1, 65536, 8), Layout(1, 1, 8, 8));
    assert !CanEncode(DimensionSlots(d)[2]);
  }

  /**
   * `dimensions[slot] = UInt16(values[slot])`: extend the encoded prefix of
   * `a` by one slot, touching nothing after it.
   */
  method WriteSlot(a: array<Byte>, values: seq<int>, slot: nat)
    requires forall i :: 0 <= i < |values| ==> CanEncode(values[i])
    requires slot < |values| && 2 * slot + 1 < a.Length
    requires a[..2 * slot] == Encode(values)[..2 * slot]
    modifies a
    ensures a[..2 * slot + 2] == Encode(values)[..2 * slot + 2]
    ensures forall j :: 2 * slot + 2 <= j < a.Length ==> a[j] == old(a[j])
  {
    a[2 * slot] := Low(values[slot]);
    a[2 * slot + 1] := High(values[slot]);
    EncodeAt(values, slot);
  }

  /**
   * `encodeDimensionsForData`: refuse before writing anything, or store the
   * six slot values in the first 12 bytes of `buffer` and leave the rest.
   */
  method EncodeDimensionsForData(buffer: DeviceBuffer, data: MultiplicationData) returns (r: Outcome<PipelineError>)
    modifies buffer.contents
    ensures r == EncodeOutcome(data, buffer.contents.Length)
    ensures r.Fail? ==> buffer.contents[..] == old(buffer.contents[..])
    ensures r.Pass? ==>
      buffer.contents[..DimensionBufferByteCount] == Encode(DimensionSlots(data)) &&
      buffer.contents[DimensionBufferByteCount..] == old(buffer.contents[DimensionBufferByteCount..])
  {
    if !(CanEncodeDimensions(data.inputA) && CanEncodeDimensions(data.inputB) && CanEncodeDimensions(data.output)) {
      return Fail(UnsupportedMatrixSize);
    }
    var a := buffer.contents;
    if !(DimensionBufferByteCount <= a.Length) {
      return Fail(InvalidBuffer);
    }
    var slots := DimensionSlots(data);
    WriteSlot(a, slots, 0);
    WriteSlot(a, slots, 1);
    WriteSlot(a, slots, 2);
    WriteSlot(a, slots, 3);
    WriteSlot(a, slots, 4);
    WriteSlot(a, slots, 5);
    r := Pass;
  }

  /** The device of the `MTLBuffer` behind `m`, or `None` when it has none (`metalBuffer` is nil). */
  function BufferDevice(m: BufferedMatrix): (d: Option<DeviceId>)
    reads m, m.Repr
    requires m.Valid()
    ensures m.buffer.Device? ==> d == Some(m.buffer.metal.device)
    ensures m.buffer.Host? ==> d.None?
  {
    var b := MetalBufferOf(m);
    if b == null then None else Some(b.device)
  }

  /**
   * The intended outcome of `multiplyData` when the matrices' buffers are on
   * `devices` and the parameter buffer has `parameterLength` bytes: the
   * first failing check, in order, decides the error.
   */
  function MultiplyOutcome(
    data: MultiplicationData, repeatCount: int,
    devices: (Option<DeviceId>, Option<DeviceId>, Option<DeviceId>), device: DeviceId,
    parameterLength: int): (r: Outcome<PipelineError>)
    ensures r.Pass? <==>
      data.Check(repeatCount).Pass? && devices == (Some(device), Some(device), Some(device)) &&
      EncodeOutcome(data, parameterLength).Pass?
    ensures data.Check(repeatCount).Fail? ==> r == data.Check(repeatCount)
    ensures data.Check(repeatCount).Pass? && (devices.0.None? || devices.1.None? || devices.2.None?) ==>
      r == Fail(InvalidBuffer)
    ensures (data.Check(repeatCount).Pass? && devices.0.Some? && devices.1.Some? && devices.2.Some? &&
             (devices.0.value != device || devices.1.value != device || devices.2.value != device)) ==>
      r == Fail(IncompatibleDevice)
    ensures data.Check(repeatCount).Pass? && devices == (Some(device), Some(device), Some(device)) ==>
      r == EncodeOutcome(data, parameterLength)
  {
    var check := data.Check(repeatCount);
    if check.Fail? then check
    else if devices.0.None? || devices.1.None? || devices.2.None? then Fail(InvalidBuffer)
    else if !(devices.0.value == device && devices.1.value == device && devices.2.value == device) then
      Fail(IncompatibleDevice)
    else EncodeOutcome(data, parameterLength)
  }

  /**
   * Matrices on two different devices are never multiplied, and for
   * well-shaped data the failure is reported as `incompatibleDevice`,
   * not as `invalidBuffer`.
   */
  lemma MixedDevicesAreIncompatible(data: MultiplicationData, repeatCount: int, d: DeviceId, d': DeviceId, device: DeviceId, parameterLength: int)
    requires d != d'
    requires data.Check(repeatCount).Pass?
    ensures MultiplyOutcome(data, repeatCount, (Some(d), Some(d), Some(d')), device, parameterLength) == Fail(IncompatibleDevice)
    ensures MultiplyOutcome(data, repeatCount, (Some(d), Some(d'), Some(d)), device, parameterLength) == Fail(IncompatibleDevice)
    ensures MultiplyOutcome(data, repeatCount, (Some(d'), Some(d), Some(d)), device, parameterLength) == Fail(IncompatibleDevice)
  {
  }

  /** The three matrices of a Metal multiplication (`MetalData`). */
  datatype MetalData = MetalData(inputA: BufferedMatrix, inputB: BufferedMatrix, output: BufferedMatrix)
  {
    ghost function Repr(): set<object>
      reads inputA, inputB, output
    {
      inputA.Repr + inputB.Repr + output.Repr
    }

    /** All three are valid matrices over device memory (`MatrixType: MetalMatrix`). */
    ghost predicate Valid()
      reads inputA, inputB, output, Repr()
    {
      inputA.Valid() && inputB.Valid() && output.Valid() &&
      inputA.buffer.Device? && inputB.buffer.Device? && output.buffer.Device?
    }

    function Layouts(): MultiplicationData
      reads inputA, inputB, output
    {
      MultiplicationData(inputA.Layout(), inputB.Layout(), output.Layout())
    }

    function Devices(): (Option<DeviceId>, Option<DeviceId>, Option<DeviceId>)
      reads inputA, inputB, output, Repr()
      requires Valid()
    {
      (BufferDevice(inputA), BufferDevice(inputB), BufferDevice(output))
    }
  }

  class MetalPipeline {
    const device: DeviceId
    const countAlignment: int
    const dimensionBuffer: DeviceBuffer

    /** What a constructed pipeline guarantees: the guard of `init?`. */
    ghost predicate Valid()
      reads this
    {
      countAlignment > 0 &&
      dimensionBuffer.device == device && dimensionBuffer.contents.Length == DimensionBufferByteCount
    }

    constructor Init(device: DeviceId, countAlignment: int, dimensionBuffer: DeviceBuffer)
      ensures this.device == device && this.countAlignment == countAlignment
      ensures this.dimensionBuffer == dimensionBuffer
    {
      this.device := device;
      this.countAlignment := countAlignment;
      this.dimensionBuffer := dimensionBuffer;
    }

    /**
     * `init?(device:countAlignment:)`: nil unless the alignment is positive,
     * the device grants the 12-byte parameter buffer, the library loads, it
     * holds the `MultiplyMatrices` kernel, and a pipeline state is made from
     * that kernel.
     */
    static method Create(device: DeviceId, countAlignment: int,
                         bufferGranted: bool, libraryLoaded: bool, kernelFound: bool, stateCreated: bool)
      returns (p: MetalPipeline?)
      ensures p != null <==> countAlignment > 0 && bufferGranted && libraryLoaded && kernelFound && stateCreated
      ensures p != null ==>
        fresh(p) && fresh(p.dimensionBuffer.contents) && p.Valid() &&
        p.device == device && p.countAlignment == countAlignment &&
        p.dimensionBuffer.device == device && p.dimensionBuffer.contents.Length == DimensionBufferByteCount
    {
      var dimensionBuffer: DeviceBuffer? := null;
      if bufferGranted {
        dimensionBuffer := new DeviceBuffer.WithLength(device, DimensionBufferByteCount);
      }
      var library := libraryLoaded;
      var state := library && kernelFound && stateCreated;
      if !(countAlignment > 0 && dimensionBuffer != null && library && state) {
        return null;
      }
      p := new MetalPipeline.Init(device, countAlignment, dimensionBuffer);
    }

    /** `newMatrixWithRowCount`: a Metal matrix with this pipeline's alignment, on its device. */
    method NewMatrixWithRowCount(rowCount: int, columnCount: int, granted: bool) returns (m: BufferedMatrix?)
      requires Valid()
      ensures m == null <==> rowCount <= 0 || columnCount <= 0 || !granted
      ensures m != null ==>
        fresh(m.Repr) && m.Valid() && m.buffer.Device? && m.countAlignment == countAlignment &&
        m.rowCount == rowCount && m.columnCount == columnCount &&
        BufferDevice(m) == Some(device)
    {
      m := NewMetalMatrix(rowCount, columnCount, countAlignment, device, granted);
    }

    /**
     * `multiplyData`: the dimension, repeat-count, buffer and device checks,
     * then the parameter encoding; on success the parameter buffer holds the
     * six encoded slot values. No kernel is dispatched.
     */
    method MultiplyData(data: MetalData, repeatCount: int) returns (r: Outcome<PipelineError>)
      requires Valid() && data.Valid()
      requires dimensionBuffer.contents !in data.Repr()
      modifies dimensionBuffer.contents
      ensures data.Valid()
      ensures r == MultiplyOutcome(data.Layouts(), repeatCount, data.Devices(), device, DimensionBufferByteCount)
      ensures r.Fail? ==> dimensionBuffer.contents[..] == old(dimensionBuffer.contents[..])
      ensures r.Pass? ==> dimensionBuffer.contents[..] == Encode(DimensionSlots(data.Layouts()))
    {
      var layouts := data.Layouts();
      var check := layouts.Check(repeatCount);
      if check.Fail? {
        return check;
      }
      var bufferA, bufferB, outputBuffer := MetalBufferOf(data.inputA), MetalBufferOf(data.inputB), MetalBufferOf(data.output);
      if bufferA == null || bufferB == null || outputBuffer == null {
        return Fail(InvalidBuffer);
      }
      if !(bufferA.device == device && bufferB.device == device && outputBuffer.device == device) {
        return Fail(IncompatibleDevice);
      }
      r := EncodeDimensionsForData(dimensionBuffer, layouts);
    }
  }
}
