# MetalMatrixMultiply — verified model of the matrix storage and validation layer

This project models, in Dafny, the part of MetalMatrixMultiply that stores
matrices and validates multiplications. The benchmark multiplies `Aᵀ·B`
with Float32 data on the CPU (BLAS `sgemm`) and on a Metal GPU, and compares
the two. The model covers the integer and byte layer beneath that work:

- **Padding** (`Alignment`): `Int.padded(to:)` rounds a positive count up to
  a multiple of a positive alignment, or fails.
- **Layout** (`Matrix`): the `Matrix` protocol's four counts, with the
  derived `bytesPerRow`, `byteCount` and row-major element offsets.
- **Byte buffers**:
  - `CPUBuffers` is the host buffer, an optional `NSMutableData` that
    grows, shrinks or is released.
  - `MetalBuffers` is the device buffer, an optional `MTLBuffer` tied to
    one device that is reallocated and copied on every size change.
  - Allocation success is a `granted` parameter wherever the source makes
    a new buffer. Growing existing host data in place never fails in the
    model (see "## Left out"). A device is an opaque
    `DeviceId`.
- **Buffered matrices** (`BufferedMatrices`, `CPUMatrices`,
  `MetalMatrices`): a class whose shape is committed only when its buffer
  can hold it. It is built over either buffer kind and resized in place.
  The buffer only ever grows.
- **Validation**:
  - `Multiplication`: the two dimension predicates of
    `MultiplicationData`.
  - `PipelineErrors`: the six `PipelineError` cases.
  - `CPUPipelines`: the CPU pipeline's guard chain and its `1 + repeatCount`
    kernel calls, with their `sgemm` arguments.
  - `MetalPipelines`: the Metal pipeline's guard chain, device identity
    check and six-slot UInt16 parameter encoding.
- **Benchmark planning** (`PerformanceTestCases`): `Dimensions`, the
  operation count, the description string, and the four-resize sequence
  of `run`.

Swift's failable initialisers become static methods that return `null`.
Functions that throw return an `Outcome` (`Pass` or `Fail(error)`). The
`ResizableBuffer` protocol becomes a `BufferRef` datatype with one case per
implementation. Each buffer resize promises its exact success and new length as a function
of the old state (`HostResize`, `DeviceResize`). Its contents are given
byte for byte, except the bytes a Metal growth adds past the old end, which
the source leaves undefined. The matrix resize promises its new shape and
its exact new buffer length. Lemmas prove what the source promises about
those functions. Examples: padding is the least aligned bound, encoding is
inverted by decoding, and every `sgemm` access stays inside its matrix.

## Model

| member | source | states |
|---|---|---|
| Alignment.Padded | Source/Model/Int+Alignment.swift:14-21 | Returns none exactly when the count or the alignment is not positive. Otherwise the result is a multiple of the alignment in `[count, count + alignment)`. |
| Alignment.AlignedCountUnchanged | Source/Model/Int+Alignment.swift:17-18 | A count that is already a multiple of the alignment is returned unchanged. |
| Alignment.PaddedIdempotent | Source/Model/Int+Alignment.swift:14-21 | Padding a padded count again gives the same value. |
| Alignment.PaddedIsLeast | Source/Model/Int+Alignment.swift:17-20 | The padded count is at most every multiple of the alignment that is at least the count, so it is the least such multiple. |
| Matrix.Layout.WellFormed | Source/Model/Matrix.swift:18-41 | Definition: positive logical counts, with padded counts at least as large, as the protocol's doc-comment invariants require of a matrix with data. The consequences are proved by `ColumnsFitRow`, `ElementInsideByteCount` and `ElementOffsetInjective`. |
| Matrix.ColumnsFitRow | Source/Model/Matrix.swift:37-41 | For a well-formed layout, the logical columns' bytes are positive and fit within `bytesPerRow = paddedColumnCount * 4`. |
| Matrix.ElementInsideByteCount | Source/Model/Matrix.swift:32-49 | Every logical element `(row, column)` occupies 4 bytes at a non-negative offset, all inside `byteCount = paddedRowCount * bytesPerRow`. |
| Matrix.ElementOffsetInjective | Source/Model/Matrix.swift:32-41 | Two logical elements with the same byte offset are the same element: the padded row stride keeps rows from overlapping. |
| CPUBuffers.Resized | Source/Model/CPUMatrix.swift:60-75 | The resized bytes have length `max(newLength, 0)`, keep the old prefix, and are zero past the old end (`increaseLength`). |
| CPUBuffers.MutableData.constructor | Source/Model/CPUMatrix.swift:45 | `NSMutableData(length:)` holds `length` zero bytes. |
| CPUBuffers.MutableData.ResizeTo | Source/Model/CPUMatrix.swift:60-75 | The bytes become `Resized(old bytes, newLength)`: the same length keeps them, 0 empties them, growth appends zeros, shrinking keeps the prefix. |
| CPUBuffers.HostResize | Source/Model/CPUMatrix.swift:36-49 | The corrected resize succeeds exactly when the length is non-negative and either the length is unchanged or 0, the buffer already holds data (which grows or shrinks in place), or allocation is granted. On success the length is the new length. On failure the contents are unchanged. The same length is a no-op. The old prefix is kept and new bytes are zero. |
| CPUBuffers.HostResizeAsWritten | Source/Model/CPUMatrix.swift:36-49 | The resize as written returns true for every non-negative length. It agrees with `HostResize` whenever allocation is granted or data already exists. |
| CPUBuffers.HostResizeAsWrittenMisreports | Source/Model/CPUMatrix.swift:44-48 | On an empty buffer whose allocation fails, the resize as written reports success but leaves length 0. |
| CPUBuffers.CPUBuffer.Length | Source/Model/CPUMatrix.swift:29-34 | The length is 0 exactly when there is no data, so `memory` is nil. |
| CPUBuffers.CPUBuffer.Contents | Source/Model/CPUMatrix.swift:29-34 | The contents are exactly `length` bytes. |
| CPUBuffers.CPUBuffer.constructor | Source/Model/CPUMatrix.swift:52 | A new buffer has no data and is empty. |
| CPUBuffers.CPUBuffer.Resize | Source/Model/CPUMatrix.swift:36-49 | The result and the new contents are exactly `HostResize` of the old contents. Resizing to the current length keeps the same data object. |
| MetalBuffers.DeviceBuffer.WithLength | Source/Model/MetalMatrix.swift:54-56 | `newBufferWithLength` gives a fresh buffer of that length on the given device. |
| MetalBuffers.DeviceBuffer.WithBytes | Source/Model/MetalMatrix.swift:84-88 | `newBufferWithBytes` gives a fresh buffer on the device whose first bytes are the copied source. |
| MetalBuffers.DeviceBuffer.ResizedToLength | Source/Model/MetalMatrix.swift:73-97 | The same length returns the same buffer. A non-positive length or a failed allocation gives nil. Otherwise the result is a fresh buffer on the same device, of the new length, holding the old prefix. |
| MetalBuffers.CopyPrefix | Source/Model/MetalMatrix.swift:93 | `assignFrom(count:)` copies the first `count` bytes and leaves the rest of the target unchanged. |
| MetalBuffers.DeviceResize | Source/Model/MetalMatrix.swift:45-60 | The corrected resize succeeds exactly when the length is non-negative and is the current length, 0, or a granted allocation. On success the length is the new length. On failure the length is unchanged. |
| MetalBuffers.DeviceResizeAsWritten | Source/Model/MetalMatrix.swift:45-97 | The resize as written traps (none) exactly when it shrinks an existing buffer and the allocation is refused: the copy at line 93 writes through nil. Otherwise it returns true for every non-negative length. It agrees with `DeviceResize` when allocation is granted. |
| MetalBuffers.DeviceResizeAsWrittenMisreports | Source/Model/MetalMatrix.swift:51-59 | Growing 64 bytes to 128 with a failed allocation reports success but leaves length 0, where the corrected resize reports failure and keeps 64. Shrinking 128 to 64 with a failed allocation traps. |
| MetalBuffers.MetalBuffer.Length | Source/Model/MetalMatrix.swift:38-43 | The length is 0 exactly when there is no `MTLBuffer`, so `memory` is nil. |
| MetalBuffers.MetalBuffer.Contents | Source/Model/MetalMatrix.swift:38-43 | The contents are exactly `length` bytes. |
| MetalBuffers.MetalBuffer.constructor | Source/Model/MetalMatrix.swift:62 | A new buffer belongs to its device and holds no `MTLBuffer`. |
| MetalBuffers.MetalBuffer.Resize | Source/Model/MetalMatrix.swift:45-60 | The result and the new length are exactly `DeviceResize` of the old length. A failure or the same length keeps the buffer and contents. The common prefix of old and new contents is preserved. |
| BufferedMatrices.BufferRef.Contents | Source/Model/BufferedMatrix.swift:12-15 | The contents of either buffer kind have exactly `length` bytes. |
| BufferedMatrices.BufferRef.Resize | Source/Model/BufferedMatrix.swift:17-19 | The length becomes the new length exactly on success. Success means a non-negative length that is the current length, 0, or allocatable. A failure or the same length keeps the contents. The prefix is preserved, and host growth is zero-filled. |
| BufferedMatrices.ByteCountForPadded | Source/Model/BufferedMatrix.swift:137-142 | Returns none exactly when a padded count is not positive. Otherwise the result is positive and equals the layout's `byteCount` for any logical counts. |
| BufferedMatrices.PaddedLayout | Source/Model/BufferedMatrix.swift:53-58 | Returns none exactly when a count or the alignment is not positive. Otherwise the layout is well formed, keeps the logical counts, pads both counts, and its `byteCount` is the helper's. |
| BufferedMatrices.BufferedMatrix.BytesPerRow | Source/Model/Matrix.swift:55-62 | `bytesPerRow == paddedColumnCount * 4`, and it is at least the logical row's bytes. |
| BufferedMatrices.BufferedMatrix.ByteCount | Source/Model/BufferedMatrix.swift:33-37 | `byteCount == paddedRowCount * bytesPerRow == paddedRowCount * paddedColumnCount * 4`, positive and never more than the buffer length. |
| BufferedMatrices.BufferedMatrix.Init | Source/Model/BufferedMatrix.swift:75-80 | Stores the buffer, the alignment and the layout. |
| BufferedMatrices.BufferedMatrix.Create | Source/Model/BufferedMatrix.swift:47-83 | Bad counts or alignment give nil, with the buffer untouched. Otherwise a matrix exists exactly when the buffer was resized to the layout's `byteCount` (already that size, or allocatable). When no matrix is made, the buffer keeps its contents. The matrix carries the padded layout and the alignment over that buffer, and host bytes added by the resize are zero. |
| BufferedMatrices.BufferedMatrix.GrowBuffer | Source/Model/BufferedMatrix.swift:116-120 | The shape is unchanged. The buffer reaches the new length exactly when allocation is possible. Otherwise the length and contents are kept. The old bytes are always kept, and host growth is zero-filled. |
| BufferedMatrices.BufferedMatrix.ResizeToRowCount | Source/Model/BufferedMatrix.swift:92-131 | The same counts return true with nothing changed. Bad counts return false with nothing changed. Otherwise it succeeds exactly when the new `byteCount` fits the old length or growth is possible. Success commits the padded layout. Failure keeps the old layout and contents. The new buffer length is exactly the new `byteCount` when the buffer had to grow, and the old length otherwise, so the buffer never shrinks. The buffer is untouched when the shape fits, keeps its old bytes, and is zero-filled when host memory grows. |
| BufferedMatrices.BufferedMatrix.Reshape | Source/Model/BufferedMatrix.swift:116-127 | The tail of `resizeToRowCount` for a given padded layout. It succeeds exactly when the layout's `byteCount` fits the old length or growth is possible. On success the layout is committed. The buffer length becomes exactly `byteCount` if it had to grow, and stays the same otherwise. |
| CPUMatrices.NewCPUMatrix | Source/Model/CPUMatrix.swift:16-23 | Gives nil exactly when the counts or alignment are bad or allocation fails. Otherwise the matrix is over a fresh host buffer, with the padded layout, all `byteCount` bytes zero. |
| CPUMatrices.AsWrittenConstructionCommitsUnbackedShape | Source/Model/CPUMatrix.swift:44-48 | As written, constructing a 1×1 matrix (256 bytes) with a failed allocation gets `true` from the empty buffer, which stays empty. |
| MetalMatrices.NewMetalMatrix | Source/Model/MetalMatrix.swift:18-30 | Gives nil exactly when the counts or alignment are bad or allocation fails. Otherwise the matrix is over a fresh device buffer on the given device, sized exactly `byteCount`. |
| MetalMatrices.MetalBufferOf | Source/Model/MetalMatrix.swift:16 | `metalBuffer` is nil exactly for a host-backed matrix. Otherwise it is on the buffer's device and at least `byteCount` long. |
| MetalMatrices.AsWrittenGrowthCommitsUnbackedShape | Source/Model/MetalMatrix.swift:45-59 | As written, growing an 8×8 Metal matrix (256 bytes) to 16×16 (1024 bytes) with a failed allocation reports success with length 0. |
| PipelineErrors.PipelineError.Description | Source/Pipeline/PipelineError.swift:20-29 | Definition: one fixed string per case. `DescriptionsDistinct` proves them non-empty and pairwise distinct, and `DescriptionExamples` pins two of them. |
| PipelineErrors.AllErrors | Source/Pipeline/PipelineError.swift:12-18 | Lists six pairwise distinct cases. |
| PipelineErrors.ExactlySixCases | Source/Pipeline/PipelineError.swift:13-18 | Every error is one of those six. |
| PipelineErrors.DescriptionsDistinct | Source/Pipeline/PipelineError.swift:20-29 | Every description is non-empty, and equal descriptions mean equal cases. |
| PipelineErrors.DescriptionExamples | Source/Pipeline/PipelineError.swift:22-27 | `unsupportedMatrixSize` reads "unsupported matrix size". `invalidRepeatCount` reads "invalid repeat count". `incompatibleDevice` differs from `invalidBuffer`. |
| Multiplication.MultiplicationData.InputDimensionsAreValid | Source/Multiplication/MultiplicationData.swift:22-24 | Definition: `inputA.rowCount == inputB.rowCount`. `ChecksMatchProductShape` proves this is exactly "Aᵀ·B is defined", and `DimensionsIgnorePadding` proves padding never affects it. |
| Multiplication.MultiplicationData.OutputDimensionsAreValid | Source/Multiplication/MultiplicationData.swift:26-29 | Definition: the output is `inputA.columnCount` × `inputB.columnCount`. `ChecksMatchProductShape` proves this is exactly "the output has the shape of Aᵀ·B". |
| Multiplication.MultiplicationData.Check | Source/Multiplication/CPUPipeline.swift:23-31 | Passes exactly when both dimension predicates hold and `repeatCount >= 0`. Otherwise the first failing guard is reported, in the order input, output, repeat count. |
| Multiplication.DimensionsIgnorePadding | Source/Multiplication/MultiplicationData.swift:22-29 | Both predicates depend only on the logical counts, never on the padded ones. |
| Multiplication.TransposeProduct | Source/Multiplication/MultiplicationData.swift:12-15 | The integer reference `Aᵀ·B` of a k×m and a k×n matrix is an m×n matrix. |
| Multiplication.ChecksMatchProductShape | Source/Multiplication/MultiplicationData.swift:12-29 | The input check holds exactly when `A` and `B` have the same number of rows. Given that, the output check holds exactly when the output has the shape of `Aᵀ·B`. |
| Multiplication.TransposeProductExample | Test/CPUPipeline_tests.swift:46-80 | `[[1,2],[3,4]]ᵀ·[[5,6],[7,8]] == [[26,30],[38,44]]`. |
| Multiplication.ValidDimensionsExample | Test/MultiplicationData_tests.swift:16-24 | 2×4, 2×6 and 4×6 pass both checks. |
| Multiplication.InvalidInputDimensionsExample | Test/MultiplicationData_tests.swift:26-34 | A 3×6 `inputB` fails the input check and passes the output check. |
| Multiplication.InvalidOutputDimensionsExample | Test/MultiplicationData_tests.swift:36-44 | A 5×6 output passes the input check and fails the output check. |
| CPUPipelines.SgemmArguments | Source/Multiplication/CPUPipeline.swift:45-54 | For data passing both checks, the call's M and N are A's and B's column counts and its K is their shared row count: the sizes of Aᵀ·B. |
| CPUPipelines.ByteOffsetIsElementOffset | Source/Multiplication/CPUPipeline.swift:50-53 | BLAS addressing with `ld = paddedColumnCount` gives the layout's own element offset. |
| CPUPipelines.SgemmArgumentsAreInBounds | Source/Multiplication/CPUPipeline.swift:41-54 | The arguments are: transpose A, no transpose B, alpha 1, beta 0, M, N and K from the output and `inputB`, and leading dimensions the padded column counts. Each leading dimension covers its matrix's columns. Every element `sgemm` reads or writes lies inside its matrix's `byteCount`. |
| CPUPipelines.MultiplyData | Source/Multiplication/CPUPipeline.swift:19-35 | Returns the guard chain's verdict. A failure makes no kernel call. A pass makes exactly `1 + repeatCount` calls, each with the `sgemm` arguments of the data. |
| CPUPipelines.TestOutcomes | Test/CPUPipeline_tests.swift:16-50 | A 5×6 output fails with `invalidOutputDimensions`. Repeat count −1 fails with `invalidRepeatCount`. The 2×2 data passes. |
| MetalPipelines.CanEncode | Source/Pipeline/MetalPipeline.swift:148-152 | Definition: `0 <= value <= UInt16.max`. `SlotBytes` and `SplitPair` prove these are exactly the values two bytes hold. |
| MetalPipelines.CanEncodeDimensionsAsWritten | Source/Pipeline/MetalPipeline.swift:147-155 | For a well-formed layout, the check as written holds exactly when `bytesPerRow` fits in UInt16. The `columnCount` test is implied, and `rowCount` is never tested. |
| MetalPipelines.CanEncodeDimensions | Source/Pipeline/MetalPipeline.swift:147-155 | The corrected check is the as-written check plus `rowCount` fitting in UInt16. |
| MetalPipelines.DimensionSlots | Source/Pipeline/MetalPipeline.swift:134-139 | There are six parameter slots. |
| MetalPipelines.EncodableIffSlotsFit | Source/Pipeline/MetalPipeline.swift:144-155 | For valid data, the corrected range check passes exactly when every one of the six slot values fits in UInt16. |
| MetalPipelines.AsWrittenCoversAllButSlotTwo | Source/Pipeline/MetalPipeline.swift:134-155 | The range check as written guarantees that every slot except slot 2 (`inputB.rowCount`) fits in UInt16. |
| MetalPipelines.Encode | Source/Pipeline/MetalPipeline.swift:113-115 | The encoding is two bytes per slot. |
| MetalPipelines.EncodeAt | Source/Pipeline/MetalPipeline.swift:131-139 | Slot `i` is stored at bytes `2i` and `2i + 1`, low byte first. |
| MetalPipelines.DecodeEncode | Source/Pipeline/MetalPipeline.swift:131-139 | Decoding the encoding of UInt16 values gives them back. |
| MetalPipelines.EncodeDecode | Source/Pipeline/MetalPipeline.swift:131-139 | Every even-length byte string is the encoding of its decoding, so the encoding is a bijection. |
| MetalPipelines.EncodeOutcome | Source/Pipeline/MetalPipeline.swift:119-129 | Passes exactly when all six values fit and the buffer holds 12 bytes. An unencodable matrix fails with `unsupportedMatrixSize` first. A short buffer fails with `invalidBuffer`. |
| MetalPipelines.EncodeOutcomeAsWritten | Source/Pipeline/MetalPipeline.swift:119-155 | As written, none (a UInt16 conversion trap) happens exactly when the written checks pass but a slot does not fit. |
| MetalPipelines.AsWrittenPassesExactlyWhenIntended | Source/Pipeline/MetalPipeline.swift:119-155 | For valid data, the as-written encoder passes without trapping exactly when the corrected one passes. |
| MetalPipelines.AsWrittenTrapsOnTallInput | Source/Pipeline/MetalPipeline.swift:134-136 | Two 65536×1 inputs with a 1×1 output pass every written check, yet trap converting `inputB.rowCount`. |
| MetalPipelines.WriteSlot | Source/Pipeline/MetalPipeline.swift:134-139 | One `dimensions[slot] = UInt16(value)` write extends the encoded prefix by one slot and leaves later bytes unchanged. |
| MetalPipelines.EncodeDimensionsForData | Source/Pipeline/MetalPipeline.swift:119-140 | Returns `EncodeOutcome`. A failure writes nothing. A pass makes the first 12 bytes the six encoded slots and leaves the rest unchanged. |
| MetalPipelines.BufferDevice | Source/Pipeline/MetalPipeline.swift:84-94 | Gives the device of a Metal-backed matrix's buffer. It is none for a host-backed matrix, whose `metalBuffer` is nil. |
| MetalPipelines.MultiplyOutcome | Source/Pipeline/MetalPipeline.swift:69-96 | Passes exactly when the data checks pass, all three buffers are on the pipeline's device, and encoding passes. The first failure wins: dimension or repeat-count errors, then a missing buffer (`invalidBuffer`), then a foreign device (`incompatibleDevice`), then encoding. |
| MetalPipelines.MixedDevicesAreIncompatible | Source/Pipeline/MetalPipeline.swift:90-94 | For valid data, matrices from two different devices always fail with `incompatibleDevice`, whichever matrix is the odd one. |
| MetalPipelines.MetalPipeline.Init | Source/Pipeline/MetalPipeline.swift:29-44 | Stores the device, the alignment and the parameter buffer. |
| MetalPipelines.MetalPipeline.Create | Source/Pipeline/MetalPipeline.swift:29-54 | Gives a pipeline exactly when the alignment is positive and the parameter buffer, library, kernel and pipeline state were all obtained. The pipeline has a fresh 12-byte parameter buffer on its device. |
| MetalPipelines.MetalPipeline.NewMatrixWithRowCount | Source/Pipeline/MetalPipeline.swift:56-66 | Gives nil exactly for non-positive counts or a failed allocation. Otherwise the Metal matrix uses the pipeline's own alignment and device. |
| MetalPipelines.MetalPipeline.MultiplyData | Source/Pipeline/MetalPipeline.swift:69-101 | Returns `MultiplyOutcome`. A failure leaves the parameter buffer unchanged. A pass leaves it holding the encoded six slots and dispatches nothing. |
| PerformanceTestCases.MakeDimensions | Source/Main/PerformanceTestCase.swift:32-46 | Gives none exactly when a count is not positive. Otherwise it keeps the three counts. |
| PerformanceTestCases.MakeDimensionsExamples | Test/PerformanceTestCase_tests.swift:12-28 | `(4, 6, 2)` gives dimensions and `(4, 6, 0)` gives none. |
| PerformanceTestCases.OperationCount | Source/Main/PerformanceTestCase.swift:25-30 | Exists exactly when `2·k·m·n` fits in Int64, and then equals it. |
| PerformanceTestCases.GeneratedDimensionsNeverOverflow | Source/Main/PerformanceTest.swift:119 | Dimensions up to the generator's 2048 never overflow the operation count. |
| PerformanceTestCases.Decimal | Source/Main/PerformanceTestCase.swift:48-53 | A count renders as a non-empty digit string without leading zeros. |
| PerformanceTestCases.DecimalRoundTrip | Source/Main/PerformanceTestCase.swift:48-53 | Reading the rendered digits back gives the count. |
| PerformanceTestCases.DecimalInjective | Source/Main/PerformanceTestCase.swift:48-53 | Distinct counts render differently. |
| PerformanceTestCases.Description | Source/Main/PerformanceTestCase.swift:48-53 | Definition: "[k x m]T[k x n] -> [m x n]" with each count rendered by `Decimal`. `DecimalRoundTrip` and `DecimalInjective` show the counts are rendered faithfully, and `DescriptionExample` pins the format. |
| PerformanceTestCases.DescriptionExample | Source/Main/PerformanceTestCase.swift:48-53 | Inner 2, rows 4 and columns 6 read "[2 x 4]T[2 x 6] -> [4 x 6]". |
| PerformanceTestCases.Targets | Source/Main/PerformanceTestCase.swift:79-95 | There are four resize targets, in `run`'s order. |
| PerformanceTestCases.PlannedShapesAreValid | Source/Main/PerformanceTestCase.swift:79-110 | Matrices with the planned shapes satisfy both dimension predicates. |
| PerformanceTestCases.ResizeMatrix | Source/Main/PerformanceTestCase.swift:80-95 | One `resizeToRowCount` on the chosen matrix succeeds when allocation is granted. On success it has the target shape. The other three, and the chosen one on failure, keep their layouts. |
| PerformanceTestCases.ResizeAll | Source/Main/PerformanceTestCase.swift:79-96 | Resizes in order and stops at the first failure, whose allocation was refused. The resized matrices have their targets. Those not reached keep their layouts, and nothing is rolled back. |
| PerformanceTestCases.MultiplyBoth | Source/Main/PerformanceTestCase.swift:101-115 | With the planned shapes, the CPU and Metal data both pass the dimension and repeat-count checks, and the four shapes are unchanged afterwards. The result is the Metal pipeline's outcome. |
| PerformanceTestCases.Run | Source/Main/PerformanceTestCase.swift:72-119 | A negative repeat count fails with `invalidRepeatCount` before any resize. A refused resize fails with `unsupportedMatrixSize`. If all four allocations are granted, all four resizes succeed. Matrices resized before a refusal keep their targets, those not reached keep their layouts, and nothing is rolled back. When all four resizes succeed, all four matrices have their target shapes, both data sets pass their checks, and the result is the Metal multiplication's outcome. |

## Left out

- The Float32 arithmetic of `cblas_sgemm` and of the GPU kernel `MultiplyMatrices` is foreign code. The model records the `sgemm` arguments and gives an integer reference `TransposeProduct` for `Aᵀ·B`. The floating-point result itself is not modelled.
- Metal plumbing is reduced to success flags passed to `MetalPipeline.Create`: the parameter-buffer allocation, `.metallib` loading, kernel lookup and pipeline-state creation. The command queue (Source/Pipeline/MetalPipeline.swift:31) is created unconditionally and never checked, so it is left out. Allocation success is a `granted` parameter for every new host or device buffer.
- Device `==` compares object addresses. A device is modelled as an opaque `DeviceId`, so identity is equality of ids.
- Dispatch and thread-group sizing are absent because the source has its dispatch loop commented out (Source/Pipeline/MetalPipeline.swift:98-100). `MetalPipeline.MultiplyData` therefore stops after encoding.
- `randomize`, `randomValue` and the `CACurrentMediaTime` timing of `run` are left out: concurrency, randomness and clocks. `PerformanceTestCases.Run` returns the outcome but not the two timings.
- Source/Main/PerformanceTest.swift is modelled only for its 2048 upper bound on generated dimensions. Its resource construction (lines 125-141) is captured by the assumptions `Resources.Valid` states: three device-backed matrices and one host-backed CPU output, pairwise disjoint. The rest is left out: queues, `arc4random`, logging and gflops in Double.
- The asynchronous `MultiplicationPipeline`/`MultiplicationTask` protocols carry no behaviour and are left out. So are `main.swift` and the test harness.
- The older snapshots (Source/CPUMatrix.swift, Source/Matrix.swift, Source/MetalMatrix.swift, Source/BufferedMatrix.swift, Source/PaddedMatrix.swift, Source/PerformanceTestCase.swift, Source/MultiplicationData.swift, Source/Multiplication/MetalPipeline.swift) are superseded by the current files and are left out.
- `baseAddress`, `memory` and `contents()` are raw pointers. Buffer storage is modelled as a byte sequence or array, and pointer aliasing is not modelled.
- The `invalidBuffer` failure of `MultiplyOutcome` for a missing Metal buffer (Source/Pipeline/MetalPipeline.swift:84-88) is modelled, but no valid matrix reaches it. The corrected resizes keep every valid device-backed matrix's buffer non-nil, since `byteCount` is positive and at most the buffer length. In the source it is reachable through the second finding, when a refused Metal growth leaves a matrix without a buffer.
- CPUBuffers.HostResize: growing an existing `NSMutableData` in place (`increaseLength(by:)`, Source/Model/CPUMatrix.swift:43 and 70) always succeeds in the model, regardless of `granted`. The allocation failure that `increaseLength` raises as an exception, trapping the program, is not modelled. The same holds for `CPUBuffer.Resize`, `BufferRef.Resize`, `GrowBuffer` and `ResizeToRowCount` on host-backed matrices, whose growth therefore never fails once the buffer holds data.
- `_countAlignment` in Source/Multiplication/CPUPipeline.swift:14 is never used and is left out.
- `MetalBuffers.MetalBuffer.Resize`: after a grow, bytes past the old length are not specified. `newBufferWithBytes` reads `newLength` bytes from the smaller old buffer, so their values are undefined.
- `MetalPipelines.Encode`: each UInt16 is stored low byte first. This assumes the little-endian byte order of the Apple GPUs and CPUs the source runs on.
- `CPUPipelines.SgemmArgumentsAreInBounds`: alpha and beta are recorded as the integers 1 and 0, not as Float32.
- Swift traps on Int overflow and on `Int32(_)` narrowing in `_multiply` are left out, since integers are unbounded here. The exceptions are `operationCount`, whose Int64 range is modelled, and the UInt16 conversions, whose trap is modelled as `None`.
- `PerformanceTestCases.Run`: requires the five resources to be distinct objects with disjoint buffers. `run` relies on this without checking it. An aliased resource set is not modelled.
- `PerformanceTestCases.Description` has no separate contract. Its format is pinned down by `DescriptionExample` and the `Decimal` lemmas.

## Findings

| source | as written | input that shows it | evidently intended | confidence | as-written member | corrected member |
|---|---|---|---|---|---|---|
| Source/Model/CPUMatrix.swift:44-48 | `resize(to:)` returns `true` even when `NSMutableData(length:)` yields nil on an empty buffer, so a matrix commits a shape with no storage | empty buffer, `newLength` 256, allocation refused: returns true, length stays 0 | allocation failure is reported as `false`, so construction and resize fail cleanly | high, not executed | CPUBuffers.HostResizeAsWrittenMisreports | CPUBuffers.HostResize |
| Source/Model/MetalMatrix.swift:45-59 | `resizeToLength` assigns the result of `newBufferWithLength`/`resizedToLength` to the optional `buffer` and returns `true`. A refused growth therefore drops the old buffer and reports success. A refused shrink instead traps when line 93 copies into the nil buffer (modelled as none) | 64-byte buffer grown to 128 with allocation refused: returns true, length becomes 0 | allocation failure returns `false` and keeps the old buffer | medium (a nil reaching the optional through the non-optional `newBuffer` at line 81 is assumed), not executed | MetalBuffers.DeviceResizeAsWrittenMisreports | MetalBuffers.DeviceResize |
| Source/Pipeline/MetalPipeline.swift:134-136 | `canEncodeDimensions` checks only `bytesPerRow` and `columnCount`, so slot 2 (`inputB.rowCount`) reaches `UInt16(_)` unchecked and traps | inputs 65536×1, output 1×1: all written checks pass, `UInt16(65536)` traps | every slot is range-checked and an oversize matrix fails with `unsupportedMatrixSize` | high, not executed | MetalPipelines.AsWrittenTrapsOnTallInput | MetalPipelines.EncodableIffSlotsFit |

For all three rows the rest of the model uses the corrected definition. The
CPU and Metal resizes go through `HostResize` and `DeviceResize`, and the
encoder checks `CanEncodeDimensions`, which adds `rowCount` to the written
check. `CPUMatrices.AsWrittenConstructionCommitsUnbackedShape` and
`MetalMatrices.AsWrittenGrowthCommitsUnbackedShape` carry the first two
findings up to matrix construction and growth.
