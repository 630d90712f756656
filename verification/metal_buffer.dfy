/**
 * Device memory for Metal matrices: `MTLBuffer` (a fixed-length allocation
 * owned by one device) with the private `resizedToLength` extension, and
 * `MetalBuffer`, the `ResizableBuffer` that holds an optional `MTLBuffer`.
 *
 * A device is an opaque identity; whether it grants an allocation is the
 * parameter `granted`.
 */
module MetalBuffers {
  import opened Common

  /** The identity of an `MTLDevice`; two devices are equal when they are the same object. */
  type DeviceId = nat

  /** `MTLBuffer`. */
  class DeviceBuffer {
    const device: DeviceId
    const contents: array<Byte>

    /** `newBufferWithLength(_:options:)`: the initial bytes are unspecified. */
    constructor WithLength(device: DeviceId, length: nat)
      ensures this.device == device
      ensures fresh(contents) && contents.Length == length
    {
      this.device := device;
      contents := new Byte[length];
    }

    /**
     * `newBufferWithBytes(_:length:options:)`: copies `length` bytes from
     * `source`; bytes read past the end of `source` are unspecified.
     */
    constructor WithBytes(device: DeviceId, source: seq<Byte>, length: nat)
      ensures this.device == device
      ensures fresh(contents) && contents.Length == length
      ensures forall i :: 0 <= i < length && i < |source| ==> contents[i] == source[i]
    {
      this.device := device;
      var bytes := new Byte[length];
      var i := 0;
      while i < length && i < |source|
        invariant 0 <= i <= length && i <= |source|
        invariant forall j :: 0 <= j < i ==> bytes[j] == source[j]
      {
        bytes[i] := source[i];
        i := i + 1;
      }
      contents := bytes;
    }

    /**
     * The private `resizedToLength` extension: this buffer when the length
     * already matches; nil for a non-positive length or a refused allocation;
     * otherwise a new buffer on the same device holding the old bytes up to
     * the smaller of the two lengths.
     */
    method ResizedToLength(newLength: int, granted: bool) returns (r: DeviceBuffer?)
      ensures newLength == contents.Length ==> r == this
      ensures newLength != contents.Length && (newLength <= 0 || !granted) ==> r == null
      ensures newLength != contents.Length && newLength > 0 && granted ==>
        r != null && fresh(r) && fresh(r.contents) && r.device == device &&
        r.contents.Length == newLength &&
        forall i :: 0 <= i < newLength && i < contents.Length ==> r.contents[i] == contents[i]
    {
      if newLength == contents.Length {
        return this;
      }
      if !(newLength > 0) || !granted {
        return null;
      }
      if newLength > contents.Length {
        r := new DeviceBuffer.WithBytes(device, contents[..], newLength);
      } else {
        r := new DeviceBuffer.WithLength(device, newLength);
        CopyPrefix(r.contents, contents, newLength);
      }
    }
  }

  /** `assignFrom(_:count:)`: copy the first `count` bytes of `source` into `target`. */
  method CopyPrefix(target: array<Byte>, source: array<Byte>, count: nat)
    requires count <= target.Length && count <= source.Length
    requires target != source
    modifies target
    ensures forall i :: 0 <= i < count ==> target[i] == source[i]
    ensures forall i :: count <= i < target.Length ==> target[i] == old(target[i])
  {
    var i := 0;
    while i < count
      invariant 0 <= i <= count
      invariant forall j :: 0 <= j < i ==> target[j] == source[j]
      invariant forall j :: count <= j < target.Length ==> target[j] == old(target[j])
    {
      target[i] := source[i];
      i := i + 1;
    }
  }

  /**
   * What `MetalBuffer.resizeToLength` reports and the length it leaves, when a
   * refused allocation is reported as a failure and keeps the old buffer.
   */
  function DeviceResize(length: nat, newLength: int, granted: bool): (r: (bool, nat))
    ensures r.0 <==> newLength >= 0 && (newLength == length || newLength == 0 || granted)
    ensures r.0 <==> r.1 == newLength
    ensures !r.0 ==> r.1 == length
  {
    if newLength < 0 then (false, length)
    else if newLength == length then (true, length)
    else if newLength == 0 then (true, 0)
    else if granted then (true, newLength)
    else (false, length)
  }

  /**
   * `MetalBuffer.resizeToLength` as the source writes it: a nil allocation
   * replaces the old buffer and is still reported as success. Shrinking an
   * existing buffer copies into the new allocation, so a refused shrink
   * writes through nil and traps (`None`).
   */
  function DeviceResizeAsWritten(length: nat, newLength: int, granted: bool): (r: Option<(bool, nat)>)
    ensures r.None? <==> 0 < newLength < length && !granted
    ensures r.Some? ==> (r.value.0 <==> newLength >= 0)
    ensures granted ==> r == Some(DeviceResize(length, newLength, granted))
  {
    if newLength < 0 then Some((false, length))
    else if newLength == length then Some((true, length))
    else if newLength == 0 then Some((true, 0))
    else if granted then Some((true, newLength))
    else if newLength < length then None
    else Some((true, 0))
  }

  /**
   * As written, a refused growth reports success and loses the old storage,
   * and a refused shrink traps.
   */
  lemma DeviceResizeAsWrittenMisreports()
    ensures DeviceResizeAsWritten(64, 128, false) == Some((true, 0))
    ensures DeviceResize(64, 128, false) == (false, 64)
    ensures DeviceResizeAsWritten(128, 64, false).None?
  {
  }

  /** `MetalBuffer`: device storage on one fixed device, absent when the length is zero. */
  class MetalBuffer {
    const device: DeviceId
    var buffer: DeviceBuffer?
    ghost var Repr: set<object>

    ghost predicate Valid()
      reads this, Repr
    {
      this in Repr &&
      (buffer != null ==>
        buffer in Repr && buffer.contents in Repr &&
        buffer.device == device && buffer.contents.Length > 0) &&
      Repr == {this} + (if buffer == null then {} else {buffer, buffer.contents})
    }

    /** `memory` (and `MetalMatrix.metalBuffer`): the current allocation, nil when there is none. */
    function Memory(): DeviceBuffer?
      reads this
    {
      buffer
    }

    /** `length`: zero exactly when there is no allocation. */
    function Length(): (n: nat)
      reads this, Repr
      requires Valid()
      ensures n == 0 <==> Memory() == null
    {
      if buffer == null then 0 else buffer.contents.Length
    }

    ghost function Contents(): (s: seq<Byte>)
      reads this, Repr
      requires Valid()
      ensures |s| == Length()
    {
      if buffer == null then [] else buffer.contents[..]
    }

    /** `MetalBuffer(device:)`: bound to `device`, no allocation yet. */
    constructor (device: DeviceId)
      ensures Valid() && fresh(Repr)
      ensures this.device == device && Memory() == null
    {
      this.device := device;
      buffer := null;
      Repr := {this};
    }

    /** `resizeToLength`, reporting a refused allocation and keeping the old buffer then. */
    method Resize(newLength: int, granted: bool) returns (ok: bool)
      requires Valid()
      modifies Repr
      ensures Valid() && fresh(Repr - old(Repr))
      ensures (ok, Length()) == DeviceResize(old(Length()), newLength, granted)
      ensures !ok || newLength == old(Length()) ==> buffer == old(buffer) && Contents() == old(Contents())
      ensures forall i :: 0 <= i < Length() && i < old(Length()) ==> Contents()[i] == old(Contents())[i]
    {
      if newLength < 0 {
        return false;
      }
      if newLength == Length() {
        return true;
      }
      if newLength == 0 {
        buffer := null;
        Repr := {this};
      } else if buffer != null {
        var resized := buffer.ResizedToLength(newLength, granted);
        if resized == null {
          return false;
        }
        buffer := resized;
        Repr := {this, buffer, buffer.contents};
      } else {
        if !granted {
          return false;
        }
        buffer := new DeviceBuffer.WithLength(device, newLength);
        Repr := {this, buffer, buffer.contents};
      }
      return true;
    }
  }
}
