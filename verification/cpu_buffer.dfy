/**
 * Host memory for CPU matrices: `NSMutableData` with the private
 * `resize(to:)` extension, and `CPUBuffer`, the `ResizableBuffer` that owns
 * an optional `NSMutableData`.
 *
 * Whether the system grants a fresh allocation is the parameter `granted`.
 */
module CPUBuffers {
  import opened Common

  /**
   * The bytes `NSMutableData.resize(to:)` leaves: the old bytes up to the new
   * length, then zeros (`increaseLength(by:)` zero-fills); nothing when the new
   * length is not positive.
   */
  function Resized(bytes: seq<Byte>, newLength: int): (r: seq<Byte>)
    ensures |r| == if newLength > 0 then newLength else 0
    ensures forall i :: 0 <= i < |r| && i < |bytes| ==> r[i] == bytes[i]
    ensures forall i :: |bytes| <= i < |r| ==> r[i] == 0
  {
    if newLength <= 0 then []
    else seq(newLength, i requires 0 <= i < newLength => if i < |bytes| then bytes[i] else 0)
  }

  /** `NSMutableData`: a growable run of host bytes. */
  class MutableData {
    var bytes: seq<Byte>

    /** `NSMutableData(length:)` when the allocation succeeds: zero-filled. */
    constructor (length: nat)
      ensures bytes == Resized([], length)
    {
      bytes := Zeros(length);
    }

    /** The private `resize(to:)` extension: extend with zeros or truncate, in place. */
    method ResizeTo(newLength: int)
      modifies this
      ensures bytes == Resized(old(bytes), newLength)
    {
      if newLength == |bytes| {
        return;
      }
      if !(newLength > 0) {
        bytes := [];
        return;
      }
      if newLength > |bytes| {
        bytes := bytes + Zeros(newLength - |bytes|);
      } else {
        bytes := bytes[..newLength];
      }
    }
  }

  /**
   * What `CPUBuffer.resize(to:)` does to the buffer's bytes and what it
   * reports, when a failed `NSMutableData(length:)` is reported as a failure.
   * An empty sequence stands for a buffer without storage.
   */
  function HostResize(contents: seq<Byte>, newLength: int, granted: bool): (r: (bool, seq<Byte>))
    ensures r.0 <==> newLength >= 0 && (newLength == |contents| || newLength == 0 || |contents| > 0 || granted)
    ensures r.0 <==> |r.1| == newLength
    ensures !r.0 ==> r.1 == contents
    ensures newLength == |contents| ==> r == (true, contents)
    ensures forall i :: 0 <= i < |r.1| && i < |contents| ==> r.1[i] == contents[i]
    ensures forall i :: |contents| <= i < |r.1| ==> r.1[i] == 0
  {
    if newLength < 0 then (false, contents)
    else if newLength == |contents| then (true, contents)
    else if newLength == 0 then (true, [])
    else if |contents| > 0 then (true, Resized(contents, newLength))
    else if granted then (true, Resized([], newLength))
    else (false, contents)
  }

  /**
   * `CPUBuffer.resize(to:)` as the source writes it: a nil
   * `NSMutableData(length:)` leaves the buffer empty and still reports success.
   */
  function HostResizeAsWritten(contents: seq<Byte>, newLength: int, granted: bool): (r: (bool, seq<Byte>))
    ensures r.0 <==> newLength >= 0
    ensures granted || |contents| > 0 ==> r == HostResize(contents, newLength, granted)
  {
    if newLength < 0 then (false, contents)
    else if newLength == |contents| then (true, contents)
    else if newLength == 0 then (true, [])
    else if |contents| > 0 then (true, Resized(contents, newLength))
    else if granted then (true, Resized([], newLength))
    else (true, contents)
  }

  /** As written, an empty buffer whose allocation fails reports a resize it did not do. */
  lemma HostResizeAsWrittenMisreports()
    ensures HostResizeAsWritten([], 16, false).0
    ensures |HostResizeAsWritten([], 16, false).1| == 0
  {
  }

  /** `CPUBuffer`: host storage that is absent when the length is zero. */
  class CPUBuffer {
    var data: MutableData?
    ghost var Repr: set<object>

    ghost predicate Valid()
      reads this, Repr
    {
      this in Repr &&
      (data != null ==> data in Repr && |data.bytes| > 0) &&
      Repr == {this} + (if data == null then {} else {data})
    }

    /** `memory`: the storage, nil when there is none. */
    function Memory(): MutableData?
      reads this
    {
      data
    }

    /** `length`: zero exactly when `memory` is nil. */
    function Length(): (n: nat)
      reads this, Repr
      requires Valid()
      ensures n == 0 <==> Memory() == null
    {
      if data == null then 0 else |data.bytes|
    }

    ghost function Contents(): (s: seq<Byte>)
      reads this, Repr
      requires Valid()
      ensures |s| == Length()
    {
      if data == null then [] else data.bytes
    }

    /** `CPUBuffer()`: no storage yet. */
    constructor ()
      ensures Valid() && fresh(Repr)
      ensures Memory() == null && Contents() == []
    {
      data := null;
      Repr := {this};
    }

    /** `resize(to:)`, reporting a failed allocation instead of hiding it. */
    method Resize(newLength: int, granted: bool) returns (ok: bool)
      requires Valid()
      modifies Repr
      ensures Valid() && fresh(Repr - old(Repr))
      ensures (ok, Contents()) == HostResize(old(Contents()), newLength, granted)
      ensures newLength == old(Length()) ==> data == old(data)
    {
      if newLength < 0 {
        return false;
      }
      if newLength == Length() {
        return true;
      }
      if newLength == 0 {
        data := null;
        Repr := {this};
      } else if data != null {
        data.ResizeTo(newLength);
      } else if granted {
        data := new MutableData(newLength);
        Repr := {this, data};
      } else {
        return false;
      }
      return true;
    }
  }
}
