/** The journal record written when a local history is closed cleanly: the
    history's identifier together with the bytes it serializes to, produced
    once when the record is created. */
module Persisted {
  import opened Wrappers
  import opened Concepts

  /** What `LocalHistoryIdentifier.writeTo` emits into a fresh output for an
      identifier: its bytes, or the exception it throws. The encoding itself is
      not part of this model. */
  type Encoder = LocalHistoryIdentifier -> Result<seq<Byte>, Exception>

  /** An in-memory output that grows as it is written (`ByteArrayDataOutput`).
      Its initial capacity only sizes the first buffer. */
  class ByteArrayDataOutput {
    const initialCapacity: nat
    var written: seq<Byte>

    constructor (capacity: nat)
      ensures initialCapacity == capacity && written == []
    {
      initialCapacity := capacity;
      written := [];
    }

    method Write(bytes: seq<Byte>)
      modifies this`written
      ensures written == old(written) + bytes
    {
      written := written + bytes;
    }

    /** A copy of everything written so far. */
    function ToByteArray(): seq<Byte>
      reads this
    {
      written
    }
  }

  /** `ByteStreams.newDataOutput(size)`: refuses a negative size. */
  method NewDataOutput(size: Int) returns (r: Result<ByteArrayDataOutput, Exception>)
    ensures r.Failure? <==> size < 0
    ensures r.Failure? ==> r.error.kind == IllegalArgumentException
    ensures r.Success? ==> fresh(r.value) && r.value.written == [] && r.value.initialCapacity == size
  {
    if size < 0 {
      r := Failure(Exception(IllegalArgumentException, "Invalid size", None));
    } else {
      var out := new ByteArrayDataOutput(size);
      r := Success(out);
    }
  }

  /** The proxy a payload is externalized through: the serialized bytes alone. */
  datatype DH = DH(serialized: seq<Byte>)

  datatype CloseLocalHistoryPayload = CloseLocalHistoryPayload(identifier: LocalHistoryIdentifier, serialized: seq<Byte>) {
    /** The proxy for the given bytes, wrapping exactly those bytes. */
    function ExternalizableProxy(bytes: seq<Byte>): DH {
      DH(bytes)
    }
  }

  /** The cached bytes are what encoding the identifier afresh produces. */
  ghost predicate Faithful(payload: CloseLocalHistoryPayload, writeTo: Encoder) {
    writeTo(payload.identifier) == Success(payload.serialized)
  }

  /** Serializes the identifier into a fresh output and keeps the bytes. An
      `IOException` from the encoder becomes an `IllegalStateException` carrying
      it; no payload is produced then. */
  method Create(historyId: LocalHistoryIdentifier, initialSerializedBufferCapacity: Int, writeTo: Encoder)
    returns (r: Result<CloseLocalHistoryPayload, Exception>)
    ensures initialSerializedBufferCapacity < 0 ==> r.Failure? && r.error.kind == IllegalArgumentException
    ensures initialSerializedBufferCapacity >= 0 && writeTo(historyId).Success? ==>
      r == Success(CloseLocalHistoryPayload(historyId, writeTo(historyId).value))
    ensures initialSerializedBufferCapacity >= 0 && writeTo(historyId).Failure? ==>
      r.Failure? &&
      (if writeTo(historyId).error.kind == IOException
       then r.error == Exception(IllegalStateException, "Failed to serialize", Some(writeTo(historyId).error))
       else r.error == writeTo(historyId).error)
    ensures r.Success? ==> r.value.identifier == historyId && Faithful(r.value, writeTo)
  {
    var created := NewDataOutput(initialSerializedBufferCapacity);
    if created.Failure? {
      return Failure(created.error);
    }
    var out := created.value;
    var encoded := writeTo(historyId);
    if encoded.Failure? {
      if encoded.error.kind == IOException {
        return Failure(Exception(IllegalStateException, "Failed to serialize", Some(encoded.error)));
      }
      return Failure(encoded.error);
    }
    out.Write(encoded.value);
    assert out.written == encoded.value;
    r := Success(CloseLocalHistoryPayload(historyId, out.ToByteArray()));
  }

  /** Wrapping bytes in the proxy and reading them back gives the same bytes. */
  lemma ExternalizableProxyWraps(payload: CloseLocalHistoryPayload, bytes: seq<Byte>)
    ensures payload.ExternalizableProxy(bytes).serialized == bytes
  {
  }
}
