/** Two transaction replies of the access protocol and their serialization
    proxies: the proxy for `ModifyTransactionSuccess` (MTS), which the
    serialization runtime fills in after constructing it empty, and
    `TransactionPreCommitSuccess`, whose per-version clone is itself. */
module Commands {
  import opened Wrappers
  import opened Concepts

  /** Successful reply to a request that modified a transaction. */
  datatype ModifyTransactionSuccess = ModifyTransactionSuccess(target: TransactionIdentifier, sequence: Long)

  /** The stream a proxy is read from, known only by the bytes it still holds. */
  datatype ObjectInput = ObjectInput(remaining: seq<Byte>)

  /** The proxy that carries a `ModifyTransactionSuccess` across the wire. Built
      empty by the serialization runtime, it holds no message (Java `null`)
      until one is set. */
  class MTS {
    var message: Option<ModifyTransactionSuccess>

    /** The no-argument form the serialization runtime uses. */
    constructor ()
      ensures message == None
      ensures Message().Failure?
    {
      message := None;
    }

    /** A proxy for the given message. */
    constructor WithMessage(m: ModifyTransactionSuccess)
      ensures message == Some(m)
      ensures Message() == Success(m)
    {
      message := Some(m);
    }

    /** The message, or a `VerifyException` when none has been set. */
    function Message(): (r: Result<ModifyTransactionSuccess, Exception>)
      reads this
      ensures r.Success? <==> message.Some?
      ensures r.Success? ==> r.value == message.value
      ensures r.Failure? ==> r.error.kind == VerifyException
    {
      match message
      case None => Failure(Exception(VerifyException, "message is null", None))
      case Some(m) => Success(m)
    }

    /** Replaces the stored message. */
    method SetMessage(m: ModifyTransactionSuccess)
      modifies this`message
      ensures message == Some(m)
      ensures Message() == Success(m)
    {
      message := Some(m);
    }

    /** Rebuilds the message from what the envelope already decoded; nothing is
        read from `input`. */
    function ReadExternal(input: ObjectInput, target: TransactionIdentifier, sequence: Long): (r: ModifyTransactionSuccess)
      ensures r.target == target && r.sequence == sequence
    {
      ModifyTransactionSuccess(target, sequence)
    }

    /** What deserialization yields in place of the proxy: the message itself,
        so it fails exactly when `Message()` does. */
    function ReadResolve(): (r: Result<ModifyTransactionSuccess, Exception>)
      reads this
      ensures r == Message()
      ensures r.Success? <==> message.Some?
    {
      Message()
    }
  }

  /** `ReadExternal` depends on the target and sequence only, never on the stream. */
  lemma ReadExternalIgnoresInput(p: MTS, q: MTS, a: ObjectInput, b: ObjectInput, target: TransactionIdentifier, sequence: Long)
    ensures p.ReadExternal(a, target, sequence) == q.ReadExternal(b, target, sequence)
  {
  }

  /** How deserialization drives the proxy: construct it empty, read the message,
      set it, resolve. The result carries exactly the decoded target and sequence. */
  method Deserialize(input: ObjectInput, target: TransactionIdentifier, sequence: Long)
    returns (r: Result<ModifyTransactionSuccess, Exception>)
    ensures r.Success?
    ensures r.value.target == target && r.value.sequence == sequence
  {
    var proxy := new MTS();
    var m := proxy.ReadExternal(input, target, sequence);
    proxy.SetMessage(m);
    r := proxy.ReadResolve();
  }

  /** Successful reply to a pre-commit (prepare) request. */
  datatype TransactionPreCommitSuccess = TransactionPreCommitSuccess(target: TransactionIdentifier, sequence: Long) {

    /** The wire proxy; the same (version 1) proxy serves every ABI version. */
    function ExternalizableProxy(version: ABIVersion): TransactionPreCommitSuccessProxyV1 {
      TransactionPreCommitSuccessProxyV1(this)
    }

    /** The message as a given ABI version sees it: unchanged for every version. */
    function CloneAsVersion(version: ABIVersion): (r: TransactionPreCommitSuccess)
      ensures r == this
    {
      this
    }
  }

  /** The version 1 serialization proxy of a pre-commit reply. */
  datatype TransactionPreCommitSuccessProxyV1 = TransactionPreCommitSuccessProxyV1(message: TransactionPreCommitSuccess) {
    /** The reply rebuilt from the target and sequence the proxy carries. */
    function ReadResolve(): TransactionPreCommitSuccess {
      TransactionPreCommitSuccess(message.target, message.sequence)
    }
  }

  /** Cloning to any versions, any number of times, keeps the identifier and the
      sequence and gives back the original. */
  lemma CloneAsVersionIdempotent(m: TransactionPreCommitSuccess, v: ABIVersion, w: ABIVersion)
    ensures m.CloneAsVersion(v).CloneAsVersion(w) == m.CloneAsVersion(v) == m
    ensures m.CloneAsVersion(v).target == m.target && m.CloneAsVersion(v).sequence == m.sequence
  {
  }

  /** For every version the proxy is an equal V1 proxy wrapping this message,
      and resolving it gives the message back. */
  lemma ExternalizableProxyRoundTrip(m: TransactionPreCommitSuccess, v: ABIVersion, w: ABIVersion)
    ensures m.ExternalizableProxy(v).message == m
    ensures m.ExternalizableProxy(v) == m.ExternalizableProxy(w)
    ensures m.ExternalizableProxy(v).ReadResolve() == m
  {
  }
}
