/** A transaction context that works on a local delegate transaction. Reads and
    modifications are forwarded to the delegate; the first exception a
    modification throws is captured instead of thrown, no modification is
    forwarded after it (this model's reading of the tests), and readiness hands the delegate together with the
    captured exception to the ready support. */
module LocalTransaction {
  import opened Wrappers
  import opened Concepts

  datatype Modification =
    | Write(path: Path, data: Node)
    | Merge(path: Path, data: Node)
    | Delete(path: Path)

  /** The two read commands, each tagged with the data-store version it was issued for. */
  datatype ReadCommand =
    | ReadData(path: Path, version: Int)
    | DataExists(path: Path, version: Int)

  /** A read operation invoked on the delegate. */
  datatype ReadCall = ReadNode(path: Path) | CheckExists(path: Path)

  /** What the caller's read future is completed with. A failure carries the
      delegate's exception as its cause. */
  datatype ReadOutcome =
    | ReadSucceeded(data: Option<Node>)
    | ExistsSucceeded(present: bool)
    | ReadFailed(cause: Exception)

  /** The delegate read-write transaction: its identity, and how each of its
      operations turns out (the exception a modification throws, if any; what a
      read or an existence check completes with). */
  datatype Delegate = Delegate(
    handle: nat,
    thrownBy: Modification -> Option<Exception>,
    readNode: Path -> Result<Option<Node>, Exception>,
    checkExists: Path -> Result<bool, Exception>)

  /** The arguments of `onTransactionReady`: the delegate and the captured exception (null when none). */
  datatype ReadyHandoff = ReadyHandoff(delegate: nat, operationError: Option<Exception>)

  // ---- The capture discipline, over the sequence of requested modifications ----

  /** The exception captured after the modifications `requested` were asked for in turn. */
  function Captured(requested: seq<Modification>, thrownBy: Modification -> Option<Exception>): Option<Exception> {
    if requested == [] then None
    else
      var before := Captured(requested[..|requested| - 1], thrownBy);
      if before.None? then thrownBy(requested[|requested| - 1]) else before
  }

  /** The modifications that reached the delegate when `requested` were asked for in turn. */
  function Forwarded(requested: seq<Modification>, thrownBy: Modification -> Option<Exception>): seq<Modification> {
    if requested == [] then []
    else
      var prior := requested[..|requested| - 1];
      if Captured(prior, thrownBy).None? then Forwarded(prior, thrownBy) + [requested[|requested| - 1]]
      else Forwarded(prior, thrownBy)
  }

  /** None of the first `n` requested modifications throws. */
  ghost predicate NoFailureBefore(requested: seq<Modification>, thrownBy: Modification -> Option<Exception>, n: nat)
    requires n <= |requested|
  {
    forall j :: 0 <= j < n ==> thrownBy(requested[j]).None?
  }

  /** Nothing is captured exactly when no requested modification throws; then
      every modification reaches the delegate. */
  lemma {:induction false} NothingCapturedIffNoFailure(requested: seq<Modification>, thrownBy: Modification -> Option<Exception>)
    ensures Captured(requested, thrownBy).None? <==> NoFailureBefore(requested, thrownBy, |requested|)
    ensures Captured(requested, thrownBy).None? ==> Forwarded(requested, thrownBy) == requested
  {
    if requested != [] {
      var prior := requested[..|requested| - 1];
      NothingCapturedIffNoFailure(prior, thrownBy);
      assert requested == prior + [requested[|requested| - 1]];
      assert forall j :: 0 <= j < |prior| ==> prior[j] == requested[j];
    }
  }

  /** The first modification that throws decides the captured exception, and it
      is the last one forwarded: everything after it stays away from the delegate. */
  lemma {:induction false} FirstFailureWins(requested: seq<Modification>, thrownBy: Modification -> Option<Exception>, i: nat)
    requires i < |requested| && thrownBy(requested[i]).Some?
    requires NoFailureBefore(requested, thrownBy, i)
    ensures Captured(requested, thrownBy) == thrownBy(requested[i])
    ensures Forwarded(requested, thrownBy) == requested[..i + 1]
  {
    var n := |requested| - 1;
    var prior := requested[..n];
    if i < n {
      assert NoFailureBefore(prior, thrownBy, i) by {
        forall j | 0 <= j < i ensures thrownBy(prior[j]).None? {
          assert prior[j] == requested[j];
        }
      }
      assert prior[i] == requested[i];
      FirstFailureWins(prior, thrownBy, i);
      assert prior[..i + 1] == requested[..i + 1];
    } else {
      assert NoFailureBefore(prior, thrownBy, n) by {
        forall j | 0 <= j < n ensures thrownBy(prior[j]).None? {
          assert prior[j] == requested[j];
        }
      }
      NothingCapturedIffNoFailure(prior, thrownBy);
      assert requested[..i + 1] == requested == prior + [requested[n]];
    }
  }

  /** Once an exception is captured, later modifications neither replace it nor
      reach the delegate. */
  lemma {:induction false} CapturedIsFinal(requested: seq<Modification>, later: seq<Modification>, thrownBy: Modification -> Option<Exception>)
    requires Captured(requested, thrownBy).Some?
    ensures Captured(requested + later, thrownBy) == Captured(requested, thrownBy)
    ensures Forwarded(requested + later, thrownBy) == Forwarded(requested, thrownBy)
  {
    if later != [] {
      var shorter := later[..|later| - 1];
      CapturedIsFinal(requested, shorter, thrownBy);
      assert (requested + later)[..|requested + later| - 1] == requested + shorter;
    } else {
      assert requested + later == requested;
    }
  }

  /** A modification that throws, followed by anything: the delegate sees that
      one modification once, and its exception is the one captured. */
  lemma FailureIsForwardedOnce(m: Modification, later: seq<Modification>, thrownBy: Modification -> Option<Exception>)
    requires thrownBy(m).Some?
    ensures Forwarded([m] + later, thrownBy) == [m]
    ensures Captured([m] + later, thrownBy) == thrownBy(m)
  {
    assert Captured([m], thrownBy) == thrownBy(m) by {
      assert [m][..0] == [];
    }
    assert Forwarded([m], thrownBy) == [m] by {
      assert [m][..0] == [];
    }
    CapturedIsFinal([m], later, thrownBy);
  }

  /** How a read command completes against the delegate: `ReadData` with the
      delegate's read, `DataExists` with its existence check. */
  function ReadOutcomeOf(delegate: Delegate, command: ReadCommand): (outcome: ReadOutcome)
    ensures command.ReadData? && delegate.readNode(command.path).Success? ==>
      outcome == ReadSucceeded(delegate.readNode(command.path).value)
    ensures command.DataExists? && delegate.checkExists(command.path).Success? ==>
      outcome == ExistsSucceeded(delegate.checkExists(command.path).value)
    ensures outcome.ReadFailed? <==>
      (if command.ReadData? then delegate.readNode(command.path).Failure? else delegate.checkExists(command.path).Failure?)
  {
    match command
    case ReadData(path, _) =>
      (match delegate.readNode(path)
       case Success(data) => ReadSucceeded(data)
       case Failure(e) => ReadFailed(e))
    case DataExists(path, _) =>
      (match delegate.checkExists(path)
       case Success(present) => ExistsSucceeded(present)
       case Failure(e) => ReadFailed(e))
  }

  /** The delegate operation a read command invokes. */
  function ReadCallOf(command: ReadCommand): ReadCall {
    match command
    case ReadData(path, _) => ReadNode(path)
    case DataExists(path, _) => CheckExists(path)
  }

  class LocalTransactionContext {
    const identifier: TransactionIdentifier
    const delegate: Delegate
    /** The first exception a modification threw; `None` is Java's `null`. */
    var operationError: Option<Exception>

    /** Every modification asked of this context, in order. */
    ghost var requested: seq<Modification>
    /** The modifications invoked on the delegate, in order. */
    ghost var modifyCalls: seq<Modification>
    /** The read operations invoked on the delegate, in order. */
    ghost var readCalls: seq<ReadCall>

    ghost predicate Valid()
      reads this
    {
      && operationError == Captured(requested, delegate.thrownBy)
      && modifyCalls == Forwarded(requested, delegate.thrownBy)
    }

    constructor (delegate: Delegate, identifier: TransactionIdentifier)
      ensures Valid()
      ensures this.delegate == delegate && this.identifier == identifier
      ensures operationError == None && requested == [] && modifyCalls == [] && readCalls == []
    {
      this.delegate := delegate;
      this.identifier := identifier;
      operationError := None;
      requested, modifyCalls, readCalls := [], [], [];
    }

    /** One modification: forwarded only while nothing is captured; an exception
        it throws is captured, never propagated. */
    twostate predicate ModificationApplied(m: Modification)
      reads this
    {
      && requested == old(requested) + [m]
      && modifyCalls == old(modifyCalls) + (if old(operationError).None? then [m] else [])
      && operationError == (if old(operationError).None? then delegate.thrownBy(m) else old(operationError))
      && readCalls == old(readCalls)
    }

    method ExecuteModification(m: Modification)
      requires Valid()
      modifies this`operationError, this`requested, this`modifyCalls
      ensures Valid() && ModificationApplied(m)
    {
      assert (requested + [m])[..|requested|] == requested;
      if operationError.None? {
        modifyCalls := modifyCalls + [m];
        operationError := delegate.thrownBy(m);
      }
      requested := requested + [m];
    }

    method ExecuteWrite(path: Path, data: Node)
      requires Valid()
      modifies this`operationError, this`requested, this`modifyCalls
      ensures Valid() && ModificationApplied(Write(path, data))
    {
      ExecuteModification(Write(path, data));
    }

    method ExecuteMerge(path: Path, data: Node)
      requires Valid()
      modifies this`operationError, this`requested, this`modifyCalls
      ensures Valid() && ModificationApplied(Merge(path, data))
    {
      ExecuteModification(Merge(path, data));
    }

    method ExecuteDelete(path: Path)
      requires Valid()
      modifies this`operationError, this`requested, this`modifyCalls
      ensures Valid() && ModificationApplied(Delete(path))
    {
      ExecuteModification(Delete(path));
    }

    /** Reads go to the delegate whether or not an exception was captured, and
        the caller's future completes with what the delegate answered. */
    method ExecuteRead(command: ReadCommand) returns (outcome: ReadOutcome)
      requires Valid()
      modifies this`readCalls
      ensures Valid()
      ensures readCalls == old(readCalls) + [ReadCallOf(command)]
      ensures requested == old(requested) && modifyCalls == old(modifyCalls) && operationError == old(operationError)
      ensures outcome == ReadOutcomeOf(delegate, command)
    {
      readCalls := readCalls + [ReadCallOf(command)];
      outcome := ReadOutcomeOf(delegate, command);
    }

    /** Hands the delegate and the captured exception (if any) to the ready support:
        the first exception any modification threw. */
    method ReadyTransaction() returns (handoff: ReadyHandoff)
      requires Valid()
      ensures handoff.delegate == delegate.handle
      ensures handoff.operationError == Captured(requested, delegate.thrownBy)
    {
      handoff := ReadyHandoff(delegate.handle, operationError);
    }
  }

  /** A modification that throws, asked for twice and then readied: the delegate
      is invoked once, and readiness passes on the exception it threw. */
  method RepeatedFailureScenario(delegate: Delegate, identifier: TransactionIdentifier, m: Modification)
    returns (handoff: ReadyHandoff, ghost calls: seq<Modification>)
    requires delegate.thrownBy(m).Some?
    ensures calls == [m]
    ensures handoff == ReadyHandoff(delegate.handle, delegate.thrownBy(m))
  {
    var context := new LocalTransactionContext(delegate, identifier);
    context.ExecuteModification(m);
    context.ExecuteModification(m);
    FailureIsForwardedOnce(m, [m], delegate.thrownBy);
    assert context.requested == [m] + [m];
    calls := context.modifyCalls;
    handoff := context.ReadyTransaction();
  }
}
