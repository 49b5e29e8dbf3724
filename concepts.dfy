/** The values every component of the access layer shares: the identifier
    hierarchy that scopes clients, histories and transactions, Java exceptions,
    actor references, and the opaque data-tree types that are only passed
    through. */
module Concepts {
  import opened Wrappers

  /** A Java `long`: the sequence numbers and batch counts are of this width. */
  type Long = x: int | -0x8000_0000_0000_0000 <= x < 0x8000_0000_0000_0000

  /** A Java `int`. */
  type Int = x: int | -0x8000_0000 <= x < 0x8000_0000

  /** A byte of a serialized form. */
  type Byte = bv8

  // ---- Identifier hierarchy: immutable, compared structurally ----
  // Generations and counters are unbounded naturals.

  datatype MemberName = MemberName(name: string)
  datatype FrontendType = FrontendType(name: string)
  datatype FrontendIdentifier = FrontendIdentifier(member: MemberName, clientType: FrontendType)

  /** One incarnation of a client: a frontend plus its generation. */
  datatype ClientIdentifier = ClientIdentifier(frontend: FrontendIdentifier, generation: nat)

  /** A local history of a client; history 0 is the client's standalone history. */
  datatype LocalHistoryIdentifier = LocalHistoryIdentifier(clientId: ClientIdentifier, historyId: nat)

  /** A transaction within a local history. */
  datatype TransactionIdentifier = TransactionIdentifier(historyId: LocalHistoryIdentifier, transactionId: nat)

  // ---- Java exceptions ----

  datatype ExceptionKind =
    | IllegalStateException
    | IllegalArgumentException
    | RuntimeException
    | IOException
    | VerifyException
    | ReadFailedException

  /** A thrown object: its class, its message and the exception it wraps. */
  datatype Exception = Exception(kind: ExceptionKind, message: string, cause: Option<Exception>)

  // ---- Opaque collaborators ----

  /** The address of an actor (a reference the runtime hands out). */
  datatype ActorRef = ActorRef(path: string)

  /** A path into the data tree (a `YangInstanceIdentifier`); `[]` is the root. */
  type Path = seq<string>

  /** A data-tree node (a `NormalizedNode`), known only by its identity. */
  datatype Node = Node(handle: nat)

  /** A negotiated wire-protocol version, known only by its ordinal. */
  datatype ABIVersion = ABIVersion(ordinal: nat)
}
