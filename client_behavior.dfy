/** The per-client behaviour of the distributed data store's client actor: it
    names everything it creates under its own client identifier, keeps one
    connection per shard, answers administrative commands, and, once closed,
    refuses to create anything. */
module ClientBehavior {
  import opened Wrappers
  import opened Concepts

  datatype ClientLocalHistory = ClientLocalHistory(identifier: LocalHistoryIdentifier)
  datatype ClientTransaction = ClientTransaction(identifier: TransactionIdentifier)
  datatype ClientSnapshot = ClientSnapshot(identifier: TransactionIdentifier)

  /** The handshake that opens a connection to the backend of a shard. */
  datatype ConnectClientRequest = ConnectClientRequest(target: ClientIdentifier, sequence: Long, replyTo: ActorRef)

  /** A connection to the backend of one shard, identified by the shard's cookie. */
  class ClientConnection {
    const cookie: nat
    /** The client actor the connection belongs to. */
    const localActor: ActorRef
    /** The first request issued on this connection. */
    const connectRequest: ConnectClientRequest

    constructor (cookie: nat, localActor: ActorRef, connectRequest: ConnectClientRequest)
      ensures this.cookie == cookie && this.localActor == localActor && this.connectRequest == connectRequest
    {
      this.cookie := cookie;
      this.localActor := localActor;
      this.connectRequest := connectRequest;
    }
  }

  /** Commands delivered to the behaviour. */
  datatype Command =
    | GetClientRequest(replyTo: ActorRef)
    | Unhandled(description: string)

  /** A command the behaviour schedules to run later on its own actor. */
  datatype InternalCommand = Shutdown

  /** A message the behaviour sends to another actor. */
  datatype Outgoing =
    | StatusSuccess(to: ActorRef, status: DataStoreClientBehavior)
    | Connect(shard: nat, request: ConnectClientRequest)

  /** The identifier of the client's standalone history, under which its
      transactions and snapshots are created. */
  function SingleHistoryId(clientId: ClientIdentifier): (h: LocalHistoryIdentifier)
    ensures h.clientId == clientId && h.historyId == 0
  {
    LocalHistoryIdentifier(clientId, 0)
  }

  class DataStoreClientBehavior {
    const clientId: ClientIdentifier
    /** The client actor this behaviour runs on. */
    const self: ActorRef
    /** Maps a path to the cookie of the shard holding it. */
    const resolver: Path -> nat

    /** The reason the client stopped; `None` while it is open. */
    var aborted: Option<Exception>
    var nextHistoryId: nat
    var nextTransactionId: nat
    /** The local histories currently open. */
    var histories: set<LocalHistoryIdentifier>
    var connections: map<nat, ClientConnection>
    /** Internal commands scheduled on the client actor, oldest first. */
    var mailbox: seq<InternalCommand>
    /** Messages sent to other actors, oldest first. */
    var outbox: seq<Outgoing>

    ghost var issuedHistories: set<LocalHistoryIdentifier>
    ghost var issuedTransactions: set<TransactionIdentifier>

    ghost predicate Valid()
      reads this
    {
      && resolver([]) == 0
      && nextHistoryId >= 1
      && (forall h :: h in issuedHistories ==> h.clientId == clientId && 1 <= h.historyId < nextHistoryId)
      && histories <= issuedHistories
      && (forall t :: t in issuedTransactions ==>
            t.historyId == SingleHistoryId(clientId) && t.transactionId < nextTransactionId)
      && (aborted.Some? ==> histories == {})
      && (forall shard :: shard in connections ==>
            && connections[shard].cookie == shard
            && connections[shard].localActor == self
            && connections[shard].connectRequest == ConnectClientRequest(clientId, 0, self))
    }

    /** An open client with nothing created yet; the root path lies in the
        default shard, whose cookie is 0. */
    constructor (clientId: ClientIdentifier, self: ActorRef, resolver: Path -> nat)
      requires resolver([]) == 0
      ensures Valid()
      ensures GetIdentifier() == clientId && this.self == self && this.resolver == resolver
      ensures aborted == None && histories == {} && connections == map[] && mailbox == [] && outbox == []
      ensures issuedHistories == {} && issuedTransactions == {}
    {
      this.clientId := clientId;
      this.self := self;
      this.resolver := resolver;
      aborted := None;
      nextHistoryId, nextTransactionId := 1, 0;
      histories, connections, mailbox, outbox := {}, map[], [], [];
      issuedHistories, issuedTransactions := {}, {};
    }

    function GetIdentifier(): ClientIdentifier {
      clientId
    }

    /** The cookie of the shard holding `path`; the root is in shard 0. */
    function ResolveShardForPath(path: Path): (shard: nat)
      requires Valid()
      reads this
      ensures path == [] ==> shard == 0
    {
      resolver(path)
    }

    /** Answers a `GetClientRequest` with a success whose status is this
        behaviour; ignores anything else. The next behaviour is always this one. */
    method OnCommand(command: Command) returns (next: DataStoreClientBehavior)
      requires Valid()
      modifies this`outbox
      ensures Valid()
      ensures next == this
      ensures outbox == old(outbox) +
        (match command
         case GetClientRequest(replyTo) => [StatusSuccess(replyTo, this)]
         case Unhandled(_) => [])
    {
      if command.GetClientRequest? {
        outbox := outbox + [StatusSuccess(command.replyTo, this)];
      }
      next := this;
    }

    /** A new local history scoped under this client, with an identifier never
        issued before; once the client has stopped, the reason it stopped instead. */
    method CreateLocalHistory() returns (r: Result<ClientLocalHistory, Exception>)
      requires Valid()
      modifies this`nextHistoryId, this`histories, this`issuedHistories
      ensures Valid()
      ensures old(aborted).Some? ==>
        r == Failure(old(aborted).value) &&
        nextHistoryId == old(nextHistoryId) && histories == old(histories) && issuedHistories == old(issuedHistories)
      ensures old(aborted).None? ==>
        && r.Success?
        && r.value.identifier == LocalHistoryIdentifier(clientId, old(nextHistoryId))
        && r.value.identifier.clientId == GetIdentifier()
        && r.value.identifier !in old(issuedHistories)
        && histories == old(histories) + {r.value.identifier}
        && issuedHistories == old(issuedHistories) + {r.value.identifier}
        && nextHistoryId == old(nextHistoryId) + 1
    {
      if aborted.Some? {
        return Failure(aborted.value);
      }
      var id := LocalHistoryIdentifier(clientId, nextHistoryId);
      nextHistoryId := nextHistoryId + 1;
      histories := histories + {id};
      issuedHistories := issuedHistories + {id};
      r := Success(ClientLocalHistory(id));
    }

    /** The next transaction identifier of the standalone history. */
    method AllocateTransactionId() returns (r: Result<TransactionIdentifier, Exception>)
      requires Valid()
      modifies this`nextTransactionId, this`issuedTransactions
      ensures Valid()
      ensures old(aborted).Some? ==>
        r == Failure(old(aborted).value) &&
        nextTransactionId == old(nextTransactionId) && issuedTransactions == old(issuedTransactions)
      ensures old(aborted).None? ==>
        && r.Success?
        && r.value == TransactionIdentifier(SingleHistoryId(clientId), old(nextTransactionId))
        && r.value !in old(issuedTransactions)
        && issuedTransactions == old(issuedTransactions) + {r.value}
        && nextTransactionId == old(nextTransactionId) + 1
    {
      if aborted.Some? {
        return Failure(aborted.value);
      }
      var id := TransactionIdentifier(SingleHistoryId(clientId), nextTransactionId);
      nextTransactionId := nextTransactionId + 1;
      issuedTransactions := issuedTransactions + {id};
      r := Success(id);
    }

    /** A new transaction in the standalone history, whose client is this one. */
    method CreateTransaction() returns (r: Result<ClientTransaction, Exception>)
      requires Valid()
      modifies this`nextTransactionId, this`issuedTransactions
      ensures Valid()
      ensures old(aborted).Some? ==>
        r == Failure(old(aborted).value) &&
        nextTransactionId == old(nextTransactionId) && issuedTransactions == old(issuedTransactions)
      ensures old(aborted).None? ==>
        && r.Success?
        && r.value.identifier.historyId.clientId == GetIdentifier()
        && r.value.identifier == TransactionIdentifier(SingleHistoryId(clientId), old(nextTransactionId))
        && r.value.identifier !in old(issuedTransactions)
        && issuedTransactions == old(issuedTransactions) + {r.value.identifier}
        && nextTransactionId == old(nextTransactionId) + 1
    {
      var id := AllocateTransactionId();
      if id.Failure? {
        return Failure(id.error);
      }
      r := Success(ClientTransaction(id.value));
    }

    /** A new read-only snapshot in the standalone history, whose client is this one. */
    method CreateSnapshot() returns (r: Result<ClientSnapshot, Exception>)
      requires Valid()
      modifies this`nextTransactionId, this`issuedTransactions
      ensures Valid()
      ensures old(aborted).Some? ==>
        r == Failure(old(aborted).value) &&
        nextTransactionId == old(nextTransactionId) && issuedTransactions == old(issuedTransactions)
      ensures old(aborted).None? ==>
        && r.Success?
        && r.value.identifier.historyId.clientId == GetIdentifier()
        && r.value.identifier == TransactionIdentifier(SingleHistoryId(clientId), old(nextTransactionId))
        && r.value.identifier !in old(issuedTransactions)
        && issuedTransactions == old(issuedTransactions) + {r.value.identifier}
        && nextTransactionId == old(nextTransactionId) + 1
    {
      var id := AllocateTransactionId();
      if id.Failure? {
        return Failure(id.error);
      }
      r := Success(ClientSnapshot(id.value));
    }

    /** The connection for a shard: the cached one if there is one; otherwise a
        new one, cached, whose handshake targets this client with sequence 0. */
    method GetConnection(shard: nat) returns (connection: ClientConnection)
      requires Valid()
      modifies this`connections, this`outbox
      ensures Valid()
      ensures shard in connections && connection == connections[shard]
      ensures connection.cookie == shard && connection.localActor == self
      ensures connection.connectRequest.target == GetIdentifier() && connection.connectRequest.sequence == 0
      ensures shard in old(connections) ==>
        connection == old(connections[shard]) && connections == old(connections) && outbox == old(outbox)
      ensures shard !in old(connections) ==>
        && fresh(connection)
        && connections == old(connections)[shard := connection]
        && outbox == old(outbox) + [Connect(shard, connection.connectRequest)]
    {
      if shard in connections {
        return connections[shard];
      }
      var request := ConnectClientRequest(clientId, 0, self);
      connection := new ClientConnection(shard, self, request);
      connections := connections[shard := connection];
      outbox := outbox + [Connect(shard, request)];
    }

    /** Schedules the shutdown on the client actor; nothing stops yet. */
    method Close()
      requires Valid()
      modifies this`mailbox
      ensures Valid()
      ensures mailbox == old(mailbox) + [Shutdown]
    {
      mailbox := mailbox + [Shutdown];
    }

    /** Stops the client for good with the given reason and drops its open histories. */
    method AbortOperations(cause: Exception)
      requires Valid()
      modifies this`aborted, this`histories
      ensures Valid()
      ensures aborted == Some(cause) && histories == {}
    {
      aborted := Some(cause);
      histories := {};
    }

    /** Halting the client stops it with the given cause. */
    method HaltClient(cause: Exception)
      requires Valid()
      modifies this`aborted, this`histories
      ensures Valid()
      ensures aborted == Some(cause) && histories == {}
    {
      AbortOperations(cause);
    }

    /** Runs the oldest scheduled internal command, if any. Running the shutdown
        stops the client with an `IllegalStateException`. */
    method RunInternalCommand()
      requires Valid()
      modifies this`mailbox, this`aborted, this`histories
      ensures Valid()
      ensures old(mailbox) == [] ==> mailbox == [] && aborted == old(aborted) && histories == old(histories)
      ensures old(mailbox) != [] ==>
        && mailbox == old(mailbox)[1..]
        && aborted == Some(Exception(IllegalStateException, "has been shut down", None))
        && histories == {}
    {
      if mailbox == [] {
        return;
      }
      var command := mailbox[0];
      mailbox := mailbox[1..];
      match command
      case Shutdown =>
        AbortOperations(Exception(IllegalStateException, "has been shut down", None));
    }
  }

  /** Closing and then running the scheduled command makes creation fail with an
      `IllegalStateException`, and it keeps failing. */
  method CloseScenario(clientId: ClientIdentifier, self: ActorRef, resolver: Path -> nat)
    returns (first: Result<ClientLocalHistory, Exception>, second: Result<ClientTransaction, Exception>)
    requires resolver([]) == 0
    ensures first.Failure? && first.error.kind == IllegalStateException
    ensures second.Failure? && second.error.kind == IllegalStateException
  {
    var behavior := new DataStoreClientBehavior(clientId, self, resolver);
    behavior.Close();
    behavior.RunInternalCommand();
    first := behavior.CreateLocalHistory();
    second := behavior.CreateTransaction();
  }

  /** Asking twice for the same shard's connection yields one object, whose
      handshake, sent once, targets the client with sequence 0. */
  method ConnectionScenario(clientId: ClientIdentifier, self: ActorRef, resolver: Path -> nat)
    returns (same: bool, sent: seq<Outgoing>)
    requires resolver([]) == 0
    ensures same
    ensures sent == [Connect(0, ConnectClientRequest(clientId, 0, self))]
  {
    var behavior := new DataStoreClientBehavior(clientId, self, resolver);
    var shard := behavior.ResolveShardForPath([]);
    var a := behavior.GetConnection(shard);
    var b := behavior.GetConnection(shard);
    same := a == b;
    sent := behavior.outbox;
  }
}
