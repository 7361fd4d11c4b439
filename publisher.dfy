/** The publisher: Publish checks the connection state and keeps the
    publishing wait-group balanced; the transaction helpers branch on the
    outcomes of the broker calls they make. */
module Publishing {
  import opened Base
  import opened Frame
  import opened Configuration
  import opened Connections

  /** A *stomp.Transaction obtained from BeginWithError. */
  datatype Transaction = Transaction(id: nat)

  /** The completing calls on a transaction: AbortWithReceipt and
      CommitWithReceipt. */
  datatype TxCall = Abort | Commit

  /** A call of conn.Send(destination, contentType, body); no header is
      passed to it. */
  datatype Send = Send(destination: string, contentType: string, body: seq<byte>)

  class Publisher {
    const conn: ConnectionWrapper
    const config: Config
    var tx: Option<Transaction>

    /** NewPublisher: validation always passes and newConnection never
        fails, so a publisher is always built, over a fresh wrapper. */
    constructor (config: Config, logger: Option<Logger>)
      ensures fresh(conn) && conn.Valid()
      ensures this.config == config && conn.config == config
      ensures conn.stompConnection == None && !conn.connected && !conn.closed
      ensures conn.publishingWg == 0 && conn.subscribingWg == 0 && conn.steps == []
      ensures tx == None
    {
      this.config := config;
      conn := new ConnectionWrapper(config, logger);
      tx := None;
    }

    /** Publish on a closed wrapper fails before touching the counter. Every
        other call adds one to the publishing counter and removes it again on
        return, so the counter ends where it began; it fails when not
        connected and otherwise returns nil without calling the connection. */
    method Publish(topic: string, messages: seq<Message>) returns (err: Option<Error>)
      requires conn.Valid()
      modifies conn
      ensures conn.Valid()
      ensures old(conn.closed) ==> err == Some(New("pub/sub is connection closed")) && unchanged(conn)
      ensures !old(conn.closed) ==>
        && err == (if old(conn.connected) then None else Some(New("not connected to STOMP")))
        && conn.steps == old(conn.steps) + [PublishingAdd, PublishingDone]
        && conn.publishingWg == old(conn.publishingWg)
        && unchanged(conn`stompConnection, conn`connected, conn`closing, conn`closed, conn`subscribingWg)
    {
      if conn.closed {
        return Some(New("pub/sub is connection closed"));
      }
      conn.publishingWg := conn.publishingWg + 1;
      conn.steps := conn.steps + [PublishingAdd];

      if !conn.IsConnected() {
        err := Some(New("not connected to STOMP"));
      } else {
        err := None;
      }

      // deferred publishingWg.Done()
      conn.publishingWg := conn.publishingWg - 1;
      conn.steps := conn.steps + [PublishingDone];
    }

    /** beginTransaction: `begin` is the outcome of conn.BeginWithError. The
        transaction is stored only when it was begun. */
    method BeginTransaction(begin: Result<Transaction>) returns (err: Option<Error>)
      modifies this`tx
      ensures begin.Failure? ==> err == Some(Wrap("cannot start transaction", begin.error)) && tx == old(tx)
      ensures begin.Success? ==> err == None && tx == Some(begin.value)
    {
      if begin.Failure? {
        return Some(Wrap("cannot start transaction", begin.error));
      }
      tx := Some(begin.value);
      err := None;
    }

    /** commitTransaction as written: the calls made on the transaction and
        the error returned, given the error of the sends (`err`) and the
        outcomes of Abort and Commit. Abort is called exactly when `err` is
        non-nil; a failed abort returns both causes and stops there; in every
        other case Commit follows and its outcome is returned, so after a
        successful abort the transaction is also committed and `err` is
        dropped. The transaction must have been begun. */
    function CommitTransaction(err: Option<Error>, abortOutcome: Option<Error>, commitOutcome: Option<Error>)
      : (r: (seq<TxCall>, Option<Error>))
      reads this
      requires tx.Some?
      ensures (Abort in r.0) <==> err.Some?
      ensures (Commit in r.0) <==> (err.None? || abortOutcome.None?)
      ensures r.0 == (if err.None? then [Commit] else if abortOutcome.Some? then [Abort] else [Abort, Commit])
      ensures Commit in r.0 ==> r.0[|r.0| - 1] == Commit && r.1 == commitOutcome
      ensures Commit !in r.0 ==>
                && r.1.Some?
                && (forall c :: c in Causes(err.value) ==> c in Causes(r.1.value))
                && (forall c :: c in Causes(abortOutcome.value) ==> c in Causes(r.1.value))
    {
      if err.Some? && abortOutcome.Some? then
        ([Abort], Some(Append(err.value, abortOutcome.value)))
      else if err.Some? then
        ([Abort, Commit], commitOutcome)
      else
        ([Commit], commitOutcome)
    }

    /** commitTransaction as evidently intended: the transaction is either
        aborted or committed, never both, and the error of the sends is never
        dropped. */
    function CommitTransactionIntended(err: Option<Error>, abortOutcome: Option<Error>, commitOutcome: Option<Error>)
      : (r: (seq<TxCall>, Option<Error>))
      reads this
      requires tx.Some?
      ensures r.0 == [Abort] || r.0 == [Commit]
      ensures (Abort in r.0) <==> err.Some?
      ensures err.Some? ==> r.1.Some? && forall c :: c in Causes(err.value) ==> c in Causes(r.1.value)
      ensures err.Some? && abortOutcome.Some? ==>
                r.1.Some? && forall c :: c in Causes(abortOutcome.value) ==> c in Causes(r.1.value)
      ensures err.None? ==> r.1 == commitOutcome
    {
      if err.Some? && abortOutcome.Some? then
        ([Abort], Some(Append(err.value, abortOutcome.value)))
      else if err.Some? then
        ([Abort], err)
      else
        ([Commit], commitOutcome)
    }

    /** publishMessage: `sendOutcome` is the outcome of conn.Send. Nothing is
        sent when marshaling fails; otherwise exactly one Send is made, to the
        destination, with an empty content type and the frame body only. */
    method PublishMessage(destination: string, msg: Message, sendOutcome: Option<Error>)
      returns (err: Option<Error>, sent: seq<Send>)
      ensures config.marshaler.marshal(msg).Failure? ==>
        sent == [] && err == Some(Wrap("cannot marshal message", config.marshaler.marshal(msg).error))
      ensures config.marshaler.marshal(msg).Success? ==>
        && sent == [Send(destination, "", config.marshaler.marshal(msg).value.body)]
        && (sendOutcome.None? ==> err == None)
        && (sendOutcome.Some? ==> err == Some(Wrap("cannot publish msg", sendOutcome.value)))
    {
      var stompMsg := config.marshaler.marshal(msg);
      if stompMsg.Failure? {
        return Some(Wrap("cannot marshal message", stompMsg.error)), [];
      }
      sent := [Send(destination, "", stompMsg.value.body)];
      if sendOutcome.Some? {
        return Some(Wrap("cannot publish msg", sendOutcome.value)), sent;
      }
      err := None;
    }
  }

  /** The discrepancy in commitTransaction: when a send failed and the abort
      succeeds, the transaction is aborted and then committed, and the caller
      sees only Commit's outcome, here success. */
  lemma AbortThenCommit(p: Publisher, sendErr: Error)
    requires p.tx.Some?
    ensures p.CommitTransaction(Some(sendErr), None, None) == ([Abort, Commit], None)
    ensures p.CommitTransactionIntended(Some(sendErr), None, None) == ([Abort], Some(sendErr))
  {
  }
}
