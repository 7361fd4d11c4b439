/** The connection wrapper shared by the publisher and the subscriber: the
    STOMP connection, the "connected" and "closing" signals, the closed flag
    and the two wait-groups that sequence shutdown. */
module Connections {
  import opened Base
  import opened Configuration

  /** watermill.LoggerAdapter: the no-op logger, or one the caller supplies. */
  datatype Logger = NopLogger | Supplied(id: nat)

  /** A *stomp.Conn obtained from a successful dial. */
  datatype Conn = Conn(id: nat)

  /** Lifecycle steps, in the order they happen: signals fired, wait-group
      counters moved, drains completed and the transport disconnected. */
  datatype Step =
    | FireConnected
    | FireClosing
    | DrainPublishing
    | Disconnect(conn: Conn)
    | DrainSubscribing
    | PublishingAdd
    | PublishingDone
    | SubscribingAdd
    | SubscribingDone

  class ConnectionWrapper {
    const config: Config
    const logger: Logger

    var stompConnection: Option<Conn>
    /** The connected channel has been closed (the signal has fired). */
    var connected: bool
    /** The closing channel has been closed (the signal has fired). */
    var closing: bool
    var closed: bool

    var publishingWg: nat
    var subscribingWg: nat

    /** Every lifecycle step taken so far. */
    ghost var steps: seq<Step>

    /** A connection is stored exactly when the connected signal has fired,
        and the closing signal fires together with the closed flag. */
    ghost predicate Valid()
      reads this
    {
      && (connected <==> stompConnection.Some?)
      && (closing <==> closed)
    }

    /** newConnection: a nil logger is replaced by the no-op logger; nothing
        has fired, nothing is connected, and both counters are zero. */
    constructor (config: Config, logger: Option<Logger>)
      ensures Valid()
      ensures this.config == config
      ensures this.logger == if logger.None? then NopLogger else logger.value
      ensures stompConnection == None && !connected && !closing && !closed
      ensures publishingWg == 0 && subscribingWg == 0 && steps == []
    {
      this.config := config;
      this.logger := if logger.None? then NopLogger else logger.value;
      stompConnection := None;
      connected, closing, closed := false, false, false;
      publishingWg, subscribingWg := 0, 0;
      steps := [];
    }

    /** IsConnected: a non-blocking poll of the connected signal. Nothing ever
        resets the signal, so once true it stays true (every method below
        keeps `connected` or sets it). */
    function IsConnected(): (r: bool)
      reads this
      ensures r == connected
    {
      connected
    }

    /** connect: dials the broker. A failed dial is returned wrapped and
        changes nothing. A successful one stores the connection and fires the
        connected signal; firing it a second time would close a closed
        channel, which the caller must not cause. */
    method Connect(dial: Result<Conn>) returns (err: Option<Error>)
      requires Valid()
      requires dial.Success? ==> !connected
      modifies this
      ensures Valid()
      ensures dial.Failure? ==> err == Some(Wrap("cannot connect to STOMP", dial.error)) && unchanged(this)
      ensures dial.Success? ==>
        && err == None
        && stompConnection == Some(dial.value) && connected
        && steps == old(steps) + [FireConnected]
        && closed == old(closed) && closing == old(closing)
        && publishingWg == old(publishingWg) && subscribingWg == old(subscribingWg)
    {
      if dial.Failure? {
        return Some(Wrap("cannot connect to STOMP", dial.error));
      }
      stompConnection := Some(dial.value);
      connected := true;
      steps := steps + [FireConnected];
      err := None;
    }

    /** Close is idempotent. The first call marks the wrapper closed, fires
        closing, waits for the publishing counter to drain, disconnects, then
        waits for the subscribing counter to drain; a failed disconnect is
        only logged, so Close always returns nil. The model takes each wait at
        the moment its counter reaches zero. Disconnect is called on the
        stored connection, so a wrapper that never connected cannot be closed
        (the source dereferences nil there). */
    method Close(disconnectErr: Option<Error>) returns (err: Option<Error>)
      requires Valid()
      requires closed || connected
      modifies this
      ensures Valid()
      ensures err == None
      ensures old(closed) ==> unchanged(this)
      ensures !old(closed) ==>
        && closed && closing
        && steps == old(steps) + [FireClosing, DrainPublishing, Disconnect(old(stompConnection).value), DrainSubscribing]
        && publishingWg == 0 && subscribingWg == 0
        && stompConnection == old(stompConnection) && connected == old(connected)
    {
      if closed {
        return None;
      }
      closed := true;
      closing := true;
      steps := steps + [FireClosing];

      publishingWg := 0;
      steps := steps + [DrainPublishing];

      // the outcome of Disconnect (disconnectErr) is logged and otherwise ignored
      steps := steps + [Disconnect(stompConnection.value)];

      subscribingWg := 0;
      steps := steps + [DrainSubscribing];

      err := None;
    }
  }

  /** newConnection never fails. */
  method NewConnection(config: Config, logger: Option<Logger>) returns (c: ConnectionWrapper, err: Option<Error>)
    ensures err == None
    ensures fresh(c) && c.Valid()
    ensures c.stompConnection == None && !c.connected && !c.closing && !c.closed
    ensures c.publishingWg == 0 && c.subscribingWg == 0 && c.steps == []
    ensures c.logger == if logger.None? then NopLogger else logger.value
  {
    c := new ConnectionWrapper(config, logger);
    err := None;
  }
}
