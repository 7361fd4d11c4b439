/** The subscriber. Subscribe checks the connection state and starts one
    reconnect loop per call. The loop waits for the connected signal, runs a
    subscription epoch (open a subscription, consume frames one at a time,
    unsubscribe), backs off and waits again, until closing or the context
    stops it.

    Every `select` of the source waits on a few signals. Here the signals
    arrive as a sequence of events; a select takes the first event that is
    one of its cases and drops the events before it, which it has no case for.
    The outcomes of the broker calls (Subscribe, Ack, Nack) arrive as a
    sequence of replies, true for success. A run records the protocol actions
    it takes. When the events or the replies run out, the run stops where it
    is waiting, with exit `Starved`: the model has followed a finite prefix of
    a loop that goes on. */
module Subscribing {
  import opened Base
  import opened Frame
  import opened Marshaling
  import opened Configuration
  import opened Connections

  datatype Event =
    | Connected               // the connected signal
    | Closing                 // the closing signal
    | CtxDone                 // the subscription's context is done
    | Arrived(frame: StompMessage) // a frame on the broker subscription
    | Taken                   // the consumer receives the message offered on out
    | Acked                   // the consumer acks the delivered message
    | Nacked                  // the consumer nacks it

  /** The four selects of the subscriber. */
  datatype Select =
    | AwaitConnection   // ReconnectLoop
    | AwaitFrame        // ConsumingLoop
    | AwaitDelivery     // processMessage, offering the message on out
    | AwaitOutcome      // processMessage, waiting for ack or nack

  /** The events a select has a case for. */
  predicate Wakes(sel: Select, e: Event)
  {
    match sel
    case AwaitConnection => e.Connected? || e.Closing? || e.CtxDone?
    case AwaitFrame => e.Arrived? || e.Closing? || e.CtxDone?
    case AwaitDelivery => e.Taken? || e.Closing?
    case AwaitOutcome => e.Acked? || e.Nacked? || e.Closing?
  }

  /** The position of the event that wakes `sel`, or |events| if none does. */
  function NextWaking(sel: Select, events: seq<Event>): (i: nat)
    ensures i <= |events|
    ensures i < |events| ==> Wakes(sel, events[i])
    ensures forall j :: 0 <= j < i ==> !Wakes(sel, events[j])
  {
    if events == [] then 0
    else if Wakes(sel, events[0]) then 0
    else 1 + NextWaking(sel, events[1..])
  }

  /** Protocol actions, in the order the subscriber takes them. */
  datatype Action =
    | Subscribe(destination: string, mode: AckMode, ok: bool)
    | Unsubscribe
    | Receive(frame: StompMessage)
    | Deliver(msg: Message)
    | SendAck(frame: StompMessage, ok: bool)
    | SendNack(frame: StompMessage, ok: bool)
    | Backoff
    | CloseOut

  /** An ack or nack sent to the broker. */
  predicate IsSettle(a: Action)
  {
    a.SendAck? || a.SendNack?
  }

  /** The actions that handle a frame. */
  predicate MessageAction(a: Action)
  {
    a.Receive? || a.Deliver? || IsSettle(a)
  }

  /** A SUBSCRIBE to the destination in client-individual ack mode. */
  predicate SubscribesTo(a: Action, destination: string)
  {
    a.Subscribe? && a.destination == destination && a.mode == AckClientIndividual
  }

  /** How a piece of the subscriber returned: nil, an error, or not yet. */
  datatype Exit = Done | Failed | Starved

  /** The actions taken, the inputs left and how the piece returned. */
  datatype Progress = Progress(actions: seq<Action>, events: seq<Event>, replies: seq<bool>, exit: Exit)

  function Prepend(prefix: seq<Action>, p: Progress): (r: Progress)
    ensures r.actions == prefix + p.actions && r.events == p.events && r.replies == p.replies && r.exit == p.exit
  {
    p.(actions := prefix + p.actions)
  }

  lemma PrependPrepend(a: seq<Action>, b: seq<Action>, p: Progress)
    ensures Prepend(a + b, p) == Prepend(a, Prepend(b, p))
  {
    assert (a + b) + p.actions == a + (b + p.actions);
  }

  /** `s` is what remains of `t` after a prefix was consumed. */
  ghost predicate Suffix<T>(s: seq<T>, t: seq<T>)
  {
    |s| <= |t| && s == t[|t| - |s|..]
  }

  lemma SuffixTrans<T>(s: seq<T>, t: seq<T>, u: seq<T>)
    requires Suffix(s, t) && Suffix(t, u)
    ensures Suffix(s, u)
  {
    assert u[|u| - |t|..][|t| - |s|..] == u[|u| - |s|..];
  }

  /** The subscriber's calls that only depend on the broker's reply: one
      reply is consumed; there is none left, the call does not return. */
  function Call(action: bool -> Action, events: seq<Event>, replies: seq<bool>): (r: Progress)
    ensures r.events == events
    ensures replies == [] <==> r.exit.Starved?
    ensures replies == [] ==> r.actions == [] && r.replies == []
    ensures replies != [] ==> r.actions == [action(replies[0])] && r.replies == replies[1..]
                              && (r.exit.Done? <==> replies[0])
  {
    if replies == [] then Progress([], events, [], Starved)
    else Progress([action(replies[0])], events, replies[1..], if replies[0] then Done else Failed)
  }

  /** nackMsg: one Nack of the frame; nil when the broker accepts it. */
  function NackMsg(frame: StompMessage, events: seq<Event>, replies: seq<bool>): (r: Progress)
    ensures r.events == events
    ensures r.exit.Starved? <==> r.actions == []
    ensures r.exit.Done? <==> r.actions == [SendNack(frame, true)]
    ensures r.exit.Failed? <==> r.actions == [SendNack(frame, false)]
    // the broker's reply decides the outcome; without one the call waits
    ensures r.exit.Starved? <==> replies == []
    ensures replies == [] ==> r.replies == []
    ensures replies != [] ==> r.replies == replies[1..] && r.actions == [SendNack(frame, replies[0])]
  {
    Call(ok => SendNack(frame, ok), events, replies)
  }

  /** connection.Ack of the frame; nil when the broker accepts it. */
  function AckMsg(frame: StompMessage, events: seq<Event>, replies: seq<bool>): (r: Progress)
    ensures r.events == events
    ensures r.exit.Starved? <==> r.actions == []
    ensures r.exit.Done? <==> r.actions == [SendAck(frame, true)]
    ensures r.exit.Failed? <==> r.actions == [SendAck(frame, false)]
    // the broker's reply decides the outcome; without one the call waits
    ensures r.exit.Starved? <==> replies == []
    ensures replies == [] ==> r.replies == []
    ensures replies != [] ==> r.replies == replies[1..] && r.actions == [SendAck(frame, replies[0])]
  {
    Call(ok => SendAck(frame, ok), events, replies)
  }

  /** processMessage. A frame that does not decode returns an error and
      nothing is delivered; otherwise the decoded message is offered to the
      consumer (OfferMessage) and the error of the ack or nack is returned. */
  function ProcessMessage(frame: StompMessage, decoded: Result<Message>, events: seq<Event>, replies: seq<bool>)
    : (r: Progress)
    ensures Suffix(r.events, events)
    ensures decoded.Failure? ==> r == Progress([], events, replies, Failed)
    ensures |r.actions| <= 2
    ensures forall i :: 0 <= i < |r.actions| && r.actions[i].Deliver? ==>
              i == 0 && decoded == Success(r.actions[i].msg)
    ensures forall i :: 0 <= i < |r.actions| && !r.actions[i].Deliver? ==>
              IsSettle(r.actions[i]) && r.actions[i].frame == frame && i == |r.actions| - 1
    ensures r.actions == [] || r.actions[0].Deliver? || r.actions[0].SendNack?
    ensures r.exit.Done? <==> r.actions != [] && IsSettle(r.actions[|r.actions| - 1]) && r.actions[|r.actions| - 1].ok
    ensures r.exit.Failed? && decoded.Success? ==>
              r.actions != [] && IsSettle(r.actions[|r.actions| - 1]) && !r.actions[|r.actions| - 1].ok
    // which event decides which action
    ensures decoded.Success? ==>
              var i := NextWaking(AwaitDelivery, events);
              && (i == |events| ==> r == Progress([], [], replies, Starved))
              && (i < |events| && events[i].Closing? ==>
                    && r.events == events[i + 1..]
                    && (r.exit.Starved? <==> replies == [])
                    && (replies == [] ==> r.actions == [])
                    && (replies != [] ==> r.replies == replies[1..] && r.actions == [SendNack(frame, replies[0])]))
              && (i < |events| && events[i].Taken? ==>
                    r == Prepend([Deliver(decoded.value)], AfterDelivery(frame, events[i + 1..], replies)))
  {
    if decoded.Failure? then Progress([], events, replies, Failed)
    else OfferMessage(frame, decoded.value, events, replies)
  }

  /** The two selects of processMessage for a decoded message. The message
      is offered on out; closing first means a nack and no delivery. Once
      delivered, exactly one outcome follows: an ack when the consumer acks,
      a nack when it nacks or when closing comes first. */
  function OfferMessage(frame: StompMessage, m: Message, events: seq<Event>, replies: seq<bool>): (r: Progress)
    ensures Suffix(r.events, events)
    ensures var i := NextWaking(AwaitDelivery, events);
            && (i == |events| ==> r == Progress([], [], replies, Starved))
            && (i < |events| && events[i].Closing? ==>
                  && r.events == events[i + 1..]
                  && (r.exit.Starved? <==> replies == [])
                  && (replies == [] ==> r.actions == [])
                  && (replies != [] ==> r.replies == replies[1..] && r.actions == [SendNack(frame, replies[0])]))
            && (i < |events| && events[i].Taken? ==>
                  r == Prepend([Deliver(m)], AfterDelivery(frame, events[i + 1..], replies)))
  {
    var i := NextWaking(AwaitDelivery, events);
    if i == |events| then Progress([], [], replies, Starved)
    else if events[i].Closing? then
      var n := NackMsg(frame, events[i + 1..], replies);
      assert n.actions == [] || n.actions == [SendNack(frame, n.exit.Done?)];
      n
    else
      var o := AfterDelivery(frame, events[i + 1..], replies);
      assert [Deliver(m)] + o.actions == [Deliver(m)] || |o.actions| == 1;
      Prepend([Deliver(m)], o)
  }

  /** The second select of processMessage, once the message is delivered:
      the consumer's ack gives an ack of the frame, its nack or the closing
      signal a nack. */
  function AfterDelivery(frame: StompMessage, events: seq<Event>, replies: seq<bool>): (r: Progress)
    ensures Suffix(r.events, events)
    ensures r.exit.Starved? <==> r.actions == []
    ensures r.actions == [] || r.actions == [SendAck(frame, r.exit.Done?)] || r.actions == [SendNack(frame, r.exit.Done?)]
    ensures var j := NextWaking(AwaitOutcome, events);
            && (j == |events| ==> r == Progress([], [], replies, Starved))
            && (j < |events| && events[j].Acked? ==>
                  r.events == events[j + 1..] && (r.actions == [] || r.actions == [SendAck(frame, r.exit.Done?)]))
            && (j < |events| && !events[j].Acked? ==>
                  r.events == events[j + 1..] && (r.actions == [] || r.actions == [SendNack(frame, r.exit.Done?)]))
    // once woken, the broker's reply to that one call decides the outcome
    ensures var j := NextWaking(AwaitOutcome, events);
            && (r.exit.Starved? <==> j == |events| || replies == [])
            && (j < |events| && replies == [] ==> r.replies == [])
            && (j < |events| && replies != [] ==>
                  && r.replies == replies[1..]
                  && r.actions == [if events[j].Acked? then SendAck(frame, replies[0]) else SendNack(frame, replies[0])])
  {
    var j := NextWaking(AwaitOutcome, events);
    if j == |events| then Progress([], [], replies, Starved)
    else if events[j].Acked? then AckMsg(frame, events[j + 1..], replies)
    else NackMsg(frame, events[j + 1..], replies)
  }

  /** Conversely, each action of processMessage names the event that woke
      its select: a delivery the consumer taking the message, a nack before
      delivery the closing signal, and after delivery an ack the consumer's
      ack, a nack its nack or the closing signal. */
  lemma ProcessMessageFollowsConsumer(frame: StompMessage, m: Message, events: seq<Event>, replies: seq<bool>)
    ensures var r := ProcessMessage(frame, Success(m), events, replies);
            var i := NextWaking(AwaitDelivery, events);
            && (r.actions != [] && r.actions[0].Deliver? ==> i < |events| && events[i] == Taken)
            && (r.actions != [] && r.actions[0].SendNack? ==> i < |events| && events[i] == Closing)
            && (|r.actions| == 2 ==>
                  && i < |events|
                  && var rest := events[i + 1..];
                     var j := NextWaking(AwaitOutcome, rest);
                     && j < |rest|
                     && (r.actions[1].SendAck? <==> rest[j] == Acked)
                     && (r.actions[1].SendNack? <==> rest[j] == Nacked || rest[j] == Closing))
  {
  }

  /** The work for one frame taken from the subscription: processMessage
      and, when that returns an error, nackMsg on the same frame. Exit Done
      means the loop goes on, Failed that the retry nack failed too. */
  function HandleFrame(unmarshal: StompMessage -> Result<Message>, frame: StompMessage,
                       events: seq<Event>, replies: seq<bool>): (r: Progress)
    ensures Suffix(r.events, events)
    ensures r.actions != [] && r.actions[0] == Receive(frame)
    ensures forall a :: a in r.actions ==> MessageAction(a)
    ensures r.exit.Failed? ==> r.actions[|r.actions| - 1] == SendNack(frame, false)
    // an error from processMessage is followed by a nack of the same frame
    ensures var m := ProcessMessage(frame, unmarshal(frame), events, replies);
            && (!m.exit.Failed? ==> r.actions == [Receive(frame)] + m.actions && r.exit == m.exit)
            && (m.exit.Failed? && m.replies == [] ==> r.actions == [Receive(frame)] + m.actions && r.exit.Starved?)
            && (m.exit.Failed? && m.replies != [] ==>
                  && r.actions == [Receive(frame)] + m.actions + [SendNack(frame, m.replies[0])]
                  && (r.exit.Failed? <==> !m.replies[0])
                  && (r.exit.Done? <==> m.replies[0]))
    // what the frame leaves of the inputs: processMessage's leftovers, less
    // the reply to the retry nack
    ensures var m := ProcessMessage(frame, unmarshal(frame), events, replies);
            && r.events == m.events
            && (!m.exit.Failed? ==> r.replies == m.replies)
            && (m.exit.Failed? && m.replies == [] ==> r.replies == [])
            && (m.exit.Failed? && m.replies != [] ==> r.replies == m.replies[1..])
  {
    var m := ProcessMessage(frame, unmarshal(frame), events, replies);
    assert forall a :: a in m.actions ==> MessageAction(a) by {
      forall a | a in m.actions
        ensures MessageAction(a)
      {
        var k :| 0 <= k < |m.actions| && m.actions[k] == a;
      }
    }
    if !m.exit.Failed? then Prepend([Receive(frame)], m)
    else
      var n := NackMsg(frame, m.events, m.replies);
      assert n.actions == [] || n.actions == [SendNack(frame, n.exit.Done?)];
      Prepend([Receive(frame)] + m.actions, n)
  }

  /** ConsumingLoop: takes frames one at a time until closing or the context
      stops it. A frame whose processing returns an error is nacked; when
      that nack fails too the loop ends (the epoch is given up). */
  function ConsumingLoop(unmarshal: StompMessage -> Result<Message>, events: seq<Event>, replies: seq<bool>)
    : (r: Progress)
    ensures |r.events| <= |events|
    ensures !r.exit.Failed?
    ensures forall a :: a in r.actions ==> MessageAction(a)
    ensures r.actions == [] || r.actions[0].Receive?
    decreases |events|
  {
    var i := NextWaking(AwaitFrame, events);
    if i == |events| then Progress([], [], replies, Starved)
    else if !events[i].Arrived? then Progress([], events[i + 1..], replies, Done)
    else
      var h := HandleFrame(unmarshal, events[i].frame, events[i + 1..], replies);
      if h.exit.Done? then Prepend(h.actions, ConsumingLoop(unmarshal, h.events, h.replies))
      else h.(exit := if h.exit.Starved? then Starved else Done)
  }

  /** One turn of ConsumingLoop on an arrived frame. */
  lemma ConsumingLoopTurn(unmarshal: StompMessage -> Result<Message>, events: seq<Event>, replies: seq<bool>,
                          i: nat, h: Progress)
    requires i == NextWaking(AwaitFrame, events) < |events| && events[i].Arrived?
    requires h == HandleFrame(unmarshal, events[i].frame, events[i + 1..], replies)
    ensures h.exit.Done? ==>
              ConsumingLoop(unmarshal, events, replies) == Prepend(h.actions, ConsumingLoop(unmarshal, h.events, h.replies))
    ensures !h.exit.Done? ==>
              ConsumingLoop(unmarshal, events, replies) == h.(exit := if h.exit.Starved? then Starved else Done)
  {
  }

  /** A SUBSCRIBE to the destination in client-individual ack mode: the
      engine, not the broker, decides when each frame is acknowledged. */
  function SubscribeCall(destination: string, events: seq<Event>, replies: seq<bool>): (r: Progress)
    ensures r.events == events
    ensures r.exit.Starved? <==> r.actions == []
    ensures r.actions != [] ==> r.actions == [Subscribe(destination, AckClientIndividual, r.exit.Done?)]
    ensures r.exit.Starved? <==> replies == []
    ensures replies == [] ==> r.replies == []
    ensures replies != [] ==>
              r.replies == replies[1..] && r.actions == [Subscribe(destination, AckClientIndividual, replies[0])]
  {
    Call(ok => Subscribe(destination, AckClientIndividual, ok), events, replies)
  }

  /** openSubscribeConnection: fails without a broker call when not
      connected, otherwise subscribes. */
  function OpenSubscribeConnection(destination: string, connected: bool, events: seq<Event>, replies: seq<bool>)
    : (r: Progress)
    ensures r.events == events
    ensures !connected ==> r == Progress([], events, replies, Failed)
    ensures connected ==> r == SubscribeCall(destination, events, replies)
  {
    if !connected then Progress([], events, replies, Failed)
    else SubscribeCall(destination, events, replies)
  }

  /** subscription.ProcessMessages: createConsumer subscribes to the
      destination; when that fails nothing is consumed. */
  function Consume(destination: string, unmarshal: StompMessage -> Result<Message>, events: seq<Event>, replies: seq<bool>)
    : (r: Progress)
    ensures |r.events| <= |events|
    ensures !r.exit.Failed?
    ensures forall a :: a in r.actions ==> MessageAction(a) || SubscribesTo(a, destination)
  {
    var c := SubscribeCall(destination, events, replies);
    if c.exit.Starved? then c
    else if c.exit.Failed? then c.(exit := Done)
    else Prepend(c.actions, ConsumingLoop(unmarshal, events, c.replies))
  }

  /** runSubscriber: one epoch. Open a subscription (giving up the epoch if
      that fails), consume from a second subscription, and unsubscribe the
      first once consuming returns. */
  function Epoch(destination: string, connected: bool, unmarshal: StompMessage -> Result<Message>,
                 events: seq<Event>, replies: seq<bool>): (r: Progress)
    ensures |r.events| <= |events|
    ensures !r.exit.Failed?
    ensures forall a :: a in r.actions ==> MessageAction(a) || SubscribesTo(a, destination) || a == Unsubscribe
  {
    var o := OpenSubscribeConnection(destination, connected, events, replies);
    if o.exit.Starved? then o
    else if o.exit.Failed? then o.(exit := Done)
    else
      var c := Consume(destination, unmarshal, events, o.replies);
      if c.exit.Starved? then Prepend(o.actions, c)
      else Progress(o.actions + c.actions + [Unsubscribe], c.events, c.replies, Done)
  }

  /** ReconnectLoop: each connected event runs one epoch, then the loop backs
      off and waits again; closing or the context ends it, and the delivery
      channel is closed. */
  function Reconnecting(destination: string, connected: bool, unmarshal: StompMessage -> Result<Message>,
                        events: seq<Event>, replies: seq<bool>): (r: Progress)
    ensures |r.events| <= |events|
    ensures !r.exit.Failed?
    decreases |events|
  {
    var i := NextWaking(AwaitConnection, events);
    if i == |events| then Progress([], [], replies, Starved)
    else if !events[i].Connected? then Progress([CloseOut], events[i + 1..], replies, Done)
    else
      var e := Epoch(destination, connected, unmarshal, events[i + 1..], replies);
      if e.exit.Starved? then e
      else
        var rest := Reconnecting(destination, connected, unmarshal, e.events, e.replies);
        Prepend(e.actions + [Backoff], rest)
  }

  /** One turn of Reconnecting on a connected event, as ReconnectLoop takes it. */
  lemma ReconnectingTurn(destination: string, connected: bool, unmarshal: StompMessage -> Result<Message>,
                         events: seq<Event>, replies: seq<bool>, i: nat, e: Progress)
    requires i == NextWaking(AwaitConnection, events) < |events| && events[i].Connected?
    requires e == Epoch(destination, connected, unmarshal, events[i + 1..], replies)
    ensures e.exit.Starved? ==> Reconnecting(destination, connected, unmarshal, events, replies) == e
    ensures !e.exit.Starved? ==>
              Reconnecting(destination, connected, unmarshal, events, replies)
              == Prepend(e.actions + [Backoff], Reconnecting(destination, connected, unmarshal, e.events, e.replies))
  {
  }

  /** subscription.ProcessMessages, as the loop it is. */
  method ProcessMessages(destination: string, unmarshal: StompMessage -> Result<Message>,
                         events: seq<Event>, replies: seq<bool>) returns (r: Progress)
    ensures r == Consume(destination, unmarshal, events, replies)
  {
    var c := SubscribeCall(destination, events, replies);   // createConsumer
    if c.exit.Starved? {
      return c;
    }
    if c.exit.Failed? {
      return c.(exit := Done);
    }
    var actions := c.actions;
    var pending, rest := events, c.replies;
    while true
      invariant Consume(destination, unmarshal, events, replies)
                == Prepend(actions, ConsumingLoop(unmarshal, pending, rest))
      decreases |pending|
    {
      var i := NextWaking(AwaitFrame, pending);
      if i == |pending| {
        return Progress(actions, [], rest, Starved);
      }
      if !pending[i].Arrived? {
        // closing or ctx done
        return Progress(actions, pending[i + 1..], rest, Done);
      }
      var frame := pending[i].frame;
      ghost var h := HandleFrame(unmarshal, frame, pending[i + 1..], rest);
      ConsumingLoopTurn(unmarshal, pending, rest, i, h);
      var m := ProcessMessage(frame, unmarshal(frame), pending[i + 1..], rest);
      var handled := [Receive(frame)] + m.actions;
      if m.exit.Failed? {
        var n := NackMsg(frame, m.events, m.replies);
        handled := handled + n.actions;
        pending, rest := n.events, n.replies;
        if n.exit.Starved? {
          return Progress(actions + handled, pending, rest, Starved);
        }
        if n.exit.Failed? {
          // cannot nack: give up this epoch
          return Progress(actions + handled, pending, rest, Done);
        }
      } else {
        pending, rest := m.events, m.replies;
        if m.exit.Starved? {
          return Progress(actions + handled, pending, rest, Starved);
        }
      }
      PrependPrepend(actions, handled, ConsumingLoop(unmarshal, pending, rest));
      actions := actions + handled;
    }
  }

  /** The handle Subscribe returns: the topic and the queue name its loop
      consumes from (the delivery channel of the source). */
  datatype Stream = Stream(topic: string, queueName: string)

  class Subscriber {
    const conn: ConnectionWrapper
    const config: Config

    /** NewSubscriber: validation always passes and newConnection never
        fails, so a subscriber is always built, over a fresh wrapper. */
    constructor (config: Config, logger: Option<Logger>)
      ensures fresh(conn) && conn.Valid()
      ensures this.config == config && conn.config == config
      ensures conn.stompConnection == None && !conn.connected && !conn.closed
      ensures conn.publishingWg == 0 && conn.subscribingWg == 0 && conn.steps == []
    {
      this.config := config;
      conn := new ConnectionWrapper(config, logger);
    }

    /** Subscribe fails, touching nothing, when the wrapper is closed or not
        connected. Otherwise the queue name is generated once from the topic,
        the subscribing counter goes up by one and the stream is returned;
        its loop is ReconnectLoop. */
    method Subscribe(topic: string) returns (stream: Option<Stream>, err: Option<Error>)
      requires conn.Valid()
      modifies conn
      ensures conn.Valid()
      ensures old(conn.closed) ==> stream == None && err == Some(New("pub/sub is closed")) && unchanged(conn)
      ensures !old(conn.closed) && !old(conn.connected) ==>
                stream == None && err == Some(New("not connected to AMQP")) && unchanged(conn)
      ensures !old(conn.closed) && old(conn.connected) ==>
        && err == None
        && stream == Some(Stream(topic, config.queue.generateName(topic)))
        && conn.subscribingWg == old(conn.subscribingWg) + 1
        && conn.steps == old(conn.steps) + [SubscribingAdd]
        && unchanged(conn`stompConnection, conn`connected, conn`closing, conn`closed, conn`publishingWg)
    {
      if conn.closed {
        return None, Some(New("pub/sub is closed"));
      }
      if !conn.IsConnected() {
        return None, Some(New("not connected to AMQP"));
      }
      var queueName := config.queue.generateName(topic);
      conn.subscribingWg := conn.subscribingWg + 1;
      conn.steps := conn.steps + [SubscribingAdd];
      stream := Some(Stream(topic, queueName));
      err := None;
    }

    /** runSubscriber. */
    method RunSubscriber(destination: string, events: seq<Event>, replies: seq<bool>) returns (r: Progress)
      ensures r == Epoch(destination, conn.connected, config.marshaler.unmarshal, events, replies)
    {
      var o := OpenSubscribeConnection(destination, conn.IsConnected(), events, replies);
      if o.exit.Starved? {
        return o;
      }
      if o.exit.Failed? {
        // logged; the epoch ends
        return o.(exit := Done);
      }
      var c := ProcessMessages(destination, config.marshaler.unmarshal, events, o.replies);
      if c.exit.Starved? {
        return Prepend(o.actions, c);
      }
      // deferred Unsubscribe of the opened subscription; its outcome is only logged
      r := Progress(o.actions + c.actions + [Unsubscribe], c.events, c.replies, Done);
    }

    /** The loop Subscribe starts for a stream. When it stops, the delivery
        channel is closed and the subscribing counter goes down by one; until
        then the wrapper is untouched. */
    method ReconnectLoop(stream: Stream, events: seq<Event>, replies: seq<bool>) returns (r: Progress)
      requires conn.Valid() && conn.subscribingWg > 0
      modifies conn
      ensures conn.Valid()
      ensures r == Reconnecting(stream.queueName, old(conn.connected), config.marshaler.unmarshal, events, replies)
      ensures r.exit.Done? ==>
        && conn.subscribingWg == old(conn.subscribingWg) - 1
        && conn.steps == old(conn.steps) + [SubscribingDone]
        && unchanged(conn`stompConnection, conn`connected, conn`closing, conn`closed, conn`publishingWg)
      ensures !r.exit.Done? ==> unchanged(conn)
    {
      var actions := [];
      var pending, rest := events, replies;
      while true
        invariant unchanged(conn)
        invariant Reconnecting(stream.queueName, conn.connected, config.marshaler.unmarshal, events, replies)
                  == Prepend(actions, Reconnecting(stream.queueName, conn.connected, config.marshaler.unmarshal, pending, rest))
        decreases |pending|
      {
        var i := NextWaking(AwaitConnection, pending);
        if i == |pending| {
          return Progress(actions, [], rest, Starved);
        }
        if !pending[i].Connected? {
          // closing or ctx done
          pending := pending[i + 1..];
          break;
        }
        var e := RunSubscriber(stream.queueName, pending[i + 1..], rest);
        ReconnectingTurn(stream.queueName, conn.connected, config.marshaler.unmarshal, pending, rest, i, e);
        if e.exit.Starved? {
          return Prepend(actions, e);
        }
        PrependPrepend(actions, e.actions + [Backoff],
                       Reconnecting(stream.queueName, conn.connected, config.marshaler.unmarshal, e.events, e.replies));
        actions := actions + (e.actions + [Backoff]);   // the epoch, then time.Sleep(100ms)
        pending, rest := e.events, e.replies;
      }
      // deferred: close(out), subscribingWg.Done()
      actions := actions + [CloseOut];
      conn.subscribingWg := conn.subscribingWg - 1;
      conn.steps := conn.steps + [SubscribingDone];
      r := Progress(actions, pending, rest, Done);
    }
  }
}
