/** Properties of the subscriber's runs: the delivery discipline of the
    action trace (one message in flight, each delivery settled before the
    next frame is read, a retry nack only after a failed attempt), how the
    loops stop, and what each subscription epoch sends to the broker. */
module DeliveryProperties {
  import opened Base
  import opened Frame
  import opened Subscribing

  /** The rule for the action at position i of a trace, read against its
      neighbours. */
  ghost predicate StepOk(t: seq<Action>, i: nat, unmarshal: StompMessage -> Result<Message>)
    requires i < |t|
  {
    if t[i].Receive? then
      // a received frame is delivered decoded, or nacked, or the run ends here
      || i + 1 == |t|
      || (t[i + 1].Deliver? && unmarshal(t[i].frame) == Success(t[i + 1].msg))
      || (t[i + 1].SendNack? && t[i + 1].frame == t[i].frame)
    else if t[i].Deliver? then
      // the message in flight comes from the frame just received, and the
      // next action settles that frame
      && 0 < i && t[i - 1].Receive?
      && (i + 1 == |t| || (IsSettle(t[i + 1]) && t[i + 1].frame == t[i - 1].frame))
    else if IsSettle(t[i]) then
      // an ack or nack is about the current frame; another one follows only
      // a failed attempt, as a nack of the same frame, and never a third
      && 0 < i
      && (t[i - 1].Deliver? || ((t[i - 1].Receive? || IsSettle(t[i - 1])) && t[i - 1].frame == t[i].frame))
      && (i + 1 < |t| && IsSettle(t[i + 1]) ==>
            !t[i].ok && t[i + 1].SendNack? && t[i + 1].frame == t[i].frame && !IsSettle(t[i - 1]))
    else
      true
  }

  ghost predicate Disciplined(t: seq<Action>, unmarshal: StompMessage -> Result<Message>)
  {
    forall i :: 0 <= i < |t| ==> StepOk(t, i, unmarshal)
  }

  /** A trace that can follow another without breaking the discipline. */
  predicate Opens(t: seq<Action>)
  {
    t == [] || (!t[0].Deliver? && !IsSettle(t[0]))
  }

  /** A trace that can be followed by another without breaking the discipline. */
  predicate Closes(t: seq<Action>)
  {
    t == [] || (!t[|t| - 1].Receive? && !t[|t| - 1].Deliver?)
  }

  lemma Join(a: seq<Action>, b: seq<Action>, unmarshal: StompMessage -> Result<Message>)
    requires Disciplined(a, unmarshal) && Disciplined(b, unmarshal)
    requires Closes(a) && Opens(b)
    ensures Disciplined(a + b, unmarshal)
    ensures Opens(a) && Opens(b) ==> Opens(a + b)
    ensures Closes(a) && Closes(b) ==> Closes(a + b)
  {
    var t := a + b;
    forall i | 0 <= i < |t|
      ensures StepOk(t, i, unmarshal)
    {
      if i < |a| {
        assert StepOk(a, i, unmarshal);
        assert t[i] == a[i];
        if 0 < i {
          assert t[i - 1] == a[i - 1];
        }
        if i + 1 < |a| {
          assert t[i + 1] == a[i + 1];
        } else if i + 1 < |t| {
          assert t[i + 1] == b[0];
        }
      } else {
        var k := i - |a|;
        assert StepOk(b, k, unmarshal);
        assert t[i] == b[k];
        if 0 < k {
          assert t[i - 1] == b[k - 1];
        }
        if k + 1 < |b| {
          assert t[i + 1] == b[k + 1];
        }
      }
    }
    if b == [] {
      assert t == a;
    }
    if a == [] {
      assert t == b;
    }
  }

  /** A trace of actions outside the message-handling ones is disciplined. */
  lemma Quiet(t: seq<Action>, unmarshal: StompMessage -> Result<Message>)
    requires forall a :: a in t ==> !MessageAction(a)
    ensures Disciplined(t, unmarshal) && Opens(t) && Closes(t)
  {
    forall i | 0 <= i < |t|
      ensures StepOk(t, i, unmarshal)
    {
      assert t[i] in t;
    }
    if t != [] {
      assert t[0] in t && t[|t| - 1] in t;
    }
  }

  /** The actions for one frame keep the discipline, and they end outside a
      frame unless the run stops in the middle of it. */
  lemma HandledFrame(unmarshal: StompMessage -> Result<Message>, frame: StompMessage,
                     events: seq<Event>, replies: seq<bool>)
    ensures Disciplined(HandleFrame(unmarshal, frame, events, replies).actions, unmarshal)
    ensures !HandleFrame(unmarshal, frame, events, replies).exit.Starved? ==>
              Closes(HandleFrame(unmarshal, frame, events, replies).actions)
  {
    var m := ProcessMessage(frame, unmarshal(frame), events, replies);
    var t := [Receive(frame)] + m.actions;
    forall i | 0 <= i < |t|
      ensures StepOk(t, i, unmarshal)
    {
      if 0 < i {
        assert t[i] == m.actions[i - 1];
      }
      if i + 1 < |t| {
        assert t[i + 1] == m.actions[i];
      }
    }
    if m.exit.Failed? {
      var n := NackMsg(frame, m.events, m.replies);
      var t' := t + n.actions;
      forall i | 0 <= i < |t'|
        ensures StepOk(t', i, unmarshal)
      {
        assert StepOk(t, if i < |t| then i else |t| - 1, unmarshal);
        if i < |t| {
          assert t'[i] == t[i];
          if 0 < i {
            assert t'[i - 1] == t[i - 1];
          }
        }
        if i + 1 < |t| {
          assert t'[i + 1] == t[i + 1];
        }
      }
    }
  }

  /** The consuming loop keeps the discipline, and when it returns it is
      not in the middle of a frame. */
  lemma {:induction false} ConsumingLoopDisciplined(unmarshal: StompMessage -> Result<Message>,
                                                    events: seq<Event>, replies: seq<bool>)
    ensures Disciplined(ConsumingLoop(unmarshal, events, replies).actions, unmarshal)
    ensures Opens(ConsumingLoop(unmarshal, events, replies).actions)
    ensures !ConsumingLoop(unmarshal, events, replies).exit.Starved? ==>
              Closes(ConsumingLoop(unmarshal, events, replies).actions)
    decreases |events|
  {
    var i := NextWaking(AwaitFrame, events);
    if i < |events| && events[i].Arrived? {
      var h := HandleFrame(unmarshal, events[i].frame, events[i + 1..], replies);
      HandledFrame(unmarshal, events[i].frame, events[i + 1..], replies);
      ConsumingLoopTurn(unmarshal, events, replies, i, h);
      if h.exit.Done? {
        ConsumingLoopDisciplined(unmarshal, h.events, h.replies);
        Join(h.actions, ConsumingLoop(unmarshal, h.events, h.replies).actions, unmarshal);
      }
    }
  }

  lemma ConsumeDisciplined(destination: string, unmarshal: StompMessage -> Result<Message>,
                           events: seq<Event>, replies: seq<bool>)
    ensures Disciplined(Consume(destination, unmarshal, events, replies).actions, unmarshal)
    ensures Opens(Consume(destination, unmarshal, events, replies).actions)
    ensures !Consume(destination, unmarshal, events, replies).exit.Starved? ==>
              Closes(Consume(destination, unmarshal, events, replies).actions)
  {
    var c := SubscribeCall(destination, events, replies);
    Quiet(c.actions, unmarshal);
    if c.exit.Done? {
      ConsumingLoopDisciplined(unmarshal, events, c.replies);
      Join(c.actions, ConsumingLoop(unmarshal, events, c.replies).actions, unmarshal);
    }
  }

  lemma EpochDisciplined(destination: string, connected: bool, unmarshal: StompMessage -> Result<Message>,
                         events: seq<Event>, replies: seq<bool>)
    ensures Disciplined(Epoch(destination, connected, unmarshal, events, replies).actions, unmarshal)
    ensures Opens(Epoch(destination, connected, unmarshal, events, replies).actions)
    ensures !Epoch(destination, connected, unmarshal, events, replies).exit.Starved? ==>
              Closes(Epoch(destination, connected, unmarshal, events, replies).actions)
  {
    var o := OpenSubscribeConnection(destination, connected, events, replies);
    Quiet(o.actions, unmarshal);
    if o.exit.Done? {
      var c := Consume(destination, unmarshal, events, o.replies);
      ConsumeDisciplined(destination, unmarshal, events, o.replies);
      Join(o.actions, c.actions, unmarshal);
      if !c.exit.Starved? {
        Quiet([Unsubscribe], unmarshal);
        Join(o.actions + c.actions, [Unsubscribe], unmarshal);
      }
    }
  }

  /** The whole run of a subscription's reconnect loop keeps the delivery
      discipline, across every epoch. */
  lemma {:induction false} ReconnectingDisciplined(destination: string, connected: bool,
                                                   unmarshal: StompMessage -> Result<Message>,
                                                   events: seq<Event>, replies: seq<bool>)
    ensures Disciplined(Reconnecting(destination, connected, unmarshal, events, replies).actions, unmarshal)
    ensures Opens(Reconnecting(destination, connected, unmarshal, events, replies).actions)
    decreases |events|
  {
    var i := NextWaking(AwaitConnection, events);
    if i < |events| {
      if events[i].Connected? {
        var e := Epoch(destination, connected, unmarshal, events[i + 1..], replies);
        EpochDisciplined(destination, connected, unmarshal, events[i + 1..], replies);
        ReconnectingTurn(destination, connected, unmarshal, events, replies, i, e);
        if !e.exit.Starved? {
          var rest := Reconnecting(destination, connected, unmarshal, e.events, e.replies);
          ReconnectingDisciplined(destination, connected, unmarshal, e.events, e.replies);
          Quiet([Backoff], unmarshal);
          Join(e.actions, [Backoff], unmarshal);
          Join(e.actions + [Backoff], rest.actions, unmarshal);
        }
      } else {
        Quiet([CloseOut], unmarshal);
      }
    }
  }

  /** At most one message is in flight: two deliveries are always separated
      by an ack or nack of the first one's frame. */
  lemma SingleInFlight(t: seq<Action>, unmarshal: StompMessage -> Result<Message>)
    requires Disciplined(t, unmarshal)
    ensures forall i, j :: 0 <= i < j < |t| && t[i].Deliver? && t[j].Deliver? ==>
              0 < i && i + 1 < j && t[i - 1].Receive? && IsSettle(t[i + 1]) && t[i + 1].frame == t[i - 1].frame
  {
    forall i, j | 0 <= i < j < |t| && t[i].Deliver? && t[j].Deliver?
      ensures 0 < i && i + 1 < j && t[i - 1].Receive? && IsSettle(t[i + 1]) && t[i + 1].frame == t[i - 1].frame
    {
      assert StepOk(t, i, unmarshal);
    }
  }

  /** Every delivered message is the decoding of the frame received just
      before it, and a frame that does not decode is nacked, never delivered. */
  lemma DeliveriesDecoded(t: seq<Action>, unmarshal: StompMessage -> Result<Message>)
    requires Disciplined(t, unmarshal)
    ensures forall i :: 0 <= i < |t| && t[i].Deliver? ==>
              0 < i && t[i - 1].Receive? && unmarshal(t[i - 1].frame) == Success(t[i].msg)
    ensures forall i :: 0 <= i < |t| - 1 && t[i].Receive? && unmarshal(t[i].frame).Failure? ==>
              t[i + 1].SendNack? && t[i + 1].frame == t[i].frame
  {
    forall i | 0 <= i < |t| && t[i].Deliver?
      ensures 0 < i && t[i - 1].Receive? && unmarshal(t[i - 1].frame) == Success(t[i].msg)
    {
      assert StepOk(t, i, unmarshal);
      assert StepOk(t, i - 1, unmarshal);
    }
    forall i | 0 <= i < |t| - 1 && t[i].Receive? && unmarshal(t[i].frame).Failure?
      ensures t[i + 1].SendNack? && t[i + 1].frame == t[i].frame
    {
      assert StepOk(t, i, unmarshal);
    }
  }

  /** A frame gets at most two attempts, and the second is a nack of the same
      frame made only after the first failed. */
  lemma RetryOnlyAfterFailure(t: seq<Action>, unmarshal: StompMessage -> Result<Message>)
    requires Disciplined(t, unmarshal)
    ensures forall i :: 0 <= i < |t| - 1 && IsSettle(t[i]) && IsSettle(t[i + 1]) ==>
              !t[i].ok && t[i + 1] == SendNack(t[i].frame, t[i + 1].ok)
    ensures forall i :: 0 <= i < |t| - 2 ==> !(IsSettle(t[i]) && IsSettle(t[i + 1]) && IsSettle(t[i + 2]))
  {
    forall i | 0 <= i < |t| - 1 && IsSettle(t[i]) && IsSettle(t[i + 1])
      ensures !t[i].ok && t[i + 1] == SendNack(t[i].frame, t[i + 1].ok)
    {
      assert StepOk(t, i, unmarshal);
    }
    forall i | 0 <= i < |t| - 2
      ensures !(IsSettle(t[i]) && IsSettle(t[i + 1]) && IsSettle(t[i + 2]))
    {
      assert StepOk(t, i + 1, unmarshal);
    }
  }

  /** The last event consumed, just before `rest`, is closing or the
      context being done. */
  ghost predicate StoppedBy(events: seq<Event>, rest: seq<Event>)
  {
    |rest| < |events| && (events[|events| - |rest| - 1].Closing? || events[|events| - |rest| - 1].CtxDone?)
  }

  lemma StoppedByWithin(outer: seq<Event>, inner: seq<Event>, rest: seq<Event>)
    requires Suffix(inner, outer) && StoppedBy(inner, rest)
    ensures StoppedBy(outer, rest)
  {
    assert outer[|outer| - |rest| - 1] == inner[|inner| - |rest| - 1];
  }

  lemma {:induction false} ConsumingLoopSuffix(unmarshal: StompMessage -> Result<Message>,
                                               events: seq<Event>, replies: seq<bool>)
    ensures Suffix(ConsumingLoop(unmarshal, events, replies).events, events)
    decreases |events|
  {
    var i := NextWaking(AwaitFrame, events);
    if i < |events| {
      assert events[i + 1..] == events[|events| - |events[i + 1..]|..];
      if events[i].Arrived? {
        var h := HandleFrame(unmarshal, events[i].frame, events[i + 1..], replies);
        ConsumingLoopTurn(unmarshal, events, replies, i, h);
        SuffixTrans(h.events, events[i + 1..], events);
        if h.exit.Done? {
          ConsumingLoopSuffix(unmarshal, h.events, h.replies);
          SuffixTrans(ConsumingLoop(unmarshal, h.events, h.replies).events, h.events, events);
        }
      }
    }
  }

  lemma EpochSuffix(destination: string, connected: bool, unmarshal: StompMessage -> Result<Message>,
                    events: seq<Event>, replies: seq<bool>)
    ensures Suffix(Epoch(destination, connected, unmarshal, events, replies).events, events)
  {
    var o := OpenSubscribeConnection(destination, connected, events, replies);
    assert events[0..] == events;
    if o.exit.Done? {
      var c := SubscribeCall(destination, events, o.replies);
      if c.exit.Done? {
        ConsumingLoopSuffix(unmarshal, events, c.replies);
      }
    }
  }

  /** The ack or nack at i is processMessage's attempt for a frame that
      decoded (right after the delivery, or right after the receive when
      closing came before delivery), and the broker refused it. */
  ghost predicate FailedAttempt(t: seq<Action>, i: nat, unmarshal: StompMessage -> Result<Message>)
    requires i < |t|
  {
    && 0 < i && IsSettle(t[i]) && !t[i].ok
    && (t[i - 1].Deliver? || (t[i - 1].Receive? && unmarshal(t[i - 1].frame).Success?))
  }

  /** The nack at i is the one the consuming loop sends itself because
      processMessage returned an error (right after a failed attempt, or
      for a frame that does not decode): it nacks the same frame again, and
      the broker refused it. */
  ghost predicate FailedLoopNack(t: seq<Action>, i: nat, unmarshal: StompMessage -> Result<Message>)
    requires i < |t|
  {
    && 0 < i && t[i].SendNack? && !t[i].ok
    && ((IsSettle(t[i - 1]) && !t[i - 1].ok) || (t[i - 1].Receive? && unmarshal(t[i - 1].frame).Failure?))
    && t[i].frame == t[i - 1].frame
  }

  /** Every failed attempt is followed by a nack of the same frame, unless
      the run stops right there (`starved`); a failed nack of the loop itself
      is the last action, and only when the run returned (`stopped`). */
  ghost predicate RetriedOrEnded(t: seq<Action>, unmarshal: StompMessage -> Result<Message>, starved: bool, stopped: bool)
  {
    && (forall i {:trigger FailedAttempt(t, i, unmarshal)} :: 0 <= i < |t| && FailedAttempt(t, i, unmarshal) ==>
          || (i + 1 < |t| && t[i + 1].SendNack? && t[i + 1].frame == t[i].frame)
          || (i + 1 == |t| && starved))
    && (forall i {:trigger FailedLoopNack(t, i, unmarshal)} :: 0 <= i < |t| && FailedLoopNack(t, i, unmarshal) ==> i + 1 == |t| && stopped)
  }

  /** A trace whose every ack and nack succeeded has nothing to retry. */
  lemma AllSettled(t: seq<Action>, unmarshal: StompMessage -> Result<Message>, starved: bool, stopped: bool)
    requires forall k :: 0 <= k < |t| && IsSettle(t[k]) ==> t[k].ok
    ensures RetriedOrEnded(t, unmarshal, starved, stopped)
  {
  }

  /** The actions for a frame that does not decode: the receive, then the
      loop's own nack of it unless the run stops first. */
  lemma NackUndecoded(t: seq<Action>, frame: StompMessage, tail: seq<Action>,
                      unmarshal: StompMessage -> Result<Message>, starved: bool, stopped: bool)
    requires unmarshal(frame).Failure? && t == [Receive(frame)] + tail
    requires || (tail == [] && starved && !stopped)
             || (|tail| == 1 && tail[0].SendNack? && tail[0].frame == frame && !starved && (stopped <==> !tail[0].ok))
    ensures RetriedOrEnded(t, unmarshal, starved, stopped)
    ensures stopped ==> FailedLoopNack(t, |t| - 1, unmarshal)
  {
    forall i | 0 <= i < |t| && FailedAttempt(t, i, unmarshal)
      ensures false
    {
      assert false;
    }
    forall i | 0 <= i < |t| && FailedLoopNack(t, i, unmarshal)
      ensures i + 1 == |t| && stopped
    {
      assert i == 1 && t[i] == tail[0];
    }
  }

  /** The actions for a frame whose attempt failed: the receive, perhaps the
      delivery, the failed attempt, then the loop's nack of the frame unless
      the run stops first. */
  lemma NackAfterAttempt(t: seq<Action>, frame: StompMessage, attempt: seq<Action>, tail: seq<Action>,
                         unmarshal: StompMessage -> Result<Message>, starved: bool, stopped: bool)
    requires unmarshal(frame).Success? && t == [Receive(frame)] + attempt + tail
    requires 1 <= |attempt| <= 2 && (|attempt| == 2 ==> attempt[0].Deliver?)
    requires var s := attempt[|attempt| - 1]; IsSettle(s) && !s.ok && s.frame == frame
    requires || (tail == [] && starved && !stopped)
             || (|tail| == 1 && tail[0].SendNack? && tail[0].frame == frame && !starved && (stopped <==> !tail[0].ok))
    ensures RetriedOrEnded(t, unmarshal, starved, stopped)
    ensures stopped ==> FailedLoopNack(t, |t| - 1, unmarshal)
  {
    var n := |attempt|;
    assert t[n] == attempt[n - 1];
    assert n == 2 ==> t[1] == attempt[0];
    forall i | 0 <= i < |t| && FailedAttempt(t, i, unmarshal)
      ensures || (i + 1 < |t| && t[i + 1].SendNack? && t[i + 1].frame == t[i].frame)
              || (i + 1 == |t| && starved)
    {
      assert i == n;
      if tail != [] {
        assert t[n + 1] == tail[0];
      }
    }
    forall i | 0 <= i < |t| && FailedLoopNack(t, i, unmarshal)
      ensures i + 1 == |t| && stopped
    {
      assert i == n + 1 && t[i] == tail[0];
    }
    assert RetriedOrEnded(t, unmarshal, starved, stopped);
    assert stopped ==> FailedLoopNack(t, |t| - 1, unmarshal) by {
      if stopped {
        assert t[|t| - 1] == tail[0] && t[|t| - 2] == attempt[n - 1];
      }
    }
  }

  /** For one frame: a failed attempt is followed by the loop's nack of the
      frame, and when that nack fails too it is the frame's last action and
      the loop is told to stop. */
  lemma HandledFrameRetries(unmarshal: StompMessage -> Result<Message>, frame: StompMessage,
                            events: seq<Event>, replies: seq<bool>)
    ensures var h := HandleFrame(unmarshal, frame, events, replies);
            && RetriedOrEnded(h.actions, unmarshal, h.exit.Starved?, h.exit.Failed?)
            && (h.exit.Failed? ==> FailedLoopNack(h.actions, |h.actions| - 1, unmarshal))
  {
    var h := HandleFrame(unmarshal, frame, events, replies);
    var m := ProcessMessage(frame, unmarshal(frame), events, replies);
    var t := h.actions;
    if !m.exit.Failed? {
      forall k | 0 <= k < |t| && IsSettle(t[k])
        ensures t[k].ok
      {
        assert t[k] == m.actions[k - 1];
      }
      AllSettled(t, unmarshal, h.exit.Starved?, h.exit.Failed?);
    } else {
      var tail := if m.replies == [] then [] else [SendNack(frame, m.replies[0])];
      if unmarshal(frame).Failure? {
        NackUndecoded(t, frame, tail, unmarshal, h.exit.Starved?, h.exit.Failed?);
      } else {
        NackAfterAttempt(t, frame, m.actions, tail, unmarshal, h.exit.Starved?, h.exit.Failed?);
      }
    }
  }

  lemma RetryAt(t: seq<Action>, unmarshal: StompMessage -> Result<Message>, starved: bool, stopped: bool, i: nat)
    requires RetriedOrEnded(t, unmarshal, starved, stopped) && i < |t| && FailedAttempt(t, i, unmarshal)
    ensures || (i + 1 < |t| && t[i + 1].SendNack? && t[i + 1].frame == t[i].frame)
            || (i + 1 == |t| && starved)
  {
  }

  lemma RetriedOrEndedJoin(a: seq<Action>, b: seq<Action>, unmarshal: StompMessage -> Result<Message>,
                           starved: bool, stopped: bool)
    requires RetriedOrEnded(a, unmarshal, false, false) && RetriedOrEnded(b, unmarshal, starved, stopped)
    requires b == [] || b[0].Receive?
    ensures RetriedOrEnded(a + b, unmarshal, starved, stopped)
  {
    var t := a + b;
    forall i | 0 <= i < |t| && FailedAttempt(t, i, unmarshal)
      ensures || (i + 1 < |t| && t[i + 1].SendNack? && t[i + 1].frame == t[i].frame)
              || (i + 1 == |t| && starved)
    {
      if i < |a| {
        assert t[i] == a[i] && t[i - 1] == a[i - 1];
        RetryAt(a, unmarshal, false, false, i);
        assert t[i + 1] == a[i + 1];
      } else if i == |a| {
        assert false;
      } else {
        var k := i - |a|;
        assert t[i] == b[k] && t[i - 1] == b[k - 1];
        RetryAt(b, unmarshal, starved, stopped, k);
        if k + 1 < |b| {
          assert t[i + 1] == b[k + 1];
        }
      }
    }
    forall i | 0 <= i < |t| && FailedLoopNack(t, i, unmarshal)
      ensures i + 1 == |t| && stopped
    {
      if i < |a| {
        assert FailedLoopNack(a, i, unmarshal);
      } else if i == |a| {
        assert false;
      } else {
        assert t[i] == b[i - |a|] && t[i - 1] == b[i - |a| - 1];
        assert FailedLoopNack(b, i - |a|, unmarshal);
      }
    }
  }

  /** The retry rule of ProcessMessages over a whole run of the consuming
      loop: every failed ack or nack of processMessage is followed by a nack
      of the same frame, unless the run stops right there; a failed nack of
      the loop itself ends the loop. */
  lemma {:induction false} ConsumingLoopRetries(unmarshal: StompMessage -> Result<Message>,
                                                events: seq<Event>, replies: seq<bool>)
    ensures var r := ConsumingLoop(unmarshal, events, replies);
            RetriedOrEnded(r.actions, unmarshal, r.exit.Starved?, r.exit.Done?)
    decreases |events|
  {
    var i := NextWaking(AwaitFrame, events);
    if i < |events| && events[i].Arrived? {
      var h := HandleFrame(unmarshal, events[i].frame, events[i + 1..], replies);
      HandledFrameRetries(unmarshal, events[i].frame, events[i + 1..], replies);
      ConsumingLoopTurn(unmarshal, events, replies, i, h);
      if h.exit.Done? {
        var rest := ConsumingLoop(unmarshal, h.events, h.replies);
        ConsumingLoopRetries(unmarshal, h.events, h.replies);
        RetriedOrEndedJoin(h.actions, rest.actions, unmarshal, rest.exit.Starved?, rest.exit.Done?);
      }
    }
  }

  /** Closing or a done context at the frame select ends the consuming loop
      at once, with nothing done; when no event wakes it, it waits. */
  lemma ConsumingLoopEndsOnSignal(unmarshal: StompMessage -> Result<Message>, events: seq<Event>, replies: seq<bool>)
    ensures var i := NextWaking(AwaitFrame, events);
            var r := ConsumingLoop(unmarshal, events, replies);
            && (i == |events| ==> r == Progress([], [], replies, Starved))
            && (i < |events| && (events[i].Closing? || events[i].CtxDone?) ==>
                  r == Progress([], events[i + 1..], replies, Done))
  {
  }

  /** One frame of the consuming loop: when the rest of the loop stops on a
      signal or on its own failed nack, so does the whole loop. */
  lemma ConsumingLoopStopsAfterFrame(events: seq<Event>, i: nat, frameEvents: seq<Event>, frameActions: seq<Action>,
                                     rest: Progress, unmarshal: StompMessage -> Result<Message>)
    requires i < |events| && Suffix(frameEvents, events[i + 1..])
    requires rest.exit.Done? ==>
               || StoppedBy(frameEvents, rest.events)
               || (rest.actions != [] && FailedLoopNack(rest.actions, |rest.actions| - 1, unmarshal))
    ensures var r := Prepend(frameActions, rest);
            r.exit.Done? ==>
              || StoppedBy(events, r.events)
              || (r.actions != [] && FailedLoopNack(r.actions, |r.actions| - 1, unmarshal))
  {
    var r := Prepend(frameActions, rest);
    if rest.exit.Done? {
      if StoppedBy(frameEvents, rest.events) {
        assert events[i + 1..] == events[|events| - |events[i + 1..]|..];
        SuffixTrans(frameEvents, events[i + 1..], events);
        StoppedByWithin(events, frameEvents, rest.events);
      } else {
        var k := |r.actions| - 1;
        assert r.actions[k] == rest.actions[|rest.actions| - 1];
        assert r.actions[k - 1] == rest.actions[|rest.actions| - 2];
      }
    }
  }

  /** The consuming loop returns only when closing or the context stops it,
      or when its own nack of a frame fails. */
  lemma {:induction false} ConsumingLoopStops(unmarshal: StompMessage -> Result<Message>,
                                              events: seq<Event>, replies: seq<bool>)
    ensures var r := ConsumingLoop(unmarshal, events, replies);
            r.exit.Done? ==>
              || StoppedBy(events, r.events)
              || (r.actions != [] && FailedLoopNack(r.actions, |r.actions| - 1, unmarshal))
    decreases |events|
  {
    var i := NextWaking(AwaitFrame, events);
    if i < |events| && events[i].Arrived? {
      var h := HandleFrame(unmarshal, events[i].frame, events[i + 1..], replies);
      if h.exit.Done? {
        ConsumingLoopStops(unmarshal, h.events, h.replies);
        ConsumingLoopTurn(unmarshal, events, replies, i, h);
        ConsumingLoopStopsAfterFrame(events, i, h.events, h.actions, ConsumingLoop(unmarshal, h.events, h.replies), unmarshal);
      } else {
        ConsumingLoopStopsAtFrame(unmarshal, events, replies, i, h);
      }
    } else if i < |events| {
      ConsumingLoopEndsOnSignal(unmarshal, events, replies);
      assert events[|events| - |events[i + 1..]| - 1] == events[i];
    }
  }

  /** A frame whose handling ends the loop ends it on the loop's own failed
      nack. */
  lemma ConsumingLoopStopsAtFrame(unmarshal: StompMessage -> Result<Message>,
                                  events: seq<Event>, replies: seq<bool>, i: nat, h: Progress)
    requires i == NextWaking(AwaitFrame, events) < |events| && events[i].Arrived?
    requires h == HandleFrame(unmarshal, events[i].frame, events[i + 1..], replies) && !h.exit.Done?
    ensures var r := ConsumingLoop(unmarshal, events, replies);
            r.exit.Done? ==> r.actions != [] && FailedLoopNack(r.actions, |r.actions| - 1, unmarshal)
  {
    ConsumingLoopTurn(unmarshal, events, replies, i, h);
    HandledFrameRetries(unmarshal, events[i].frame, events[i + 1..], replies);
  }

  /** An epoch whose first SUBSCRIBE cannot be made (not connected, or the
      broker refuses it) receives nothing and unsubscribes nothing. */
  lemma EpochWithoutSubscription(destination: string, connected: bool, unmarshal: StompMessage -> Result<Message>,
                                 events: seq<Event>, replies: seq<bool>)
    requires !connected || replies == [] || !replies[0]
    ensures Epoch(destination, connected, unmarshal, events, replies).actions
            == if connected && replies != [] then [Subscribe(destination, AckClientIndividual, false)] else []
  {
  }

  /** Each epoch that opens its subscription SUBSCRIBEs a second time for its
      consumer, and when it returns UNSUBSCRIBEs once, as its last action. */
  lemma EpochSubscribesTwice(destination: string, connected: bool, unmarshal: StompMessage -> Result<Message>,
                             events: seq<Event>, replies: seq<bool>)
    requires connected && |replies| >= 2 && replies[0]
    ensures var r := Epoch(destination, connected, unmarshal, events, replies);
            && r.actions[..2] == [Subscribe(destination, AckClientIndividual, true),
                                  Subscribe(destination, AckClientIndividual, replies[1])]
            && (r.exit.Done? ==>
                  r.actions[|r.actions| - 1] == Unsubscribe && Unsubscribe !in r.actions[..|r.actions| - 1])
  {
    var r := Epoch(destination, connected, unmarshal, events, replies);
    var first := [Subscribe(destination, AckClientIndividual, true)];
    var second := [Subscribe(destination, AckClientIndividual, replies[1])];
    var c := Consume(destination, unmarshal, events, replies[1..]);
    if replies[1] {
      var loop := ConsumingLoop(unmarshal, events, replies[2..]);
      assert c.actions == second + loop.actions;
      assert Unsubscribe !in loop.actions;
    }
    assert r.actions[..|first + c.actions|] == first + c.actions;
    if r.exit.Done? {
      assert r.actions == first + c.actions + [Unsubscribe];
      assert r.actions[..|r.actions| - 1] == first + c.actions;
    }
  }

  lemma {:induction false} ReconnectingSuffix(destination: string, connected: bool,
                                              unmarshal: StompMessage -> Result<Message>,
                                              events: seq<Event>, replies: seq<bool>)
    ensures Suffix(Reconnecting(destination, connected, unmarshal, events, replies).events, events)
    decreases |events|
  {
    var i := NextWaking(AwaitConnection, events);
    if i < |events| {
      assert events[i + 1..] == events[|events| - |events[i + 1..]|..];
      if events[i].Connected? {
        var e := Epoch(destination, connected, unmarshal, events[i + 1..], replies);
        ReconnectingTurn(destination, connected, unmarshal, events, replies, i, e);
        EpochSuffix(destination, connected, unmarshal, events[i + 1..], replies);
        SuffixTrans(e.events, events[i + 1..], events);
        if !e.exit.Starved? {
          ReconnectingSuffix(destination, connected, unmarshal, e.events, e.replies);
          SuffixTrans(Reconnecting(destination, connected, unmarshal, e.events, e.replies).events, e.events, events);
        }
      }
    }
  }

  /** The delivery channel is closed as the last action and nowhere else. */
  predicate ClosedOnceAtEnd(t: seq<Action>)
  {
    t != [] && t[|t| - 1] == CloseOut && CloseOut !in t[..|t| - 1]
  }

  lemma ClosedOnceAfter(head: seq<Action>, t: seq<Action>)
    requires CloseOut !in head && ClosedOnceAtEnd(t)
    ensures ClosedOnceAtEnd(head + t)
  {
    assert (head + t)[..|head + t| - 1] == head + t[..|t| - 1];
  }

  /** An epoch followed by the back-off never closes the delivery channel. */
  lemma EpochKeepsOpen(t: seq<Action>, destination: string)
    requires forall a :: a in t ==> MessageAction(a) || SubscribesTo(a, destination) || a == Unsubscribe
    ensures CloseOut !in t + [Backoff]
  {
  }

  /** When the reconnect loop stops it closes the delivery channel, as its
      last action and for the only time. */
  lemma {:induction false} ReconnectingClosesOnce(destination: string, connected: bool,
                                                  unmarshal: StompMessage -> Result<Message>,
                                                  events: seq<Event>, replies: seq<bool>)
    ensures var r := Reconnecting(destination, connected, unmarshal, events, replies);
            r.exit.Done? ==> ClosedOnceAtEnd(r.actions)
    decreases |events|
  {
    var i := NextWaking(AwaitConnection, events);
    if i < |events| && events[i].Connected? {
      var e := Epoch(destination, connected, unmarshal, events[i + 1..], replies);
      ReconnectingTurn(destination, connected, unmarshal, events, replies, i, e);
      if !e.exit.Starved? {
        ReconnectingClosesOnce(destination, connected, unmarshal, e.events, e.replies);
        var rest := Reconnecting(destination, connected, unmarshal, e.events, e.replies);
        if rest.exit.Done? {
          EpochKeepsOpen(e.actions, destination);
          ClosedOnceAfter(e.actions + [Backoff], rest.actions);
        }
      }
    }
  }

  /** A reconnect loop that has not stopped has not closed the delivery
      channel. */
  lemma {:induction false} ReconnectingKeepsOpen(destination: string, connected: bool,
                                                 unmarshal: StompMessage -> Result<Message>,
                                                 events: seq<Event>, replies: seq<bool>)
    ensures var r := Reconnecting(destination, connected, unmarshal, events, replies);
            r.exit.Starved? ==> CloseOut !in r.actions
    decreases |events|
  {
    var i := NextWaking(AwaitConnection, events);
    if i < |events| && events[i].Connected? {
      var e := Epoch(destination, connected, unmarshal, events[i + 1..], replies);
      ReconnectingTurn(destination, connected, unmarshal, events, replies, i, e);
      if !e.exit.Starved? {
        ReconnectingKeepsOpen(destination, connected, unmarshal, e.events, e.replies);
        EpochKeepsOpen(e.actions, destination);
      } else {
        EpochKeepsOpen(e.actions, destination);
      }
    }
  }

  /** One epoch of the reconnect loop: when the rest of the loop stops on
      closing or a done context, so does the whole loop. */
  lemma ReconnectingStopsAfterEpoch(destination: string, connected: bool,
                                    unmarshal: StompMessage -> Result<Message>,
                                    events: seq<Event>, replies: seq<bool>, i: nat, e: Progress)
    requires i == NextWaking(AwaitConnection, events) < |events| && events[i].Connected?
    requires e == Epoch(destination, connected, unmarshal, events[i + 1..], replies) && !e.exit.Starved?
    requires var rest := Reconnecting(destination, connected, unmarshal, e.events, e.replies);
             rest.exit.Done? ==> StoppedBy(e.events, rest.events)
    ensures var r := Reconnecting(destination, connected, unmarshal, events, replies);
            r.exit.Done? ==> StoppedBy(events, r.events)
  {
    ReconnectingTurn(destination, connected, unmarshal, events, replies, i, e);
    var rest := Reconnecting(destination, connected, unmarshal, e.events, e.replies);
    if rest.exit.Done? {
      EpochSuffix(destination, connected, unmarshal, events[i + 1..], replies);
      SuffixTrans(e.events, events[i + 1..], events);
      StoppedByWithin(events, e.events, rest.events);
    }
  }

  /** The reconnect loop stops only on closing or a done context. */
  lemma {:induction false} ReconnectingStops(destination: string, connected: bool,
                                             unmarshal: StompMessage -> Result<Message>,
                                             events: seq<Event>, replies: seq<bool>)
    ensures var r := Reconnecting(destination, connected, unmarshal, events, replies);
            r.exit.Done? ==> StoppedBy(events, r.events)
    decreases |events|
  {
    var i := NextWaking(AwaitConnection, events);
    if i < |events| {
      if events[i].Connected? {
        var e := Epoch(destination, connected, unmarshal, events[i + 1..], replies);
        if !e.exit.Starved? {
          ReconnectingStops(destination, connected, unmarshal, e.events, e.replies);
          ReconnectingStopsAfterEpoch(destination, connected, unmarshal, events, replies, i, e);
        } else {
          ReconnectingTurn(destination, connected, unmarshal, events, replies, i, e);
        }
      } else {
        var r := Reconnecting(destination, connected, unmarshal, events, replies);
        assert events[|events| - |r.events| - 1] == events[i];
      }
    }
  }
}
