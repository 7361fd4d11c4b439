# watermill-stomp in Dafny

This project models the STOMP adapter for the Watermill messaging library (package `pkg/stomp`). The adapter has five parts:

- **Marshaler.** Translates a Watermill message into a STOMP frame and back. The metadata travels as frame headers. The message UUID travels as one more header, under a configurable key.
- **Configuration.** The configuration checks, and the queue-name generators that map a topic to a STOMP destination.
- **Connection wrapper.** Shared by the publisher and the subscriber. It holds the broker connection, the "connected" and "closing" signals, the `closed` flag and two wait-groups. Together these sequence shutdown.
- **Publisher.** `Publish` checks the wrapper's state, plus the transaction and send helpers.
- **Subscriber.** One reconnect loop per subscribed topic. Each loop waits for the connection, then runs a subscription epoch: subscribe, take frames one at a time, deliver each decoded message, wait for the consumer's ack or nack and pass it on to the broker, unsubscribe. It then backs off and waits again, until closing or the caller's context stops it.

## How the model is built

- **Modules.** One module per source file: `Marshaling`, `Configuration`, `Connections`, `Publishing` and `Subscribing`.
  - `Base` holds errors, results and bytes.
  - `Frame` holds the go-stomp frame header and message, and the Watermill message, in the shapes the adapter relies on.
  - `DeliveryProperties` holds the properties proved about the subscriber's runs.
- **Connection wrapper.** Modelled as a class with the source's fields. Its methods change them in place and record a ghost trace of lifecycle steps (signals fired, counters moved, drains, disconnect). `Publisher` and `Subscriber` are classes over a shared wrapper.
- **Waiting and broker replies.**
  - Each `select` of the subscriber becomes a choice over a sequence of events (connected, closing, context done, a frame arrived, the consumer took, acked or nacked the message). A select takes the first event it has a case for.
  - The replies of the broker calls (Subscribe, Ack, Nack) come as a sequence of booleans.
  - A run produces the list of protocol actions it took, what is left of both inputs, and how it returned. When an input runs out, the run stops where it waits (exit `Starved`), because the model follows a finite prefix of loops that do not end by themselves.
- **Loops.** The loops are methods proved against specifications:
  - the metadata loop of `Marshal` is proved, through its invariants, to produce a header satisfying `EncodesHeader` (each metadata entry listed exactly once, then the UUID pair); the round-trip lemmas reason about that predicate;
  - the following loops are proved equal to recursive specification functions, and the properties are lemmas about those functions: the metadata loop of `UnMarshal` (`Decoded`), `ProcessMessages` with its consuming loop (`Consume`), and `ReconnectLoop` (`Reconnecting`).
- **Outside calls.** Calls into the broker client (Dial, Send, BeginWithError, AbortWithReceipt, CommitWithReceipt, Disconnect) become parameters that carry their outcome.

Points where the model follows the code, and where an adapter of this kind would be expected to behave otherwise:

- **Decode failures are nacked.** One might expect a frame that cannot be decoded to be logged and skipped, and never nacked. In the code, `processMessage` returns the decode error (`pkg/stomp/subscriber.go:189-192`), and `ProcessMessages` nacks the frame for any error (`pkg/stomp/subscriber.go:150-158`). The model nacks it (`DeliveryProperties.DeliveriesDecoded`).
- **The payload does not round-trip.** A marshaler is expected to give back the payload when it decodes a message it encoded. The code never sets the frame body (see Findings).
- **The configured marshaler is opaque.** The `Marshaler` interface names its decoder `Unmarshal`, but `DefaultMarshaler` defines `UnMarshal` (`pkg/stomp/marshaler.go:13`, `:39`), so `DefaultMarshaler` does not satisfy the interface. The subscriber is therefore modelled over an arbitrary configured pair of encode and decode functions (`Marshaling.Marshaler`). `DefaultMarshaler` is modelled on its own, as written.
- **Nothing connects.** Nothing in the package calls `connect`. The model keeps it as an operation (`Connections.ConnectionWrapper.Connect`). The subscriber's loop reads the connected flag as it stood when the loop started, because nothing inside the loop changes it.
- **Two SUBSCRIBEs, one UNSUBSCRIBE.** Each epoch subscribes twice to the same destination: once in `openSubscribeConnection` and once in `createConsumer`. Only the first subscription is unsubscribed, and frames are read from the second (`Subscribing.Epoch`, `DeliveryProperties.EpochSubscribesTwice`).
- **`Publish` sends nothing.** It checks the state and returns. The transaction and send helpers are not called from anywhere in the package, so they are modelled on their own.

## Model

| member | source | states |
|---|---|---|
| Base.Append | pkg/stomp/publisher.go:62 | The aggregate error lists the causes of the first error, in order, followed by the causes of the second, in order. Neither error is dropped. |
| Frame.Header.Add | pkg/stomp/marshaler.go:28 | Adding a pair appends it: the earlier pairs are unchanged, the length grows by one, and the new pair is last. |
| Frame.Header.Contains | pkg/stomp/marshaler.go:62 | Reports a key as present exactly when some pair has it. The value is the first such pair's value, and "" when the key is absent. |
| Marshaling.DefaultMarshaler.ComputeMessageUUIDHeaderKey | pkg/stomp/marshaler.go:70-76 | The UUID header key is the configured key when that is non-empty. Otherwise it is `_watermill_message_uuid`. It is never empty. |
| Marshaling.DefaultMarshaler.Marshal | pkg/stomp/marshaler.go:24-37 | Never fails. The header lists each metadata entry exactly once, with its value, in any order, and then the UUID under the UUID key. The header length is \|metadata\| + 1. The body is empty. |
| Marshaling.EnumerateOneMore | pkg/stomp/marshaler.go:27-29 | Adding a metadata entry not yet visited keeps the header built so far a duplicate-free listing of the visited entries. |
| Marshaling.DefaultMarshaler.MarshalIntended | pkg/stomp/marshaler.go:24-37 | Corrected encoder: the same header as `Marshal`, and the payload as the body. |
| Marshaling.DefaultMarshaler.UnmarshalMessageUUID | pkg/stomp/marshaler.go:61-68 | Never fails. The UUID is the value of the first pair under the UUID key, or "" when no pair has that key. |
| Marshaling.DefaultMarshaler.UnMarshal | pkg/stomp/marshaler.go:39-59 | Never fails. The metadata loop visits the pairs in order and yields exactly the decoded message described by the lemmas below. |
| Marshaling.DecodedShape | pkg/stomp/marshaler.go:39-59 | The decoded payload is the frame body. The UUID is "" when the key is absent. The metadata keys are the header keys minus the UUID key. |
| Marshaling.MetadataOfKeys | pkg/stomp/marshaler.go:48-56 | Decoded metadata holds every header key except the UUID key, and nothing else. |
| Marshaling.MetadataOfLastWins | pkg/stomp/marshaler.go:48-56 | When a header key repeats, decoded metadata keeps the value of its last occurrence. |
| Marshaling.UUIDAfterEntries | pkg/stomp/marshaler.go:30 | The UUID pair added after metadata entries that do not use the UUID key is the one the decoder finds. |
| Marshaling.MetadataAfterEntries | pkg/stomp/marshaler.go:27-30 | Decoding a listing of a metadata map followed by the UUID pair gives back exactly that map. |
| Marshaling.HeaderRoundTrip | pkg/stomp/marshaler.go:24-59 | Any header `Marshal` can build, with any body, decodes to the message's UUID and metadata and to that body, provided the metadata does not use the UUID key. |
| Marshaling.MarshalRoundTrip | pkg/stomp/marshaler.go:24-59 | For a frame `Marshal` produces, decoding gives the UUID and the metadata back with an empty payload. A message with a payload therefore does not survive the round trip. |
| Marshaling.MarshalIntendedRoundTrip | pkg/stomp/marshaler.go:24-59 | With the payload carried as the body, decoding gives back the whole message. |
| Marshaling.ReservedKeyInMetadata | pkg/stomp/marshaler.go:27-30 | A metadata entry under the UUID key is listed before the UUID pair, so the decoded UUID is that entry's value. The key does not reappear in the decoded metadata. |
| Configuration.Config.Validate | pkg/stomp/config.go:11-15 | Every configuration is accepted. |
| Configuration.Config.ValidatePublisher | pkg/stomp/config.go:17-21 | Every configuration is accepted. |
| Configuration.Config.ValidateSubscriber | pkg/stomp/config.go:23-27 | Every configuration is accepted. |
| Configuration.GenerateQueueNameTopicName | pkg/stomp/config.go:38-40 | The queue name is the topic unchanged. |
| Configuration.GenerateQueueNameConstant | pkg/stomp/config.go:43-47 | The generator returns the configured queue name for every topic. |
| Configuration.ConstantIgnoresTopic | pkg/stomp/config.go:43-47 | Any two topics get the same constant queue name. |
| Configuration.GenerateQueueNameTopicNameWithSuffix | pkg/stomp/config.go:51-55 | The name starts with the topic, then "_", and ends with the suffix. Its length is \|topic\| + 1 + \|suffix\|. |
| Configuration.SuffixGeneratorInjective | pkg/stomp/config.go:51-55 | For a fixed suffix, distinct topics get distinct queue names. |
| Connections.ConnectionWrapper.constructor | pkg/stomp/connection.go:27-43 | A nil logger becomes the no-op logger. Nothing has fired or connected, and both counters are zero. |
| Connections.NewConnection | pkg/stomp/connection.go:27-43 | Construction never fails and yields a fresh wrapper in the initial state. |
| Connections.ConnectionWrapper.IsConnected | pkg/stomp/connection.go:95-102 | True exactly when the connected signal has fired. No operation resets it. |
| Connections.ConnectionWrapper.Connect | pkg/stomp/connection.go:66-85 | A failed dial is returned wrapped and changes nothing. A successful dial stores the connection and fires the connected signal, and nothing else changes. It must not succeed twice. |
| Connections.ConnectionWrapper.Close | pkg/stomp/connection.go:45-64 | Idempotent: on a closed wrapper it returns nil and changes nothing. The first call sets closed, fires closing, drains publishing, disconnects the stored connection and drains subscribing, in that order. It returns nil even when the disconnect fails. |
| Publishing.Publisher.constructor | pkg/stomp/publisher.go:18-32 | A publisher is always built, over a fresh wrapper in the initial state, with no transaction. |
| Publishing.Publisher.Publish | pkg/stomp/publisher.go:34-45 | When closed: an error, and the counter is untouched. Otherwise: one add and one done on the publishing counter, which ends where it began. Not connected gives an error. Connected gives nil, and nothing else changes. |
| Publishing.Publisher.BeginTransaction | pkg/stomp/publisher.go:47-57 | The transaction is stored only when it was begun. On failure the error is wrapped and the transaction is unchanged. |
| Publishing.Publisher.CommitTransaction | pkg/stomp/publisher.go:59-67 | The calls are exactly: Commit alone when there is no send error; Abort alone when the abort fails; Abort then Commit when the abort succeeds. So Abort is called exactly when there is a send error. Commit is called exactly when there is none or the abort succeeded, and then it is last and its outcome is returned. Otherwise the result keeps the causes of both the send error and the abort error. |
| Publishing.Publisher.CommitTransactionIntended | pkg/stomp/publisher.go:59-67 | Corrected: exactly one of abort and commit is called, abort exactly when there is a send error. A send error is never dropped. When the abort fails too, the causes of its error are kept as well. Without a send error, commit's outcome is returned. |
| Publishing.AbortThenCommit | pkg/stomp/publisher.go:60-66 | A send error followed by a successful abort and commit: the transaction is aborted and then committed, and nil is returned. The corrected version aborts only and returns the send error. |
| Publishing.Publisher.PublishMessage | pkg/stomp/publisher.go:69-91 | A marshaling failure sends nothing and returns the wrapped error. Otherwise exactly one Send is made: to the destination, with an empty content type and only the frame body. A send failure is returned wrapped. |
| Subscribing.NextWaking | pkg/stomp/subscriber.go:60-71 | A select wakes on the first event it has a case for. The events before it are ones it has no case for. |
| Subscribing.NackMsg | pkg/stomp/subscriber.go:222-224 | One Nack of this frame, whose ok flag is the broker's reply, and that reply is consumed. The result is nil exactly when the broker accepts, an error when it refuses. With no reply left, the call waits with no action. |
| Subscribing.AckMsg | pkg/stomp/subscriber.go:213-215 | One Ack of this frame, whose ok flag is the broker's reply, and that reply is consumed. The result is nil exactly when the broker accepts, an error when it refuses. With no reply left, the call waits with no action. |
| Subscribing.ProcessMessage | pkg/stomp/subscriber.go:183-220 | A decode failure is an error with no action. Otherwise there are at most two actions: a delivery of the decoded message first, then one ack or nack of this frame, last. The result is nil exactly when the final ack or nack succeeded. Each case is keyed on the event that wakes the first select. No event: the call waits with no action. Closing: exactly one Nack of this frame, carrying the broker's reply, and no delivery; with no reply left it waits. The consumer takes the message: the delivery, followed by exactly the run the second select specifies. |
| Subscribing.OfferMessage | pkg/stomp/subscriber.go:201-219 | The two selects for a decoded message, keyed on the event that wakes the first. No event: it waits. Closing: exactly one Nack of this frame carrying the broker's reply, or a wait when no reply is left. Taken: the delivery, followed by exactly the run the second select specifies. |
| Subscribing.AfterDelivery | pkg/stomp/subscriber.go:209-219 | The second select, keyed on the event that wakes it. It waits, with no action, exactly when no event wakes it or no reply is left. Otherwise exactly one call is made, carrying the broker's reply: an Ack of this frame on Acked, a Nack on Nacked or closing. The reply is consumed, and so are the events up to and including the waking one. The result is nil exactly when the broker accepted. |
| Subscribing.ProcessMessageFollowsConsumer | pkg/stomp/subscriber.go:201-219 | The converse direction. A delivery happens only when the first select woke on the consumer taking the message. A nack with no delivery happens only when it woke on closing. After a delivery, the settle is an Ack exactly when the second select woke on Acked, and a Nack exactly when it woke on Nacked or closing. |
| Subscribing.HandleFrame | pkg/stomp/subscriber.go:149-159 | One frame: its receive, then exactly the actions of `processMessage`. When processing did not fail, the frame's exit is processing's exit. When it failed and a reply is left, one more Nack of the same frame follows. The loop goes on (exit `Done`) exactly when that nack succeeds, and stops (exit `Failed`) exactly when it fails, with that failed nack last. When no reply is left, the run waits at that nack. The frame leaves exactly the events processing left, and the replies processing left, less the one the retry nack consumed. |
| Subscribing.ConsumingLoop | pkg/stomp/subscriber.go:146-170 | Consumes part of the events and only handles frames; its trace starts with a receive. It never returns an error. |
| Subscribing.SubscribeCall | pkg/stomp/subscriber.go:173-181 | One SUBSCRIBE of the destination in client-individual ack mode, whose ok flag is the broker's reply, and that reply is consumed. It succeeds exactly when the broker accepts. With no reply left, the call waits with no action. |
| Subscribing.OpenSubscribeConnection | pkg/stomp/subscriber.go:111-126 | Not connected: an error with no broker call. Connected: one SUBSCRIBE in client-individual ack mode. |
| Subscribing.Consume | pkg/stomp/subscriber.go:139-171 | Every action handles a frame or is a client-individual SUBSCRIBE of this destination. |
| Subscribing.ProcessMessages | pkg/stomp/subscriber.go:139-171 | The loop takes exactly the run `Consume` specifies. |
| Subscribing.Epoch | pkg/stomp/subscriber.go:80-109 | Every action handles a frame, is a client-individual SUBSCRIBE of this destination, or is the UNSUBSCRIBE. |
| Subscribing.Reconnecting | pkg/stomp/subscriber.go:56-74 | The reconnect loop consumes part of the events and never returns an error. |
| Subscribing.Subscriber.constructor | pkg/stomp/subscriber.go:19-30 | A subscriber is always built, over a fresh wrapper in the initial state. |
| Subscribing.Subscriber.Subscribe | pkg/stomp/subscriber.go:32-78 | Closed or not connected: an error, no stream, and nothing changes. Otherwise the queue name is generated once from the topic, the subscribing counter goes up by exactly one, and nothing else changes. |
| Subscribing.Subscriber.RunSubscriber | pkg/stomp/subscriber.go:80-109 | One epoch, exactly the run `Epoch` specifies for the wrapper's connection state. |
| Subscribing.Subscriber.ReconnectLoop | pkg/stomp/subscriber.go:49-75 | The loop takes exactly the run `Reconnecting` specifies. When it stops, the subscribing counter goes down by exactly one and nothing else in the wrapper changes. While it runs, the wrapper is untouched. |
| DeliveryProperties.HandledFrame | pkg/stomp/subscriber.go:149-159 | The actions for one frame keep the delivery discipline. They end outside the frame unless the run stops in the middle of it. |
| DeliveryProperties.ConsumingLoopDisciplined | pkg/stomp/subscriber.go:146-170 | Every run of the consuming loop keeps the delivery discipline. |
| DeliveryProperties.ConsumeDisciplined | pkg/stomp/subscriber.go:139-171 | The same, including the consumer's SUBSCRIBE. |
| DeliveryProperties.EpochDisciplined | pkg/stomp/subscriber.go:80-109 | The same for a whole epoch. |
| DeliveryProperties.ReconnectingDisciplined | pkg/stomp/subscriber.go:56-74 | The same for a whole reconnect loop, across every epoch. |
| DeliveryProperties.SingleInFlight | pkg/stomp/subscriber.go:146-170 | In a disciplined trace, a delivery follows the receive of its frame. Between any two deliveries there is an ack or nack of the first one's frame, so at most one message is in flight. |
| DeliveryProperties.DeliveriesDecoded | pkg/stomp/subscriber.go:189-192 | Every delivered message is the decoding of the frame received just before it. A frame that does not decode is nacked, never delivered. |
| DeliveryProperties.RetryOnlyAfterFailure | pkg/stomp/subscriber.go:150-158 | A second ack or nack of a frame is a nack of the same frame, made only after the first attempt failed. There is never a third. |
| DeliveryProperties.HandledFrameRetries | pkg/stomp/subscriber.go:149-159 | For one frame: a failed ack or nack of `processMessage` is followed by the loop's nack of the same frame, unless the run stops right there. A failed nack of the loop is the frame's last action, and it occurs exactly when the frame ends the loop. |
| DeliveryProperties.ConsumingLoopRetries | pkg/stomp/subscriber.go:149-168 | For every run of the consuming loop: each failed ack or nack of `processMessage` is followed at once by a nack of the same frame, unless the run stops waiting right there. A failed retry nack is the run's last action, and it occurs only in a run that returned. |
| DeliveryProperties.ConsumingLoopEndsOnSignal | pkg/stomp/subscriber.go:146-168 | When the frame select wakes on closing or on the context being done, the loop returns at once, with no action, having consumed the events up to that one. With no event, it waits with no action. |
| DeliveryProperties.ConsumingLoopStops | pkg/stomp/subscriber.go:146-170 | The converse: the consuming loop returns only on closing or the context being done, or when its last action is its retry nack (a nack of the same frame as the failed attempt or undecodable receive before it) that the broker refused. |
| DeliveryProperties.EpochWithoutSubscription | pkg/stomp/subscriber.go:86-90 | When not connected, or when the first SUBSCRIBE is refused, the epoch receives nothing and unsubscribes nothing. |
| DeliveryProperties.EpochSubscribesTwice | pkg/stomp/subscriber.go:80-109 | An epoch that opens its subscription subscribes a second time, in client-individual mode on the same destination. When it returns, its one UNSUBSCRIBE is its last action. |
| DeliveryProperties.ReconnectingClosesOnce | pkg/stomp/subscriber.go:50-54 | When the reconnect loop stops, closing the delivery channel is its last action, and the channel is closed nowhere else. |
| DeliveryProperties.ReconnectingKeepsOpen | pkg/stomp/subscriber.go:56-74 | A reconnect loop that has not stopped has not closed the delivery channel. |
| DeliveryProperties.ReconnectingStops | pkg/stomp/subscriber.go:56-74 | The reconnect loop stops only on closing or the context being done. |

The delivery discipline (`DeliveryProperties.Disciplined`) is a rule for each action of a trace, read against its neighbours:

- a received frame is followed by the delivery of its decoding or by a nack of it;
- a delivery is followed by an ack or nack of the frame it came from;
- an ack or nack is followed by another one only when it failed, and then only by one nack of the same frame.

## Left out

- Concurrency. Goroutines, the connection mutex (`pkg/stomp/connection.go:67-68`), select fairness and the blocking of `WaitGroup.Wait` are not modelled. A select takes the first event of its input that it has a case for, and a wait is modelled as the moment its counter reaches zero.
- Connections.ConnectionWrapper.Close: requires that the wrapper be connected (so a connection is stored) unless it is already closed. The source dereferences a nil connection there.
- Publishing.Publisher.CommitTransaction: requires that a transaction has been begun. The source dereferences a nil `p.tx` there (`pkg/stomp/publisher.go:61`, `:66`).
- Publishing.Publisher.CommitTransactionIntended: requires that a transaction has been begun, for the same reason as `CommitTransaction`.
- Connections.ConnectionWrapper.Connect: requires that a successful dial not happen twice. The source would close an already-closed channel there.
- Subscribing.Subscriber.ReconnectLoop: requires a positive subscribing counter. `Subscribe` establishes this before it starts the loop.
- Subscribing.ConsumingLoop, Subscribing.Consume, Subscribing.Epoch, Subscribing.Reconnecting: their own contracts state only that the remaining events are no longer than the input, and nothing about the remaining broker replies (each call they make consumes exactly one reply, as the contracts of `NackMsg`, `AckMsg`, `SubscribeCall` and `HandleFrame` state). The lemmas `ConsumingLoopSuffix`, `EpochSuffix` and `ReconnectingSuffix` prove that what remains is a suffix of the input.
- Timing. The 100 ms back-off (`pkg/stomp/subscriber.go:73`) is the action `Backoff`. The per-message context (`pkg/stomp/subscriber.go:194-196`) is not modelled. The context of a subscription is the `CtxDone` event.
- Calls into go-stomp are parameters that carry their outcome: Dial, Subscribe, Unsubscribe, Ack, Nack, Send, BeginWithError, AbortWithReceipt, CommitWithReceipt, Disconnect. The frame header is assumed to be an ordered list of pairs. A closed subscription channel, which would yield nil frames, is not modelled. go-stomp is not part of this model.
- The outcome of the deferred UNSUBSCRIBE is only logged, so the model records the action and ignores the outcome.
- Logging, including the unconditional error log after UNSUBSCRIBE (`pkg/stomp/subscriber.go:92-93`).
- `handleConnectionClose` (`pkg/stomp/connection.go:104-111`) waits forever and does nothing else. `reconnect` (`pkg/stomp/connection.go:113-115`) is empty. Neither is modelled.
- The `Connection` and `Connected` accessors (`pkg/stomp/connection.go:87-93`) only return fields.
- The metadata capacity hint (`pkg/stomp/marshaler.go:46`) has no observable effect.
- Marshaling.DefaultMarshaler.UnMarshal: the error branch after `unmarshalMessageUUID` is not modelled, because that function never returns an error.
- A run that ends because its inputs ran out (exit `Starved`) shows a finite prefix of a loop that goes on.
- `pkg/jetstream/pubsub_stress_test.go` is not part of this model. It is an integration test of another package.

## Findings

| source | as written | input that shows it | evidently intended | confidence | as-written member | corrected member |
|---|---|---|---|---|---|---|
| pkg/stomp/marshaler.go:32-34 | The frame is built with a header only, so its body is empty; `publishMessage` then sends that empty body | any message with a non-empty payload, e.g. UUID "u", no metadata, payload [1]: decoding the encoded frame gives payload [] | the payload as the frame body, so that decoding gives back the whole message | high, not executed | Marshaling.MarshalRoundTrip | Marshaling.MarshalIntendedRoundTrip |
| pkg/stomp/publisher.go:60-66 | When a send error occurs and the abort succeeds, the code falls through to commit and returns commit's result | send error E, abort succeeds, commit succeeds: the transaction is aborted and then committed, and nil is returned | return E after a successful abort, without committing | medium, not executed | Publishing.AbortThenCommit | Publishing.Publisher.CommitTransactionIntended |
