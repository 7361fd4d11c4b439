/** Translation between watermill messages and STOMP frames. The metadata
    travels as frame headers, the message UUID as one more header under a
    configurable key. */
module Marshaling {
  import opened Base
  import opened Frame

  const DefaultMessageUUIDHeaderKey: string := "_watermill_message_uuid"

  /** The Marshaler interface the publisher and the subscriber are configured
      with: an encoder and a decoder, either of which may fail. */
  datatype Marshaler = Marshaler(
    marshal: Message -> Result<StompMessage>,
    unmarshal: StompMessage -> Result<Message>)

  /** `pairs` lists every entry of `metadata` exactly once, in some order. */
  ghost predicate Enumerates(pairs: seq<(string, string)>, metadata: map<string, string>)
  {
    && KeysOf(pairs) == metadata.Keys
    && (forall i :: 0 <= i < |pairs| ==> pairs[i].0 in metadata && metadata[pairs[i].0] == pairs[i].1)
    && (forall i, j :: 0 <= i < j < |pairs| ==> pairs[i].0 != pairs[j].0)
  }

  /** One more metadata entry keeps a partial enumeration exact. */
  lemma EnumerateOneMore(pairs: seq<(string, string)>, metadata: map<string, string>, key: string)
    requires forall i :: 0 <= i < |pairs| ==> pairs[i].0 in metadata && metadata[pairs[i].0] == pairs[i].1
    requires forall i, j :: 0 <= i < j < |pairs| ==> pairs[i].0 != pairs[j].0
    requires key in metadata && key !in KeysOf(pairs)
    ensures var more := pairs + [(key, metadata[key])];
            && KeysOf(more) == KeysOf(pairs) + {key}
            && (forall i :: 0 <= i < |more| ==> more[i].0 in metadata && metadata[more[i].0] == more[i].1)
            && (forall i, j :: 0 <= i < j < |more| ==> more[i].0 != more[j].0)
  {
    KeysOfAppend(pairs, (key, metadata[key]));
    forall i | 0 <= i < |pairs|
      ensures pairs[i].0 != key
    {
      assert pairs[i].0 in KeysOf(pairs);
    }
  }

  /** The header Marshal builds for `msg`: one pair per metadata entry, then
      the UUID under `uuidKey`. */
  ghost predicate EncodesHeader(uuidKey: string, msg: Message, h: Header)
  {
    var n := |msg.metadata|;
    && h.Len() == n + 1
    && Enumerates(h.pairs[..n], msg.metadata)
    && h.GetAt(n) == (uuidKey, msg.uuid)
  }

  /** The metadata the decoding loop builds from a header: every pair except
      those under `uuidKey`, a later pair overwriting an earlier one. */
  function MetadataOf(pairs: seq<(string, string)>, uuidKey: string): map<string, string>
  {
    if pairs == [] then map[]
    else
      var m := MetadataOf(pairs[..|pairs| - 1], uuidKey);
      var (key, value) := pairs[|pairs| - 1];
      if key == uuidKey then m else m[key := value]
  }

  datatype DefaultMarshaler = DefaultMarshaler(messageUUIDHeaderKey: string) {

    /** The header key that carries the UUID: the configured one, or the
        default when none is configured. Never empty. */
    function ComputeMessageUUIDHeaderKey(): (key: string)
      ensures key != ""
      ensures messageUUIDHeaderKey != "" ==> key == messageUUIDHeaderKey
      ensures messageUUIDHeaderKey == "" ==> key == DefaultMessageUUIDHeaderKey
    {
      if messageUUIDHeaderKey != "" then messageUUIDHeaderKey else DefaultMessageUUIDHeaderKey
    }

    /** Encodes a message as a frame. Metadata is visited in whatever order the
        map yields it. The frame body is never set. */
    method Marshal(msg: Message) returns (r: Result<StompMessage>)
      ensures r.Success?
      ensures EncodesHeader(ComputeMessageUUIDHeaderKey(), msg, r.value.header)
      ensures r.value.header.Len() == |msg.metadata| + 1
      ensures r.value.body == []
    {
      var header := Header([]);
      var pending := msg.metadata.Keys;
      while pending != {}
        invariant pending <= msg.metadata.Keys
        invariant |header.pairs| + |pending| == |msg.metadata.Keys|
        invariant KeysOf(header.pairs) == msg.metadata.Keys - pending
        invariant forall i :: 0 <= i < |header.pairs| ==>
                    header.pairs[i].0 in msg.metadata && msg.metadata[header.pairs[i].0] == header.pairs[i].1
        invariant forall i, j :: 0 <= i < j < |header.pairs| ==> header.pairs[i].0 != header.pairs[j].0
        decreases pending
      {
        var key :| key in pending;
        EnumerateOneMore(header.pairs, msg.metadata, key);
        header := header.Add(key, msg.metadata[key]);
        pending := pending - {key};
      }
      assert header.pairs == header.Add(ComputeMessageUUIDHeaderKey(), msg.uuid).pairs[..|msg.metadata|];
      header := header.Add(ComputeMessageUUIDHeaderKey(), msg.uuid);
      r := Success(StompMessage(header, []));
    }

    /** Marshal as evidently intended: the same header, and the payload as the
        frame body. */
    method MarshalIntended(msg: Message) returns (r: Result<StompMessage>)
      ensures r.Success?
      ensures EncodesHeader(ComputeMessageUUIDHeaderKey(), msg, r.value.header)
      ensures r.value.body == msg.payload
    {
      r := Marshal(msg);
      r := Success(r.value.(body := msg.payload));
    }

    /** The UUID a frame carries: the value of the first pair under the UUID
        key, or the empty string when there is none. Never fails. */
    function UnmarshalMessageUUID(stompMsg: StompMessage): (r: Result<string>)
      ensures r.Success?
      ensures ComputeMessageUUIDHeaderKey() !in KeysOf(stompMsg.header.pairs) ==> r.value == ""
      ensures forall i :: 0 <= i < |stompMsg.header.pairs| && stompMsg.header.pairs[i].0 == ComputeMessageUUIDHeaderKey()
                          && (forall j :: 0 <= j < i ==> stompMsg.header.pairs[j].0 != ComputeMessageUUIDHeaderKey())
                ==> r.value == stompMsg.header.pairs[i].1
    {
      var (msgUUID, hasMsgUUID) := stompMsg.header.Contains(ComputeMessageUUIDHeaderKey());
      if !hasMsgUUID then Success("") else Success(msgUUID)
    }

    /** The message UnMarshal decodes from a frame. */
    function Decoded(stompMsg: StompMessage): Message
    {
      Message(UnmarshalMessageUUID(stompMsg).value, stompMsg.body,
              MetadataOf(stompMsg.header.pairs, ComputeMessageUUIDHeaderKey()))
    }

    /** Decodes a frame: the UUID from its header, the body as payload, and
        every other header pair as metadata, visiting the pairs in order. */
    method UnMarshal(stompMsg: StompMessage) returns (r: Result<Message>)
      ensures r == Success(Decoded(stompMsg))
    {
      // unmarshalMessageUUID never fails, so its error branch is not modelled
      var msgUUID := UnmarshalMessageUUID(stompMsg).value;
      var uuidKey := ComputeMessageUUIDHeaderKey();
      var metadata: map<string, string> := map[];
      for i := 0 to stompMsg.header.Len()
        invariant metadata == MetadataOf(stompMsg.header.pairs[..i], uuidKey)
      {
        var (key, value) := stompMsg.header.GetAt(i);
        assert stompMsg.header.pairs[..i + 1][..i] == stompMsg.header.pairs[..i];
        if key == uuidKey {
          continue;
        }
        metadata := metadata[key := value];
      }
      assert stompMsg.header.pairs[..stompMsg.header.Len()] == stompMsg.header.pairs;
      r := Success(Message(msgUUID, stompMsg.body, metadata));
    }
  }

  /** Decoded metadata holds exactly the header keys other than the UUID key. */
  lemma {:induction false} MetadataOfKeys(pairs: seq<(string, string)>, uuidKey: string)
    ensures MetadataOf(pairs, uuidKey).Keys == KeysOf(pairs) - {uuidKey}
    decreases |pairs|
  {
    if pairs != [] {
      var init := pairs[..|pairs| - 1];
      MetadataOfKeys(init, uuidKey);
      assert pairs == init + [pairs[|pairs| - 1]];
      KeysOfAppend(init, pairs[|pairs| - 1]);
    }
  }

  /** When a key repeats, decoded metadata keeps the value of its last pair. */
  lemma {:induction false} MetadataOfLastWins(pairs: seq<(string, string)>, uuidKey: string, i: nat)
    requires i < |pairs| && pairs[i].0 != uuidKey
    requires forall j :: i < j < |pairs| ==> pairs[j].0 != pairs[i].0
    ensures pairs[i].0 in MetadataOf(pairs, uuidKey)
    ensures MetadataOf(pairs, uuidKey)[pairs[i].0] == pairs[i].1
    decreases |pairs|
  {
    if i < |pairs| - 1 {
      MetadataOfLastWins(pairs[..|pairs| - 1], uuidKey, i);
    }
  }

  /** The header round trip: decoding a header built by Marshal gives back the
      UUID and the metadata, provided the metadata does not use the UUID key. */
  lemma HeaderRoundTrip(d: DefaultMarshaler, msg: Message, h: Header, body: seq<byte>)
    requires EncodesHeader(d.ComputeMessageUUIDHeaderKey(), msg, h)
    requires d.ComputeMessageUUIDHeaderKey() !in msg.metadata
    ensures d.Decoded(StompMessage(h, body)) == Message(msg.uuid, body, msg.metadata)
  {
    var uuidKey := d.ComputeMessageUUIDHeaderKey();
    var n := |msg.metadata|;
    var entries := h.pairs[..n];
    assert h.pairs == entries + [(uuidKey, msg.uuid)];
    UUIDAfterEntries(uuidKey, msg.metadata, entries, msg.uuid);
    MetadataAfterEntries(uuidKey, msg.metadata, entries, msg.uuid);
  }

  lemma UUIDAfterEntries(uuidKey: string, metadata: map<string, string>, entries: seq<(string, string)>, uuid: string)
    requires Enumerates(entries, metadata) && uuidKey !in metadata
    ensures Header(entries + [(uuidKey, uuid)]).Contains(uuidKey) == (uuid, true)
  {
    var pairs := entries + [(uuidKey, uuid)];
    forall j | 0 <= j < |entries| ensures pairs[j].0 != uuidKey {
      assert pairs[j] == entries[j];
    }
    assert pairs[|entries|] == (uuidKey, uuid);
  }

  lemma MetadataAfterEntries(uuidKey: string, metadata: map<string, string>, entries: seq<(string, string)>, uuid: string)
    requires Enumerates(entries, metadata) && uuidKey !in metadata
    ensures MetadataOf(entries + [(uuidKey, uuid)], uuidKey) == metadata
  {
    var pairs := entries + [(uuidKey, uuid)];
    assert pairs[..|pairs| - 1] == entries;
    var decoded := MetadataOf(entries, uuidKey);
    MetadataOfKeys(entries, uuidKey);
    forall key | key in metadata
      ensures key in decoded && decoded[key] == metadata[key]
    {
      var i :| 0 <= i < |entries| && entries[i].0 == key;
      MetadataOfLastWins(entries, uuidKey, i);
    }
    assert decoded.Keys == metadata.Keys;
  }

  /** Round trip of Marshal as written: UUID and metadata come back, the
      payload does not (the decoded payload is always empty). */
  lemma MarshalRoundTrip(d: DefaultMarshaler, msg: Message, f: StompMessage)
    requires EncodesHeader(d.ComputeMessageUUIDHeaderKey(), msg, f.header) && f.body == []
    requires d.ComputeMessageUUIDHeaderKey() !in msg.metadata
    ensures d.Decoded(f) == Message(msg.uuid, [], msg.metadata)
    ensures msg.payload != [] ==> d.Decoded(f) != msg
  {
    HeaderRoundTrip(d, msg, f.header, f.body);
  }

  /** Round trip of the intended Marshal: the decoded message is the original. */
  lemma MarshalIntendedRoundTrip(d: DefaultMarshaler, msg: Message, f: StompMessage)
    requires EncodesHeader(d.ComputeMessageUUIDHeaderKey(), msg, f.header) && f.body == msg.payload
    requires d.ComputeMessageUUIDHeaderKey() !in msg.metadata
    ensures d.Decoded(f) == msg
  {
    HeaderRoundTrip(d, msg, f.header, f.body);
  }

  /** Why the round trip needs the UUID key to be absent from the metadata:
      otherwise the metadata value under that key is read back as the UUID,
      and the key is missing from the decoded metadata. */
  lemma ReservedKeyInMetadata(d: DefaultMarshaler, msg: Message, h: Header, body: seq<byte>)
    requires EncodesHeader(d.ComputeMessageUUIDHeaderKey(), msg, h)
    requires d.ComputeMessageUUIDHeaderKey() in msg.metadata
    ensures d.Decoded(StompMessage(h, body)).uuid == msg.metadata[d.ComputeMessageUUIDHeaderKey()]
    ensures d.ComputeMessageUUIDHeaderKey() !in d.Decoded(StompMessage(h, body)).metadata
  {
    var uuidKey := d.ComputeMessageUUIDHeaderKey();
    var n := |msg.metadata|;
    var entries := h.pairs[..n];
    assert uuidKey in KeysOf(entries);
    var i :| 0 <= i < n && entries[i].0 == uuidKey;
    forall j | 0 <= j < i ensures h.pairs[j].0 != uuidKey {
      assert entries[j].0 != entries[i].0;
    }
    assert h.Contains(uuidKey) == (h.pairs[i].1, true);
    MetadataOfKeys(h.pairs, uuidKey);
  }

  /** Decoding: the payload is the frame body, the UUID is empty when the UUID
      key is absent, and the UUID key never appears in the metadata. */
  lemma DecodedShape(d: DefaultMarshaler, f: StompMessage)
    ensures d.Decoded(f).payload == f.body
    ensures d.ComputeMessageUUIDHeaderKey() !in KeysOf(f.header.pairs) ==> d.Decoded(f).uuid == ""
    ensures d.Decoded(f).metadata.Keys == KeysOf(f.header.pairs) - {d.ComputeMessageUUIDHeaderKey()}
  {
    MetadataOfKeys(f.header.pairs, d.ComputeMessageUUIDHeaderKey());
  }
}
