/** The library types the adapter works on. The STOMP client library
    (go-stomp) is not part of this model; its frame header is taken to be an
    ordered list of key/value pairs in which `Add` appends, `Contains` returns
    the first pair with the key, and `GetAt`/`Len` index the list. */
module Frame {
  import opened Base

  /** Index of the first pair whose key is `key`, or |pairs| when there is none. */
  function FirstIndexOf(pairs: seq<(string, string)>, key: string): (i: nat)
    ensures i <= |pairs|
    ensures i < |pairs| ==> pairs[i].0 == key
    ensures forall j :: 0 <= j < i ==> pairs[j].0 != key
  {
    if pairs == [] then 0
    else if pairs[0].0 == key then 0
    else 1 + FirstIndexOf(pairs[1..], key)
  }

  /** The keys that occur in a list of pairs. */
  function KeysOf(pairs: seq<(string, string)>): set<string>
  {
    set i | 0 <= i < |pairs| :: pairs[i].0
  }

  lemma KeysOfAppend(pairs: seq<(string, string)>, pair: (string, string))
    ensures KeysOf(pairs + [pair]) == KeysOf(pairs) + {pair.0}
  {
    var extended := pairs + [pair];
    assert extended[|pairs|].0 == pair.0;
    forall key | key in KeysOf(pairs) ensures key in KeysOf(extended) {
      var i :| 0 <= i < |pairs| && pairs[i].0 == key;
      assert extended[i].0 == key;
    }
  }

  /** frame.Header */
  datatype Header = Header(pairs: seq<(string, string)>) {

    function Len(): nat
    {
      |pairs|
    }

    function Add(key: string, value: string): (h: Header)
      ensures h.Len() == Len() + 1
      ensures h.pairs[..Len()] == pairs && h.GetAt(Len()) == (key, value)
    {
      Header(pairs + [(key, value)])
    }

    function GetAt(i: nat): (string, string)
      requires i < Len()
    {
      pairs[i]
    }

    /** The value of the first pair with this key, and whether there is one. */
    function Contains(key: string): (r: (string, bool))
      ensures r.1 <==> key in KeysOf(pairs)
      ensures !r.1 ==> r.0 == ""
      ensures forall i :: 0 <= i < |pairs| && pairs[i].0 == key && (forall j :: 0 <= j < i ==> pairs[j].0 != key)
                ==> r == (pairs[i].1, true)
    {
      var i := FirstIndexOf(pairs, key);
      if i < |pairs| then (pairs[i].1, true) else ("", false)
    }
  }

  /** stomp.Message: the header and the body of a frame. */
  datatype StompMessage = StompMessage(header: Header, body: seq<byte>)

  /** message.Message of watermill: identity, payload and metadata. */
  datatype Message = Message(uuid: string, payload: seq<byte>, metadata: map<string, string>)

  /** The acknowledgment modes of a STOMP SUBSCRIBE. */
  datatype AckMode = AckAuto | AckClient | AckClientIndividual
}
