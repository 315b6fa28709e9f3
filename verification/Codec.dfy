/** The wire format of broker packets, and the loops that fill and read it. */
module Codec {
  import opened Basics
  import opened Protocol

  /** Both texts of a message are session labels of at most 255 characters. */
  datatype BrokerMessage = BrokerMessage(action: Action, kind: Kind, name: Text, lbl: Text) {
    predicate Fits() { |name| <= MaxText && |lbl| <= MaxText }
  }

  const BufferSize := 1024

  function ActionCode(a: Action): Byte {
    match a
    case Request => 0
    case Confirm => 1
    case Reject => 2
    case Register => 3
  }

  function ActionOf(b: Byte): (a: Option<Action>)
    ensures a.Some? ==> ActionCode(a.value) == b
  {
    match b
    case 0 => Some(Request)
    case 1 => Some(Confirm)
    case 2 => Some(Reject)
    case 3 => Some(Register)
    case _ => None
  }

  function KindCode(k: Kind): Byte {
    match k
    case Message => 0
    case Log => 1
    case Memory => 2
    case Rom => 3
    case Timer => 4
  }

  function KindOf(b: Byte): (k: Option<Kind>)
    ensures k.Some? ==> KindCode(k.value) == b
  {
    match b
    case 0 => Some(Kind.Message)
    case 1 => Some(Log)
    case 2 => Some(Memory)
    case 3 => Some(Rom)
    case 4 => Some(Timer)
    case _ => None
  }

  function Bytes(t: Text): (bs: seq<Byte>)
    ensures |bs| == |t| && forall i :: 0 <= i < |t| ==> bs[i] == t[i] as int
  {
    seq(|t|, i requires 0 <= i < |t| => t[i] as int)
  }

  function Chars(bs: seq<Byte>): (t: Text)
    ensures |t| == |bs| && forall i :: 0 <= i < |bs| ==> t[i] == bs[i] as char
  {
    seq(|bs|, i requires 0 <= i < |bs| => bs[i] as char)
  }

  lemma CharsBytes(t: Text)
    ensures Chars(Bytes(t)) == t
  {
    var u := Chars(Bytes(t));
    forall i | 0 <= i < |t| ensures u[i] == t[i] { assert Bytes(t)[i] == t[i] as int; }
  }

  lemma BytesChars(bs: seq<Byte>)
    ensures Bytes(Chars(bs)) == bs
  {
    var cs := Bytes(Chars(bs));
    forall i | 0 <= i < |bs| ensures cs[i] == bs[i] { assert Chars(bs)[i] == bs[i] as char; }
  }

  /** Action, kind, name length and name, label length and label.  A text of
      length zero is absent. */
  function Encode(m: BrokerMessage): (bs: seq<Byte>)
    requires m.Fits()
    ensures |bs| == 4 + |m.name| + |m.lbl| <= BufferSize
  {
    [ActionCode(m.action), KindCode(m.kind), |m.name|] + Bytes(m.name) + [|m.lbl|] + Bytes(m.lbl)
  }

  /** The grammar, read from the front.  Reports how many bytes it used. */
  function Decode(bs: seq<Byte>): (r: Option<(BrokerMessage, nat)>)
    ensures r.Some? ==> r.value.0.Fits() && r.value.1 <= |bs|
  {
    if |bs| < 3 || ActionOf(bs[0]) == None || KindOf(bs[1]) == None then None
    else
      var n: int := bs[2];
      if |bs| < 4 + n then None
      else
        var l: int := bs[3 + n];
        if |bs| < 4 + n + l then None
        else
          Some((BrokerMessage(ActionOf(bs[0]).value, KindOf(bs[1]).value, Chars(bs[3..3 + n]), Chars(bs[4 + n..4 + n + l])),
                4 + n + l))
  }

  /** Reading what was written gives the message back, whatever follows. */
  lemma DecodeEncode(m: BrokerMessage, rest: seq<Byte>)
    requires m.Fits()
    ensures Decode(Encode(m) + rest) == Some((m, |Encode(m)|))
  {
    var bs := Encode(m) + rest;
    var n, l := |m.name|, |m.lbl|;
    assert bs[2] == n && bs[3 + n] == l;
    assert bs[3..3 + n] == Bytes(m.name);
    assert bs[4 + n..4 + n + l] == Bytes(m.lbl);
    CharsBytes(m.name);
    CharsBytes(m.lbl);
  }

  /** Every packet that parses is the encoding of what it parses to: the bytes
      used are exactly those that would be written. */
  lemma EncodeDecode(bs: seq<Byte>)
    requires Decode(bs).Some?
    ensures Encode(Decode(bs).value.0) == bs[..Decode(bs).value.1]
  {
    var n: int := bs[2];
    var l: int := bs[3 + n];
    BytesChars(bs[3..3 + n]);
    BytesChars(bs[4 + n..4 + n + l]);
    assert bs[..4 + n + l] == [bs[0], bs[1], n] + bs[3..3 + n] + [l] + bs[4 + n..4 + n + l];
  }

  /** No encoding is a proper prefix of another. */
  lemma PrefixFree(a: BrokerMessage, b: BrokerMessage)
    requires a.Fits() && b.Fits() && Encode(a) <= Encode(b)
    ensures a == b
  {
    var rest := Encode(b)[|Encode(a)|..];
    assert Encode(b) == Encode(a) + rest && Encode(b) == Encode(b) + [];
    DecodeEncode(a, rest);
    DecodeEncode(b, []);
  }

  /** A full receive buffer parses exactly if its first two bytes are an action
      and a kind: the longest message fits, so nothing else can go wrong. */
  lemma BufferParses(bs: seq<Byte>)
    requires |bs| == BufferSize
    ensures Decode(bs).Some? <==> bs[0] < 4 && bs[1] < 5
  {
  }

  /** The bytes of a packet, one by one: the position of the action and of the
      kind in their lists, the name behind its length, the label behind its own. */
  lemma WireFormat(m: BrokerMessage)
    requires m.Fits()
    ensures var bs, n := Encode(m), |m.name|;
            && |bs| == 4 + n + |m.lbl| <= 514
            && bs[0] == (match m.action case Request => 0 case Confirm => 1 case Reject => 2 case Register => 3)
            && bs[1] == (match m.kind case Message => 0 case Log => 1 case Memory => 2 case Rom => 3 case Timer => 4)
            && bs[2] == n && (forall i :: 0 <= i < n ==> bs[3 + i] == m.name[i] as int)
            && bs[3 + n] == |m.lbl| && (forall i :: 0 <= i < |m.lbl| ==> bs[4 + n + i] == m.lbl[i] as int)
  {
  }

  /* ---- The loops ---- */

  /** `Get`: copy payload bytes into a 255-character field and report the last
      index used.  Ada's index 1 is index 0 here, so `last` is a length; for an
      empty payload the code reports 1, and its caller skips the call. */
  method Get(data: seq<Byte>, field: array<Latin>) returns (last: nat)
    requires field.Length == MaxText && |data| <= MaxText
    modifies field
    ensures last == if data == [] then 1 else |data|
    ensures field[..|data|] == Chars(data)
    ensures field[|data|..] == old(field[|data|..])
  {
    var i := 0;
    for j := 0 to |data|
      invariant j < |data| ==> i == j
      invariant j == |data| ==> i == if data == [] then 0 else |data| - 1
      invariant forall k :: 0 <= k < j ==> field[k] == data[k] as char
      invariant forall k :: j <= k < MaxText ==> field[k] == old(field[k])
    {
      field[i] := data[j] as char;
      if i == field.Length - 1 || j == |data| - 1 {
        assert j == |data| - 1;
      } else {
        i := i + 1;
      }
    }
    last := i + 1;
  }

  /** `Set`: clear the payload, then copy the field into it. */
  method Set(field: Text, data: array<Byte>, at: nat)
    requires |field| > 0 && at + |field| <= data.Length
    modifies data
    ensures data[..at] == old(data[..at]) && data[at + |field|..] == old(data[at + |field|..])
    ensures data[at..at + |field|] == Bytes(field)
  {
    for j := 0 to |field|
      invariant forall k :: 0 <= k < at ==> data[k] == old(data[k])
      invariant forall k :: at + |field| <= k < data.Length ==> data[k] == old(data[k])
    {
      data[at + j] := 0;
    }
    var i := 0;
    for j := 0 to |field|
      invariant j < |field| ==> i == j
      invariant forall k :: 0 <= k < at ==> data[k] == old(data[k])
      invariant forall k :: at + |field| <= k < data.Length ==> data[k] == old(data[k])
      invariant forall k :: 0 <= k < j ==> data[at + k] == field[k] as int
    {
      data[at + j] := field[i] as int;
      if i != |field| - 1 && j != |field| - 1 {
        i := i + 1;
      }
    }
  }

  /** `Send`: build the packet in the buffer and hand over its first bytes. */
  method Write(m: BrokerMessage, buffer: array<Byte>) returns (length: nat)
    requires m.Fits() && buffer.Length == BufferSize
    modifies buffer
    ensures length == |Encode(m)| && buffer[..length] == Encode(m)
  {
    var n, l := |m.name|, |m.lbl|;
    buffer[0], buffer[1], buffer[2] := ActionCode(m.action), KindCode(m.kind), n;
    if n > 0 {
      Set(m.name, buffer, 3);
    }
    assert buffer[..3] == [ActionCode(m.action), KindCode(m.kind), n] && buffer[3..3 + n] == Bytes(m.name);
    ghost var head := buffer[..3 + n];
    assert head == [ActionCode(m.action), KindCode(m.kind), n] + Bytes(m.name);
    buffer[3 + n] := l;
    assert buffer[..4 + n] == head + [l];
    if l > 0 {
      Set(m.lbl, buffer, 4 + n);
    }
    length := 4 + n + l;
    assert buffer[..length] == buffer[..4 + n] + buffer[4 + n..length];
    assert buffer[4 + n..length] == Bytes(m.lbl);
  }

  /** `Receive`: parse the whole buffer, then copy the two texts out. */
  method Read(buffer: array<Byte>) returns (m: Option<BrokerMessage>)
    requires buffer.Length == BufferSize
    ensures m.Some? <==> Decode(buffer[..]).Some?
    ensures m.Some? ==> m.value == Decode(buffer[..]).value.0
  {
    var bs := buffer[..];
    if ActionOf(bs[0]) == None || KindOf(bs[1]) == None {
      return None;
    }
    var n: int := bs[2];
    var name, lbl: Text := [], [];
    if n > 0 {
      var field := new Latin[MaxText](_ => '\0');
      var last := Get(bs[3..3 + n], field);
      name := field[..last];
    }
    var l: int := bs[3 + n];
    if l > 0 {
      var field := new Latin[MaxText](_ => '\0');
      var last := Get(bs[4 + n..4 + n + l], field);
      lbl := field[..last];
    }
    m := Some(BrokerMessage(ActionOf(bs[0]).value, KindOf(bs[1]).value, name, lbl));
  }
}
