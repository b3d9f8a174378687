/** The wire format of comm/comm.c: a 14-byte big-endian header followed by at
    most 512 body bytes, and the meaning of a byte stream as a list of packets. */
module Wire {
  type Byte = b: int | 0 <= b < 256
  type Bytes = seq<Byte>
  type U32 = v: int | 0 <= v < 0x1_0000_0000

  /** A C string: the bytes before the terminating NUL. */
  type CStr = s: Bytes | 0 !in s

  const HEADER_SIZE := 14
  const BODY_MAX := 512
  const USERNAME_MAX := 32
  const PROTOCOL_VERSION: Byte := 1

  const JOIN: Byte := 1
  const TEXT: Byte := 2
  const LEAVE: Byte := 3
  const ACK: Byte := 4
  const ERROR: Byte := 5

  datatype Option<+T> = None | Some(value: T)

  /** NsPacket; the header's body_len is the length of `body`. */
  datatype Packet = Packet(version: Byte, kind: Byte, sender: U32, stamp: U32, body: Bytes)

  predicate KnownKind(kind: Byte) {
    kind == JOIN || kind == TEXT || kind == LEAVE || kind == ACK || kind == ERROR
  }

  predicate WellFormed(p: Packet) {
    p.version == PROTOCOL_VERSION && KnownKind(p.kind) && |p.body| <= BODY_MAX
  }

  /** What a C string function sees of a NUL-terminated buffer holding `b`. */
  function CString(b: Bytes): (s: CStr)
    ensures s <= b && |s| <= |b|
    ensures |s| < |b| ==> b[|s|] == 0
  {
    if b == [] || b[0] == 0 then [] else [b[0]] + CString(b[1..])
  }

  /** A string without NUL is seen whole. */
  lemma {:induction false} WholeCString(s: CStr)
    ensures CString(s) == s
  {
    if s != [] {
      assert s[0] != 0;
      WholeCString(s[1..]);
    }
  }

  function Ascii(s: string): (r: CStr)
    ensures |r| == |s| && forall i | 0 <= i < |s| && 0 < s[i] as int < 128 :: r[i] == s[i] as int
  {
    seq(|s|, i requires 0 <= i < |s| => if 0 < s[i] as int < 256 then s[i] as int else 63)
  }

  /** ns_packet_set on a C string body. */
  function PacketSet(kind: Byte, sender: U32, stamp: U32, text: CStr): (r: Option<Packet>)
    ensures r.None? <==> |text| > BODY_MAX
    ensures r.Some? && KnownKind(kind) ==> WellFormed(r.value)
  {
    if |text| > BODY_MAX then None else Some(Packet(PROTOCOL_VERSION, kind, sender, stamp, text))
  }

  function StoreU32(v: U32): (b: Bytes)
    ensures |b| == 4
  {
    [v / 0x100_0000, v / 0x1_0000 % 256, v / 0x100 % 256, v % 256]
  }

  function LoadU32(b: Bytes): U32
    requires |b| == 4
  {
    b[0] as int * 0x100_0000 + b[1] as int * 0x1_0000 + b[2] as int * 0x100 + b[3]
  }

  lemma LoadStore(v: U32)
    ensures LoadU32(StoreU32(v)) == v
  {
    assert v / 0x100 == v / 0x1_0000 * 256 + v / 0x100 % 256;
    assert v / 0x1_0000 == v / 0x100_0000 * 256 + v / 0x1_0000 % 256;
  }

  lemma StoreLoad(b: Bytes)
    requires |b| == 4
    ensures StoreU32(LoadU32(b)) == b
  {
    var v := LoadU32(b);
    assert v / 0x100 == b[0] as int * 0x1_0000 + b[1] as int * 0x100 + b[2];
    assert v / 0x1_0000 == b[0] as int * 0x100 + b[1];
  }

  /** Byte i of a packet on the wire. */
  function WireByte(p: Packet, i: nat): Byte
    requires i < HEADER_SIZE + |p.body|
  {
    if i == 0 then p.version
    else if i == 1 then p.kind
    else if i < 6 then StoreU32(p.sender)[i - 2]
    else if i < 10 then StoreU32(p.stamp)[i - 6]
    else if i < 14 then StoreU32(|p.body| % 0x1_0000_0000)[i - 10]
    else p.body[i - 14]
  }

  function Encode(p: Packet): (b: Bytes)
    ensures |b| == HEADER_SIZE + |p.body|
  {
    seq(HEADER_SIZE + |p.body|, i requires 0 <= i < HEADER_SIZE + |p.body| => WireByte(p, i))
  }

  function EncodeAll(ps: seq<Packet>): Bytes {
    if ps == [] then [] else EncodeAll(ps[..|ps| - 1]) + Encode(ps[|ps| - 1])
  }

  lemma WordBytes(v: U32)
    ensures StoreU32(v) == [v / 16777216, v / 65536 % 256, v / 256 % 256, v % 256]
  {
  }

  /** Where each byte of a packet goes: version, type, and three 32-bit fields with
      the most significant byte first, then the body. */
  lemma EncodedBytes(p: Packet, k: nat)
    requires |p.body| <= 512
    ensures var b := Encode(p);
      && |b| == 14 + |p.body| && b[0] == p.version && b[1] == p.kind
      && b[2..6] == [p.sender / 16777216, p.sender / 65536 % 256, p.sender / 256 % 256, p.sender % 256]
      && b[6..10] == [p.stamp / 16777216, p.stamp / 65536 % 256, p.stamp / 256 % 256, p.stamp % 256]
      && b[10..14] == [0, 0, |p.body| / 256, |p.body| % 256]
      && (k < |p.body| ==> b[14 + k] == p.body[k])
  {
    EncodedFields(p, Encode(p));
    WordBytes(p.sender);
    WordBytes(p.stamp);
    WordBytes(|p.body|);
  }

  /** How a stream stops once its bytes are used up. */
  datatype Ending = PeerClosed | PeerFailed

  datatype Decoded = Ok(packet: Packet, rest: Bytes) | Eof | Err

  /** ns_recv_packet on the bytes still to arrive; Eof is its 0 and Err its -1. */
  function Decode(s: Bytes, ending: Ending): Decoded {
    if |s| < HEADER_SIZE then
      if s == [] && ending.PeerClosed? then Eof else Err
    else if s[0] != PROTOCOL_VERSION || !KnownKind(s[1]) then Err
    else
      var n := LoadU32(s[10..14]);
      if n > BODY_MAX then Err
      else if |s| < HEADER_SIZE + n then
        if |s| == HEADER_SIZE && ending.PeerClosed? then Eof else Err
      else
        Ok(Packet(s[0], s[1], LoadU32(s[2..6]), LoadU32(s[6..10]), s[14..14 + n]), s[14 + n..])
  }

  /** Every packet the blocking receive loop gets before its first failure. */
  function DecodeAll(s: Bytes, ending: Ending): seq<Packet>
    decreases |s|
  {
    match Decode(s, ending)
    case Ok(p, rest) => [p] + DecodeAll(rest, ending)
    case _ => []
  }

  /** The result that ends the receive loop. */
  function LastWord(s: Bytes, ending: Ending): Decoded
    decreases |s|
  {
    match Decode(s, ending)
    case Ok(_, rest) => LastWord(rest, ending)
    case stop => stop
  }

  /** Where the fields lie in any stream that starts like an encoded packet. */
  lemma EncodedFields(p: Packet, s: Bytes)
    requires HEADER_SIZE <= |s| && forall i :: 0 <= i < HEADER_SIZE ==> s[i] == Encode(p)[i]
    ensures s[0] == p.version && s[1] == p.kind
    ensures s[2..6] == StoreU32(p.sender) && s[6..10] == StoreU32(p.stamp)
    ensures s[10..14] == StoreU32(|p.body| % 0x1_0000_0000)
  {
  }

  lemma BodyLength(p: Packet, s: Bytes)
    requires WellFormed(p) && HEADER_SIZE <= |s| && s[10..14] == StoreU32(|p.body| % 0x1_0000_0000)
    ensures LoadU32(s[10..14]) == |p.body|
  {
    LoadStore(|p.body|);
  }

  lemma DecodeEncode(p: Packet, rest: Bytes, ending: Ending)
    requires WellFormed(p)
    ensures Decode(Encode(p) + rest, ending) == Ok(p, rest)
  {
    var s := Encode(p) + rest;
    EncodedFields(p, s);
    LoadStore(p.sender);
    LoadStore(p.stamp);
    BodyLength(p, s);
    assert s[14..14 + |p.body|] == p.body;
    assert s[14 + |p.body|..] == rest;
  }

  /** The decoder accepts nothing but encodings of well-formed packets. */
  lemma EncodeDecode(s: Bytes, ending: Ending)
    requires Decode(s, ending).Ok?
    ensures var d := Decode(s, ending); WellFormed(d.packet) && s == Encode(d.packet) + d.rest
  {
    var d := Decode(s, ending);
    var p := d.packet;
    StoreLoad(s[2..6]);
    StoreLoad(s[6..10]);
    StoreLoad(s[10..14]);
    forall i | 0 <= i < |Encode(p)| ensures Encode(p)[i] == s[i] {
      SameByte(p, s, i);
    }
    assert s == s[..|Encode(p)|] + s[|Encode(p)|..];
  }

  lemma Untruncated(n: nat)
    requires n < 0x1_0000_0000
    ensures n % 0x1_0000_0000 == n
  {
  }

  lemma SameByte(p: Packet, s: Bytes, i: nat)
    requires HEADER_SIZE + |p.body| <= |s| && i < HEADER_SIZE + |p.body|
    requires p.version == s[0] && p.kind == s[1] && |p.body| < 0x1_0000_0000
    requires StoreU32(p.sender) == s[2..6] && StoreU32(p.stamp) == s[6..10] && StoreU32(|p.body|) == s[10..14]
    requires p.body == s[14..14 + |p.body|]
    ensures Encode(p)[i] == s[i]
  {
    if 2 <= i < 6 {
      assert WireByte(p, i) == StoreU32(p.sender)[i - 2] == s[2..6][i - 2];
    } else if 6 <= i < 10 {
      assert WireByte(p, i) == StoreU32(p.stamp)[i - 6] == s[6..10][i - 6];
    } else if 10 <= i < 14 {
      Untruncated(|p.body|);
      assert WireByte(p, i) == StoreU32(|p.body| % 0x1_0000_0000)[i - 10];
      assert s[10..14][i - 10] == s[i];
    }
  }

  /** A packet is accepted exactly if its header is complete, has version 1, a type
      from 1 to 5 and a body length of at most 512, most significant byte first, and
      the body is complete. */
  lemma AcceptsExactly(s: Bytes, ending: Ending)
    ensures Decode(s, ending).Ok? <==>
      && |s| >= 14 && s[0] == 1 && 1 <= s[1] <= 5
      && var n := s[10] as int * 16777216 + s[11] as int * 65536 + s[12] as int * 256 + s[13] as int;
         n <= 512 && |s| >= 14 + n
  {
  }

  predicate BareHeader(s: Bytes) {
    |s| == HEADER_SIZE && s[0] == PROTOCOL_VERSION && KnownKind(s[1]) && 0 < LoadU32(s[10..14]) <= BODY_MAX
  }

  /** A clean close is reported before a header, and also right after the
      header of a packet whose body never came. */
  lemma EofExactly(s: Bytes, ending: Ending)
    ensures Decode(s, ending) == Eof <==> ending.PeerClosed? && (s == [] || BareHeader(s))
  {
  }

  lemma TakeOfSum<T>(a: seq<T>, b: seq<T>, n: nat)
    requires n <= |a| + |b|
    ensures (a + b)[..n] == if n < |a| then a[..n] else a + b[..n - |a|]
  {
  }

  lemma Regroup<T>(a: seq<T>, b: seq<T>, c: seq<T>)
    ensures (a + b) + c == a + (b + c)
  {
  }

  lemma SplitLast<T>(a: seq<T>, b: seq<T>)
    requires b != []
    ensures a + b == (a + b[..|b| - 1]) + [b[|b| - 1]]
  {
  }

  lemma EncodeAllSnoc(ps: seq<Packet>, p: Packet)
    ensures EncodeAll(ps + [p]) == EncodeAll(ps) + Encode(p)
  {
    assert (ps + [p])[..|ps + [p]| - 1] == ps;
  }

  lemma {:induction false} EncodeAllAppend(ps: seq<Packet>, qs: seq<Packet>)
    ensures EncodeAll(ps + qs) == EncodeAll(ps) + EncodeAll(qs)
  {
    if qs == [] {
      assert ps + qs == ps;
    } else {
      var init, last := qs[..|qs| - 1], qs[|qs| - 1];
      EncodeAllAppend(ps, init);
      EncodeAllSnoc(ps + init, last);
      EncodeAllSnoc(init, last);
      assert ps + qs == (ps + init) + [last] && qs == init + [last];
      Regroup(EncodeAll(ps), EncodeAll(init), Encode(last));
    }
  }

  lemma EncodeAllFront(ps: seq<Packet>)
    requires ps != []
    ensures EncodeAll(ps) == Encode(ps[0]) + EncodeAll(ps[1..])
  {
    EncodeAllAppend([ps[0]], ps[1..]);
    assert [ps[0]] + ps[1..] == ps;
    assert [ps[0]][..0] == [];
  }

  /** Decoding undoes encoding for any list of packets, and then sees the end. */
  lemma {:induction false} StreamRoundTrip(ps: seq<Packet>, ending: Ending)
    requires forall p | p in ps :: WellFormed(p)
    ensures DecodeAll(EncodeAll(ps), ending) == ps
    ensures LastWord(EncodeAll(ps), ending) == if ending.PeerClosed? then Eof else Err
  {
    if ps != [] {
      EncodeAllFront(ps);
      DecodeEncode(ps[0], EncodeAll(ps[1..]), ending);
      StreamRoundTrip(ps[1..], ending);
    }
  }

  /** A packet cut short is never decoded. */
  lemma TornPacket(p: Packet, s: Bytes, ending: Ending)
    requires WellFormed(p) && s < Encode(p)
    ensures !Decode(s, ending).Ok?
  {
    if |s| >= HEADER_SIZE {
      var whole := Encode(p);
      assert forall i :: 0 <= i < HEADER_SIZE ==> s[i] == whole[i];
      EncodedFields(p, s);
      BodyLength(p, s);
    }
  }

  lemma PrefixCons<T>(x: T, a: seq<T>, b: seq<T>)
    ensures a <= b ==> [x] + a <= [x] + b
  {
  }

  lemma DecodeAllFront(p: Packet, rest: Bytes, ending: Ending)
    requires WellFormed(p)
    ensures DecodeAll(Encode(p) + rest, ending) == [p] + DecodeAll(rest, ending)
  {
    DecodeEncode(p, rest, ending);
  }

  /** However much of an encoded packet list has arrived, the packets read from
      it are the first ones of the list: none torn, lost or out of order. */
  lemma {:induction false} PrefixDecodesToPrefix(ps: seq<Packet>, s: Bytes, ending: Ending)
    requires forall p | p in ps :: WellFormed(p)
    requires s <= EncodeAll(ps)
    ensures DecodeAll(s, ending) <= ps
    ensures s == EncodeAll(ps) ==> DecodeAll(s, ending) == ps
  {
    if ps != [] {
      var p, tail := ps[0], EncodeAll(ps[1..]);
      EncodeAllFront(ps);
      TakeOfSum(Encode(p), tail, |s|);
      if |s| < |Encode(p)| {
        assert s < Encode(p);
        TornPacket(p, s, ending);
      } else {
        var rest := tail[..|s| - |Encode(p)|];
        assert s == Encode(p) + rest;
        DecodeAllFront(p, rest, ending);
        PrefixDecodesToPrefix(ps[1..], rest, ending);
        PrefixCons(p, DecodeAll(rest, ending), ps[1..]);
        assert ps == [p] + ps[1..];
      }
    }
  }
}
