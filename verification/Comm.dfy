/** The exact-length loops and packet I/O of comm/comm.c over a blocking socket.
    Each send() and recv() moves an arbitrary number of bytes. */
module Comm {
  import opened Wire

  class Socket {
    var outbox: Bytes   // bytes the kernel has taken so far
    var inbox: Bytes    // bytes that will still arrive
    var ending: Ending  // what recv() answers after them

    constructor (inbox: Bytes, ending: Ending)
      ensures this.outbox == [] && this.inbox == inbox && this.ending == ending
    {
      this.outbox, this.inbox, this.ending := [], inbox, ending;
    }

    /** send(): any number of bytes up to all of them, or a failure. */
    method Send(buffer: array<Byte>, from: nat, want: nat) returns (n: int)
      requires from + want <= buffer.Length && want > 0
      modifies this`outbox
      ensures n <= want
      ensures outbox == old(outbox) + if n > 0 then buffer[from..from + n] else []
    {
      n :| -1 <= n <= want;
      if n > 0 {
        outbox := outbox + buffer[from..from + n];
      }
    }

    /** recv(): any number of the waiting bytes, at least one if there are any. */
    method Recv(buffer: array<Byte>, from: nat, want: nat) returns (n: int)
      requires from + want <= buffer.Length && want > 0
      modifies this`inbox, buffer
      ensures old(inbox) == [] ==> n == if ending.PeerClosed? then 0 else -1
      ensures old(inbox) != [] ==> 0 < n <= want && n <= |old(inbox)|
      ensures inbox == old(inbox[if n > 0 then n else 0..])
      ensures forall k :: 0 <= k < buffer.Length ==>
        buffer[k] == if from <= k < from + n then old(inbox)[k - from] else old(buffer[k])
    {
      if inbox == [] {
        return if ending.PeerClosed? then 0 else -1;
      }
      var most := if want <= |inbox| then want else |inbox|;
      n :| 1 <= n <= most;
      forall k | 0 <= k < n {
        buffer[from + k] := inbox[k];
      }
      inbox := inbox[n..];
    }
  }

  lemma TakeMore(b: Bytes, from: nat, n: nat, more: nat)
    requires from + n + more <= |b|
    ensures b[from..][..n] + b[from + n..from + n + more] == b[from..][..n + more]
  {
  }

  /** ns_send_all */
  method SendAll(socket: Socket, buffer: array<Byte>, from: nat, size: nat) returns (status: int)
    requires from + size <= buffer.Length
    modifies socket`outbox
    ensures status == 0 || status == -1
    ensures status == 0 ==> socket.outbox == old(socket.outbox) + buffer[from..from + size]
    ensures status == -1 ==> exists n :: 0 <= n < size && socket.outbox == old(socket.outbox) + buffer[from..][..n]
  {
    var totalSent := 0;
    while totalSent < size
      invariant totalSent <= size
      invariant socket.outbox == old(socket.outbox) + buffer[from..][..totalSent]
    {
      assert buffer[..][from..] == buffer[from..];
      var sentNow := socket.Send(buffer, from + totalSent, size - totalSent);
      if sentNow <= 0 {
        assert socket.outbox == old(socket.outbox) + buffer[from..][..totalSent];
        return -1;
      }
      TakeMore(buffer[..], from, totalSent, sentNow);
      totalSent := totalSent + sentNow;
    }
    assert buffer[from..][..size] == buffer[from..from + size];
    return 0;
  }

  /** ns_recv_all */
  method RecvAll(socket: Socket, buffer: array<Byte>, size: nat) returns (status: int)
    requires size <= buffer.Length
    modifies socket`inbox, buffer
    ensures status == 1 <==> |old(socket.inbox)| >= size
    ensures status == 1 ==> buffer[..size] == old(socket.inbox)[..size] && socket.inbox == old(socket.inbox)[size..]
    ensures status == 0 <==> size > 0 && old(socket.inbox) == [] && socket.ending.PeerClosed?
    ensures status == 1 || status == 0 || status == -1
  {
    var totalReceived := 0;
    while totalReceived < size
      invariant totalReceived <= size && totalReceived <= |old(socket.inbox)|
      invariant socket.inbox == old(socket.inbox)[totalReceived..]
      invariant buffer[..totalReceived] == old(socket.inbox)[..totalReceived]
    {
      ghost var had := buffer[..totalReceived];
      var receivedNow := socket.Recv(buffer, totalReceived, size - totalReceived);
      if receivedNow == 0 {
        return if totalReceived == 0 then 0 else -1;
      }
      if receivedNow < 0 {
        return -1;
      }
      assert buffer[..totalReceived] == had;
      totalReceived := totalReceived + receivedNow;
    }
    return 1;
  }

  /** The header bytes, stored field by field. */
  method FillHeader(buffer: array<Byte>, p: Packet)
    requires buffer.Length >= HEADER_SIZE
    modifies buffer
    ensures buffer[..HEADER_SIZE] == Encode(p)[..HEADER_SIZE]
    ensures buffer[HEADER_SIZE..] == old(buffer[HEADER_SIZE..])
  {
    buffer[0] := p.version;
    buffer[1] := p.kind;
    Store(buffer, 2, p.sender);
    Store(buffer, 6, p.stamp);
    Store(buffer, 10, |p.body| % 0x1_0000_0000);
  }

  /** ns_store_u32 */
  method Store(buffer: array<Byte>, at: nat, v: U32)
    requires at + 4 <= buffer.Length
    modifies buffer
    ensures forall k :: 0 <= k < buffer.Length ==>
      buffer[k] == if at <= k < at + 4 then StoreU32(v)[k - at] else old(buffer[k])
  {
    var bytes := StoreU32(v);
    forall k | 0 <= k < 4 {
      buffer[at + k] := bytes[k];
    }
  }

  /** memcpy of a body. */
  method CopyBody(buffer: array<Byte>, at: nat, body: Bytes)
    requires at + |body| <= buffer.Length
    modifies buffer
    ensures buffer[..at] == old(buffer[..at]) && buffer[at..at + |body|] == body
  {
    forall k | 0 <= k < |body| {
      buffer[at + k] := body[k];
    }
  }

  /** The wire image of a packet in a local buffer, as the server builds it. */
  method Serialize(p: Packet) returns (wire: array<Byte>, len: nat)
    requires |p.body| <= BODY_MAX
    ensures fresh(wire) && len == HEADER_SIZE + |p.body| <= wire.Length && wire[..len] == Encode(p)
  {
    wire := new Byte[HEADER_SIZE + BODY_MAX](_ => 0);
    FillHeader(wire, p);
    len := HEADER_SIZE;
    ghost var header := wire[..HEADER_SIZE];
    if |p.body| > 0 {
      CopyBody(wire, len, p.body);
      len := len + |p.body|;
    }
    assert wire[..len] == header + p.body;
    HeaderBody(p);
  }

  lemma HeaderBody(p: Packet)
    ensures Encode(p) == Encode(p)[..HEADER_SIZE] + p.body
  {
  }

  method SendHeader(socket: Socket, p: Packet) returns (status: int)
    modifies socket`outbox
    ensures status == 0 || status == -1
    ensures status == 0 ==> socket.outbox == old(socket.outbox) + Encode(p)[..HEADER_SIZE]
    ensures status == -1 ==> exists n :: 0 <= n < HEADER_SIZE && socket.outbox == old(socket.outbox) + Encode(p)[..n]
  {
    ghost var wire := Encode(p);
    var header := new Byte[HEADER_SIZE](_ => 0);
    FillHeader(header, p);
    assert header[0..] == header[..] == wire[..HEADER_SIZE];
    status := SendAll(socket, header, 0, HEADER_SIZE);
    if status != 0 {
      ghost var n :| 0 <= n < HEADER_SIZE && socket.outbox == old(socket.outbox) + header[0..][..n];
      assert header[0..][..n] == wire[..n];
    }
  }

  method SendBody(socket: Socket, p: Packet) returns (status: int)
    requires |p.body| <= BODY_MAX
    modifies socket`outbox
    ensures status == 0 || status == -1
    ensures status == 0 ==> socket.outbox == old(socket.outbox) + p.body
    ensures status == -1 ==> exists n :: 0 <= n < |p.body| && socket.outbox == old(socket.outbox) + p.body[..n]
  {
    var body := new Byte[BODY_MAX](_ => 0);
    CopyBody(body, 0, p.body);
    status := SendAll(socket, body, 0, |p.body|);
    if status != 0 {
      ghost var n :| 0 <= n < |p.body| && socket.outbox == old(socket.outbox) + body[0..][..n];
      assert body[0..][..n] == p.body[..n];
    }
  }

  /** ns_send_packet on a valid socket. A failure leaves a proper prefix behind. */
  method SendPacket(socket: Socket, p: Packet) returns (status: int)
    modifies socket`outbox
    ensures |p.body| > BODY_MAX ==> status == -1 && socket.outbox == old(socket.outbox)
    ensures status == 0 ==> socket.outbox == old(socket.outbox) + Encode(p)
    ensures status != 0 ==> status == -1 && exists n :: 0 <= n < |Encode(p)| && socket.outbox == old(socket.outbox) + Encode(p)[..n]
  {
    ghost var wire := Encode(p);
    if |p.body| > BODY_MAX {
      assert socket.outbox == old(socket.outbox) + wire[..0];
      return -1;
    }
    status := SendHeader(socket, p);
    if status != 0 {
      return -1;
    }
    if |p.body| == 0 {
      assert wire[..HEADER_SIZE] == wire;
      return 0;
    }
    ghost var sent := socket.outbox;
    status := SendBody(socket, p);
    HeaderBody(p);
    if status == 0 {
      Regroup(old(socket.outbox), wire[..HEADER_SIZE], p.body);
    } else {
      ghost var n :| 0 <= n < |p.body| && socket.outbox == sent + p.body[..n];
      Regroup(old(socket.outbox), wire[..HEADER_SIZE], p.body[..n]);
      TakeOfSum(wire[..HEADER_SIZE], p.body, HEADER_SIZE + n);
    }
  }

  /** ns_recv_packet on a valid socket; p is meaningful when the status is 1. */
  method RecvPacket(socket: Socket) returns (status: int, p: Packet)
    modifies socket`inbox
    ensures match Decode(old(socket.inbox), socket.ending)
      case Ok(q, rest) => status == 1 && p == q && socket.inbox == rest
      case Eof => status == 0
      case Err => status == -1
  {
    p := Packet(0, 0, 0, 0, []);
    ghost var s := socket.inbox;
    var header := new Byte[HEADER_SIZE](_ => 0);
    status := RecvAll(socket, header, HEADER_SIZE);
    if status <= 0 {
      return;
    }
    assert forall k :: 0 <= k < HEADER_SIZE ==> header[k] == header[..HEADER_SIZE][k] == s[k];
    if header[0] != PROTOCOL_VERSION {
      return -1, p;
    }
    if !KnownKind(header[1]) {
      return -1, p;
    }
    var bodyLen := LoadU32(header[10..14]);
    assert header[10..14] == s[10..14] && header[2..6] == s[2..6] && header[6..10] == s[6..10];
    if bodyLen > BODY_MAX {
      return -1, p;
    }
    p := Packet(header[0], header[1], LoadU32(header[2..6]), LoadU32(header[6..10]), []);
    if bodyLen == 0 {
      assert s[14..14] == [];
      return 1, p;
    }
    var body := new Byte[BODY_MAX + 1](_ => 0);
    status := RecvAll(socket, body, bodyLen);
    if status <= 0 {
      return;
    }
    p := p.(body := body[..bodyLen]);
    assert s[14..][..bodyLen] == s[14..14 + bodyLen] && s[14..][bodyLen..] == s[14 + bodyLen..];
  }

  /** The reading loop of ns_client_receive_loop: all packets up to the first
      status that is not positive. */
  method ReceiveAll(socket: Socket) returns (packets: seq<Packet>, last: int)
    modifies socket`inbox
    ensures packets == DecodeAll(old(socket.inbox), socket.ending)
    ensures last == if LastWord(old(socket.inbox), socket.ending).Eof? then 0 else -1
  {
    packets := [];
    last := 1;
    while true
      invariant packets + DecodeAll(socket.inbox, socket.ending) == DecodeAll(old(socket.inbox), socket.ending)
      invariant LastWord(socket.inbox, socket.ending) == LastWord(old(socket.inbox), socket.ending)
      decreases |socket.inbox|
    {
      ghost var s := socket.inbox;
      var p: Packet;
      last, p := RecvPacket(socket);
      if last <= 0 {
        assert DecodeAll(s, socket.ending) == [];
        return;
      }
      Regroup(packets, [p], DecodeAll(socket.inbox, socket.ending));
      packets := packets + [p];
    }
  }
}
