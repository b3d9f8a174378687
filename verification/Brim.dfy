/** A ring that is filled to the very end of its array: the peer of a user called A
    reads its ACK a second time. */
module Brim {
  import opened Wire
  import opened Ring
  import opened Comm
  import opened Store
  import opened Chat
  import opened Guarantees

  function Name(): CStr {
    Ascii("A")
  }

  function Ack(): (p: Packet)
    ensures WellFormed(p) && |p.body| == 14
  {
    AckPacket(1, Name(), 0)
  }

  function OwnNotice(): (p: Packet)
    ensures WellFormed(p) && |p.body| == 19
  {
    JoinPacket(1, Name(), 0)
  }

  /** What A is sent when it says something that makes n bytes with its name. */
  function Saying(n: nat): (p: Packet)
    requires 3 <= n <= BODY_MAX
    ensures WellFormed(p) && |p.body| == n
  {
    Notice(TEXT, 1, 0, DisplayText(Name(), seq(n - 3, _ => 120)))
  }

  /** After its join A says three times as much as fits a packet, and then 395 bytes:
      with the headers, 2048 bytes. */
  function Conversation(): (h: seq<Packet>)
    ensures forall p | p in h :: WellFormed(p)
  {
    [Ack(), OwnNotice(), Saying(512), Saying(512), Saying(512), Saying(395)]
  }

  /** Enqueue a packet that needs no wrap. */
  method Append(ring: SendRing, p: Packet)
    requires ring.Valid() && WellFormed(p)
    requires ring.tail + |Encode(p)| <= RING_SIZE && |ring.Fifo()| + |Encode(p)| <= RING_ROOM
    modifies ring`tail, ring.data
    ensures ring.Valid() && ring.tail == old(ring.tail) + |Encode(p)|
    ensures ring.Fifo() == old(ring.Fifo()) + Encode(p)
    ensures ring.data[old(ring.tail)..ring.tail] == Encode(p)
    ensures old(ring.tail) >= 28 ==> ring.data[..28] == old(ring.data[..28])
  {
    ghost var was := ring.data[..];
    var wire, len := Serialize(p);
    var ok := ring.Enqueue(wire, len);
    Straight(was, ring.data[..], old(ring.tail), wire[..len]);
  }

  /** The same in terms of the packets enqueued. */
  method Feed(ring: SendRing, p: Packet, ghost h: seq<Packet>)
    requires ring.Valid() && WellFormed(p) && ring.Fifo() == EncodeAll(h)
    requires ring.head <= ring.tail && ring.tail + |Encode(p)| <= RING_SIZE && ring.head + RING_ROOM >= ring.tail + |Encode(p)|
    modifies ring`tail, ring.data
    ensures ring.Valid() && ring.tail == old(ring.tail) + |Encode(p)|
    ensures ring.Fifo() == EncodeAll(h + [p])
    ensures ring.data[old(ring.tail)..ring.tail] == Encode(p)
    ensures old(ring.tail) >= 28 ==> ring.data[..28] == old(ring.data[..28])
  {
    EncodeAllSnoc(h, p);
    Append(ring, p);
  }

  lemma Straight(before: Bytes, after: Bytes, tail: nat, more: Bytes)
    requires |before| == |after| == RING_SIZE && tail + |more| <= RING_SIZE && Written(before, after, tail, more)
    ensures after[tail..tail + |more|] == more
    ensures tail >= 28 ==> after[..28] == before[..28]
  {
  }

  lemma SamePieces(a: Bytes, b: Bytes, c: Bytes, d: Bytes)
    requires a + b == c + d && |a| == |c|
    ensures a == c && b == d
  {
    assert a == (a + b)[..|a|] && c == (c + d)[..|c|];
    assert b == (a + b)[|a|..] && d == (c + d)[|c|..];
  }

  lemma FirstDrainCounts(outs: seq<SendOutcome>)
    requires outs == [Accept(28)]
    ensures Sweep(0, 61, outs, 0) == Swept(28, 28, false, 1)
  {
    assert Sweep(28, 61, outs, 1) == Swept(0, 28, false, 0);
  }

  /** The ACK leaves, the notice stays. */
  method DrainAck(ring: SendRing) returns (sent: Bytes)
    requires ring.Valid() && ring.head == 0 && ring.tail == 61
    requires ring.Fifo() == Encode(Ack()) + EncodeAll([OwnNotice()])
    modifies ring`head
    ensures ring.Valid() && ring.head == 28
    ensures sent == Encode(Ack()) && ring.Fifo() == EncodeAll([OwnNotice()])
  {
    var outs := [Accept(28)];
    FirstDrainCounts(outs);
    var status;
    status, sent := ring.Drain(outs);
    SamePieces(sent, ring.Fifo(), Encode(Ack()), EncodeAll([OwnNotice()]));
  }

  method Fill(ring: SendRing) returns (sent: Bytes)
    requires ring.Valid() && ring.Fifo() == [] && !ring.Pending() && ring.tail == 0
    modifies ring`head, ring`tail, ring.data
    ensures ring.Valid() && ring.head == 28 && ring.tail == 28 + 33
    ensures sent == Encode(Ack()) && ring.Fifo() == EncodeAll([OwnNotice()]) && ring.data[..28] == Encode(Ack())
  {
    Feed(ring, Ack(), []);
    assert ring.data[..28] == ring.data[0..28] == Encode(Ack());
    Feed(ring, OwnNotice(), [Ack()]);
    assert [Ack()] + [OwnNotice()] == [Ack(), OwnNotice()] && [Ack(), OwnNotice()][1..] == [OwnNotice()];
    EncodeAllFront([Ack(), OwnNotice()]);
    sent := DrainAck(ring);
  }

  method FeedTexts(ring: SendRing)
    requires ring.Valid() && ring.head == 28 && ring.tail == 61
    requires ring.Fifo() == EncodeAll([OwnNotice()]) && ring.data[..28] == Encode(Ack())
    modifies ring`tail, ring.data
    ensures ring.Valid() && ring.tail == RING_SIZE
    ensures ring.Fifo() == EncodeAll(Conversation()[1..]) && ring.data[..28] == Encode(Ack())
  {
    ghost var h := [OwnNotice()];
    Feed(ring, Saying(512), h);
    h := h + [Saying(512)];
    Feed(ring, Saying(512), h);
    h := h + [Saying(512)];
    Feed(ring, Saying(512), h);
    h := h + [Saying(512)];
    Feed(ring, Saying(395), h);
    assert h + [Saying(395)] == Conversation()[1..];
  }

  method Overdrain(ring: SendRing) returns (more: Bytes)
    requires ring.Valid() && ring.head == 28 && ring.tail == RING_SIZE
    modifies ring`head
    ensures more == old(ring.Fifo()) + ring.data[..28]
  {
    var outs := [Accept(2020), Accept(28)];
    DrainResendsOldBytes(ring.data[..], 28, 28, outs);
    var status;
    status, more := ring.Drain(outs);
  }

  /** Everything happens through the ring's own methods, from an empty ring on: with
      the enqueue as it is written, the peer of A is sent the whole conversation and
      then the ACK again, which is more than a prefix of what was enqueued for it. */
  method AckTwice(ending: Ending) returns (sent: Bytes, history: seq<Packet>)
    ensures history == Conversation()
    ensures sent == EncodeAll(history) + Encode(history[0])
    ensures DecodeAll(sent, ending) == history + [history[0]] && !(DecodeAll(sent, ending) <= history)
  {
    var ring := new SendRing();
    sent := Fill(ring);
    history := Conversation();
    FeedTexts(ring);
    var more := Overdrain(ring);
    Regroup(sent, EncodeAll(history[1..]), Encode(Ack()));
    EncodeAllFront(history);
    sent := sent + more;
    ReadTwice(ending);
  }

  lemma ReadTwice(ending: Ending)
    ensures DecodeAll(EncodeAll(Conversation()) + Encode(Ack()), ending) == Conversation() + [Ack()]
  {
    EncodeAllSnoc(Conversation(), Ack());
    StreamRoundTrip(Conversation() + [Ack()], ending);
  }

  // ----- The same in a run of the server --------------------------------------

  function Empty(): Tables {
    Tables(map[], map[], 0, [], 0)
  }

  /** State w is reached by the events es from an empty store, with the enqueue as it
      is written. */
  ghost predicate Reached(es: seq<Event>, w: World) {
    IsRun(Start(Empty(), false), es) && After(Start(Empty(), false), es) == w
  }

  /** A sits in slot 0 and has these packets, bytes and ring positions. */
  ghost predicate Sits(w: World, h: seq<Packet>, sent: Bytes, queue: Bytes, head: nat, tail: nat) {
    && |w.slots| == MAX_CLIENTS && At(w, 0) && 1 in w.db.nameOf
    && var c := w.slots[0].conn;
       && c.joined && c.name == Name() && c.userId == 1 && !c.folded
       && c.history == h && c.sent == sent && c.queue == queue && c.head == head && c.tail == tail
  }

  lemma Text(n: nat) returns (s: CStr)
    requires 3 <= n <= BODY_MAX
    ensures |s| == n - 3 && CString(s) == s && Saying(n) == Notice(TEXT, 1, 0, DisplayText(Name(), s))
  {
    s := seq(n - 3, _ => 120);
    WholeCString(s);
  }

  lemma Enters() returns (es: seq<Event>, w: World)
    ensures Reached(es, w) && w.db == Empty() && |w.slots| == MAX_CLIENTS
    ensures w.slots[0] == Busy(Fresh(3, 0, false)) && forall i | 0 < i < |w.slots| :: w.slots[i].Free?
  {
    var start := Start(Empty(), false);
    assert start.slots[0].Free? && FirstFree(start.slots, 0) == 0;
    RunSnoc(start, [], Arrival(3, 0));
    es, w := [] + [Arrival(3, 0)], Admit(start, 3, 0);
  }

  function Request(): (p: Packet)
    ensures WellFormed(p)
  {
    Packet(PROTOCOL_VERSION, JOIN, 0, 0, Name())
  }

  lemma Registers()
    ensures Registered(Empty(), Name(), FINE) == (Upserted(Empty(), Name(), 0), Some(1))
    ensures 1 in Upserted(Empty(), Name(), 0).nameOf
  {
  }

  lemma JoinIs(w: World, db: Tables)
    requires At(w, 0) && JoinComplaint(w, 0, Request()).None? && CString(Name()) == Name()
    requires Registered(w.db, Name(), FINE) == (db, Some(1)) && Welcomed(w.(db := db), 0, 1, Name(), 0).1
    ensures Readable(w, 0, Got(Request()), FINE, 0) == Welcomed(w.(db := db), 0, 1, Name(), 0).0
  {
  }

  lemma Welcomes() returns (es: seq<Event>, w: World, before: World)
    ensures Reached(es, w) && |w.slots| == MAX_CLIENTS && 1 in w.db.nameOf
    ensures At(before, 0) && before.slots[0].conn == Fresh(3, 0, false)
    ensures w.slots[0] == Busy(Newcomer(before, 0, 1, Name(), 0))
  {
    var es1, w1 := Enters();
    var e := Input(0, Got(Request()), FINE, 0);
    WholeCString(Name());
    Registers();
    before := w1.(db := Upserted(Empty(), Name(), 0));
    WelcomeSucceeds(before, 0, 1, Name(), 0);
    JoinIs(w1, before.db);
    es, w := es1 + [e], Readable(w1, 0, Got(Request()), FINE, 0);
    RunSnoc(Start(Empty(), false), es1, e);
  }

  lemma NewcomerSits(before: World, w: World)
    requires At(before, 0) && before.slots[0].conn == Fresh(3, 0, false)
    requires |w.slots| == MAX_CLIENTS && 1 in w.db.nameOf && w.slots[0] == Busy(Newcomer(before, 0, 1, Name(), 0))
    ensures Sits(w, [Ack(), OwnNotice()], [], Encode(Ack()) + Encode(OwnNotice()), 0, 61)
  {
    NewcomerHas(before, 0, 1, Name(), 0);
    assert Advanced(0, 28, false) == 28 && Advanced(28, 33, false) == 61;
  }

  lemma Joins() returns (es: seq<Event>, w: World)
    ensures Reached(es, w) && Sits(w, [Ack(), OwnNotice()], [], Encode(Ack()) + Encode(OwnNotice()), 0, 61)
  {
    var before;
    es, w, before := Welcomes();
    NewcomerSits(before, w);
  }

  lemma Drains(es: seq<Event>, w: World, d: Drained) returns (es2: seq<Event>, w2: World)
    requires Reached(es, w) && At(w, 0) && CanDrain(w.slots[0].conn, d) && !d.broken
    ensures Reached(es2, w2) && w2 == Put(w, 0, AfterDrain(w.slots[0].conn, d))
  {
    RunSnoc(Start(Empty(), false), es, Writable(0, d, 0));
    es2, w2 := es + [Writable(0, d, 0)], Flush(w, 0, d, 0);
  }

  lemma SaysIs(es: seq<Event>, w: World, n: nat) returns (es2: seq<Event>, w2: World)
    requires Reached(es, w) && At(w, 0) && 1 in w.db.nameOf && 3 < n <= BODY_MAX
    requires w.slots[0].conn.joined && w.slots[0].conn.name == Name() && w.slots[0].conn.userId == 1
    ensures Reached(es2, w2) && |w2.slots| == |w.slots| && 1 in w2.db.nameOf
    ensures w2.slots[0] == Delivered(w.slots[0], 0, Saying(n), -1)
  {
    var text := Text(n);
    var e := Input(0, Got(Packet(PROTOCOL_VERSION, TEXT, 0, 0, text)), FINE, 0);
    es2, w2 := es + [e], Next(w, e);
    RunSnoc(Start(Empty(), false), es, e);
    assert |DisplayText(Name(), text)| == n;
  }

  lemma Straightforward(tail: Place, len: nat)
    requires 0 < len && tail + len <= RING_SIZE
    ensures Advanced(tail, len, false) == tail + len
  {
  }

  lemma Hears(w: World, w2: World, h: seq<Packet>, sent: Bytes, queue: Bytes, head: nat, tail: nat, p: Packet)
    requires Sits(w, h, sent, queue, head, tail) && |queue| + |Encode(p)| <= RING_ROOM && tail + |Encode(p)| <= RING_SIZE
    requires |w2.slots| == MAX_CLIENTS && 1 in w2.db.nameOf && w2.slots[0] == Delivered(w.slots[0], 0, p, -1)
    ensures Sits(w2, h + [p], sent, queue + Encode(p), head, tail + |Encode(p)|)
  {
    Straightforward(tail, |Encode(p)|);
    assert w2.slots[0] == Busy(Push(w.slots[0].conn, p));
  }

  lemma Says(es: seq<Event>, w: World, h: seq<Packet>, sent: Bytes, queue: Bytes, head: nat, tail: nat, n: nat)
    returns (es2: seq<Event>, w2: World)
    requires Reached(es, w) && Sits(w, h, sent, queue, head, tail) && 3 < n <= BODY_MAX
    requires |queue| + HEADER_SIZE + n <= RING_ROOM && tail + HEADER_SIZE + n <= RING_SIZE
    ensures Reached(es2, w2) && Sits(w2, h + [Saying(n)], sent, queue + Encode(Saying(n)), head, tail + HEADER_SIZE + n)
  {
    es2, w2 := SaysIs(es, w, n);
    Hears(w, w2, h, sent, queue, head, tail, Saying(n));
  }

  lemma FirstDrain() returns (es: seq<Event>, w: World)
    ensures Reached(es, w) && Sits(w, [Ack(), OwnNotice()], Encode(Ack()), Encode(OwnNotice()), 28, 61)
  {
    es, w := Joins();
    var outs := [Accept(28)];
    FirstDrainCounts(outs);
    es, w := Drains(es, w, Drained(outs, Encode(Ack()), Encode(OwnNotice()), 28, true, false));
  }

  lemma Talks() returns (es: seq<Event>, w: World, queue: Bytes)
    ensures Reached(es, w) && Sits(w, Conversation(), Encode(Ack()), queue, 28, RING_SIZE)
    ensures Encode(Ack()) + queue == EncodeAll(Conversation()) && |queue| == 2020
  {
    es, w := FirstDrain();
    var h := [Ack(), OwnNotice()];
    queue := Encode(OwnNotice());
    EncodeAllSnoc([Ack()], OwnNotice());
    EncodeAllSnoc([], Ack());
    es, w, h, queue := SaysMore(es, w, h, queue, 61, 512);
    es, w, h, queue := SaysMore(es, w, h, queue, 587, 512);
    es, w, h, queue := SaysMore(es, w, h, queue, 1113, 512);
    es, w, h, queue := SaysMore(es, w, h, queue, 1639, 395);
    assert h == Conversation();
  }

  lemma SaysMore(es: seq<Event>, w: World, h: seq<Packet>, queue: Bytes, tail: nat, n: nat)
    returns (es2: seq<Event>, w2: World, h2: seq<Packet>, longer: Bytes)
    requires Reached(es, w) && Sits(w, h, Encode(Ack()), queue, 28, tail) && 3 < n <= BODY_MAX
    requires Encode(Ack()) + queue == EncodeAll(h)
    requires |queue| == tail - 28 && tail + HEADER_SIZE + n <= RING_SIZE
    ensures Reached(es2, w2) && Sits(w2, h2, Encode(Ack()), longer, 28, tail + HEADER_SIZE + n)
    ensures h2 == h + [Saying(n)] && Encode(Ack()) + longer == EncodeAll(h2) && |longer| == |queue| + HEADER_SIZE + n
  {
    es2, w2 := Says(es, w, h, Encode(Ack()), queue, 28, tail, n);
    h2, longer := h + [Saying(n)], queue + Encode(Saying(n));
    EncodeAllSnoc(h, Saying(n));
    Regroup(Encode(Ack()), queue, Encode(Saying(n)));
  }

  /** A run of the server, with the enqueue as it is written, in which A joins, is
      sent its ACK, says its texts and is sent the rest: with the bytes that the ring
      hands over, its peer reads the ACK again. */
  lemma AckTwiceInRun(ending: Ending)
    ensures exists es, w :: (
      && Reached(es, w) && At(w, 0)
      && var c := w.slots[0].conn;
         && c.spoiled && c.history == Conversation() && c.sent == EncodeAll(c.history) + Encode(Ack())
         && !(DecodeAll(c.sent, ending) <= c.history))
  {
    var es, w, queue := Talks();
    var outs := [Accept(2020), Accept(28)];
    OverdrainCounts(outs);
    var d := Drained(outs, queue + Encode(Ack()), queue, 28, true, false);
    var es2, w2 := Drains(es, w, d);
    Regroup(Encode(Ack()), queue, Encode(Ack()));
    ReadTwice(ending);
    assert Reached(es2, w2);
  }

  lemma OverdrainCounts(outs: seq<SendOutcome>)
    requires outs == [Accept(2020), Accept(28)]
    ensures Sweep(28, RING_SIZE, outs, 0) == Swept(2048, 28, false, 2)
  {
    assert Sweep(28, RING_SIZE, outs, 2) == Swept(0, 28, false, 0);
    assert Sweep(0, RING_SIZE, outs, 1) == Swept(28, 28, false, 1);
  }
}
