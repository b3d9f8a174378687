/** What clients of the server can count on, over every run. */
module Guarantees {
  import opened Wire
  import opened Ring
  import opened Store
  import opened Chat
  import opened Delivery

  // ----- End to end ---------------------------------------------------------

  lemma {:induction false} ChatOnlyPrefix(h: seq<Packet>, n: nat)
    requires n <= |h|
    ensures ChatOnly(h[..n]) <= ChatOnly(h)
    decreases |h| - n
  {
    if n < |h| {
      ChatOnlyPrefix(h, n + 1);
      assert h[..n + 1][..n] == h[..n];
    } else {
      assert h[..n] == h;
    }
  }

  /** Whatever part of the sent bytes has reached the peer, the blocking receiver
      reads from it a prefix of the packets enqueued for that connection. */
  lemma ReadsPrefix(c: Conn, arrived: Bytes, ending: Ending)
    requires Faithful(c) && !c.spoiled && arrived <= c.sent
    ensures DecodeAll(arrived, ending) <= c.history
    ensures ChatOnly(DecodeAll(arrived, ending)) <= ChatOnly(c.history)
    ensures DecodeAll(c.sent + c.queue, ending) == c.history
  {
    assert arrived <= c.sent + c.queue;
    PrefixDecodesToPrefix(c.history, arrived, ending);
    StreamRoundTrip(c.history, ending);
    var read := DecodeAll(arrived, ending);
    ChatOnlyPrefix(c.history, |read|);
    assert c.history[..|read|] == read;
  }

  /** A member's view: its ACK, and the broadcasts from its own JOIN notice on. */
  ghost predicate SeesTheChat(c: Conn, log: seq<Packet>, arrived: Bytes, ending: Ending) {
    var read := DecodeAll(arrived, ending);
    && read <= c.history
    && (read != [] ==> IsGreeting(read[0], c))
    && c.since < |log| && IsOwnNotice(log[c.since], c)
    && ChatOnly(read) <= log[c.since..]
  }

  lemma MemberSees(c: Conn, log: seq<Packet>, arrived: Bytes, ending: Ending)
    requires c.joined && GoneOk(c, log) && !c.spoiled && arrived <= c.sent
    ensures SeesTheChat(c, log, arrived, ending)
  {
    ReadsPrefix(c, arrived, ending);
  }

  /** A connection that is whole so far: any answers of the kernel keep it whole
      exactly if the ring's tail is inside the array, which can be read off before
      the drain. */
  lemma SpoilableExactly(c: Conn)
    requires Faithful(c) && !c.spoiled
    ensures (forall d | CanDrain(c, d) :: !AfterDrain(c, d).spoiled) <==> c.tail < RING_SIZE
  {
    if c.tail < RING_SIZE {
      forall d | CanDrain(c, d) ensures !AfterDrain(c, d).spoiled {
        SweepStaysInside(c.head, c.tail, d.sends, 0);
      }
    } else {
      var sends := Greedy(RING_SIZE);
      var r := Sweep(c.head, c.tail, sends, 0);
      BrimNeverEmpties(c.head, RING_SIZE, 0);
      var left: Bytes := seq(Queued(r.head, c.tail), _ => 0);
      var d := Drained(sends, seq(r.total, _ => 0), left, r.head, r.head != c.tail, r.broken);
      assert CanDrain(c, d) && AfterDrain(c, d).spoiled;
    }
  }

  /** Every drain of the run finds its ring's tail inside the array. */
  ghost predicate DrainsInside(w: World, es: seq<Event>)
    requires IsRun(w, es)
    decreases |es|
  {
    es == [] ||
    (var before, e := es[..|es| - 1], es[|es| - 1];
     && DrainsInside(w, before)
     && (e.Writable? ==> After(w, before).slots[e.i].conn.tail < RING_SIZE))
  }

  /** With the enqueue that the comments describe every run is like that. */
  lemma {:induction false} FoldedDrainsInside(db: Tables, es: seq<Event>)
    requires IsRun(Start(db, true), es)
    ensures DrainsInside(Start(db, true), es)
    decreases |es|
  {
    if es != [] {
      var before := es[..|es| - 1];
      FoldedDrainsInside(db, before);
      AlwaysOrdered(db, true, before);
    }
  }

  ghost predicate AllWhole(w: World) {
    && (forall i | At(w, i) :: !w.slots[i].conn.spoiled)
    && (forall c | c in w.gone :: !c.spoiled)
  }

  lemma DisconnectKeepsWhole(w: World, i: int, announce: bool, now: int)
    requires AllWhole(w)
    ensures AllWhole(Disconnect(w, i, announce, now))
  {
    if At(w, i) && announce && w.slots[i].conn.joined {
      BroadcastKeepsWhole(w, LeavePacket(w.slots[i].conn, now), i);
    }
  }

  lemma BroadcastKeepsWhole(w: World, p: Packet, except: int)
    requires AllWhole(w)
    ensures AllWhole(Broadcast(w, p, except))
  {
    var after := Broadcast(w, p, except);
    forall c | c in after.gone ensures !c.spoiled {
      if c !in w.gone {
        DroppedAre(w.slots, p, except, |w.slots|, c);
        var i :| 0 <= i < |w.slots| && Overrun(w.slots[i], i, p, except) && w.slots[i].conn == c;
        assert At(w, i);
      }
    }
    forall i | At(after, i) ensures !after.slots[i].conn.spoiled {
      assert At(w, i);
    }
  }

  lemma PutKeepsWhole(w: World, i: int, c: Conn)
    requires AllWhole(w) && At(w, i) && !c.spoiled
    ensures AllWhole(Put(w, i, c))
  {
    forall j | At(Put(w, i, c), j) ensures !Put(w, i, c).slots[j].conn.spoiled {
      assert At(w, j);
    }
  }

  lemma WelcomeKeepsWhole(w: World, i: int, id: U32, name: CStr, now: int)
    requires AllWhole(w) && At(w, i)
    ensures AllWhole(Welcomed(w, i, id, name, now).0)
  {
    var c := Joiner(w, i, name, id);
    assert !c.spoiled;
    PutKeepsWhole(w, i, c);
    PutKeepsWhole(w, i, Push(c, AckPacket(id, name, now)));
    BroadcastKeepsWhole(Put(w, i, Push(c, AckPacket(id, name, now))), JoinPacket(id, name, now), -1);
  }

  lemma ComplainKeepsWhole(w: World, i: int, e: Complaint, now: int)
    requires AllWhole(w) && At(w, i)
    ensures AllWhole(Complain(w, i, e, now))
  {
    PutKeepsWhole(w, i, Complained(w.slots[i].conn, e, now));
  }

  lemma JoinKeepsWhole(w: World, i: int, p: Packet, e: Trouble, now: int)
    requires AllWhole(w) && At(w, i)
    ensures AllWhole(HandleJoin(w, i, p, e, now).0)
  {
    var complaint := JoinComplaint(w, i, p);
    if complaint.Some? {
      ComplainKeepsWhole(w, i, complaint.value, now);
    } else {
      var name := CString(p.body);
      var (db, id) := Registered(w.db, name, e);
      if id.None? {
        ComplainKeepsWhole(w.(db := db), i, NotRegistered, now);
      } else {
        WelcomeKeepsWhole(w.(db := db), i, id.value, name, now);
      }
    }
  }

  lemma TextKeepsWhole(w: World, i: int, p: Packet, e: Trouble, now: int)
    requires AllWhole(w) && At(w, i)
    ensures AllWhole(HandleText(w, i, p, e, now).0)
  {
    var c := w.slots[i].conn;
    var body := CString(p.body);
    BroadcastKeepsWhole(w.(db := Inserted(w.db, c.userId, body, Stamp(now), e).0),
      Notice(TEXT, c.userId, now, DisplayText(c.name, body)), -1);
  }

  lemma ReadableKeepsWhole(w: World, i: int, r: Receipt, e: Trouble, now: int)
    requires AllWhole(w) && At(w, i)
    ensures AllWhole(Readable(w, i, r, e, now))
  {
    match r
    case NotYet =>
    case PeerGone => DisconnectKeepsWhole(w, i, w.slots[i].conn.joined, now);
    case Failed => DisconnectKeepsWhole(w, i, w.slots[i].conn.joined, now);
    case Got(p) =>
      if p.kind == JOIN {
        JoinKeepsWhole(w, i, p, e, now);
        DisconnectKeepsWhole(HandleJoin(w, i, p, e, now).0, i, false, now);
      } else if p.kind == TEXT {
        TextKeepsWhole(w, i, p, e, now);
        DisconnectKeepsWhole(HandleText(w, i, p, e, now).0, i, false, now);
      } else if p.kind == LEAVE {
        DisconnectKeepsWhole(w, i, true, now);
      } else {
        DisconnectKeepsWhole(Complain(w, i, Unsupported, now), i, false, now);
      }
  }

  lemma DrainKeepsWhole(c: Conn, log: seq<Packet>, d: Drained)
    requires ConnOk(c, log) && !c.spoiled && c.tail < RING_SIZE && CanDrain(c, d)
    ensures !AfterDrain(c, d).spoiled
  {
    SweepStaysInside(c.head, c.tail, d.sends, 0);
  }

  lemma NextKeepsWhole(w: World, e: Event)
    requires Ordered(w) && AllWhole(w) && Possible(w, e) && (e.Writable? ==> w.slots[e.i].conn.tail < RING_SIZE)
    ensures AllWhole(Next(w, e))
  {
    match e
    case Timeouts(now) =>
      forall c | c in Reap(w, now).gone ensures !c.spoiled {
        if c !in w.gone {
          ReapedAre(w.slots, now, |w.slots|, c);
          var i :| 0 <= i < |w.slots| && Expired(w.slots[i], now) && Complained(w.slots[i].conn, AuthTimeout, now) == c;
          assert At(w, i);
        }
      }
      forall i | At(Reap(w, now), i) ensures !Reap(w, now).slots[i].conn.spoiled {
        assert At(w, i);
      }
    case Arrival(fd, now) =>
      forall i | At(Admit(w, fd, now), i) ensures !Admit(w, fd, now).slots[i].conn.spoiled {
        assert i == FirstFree(w.slots, 0) || At(w, i);
      }
    case Writable(i, d, now) =>
      DrainKeepsWhole(w.slots[i].conn, w.log, d);
      DisconnectKeepsWhole(Put(w, i, AfterDrain(w.slots[i].conn, d)), i, w.slots[i].conn.joined, now);
    case Input(i, r, t, now) => ReadableKeepsWhole(w, i, r, t, now);
    case Hangup(i, now) => DisconnectKeepsWhole(w, i, w.slots[i].conn.joined, now);
  }

  lemma {:induction false} AlwaysWhole(db: Tables, folded: bool, es: seq<Event>)
    requires IsRun(Start(db, folded), es) && DrainsInside(Start(db, folded), es)
    ensures AllWhole(After(Start(db, folded), es))
    decreases |es|
  {
    if es != [] {
      AlwaysWhole(db, folded, es[..|es| - 1]);
      AlwaysOrdered(db, folded, es[..|es| - 1]);
      NextKeepsWhole(After(Start(db, folded), es[..|es| - 1]), es[|es| - 1]);
    }
  }

  ghost predicate HasConn(w: World, c: Conn) {
    c in w.gone || exists i :: At(w, i) && w.slots[i].conn == c
  }

  /** What a connection has been sent and what its ring holds is the encoding of its
      packets; its peer reads a prefix of them from whatever part has arrived, and
      a member's peer reads the conversation. */
  ghost predicate DeliversTo(c: Conn, log: seq<Packet>, arrived: Bytes, ending: Ending) {
    && c.sent + c.queue == EncodeAll(c.history)
    && DecodeAll(arrived, ending) <= c.history
    && (c.joined ==> SeesTheChat(c, log, arrived, ending))
  }

  lemma InOrder(db: Tables, folded: bool, es: seq<Event>, c: Conn)
    requires IsRun(Start(db, folded), es) && HasConn(After(Start(db, folded), es), c)
    ensures GoneOk(c, After(Start(db, folded), es).log) && c.folded == folded
  {
    AlwaysOrdered(db, folded, es);
    var w := After(Start(db, folded), es);
    if c !in w.gone {
      var i :| At(w, i) && w.slots[i].conn == c;
      OkThenGone(c, w.log);
    }
  }

  /** For every run and every connection, open or closed: the stream is the encoding
      of its packets exactly if none of its drains has taken more than was queued,
      and then it delivers. */
  lemma DeliversExactly(db: Tables, folded: bool, es: seq<Event>, c: Conn, arrived: Bytes, ending: Ending)
    requires IsRun(Start(db, folded), es) && HasConn(After(Start(db, folded), es), c) && arrived <= c.sent
    ensures c.sent + c.queue == EncodeAll(c.history) <==> !c.spoiled
    ensures DeliversTo(c, After(Start(db, folded), es).log, arrived, ending) <==> !c.spoiled
  {
    InOrder(db, folded, es, c);
    if !c.spoiled {
      ReadsPrefix(c, arrived, ending);
      if c.joined {
        MemberSees(c, After(Start(db, folded), es).log, arrived, ending);
      }
    }
  }

  /** With the enqueue that the comments describe: always. */
  lemma EveryByteDelivered(db: Tables, es: seq<Event>, c: Conn, arrived: Bytes, ending: Ending)
    requires IsRun(Start(db, true), es) && HasConn(After(Start(db, true), es), c) && arrived <= c.sent
    ensures DeliversTo(c, After(Start(db, true), es).log, arrived, ending)
  {
    InOrder(db, true, es, c);
    DeliversExactly(db, true, es, c, arrived, ending);
  }

  /** With the enqueue as it is written: in every run in which no drain finds its
      ring's tail at the end of the array. */
  lemma EndToEnd(db: Tables, es: seq<Event>, c: Conn, arrived: Bytes, ending: Ending)
    requires IsRun(Start(db, false), es) && DrainsInside(Start(db, false), es)
    requires HasConn(After(Start(db, false), es), c) && arrived <= c.sent
    ensures DeliversTo(c, After(Start(db, false), es).log, arrived, ending)
  {
    AlwaysWhole(db, false, es);
    DeliversExactly(db, false, es, c, arrived, ending);
  }

  /** Two members agree on everything since the later one joined. */
  lemma MembersAgree(db: Tables, folded: bool, es: seq<Event>, i: int, j: int)
    requires IsRun(Start(db, folded), es)
    requires At(After(Start(db, folded), es), i) && At(After(Start(db, folded), es), j)
    requires var slots := After(Start(db, folded), es).slots;
      slots[i].conn.joined && slots[j].conn.joined && slots[i].conn.since <= slots[j].conn.since
    ensures var w := After(Start(db, folded), es);
      var a, b := w.slots[i].conn, w.slots[j].conn;
      && b.since - a.since <= |ChatOnly(a.history)| && b.since < |w.log|
      && ChatOnly(b.history) == ChatOnly(a.history)[b.since - a.since..]
      && ChatOnly(b.history) == w.log[b.since..]
  {
    AlwaysOrdered(db, folded, es);
    var w := After(Start(db, folded), es);
    DropDrop(w.log, w.slots[i].conn.since, w.slots[j].conn.since - w.slots[i].conn.since);
  }

  lemma DropDrop<T>(s: seq<T>, m: nat, n: nat)
    requires m + n <= |s|
    ensures s[m..][n..] == s[m + n..]
  {
  }

  // ----- Room in the ring ---------------------------------------------------

  /** A newcomer as it is once it has been welcomed. */
  function Newcomer(w: World, i: int, id: U32, name: CStr, now: int): Conn
    requires At(w, i)
  {
    Push(Push(Joiner(w, i, name, id), AckPacket(id, name, now)), JoinPacket(id, name, now))
  }

  lemma WelcomeSucceeds(w: World, i: int, id: U32, name: CStr, now: int)
    requires At(w, i) && w.slots[i].conn.queue == [] && |name| <= USERNAME_MAX
    ensures var (after, ok) := Welcomed(w, i, id, name, now);
      && ok && |after.slots| == |w.slots| && after.slots[i] == Busy(Newcomer(w, i, id, name, now))
      && after.log == w.log + [JoinPacket(id, name, now)] && after.db == w.db
      && (forall j | 0 <= j < |w.slots| && j != i :: after.slots[j] == Delivered(w.slots[j], j, JoinPacket(id, name, now), -1))
  {
    var c := Push(Joiner(w, i, name, id), AckPacket(id, name, now));
    assert |c.queue| <= 59 && |JoinPacket(id, name, now).body| <= 50;
  }

  lemma NewcomerHas(w: World, i: int, id: U32, name: CStr, now: int)
    requires At(w, i) && w.slots[i].conn.queue == [] && w.slots[i].conn.history == []
    ensures var c, ack, notice := Newcomer(w, i, id, name, now), AckPacket(id, name, now), JoinPacket(id, name, now);
      && c.joined && c.name == name && c.userId == id
      && c.history == [ack, notice] && c.queue == Encode(ack) + Encode(notice)
  {
    assert [] + Encode(AckPacket(id, name, now)) == Encode(AckPacket(id, name, now));
  }

  /** A join that passes validation and the store always succeeds: the newcomer
      gets exactly its ACK and its own notice, whoever else is dropped. */
  lemma AdmissionSucceeds(w: World, i: int, p: Packet, e: Trouble, now: int)
    requires Ordered(w) && At(w, i) && JoinComplaint(w, i, p).None?
    requires Registered(w.db, CString(p.body), e).1.Some?
    ensures var (after, ok) := HandleJoin(w, i, p, e, now);
      var id := Registered(w.db, CString(p.body), e).1.value;
      var ack, notice := AckPacket(id, CString(p.body), now), JoinPacket(id, CString(p.body), now);
      && ok && At(after, i) && after.slots[i].conn.joined
      && after.slots[i].conn.history == [ack, notice]
      && after.slots[i].conn.queue == Encode(ack) + Encode(notice)
      && after.log == w.log + [notice]
  {
    var name := CString(p.body);
    var (db, id) := Registered(w.db, name, e);
    var w1 := w.(db := db);
    assert w1.slots[i].conn == Fresh(w1.slots[i].conn.fd, w1.slots[i].conn.born, w1.slots[i].conn.folded);
    WelcomeSucceeds(w1, i, id.value, name, now);
    NewcomerHas(w1, i, id.value, name, now);
  }

  /** Member s gets the packet, or is dropped for want of room. */
  ghost predicate Told(s: Slot, t: Slot, p: Packet)
    requires s.Busy?
  {
    if |s.conn.queue| + 14 + |p.body| > 2047 then t.Free? else t == Busy(Push(s.conn, p))
  }

  /** Slot j is left alone unless a packet was broadcast, and then it was told. */
  ghost predicate Bystander(w: World, after: World, j: int)
    requires 0 <= j < |w.slots| && w.slots[j].Busy?
  {
    && |after.slots| == |w.slots|
    && if after.log == w.log then after.slots[j] == w.slots[j]
       else
         var n := |w.log|;
         |after.log| == n + 1 && |after.log[n].body| <= 512 && Told(w.slots[j], after.slots[j], after.log[n])
  }

  lemma BroadcastTells(w: World, p: Packet, except: int, j: int)
    requires 0 <= j < |w.slots| && Member(w.slots[j]) && j != except && |p.body| <= BODY_MAX
    ensures Bystander(w, Broadcast(w, p, except), j)
  {
    assert Broadcast(w, p, except).log == w.log + [p];
  }

  lemma DisconnectTells(w: World, i: int, announce: bool, now: int, j: int)
    requires 0 <= j < |w.slots| && Member(w.slots[j]) && j != i
    ensures Bystander(w, Disconnect(w, i, announce, now), j)
  {
    if At(w, i) && announce && w.slots[i].conn.joined {
      BroadcastTells(w, LeavePacket(w.slots[i].conn, now), i, j);
    }
  }

  lemma JoinTells(w: World, i: int, p: Packet, e: Trouble, now: int, j: int)
    requires At(w, i) && 0 <= j < |w.slots| && Member(w.slots[j]) && j != i
    ensures var (after, ok) := HandleJoin(w, i, p, e, now); Bystander(w, after, j) && (!ok ==> after.log == w.log)
  {
    var name := CString(p.body);
    var (db, id) := Registered(w.db, name, e);
    if JoinComplaint(w, i, p).None? && id.Some? {
      var w1 := w.(db := db);
      var c := Push(Joiner(w1, i, name, id.value), AckPacket(id.value, name, now));
      BroadcastTells(Put(w1, i, c), JoinPacket(id.value, name, now), -1, j);
    }
  }

  lemma TextTells(w: World, i: int, p: Packet, e: Trouble, now: int, j: int)
    requires At(w, i) && 0 <= j < |w.slots| && Member(w.slots[j])
    ensures var (after, ok) := HandleText(w, i, p, e, now);
      && (j != i || after.log != w.log ==> Bystander(w, after, j)) && (after.log != w.log ==> ok)
  {
    var c := w.slots[i].conn;
    var body := CString(p.body);
    BroadcastTells(w.(db := Inserted(w.db, c.userId, body, Stamp(now), e).0),
      Notice(TEXT, c.userId, now, DisplayText(c.name, body)), -1, j);
  }

  lemma ReadableTells(w: World, i: int, r: Receipt, e: Trouble, now: int, j: int)
    requires At(w, i) && 0 <= j < |w.slots| && Member(w.slots[j]) && j != i
    ensures Bystander(w, Readable(w, i, r, e, now), j)
  {
    match r
    case NotYet =>
    case PeerGone => DisconnectTells(w, i, w.slots[i].conn.joined, now, j);
    case Failed => DisconnectTells(w, i, w.slots[i].conn.joined, now, j);
    case Got(p) =>
      if p.kind == JOIN {
        JoinTells(w, i, p, e, now, j);
        var (after, ok) := HandleJoin(w, i, p, e, now);
        if !ok { DisconnectTells(after, i, false, now, j); }
      } else if p.kind == TEXT {
        TextTells(w, i, p, e, now, j);
        var (after, ok) := HandleText(w, i, p, e, now);
        if !ok { DisconnectTells(after, i, false, now, j); }
      } else if p.kind == LEAVE {
        DisconnectTells(w, i, true, now, j);
      } else {
        DisconnectTells(Complain(w, i, Unsupported, now), i, false, now, j);
      }
  }

  /** The slot that an event is about. */
  function About(e: Event): int {
    match e
    case Timeouts(_) => -1
    case Arrival(_, _) => -1
    case Writable(i, _, _) => i
    case Input(i, _, _, _) => i
    case Hangup(i, _) => i
  }

  predicate IsOwnText(e: Event) {
    e.Input? && e.receipt.Got? && e.receipt.packet.kind == TEXT
  }

  /** Whatever happens to others, a member is dropped exactly if something is
      broadcast and its pending bytes, the header and the body exceed 2047 bytes;
      otherwise it gets just the broadcast. The same goes for its own texts. */
  lemma EvictedExactly(w: World, e: Event, j: int)
    requires Possible(w, e) && 0 <= j < |w.slots| && Member(w.slots[j])
    requires About(e) != j || (IsOwnText(e) && Next(w, e).log != w.log)
    ensures Bystander(w, Next(w, e), j)
  {
    match e
    case Timeouts(now) =>
    case Arrival(fd, now) =>
    case Writable(i, d, now) =>
      DisconnectTells(Put(w, i, AfterDrain(w.slots[i].conn, d)), i, w.slots[i].conn.joined, now, j);
    case Hangup(i, now) => DisconnectTells(w, i, w.slots[i].conn.joined, now, j);
    case Input(i, r, t, now) =>
      if i != j {
        ReadableTells(w, i, r, t, now, j);
      } else {
        OwnTextTells(w, i, r.packet, t, now);
      }
  }

  lemma OwnTextTells(w: World, i: int, p: Packet, e: Trouble, now: int)
    requires At(w, i) && Member(w.slots[i]) && p.kind == TEXT
    requires Readable(w, i, Got(p), e, now).log != w.log
    ensures Bystander(w, Readable(w, i, Got(p), e, now), i)
  {
    TextTells(w, i, p, e, now, i);
  }

  /** So a member with at most 1521 pending bytes survives every broadcast. */
  lemma EvictionBound(w: World, e: Event, j: int)
    requires Possible(w, e) && 0 <= j < |w.slots| && Member(w.slots[j]) && |w.slots[j].conn.queue| <= 1521
    requires About(e) != j || (IsOwnText(e) && Next(w, e).log != w.log)
    ensures At(Next(w, e), j) && Next(w, e).slots[j].conn.joined
  {
    EvictedExactly(w, e, j);
  }

  /** Three packets of full size fit an empty ring, a fourth one never does. */
  lemma ThreeFullPacketsFit(c: Conn, a: Packet, b: Packet, d: Packet, x: Packet)
    requires c.queue == [] && |a.body| == |b.body| == |d.body| == |x.body| == BODY_MAX
    ensures Fits(c, a) && Fits(Push(c, a), b) && Fits(Push(Push(c, a), b), d)
    ensures !Fits(Push(Push(Push(c, a), b), d), x)
  {
  }

  // ----- Departures ---------------------------------------------------------

  /** The effect of an announced departure on every slot, evictions included. */
  lemma DepartureEffect(w: World, i: int, now: int, j: int)
    requires At(w, i) && w.slots[i].conn.joined && 0 <= j < |w.slots|
    ensures var after := Disconnect(w, i, true, now);
      var leave := LeavePacket(w.slots[i].conn, now);
      && after.log == w.log + [leave]
      && w.slots[i].conn in after.gone
      && (j == i ==> after.slots[j].Free?)
      && (j != i && !Member(w.slots[j]) ==> after.slots[j] == w.slots[j])
      && (j != i && Member(w.slots[j]) && Fits(w.slots[j].conn, leave) ==> after.slots[j] == Busy(Push(w.slots[j].conn, leave)))
      && (j != i && Member(w.slots[j]) && !Fits(w.slots[j].conn, leave) ==> after.slots[j].Free? && w.slots[j].conn in after.gone)
  {
    var leave := LeavePacket(w.slots[i].conn, now);
    if j != i && Member(w.slots[j]) && !Fits(w.slots[j].conn, leave) {
      DroppedHas(w.slots, leave, i, |w.slots|, j);
    }
  }

  lemma {:induction false} DroppedHas(slots: seq<Slot>, p: Packet, except: int, n: nat, j: int)
    requires 0 <= j < n <= |slots| && Overrun(slots[j], j, p, except)
    ensures slots[j].conn in Dropped(slots, p, except, n)
    decreases n
  {
    if j < n - 1 {
      DroppedHas(slots, p, except, n - 1, j);
    }
  }

  /** Which event makes a member leave with a notice. */
  predicate Announces(w: World, e: Event)
    requires Possible(w, e)
  {
    match e
    case Timeouts(_) => false
    case Arrival(_, _) => false
    case Writable(i, d, _) => w.slots[i].conn.joined && d.broken
    case Input(i, r, _, _) => w.slots[i].conn.joined && (r.PeerGone? || r.Failed? || (r.Got? && r.packet.kind == LEAVE))
    case Hangup(i, _) => w.slots[i].conn.joined
  }

  /** The log grew by at most one packet, a LEAVE notice exactly if `leave`. */
  ghost predicate Grew(w: World, after: World, leave: bool) {
    && w.log <= after.log && |after.log| <= |w.log| + 1
    && (leave <==> |after.log| == |w.log| + 1 && after.log[|w.log|].kind == LEAVE)
  }

  lemma DisconnectGrows(w: World, i: int, announce: bool, now: int)
    ensures Grew(w, Disconnect(w, i, announce, now), announce && At(w, i) && w.slots[i].conn.joined)
  {
  }

  lemma HandlersGrow(w: World, i: int, p: Packet, e: Trouble, now: int)
    requires At(w, i)
    ensures Grew(w, HandleJoin(w, i, p, e, now).0, false) && Grew(w, HandleText(w, i, p, e, now).0, false)
  {
  }

  lemma ReadableGrows(w: World, i: int, r: Receipt, e: Trouble, now: int)
    requires At(w, i)
    ensures Grew(w, Readable(w, i, r, e, now),
      w.slots[i].conn.joined && (r.PeerGone? || r.Failed? || (r.Got? && r.packet.kind == LEAVE)))
  {
    match r
    case NotYet =>
    case PeerGone => DisconnectGrows(w, i, w.slots[i].conn.joined, now);
    case Failed => DisconnectGrows(w, i, w.slots[i].conn.joined, now);
    case Got(p) =>
      HandlersGrow(w, i, p, e, now);
      if p.kind == JOIN {
        DisconnectGrows(HandleJoin(w, i, p, e, now).0, i, false, now);
      } else if p.kind == TEXT {
        DisconnectGrows(HandleText(w, i, p, e, now).0, i, false, now);
      } else if p.kind == LEAVE {
        DisconnectGrows(w, i, true, now);
      } else {
        DisconnectGrows(Complain(w, i, Unsupported, now), i, false, now);
      }
  }

  /** An event broadcasts at most one packet, and a LEAVE notice exactly in the
      cases above: every other departure is silent. */
  lemma AnnouncedExactly(w: World, e: Event)
    requires Possible(w, e)
    ensures Grew(w, Next(w, e), Announces(w, e))
  {
    match e
    case Timeouts(now) =>
    case Arrival(fd, now) =>
    case Writable(i, d, now) =>
      DisconnectGrows(Put(w, i, AfterDrain(w.slots[i].conn, d)), i, w.slots[i].conn.joined, now);
    case Hangup(i, now) => DisconnectGrows(w, i, w.slots[i].conn.joined, now);
    case Input(i, r, t, now) => ReadableGrows(w, i, r, t, now);
  }

  /** A client turned away before joining is closed without a byte having been
      sent to it: the ERROR packet dies with its ring. */
  lemma TurnedAwayInSilence(w: World, i: int, p: Packet, e: Trouble, now: int)
    requires Ordered(w) && At(w, i) && !w.slots[i].conn.joined && WellFormed(p)
    requires p.kind != JOIN || JoinComplaint(w, i, p).Some? || Registered(w.db, CString(p.body), e).1.None?
    ensures var after := Readable(w, i, Got(p), e, now);
      && after.slots == w.slots[i := Free]
      && |after.gone| == |w.gone| + 1 && after.gone[|w.gone|].fd == w.slots[i].conn.fd && after.gone[|w.gone|].sent == []
  {
  }

  // ----- Deadline -----------------------------------------------------------

  /** The sweep frees exactly the slots whose client has not joined ten seconds after
      it was accepted; all others, the log and the store are as they were. */
  lemma SweepExactly(w: World, now: int, i: int)
    requires 0 <= i < |w.slots|
    ensures var after := Next(w, Timeouts(now));
      && |after.slots| == |w.slots| && after.log == w.log && after.db == w.db
      && (after.slots[i] != w.slots[i] <==>
            w.slots[i].Busy? && !w.slots[i].conn.joined && now - w.slots[i].conn.born >= 10)
      && (after.slots[i] != w.slots[i] ==> after.slots[i].Free?)
  {
  }

  // ----- Lifecycle ----------------------------------------------------------

  /** c is an earlier state of the connection d; `mute`: nothing was sent between. */
  ghost predicate Becomes(c: Conn, d: Conn, mute: bool) {
    && c.fd == d.fd && c.born == d.born
    && (c.joined ==> d.joined && d.name == c.name && d.userId == c.userId && d.since == c.since)
    && c.history <= d.history && c.sent <= d.sent && (mute ==> d.sent == c.sent)
    && c.folded == d.folded && (c.spoiled ==> d.spoiled)
  }

  /** A slot's connection goes on, or ends up among the closed ones. */
  ghost predicate SlotMoves(s: Slot, t: Slot, gone: seq<Conn>, mute: bool) {
    match (s, t)
    case (Free, t) => t.Free?
    case (Busy(c), Busy(d)) => Becomes(c, d, mute)
    case (Busy(c), Free) => exists d :: d in gone && Becomes(c, d, mute)
  }

  /** So does every slot's; only that of slot x may have been sent anything. */
  ghost predicate Moves(w: World, after: World, x: int) {
    && |w.slots| == |after.slots| && w.gone <= after.gone
    && forall i | 0 <= i < |w.slots| :: SlotMoves(w.slots[i], after.slots[i], after.gone, i != x)
  }

  lemma MovesWeakly(w: World, after: World, x: int)
    requires Moves(w, after, -1)
    ensures Moves(w, after, x)
  {
    forall i | 0 <= i < |w.slots| ensures SlotMoves(w.slots[i], after.slots[i], after.gone, i != x) {
      assert SlotMoves(w.slots[i], after.slots[i], after.gone, i != -1);
    }
  }

  lemma MovesTransitive(a: World, b: World, c: World, x: int)
    requires Moves(a, b, x) && Moves(b, c, x)
    ensures Moves(a, c, x)
  {
    forall i | 0 <= i < |a.slots| ensures SlotMoves(a.slots[i], c.slots[i], c.gone, i != x) {
      assert SlotMoves(a.slots[i], b.slots[i], b.gone, i != x) && SlotMoves(b.slots[i], c.slots[i], c.gone, i != x);
      if a.slots[i].Busy? && b.slots[i].Free? {
        var d :| d in b.gone && Becomes(a.slots[i].conn, d, i != x);
        assert d in c.gone;
      }
    }
  }

  lemma PutMoves(w: World, i: int, c: Conn, x: int)
    requires At(w, i) && Becomes(w.slots[i].conn, c, i != x)
    ensures Moves(w, Put(w, i, c), x)
  {
  }

  lemma ReleaseMoves(w: World, i: int)
    requires At(w, i)
    ensures Moves(w, Release(w, i), -1)
  {
    var after := Release(w, i);
    var c := w.slots[i].conn;
    assert after.gone[|w.gone|] == c && Becomes(c, c, true);
    assert c in after.gone;
  }

  lemma BroadcastMoves(w: World, p: Packet, except: int)
    ensures Moves(w, Broadcast(w, p, except), -1)
  {
    var after := Broadcast(w, p, except);
    forall i | 0 <= i < |w.slots| ensures SlotMoves(w.slots[i], after.slots[i], after.gone, i != -1) {
      if Overrun(w.slots[i], i, p, except) {
        DroppedHas(w.slots, p, except, |w.slots|, i);
        assert w.slots[i].conn in after.gone;
      }
    }
  }

  lemma DisconnectMoves(w: World, i: int, announce: bool, now: int)
    ensures Moves(w, Disconnect(w, i, announce, now), -1)
  {
    if At(w, i) {
      var c := w.slots[i].conn;
      if announce && c.joined {
        var w1 := Broadcast(w, LeavePacket(c, now), i);
        BroadcastMoves(w, LeavePacket(c, now), i);
        ReleaseMoves(w1, i);
        MovesTransitive(w, w1, Release(w1, i), -1);
      } else {
        ReleaseMoves(w, i);
      }
    }
  }

  lemma ComplainMoves(w: World, i: int, e: Complaint, now: int)
    requires At(w, i)
    ensures Moves(w, Complain(w, i, e, now), -1)
  {
    PutMoves(w, i, Complained(w.slots[i].conn, e, now), -1);
  }

  lemma HandleJoinMoves(w: World, i: int, p: Packet, e: Trouble, now: int)
    requires At(w, i)
    ensures Moves(w, HandleJoin(w, i, p, e, now).0, -1)
  {
    var complaint := JoinComplaint(w, i, p);
    if complaint.Some? {
      ComplainMoves(w, i, complaint.value, now);
    } else {
      var name := CString(p.body);
      var (db, id) := Registered(w.db, name, e);
      var w1 := w.(db := db);
      if id.None? {
        ComplainMoves(w1, i, NotRegistered, now);
      } else {
        var c := Joiner(w1, i, name, id.value);
        var ack, notice := AckPacket(id.value, name, now), JoinPacket(id.value, name, now);
        PutMoves(w1, i, c, -1);
        PutMoves(w1, i, Push(c, ack), -1);
        var w2 := Put(w1, i, Push(c, ack));
        BroadcastMoves(w2, notice, -1);
        MovesTransitive(w1, w2, Broadcast(w2, notice, -1), -1);
      }
    }
  }

  lemma HandleTextMoves(w: World, i: int, p: Packet, e: Trouble, now: int)
    requires At(w, i)
    ensures Moves(w, HandleText(w, i, p, e, now).0, -1)
  {
    var c := w.slots[i].conn;
    var body := CString(p.body);
    forall k ensures Moves(w, Complain(w, i, k, now), -1) {
      ComplainMoves(w, i, k, now);
    }
    var (db, stored) := Inserted(w.db, c.userId, body, Stamp(now), e);
    BroadcastMoves(w.(db := db), Notice(TEXT, c.userId, now, DisplayText(c.name, body)), -1);
  }

  lemma ThenDisconnectMoves(w: World, w1: World, i: int, announce: bool, now: int, x: int)
    requires Moves(w, w1, x)
    ensures Moves(w, Disconnect(w1, i, announce, now), x)
  {
    DisconnectMoves(w1, i, announce, now);
    MovesWeakly(w1, Disconnect(w1, i, announce, now), x);
    MovesTransitive(w, w1, Disconnect(w1, i, announce, now), x);
  }

  lemma ReadableMoves(w: World, i: int, r: Receipt, e: Trouble, now: int)
    requires At(w, i)
    ensures Moves(w, Readable(w, i, r, e, now), -1)
  {
    match r
    case NotYet =>
    case PeerGone => DisconnectMoves(w, i, w.slots[i].conn.joined, now);
    case Failed => DisconnectMoves(w, i, w.slots[i].conn.joined, now);
    case Got(p) =>
      if p.kind == JOIN {
        HandleJoinMoves(w, i, p, e, now);
        ThenDisconnectMoves(w, HandleJoin(w, i, p, e, now).0, i, false, now, -1);
      } else if p.kind == TEXT {
        HandleTextMoves(w, i, p, e, now);
        ThenDisconnectMoves(w, HandleText(w, i, p, e, now).0, i, false, now, -1);
      } else if p.kind == LEAVE {
        DisconnectMoves(w, i, true, now);
      } else {
        ComplainMoves(w, i, Unsupported, now);
        ThenDisconnectMoves(w, Complain(w, i, Unsupported, now), i, false, now, -1);
      }
  }

  lemma {:induction false} ReapedHas(slots: seq<Slot>, now: int, n: nat, j: int)
    requires 0 <= j < n <= |slots| && Expired(slots[j], now)
    ensures Complained(slots[j].conn, AuthTimeout, now) in ReapedConns(slots, now, n)
    decreases n
  {
    if j < n - 1 {
      ReapedHas(slots, now, n - 1, j);
    }
  }

  lemma ReapMoves(w: World, now: int)
    ensures Moves(w, Reap(w, now), -1)
  {
    var after := Reap(w, now);
    forall i | 0 <= i < |w.slots| ensures SlotMoves(w.slots[i], after.slots[i], after.gone, i != -1) {
      if Expired(w.slots[i], now) {
        ReapedHas(w.slots, now, |w.slots|, i);
        assert Complained(w.slots[i].conn, AuthTimeout, now) in after.gone;
      }
    }
  }

  /** The slot that an event drains. */
  function Drains(e: Event): int {
    if e.Writable? then e.i else -1
  }

  /** A connection only ever goes from free to unjoined to joined to free. While
      it lasts its name, id, history and sent bytes are never revised; when it
      ends it is kept among the closed ones. A free slot is only filled by an
      arrival, and then with a connection that has not joined. */
  lemma Lifecycle(w: World, e: Event)
    requires Possible(w, e)
    ensures var after := Next(w, e);
      if e.Arrival? && FirstFree(w.slots, 0) >= 0 then
        after.gone == w.gone && after.slots == w.slots[FirstFree(w.slots, 0) := Busy(Fresh(e.fd, e.now, w.folded))]
      else Moves(w, after, Drains(e))
  {
    match e
    case Timeouts(now) => ReapMoves(w, now);
    case Arrival(fd, now) =>
    case Writable(i, d, now) =>
      var w1 := Put(w, i, AfterDrain(w.slots[i].conn, d));
      PutMoves(w, i, AfterDrain(w.slots[i].conn, d), i);
      ThenDisconnectMoves(w, w1, i, w1.slots[i].conn.joined, now, i);
    case Input(i, r, t, now) => ReadableMoves(w, i, r, t, now);
    case Hangup(i, now) => DisconnectMoves(w, i, w.slots[i].conn.joined, now);
  }

  /** Nothing is ever sent but by a drain of the connection's own ring. So an ERROR
      that is queued by the event that drops its client, whatever the reason, is
      never sent: the connection ends with the bytes it had been sent before. */
  lemma NothingSentElse(w: World, e: Event, i: int)
    requires Possible(w, e) && At(w, i) && Drains(e) != i
    ensures var after, c := Next(w, e), w.slots[i].conn;
      if At(after, i) then after.slots[i].conn.fd == c.fd && after.slots[i].conn.sent == c.sent
      else exists d :: d in after.gone && d.fd == c.fd && d.born == c.born && c.history <= d.history && d.sent == c.sent
  {
    Lifecycle(w, e);
    var after, c := Next(w, e), w.slots[i].conn;
    if Moves(w, after, Drains(e)) {
      assert SlotMoves(w.slots[i], after.slots[i], after.gone, i != Drains(e));
      if !At(after, i) {
        var d :| d in after.gone && Becomes(c, d, true);
      }
    }
  }
}
