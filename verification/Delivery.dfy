/** Ordered broadcast and byte-exact delivery, kept by every event. */
module Delivery {
  import opened Wire
  import opened Ring
  import opened Store
  import opened Chat

  predicate IsChat(p: Packet) {
    p.kind != ACK && p.kind != ERROR
  }

  /** A history without the packets meant for one client only. */
  function ChatOnly(h: seq<Packet>): (r: seq<Packet>) {
    if h == [] then []
    else ChatOnly(h[..|h| - 1]) + if IsChat(h[|h| - 1]) then [h[|h| - 1]] else []
  }

  lemma ChatOnlySnoc(h: seq<Packet>, p: Packet)
    ensures ChatOnly(h + [p]) == ChatOnly(h) + if IsChat(p) then [p] else []
  {
    assert (h + [p])[..|h + [p]| - 1] == h;
  }

  predicate IsGreeting(p: Packet, c: Conn) {
    p.kind == ACK && p.sender == c.userId && p.body == AckText(c.name)
  }

  predicate IsOwnNotice(p: Packet, c: Conn) {
    p.kind == JOIN && p.sender == c.userId && p.body == JoinText(c.name)
  }

  /** The bytes of a connection, those sent first, are those of its history exactly
      if no drain has taken more than was queued; otherwise they are too many. A
      folded ring never gets there. */
  ghost predicate Faithful(c: Conn) {
    && (if c.spoiled then |c.sent| + |c.queue| > |EncodeAll(c.history)|
        else c.sent + c.queue == EncodeAll(c.history))
    && (c.folded ==> c.tail < RING_SIZE && !c.spoiled)
    && (forall p | p in c.history :: WellFormed(p))
    && |c.queue| == Queued(c.head, c.tail)
    && (c.queue != [] ==> c.armed)
  }

  /** A member got its ACK first and since then all broadcasts from its own JOIN
      notice on, in order. */
  ghost predicate InStep(c: Conn, log: seq<Packet>) {
    && c.since <= |log|
    && ChatOnly(c.history) == log[c.since..]
    && c.history != [] && IsGreeting(c.history[0], c)
    && (c.since < |log| ==> IsOwnNotice(log[c.since], c))
    && |c.name| <= USERNAME_MAX
  }

  ghost predicate ConnOk(c: Conn, log: seq<Packet>) {
    if c.joined then Faithful(c) && InStep(c, log) else c == Fresh(c.fd, c.born, c.folded)
  }

  /** What stays true of a connection once it is being dropped. */
  ghost predicate GoneOk(c: Conn, log: seq<Packet>) {
    && Faithful(c)
    && c.since <= |log|
    && ChatOnly(c.history) <= log[c.since..]
    && (c.joined ==> c.history != [] && IsGreeting(c.history[0], c) && |c.name| <= USERNAME_MAX)
    && (c.joined ==> c.since < |log| && IsOwnNotice(log[c.since], c))
  }

  /** All slots are in order except possibly slot x, whose client is leaving. */
  ghost predicate OrderedBut(w: World, x: int) {
    && (forall i | 0 <= i < |w.slots| && w.slots[i].Busy? ::
          if i == x then GoneOk(w.slots[i].conn, w.log) else ConnOk(w.slots[i].conn, w.log))
    && (forall c | c in w.gone :: GoneOk(c, w.log))
    && (forall p | p in w.log :: IsChat(p))
    && (forall i | 0 <= i < |w.slots| && w.slots[i].Busy? :: w.slots[i].conn.folded == w.folded)
    && (forall c | c in w.gone :: c.folded == w.folded)
  }

  /** Every member (but x) has seen its own JOIN notice. */
  ghost predicate AnnouncedBut(w: World, x: int) {
    forall i | 0 <= i < |w.slots| && i != x && Member(w.slots[i]) :: w.slots[i].conn.since < |w.log|
  }

  ghost predicate Ordered(w: World) {
    OrderedBut(w, -1) && AnnouncedBut(w, -1)
  }

  lemma OkThenGone(c: Conn, log: seq<Packet>)
    requires ConnOk(c, log) && (c.joined ==> c.since < |log|)
    ensures GoneOk(c, log)
  {
    if !c.joined {
      assert EncodeAll([]) == [] && ChatOnly([]) == [];
    }
  }

  lemma GoneStays(c: Conn, log: seq<Packet>, p: Packet)
    requires GoneOk(c, log)
    ensures GoneOk(c, log + [p])
  {
    assert (log + [p])[c.since..] == log[c.since..] + [p];
  }

  lemma PushFaithful(c: Conn, p: Packet)
    requires Faithful(c) && WellFormed(p) && Fits(c, p)
    ensures Faithful(Push(c, p))
  {
    EncodeAllSnoc(c.history, p);
    Regroup(c.sent, c.queue, Encode(p));
    AdvancedQueued(c.head, c.tail, |Encode(p)|, c.folded);
  }

  /** A member that receives a broadcast stays in step with the longer log. */
  lemma PushInStep(c: Conn, log: seq<Packet>, p: Packet)
    requires Faithful(c) && InStep(c, log) && WellFormed(p) && IsChat(p) && Fits(c, p)
    requires c.since == |log| ==> IsOwnNotice(p, c)
    ensures Faithful(Push(c, p)) && InStep(Push(c, p), log + [p])
  {
    PushFaithful(c, p);
    ChatOnlySnoc(c.history, p);
    assert (log + [p])[c.since..] == log[c.since..] + [p];
  }

  /** A packet for one client alone leaves it in step. */
  lemma PushAside(c: Conn, log: seq<Packet>, p: Packet)
    requires WellFormed(p) && !IsChat(p) && Fits(c, p)
    requires GoneOk(c, log)
    ensures GoneOk(Push(c, p), log)
    ensures c.joined && ConnOk(c, log) ==> ConnOk(Push(c, p), log)
  {
    PushFaithful(c, p);
    ChatOnlySnoc(c.history, p);
    if c.joined && ConnOk(c, log) {
      assert Push(c, p).history[0] == c.history[0];
    }
  }

  lemma DroppedAre(slots: seq<Slot>, p: Packet, except: int, n: nat, c: Conn)
    requires n <= |slots| && c in Dropped(slots, p, except, n)
    ensures exists i :: 0 <= i < n && Overrun(slots[i], i, p, except) && slots[i].conn == c
  {
    if n > 0 && !(Overrun(slots[n - 1], n - 1, p, except) && slots[n - 1].conn == c) {
      DroppedAre(slots, p, except, n - 1, c);
    }
  }

  /** Members that have not seen their own notice are about to get it. */
  ghost predicate AnnouncedBy(w: World, x: int, p: Packet) {
    forall i | 0 <= i < |w.slots| && i != x && Member(w.slots[i]) ::
      w.slots[i].conn.since < |w.log| || IsOwnNotice(p, w.slots[i].conn)
  }

  /** A member that the broadcast drops. */
  lemma DroppedIsGoneOk(c: Conn, log: seq<Packet>, p: Packet)
    requires c.joined && ConnOk(c, log) && (c.since < |log| || IsOwnNotice(p, c))
    ensures GoneOk(c, log + [p])
  {
    assert (log + [p])[c.since..] == log[c.since..] + [p];
  }

  lemma SlotToldOk(w: World, p: Packet, x: int, i: int)
    requires OrderedBut(w, x) && AnnouncedBy(w, x, p) && WellFormed(p) && IsChat(p)
    requires 0 <= i < |w.slots| && Delivered(w.slots[i], i, p, x).Busy?
    ensures var c := Delivered(w.slots[i], i, p, x).conn;
      && (if i == x then GoneOk(c, w.log + [p]) else ConnOk(c, w.log + [p]))
      && c.folded == w.folded && (i != x && c.joined ==> c.since < |w.log| + 1)
  {
    var c := w.slots[i].conn;
    if i == x {
      GoneStays(c, w.log, p);
    } else if c.joined {
      PushInStep(c, w.log, p);
    }
  }

  lemma DroppedOk(w: World, p: Packet, x: int, c: Conn)
    requires OrderedBut(w, x) && AnnouncedBy(w, x, p) && c in Dropped(w.slots, p, x, |w.slots|)
    ensures GoneOk(c, w.log + [p]) && c.folded == w.folded
  {
    DroppedAre(w.slots, p, x, |w.slots|, c);
    DroppedIsGoneOk(c, w.log, p);
  }

  lemma BroadcastKeeps(w: World, p: Packet, x: int)
    requires OrderedBut(w, x) && AnnouncedBy(w, x, p) && WellFormed(p) && IsChat(p)
    ensures OrderedBut(Broadcast(w, p, x), x) && AnnouncedBut(Broadcast(w, p, x), x)
  {
    var after := Broadcast(w, p, x);
    forall i | 0 <= i < |after.slots| && after.slots[i].Busy?
      ensures if i == x then GoneOk(after.slots[i].conn, after.log) else ConnOk(after.slots[i].conn, after.log)
      ensures after.slots[i].conn.folded == w.folded
      ensures i != x && after.slots[i].conn.joined ==> after.slots[i].conn.since < |after.log|
    {
      SlotToldOk(w, p, x, i);
    }
    forall c | c in after.gone ensures GoneOk(c, after.log) && c.folded == w.folded {
      if c in w.gone {
        GoneStays(c, w.log, p);
      } else {
        DroppedOk(w, p, x, c);
      }
    }
  }

  /** Letting go of slot i: its client is known to be leaving. */
  lemma LeavingIsFine(w: World, i: int)
    requires Ordered(w) && At(w, i)
    ensures OrderedBut(w, i) && AnnouncedBut(w, i)
  {
    OkThenGone(w.slots[i].conn, w.log);
  }

  lemma ReleaseKeeps(w: World, i: int)
    requires OrderedBut(w, i) && AnnouncedBut(w, i) && At(w, i)
    ensures Ordered(Release(w, i))
  {
  }

  lemma DisconnectKeeps(w: World, i: int, announce: bool, now: int)
    requires OrderedBut(w, i) && AnnouncedBut(w, i) && At(w, i)
    ensures Ordered(Disconnect(w, i, announce, now))
  {
    var c := w.slots[i].conn;
    if announce && c.joined {
      BroadcastKeeps(w, LeavePacket(c, now), i);
      ReleaseKeeps(Broadcast(w, LeavePacket(c, now), i), i);
    } else {
      ReleaseKeeps(w, i);
    }
  }

  lemma PutKeeps(w: World, i: int, c: Conn)
    requires Ordered(w) && At(w, i) && c.folded == w.folded && GoneOk(c, w.log)
    ensures OrderedBut(Put(w, i, c), i) && AnnouncedBut(Put(w, i, c), i)
    ensures ConnOk(c, w.log) && (c.joined ==> c.since < |w.log|) ==> Ordered(Put(w, i, c))
  {
  }

  lemma ComplainedOk(c: Conn, log: seq<Packet>, e: Complaint, now: int)
    requires GoneOk(c, log)
    ensures var after := Complained(c, e, now);
      && GoneOk(after, log) && after.folded == c.folded && after.joined == c.joined && after.since == c.since
      && (c.joined && ConnOk(c, log) ==> ConnOk(after, log))
  {
    if Fits(c, ErrorPacket(e, now)) {
      PushAside(c, log, ErrorPacket(e, now));
    }
  }

  lemma ComplainKeeps(w: World, i: int, e: Complaint, now: int)
    requires Ordered(w) && At(w, i)
    ensures OrderedBut(Complain(w, i, e, now), i) && AnnouncedBut(Complain(w, i, e, now), i)
    ensures w.slots[i].conn.joined ==> Ordered(Complain(w, i, e, now))
  {
    var c := w.slots[i].conn;
    OkThenGone(c, w.log);
    ComplainedOk(c, w.log, e, now);
    PutKeeps(w, i, Complained(c, e, now));
  }

  lemma StoreAside(w: World, db: Tables)
    ensures Ordered(w.(db := db)) <==> Ordered(w)
  {
  }

  /** A fresh connection has room for its ACK, which starts its history. */
  lemma AckFits(c: Conn, log: seq<Packet>, now: int)
    requires c == Fresh(c.fd, c.born, c.folded).(joined := true, userId := c.userId, name := c.name, since := |log|)
    requires |c.name| <= USERNAME_MAX
    ensures var ack := AckPacket(c.userId, c.name, now); Fits(c, ack) && ConnOk(Push(c, ack), log)
  {
    var ack := AckPacket(c.userId, c.name, now);
    assert EncodeAll([]) == [] && ChatOnly([]) == [];
    PushFaithful(c, ack);
    ChatOnlySnoc([], ack);
    assert log[|log|..] == [];
  }

  lemma WelcomedKeeps(w: World, i: int, id: U32, name: CStr, now: int)
    requires Ordered(w) && At(w, i) && !w.slots[i].conn.joined && |name| <= USERNAME_MAX
    ensures var (after, ok) := Welcomed(w, i, id, name, now); ok && Ordered(after)
  {
    var c := Joiner(w, i, name, id);
    AckFits(c, w.log, now);
    var w1 := Put(w, i, Push(c, AckPacket(id, name, now)));
    JoinerStands(w, i, Push(c, AckPacket(id, name, now)));
    assert IsOwnNotice(JoinPacket(id, name, now), w1.slots[i].conn);
    BroadcastKeeps(w1, JoinPacket(id, name, now), -1);
  }

  lemma JoinerStands(w: World, i: int, c: Conn)
    requires Ordered(w) && At(w, i) && ConnOk(c, w.log) && c.folded == w.folded
    ensures OrderedBut(Put(w, i, c), -1) && AnnouncedBut(Put(w, i, c), i)
  {
  }

  lemma HandleJoinKeeps(w: World, i: int, p: Packet, e: Trouble, now: int)
    requires Ordered(w) && At(w, i)
    ensures var (after, ok) := HandleJoin(w, i, p, e, now);
      if ok then Ordered(after) else At(after, i) && OrderedBut(after, i) && AnnouncedBut(after, i)
  {
    var complaint := JoinComplaint(w, i, p);
    if complaint.Some? {
      ComplainKeeps(w, i, complaint.value, now);
    } else {
      var name := CString(p.body);
      var (db, id) := Registered(w.db, name, e);
      StoreAside(w, db);
      if id.None? {
        ComplainKeeps(w.(db := db), i, NotRegistered, now);
      } else {
        WelcomedKeeps(w.(db := db), i, id.value, name, now);
      }
    }
  }

  lemma HandleTextKeeps(w: World, i: int, p: Packet, e: Trouble, now: int)
    requires Ordered(w) && At(w, i)
    ensures var (after, ok) := HandleText(w, i, p, e, now);
      if ok then Ordered(after) else At(after, i) && OrderedBut(after, i) && AnnouncedBut(after, i)
  {
    var c := w.slots[i].conn;
    var body := CString(p.body);
    if !c.joined {
      ComplainKeeps(w, i, NotJoined, now);
    } else if |p.body| == 0 {
      ComplainKeeps(w, i, EmptyMessage, now);
    } else if |DisplayText(c.name, body)| > BODY_MAX {
      ComplainKeeps(w, i, TooLongWithName, now);
    } else {
      var (db, stored) := Inserted(w.db, c.userId, body, Stamp(now), e);
      if !stored {
        ComplainKeeps(w, i, NotStored, now);
      } else {
        StoreAside(w, db);
        BroadcastKeeps(w.(db := db), Notice(TEXT, c.userId, now, DisplayText(c.name, body)), -1);
      }
    }
  }

  lemma ReadableKeeps(w: World, i: int, r: Receipt, e: Trouble, now: int)
    requires Ordered(w) && At(w, i)
    ensures Ordered(Readable(w, i, r, e, now))
  {
    LeavingIsFine(w, i);
    match r
    case NotYet =>
    case PeerGone => DisconnectKeeps(w, i, w.slots[i].conn.joined, now);
    case Failed => DisconnectKeeps(w, i, w.slots[i].conn.joined, now);
    case Got(p) =>
      if p.kind == JOIN {
        HandleJoinKeeps(w, i, p, e, now);
        var (after, ok) := HandleJoin(w, i, p, e, now);
        if !ok { DisconnectKeeps(after, i, false, now); }
      } else if p.kind == TEXT {
        HandleTextKeeps(w, i, p, e, now);
        var (after, ok) := HandleText(w, i, p, e, now);
        if !ok { DisconnectKeeps(after, i, false, now); }
      } else if p.kind == LEAVE {
        DisconnectKeeps(w, i, true, now);
      } else {
        ComplainKeeps(w, i, Unsupported, now);
        DisconnectKeeps(Complain(w, i, Unsupported, now), i, false, now);
      }
  }

  /** A drain moves bytes from the ring to the wire. */
  lemma DrainKeeps(c: Conn, log: seq<Packet>, d: Drained)
    requires ConnOk(c, log) && CanDrain(c, d)
    ensures ConnOk(AfterDrain(c, d), log)
  {
    Regroup(c.sent, d.accepted, d.left);
    if c.tail < RING_SIZE {
      SweepStaysInside(c.head, c.tail, d.sends, 0);
    }
  }

  lemma FlushKeeps(w: World, i: int, d: Drained, now: int)
    requires Ordered(w) && Possible(w, Writable(i, d, now))
    ensures Ordered(Flush(w, i, d, now))
  {
    var c := w.slots[i].conn;
    DrainKeeps(c, w.log, d);
    var w1 := Put(w, i, AfterDrain(c, d));
    LeavingIsFine(w1, i);
    if d.broken {
      DisconnectKeeps(w1, i, w1.slots[i].conn.joined, now);
    }
  }

  lemma ReapedAre(slots: seq<Slot>, now: int, n: nat, c: Conn)
    requires n <= |slots| && c in ReapedConns(slots, now, n)
    ensures exists i :: 0 <= i < n && Expired(slots[i], now) && Complained(slots[i].conn, AuthTimeout, now) == c
  {
    if n > 0 && !(Expired(slots[n - 1], now) && Complained(slots[n - 1].conn, AuthTimeout, now) == c) {
      ReapedAre(slots, now, n - 1, c);
    }
  }

  lemma ReapKeeps(w: World, now: int)
    requires Ordered(w)
    ensures Ordered(Reap(w, now))
  {
    forall c | c in Reap(w, now).gone ensures GoneOk(c, w.log) && c.folded == w.folded {
      if c !in w.gone {
        ReapedAre(w.slots, now, |w.slots|, c);
        var i :| 0 <= i < |w.slots| && Expired(w.slots[i], now) && Complained(w.slots[i].conn, AuthTimeout, now) == c;
        OkThenGone(w.slots[i].conn, w.log);
        PushAside(w.slots[i].conn, w.log, ErrorPacket(AuthTimeout, now));
      }
    }
  }

  lemma AdmitKeeps(w: World, fd: int, now: int)
    requires Ordered(w)
    ensures Ordered(Admit(w, fd, now))
  {
    OkThenGone(Fresh(fd, now, w.folded), w.log);
  }

  lemma NextKeeps(w: World, e: Event)
    requires Ordered(w) && Possible(w, e)
    ensures Ordered(Next(w, e))
  {
    match e
    case Timeouts(now) => ReapKeeps(w, now);
    case Arrival(fd, now) => AdmitKeeps(w, fd, now);
    case Writable(i, d, now) => FlushKeeps(w, i, d, now);
    case Input(i, r, t, now) => ReadableKeeps(w, i, r, t, now);
    case Hangup(i, now) =>
      LeavingIsFine(w, i);
      DisconnectKeeps(w, i, w.slots[i].conn.joined, now);
  }

  lemma SameRing(w: World, e: Event)
    requires Possible(w, e)
    ensures Next(w, e).folded == w.folded
  {
  }

  /** Every run from an empty server keeps the broadcasts in order. */
  lemma {:induction false} AlwaysOrdered(db: Tables, folded: bool, es: seq<Event>)
    requires IsRun(Start(db, folded), es)
    ensures Ordered(After(Start(db, folded), es)) && After(Start(db, folded), es).folded == folded
    decreases |es|
  {
    if es != [] {
      AlwaysOrdered(db, folded, es[..|es| - 1]);
      NextKeeps(After(Start(db, folded), es[..|es| - 1]), es[|es| - 1]);
      SameRing(After(Start(db, folded), es[..|es| - 1]), es[|es| - 1]);
    }
  }
}
