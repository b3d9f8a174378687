/** The slot table loses and duplicates no socket, and the client count is exact. */
module Conservation {
  import opened Wire
  import opened Store
  import opened Chat

  /** Which connections to count: all of them, or those on one descriptor. */
  type Which = Option<int>

  function One(c: Conn, f: Which): nat {
    if f.None? || c.fd == f.value then 1 else 0
  }

  function Holding(s: Slot, f: Which): nat {
    if s.Busy? then One(s.conn, f) else 0
  }

  /** Active slots. */
  function Held(slots: seq<Slot>, f: Which): nat {
    if slots == [] then 0 else Held(slots[..|slots| - 1], f) + Holding(slots[|slots| - 1], f)
  }

  /** Sockets closed so far. */
  function Closed(gone: seq<Conn>, f: Which): nat {
    if gone == [] then 0 else Closed(gone[..|gone| - 1], f) + One(gone[|gone| - 1], f)
  }

  /** Sockets accepted so far. */
  function Accepted(sockets: seq<int>, f: Which): nat {
    if sockets == [] then 0
    else Accepted(sockets[..|sockets| - 1], f) + if f.None? || sockets[|sockets| - 1] == f.value then 1 else 0
  }

  ghost predicate Distinct(slots: seq<Slot>) {
    forall i, j | 0 <= i < j < |slots| && slots[i].Busy? && slots[j].Busy? :: slots[i].conn.fd != slots[j].conn.fd
  }

  ghost predicate Balanced(w: World, f: Which) {
    Accepted(w.sockets, f) == Held(w.slots, f) + Closed(w.gone, f)
  }

  /** Every accepted socket is in the table or closed; the count is the number
      of active slots, which hold different valid sockets. */
  ghost predicate Conserved(w: World) {
    && |w.slots| == MAX_CLIENTS
    && (forall f :: Balanced(w, f))
    && w.count == Held(w.slots, None)
    && Distinct(w.slots)
    && (forall i | 0 <= i < |w.slots| && w.slots[i].Busy? :: w.slots[i].conn.fd >= 0)
  }

  lemma {:induction false} HeldUpdate(slots: seq<Slot>, i: nat, s: Slot, f: Which)
    requires i < |slots|
    ensures Held(slots[i := s], f) + Holding(slots[i], f) == Held(slots, f) + Holding(s, f)
  {
    var n := |slots| - 1;
    if i == n {
      assert slots[i := s][..n] == slots[..n];
    } else {
      HeldUpdate(slots[..n], i, s, f);
      assert slots[i := s][..n] == slots[..n][i := s];
    }
  }

  lemma {:induction false} ClosedAppend(gone: seq<Conn>, more: seq<Conn>, f: Which)
    ensures Closed(gone + more, f) == Closed(gone, f) + Closed(more, f)
  {
    if more == [] {
      assert gone + more == gone;
    } else {
      ClosedAppend(gone, more[..|more| - 1], f);
      assert (gone + more)[..|gone + more| - 1] == gone + more[..|more| - 1];
    }
  }

  lemma ClosedSnoc(gone: seq<Conn>, c: Conn, f: Which)
    ensures Closed(gone + [c], f) == Closed(gone, f) + One(c, f)
  {
    assert (gone + [c])[..|gone|] == gone;
  }

  lemma {:induction false} ClosedSize(gone: seq<Conn>)
    ensures Closed(gone, None) == |gone|
  {
    if gone != [] {
      ClosedSize(gone[..|gone| - 1]);
    }
  }

  lemma HeldSnoc(slots: seq<Slot>, n: nat, f: Which)
    requires n < |slots|
    ensures Held(slots[..n + 1], f) == Held(slots[..n], f) + Holding(slots[n], f)
  {
    assert slots[..n + 1][..n] == slots[..n];
  }

  lemma SlotDelivered(s: Slot, i: int, p: Packet, except: int, f: Which)
    ensures Holding(Delivered(s, i, p, except), f)
      == if Overrun(s, i, p, except) then 0 else Holding(s, f)
  {
  }

  lemma ClosedDropped(slots: seq<Slot>, p: Packet, except: int, n: nat, f: Which)
    requires n < |slots|
    ensures Closed(Dropped(slots, p, except, n + 1), f)
      == Closed(Dropped(slots, p, except, n), f) + if Overrun(slots[n], n, p, except) then Holding(slots[n], f) else 0
  {
    if Overrun(slots[n], n, p, except) {
      ClosedSnoc(Dropped(slots, p, except, n), slots[n].conn, f);
    }
  }

  /** Slot by slot, a broadcast keeps a socket or closes it. */
  lemma HeldDelivered(slots: seq<Slot>, p: Packet, except: int, n: nat, f: Which)
    requires n <= |slots|
    ensures Held(slots[..n], f) == Held(DeliveredAll(slots, p, except)[..n], f) + Closed(Dropped(slots, p, except, n), f)
  {
    var after := DeliveredAll(slots, p, except);
    forall i | 0 <= i < |slots| ensures DealtWith(slots, after, p, except, i, f) {
      SlotDelivered(slots[i], i, p, except, f);
    }
    HeldOrDropped(slots, after, p, except, n, f);
  }

  /** Slot n has been dealt with: it is held as before, or dropped. */
  ghost predicate DealtWith(slots: seq<Slot>, after: seq<Slot>, p: Packet, except: int, n: nat, f: Which)
    requires n < |slots| == |after|
  {
    Holding(after[n], f) == if Overrun(slots[n], n, p, except) then 0 else Holding(slots[n], f)
  }

  lemma HeldStep(slots: seq<Slot>, after: seq<Slot>, p: Packet, except: int, n: nat, f: Which)
    requires n < |slots| == |after| && DealtWith(slots, after, p, except, n, f)
    ensures Held(slots[..n + 1], f) - Held(after[..n + 1], f) - Closed(Dropped(slots, p, except, n + 1), f)
      == Held(slots[..n], f) - Held(after[..n], f) - Closed(Dropped(slots, p, except, n), f)
  {
    HeldSnoc(slots, n, f);
    HeldSnoc(after, n, f);
    ClosedDropped(slots, p, except, n, f);
  }

  lemma {:induction false} HeldOrDropped(slots: seq<Slot>, after: seq<Slot>, p: Packet, except: int, n: nat, f: Which)
    requires n <= |slots| == |after|
    requires forall i | 0 <= i < |slots| :: DealtWith(slots, after, p, except, i, f)
    ensures Held(slots[..n], f) == Held(after[..n], f) + Closed(Dropped(slots, p, except, n), f)
  {
    if n > 0 {
      HeldOrDropped(slots, after, p, except, n - 1, f);
      HeldStep(slots, after, p, except, n - 1, f);
    }
  }

  /** Slot n has been looked at by the sweep: it is held as before, or freed. */
  ghost predicate LookedAt(slots: seq<Slot>, after: seq<Slot>, now: int, n: nat, f: Which)
    requires n < |slots| == |after|
  {
    Holding(after[n], f) == if Expired(slots[n], now) then 0 else Holding(slots[n], f)
  }

  lemma ClosedReaped(slots: seq<Slot>, now: int, n: nat, f: Which)
    requires n < |slots|
    ensures Closed(ReapedConns(slots, now, n + 1), f)
      == Closed(ReapedConns(slots, now, n), f) + if Expired(slots[n], now) then Holding(slots[n], f) else 0
  {
    if Expired(slots[n], now) {
      ClosedSnoc(ReapedConns(slots, now, n), Complained(slots[n].conn, AuthTimeout, now), f);
    }
  }

  lemma ReapedStep(slots: seq<Slot>, after: seq<Slot>, now: int, n: nat, f: Which)
    requires n < |slots| == |after| && LookedAt(slots, after, now, n, f)
    ensures Held(slots[..n + 1], f) - Held(after[..n + 1], f) - Closed(ReapedConns(slots, now, n + 1), f)
      == Held(slots[..n], f) - Held(after[..n], f) - Closed(ReapedConns(slots, now, n), f)
  {
    HeldSnoc(slots, n, f);
    HeldSnoc(after, n, f);
    ClosedReaped(slots, now, n, f);
  }

  lemma {:induction false} HeldOrReaped(slots: seq<Slot>, after: seq<Slot>, now: int, n: nat, f: Which)
    requires n <= |slots| == |after|
    requires forall i | 0 <= i < |slots| :: LookedAt(slots, after, now, i, f)
    ensures Held(slots[..n], f) == Held(after[..n], f) + Closed(ReapedConns(slots, now, n), f)
  {
    if n > 0 {
      HeldOrReaped(slots, after, now, n - 1, f);
      ReapedStep(slots, after, now, n - 1, f);
    }
  }

  /** So does the timeout sweep. */
  lemma HeldReaped(slots: seq<Slot>, now: int, n: nat, f: Which)
    requires n <= |slots|
    ensures Held(slots[..n], f) == Held(Reaped(slots, now)[..n], f) + Closed(ReapedConns(slots, now, n), f)
  {
    var after := Reaped(slots, now);
    forall i | 0 <= i < |slots| ensures LookedAt(slots, after, now, i, f) {
    }
    HeldOrReaped(slots, after, now, n, f);
  }

  /** Replacing a connection by another state of it. */
  lemma PutKeeps(w: World, i: int, c: Conn)
    requires Conserved(w) && At(w, i) && c.fd == w.slots[i].conn.fd
    ensures Conserved(Put(w, i, c))
  {
    forall f ensures Balanced(Put(w, i, c), f) {
      HeldUpdate(w.slots, i, Busy(c), f);
      assert Balanced(w, f);
    }
    HeldUpdate(w.slots, i, Busy(c), None);
  }

  lemma ReleaseKeeps(w: World, i: int)
    requires Conserved(w) && At(w, i)
    ensures Conserved(Release(w, i)) && Release(w, i).count == w.count - 1
  {
    forall f ensures Balanced(Release(w, i), f) {
      HeldUpdate(w.slots, i, Free, f);
      ClosedSnoc(w.gone, w.slots[i].conn, f);
      assert Balanced(w, f);
    }
    HeldUpdate(w.slots, i, Free, None);
  }

  lemma BroadcastBalances(w: World, p: Packet, except: int, f: Which)
    requires Balanced(w, f)
    ensures Balanced(Broadcast(w, p, except), f)
    ensures Held(w.slots, f)
      == Held(DeliveredAll(w.slots, p, except), f) + Closed(Dropped(w.slots, p, except, |w.slots|), f)
  {
    var after := DeliveredAll(w.slots, p, except);
    assert w.slots[..|w.slots|] == w.slots && after[..|w.slots|] == after;
    HeldDelivered(w.slots, p, except, |w.slots|, f);
    ClosedAppend(w.gone, Dropped(w.slots, p, except, |w.slots|), f);
  }

  lemma StillDistinct(slots: seq<Slot>, p: Packet, except: int)
    requires Distinct(slots)
    ensures Distinct(DeliveredAll(slots, p, except))
  {
  }

  lemma BroadcastKeeps(w: World, p: Packet, except: int)
    requires Conserved(w)
    ensures Conserved(Broadcast(w, p, except))
    ensures Broadcast(w, p, except).count == w.count - |Dropped(w.slots, p, except, |w.slots|)|
  {
    forall f ensures Balanced(Broadcast(w, p, except), f) {
      assert Balanced(w, f);
      BroadcastBalances(w, p, except, f);
    }
    assert Balanced(w, None);
    BroadcastBalances(w, p, except, None);
    ClosedSize(Dropped(w.slots, p, except, |w.slots|));
    StillDistinct(w.slots, p, except);
  }

  lemma DisconnectKeeps(w: World, i: int, announce: bool, now: int)
    requires Conserved(w)
    ensures Conserved(Disconnect(w, i, announce, now))
  {
    if At(w, i) {
      var c := w.slots[i].conn;
      if announce && c.joined {
        BroadcastKeeps(w, LeavePacket(c, now), i);
        ReleaseKeeps(Broadcast(w, LeavePacket(c, now), i), i);
      } else {
        ReleaseKeeps(w, i);
      }
    }
  }

  lemma ComplainKeeps(w: World, i: int, e: Complaint, now: int)
    requires Conserved(w) && At(w, i)
    ensures Conserved(Complain(w, i, e, now))
  {
    PutKeeps(w, i, Complained(w.slots[i].conn, e, now));
  }

  lemma StoreAside(w: World, db: Tables)
    requires Conserved(w)
    ensures Conserved(w.(db := db))
  {
    forall f ensures Balanced(w.(db := db), f) {
      assert Balanced(w, f);
    }
  }

  lemma HandleJoinKeeps(w: World, i: int, p: Packet, e: Trouble, now: int)
    requires Conserved(w) && At(w, i)
    ensures Conserved(HandleJoin(w, i, p, e, now).0)
  {
    var complaint := JoinComplaint(w, i, p);
    if complaint.Some? {
      ComplainKeeps(w, i, complaint.value, now);
    } else {
      var name := CString(p.body);
      var (db, id) := Registered(w.db, name, e);
      var w1 := w.(db := db);
      StoreAside(w, db);
      if id.None? {
        ComplainKeeps(w1, i, NotRegistered, now);
      } else {
        var c := Joiner(w1, i, name, id.value);
        var ack := AckPacket(id.value, name, now);
        PutKeeps(w1, i, c);
        PutKeeps(w1, i, Push(c, ack));
        BroadcastKeeps(Put(w1, i, Push(c, ack)), JoinPacket(id.value, name, now), -1);
      }
    }
  }

  lemma HandleTextKeeps(w: World, i: int, p: Packet, e: Trouble, now: int)
    requires Conserved(w) && At(w, i)
    ensures Conserved(HandleText(w, i, p, e, now).0)
  {
    var c := w.slots[i].conn;
    var body := CString(p.body);
    forall k ensures Conserved(Complain(w, i, k, now)) {
      ComplainKeeps(w, i, k, now);
    }
    var (db, stored) := Inserted(w.db, c.userId, body, Stamp(now), e);
    StoreAside(w, db);
    BroadcastKeeps(w.(db := db), Notice(TEXT, c.userId, now, DisplayText(c.name, body)), -1);
  }

  lemma ReadableKeeps(w: World, i: int, r: Receipt, e: Trouble, now: int)
    requires Conserved(w) && At(w, i)
    ensures Conserved(Readable(w, i, r, e, now))
  {
    match r
    case NotYet =>
    case PeerGone => DisconnectKeeps(w, i, w.slots[i].conn.joined, now);
    case Failed => DisconnectKeeps(w, i, w.slots[i].conn.joined, now);
    case Got(p) =>
      HandleJoinKeeps(w, i, p, e, now);
      HandleTextKeeps(w, i, p, e, now);
      DisconnectKeeps(HandleJoin(w, i, p, e, now).0, i, false, now);
      DisconnectKeeps(HandleText(w, i, p, e, now).0, i, false, now);
      DisconnectKeeps(w, i, true, now);
      ComplainKeeps(w, i, Unsupported, now);
      DisconnectKeeps(Complain(w, i, Unsupported, now), i, false, now);
  }

  lemma AdmitKeeps(w: World, fd: int, now: int)
    requires Conserved(w) && fd >= 0 && !IsOpen(w, fd)
    ensures Conserved(Admit(w, fd, now))
  {
    assert forall j | 0 <= j < |w.slots| :: !On(w.slots[j], fd);
    var i := FirstFree(w.slots, 0);
    var after := Admit(w, fd, now);
    forall f ensures Balanced(after, f) {
      assert Balanced(w, f);
      assert (w.sockets + [fd])[..|w.sockets|] == w.sockets;
      if i < 0 {
        ClosedSnoc(w.gone, Fresh(fd, now, w.folded), f);
      } else {
        HeldUpdate(w.slots, i, Busy(Fresh(fd, now, w.folded)), f);
      }
    }
    if i >= 0 {
      HeldUpdate(w.slots, i, Busy(Fresh(fd, now, w.folded)), None);
    }
  }

  lemma ReapKeeps(w: World, now: int)
    requires Conserved(w)
    ensures Conserved(Reap(w, now))
  {
    var after, reaped := Reaped(w.slots, now), ReapedConns(w.slots, now, |w.slots|);
    assert w.slots[..|w.slots|] == w.slots && after[..|w.slots|] == after;
    forall f ensures Balanced(Reap(w, now), f) {
      HeldReaped(w.slots, now, |w.slots|, f);
      ClosedAppend(w.gone, reaped, f);
      assert Balanced(w, f);
    }
    HeldReaped(w.slots, now, |w.slots|, None);
    ClosedSize(reaped);
  }

  lemma NextKeeps(w: World, e: Event)
    requires Conserved(w) && Possible(w, e)
    ensures Conserved(Next(w, e))
  {
    match e
    case Timeouts(now) => ReapKeeps(w, now);
    case Arrival(fd, now) => AdmitKeeps(w, fd, now);
    case Writable(i, d, now) =>
      var w1 := Put(w, i, AfterDrain(w.slots[i].conn, d));
      PutKeeps(w, i, AfterDrain(w.slots[i].conn, d));
      DisconnectKeeps(w1, i, w1.slots[i].conn.joined, now);
    case Input(i, r, t, now) => ReadableKeeps(w, i, r, t, now);
    case Hangup(i, now) => DisconnectKeeps(w, i, w.slots[i].conn.joined, now);
  }

  lemma {:induction false} NothingHeld(slots: seq<Slot>, f: Which)
    requires forall i | 0 <= i < |slots| :: slots[i].Free?
    ensures Held(slots, f) == 0
  {
    if slots != [] {
      NothingHeld(slots[..|slots| - 1], f);
    }
  }

  lemma {:induction false} AlwaysConserved(db: Tables, folded: bool, es: seq<Event>)
    requires IsRun(Start(db, folded), es)
    ensures Conserved(After(Start(db, folded), es))
    decreases |es|
  {
    if es == [] {
      forall f ensures Balanced(Start(db, folded), f) {
        NothingHeld(Start(db, folded).slots, f);
      }
      NothingHeld(Start(db, folded).slots, None);
    } else {
      AlwaysConserved(db, folded, es[..|es| - 1]);
      NextKeeps(After(Start(db, folded), es[..|es| - 1]), es[|es| - 1]);
    }
  }

  lemma {:induction false} HeldAtMostOnce(slots: seq<Slot>, fd: int)
    requires Distinct(slots)
    ensures Held(slots, Some(fd)) ==
      if exists i :: 0 <= i < |slots| && On(slots[i], fd) then 1 else 0
  {
    if slots != [] {
      var rest := slots[..|slots| - 1];
      HeldAtMostOnce(rest, fd);
      assert forall i :: 0 <= i < |rest| ==> rest[i] == slots[i];
    }
  }

  /** At any time a descriptor has been closed as often as it was accepted, or
      once less; the latter exactly while it is in the table. */
  lemma ClosedExactlyOnce(db: Tables, folded: bool, es: seq<Event>, fd: int)
    requires IsRun(Start(db, folded), es)
    ensures var w := After(Start(db, folded), es);
      Accepted(w.sockets, Some(fd)) == Closed(w.gone, Some(fd)) + if IsOpen(w, fd) then 1 else 0
  {
    AlwaysConserved(db, folded, es);
    var w := After(Start(db, folded), es);
    HeldAtMostOnce(w.slots, fd);
    assert Balanced(w, Some(fd));
  }

  lemma {:induction false} HeldSome(slots: seq<Slot>, i: nat)
    requires i < |slots| && slots[i].Busy?
    ensures Held(slots, None) > 0
  {
    if i < |slots| - 1 {
      HeldSome(slots[..|slots| - 1], i);
    }
  }

  lemma {:induction false} HeldPrefix(slots: seq<Slot>, n: nat, f: Which)
    requires n <= |slots|
    ensures Held(slots[..n], f) <= Held(slots, f)
    decreases |slots| - n
  {
    if n < |slots| {
      HeldPrefix(slots, n + 1, f);
      HeldSnoc(slots, n, f);
    } else {
      assert slots[..n] == slots;
    }
  }

  lemma DroppedAtMost(slots: seq<Slot>, p: Packet, except: int, n: nat)
    requires n <= |slots|
    ensures |Dropped(slots, p, except, n)| <= Held(slots[..n], None) <= Held(slots, None)
  {
    HeldDelivered(slots, p, except, n, None);
    ClosedSize(Dropped(slots, p, except, n));
    HeldPrefix(slots, n, None);
  }

  /** When slot n is about to be dropped, fewer clients than are held have been. */
  lemma DroppedBefore(slots: seq<Slot>, p: Packet, except: int, n: nat)
    requires n < |slots| && Overrun(slots[n], n, p, except)
    ensures |Dropped(slots, p, except, n)| < Held(slots, None)
  {
    DroppedAtMost(slots, p, except, n);
    HeldPrefix(slots, n + 1, None);
    HeldSnoc(slots, n, None);
  }

  /** The client that causes a broadcast is still held when it is over. */
  lemma DroppedBeforeCause(slots: seq<Slot>, p: Packet, except: nat)
    requires except < |slots| && slots[except].Busy?
    ensures |Dropped(slots, p, except, |slots|)| < Held(slots, None)
  {
    var after := DeliveredAll(slots, p, except);
    HeldDelivered(slots, p, except, |slots|, None);
    ClosedSize(Dropped(slots, p, except, |slots|));
    HeldSome(after, except);
    assert slots[..|slots|] == slots && after[..|slots|] == after;
  }

  /** The count while a broadcast is under way: whenever it drops a client, or its
      cause is dropped after it, the count is positive. */
  lemma NestedClampNeverFires(w: World, p: Packet, except: int, n: nat)
    requires Conserved(w) && n <= |w.slots|
    ensures Decreased(w.count, |Dropped(w.slots, p, except, n)|) == w.count - |Dropped(w.slots, p, except, n)|
    ensures n < |w.slots| && Overrun(w.slots[n], n, p, except) ==> w.count > |Dropped(w.slots, p, except, n)|
    ensures n == |w.slots| && At(w, except) ==> w.count > |Dropped(w.slots, p, except, n)|
  {
    DroppedAtMost(w.slots, p, except, n);
    if n < |w.slots| && Overrun(w.slots[n], n, p, except) {
      DroppedBefore(w.slots, p, except, n);
    }
    if n == |w.slots| && At(w, except) {
      DroppedBeforeCause(w.slots, p, except);
    }
  }

  /** The same for the timeout sweep. */
  lemma SweepClampNeverFires(w: World, now: int, n: nat)
    requires Conserved(w) && n < |w.slots| && Expired(w.slots[n], now)
    ensures Decreased(w.count, |ReapedConns(w.slots, now, n)|) == w.count - |ReapedConns(w.slots, now, n)| > 0
  {
    HeldReaped(w.slots, now, n, None);
    ClosedSize(ReapedConns(w.slots, now, n));
    HeldPrefix(w.slots, n + 1, None);
    HeldSnoc(w.slots, n, None);
  }

  /** Dropping client i counts down without the clamp: by itself, in its turn of a
      broadcast, and in its turn of the sweep. */
  ghost predicate CountsDown(w: World, i: nat, p: Packet, except: int, now: int)
    requires At(w, i)
  {
    && Decreased(w.count, 1) == w.count - 1
    && (Overrun(w.slots[i], i, p, except) ==>
          var k := |Dropped(w.slots, p, except, i)|; Decreased(w.count, k + 1) == w.count - k - 1)
    && (Expired(w.slots[i], now) ==>
          var k := |ReapedConns(w.slots, now, i)|; Decreased(w.count, k + 1) == w.count - k - 1)
  }

  lemma CountsDownSafely(w: World, i: nat, p: Packet, except: int, now: int)
    requires Conserved(w) && At(w, i)
    ensures CountsDown(w, i, p, except, now)
  {
    HeldSome(w.slots, i);
    NestedClampNeverFires(w, p, except, i);
    if Expired(w.slots[i], now) {
      SweepClampNeverFires(w, now, i);
    }
  }

  /** In every run the clamp of the client count never takes effect. */
  lemma ClampNeverFires(db: Tables, folded: bool, es: seq<Event>, i: nat, p: Packet, except: int, now: int)
    requires IsRun(Start(db, folded), es) && At(After(Start(db, folded), es), i)
    ensures CountsDown(After(Start(db, folded), es), i, p, except, now)
  {
    AlwaysConserved(db, folded, es);
    CountsDownSafely(After(Start(db, folded), es), i, p, except, now);
  }
}
