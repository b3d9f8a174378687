/** No two members share a name or a user id. */
module Identity {
  import opened Wire
  import opened Store
  import opened Chat

  ghost predicate SameMember(a: Slot, b: Slot) {
    Member(a) && Member(b) && a.conn.name == b.conn.name && a.conn.userId == b.conn.userId
  }

  ghost predicate DistinctNames(slots: seq<Slot>) {
    forall i, j | 0 <= i < j < |slots| && Member(slots[i]) && Member(slots[j]) :: slots[i].conn.name != slots[j].conn.name
  }

  ghost predicate DistinctIds(slots: seq<Slot>) {
    forall i, j | 0 <= i < j < |slots| && Member(slots[i]) && Member(slots[j]) :: slots[i].conn.userId != slots[j].conn.userId
  }

  /** Members hold different names, and the ids the store gave to those names. */
  ghost predicate Identified(w: World) {
    && Valid(w.db)
    && DistinctNames(w.slots)
    && (forall i | 0 <= i < |w.slots| && Member(w.slots[i]) ::
          w.slots[i].conn.name in w.db.idOf && w.slots[i].conn.userId == Narrow(w.db.idOf[w.slots[i].conn.name]))
  }

  ghost predicate Extends(before: Tables, after: Tables) {
    forall n | n in before.idOf :: n in after.idOf && after.idOf[n] == before.idOf[n]
  }

  /** Nobody joins: the members left were members before. */
  ghost predicate NobodyJoins(w: World, after: World) {
    && |after.slots| == |w.slots|
    && (forall i | 0 <= i < |w.slots| && Member(after.slots[i]) :: SameMember(w.slots[i], after.slots[i]))
  }

  lemma NobodyJoinsKeeps(w: World, after: World)
    requires Identified(w) && NobodyJoins(w, after) && Valid(after.db) && Extends(w.db, after.db)
    ensures Identified(after)
  {
    forall i, j | 0 <= i < j < |after.slots| && Member(after.slots[i]) && Member(after.slots[j])
      ensures after.slots[i].conn.name != after.slots[j].conn.name
    {
      assert SameMember(w.slots[i], after.slots[i]) && SameMember(w.slots[j], after.slots[j]);
    }
    forall i | 0 <= i < |after.slots| && Member(after.slots[i])
      ensures after.slots[i].conn.name in after.db.idOf
      ensures after.slots[i].conn.userId == Narrow(after.db.idOf[after.slots[i].conn.name])
    {
      assert SameMember(w.slots[i], after.slots[i]);
    }
  }

  lemma DisconnectShrinks(w: World, i: int, announce: bool, now: int)
    ensures NobodyJoins(w, Disconnect(w, i, announce, now))
  {
  }

  lemma ComplainShrinks(w: World, i: int, e: Complaint, now: int)
    requires At(w, i)
    ensures NobodyJoins(w, Complain(w, i, e, now))
  {
  }

  lemma BroadcastShrinks(w: World, p: Packet, except: int)
    ensures NobodyJoins(w, Broadcast(w, p, except))
  {
  }

  lemma TextShrinks(w: World, i: int, p: Packet, e: Trouble, now: int)
    requires At(w, i)
    ensures NobodyJoins(w, HandleText(w, i, p, e, now).0)
  {
    var c := w.slots[i].conn;
    forall k ensures NobodyJoins(w, Complain(w, i, k, now)) {
      ComplainShrinks(w, i, k, now);
    }
    var w1 := w.(db := Inserted(w.db, c.userId, CString(p.body), Stamp(now), e).0);
    BroadcastShrinks(w1, Notice(TEXT, c.userId, now, DisplayText(c.name, CString(p.body))), -1);
  }

  lemma HandleTextKeeps(w: World, i: int, p: Packet, e: Trouble, now: int)
    requires Identified(w) && At(w, i)
    ensures Identified(HandleText(w, i, p, e, now).0)
  {
    TextShrinks(w, i, p, e, now);
    InsertedKeepsValid(w.db, w.slots[i].conn.userId, CString(p.body), Stamp(now), e);
    NobodyJoinsKeeps(w, HandleText(w, i, p, e, now).0);
  }

  lemma BroadcastKeeps(w: World, p: Packet, except: int)
    requires Identified(w)
    ensures Identified(Broadcast(w, p, except))
  {
    NobodyJoinsKeeps(w, Broadcast(w, p, except));
  }

  /** The joiner takes a name that no member has. */
  lemma JoinerIdentified(w: World, i: int, c: Conn)
    requires Identified(w) && At(w, i) && !NameInUse(w, c.name, i)
    requires c.name in w.db.idOf && c.userId == Narrow(w.db.idOf[c.name])
    ensures Identified(Put(w, i, c))
  {
  }

  lemma HandleJoinKeeps(w: World, i: int, p: Packet, e: Trouble, now: int)
    requires Identified(w) && At(w, i)
    ensures Identified(HandleJoin(w, i, p, e, now).0)
  {
    var complaint := JoinComplaint(w, i, p);
    if complaint.Some? {
      ComplainShrinks(w, i, complaint.value, now);
      NobodyJoinsKeeps(w, Complain(w, i, complaint.value, now));
    } else {
      var name := CString(p.body);
      var (db, id) := Registered(w.db, name, e);
      var w1 := w.(db := db);
      RegisteredKeepsValid(w.db, name, e);
      NobodyJoinsKeeps(w, w1);
      if id.None? {
        ComplainShrinks(w1, i, NotRegistered, now);
        NobodyJoinsKeeps(w1, Complain(w1, i, NotRegistered, now));
      } else {
        var c := Joiner(w1, i, name, id.value);
        var ack := AckPacket(id.value, name, now);
        assert !NameInUse(w1, name, i);
        JoinerIdentified(w1, i, c);
        JoinerIdentified(w1, i, Push(c, ack));
        BroadcastKeeps(Put(w1, i, Push(c, ack)), JoinPacket(id.value, name, now), -1);
      }
    }
  }

  lemma DisconnectKeeps(w: World, i: int, announce: bool, now: int)
    requires Identified(w)
    ensures Identified(Disconnect(w, i, announce, now))
  {
    DisconnectShrinks(w, i, announce, now);
    NobodyJoinsKeeps(w, Disconnect(w, i, announce, now));
  }

  lemma ReadableKeeps(w: World, i: int, r: Receipt, e: Trouble, now: int)
    requires Identified(w) && At(w, i)
    ensures Identified(Readable(w, i, r, e, now))
  {
    match r
    case NotYet =>
    case PeerGone => DisconnectKeeps(w, i, w.slots[i].conn.joined, now);
    case Failed => DisconnectKeeps(w, i, w.slots[i].conn.joined, now);
    case Got(p) =>
      if p.kind == JOIN {
        HandleJoinKeeps(w, i, p, e, now);
        DisconnectKeeps(HandleJoin(w, i, p, e, now).0, i, false, now);
      } else if p.kind == TEXT {
        HandleTextKeeps(w, i, p, e, now);
        DisconnectKeeps(HandleText(w, i, p, e, now).0, i, false, now);
      } else if p.kind == LEAVE {
        DisconnectKeeps(w, i, true, now);
      } else {
        ComplainShrinks(w, i, Unsupported, now);
        NobodyJoinsKeeps(w, Complain(w, i, Unsupported, now));
        DisconnectKeeps(Complain(w, i, Unsupported, now), i, false, now);
      }
  }

  lemma NextKeeps(w: World, e: Event)
    requires Identified(w) && Possible(w, e)
    ensures Identified(Next(w, e))
  {
    match e
    case Timeouts(now) => NobodyJoinsKeeps(w, Reap(w, now));
    case Arrival(fd, now) => NobodyJoinsKeeps(w, Admit(w, fd, now));
    case Writable(i, d, now) =>
      var w1 := Put(w, i, AfterDrain(w.slots[i].conn, d));
      NobodyJoinsKeeps(w, w1);
      DisconnectKeeps(w1, i, w1.slots[i].conn.joined, now);
    case Hangup(i, now) => DisconnectKeeps(w, i, w.slots[i].conn.joined, now);
    case Input(i, r, t, now) => ReadableKeeps(w, i, r, t, now);
  }

  lemma {:induction false} AlwaysIdentified(db: Tables, folded: bool, es: seq<Event>)
    requires Valid(db) && IsRun(Start(db, folded), es)
    ensures Identified(After(Start(db, folded), es))
    decreases |es|
  {
    if es != [] {
      AlwaysIdentified(db, folded, es[..|es| - 1]);
      NextKeeps(After(Start(db, folded), es[..|es| - 1]), es[|es| - 1]);
    }
  }

  /** Different members have different names. They have different ids exactly
      when their row ids do not agree modulo 2^32, so always as long as the
      store's ids fit the 32 bits of the wire. */
  lemma MembersDifferIn(w: World, i: nat, j: nat)
    requires Identified(w) && i < j < |w.slots| && Member(w.slots[i]) && Member(w.slots[j])
    ensures var a, b := w.slots[i].conn, w.slots[j].conn;
      && a.name != b.name && a.name in w.db.idOf && b.name in w.db.idOf
      && (a.userId == b.userId <==> (w.db.idOf[a.name] - w.db.idOf[b.name]) % 0x1_0000_0000 == 0)
      && (w.db.lastUser < 0x1_0000_0000 ==> a.userId != b.userId)
  {
    IdsCollideExactly(w.db, w.slots[i].conn.name, w.slots[j].conn.name);
  }

  /** At any time in any run. */
  lemma MembersDiffer(db: Tables, folded: bool, es: seq<Event>)
    requires Valid(db) && IsRun(Start(db, folded), es)
    ensures var w := After(Start(db, folded), es);
      && DistinctNames(w.slots)
      && (w.db.lastUser < 0x1_0000_0000 ==> DistinctIds(w.slots))
  {
    AlwaysIdentified(db, folded, es);
    var w := After(Start(db, folded), es);
    forall i, j | 0 <= i < j < |w.slots| && Member(w.slots[i]) && Member(w.slots[j])
      ensures w.db.lastUser < 0x1_0000_0000 ==> w.slots[i].conn.userId != w.slots[j].conn.userId
    {
      MembersDifferIn(w, i, j);
    }
  }
}
