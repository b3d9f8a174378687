/** What every event does to the server, in plain numbers and words: who is let in,
    who stays, what is broadcast, stored and queued. None of it is said through the
    handlers' own functions. */
module Outcomes {
  import opened Wire
  import opened Ring
  import opened Store
  import opened Chat
  import opened Delivery
  import opened Guarantees
  import Conservation

  // ----- The packets --------------------------------------------------------

  function Clock(now: int): U32 {
    if now < 0 then 0 else now % 4294967296
  }

  function Greeting(id: U32, name: CStr, now: int): Packet {
    Packet(1, 4, id, Clock(now), Ascii("Connected as ") + name)
  }

  function Joining(id: U32, name: CStr, now: int): Packet {
    Packet(1, 1, id, Clock(now), Ascii("* ") + name + Ascii(" joined the chat"))
  }

  function Leaving(c: Conn, now: int): Packet {
    Packet(1, 3, c.userId, Clock(now), Ascii("* ") + c.name + Ascii(" left the chat"))
  }

  function Saying(c: Conn, body: CStr, now: int): Packet {
    Packet(1, 2, c.userId, Clock(now), c.name + Ascii(": ") + body)
  }

  function Refusal(text: string, now: int): Packet {
    Packet(1, 5, 0, Clock(now), Ascii(text))
  }

  // ----- The conditions -----------------------------------------------------

  predicate Room(c: Conn, p: Packet) {
    |c.queue| + 14 + |p.body| <= 2047
  }

  predicate NameFree(w: World, i: int, name: CStr) {
    forall j | 0 <= j < |w.slots| && j != i && w.slots[j].Busy? && w.slots[j].conn.joined :: w.slots[j].conn.name != name
  }

  /** A JOIN that makes client i a member. */
  predicate Admissible(w: World, i: int, p: Packet, t: Trouble)
    requires At(w, i)
  {
    && p.kind == 1 && !w.slots[i].conn.joined
    && 1 <= |p.body| <= 32 && NameFree(w, i, CString(p.body))
    && !t.begin && !t.insert && !t.commit && !t.find
  }

  /** A text of member i that is refused without ending the connection. */
  predicate Excused(w: World, i: int, p: Packet)
    requires At(w, i)
  {
    var c := w.slots[i].conn;
    p.kind == 2 && c.joined && (|p.body| == 0 || |c.name| + 2 + |CString(p.body)| > 512)
  }

  /** A text of member i that is stored and broadcast. */
  predicate Speaks(w: World, i: int, p: Packet, t: Trouble)
    requires At(w, i)
  {
    var c := w.slots[i].conn;
    && p.kind == 2 && c.joined && |p.body| > 0 && |c.name| + 2 + |CString(p.body)| <= 512
    && !t.message && c.userId in w.db.nameOf
  }

  /** The row id of a name that is being registered. */
  function RowId(db: Tables, name: CStr, gap: nat): int {
    if name in db.idOf then db.idOf[name] else db.lastUser + 1 + gap
  }

  /** Whether client i is still there after its packet. */
  predicate PacketStays(w: World, i: int, p: Packet, t: Trouble, now: int)
    requires At(w, i)
  {
    || Admissible(w, i, p, t)
    || Excused(w, i, p)
    || (Speaks(w, i, p, t) && Room(w.slots[i].conn, Saying(w.slots[i].conn, CString(p.body), now)))
  }

  /** What client i's packet makes the server broadcast. */
  function PacketSays(w: World, i: int, p: Packet, t: Trouble, now: int): seq<Packet>
    requires At(w, i)
  {
    var c, text := w.slots[i].conn, CString(p.body);
    if Admissible(w, i, p, t) then [Joining(RowId(w.db, text, t.gap) % 4294967296, text, now)]
    else if Speaks(w, i, p, t) then [Saying(c, text, now)]
    else if p.kind == 3 && c.joined then [Leaving(c, now)]
    else []
  }

  function Excuse(p: Packet, now: int): Packet {
    Refusal(if |p.body| == 0 then "Messages cannot be empty." else "That message is too long once the username is added.", now)
  }

  /** What client i alone is sent for its packet, if it stays. */
  function PacketOwn(w: World, i: int, p: Packet, t: Trouble, now: int): seq<Packet>
    requires At(w, i)
  {
    if Admissible(w, i, p, t) then [Greeting(RowId(w.db, CString(p.body), t.gap) % 4294967296, CString(p.body), now)]
    else if Excused(w, i, p) && Room(w.slots[i].conn, Excuse(p, now)) then [Excuse(p, now)]
    else []
  }

  /** Whether the client that an event is about is still there afterwards. */
  predicate Stays(w: World, e: Event)
    requires Possible(w, e) && About(e) >= 0
  {
    match e
    case Writable(_, d, _) => !d.broken
    case Input(_, NotYet, _, _) => true
    case Input(i, Got(p), t, now) => PacketStays(w, i, p, t, now)
    case _ => false
  }

  /** What an event broadcasts. */
  function Announcement(w: World, e: Event): seq<Packet>
    requires Possible(w, e)
  {
    match e
    case Writable(i, d, now) => if w.slots[i].conn.joined && d.broken then [Leaving(w.slots[i].conn, now)] else []
    case Hangup(i, now) => if w.slots[i].conn.joined then [Leaving(w.slots[i].conn, now)] else []
    case Input(i, NotYet, _, _) => []
    case Input(i, Got(p), t, now) => PacketSays(w, i, p, t, now)
    case Input(i, _, _, now) => if w.slots[i].conn.joined then [Leaving(w.slots[i].conn, now)] else []
    case _ => []
  }

  /** What a client that stays is sent besides what everybody gets. */
  function Own(w: World, e: Event): seq<Packet>
    requires Possible(w, e) && About(e) >= 0
  {
    match e
    case Input(i, Got(p), t, now) => PacketOwn(w, i, p, t, now)
    case _ => []
  }

  // ----- JOIN ---------------------------------------------------------------

  lemma NobodyHasIt(w: World, i: int, p: Packet)
    requires At(w, i)
    ensures JoinComplaint(w, i, p).None?
      <==> !w.slots[i].conn.joined && 1 <= |p.body| <= 32 && NameFree(w, i, CString(p.body))
  {
    var name := CString(p.body);
    if NameInUse(w, name, i) {
      var j :| 0 <= j < |w.slots| && j != i && Named(w.slots[j], name);
      assert !NameFree(w, i, name);
    } else {
      forall j | 0 <= j < |w.slots| && j != i && w.slots[j].Busy? && w.slots[j].conn.joined
        ensures w.slots[j].conn.name != name
      {
        assert !Named(w.slots[j], name);
      }
    }
  }

  lemma RegisteredExactly(t: Tables, name: CStr, e: Trouble)
    ensures var (after, id) := Registered(t, name, e);
      && (id.Some? <==> !e.begin && !e.insert && !e.commit && !e.find)
      && (id.Some? ==> id.value == RowId(t, name, e.gap) % 4294967296)
      && (if e.begin || e.insert || e.commit || name in t.idOf then after == t
          else
            && after.idOf == t.idOf[name := t.lastUser + 1 + e.gap] && after.nameOf == t.nameOf[t.lastUser + 1 + e.gap := name]
            && after.lastUser == t.lastUser + 1 + e.gap && after.messages == t.messages && after.lastMessage == t.lastMessage)
  {
  }

  lemma Texts(name: CStr, c: Conn, id: U32, body: CStr, now: int)
    requires |name| <= 32 && |c.name| <= 32
    ensures AckPacket(id, name, now) == Greeting(id, name, now) && JoinPacket(id, name, now) == Joining(id, name, now)
    ensures LeavePacket(c, now) == Leaving(c, now)
    ensures |DisplayText(c.name, body)| == |c.name| + 2 + |body|
    ensures |c.name| + 2 + |body| <= 512 ==> Notice(TEXT, c.userId, now, DisplayText(c.name, body)) == Saying(c, body, now)
  {
  }

  lemma FreshIsEmpty(w: World, i: int)
    requires Ordered(w) && At(w, i) && !w.slots[i].conn.joined
    ensures w.slots[i].conn.history == [] && w.slots[i].conn.queue == []
  {
  }

  /** What an admissible JOIN comes to. */
  lemma JoinAdmitted(w: World, i: int, p: Packet, t: Trouble, now: int)
    requires Ordered(w) && At(w, i) && Admissible(w, i, p, t)
    ensures var (after, ok) := HandleJoin(w, i, p, t, now);
      var name := CString(p.body);
      var id := RowId(w.db, name, t.gap) % 4294967296;
      && ok && At(after, i) && after.log == w.log + [Joining(id, name, now)]
      && after.slots[i].conn.joined && after.slots[i].conn.name == name && after.slots[i].conn.userId == id
      && after.slots[i].conn.history == [Greeting(id, name, now), Joining(id, name, now)]
      && after.slots[i].conn.queue == Encode(Greeting(id, name, now)) + Encode(Joining(id, name, now))
      && after.db == Registered(w.db, name, t).0
  {
    var name := CString(p.body);
    NobodyHasIt(w, i, p);
    RegisteredExactly(w.db, name, t);
    var (db, id) := Registered(w.db, name, t);
    Texts(name, w.slots[i].conn.(name := []), id.value, [], now);
    FreshIsEmpty(w, i);
    WelcomeSucceeds(w.(db := db), i, id.value, name, now);
    NewcomerHas(w.(db := db), i, id.value, name, now);
  }

  lemma JoinFails(w: World, i: int, p: Packet, t: Trouble, now: int)
    requires At(w, i) && p.kind == 1 && !Admissible(w, i, p, t)
    ensures var (after, ok) := HandleJoin(w, i, p, t, now);
      && !ok && At(after, i) && after.log == w.log
      && after.db == (if JoinComplaint(w, i, p).Some? then w.db else Registered(w.db, CString(p.body), t).0)
  {
    NobodyHasIt(w, i, p);
    RegisteredExactly(w.db, CString(p.body), t);
  }

  // ----- TEXT ---------------------------------------------------------------

  lemma Refused(w: World, i: int, e: Complaint, text: string, now: int)
    requires At(w, i) && text == Wording(e)
    ensures var c, after := w.slots[i].conn, Complain(w, i, e, now);
      && At(after, i) && after.log == w.log && after.db == w.db
      && after.slots[i].conn.joined == c.joined && after.slots[i].conn.name == c.name && after.slots[i].conn.userId == c.userId
      && after.slots[i].conn.history == c.history + if Room(c, Refusal(text, now)) then [Refusal(text, now)] else []
  {
    assert ErrorPacket(e, now) == Refusal(text, now);
  }

  lemma ExcusedIs(w: World, i: int, p: Packet, t: Trouble, now: int)
    requires At(w, i) && Excused(w, i, p)
    ensures HandleText(w, i, p, t, now)
      == (Complain(w, i, if |p.body| == 0 then EmptyMessage else TooLongWithName, now), true)
  {
    assert |DisplayText(w.slots[i].conn.name, CString(p.body))| == |w.slots[i].conn.name| + 2 + |CString(p.body)|;
  }

  lemma TextExcused(w: World, i: int, p: Packet, t: Trouble, now: int)
    requires At(w, i) && Excused(w, i, p)
    ensures var (after, ok) := HandleText(w, i, p, t, now);
      var c := w.slots[i].conn;
      && ok && At(after, i) && after.log == w.log && after.db == w.db
      && after.slots[i].conn.history == c.history + if Room(c, Excuse(p, now)) then [Excuse(p, now)] else []
  {
    ExcusedIs(w, i, p, t, now);
    if |p.body| == 0 {
      Refused(w, i, EmptyMessage, "Messages cannot be empty.", now);
    } else {
      Refused(w, i, TooLongWithName, "That message is too long once the username is added.", now);
    }
  }

  lemma TextSpoken(w: World, i: int, p: Packet, t: Trouble, now: int)
    requires Ordered(w) && At(w, i) && Speaks(w, i, p, t)
    ensures var (after, ok) := HandleText(w, i, p, t, now);
      var c := w.slots[i].conn;
      var said := Saying(c, CString(p.body), now);
      && ok && |after.slots| == |w.slots| && after.log == w.log + [said]
      && after.slots[i] == (if Room(c, said) then Busy(Push(c, said)) else Free)
      && after.db.messages == w.db.messages + [Row(w.db.lastMessage + 1 + t.gap, c.userId, CString(p.body), Clock(now))]
      && after.db == w.db.(messages := after.db.messages, lastMessage := w.db.lastMessage + 1 + t.gap)
  {
    Texts([], w.slots[i].conn, 0, CString(p.body), now);
  }

  lemma TextFails(w: World, i: int, p: Packet, t: Trouble, now: int)
    requires Ordered(w) && At(w, i) && p.kind == 2 && !Excused(w, i, p) && !Speaks(w, i, p, t)
    ensures var (after, ok) := HandleText(w, i, p, t, now);
      !ok && At(after, i) && after.log == w.log && after.db == w.db
  {
    Texts([], w.slots[i].conn.(name := if w.slots[i].conn.joined then w.slots[i].conn.name else []), 0, CString(p.body), now);
  }

  // ----- Every event ----------------------------------------------------------

  /** How an event ends for the client it is about, and what everybody hears. */
  ghost predicate Ends(w: World, after: World, i: int, stays: bool, said: seq<Packet>, own: seq<Packet>)
    requires At(w, i)
  {
    && (At(after, i) <==> stays)
    && after.log == w.log + said
    && (stays ==> after.slots[i].conn.history == w.slots[i].conn.history + own + said)
  }

  lemma DisconnectEnds(w: World, i: int, announce: bool, now: int)
    requires At(w, i) && (w.slots[i].conn.joined ==> |w.slots[i].conn.name| <= 32)
    ensures var after := Disconnect(w, i, announce, now);
      && Ends(w, after, i, false, if announce && w.slots[i].conn.joined then [Leaving(w.slots[i].conn, now)] else [], [])
      && after.db == w.db
  {
    if w.slots[i].conn.joined {
      Texts([], w.slots[i].conn, 0, [], now);
    }
  }

  lemma DropEnds(w: World, w1: World, i: int, now: int)
    requires At(w, i) && At(w1, i) && w1.log == w.log
    ensures var after := Disconnect(w1, i, false, now); Ends(w, after, i, false, [], []) && after.db == w1.db
  {
  }

  ghost predicate PacketEnd(w: World, after: World, i: int, p: Packet, t: Trouble, now: int)
    requires At(w, i)
  {
    Ends(w, after, i, PacketStays(w, i, p, t, now), PacketSays(w, i, p, t, now), PacketOwn(w, i, p, t, now))
  }

  /** Receiving a packet means its handler, and then possibly the end. */
  lemma ReadableIs(w: World, i: int, p: Packet, t: Trouble, now: int)
    requires At(w, i) && WellFormed(p)
    ensures var after := Readable(w, i, Got(p), t, now);
      && (p.kind == 1 ==> var (w1, ok) := HandleJoin(w, i, p, t, now); after == if ok then w1 else Disconnect(w1, i, false, now))
      && (p.kind == 2 ==> var (w1, ok) := HandleText(w, i, p, t, now); after == if ok then w1 else Disconnect(w1, i, false, now))
      && (p.kind == 3 ==> after == Disconnect(w, i, true, now))
      && (p.kind > 3 ==> after == Disconnect(Complain(w, i, Unsupported, now), i, false, now))
  {
  }

  lemma AdmittedEnds(w: World, i: int, p: Packet, t: Trouble, now: int)
    requires Ordered(w) && At(w, i) && WellFormed(p) && Admissible(w, i, p, t)
    ensures PacketEnd(w, Readable(w, i, Got(p), t, now), i, p, t, now)
  {
    ReadableIs(w, i, p, t, now);
    JoinAdmitted(w, i, p, t, now);
    FreshIsEmpty(w, i);
  }

  lemma FailedJoinEnds(w: World, i: int, p: Packet, t: Trouble, now: int)
    requires At(w, i) && WellFormed(p) && p.kind == 1 && !Admissible(w, i, p, t)
    ensures PacketEnd(w, Readable(w, i, Got(p), t, now), i, p, t, now)
  {
    ReadableIs(w, i, p, t, now);
    JoinFails(w, i, p, t, now);
    DropEnds(w, HandleJoin(w, i, p, t, now).0, i, now);
  }

  lemma ExcusedEnds(w: World, i: int, p: Packet, t: Trouble, now: int)
    requires Ordered(w) && At(w, i) && WellFormed(p) && Excused(w, i, p)
    ensures PacketEnd(w, Readable(w, i, Got(p), t, now), i, p, t, now)
  {
    ReadableIs(w, i, p, t, now);
    TextExcused(w, i, p, t, now);
  }

  lemma SpokenEnds(w: World, i: int, p: Packet, t: Trouble, now: int)
    requires Ordered(w) && At(w, i) && WellFormed(p) && Speaks(w, i, p, t)
    ensures PacketEnd(w, Readable(w, i, Got(p), t, now), i, p, t, now)
  {
    ReadableIs(w, i, p, t, now);
    TextSpoken(w, i, p, t, now);
  }

  lemma FailedTextEnds(w: World, i: int, p: Packet, t: Trouble, now: int)
    requires Ordered(w) && At(w, i) && WellFormed(p) && p.kind == 2 && !Excused(w, i, p) && !Speaks(w, i, p, t)
    ensures PacketEnd(w, Readable(w, i, Got(p), t, now), i, p, t, now)
  {
    ReadableIs(w, i, p, t, now);
    TextFails(w, i, p, t, now);
    DropEnds(w, HandleText(w, i, p, t, now).0, i, now);
  }

  lemma LeaveEnds(w: World, i: int, p: Packet, t: Trouble, now: int)
    requires Ordered(w) && At(w, i) && WellFormed(p) && p.kind > 2
    ensures PacketEnd(w, Readable(w, i, Got(p), t, now), i, p, t, now)
  {
    ReadableIs(w, i, p, t, now);
    NamesFit(w, i);
    if p.kind == 3 {
      DisconnectEnds(w, i, true, now);
    } else {
      DropEnds(w, Complain(w, i, Unsupported, now), i, now);
    }
  }

  lemma NamesFit(w: World, i: int)
    requires Ordered(w) && At(w, i)
    ensures w.slots[i].conn.joined ==> |w.slots[i].conn.name| <= 32
  {
  }

  lemma PacketEnds(w: World, i: int, p: Packet, t: Trouble, now: int)
    requires Ordered(w) && At(w, i) && WellFormed(p)
    ensures PacketEnd(w, Readable(w, i, Got(p), t, now), i, p, t, now)
  {
    if Admissible(w, i, p, t) {
      AdmittedEnds(w, i, p, t, now);
    } else if p.kind == 1 {
      FailedJoinEnds(w, i, p, t, now);
    } else if p.kind > 2 {
      LeaveEnds(w, i, p, t, now);
    } else if Excused(w, i, p) {
      ExcusedEnds(w, i, p, t, now);
    } else if Speaks(w, i, p, t) {
      SpokenEnds(w, i, p, t, now);
    } else {
      FailedTextEnds(w, i, p, t, now);
    }
  }

  /** For every event about a client: whether it is still there afterwards, what is
      broadcast, and what it has been sent. */
  lemma EndsExactly(w: World, e: Event)
    requires Ordered(w) && Possible(w, e) && About(e) >= 0
    ensures Ends(w, Next(w, e), About(e), Stays(w, e), Announcement(w, e), Own(w, e))
  {
    NamesFit(w, About(e));
    match e
    case Writable(i, d, now) =>
      var w1 := Put(w, i, AfterDrain(w.slots[i].conn, d));
      if d.broken {
        DisconnectEnds(w1, i, w.slots[i].conn.joined, now);
      }
    case Hangup(i, now) => DisconnectEnds(w, i, w.slots[i].conn.joined, now);
    case Input(i, NotYet, _, _) =>
    case Input(i, PeerGone, _, now) => DisconnectEnds(w, i, w.slots[i].conn.joined, now);
    case Input(i, Failed, _, now) => DisconnectEnds(w, i, w.slots[i].conn.joined, now);
    case Input(i, Got(p), t, now) => PacketEnds(w, i, p, t, now);
  }

  /** An event that is about nobody broadcasts nothing. */
  lemma BroadcastsExactly(w: World, e: Event)
    requires Ordered(w) && Possible(w, e)
    ensures Next(w, e).log == w.log + Announcement(w, e)
  {
    if About(e) >= 0 {
      EndsExactly(w, e);
    }
  }

  /** Would-block changes nothing at all. */
  lemma NotYetKeeps(w: World, i: int, t: Trouble, now: int)
    requires Possible(w, Input(i, NotYet, t, now))
    ensures Next(w, Input(i, NotYet, t, now)) == w && At(w, i)
  {
  }

  /** A client becomes a member exactly by a JOIN with 1 to 32 bytes whose name no
      other member holds, if none of the store's steps fails. Then it has the name,
      the store's id for it, its ACK and its own notice. */
  lemma AdmittedExactly(w: World, i: int, p: Packet, t: Trouble, now: int)
    requires Ordered(w) && Possible(w, Input(i, Got(p), t, now)) && !w.slots[i].conn.joined
    ensures var after, name := Next(w, Input(i, Got(p), t, now)), CString(p.body);
      var admitted :=
        && p.kind == 1 && 1 <= |p.body| <= 32
        && (forall j | 0 <= j < |w.slots| && j != i && w.slots[j].Busy? && w.slots[j].conn.joined :: w.slots[j].conn.name != name)
        && !t.begin && !t.insert && !t.commit && !t.find;
      && (At(after, i) && after.slots[i].conn.joined <==> admitted)
      && (admitted ==>
            var c := after.slots[i].conn;
            && c.name == name && name in after.db.idOf && c.userId == after.db.idOf[name] % 4294967296
            && c.history == [Greeting(c.userId, name, now), Joining(c.userId, name, now)]
            && c.queue == Encode(Greeting(c.userId, name, now)) + Encode(Joining(c.userId, name, now)))
  {
    EndsExactly(w, Input(i, Got(p), t, now));
    assert Admissible(w, i, p, t) ==> p.kind == 1;
    if Admissible(w, i, p, t) {
      ReadableIs(w, i, p, t, now);
      JoinAdmitted(w, i, p, t, now);
      RegisteredExactly(w.db, CString(p.body), t);
    }
  }

  // ----- Refusals -------------------------------------------------------------

  /** Why a packet that is neither accepted nor a LEAVE ends the connection. */
  function Verdict(w: World, i: int, p: Packet): string
    requires At(w, i)
  {
    if p.kind == 1 then
      if w.slots[i].conn.joined then "This connection already joined the chat."
      else if |p.body| < 1 || |p.body| > 32 then "Usernames must be between 1 and 32 characters."
      else if !NameFree(w, i, CString(p.body)) then "That username is already active."
      else "The server could not register that username."
    else if p.kind == 2 then
      if w.slots[i].conn.joined then "The server could not store that message." else "Join the chat before sending messages."
    else "Unsupported packet type."
  }

  function Refuses(w: World, i: int, p: Packet): (e: Complaint)
    requires At(w, i)
    ensures Wording(e) == Verdict(w, i, p)
  {
    if p.kind == 1 then
      if w.slots[i].conn.joined then AlreadyJoined
      else if |p.body| < 1 || |p.body| > 32 then BadLength
      else if !NameFree(w, i, CString(p.body)) then NameTaken
      else NotRegistered
    else if p.kind == 2 then
      if w.slots[i].conn.joined then NotStored else NotJoined
    else Unsupported
  }

  lemma ComplaintIs(w: World, i: int, p: Packet)
    requires At(w, i) && p.kind == 1
    ensures JoinComplaint(w, i, p) ==
      if w.slots[i].conn.joined || |p.body| < 1 || |p.body| > 32 || !NameFree(w, i, CString(p.body)) then
        Some(Refuses(w, i, p))
      else None
  {
    NobodyHasIt(w, i, p);
  }

  lemma JoinRefused(w: World, i: int, p: Packet, t: Trouble, now: int)
    requires At(w, i) && p.kind == 1 && !Admissible(w, i, p, t)
    ensures HandleJoin(w, i, p, t, now)
      == (Complain(w.(db := HandleJoin(w, i, p, t, now).0.db), i, Refuses(w, i, p), now), false)
  {
    ComplaintIs(w, i, p);
    if JoinComplaint(w, i, p).None? {
      RegisteredExactly(w.db, CString(p.body), t);
    } else {
      SameStore(w, i, JoinComplaint(w, i, p).value, now);
    }
  }

  lemma SameStore(w: World, i: int, e: Complaint, now: int)
    requires At(w, i)
    ensures w.(db := Complain(w, i, e, now).db) == w
  {
  }

  lemma TextRefused(w: World, i: int, p: Packet, t: Trouble, now: int)
    requires At(w, i) && p.kind == 2 && !Excused(w, i, p) && !Speaks(w, i, p, t)
    ensures HandleText(w, i, p, t, now) == (Complain(w, i, Refuses(w, i, p), now), false)
  {
    assert |DisplayText(w.slots[i].conn.name, CString(p.body))| == |w.slots[i].conn.name| + 2 + |CString(p.body)|;
  }

  ghost predicate EndsWith(w: World, after: World, i: int, text: string, now: int)
    requires At(w, i)
  {
    var c, refusal := w.slots[i].conn, Refusal(text, now);
    && after.slots == w.slots[i := Free] && |after.gone| == |w.gone| + 1 && after.gone[..|w.gone|] == w.gone
    && after.gone[|w.gone|].fd == c.fd && after.gone[|w.gone|].sent == c.sent
    && after.gone[|w.gone|].history == c.history + if Room(c, refusal) then [refusal] else []
  }

  lemma ComplainedThenGone(w: World, w1: World, i: int, e: Complaint, now: int)
    requires At(w, i) && w1.slots == w.slots && w1.gone == w.gone
    ensures EndsWith(w, Disconnect(Complain(w1, i, e, now), i, false, now), i, Wording(e), now)
  {
    assert ErrorPacket(e, now) == Refusal(Wording(e), now);
  }

  /** A packet that is refused for good frees its client's slot and nothing else; the
      last thing queued for the client, though never sent, is the reason. */
  lemma RefusedExactly(w: World, i: int, p: Packet, t: Trouble, now: int)
    requires Possible(w, Input(i, Got(p), t, now))
    requires p.kind != 3 && !Admissible(w, i, p, t) && !Excused(w, i, p) && !Speaks(w, i, p, t)
    ensures EndsWith(w, Next(w, Input(i, Got(p), t, now)), i, Verdict(w, i, p), now)
  {
    ReadableIs(w, i, p, t, now);
    if p.kind == 1 {
      JoinRefused(w, i, p, t, now);
      ComplainedThenGone(w, w.(db := HandleJoin(w, i, p, t, now).0.db), i, Refuses(w, i, p), now);
    } else {
      if p.kind == 2 {
        TextRefused(w, i, p, t, now);
      }
      ComplainedThenGone(w, w, i, Refuses(w, i, p), now);
    }
  }

  /** The same for a client that the sweep frees. */
  lemma TimedOutExactly(w: World, now: int, i: int)
    requires At(w, i) && !w.slots[i].conn.joined && now - w.slots[i].conn.born >= 10
    ensures var after, c, refusal := Next(w, Timeouts(now)), w.slots[i].conn, Refusal("Authentication timeout.", now);
      exists d :: d in after.gone && d.fd == c.fd && d.sent == c.sent
        && d.history == c.history + if Room(c, refusal) then [refusal] else []
  {
    ReapedHas(w.slots, now, |w.slots|, i);
    var d := Complained(w.slots[i].conn, AuthTimeout, now);
    assert ErrorPacket(AuthTimeout, now) == Refusal("Authentication timeout.", now);
    assert d in Next(w, Timeouts(now)).gone;
  }

  // ----- The store ------------------------------------------------------------

  /** A JOIN that adds a row to the users, even if it fails afterwards. */
  predicate Registers(w: World, i: int, p: Packet, t: Trouble)
    requires At(w, i)
  {
    && p.kind == 1 && !w.slots[i].conn.joined && 1 <= |p.body| <= 32 && NameFree(w, i, CString(p.body))
    && !t.begin && !t.insert && !t.commit && CString(p.body) !in w.db.idOf
  }

  ghost predicate StoreAfter(w: World, after: Tables, e: Event)
    requires Possible(w, e)
  {
    if e.Input? && e.receipt.Got? && Speaks(w, e.i, e.receipt.packet, e.trouble) then
      var id := w.db.lastMessage + 1 + e.trouble.gap;
      after == w.db.(lastMessage := id,
        messages := w.db.messages + [Row(id, w.slots[e.i].conn.userId, CString(e.receipt.packet.body), Clock(e.now))])
    else if e.Input? && e.receipt.Got? && Registers(w, e.i, e.receipt.packet, e.trouble) then
      var id, name := w.db.lastUser + 1 + e.trouble.gap, CString(e.receipt.packet.body);
      after == w.db.(lastUser := id, idOf := w.db.idOf[name := id], nameOf := w.db.nameOf[id := name])
    else after == w.db
  }

  lemma DisconnectStores(w: World, i: int, announce: bool, now: int)
    ensures Disconnect(w, i, announce, now).db == w.db
  {
  }

  function JoinDb(w: World, i: int, p: Packet, t: Trouble): Tables
    requires At(w, i)
  {
    if JoinComplaint(w, i, p).Some? then w.db else Registered(w.db, CString(p.body), t).0
  }

  lemma JoinDbIs(w: World, i: int, p: Packet, t: Trouble, now: int)
    requires At(w, i)
    ensures HandleJoin(w, i, p, t, now).0.db == JoinDb(w, i, p, t)
  {
  }

  lemma UsersAfter(w: World, i: int, p: Packet, t: Trouble, now: int)
    requires Possible(w, Input(i, Got(p), t, now)) && p.kind == 1
    ensures StoreAfter(w, JoinDb(w, i, p, t), Input(i, Got(p), t, now))
  {
    NobodyHasIt(w, i, p);
    RegisteredExactly(w.db, CString(p.body), t);
  }

  lemma JoinStores(w: World, i: int, p: Packet, t: Trouble, now: int)
    requires Possible(w, Input(i, Got(p), t, now)) && p.kind == 1
    ensures StoreAfter(w, Next(w, Input(i, Got(p), t, now)).db, Input(i, Got(p), t, now))
  {
    ReadableIs(w, i, p, t, now);
    JoinDbIs(w, i, p, t, now);
    DisconnectStores(HandleJoin(w, i, p, t, now).0, i, false, now);
    UsersAfter(w, i, p, t, now);
  }

  lemma TextStoresNothing(w: World, i: int, p: Packet, t: Trouble, now: int)
    requires Ordered(w) && At(w, i) && p.kind == 2 && !Speaks(w, i, p, t)
    ensures HandleText(w, i, p, t, now).0.db == w.db
  {
    if Excused(w, i, p) {
      TextExcused(w, i, p, t, now);
    } else {
      TextFails(w, i, p, t, now);
    }
  }

  lemma TextStores(w: World, i: int, p: Packet, t: Trouble, now: int)
    requires Ordered(w) && Possible(w, Input(i, Got(p), t, now)) && p.kind == 2
    ensures StoreAfter(w, Next(w, Input(i, Got(p), t, now)).db, Input(i, Got(p), t, now))
  {
    ReadableIs(w, i, p, t, now);
    DisconnectStores(HandleText(w, i, p, t, now).0, i, false, now);
    if Speaks(w, i, p, t) {
      TextSpoken(w, i, p, t, now);
    } else {
      TextStoresNothing(w, i, p, t, now);
    }
  }

  /** What any event leaves in the store: one more message, one more user, or what
      was there. */
  lemma StoresExactly(w: World, e: Event)
    requires Ordered(w) && Possible(w, e)
    ensures StoreAfter(w, Next(w, e).db, e)
  {
    match e
    case Timeouts(now) =>
    case Arrival(fd, now) =>
    case Writable(i, d, now) => DisconnectStores(Put(w, i, AfterDrain(w.slots[i].conn, d)), i, w.slots[i].conn.joined, now);
    case Hangup(i, now) => DisconnectStores(w, i, w.slots[i].conn.joined, now);
    case Input(i, r, t, now) =>
      match r
      case NotYet =>
      case PeerGone => DisconnectStores(w, i, w.slots[i].conn.joined, now);
      case Failed => DisconnectStores(w, i, w.slots[i].conn.joined, now);
      case Got(p) =>
        if p.kind == 1 {
          JoinStores(w, i, p, t, now);
        } else if p.kind == 2 {
          TextStores(w, i, p, t, now);
        } else {
          ReadableIs(w, i, p, t, now);
          DisconnectStores(w, i, true, now);
          DisconnectStores(Complain(w, i, Unsupported, now), i, false, now);
        }
  }

  // ----- Everybody else -------------------------------------------------------

  /** A client that has not joined is left alone by all events about others; only the
      sweep frees it, when it has waited ten seconds. */
  lemma UnjoinedExactly(w: World, e: Event, j: int)
    requires Possible(w, e) && At(w, j) && !w.slots[j].conn.joined && About(e) != j
    ensures var after := Next(w, e);
      && |after.slots| == |w.slots|
      && after.slots[j] == if e.Timeouts? && e.now - w.slots[j].conn.born >= 10 then Free else w.slots[j]
  {
    match e
    case Timeouts(now) =>
    case Arrival(fd, now) =>
    case Writable(i, d, now) =>
    case Hangup(i, now) =>
    case Input(i, r, t, now) => ReadableSkips(w, i, r, t, now, j);
  }

  lemma JoinSkips(w: World, i: int, p: Packet, t: Trouble, now: int, j: int)
    requires At(w, i) && At(w, j) && !w.slots[j].conn.joined && i != j
    ensures var after := HandleJoin(w, i, p, t, now).0; |after.slots| == |w.slots| && after.slots[j] == w.slots[j]
  {
  }

  lemma TextSkips(w: World, i: int, p: Packet, t: Trouble, now: int, j: int)
    requires At(w, i) && At(w, j) && !w.slots[j].conn.joined && i != j
    ensures var after := HandleText(w, i, p, t, now).0; |after.slots| == |w.slots| && after.slots[j] == w.slots[j]
  {
  }

  lemma DisconnectSkips(w: World, i: int, announce: bool, now: int, j: int)
    requires At(w, j) && !w.slots[j].conn.joined && i != j
    ensures var after := Disconnect(w, i, announce, now); |after.slots| == |w.slots| && after.slots[j] == w.slots[j]
  {
  }

  lemma ReadableSkips(w: World, i: int, r: Receipt, t: Trouble, now: int, j: int)
    requires At(w, i) && At(w, j) && !w.slots[j].conn.joined && i != j
    ensures var after := Readable(w, i, r, t, now); |after.slots| == |w.slots| && after.slots[j] == w.slots[j]
  {
    match r
    case NotYet =>
    case PeerGone => DisconnectSkips(w, i, w.slots[i].conn.joined, now, j);
    case Failed => DisconnectSkips(w, i, w.slots[i].conn.joined, now, j);
    case Got(p) =>
      if p.kind == JOIN {
        JoinSkips(w, i, p, t, now, j);
        DisconnectSkips(HandleJoin(w, i, p, t, now).0, i, false, now, j);
      } else if p.kind == TEXT {
        TextSkips(w, i, p, t, now, j);
        DisconnectSkips(HandleText(w, i, p, t, now).0, i, false, now, j);
      } else if p.kind == LEAVE {
        DisconnectSkips(w, i, true, now, j);
      } else {
        DisconnectSkips(Complain(w, i, Unsupported, now), i, false, now, j);
      }
  }

  // ----- Arrivals -------------------------------------------------------------

  lemma {:induction false} FullExactly(slots: seq<Slot>)
    ensures Conservation.Held(slots, None) <= |slots|
    ensures Conservation.Held(slots, None) == |slots| <==> forall k | 0 <= k < |slots| :: slots[k].Busy?
  {
    if slots != [] {
      var init := slots[..|slots| - 1];
      FullExactly(init);
      assert forall k | 0 <= k < |init| :: init[k] == slots[k];
      assert slots[|slots| - 1] in slots;
    }
  }

  /** A new socket gets the lowest free slot exactly if fewer than 1024 clients are
      active; it starts unjoined, at the time of accept(), with nothing queued and
      nothing sent. Otherwise it is closed and no slot changes. */
  lemma SeatedExactly(w: World, fd: int, now: int)
    requires Conservation.Conserved(w) && Possible(w, Arrival(fd, now))
    ensures var after := Next(w, Arrival(fd, now));
      if w.count < 1024 then
        exists k, c :: (
          && 0 <= k < 1024 && w.slots[k].Free? && (forall j | 0 <= j < k :: w.slots[j].Busy?)
          && after.slots == w.slots[k := Busy(c)] && after.count == w.count + 1 && after.gone == w.gone
          && c.fd == fd && c.born == now && !c.joined && c.userId == 0 && c.name == []
          && c.queue == [] && !c.armed && c.sent == [] && c.history == [] && c.folded == w.folded)
      else
        && after.slots == w.slots && after.count == w.count
        && |after.gone| == |w.gone| + 1 && after.gone[|w.gone|].fd == fd && after.gone[|w.gone|].sent == []
  {
    FullExactly(w.slots);
    var k := FirstFree(w.slots, 0);
    if k >= 0 {
      var c := Next(w, Arrival(fd, now)).slots[k].conn;
      assert w.slots[k].Free? && c.fd == fd;
    }
  }
}
