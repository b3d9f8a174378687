/** The stored messages and the broadcast TEXT packets are the same conversation. */
module Persistence {
  import opened Wire
  import opened Store
  import opened Chat
  import opened Delivery
  import Identity

  /** The TEXT packets of a log. */
  function Texts(log: seq<Packet>): (r: seq<Packet>) {
    if log == [] then []
    else Texts(log[..|log| - 1]) + if log[|log| - 1].kind == TEXT then [log[|log| - 1]] else []
  }

  lemma TextsSnoc(log: seq<Packet>, p: Packet)
    ensures Texts(log + [p]) == Texts(log) + if p.kind == TEXT then [p] else []
  {
    assert (log + [p])[..|log + [p]| - 1] == log;
  }

  /** Row m and broadcast p are one message of the user `who`. */
  ghost predicate SaidBy(who: CStr, m: Row, p: Packet, db: Tables) {
    && who in db.idOf && |who| <= USERNAME_MAX && m.sender == Narrow(db.idOf[who])
    && p.body == DisplayText(who, m.body) && |p.body| <= BODY_MAX
  }

  /** Row m records broadcast p: sender id, time and text of some user's message. */
  ghost predicate Records(m: Row, p: Packet, db: Tables) {
    && m.sender == p.sender && m.sentAt == p.stamp && m.sender in db.nameOf
    && (exists who :: SaidBy(who, m, p, db))
  }

  /** The messages added to the tables t, in order, are the broadcast texts. */
  ghost predicate Recorded(t: Tables, db: Tables, log: seq<Packet>) {
    && |db.messages| == |t.messages| + |Texts(log)|
    && (forall k | 0 <= k < |t.messages| :: db.messages[k] == t.messages[k])
    && (forall k | 0 <= k < |Texts(log)| :: Records(db.messages[|t.messages| + k], Texts(log)[k], db))
  }

  ghost predicate SameStory(w: World, after: World) {
    after.db == w.db && Texts(after.log) == Texts(w.log)
  }

  lemma UsersGrow(t: Tables, db: Tables, log: seq<Packet>, name: CStr, e: Trouble)
    requires Valid(db) && Recorded(t, db, log)
    ensures Recorded(t, Registered(db, name, e).0, log)
  {
    RegisteredKeepsValid(db, name, e);
    var after := Registered(db, name, e).0;
    forall k | 0 <= k < |Texts(log)| ensures Records(after.messages[|t.messages| + k], Texts(log)[k], after) {
      var m, p := db.messages[|t.messages| + k], Texts(log)[k];
      assert Records(m, p, db);
      var who :| SaidBy(who, m, p, db);
      assert SaidBy(who, m, p, after);
    }
  }

  lemma NoticeAside(log: seq<Packet>, p: Packet)
    requires p.kind != TEXT
    ensures Texts(log + [p]) == Texts(log)
  {
    TextsSnoc(log, p);
  }

  lemma DisconnectAside(w: World, i: int, announce: bool, now: int)
    ensures SameStory(w, Disconnect(w, i, announce, now))
  {
    if At(w, i) {
      NoticeAside(w.log, LeavePacket(w.slots[i].conn, now));
    }
  }

  lemma HandleJoinKeeps(t: Tables, w: World, i: int, p: Packet, e: Trouble, now: int)
    requires Valid(w.db) && Recorded(t, w.db, w.log) && At(w, i)
    ensures var after := HandleJoin(w, i, p, e, now).0; Recorded(t, after.db, after.log)
  {
    var name := CString(p.body);
    UsersGrow(t, w.db, w.log, name, e);
    var id := Registered(w.db, name, e).1;
    if id.Some? {
      NoticeAside(w.log, JoinPacket(id.value, name, now));
    }
  }

  /** The row just stored records the packet about to be broadcast. */
  lemma StoredThenSent(t: Tables, db: Tables, log: seq<Packet>, m: Row, p: Packet)
    requires Recorded(t, db, log) && p.kind == TEXT && Records(m, p, db)
    ensures Recorded(t, db.(messages := db.messages + [m], lastMessage := m.id), log + [p])
  {
    TextsSnoc(log, p);
    var after := db.(messages := db.messages + [m], lastMessage := m.id);
    forall k | 0 <= k < |Texts(log)| + 1
      ensures Records(after.messages[|t.messages| + k], Texts(log + [p])[k], after)
    {
      var r, q := after.messages[|t.messages| + k], Texts(log + [p])[k];
      assert Records(r, q, db);
      var who :| SaidBy(who, r, q, db);
      assert SaidBy(who, r, q, after);
    }
  }

  /** What a member says is recorded under its own name. */
  lemma SenderRecorded(w: World, i: int, m: Row, p: Packet)
    requires Identity.Identified(w) && Ordered(w) && At(w, i) && w.slots[i].conn.joined
    requires m.sender == w.slots[i].conn.userId == p.sender && m.sender in w.db.nameOf && m.sentAt == p.stamp
    requires p.body == DisplayText(w.slots[i].conn.name, m.body) && |p.body| <= BODY_MAX
    ensures Records(m, p, w.db)
  {
    assert SaidBy(w.slots[i].conn.name, m, p, w.db);
  }

  lemma TextKeeps(t: Tables, w: World, i: int, m: Row, said: Packet)
    requires Identity.Identified(w) && Ordered(w) && Recorded(t, w.db, w.log) && At(w, i)
    requires w.slots[i].conn.joined && said.kind == TEXT
    requires m.sender == w.slots[i].conn.userId == said.sender && m.sender in w.db.nameOf && m.sentAt == said.stamp
    requires said.body == DisplayText(w.slots[i].conn.name, m.body) && |said.body| <= BODY_MAX
    ensures Recorded(t, w.db.(messages := w.db.messages + [m], lastMessage := m.id), w.log + [said])
  {
    SenderRecorded(w, i, m, said);
    StoredThenSent(t, w.db, w.log, m, said);
  }

  /** A text that is neither refused nor fails to be stored. */
  predicate Accepted(w: World, i: int, p: Packet, e: Trouble, now: int)
    requires At(w, i)
  {
    var c := w.slots[i].conn;
    && c.joined && |p.body| > 0 && |DisplayText(c.name, CString(p.body))| <= BODY_MAX
    && Inserted(w.db, c.userId, CString(p.body), Stamp(now), e).1
  }

  lemma RefusedAside(w: World, i: int, p: Packet, e: Trouble, now: int)
    requires At(w, i) && !Accepted(w, i, p, e, now)
    ensures var after := HandleText(w, i, p, e, now).0; after.db == w.db && after.log == w.log
  {
  }

  lemma AcceptedIs(w: World, i: int, p: Packet, e: Trouble, now: int)
    requires At(w, i) && Accepted(w, i, p, e, now)
    ensures var after, c := HandleText(w, i, p, e, now).0, w.slots[i].conn;
      var m := Row(w.db.lastMessage + 1 + e.gap, c.userId, CString(p.body), Stamp(now));
      && c.userId in w.db.nameOf
      && after.db == w.db.(messages := w.db.messages + [m], lastMessage := m.id)
      && after.log == w.log + [Notice(TEXT, c.userId, now, DisplayText(c.name, CString(p.body)))]
  {
  }

  lemma AcceptedKeeps(t: Tables, w: World, i: int, p: Packet, e: Trouble, now: int)
    requires Identity.Identified(w) && Ordered(w) && Recorded(t, w.db, w.log) && At(w, i) && Accepted(w, i, p, e, now)
    ensures var after := HandleText(w, i, p, e, now).0; Recorded(t, after.db, after.log)
  {
    var c := w.slots[i].conn;
    var m := Row(w.db.lastMessage + 1 + e.gap, c.userId, CString(p.body), Stamp(now));
    AcceptedIs(w, i, p, e, now);
    TextKeeps(t, w, i, m, Notice(TEXT, c.userId, now, DisplayText(c.name, CString(p.body))));
  }

  lemma HandleTextKeeps(t: Tables, w: World, i: int, p: Packet, e: Trouble, now: int)
    requires Identity.Identified(w) && Ordered(w) && Recorded(t, w.db, w.log) && At(w, i)
    ensures var after := HandleText(w, i, p, e, now).0; Recorded(t, after.db, after.log)
  {
    if Accepted(w, i, p, e, now) {
      AcceptedKeeps(t, w, i, p, e, now);
    } else {
      RefusedAside(w, i, p, e, now);
    }
  }

  /** Dropping the client afterwards changes nothing about the conversation. */
  lemma ThenDisconnectKeeps(t: Tables, w: World, i: int, announce: bool, now: int)
    requires Recorded(t, w.db, w.log)
    ensures var after := Disconnect(w, i, announce, now); Recorded(t, after.db, after.log)
  {
    DisconnectAside(w, i, announce, now);
  }

  lemma ReadableKeeps(t: Tables, w: World, i: int, r: Receipt, e: Trouble, now: int)
    requires Identity.Identified(w) && Ordered(w) && Recorded(t, w.db, w.log) && At(w, i)
    ensures var after := Readable(w, i, r, e, now); Recorded(t, after.db, after.log)
  {
    match r
    case NotYet =>
    case PeerGone => ThenDisconnectKeeps(t, w, i, w.slots[i].conn.joined, now);
    case Failed => ThenDisconnectKeeps(t, w, i, w.slots[i].conn.joined, now);
    case Got(p) => PacketKeeps(t, w, i, p, e, now);
  }

  lemma PacketKeeps(t: Tables, w: World, i: int, p: Packet, e: Trouble, now: int)
    requires Identity.Identified(w) && Ordered(w) && Recorded(t, w.db, w.log) && At(w, i)
    ensures var after := Readable(w, i, Got(p), e, now); Recorded(t, after.db, after.log)
  {
    if p.kind == JOIN {
      HandleJoinKeeps(t, w, i, p, e, now);
      ThenDisconnectKeeps(t, HandleJoin(w, i, p, e, now).0, i, false, now);
    } else if p.kind == TEXT {
      HandleTextKeeps(t, w, i, p, e, now);
      ThenDisconnectKeeps(t, HandleText(w, i, p, e, now).0, i, false, now);
    } else if p.kind == LEAVE {
      ThenDisconnectKeeps(t, w, i, true, now);
    } else {
      ThenDisconnectKeeps(t, Complain(w, i, Unsupported, now), i, false, now);
    }
  }

  lemma NextKeeps(t: Tables, w: World, e: Event)
    requires Identity.Identified(w) && Ordered(w) && Recorded(t, w.db, w.log) && Possible(w, e)
    ensures var after := Next(w, e); Recorded(t, after.db, after.log)
  {
    match e
    case Timeouts(now) =>
    case Arrival(fd, now) =>
    case Writable(i, d, now) =>
      var w1 := Put(w, i, AfterDrain(w.slots[i].conn, d));
      DisconnectAside(w1, i, w1.slots[i].conn.joined, now);
    case Hangup(i, now) => DisconnectAside(w, i, w.slots[i].conn.joined, now);
    case Input(i, r, f, now) => ReadableKeeps(t, w, i, r, f, now);
  }

  lemma {:induction false} AlwaysRecorded(db: Tables, folded: bool, es: seq<Event>)
    requires Valid(db) && IsRun(Start(db, folded), es)
    ensures var w := After(Start(db, folded), es); Recorded(db, w.db, w.log)
    decreases |es|
  {
    if es != [] {
      var before := es[..|es| - 1];
      AlwaysRecorded(db, folded, before);
      AlwaysOrdered(db, folded, before);
      Identity.AlwaysIdentified(db, folded, before);
      NextKeeps(db, After(Start(db, folded), before), es[|es| - 1]);
    }
  }

  /** A line of history reads like the packet that was broadcast. */
  ghost predicate Replays(l: Line, p: Packet) {
    DisplayText(l.username, l.body) == p.body && l.sentAt == p.stamp
  }

  lemma SameTail(a: CStr, b: CStr, body: CStr)
    ensures DisplayText(a, body) == DisplayText(b, body) <==> a == b
  {
    if DisplayText(a, body) == DisplayText(b, body) {
      assert |DisplayText(a, body)| == |a| + 2 + |body| && |DisplayText(b, body)| == |b| + 2 + |body|;
      assert a == DisplayText(a, body)[..|a|] && b == DisplayText(b, body)[..|b|];
    }
  }

  /** The name that the history shows for a message is its speaker's exactly if the
      speaker's row id fits the 32 bits that are stored with the message. */
  lemma ShownNameExactly(who: CStr, m: Row, p: Packet, db: Tables)
    requires Valid(db) && SaidBy(who, m, p, db) && m.sender in db.nameOf
    ensures db.nameOf[m.sender] == who <==> db.idOf[who] < 0x1_0000_0000
  {
    assert db.idOf[db.nameOf[m.sender]] == m.sender && db.nameOf[db.idOf[who]] == who && db.idOf[who] > 0;
  }

  lemma RecordedLine(who: CStr, m: Row, p: Packet, db: Tables)
    requires Valid(db) && m.sender in db.nameOf && m.sentAt == p.stamp && SaidBy(who, m, p, db)
    ensures Replays(CutLine(Line(db.nameOf[m.sender], m.body, m.sentAt)), p) <==> db.idOf[who] < 0x1_0000_0000
  {
    ShownNameExactly(who, m, p, db);
    var shown := Cut(db.nameOf[m.sender], NAME_CELL);
    SameTail(shown, who, m.body);
    assert |who| <= USERNAME_MAX < NAME_CELL;
  }

  lemma TailFromEnd<T>(s: seq<T>, from: nat, k: nat)
    requires from + k < |s|
    ensures s[from..][|s[from..]| - 1 - k] == s[|s| - 1 - k]
  {
  }

  lemma CutAt(ls: seq<Line>, i: nat)
    requires i < |ls|
    ensures CutAll(ls)[i] == CutLine(ls[i])
  {
  }

  lemma RecentFromEnd(db: Tables, limit: int, k: nat)
    requires k < Clamp(limit) && k < |Joined(db.messages, db.nameOf)|
    ensures var recent, all := Recent(db, limit), Joined(db.messages, db.nameOf);
      && |recent| == (if Clamp(limit) < |all| then Clamp(limit) else |all|)
      && recent[|recent| - 1 - k] == all[|all| - 1 - k]
  {
    var all := Joined(db.messages, db.nameOf);
    TailFromEnd(all, if Clamp(limit) < |all| then |all| - Clamp(limit) else 0, k);
  }

  /** How many lines a history of n messages has for a limit. */
  function Lines(n: nat, limit: int): nat {
    Smaller(n, if limit < 1 then 1 else if limit > 500 then 500 else limit)
  }

  lemma CutLineIs(l: Line)
    ensures CutLine(l).username == l.username[..Smaller(|l.username|, 63)]
    ensures CutLine(l).body == l.body[..Smaller(|l.body|, 512)] && CutLine(l).sentAt == l.sentAt
  {
  }

  lemma LineAt(db: Tables, limit: int, k: nat)
    requires Valid(db) && k < Lines(|db.messages|, limit)
    ensures |CutAll(Recent(db, limit))| == Lines(|db.messages|, limit)
    ensures var m := db.messages[|db.messages| - 1 - k];
      CutAll(Recent(db, limit))[Lines(|db.messages|, limit) - 1 - k] == CutLine(Line(db.nameOf[m.sender], m.body, m.sentAt))
  {
    JoinDropsNothing(db.messages, db.nameOf, |db.messages| - 1 - k);
    RecentFromEnd(db, limit, k);
    CutAt(Recent(db, limit), |Recent(db, limit)| - 1 - k);
  }

  /** Line k from the end is message k from the end, under its sender's name, each
      part cut to what the buffer holds. */
  lemma LineFromEnd(db: Tables, limit: int, k: nat)
    requires Valid(db) && k < Lines(|db.messages|, limit)
    ensures var lines := CutAll(Recent(db, limit));
      && |lines| == Lines(|db.messages|, limit)
      && var m, l := db.messages[|db.messages| - 1 - k], lines[|lines| - 1 - k];
         && l.username == db.nameOf[m.sender][..Smaller(|db.nameOf[m.sender]|, 63)]
         && l.body == m.body[..Smaller(|m.body|, 512)] && l.sentAt == m.sentAt
  {
    var m := db.messages[|db.messages| - 1 - k];
    LineAt(db, limit, k);
    CutLineIs(Line(db.nameOf[m.sender], m.body, m.sentAt));
  }

  /** `who` said the message that is message k from the end of the store and text k
      from the end of the log. */
  ghost predicate Said(w: World, k: nat, who: CStr) {
    && k < |w.db.messages| && k < |Texts(w.log)|
    && SaidBy(who, w.db.messages[|w.db.messages| - 1 - k], Texts(w.log)[|Texts(w.log)| - 1 - k], w.db)
  }

  /** Line k from the end of the history is there and reads like p. */
  ghost predicate ReadsLike(db: Tables, limit: int, k: nat, p: Packet) {
    var lines := CutAll(Recent(db, limit));
    && k < |lines| == Lines(|db.messages|, limit)
    && Replays(lines[|lines| - 1 - k], p)
  }

  /** It reads like text k from the end of the log. */
  ghost predicate ReplaysText(w: World, limit: int, k: nat) {
    k < |Texts(w.log)| && ReadsLike(w.db, limit, k, Texts(w.log)[|Texts(w.log)| - 1 - k])
  }

  /** Text k from the end of the log is on record as message k from the end. */
  ghost predicate OnRecord(w: World, k: nat) {
    && k < |w.db.messages| && k < |Texts(w.log)|
    && Records(w.db.messages[|w.db.messages| - 1 - k], Texts(w.log)[|Texts(w.log)| - 1 - k], w.db)
  }

  lemma RecordsFromEnd(t: Tables, w: World, k: nat)
    requires Recorded(t, w.db, w.log) && k < |Texts(w.log)|
    ensures OnRecord(w, k)
  {
    var texts, messages := Texts(w.log), w.db.messages;
    var at := |texts| - 1 - k;
    assert |messages| - 1 - k == |t.messages| + at;
    assert Records(messages[|t.messages| + at], texts[at], w.db);
  }

  lemma SomeoneSaid(w: World, k: nat)
    requires OnRecord(w, k)
    ensures exists who :: Said(w, k, who)
  {
    var m, p := w.db.messages[|w.db.messages| - 1 - k], Texts(w.log)[|Texts(w.log)| - 1 - k];
    var who :| SaidBy(who, m, p, w.db);
    assert Said(w, k, who);
  }

  lemma LineReads(db: Tables, limit: int, k: nat, m: Row, p: Packet, who: CStr)
    requires Valid(db) && k < Lines(|db.messages|, limit) && m == db.messages[|db.messages| - 1 - k]
    requires m.sender in db.nameOf && m.sentAt == p.stamp && SaidBy(who, m, p, db)
    ensures ReadsLike(db, limit, k, p) <==> db.idOf[who] < 0x1_0000_0000
  {
    LineAt(db, limit, k);
    RecordedLine(who, m, p, db);
  }

  lemma ReplaysExactly(w: World, limit: int, k: nat, who: CStr)
    requires Valid(w.db) && k < Lines(|w.db.messages|, limit) && Said(w, k, who) && OnRecord(w, k)
    ensures ReplaysText(w, limit, k) <==> w.db.idOf[who] < 0x1_0000_0000
  {
    var m, p := w.db.messages[|w.db.messages| - 1 - k], Texts(w.log)[|Texts(w.log)| - 1 - k];
    assert m.sender in w.db.nameOf && m.sentAt == p.stamp;
    LineReads(w.db, limit, k, m, p, who);
  }

  lemma RunRecords(db: Tables, folded: bool, es: seq<Event>, k: nat)
    requires Valid(db) && IsRun(Start(db, folded), es) && k < |Texts(After(Start(db, folded), es).log)|
    ensures OnRecord(After(Start(db, folded), es), k)
  {
    AlwaysRecorded(db, folded, es);
    RecordsFromEnd(db, After(Start(db, folded), es), k);
  }

  lemma RunValid(db: Tables, folded: bool, es: seq<Event>)
    requires Valid(db) && IsRun(Start(db, folded), es)
    ensures Valid(After(Start(db, folded), es).db)
  {
    Identity.AlwaysIdentified(db, folded, es);
  }

  lemma OnRecordReplays(w: World, limit: int, k: nat)
    requires Valid(w.db) && OnRecord(w, k) && k < Lines(|w.db.messages|, limit)
    ensures exists who :: Said(w, k, who)
    ensures forall who | Said(w, k, who) :: ReplaysText(w, limit, k) <==> w.db.idOf[who] < 0x1_0000_0000
  {
    SomeoneSaid(w, k);
    forall who | Said(w, k, who) ensures ReplaysText(w, limit, k) <==> w.db.idOf[who] < 0x1_0000_0000 {
      ReplaysExactly(w, limit, k, who);
    }
  }

  /** Reading the history after any run, for any limit, gives the last broadcast
      texts back, oldest first; each of them word for word exactly if the row id
      of the user who said it fits 32 bits. */
  lemma HistoryReplays(db: Tables, folded: bool, es: seq<Event>, limit: int, k: nat)
    requires Valid(db) && IsRun(Start(db, folded), es)
    requires k < |Texts(After(Start(db, folded), es).log)|
    requires k < Lines(|After(Start(db, folded), es).db.messages|, limit)
    ensures var w := After(Start(db, folded), es);
      && (exists who :: Said(w, k, who))
      && (forall who | Said(w, k, who) :: ReplaysText(w, limit, k) <==> w.db.idOf[who] < 0x1_0000_0000)
  {
    RunValid(db, folded, es);
    RunRecords(db, folded, es, k);
    OnRecordReplays(After(Start(db, folded), es), limit, k);
  }
}
