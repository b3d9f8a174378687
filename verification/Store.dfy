/** The store of database/db.c: a users table and a messages table, and the four
    prepared statements on them. */
module Store {
  import opened Wire

  const HISTORY_MAX := 500
  const NAME_CELL := 63   // char username[64]
  const BODY_CELL := 512  // char body[513]

  datatype Row = Row(id: int, sender: int, body: CStr, sentAt: int)

  /** Users by name (the UNIQUE column) and by id (the primary key), the highest
      id ever given, and the messages in id order. */
  datatype Tables = Tables(idOf: map<CStr, int>, nameOf: map<int, CStr>, lastUser: int, messages: seq<Row>, lastMessage: int)

  /** What the engine may do to one call: each flag makes that statement fail;
      a new row's id is the highest id so far plus 1 plus the gap. */
  datatype Trouble = Trouble(begin: bool, insert: bool, commit: bool, find: bool, message: bool, gap: nat)

  const FINE := Trouble(false, false, false, false, false, 0)

  datatype Line = Line(username: CStr, body: CStr, sentAt: int)

  ghost predicate Valid(t: Tables) {
    && (forall n | n in t.idOf :: 0 < t.idOf[n] <= t.lastUser && t.idOf[n] in t.nameOf && t.nameOf[t.idOf[n]] == n)
    && (forall i | i in t.nameOf :: t.nameOf[i] in t.idOf && t.idOf[t.nameOf[i]] == i)
    && (forall m | m in t.messages :: m.sender in t.nameOf && m.id <= t.lastMessage)
    && (forall i, j | 0 <= i < j < |t.messages| :: t.messages[i].id < t.messages[j].id)
    && 0 <= t.lastUser
  }

  /** (uint32_t) of a 64-bit id. */
  function Narrow(id: int): U32 {
    id % 0x1_0000_0000
  }

  /** INSERT OR IGNORE INTO users */
  function Upserted(t: Tables, name: CStr, gap: nat): Tables {
    if name in t.idOf then t
    else
      var id := t.lastUser + 1 + gap;
      t.(idOf := t.idOf[name := id], nameOf := t.nameOf[id := name], lastUser := id)
  }

  /** ns_db_get_or_create_user: the tables afterwards and the id, if any. */
  function Registered(t: Tables, name: CStr, e: Trouble): (r: (Tables, Option<U32>))
  {
    if e.begin || e.insert || e.commit then (t, None)
    else
      var after := Upserted(t, name, e.gap);
      (after, if e.find then None else Some(Narrow(after.idOf[name])))
  }

  /** ns_db_insert_message: a sender without a users row violates the foreign key. */
  function Inserted(t: Tables, sender: U32, body: CStr, sentAt: U32, e: Trouble): (r: (Tables, bool)) {
    if e.message || sender !in t.nameOf then (t, false)
    else
      var id := t.lastMessage + 1 + e.gap;
      (t.(messages := t.messages + [Row(id, sender, body, sentAt)], lastMessage := id), true)
  }

  lemma RegisteredKeepsValid(t: Tables, name: CStr, e: Trouble)
    requires Valid(t)
    ensures var (after, id) := Registered(t, name, e);
      && Valid(after) && after.messages == t.messages && t.lastUser <= after.lastUser
      && (forall n | n in t.idOf :: n in after.idOf && after.idOf[n] == t.idOf[n])
      && (forall i | i in t.nameOf :: i in after.nameOf && after.nameOf[i] == t.nameOf[i])
      && (id.Some? ==> name in after.idOf && id.value == Narrow(after.idOf[name]))
  {
    var id := t.lastUser + 1 + e.gap;
    assert id !in t.nameOf;
  }

  lemma InsertedKeepsValid(t: Tables, sender: U32, body: CStr, sentAt: U32, e: Trouble)
    requires Valid(t)
    ensures Valid(Inserted(t, sender, body, sentAt, e).0)
  {
    var after := Inserted(t, sender, body, sentAt, e).0;
    forall m | m in after.messages ensures m.sender in after.nameOf && m.id <= after.lastMessage {
      if m in t.messages {
      }
    }
  }

  /** Asking twice for a name gives the same id, and registers nothing new. */
  lemma RegisteredTwice(t: Tables, name: CStr, e: Trouble, f: Trouble)
    requires Valid(t) && Registered(t, name, e).1.Some? && Registered(Registered(t, name, e).0, name, f).1.Some?
    ensures Registered(Registered(t, name, e).0, name, f) == Registered(t, name, e)
  {
  }

  lemma SameNarrow(a: int, b: int)
    ensures Narrow(a) == Narrow(b) <==> (a - b) % 0x1_0000_0000 == 0
  {
    assert a == a / 0x1_0000_0000 * 0x1_0000_0000 + Narrow(a);
    assert b == b / 0x1_0000_0000 * 0x1_0000_0000 + Narrow(b);
  }

  /** Two names get the same 32-bit id exactly when their row ids differ by a
      multiple of 2^32; below that, never. */
  lemma IdsCollideExactly(t: Tables, a: CStr, b: CStr)
    requires Valid(t) && a in t.idOf && b in t.idOf && a != b
    ensures t.idOf[a] != t.idOf[b]
    ensures Narrow(t.idOf[a]) == Narrow(t.idOf[b]) <==> (t.idOf[a] - t.idOf[b]) % 0x1_0000_0000 == 0
    ensures t.lastUser < 0x1_0000_0000 ==> Narrow(t.idOf[a]) != Narrow(t.idOf[b])
  {
    assert t.nameOf[t.idOf[a]] == a && t.nameOf[t.idOf[b]] == b;
    SameNarrow(t.idOf[a], t.idOf[b]);
  }

  lemma IdsMayCollide()
    ensures var a: CStr, b: CStr := [65], [66];
      exists t :: Valid(t) && a in t.idOf && b in t.idOf && Narrow(t.idOf[a]) == Narrow(t.idOf[b])
  {
    var a: CStr, b: CStr := [65], [66];
    assert a[0] != b[0];
    var t := Tables(map[a := 1, b := 0x1_0000_0001], map[1 := a, 0x1_0000_0001 := b], 0x1_0000_0001, [], 0);
    assert Valid(t);
  }

  /** snprintf into a cell that has room for n characters. */
  function Cut(s: CStr, n: nat): (r: CStr)
    ensures |s| <= n ==> r == s
  {
    if |s| <= n then s else s[..n]
  }

  /** messages JOIN users, oldest first. */
  function Joined(messages: seq<Row>, nameOf: map<int, CStr>): (r: seq<Line>)
    ensures |r| <= |messages|
  {
    if messages == [] then []
    else
      var m := messages[|messages| - 1];
      Joined(messages[..|messages| - 1], nameOf)
      + if m.sender in nameOf then [Line(nameOf[m.sender], m.body, m.sentAt)] else []
  }

  function Clamp(limit: int): (n: nat)
    ensures 1 <= n <= HISTORY_MAX
  {
    if limit < 1 then 1 else if limit > HISTORY_MAX then HISTORY_MAX else limit
  }

  function Smaller(a: nat, b: nat): (n: nat)
    ensures n <= a && n <= b && (n == a || n == b)
  {
    if a < b then a else b
  }

  /** ... ORDER BY m.id DESC LIMIT n */
  function NewestFirst(t: Tables, n: nat): (r: seq<Line>)
    ensures |r| <= n
  {
    var all := Joined(t.messages, t.nameOf);
    var m := if n < |all| then n else |all|;
    seq(m, k requires 0 <= k < m => all[|all| - 1 - k])
  }

  /** The last lines of the conversation, in conversation order. */
  function Recent(t: Tables, limit: int): seq<Line> {
    var all := Joined(t.messages, t.nameOf);
    var n := Clamp(limit);
    if n < |all| then all[|all| - n..] else all
  }

  function CutLine(l: Line): Line {
    Line(Cut(l.username, NAME_CELL), Cut(l.body, BODY_CELL), l.sentAt)
  }

  function CutAll(ls: seq<Line>): (r: seq<Line>)
    ensures |r| == |ls|
  {
    seq(|ls|, k requires 0 <= k < |ls| => CutLine(ls[k]))
  }

  /** With the foreign key in force the join drops no message: line k of it is
      message k under its sender's name. */
  lemma {:induction false} JoinDropsNothing(messages: seq<Row>, nameOf: map<int, CStr>, k: nat)
    requires forall m | m in messages :: m.sender in nameOf
    ensures |Joined(messages, nameOf)| == |messages|
    ensures k < |messages| ==>
      Joined(messages, nameOf)[k] == Line(nameOf[messages[k].sender], messages[k].body, messages[k].sentAt)
  {
    if messages != [] {
      JoinDropsNothing(messages[..|messages| - 1], nameOf, k);
    }
  }

  /** NsDatabase. */
  class Database {
    var idOf: map<CStr, int>
    var nameOf: map<int, CStr>
    var lastUser: int
    var messages: seq<Row>
    var lastMessage: int

    constructor (t: Tables)
      ensures View() == t
    {
      idOf, nameOf, lastUser, messages, lastMessage := t.idOf, t.nameOf, t.lastUser, t.messages, t.lastMessage;
    }

    function View(): Tables
      reads this
    {
      Tables(idOf, nameOf, lastUser, messages, lastMessage)
    }

    /** ns_db_find_user_id */
    method FindUserId(username: CStr, e: Trouble) returns (status: int, userId: U32)
      ensures status == 0 <==> username in idOf && !e.find
      ensures status == 0 ==> userId == Narrow(idOf[username])
      ensures status == 0 || status == -1
    {
      if e.find || username !in idOf {
        return -1, 0;
      }
      return 0, Narrow(idOf[username]);
    }

    /** ns_db_get_or_create_user: BEGIN, INSERT OR IGNORE, COMMIT, SELECT. */
    method GetOrCreateUser(username: CStr, e: Trouble) returns (status: int, userId: U32)
      modifies this
      ensures var (after, id) := Registered(old(View()), username, e);
        View() == after && status == (if id.Some? then 0 else -1) && (id.Some? ==> userId == id.value)
    {
      userId := 0;
      if e.begin {
        return -1, 0;
      }
      var saved := View();
      if e.insert {
        return -1, 0;
      }
      if username !in idOf {
        lastUser := lastUser + 1 + e.gap;
        idOf := idOf[username := lastUser];
        nameOf := nameOf[lastUser := username];
      }
      if e.commit {
        // ROLLBACK
        idOf, nameOf, lastUser := saved.idOf, saved.nameOf, saved.lastUser;
        return -1, 0;
      }
      status, userId := FindUserId(username, e);
    }

    /** ns_db_insert_message */
    method InsertMessage(sender: U32, body: CStr, sentAt: U32, e: Trouble) returns (status: int)
      modifies this
      ensures var (after, ok) := Inserted(old(View()), sender, body, sentAt, e);
        View() == after && status == if ok then 0 else -1
    {
      if e.message || sender !in nameOf {
        return -1;
      }
      lastMessage := lastMessage + 1 + e.gap;
      messages := messages + [Row(lastMessage, sender, body, sentAt)];
      return 0;
    }

    /** ns_db_recent_messages; `delivered` lists the callback's invocations. */
    method RecentMessages(limit: int) returns (delivered: seq<Line>)
      ensures delivered == CutAll(Recent(View(), limit))
      ensures |delivered| == Smaller(|Joined(messages, nameOf)|, if limit < 1 then 1 else if limit > 500 then 500 else limit)
    {
      var n := if limit < 1 then 1 else if limit > HISTORY_MAX then HISTORY_MAX else limit;
      var rows := new Line[HISTORY_MAX](_ => Line([], [], 0));
      var count := 0;
      var result := NewestFirst(View(), n);
      while count < |result| && count < n
        invariant 0 <= count <= |result|
        invariant forall k :: 0 <= k < count ==> rows[k] == CutLine(result[k])
      {
        rows[count] := Line(Cut(result[count].username, NAME_CELL), Cut(result[count].body, BODY_CELL), result[count].sentAt);
        count := count + 1;
      }
      delivered := [];
      var i := count - 1;
      while i >= 0
        invariant -1 <= i < count && |delivered| == count - 1 - i
        invariant forall k :: 0 <= k < |delivered| ==> delivered[k] == rows[count - 1 - k]
      {
        delivered := delivered + [rows[i]];
        i := i - 1;
      }
      TurnedAround(View(), limit, delivered);
    }
  }

  /** Newest first, turned around, is the end of the conversation. */
  lemma TurnedAround(t: Tables, limit: int, delivered: seq<Line>)
    requires var newest := NewestFirst(t, Clamp(limit));
      |delivered| == |newest| && forall k :: 0 <= k < |newest| ==> delivered[k] == CutLine(newest[|newest| - 1 - k])
    ensures delivered == CutAll(Recent(t, limit))
  {
    var newest, all, last := NewestFirst(t, Clamp(limit)), Joined(t.messages, t.nameOf), Recent(t, limit);
    assert |last| == |newest|;
    forall k | 0 <= k < |newest| ensures newest[|newest| - 1 - k] == last[k] {
      assert newest[|newest| - 1 - k] == all[|all| - |newest| + k];
    }
  }
}
