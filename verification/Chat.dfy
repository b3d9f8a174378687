/** The server of server/server.c as a state machine over values: what each
    handler does to the slot table, the store and the connections' histories.
    Between two events the server is in its poll loop. */
module Chat {
  import opened Wire
  import opened Ring
  import opened Store

  const MAX_CLIENTS := 1024
  const AUTH_TIMEOUT := 10

  /** One accepted connection. `queue` is its send ring's content, `head` and
      `tail` are the ring's positions, `folded` says whether the tail is kept inside
      the array, and `armed` is its POLLOUT flag. `sent` is what send() has taken, `history` the
      packets enqueued so far, `since` the length of the broadcast log when it
      joined, and `spoiled` says that a drain has taken more bytes than were queued. */
  datatype Conn = Conn(
    fd: int, born: int, joined: bool, userId: U32, name: CStr,
    queue: Bytes, head: Index, tail: Place, folded: bool, armed: bool,
    sent: Bytes, spoiled: bool, history: seq<Packet>, since: nat)

  datatype Slot = Free | Busy(conn: Conn)

  /** `log` lists every packet ever broadcast, `sockets` every accepted socket and
      `gone` every connection whose socket has been closed. `folded` says which
      kind of ring is in use: false for the enqueue as it is written, true for
      the one that its comments describe. */
  datatype World = World(
    slots: seq<Slot>, count: int, db: Tables, folded: bool,
    log: seq<Packet>, sockets: seq<int>, gone: seq<Conn>)

  function Fresh(fd: int, born: int, folded: bool): Conn {
    Conn(fd, born, false, 0, [], [], 0, 0, folded, false, [], false, [], 0)
  }

  /** ns_unix_time_now */
  function Stamp(now: int): U32 {
    if now < 0 then 0 else now % 0x1_0000_0000
  }

  datatype Complaint =
    | AlreadyJoined | BadLength | NameTaken | NotRegistered | NotJoined
    | EmptyMessage | TooLongWithName | NotStored | Unsupported | AuthTimeout

  function Wording(c: Complaint): (s: string)
    ensures |s| <= 64
  {
    match c
    case AlreadyJoined => "This connection already joined the chat."
    case BadLength => "Usernames must be between 1 and 32 characters."
    case NameTaken => "That username is already active."
    case NotRegistered => "The server could not register that username."
    case NotJoined => "Join the chat before sending messages."
    case EmptyMessage => "Messages cannot be empty."
    case TooLongWithName => "That message is too long once the username is added."
    case NotStored => "The server could not store that message."
    case Unsupported => "Unsupported packet type."
    case AuthTimeout => "Authentication timeout."
  }

  /** snprintf into a 513-byte buffer, then ns_packet_set. */
  function Notice(kind: Byte, sender: U32, now: int, text: CStr): Packet {
    Packet(PROTOCOL_VERSION, kind, sender, Stamp(now), Cut(text, BODY_MAX))
  }

  function ErrorPacket(c: Complaint, now: int): Packet {
    Notice(ERROR, 0, now, Ascii(Wording(c)))
  }

  function AckText(name: CStr): CStr { Ascii("Connected as ") + name }
  function JoinText(name: CStr): CStr { Ascii("* ") + name + Ascii(" joined the chat") }
  function LeaveText(name: CStr): CStr { Ascii("* ") + name + Ascii(" left the chat") }
  function DisplayText(name: CStr, body: CStr): CStr { name + Ascii(": ") + body }

  /** The condition of ns_client_enqueue_send. */
  predicate Fits(c: Conn, p: Packet) {
    |c.queue| + HEADER_SIZE + |p.body| <= RING_ROOM
  }

  function Push(c: Conn, p: Packet): Conn {
    c.(queue := c.queue + Encode(p), tail := Advanced(c.tail, |Encode(p)|, c.folded), armed := true, history := c.history + [p])
  }

  /** ns_server_send_error: a full ring is ignored. */
  function Complained(c: Conn, e: Complaint, now: int): Conn {
    if Fits(c, ErrorPacket(e, now)) then Push(c, ErrorPacket(e, now)) else c
  }

  predicate Member(s: Slot) {
    s.Busy? && s.conn.joined
  }

  /** What a broadcast does to slot i: the bytes are appended or the client goes. */
  function Delivered(s: Slot, i: int, p: Packet, except: int): Slot {
    if !Member(s) || i == except then s
    else if Fits(s.conn, p) then Busy(Push(s.conn, p))
    else Free
  }

  function DeliveredAll(slots: seq<Slot>, p: Packet, except: int): (r: seq<Slot>)
    ensures |r| == |slots|
  {
    seq(|slots|, i requires 0 <= i < |slots| => Delivered(slots[i], i, p, except))
  }

  predicate Overrun(s: Slot, i: int, p: Packet, except: int) {
    Member(s) && i != except && !Fits(s.conn, p)
  }

  /** The clients among the first n slots that a broadcast drops, in slot order. */
  function Dropped(slots: seq<Slot>, p: Packet, except: int, n: nat): (r: seq<Conn>)
    requires n <= |slots|
    ensures |r| <= n
  {
    if n == 0 then []
    else if Overrun(slots[n - 1], n - 1, p, except) then Dropped(slots, p, except, n - 1) + [slots[n - 1].conn]
    else Dropped(slots, p, except, n - 1)
  }

  /** k times `--client_count`, with the clamp at 0. */
  function Decreased(count: int, k: nat): int {
    if k == 0 then count else if count < k then 0 else count - k
  }

  /** ns_server_broadcast */
  function Broadcast(w: World, p: Packet, except: int): World {
    var dropped := Dropped(w.slots, p, except, |w.slots|);
    w.(slots := DeliveredAll(w.slots, p, except), count := Decreased(w.count, |dropped|),
       log := w.log + [p], gone := w.gone + dropped)
  }

  predicate At(w: World, i: int) {
    0 <= i < |w.slots| && w.slots[i].Busy?
  }

  function Put(w: World, i: int, c: Conn): (r: World)
    requires At(w, i)
    ensures At(r, i)
  {
    w.(slots := w.slots[i := Busy(c)])
  }

  /** Closing the socket of slot i and freeing the slot. */
  function Release(w: World, i: int): World
    requires At(w, i)
  {
    w.(slots := w.slots[i := Free], count := Decreased(w.count, 1), gone := w.gone + [w.slots[i].conn])
  }

  function LeavePacket(c: Conn, now: int): Packet {
    Notice(LEAVE, c.userId, now, LeaveText(c.name))
  }

  /** ns_server_disconnect_client */
  function Disconnect(w: World, i: int, announce: bool, now: int): World {
    if !At(w, i) then w
    else
      var c := w.slots[i].conn;
      Release(if announce && c.joined then Broadcast(w, LeavePacket(c, now), i) else w, i)
  }

  function Complain(w: World, i: int, e: Complaint, now: int): World
    requires At(w, i)
  {
    Put(w, i, Complained(w.slots[i].conn, e, now))
  }

  predicate Named(s: Slot, name: CStr) {
    Member(s) && s.conn.name == name
  }

  /** ns_server_username_in_use */
  predicate NameInUse(w: World, name: CStr, skip: int) {
    exists i :: 0 <= i < |w.slots| && i != skip && Named(w.slots[i], name)
  }

  function JoinComplaint(w: World, i: int, p: Packet): Option<Complaint>
    requires At(w, i)
  {
    if w.slots[i].conn.joined then Some(AlreadyJoined)
    else if |p.body| == 0 || |p.body| > USERNAME_MAX then Some(BadLength)
    else if NameInUse(w, CString(p.body), i) then Some(NameTaken)
    else None
  }

  /** The joiner as marked before anything is sent to it. */
  function Joiner(w: World, i: int, name: CStr, id: U32): Conn
    requires At(w, i)
  {
    w.slots[i].conn.(joined := true, userId := id, name := name, since := |w.log|)
  }

  function AckPacket(id: U32, name: CStr, now: int): Packet {
    Notice(ACK, id, now, AckText(name))
  }

  function JoinPacket(id: U32, name: CStr, now: int): Packet {
    Notice(JOIN, id, now, JoinText(name))
  }

  /** The rest of ns_server_join_finalize once the store has given an id. */
  function Welcomed(w: World, i: int, id: U32, name: CStr, now: int): (World, bool)
    requires At(w, i)
  {
    var c := Joiner(w, i, name, id);
    var ack := AckPacket(id, name, now);
    if !Fits(c, ack) then (Put(w, i, c), false)
    else (Broadcast(Put(w, i, Push(c, ack)), JoinPacket(id, name, now), -1), true)
  }

  /** ns_server_handle_join; the flag is false for NS_HANDLE_DISCONNECT. */
  function HandleJoin(w: World, i: int, p: Packet, e: Trouble, now: int): (World, bool)
    requires At(w, i)
  {
    var complaint := JoinComplaint(w, i, p);
    if complaint.Some? then (Complain(w, i, complaint.value, now), false)
    else
      var name := CString(p.body);
      var (db, id) := Registered(w.db, name, e);
      var w1 := w.(db := db);
      if id.None? then (Complain(w1, i, NotRegistered, now), false) else Welcomed(w1, i, id.value, name, now)
  }

  /** ns_server_handle_text */
  function HandleText(w: World, i: int, p: Packet, e: Trouble, now: int): (World, bool)
    requires At(w, i)
  {
    var c := w.slots[i].conn;
    var body := CString(p.body);
    if !c.joined then (Complain(w, i, NotJoined, now), false)
    else if |p.body| == 0 then (Complain(w, i, EmptyMessage, now), true)
    else if |DisplayText(c.name, body)| > BODY_MAX then (Complain(w, i, TooLongWithName, now), true)
    else
      var (db, stored) := Inserted(w.db, c.userId, body, Stamp(now), e);
      if !stored then (Complain(w, i, NotStored, now), false)
      else (Broadcast(w.(db := db), Notice(TEXT, c.userId, now, DisplayText(c.name, body)), -1), true)
  }

  /** What ns_recv_packet gives on a client socket. */
  datatype Receipt = Got(packet: Packet) | PeerGone | NotYet | Failed

  /** ns_server_handle_client_readable */
  function Readable(w: World, i: int, r: Receipt, e: Trouble, now: int): World
    requires At(w, i)
  {
    match r
    case PeerGone => Disconnect(w, i, w.slots[i].conn.joined, now)
    case NotYet => w
    case Failed => Disconnect(w, i, w.slots[i].conn.joined, now)
    case Got(p) =>
      if p.kind == JOIN then
        var (after, ok) := HandleJoin(w, i, p, e, now);
        if ok then after else Disconnect(after, i, false, now)
      else if p.kind == TEXT then
        var (after, ok) := HandleText(w, i, p, e, now);
        if ok then after else Disconnect(after, i, false, now)
      else if p.kind == LEAVE then Disconnect(w, i, true, now)
      else Disconnect(Complain(w, i, Unsupported, now), i, false, now)
  }

  predicate Expired(s: Slot, now: int) {
    s.Busy? && !s.conn.joined && now - s.conn.born >= AUTH_TIMEOUT
  }

  function Reaped(slots: seq<Slot>, now: int): (r: seq<Slot>)
    ensures |r| == |slots|
  {
    seq(|slots|, i requires 0 <= i < |slots| => if Expired(slots[i], now) then Free else slots[i])
  }

  function ReapedConns(slots: seq<Slot>, now: int, n: nat): (r: seq<Conn>)
    requires n <= |slots|
  {
    if n == 0 then []
    else if Expired(slots[n - 1], now) then
      ReapedConns(slots, now, n - 1) + [Complained(slots[n - 1].conn, AuthTimeout, now)]
    else ReapedConns(slots, now, n - 1)
  }

  /** ns_server_reap_auth_timeouts */
  function Reap(w: World, now: int): World {
    var reaped := ReapedConns(w.slots, now, |w.slots|);
    w.(slots := Reaped(w.slots, now), count := Decreased(w.count, |reaped|), gone := w.gone + reaped)
  }

  /** ns_server_find_free_slot among the slots from `from` on. */
  function FirstFree(slots: seq<Slot>, from: nat): (r: int)
    requires from <= |slots|
    ensures r == -1 || from <= r < |slots|
    ensures r == -1 <==> forall i :: from <= i < |slots| ==> slots[i].Busy?
    ensures r != -1 ==> slots[r].Free? && forall i :: from <= i < r ==> slots[i].Busy?
    decreases |slots| - from
  {
    if from == |slots| then -1 else if slots[from].Free? then from else FirstFree(slots, from + 1)
  }

  /** ns_server_accept_client for a new socket. */
  function Admit(w: World, fd: int, now: int): World {
    var i := FirstFree(w.slots, 0);
    var w1 := w.(sockets := w.sockets + [fd]);
    if i < 0 then w1.(gone := w1.gone + [Fresh(fd, now, w.folded)])
    else w1.(slots := w1.slots[i := Busy(Fresh(fd, now, w.folded))], count := w1.count + 1)
  }

  /** One drain: the kernel answered `sends` and took `accepted`, the ring is left
      with `left` and its head at `head`. */
  datatype Drained = Drained(sends: seq<SendOutcome>, accepted: Bytes, left: Bytes, head: Index, armed: bool, broken: bool)

  function AfterDrain(c: Conn, d: Drained): Conn {
    c.(sent := c.sent + d.accepted, queue := d.left, head := d.head, armed := d.armed,
       spoiled := c.spoiled || |d.accepted| > |c.queue|)
  }

  /** What a drain does: it takes as many bytes as the kernel's answers ask for and
      leaves what lies between the new head and the tail; as long as these are no
      more bytes than were queued, it splits the queue. */
  predicate CanDrain(c: Conn, d: Drained) {
    var r := Sweep(c.head, c.tail, d.sends, 0);
    && |d.accepted| == r.total && d.head == r.head && d.broken == r.broken
    && d.armed == (d.head != c.tail) && |d.left| == Queued(d.head, c.tail)
    && (|d.accepted| <= |c.queue| ==> d.accepted + d.left == c.queue)
  }

  /** The POLLOUT branch of the poll loop. */
  function Flush(w: World, i: int, d: Drained, now: int): World
    requires At(w, i)
  {
    var w1 := Put(w, i, AfterDrain(w.slots[i].conn, d));
    if d.broken then Disconnect(w1, i, w1.slots[i].conn.joined, now) else w1
  }

  datatype Event =
    | Timeouts(now: int)
    | Arrival(fd: int, now: int)
    | Writable(i: int, drained: Drained, now: int)
    | Input(i: int, receipt: Receipt, trouble: Trouble, now: int)
    | Hangup(i: int, now: int)

  predicate On(s: Slot, fd: int) {
    s.Busy? && s.conn.fd == fd
  }

  predicate IsOpen(w: World, fd: int) {
    exists i :: 0 <= i < |w.slots| && On(w.slots[i], fd)
  }

  /** What the surroundings guarantee about an event: the kernel hands out a
      descriptor that is not open, a handler runs for an active slot, a received
      packet is well formed, and a drain does what the ring allows. */
  predicate Possible(w: World, e: Event) {
    match e
    case Timeouts(_) => true
    case Arrival(fd, _) => fd >= 0 && !IsOpen(w, fd)
    case Writable(i, d, _) => At(w, i) && CanDrain(w.slots[i].conn, d)
    case Input(i, r, _, _) => At(w, i) && (r.Got? ==> WellFormed(r.packet))
    case Hangup(i, _) => At(w, i)
  }

  function Next(w: World, e: Event): World
    requires Possible(w, e)
  {
    match e
    case Timeouts(now) => Reap(w, now)
    case Arrival(fd, now) => Admit(w, fd, now)
    case Writable(i, d, now) => Flush(w, i, d, now)
    case Input(i, r, t, now) => Readable(w, i, r, t, now)
    case Hangup(i, now) => Disconnect(w, i, w.slots[i].conn.joined, now)
  }

  /** ns_server_init with a store that may already hold users and messages. */
  function Start(db: Tables, folded: bool): World {
    World(seq(MAX_CLIENTS, _ => Free), 0, db, folded, [], [], [])
  }

  /** A run: every event is possible when its turn comes. */
  predicate IsRun(w: World, es: seq<Event>)
    decreases |es|, 0
  {
    es == [] || (IsRun(w, es[..|es| - 1]) && Possible(After(w, es[..|es| - 1]), es[|es| - 1]))
  }

  function After(w: World, es: seq<Event>): World
    requires IsRun(w, es)
    decreases |es|, 1
  {
    if es == [] then w else Next(After(w, es[..|es| - 1]), es[|es| - 1])
  }

  lemma RunSnoc(w: World, es: seq<Event>, e: Event)
    requires IsRun(w, es) && Possible(After(w, es), e)
    ensures IsRun(w, es + [e]) && After(w, es + [e]) == Next(After(w, es), e)
  {
    assert (es + [e])[..|es + [e]| - 1] == es;
  }

  /** Runs compose. */
  lemma {:induction false} RunAppend(w: World, a: seq<Event>, b: seq<Event>)
    requires IsRun(w, a) && IsRun(After(w, a), b)
    ensures IsRun(w, a + b) && After(w, a + b) == After(After(w, a), b)
    decreases |b|
  {
    if b == [] {
      assert a + b == a;
    } else {
      var init, last := b[..|b| - 1], b[|b| - 1];
      RunAppend(w, a, init);
      RunSnoc(w, a + init, last);
      SplitLast(a, b);
    }
  }

  /** A stretch of a run: the state before, the events, the state after. */
  datatype Stretch = Stretch(before: World, events: seq<Event>, after: World)

  ghost predicate IsStretch(p: Stretch) {
    IsRun(p.before, p.events) && After(p.before, p.events) == p.after
  }

  function Then(p: Stretch, q: Stretch): Stretch {
    Stretch(p.before, p.events + q.events, q.after)
  }

  lemma ThenIsStretch(p: Stretch, q: Stretch)
    requires IsStretch(p) && IsStretch(q) && p.after == q.before
    ensures IsStretch(Then(p, q))
  {
    RunAppend(p.before, p.events, q.events);
  }

  ghost predicate Linked(w: World, ps: seq<Stretch>, k: nat)
    requires k < |ps|
  {
    IsStretch(ps[k]) && ps[k].before == if k == 0 then w else ps[k - 1].after
  }

  /** The stretches follow on each other, from state w on. */
  ghost predicate Chained(w: World, ps: seq<Stretch>) {
    forall k | 0 <= k < |ps| :: Linked(w, ps, k)
  }

  function AllEvents(ps: seq<Stretch>): seq<Event> {
    if ps == [] then [] else AllEvents(ps[..|ps| - 1]) + ps[|ps| - 1].events
  }

  function Last(w: World, ps: seq<Stretch>): World {
    if ps == [] then w else ps[|ps| - 1].after
  }

  /** They make up one run. */
  lemma {:induction false} ChainIsRun(w: World, ps: seq<Stretch>)
    requires Chained(w, ps)
    ensures IsStretch(Stretch(w, AllEvents(ps), Last(w, ps)))
  {
    if ps != [] {
      var init := ps[..|ps| - 1];
      forall k | 0 <= k < |init| ensures Linked(w, init, k) {
        assert Linked(w, ps, k);
      }
      ChainIsRun(w, init);
      assert Linked(w, ps, |ps| - 1);
      ThenIsStretch(Stretch(w, AllEvents(init), Last(w, init)), ps[|ps| - 1]);
    }
  }

  lemma LinkStays(w: World, ps: seq<Stretch>, p: Stretch, k: nat)
    requires k < |ps| && Linked(w, ps, k)
    ensures Linked(w, ps + [p], k)
  {
    assert (ps + [p])[k] == ps[k] && (k > 0 ==> (ps + [p])[k - 1] == ps[k - 1]);
  }

  lemma LinkAdded(w: World, ps: seq<Stretch>, p: Stretch)
    requires IsStretch(p) && p.before == Last(w, ps)
    ensures Linked(w, ps + [p], |ps|)
  {
    assert (ps + [p])[|ps|] == p && (ps != [] ==> (ps + [p])[|ps| - 1] == ps[|ps| - 1]);
  }

  lemma ChainSnoc(w: World, ps: seq<Stretch>, p: Stretch)
    requires Chained(w, ps) && IsStretch(p) && p.before == Last(w, ps)
    ensures Chained(w, ps + [p]) && Last(w, ps + [p]) == p.after
  {
    forall k | 0 <= k < |ps + [p]| ensures Linked(w, ps + [p], k) {
      if k < |ps| {
        LinkStays(w, ps, p, k);
      } else {
        LinkAdded(w, ps, p);
      }
    }
  }
}
