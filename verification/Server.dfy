/** server/server.c in its own form: the slot table, the poll entries and the
    rings are updated in place, and every handler does what Chat says. */
module Server {
  import opened Wire
  import opened Comm
  import opened Ring
  import opened Store
  import opened Chat

  /** POLLIN, POLLOUT, and POLLERR | POLLHUP | POLLNVAL. */
  datatype Flags = Flags(input: bool, output: bool, failure: bool)

  const QUIET := Flags(false, false, false)

  datatype PollFd = PollFd(fd: int, events: Flags, revents: Flags)

  const UNUSED := PollFd(-1, QUIET, QUIET)

  /** What poll() writes into an entry. */
  function Polled(entry: PollFd, reported: Flags): PollFd {
    entry.(revents :=
      if entry.fd < 0 then QUIET
      else Flags(reported.input && entry.events.input, reported.output && entry.events.output, reported.failure))
  }

  /** The same in terms of the slot. */
  ghost function Notified(s: Slot, reported: Flags): Flags {
    if s.Free? then QUIET else Flags(reported.input, reported.output && s.conn.armed, reported.failure)
  }

  /** What the kernel and the store will answer while one slot is served. */
  datatype SlotInput = SlotInput(reported: Flags, sends: seq<SendOutcome>, receipt: Receipt, trouble: Trouble)

  /** What the kernel has been asked for: descriptors taken with accept() and
      descriptors closed, in order. */
  datatype Kernel = Kernel(accepted: seq<int>, closed: seq<int>)

  ghost function Fds(gone: seq<Conn>): (r: seq<int>)
    ensures |r| == |gone|
  {
    seq(|gone|, i requires 0 <= i < |gone| => gone[i].fd)
  }

  lemma FdsSnoc(gone: seq<Conn>, c: Conn)
    ensures Fds(gone + [c]) == Fds(gone) + [c.fd]
  {
  }

  /** NsClient. The ghost fields record what the connection has gone through. */
  class Client {
    var fd: int
    var active: bool
    var joined: bool
    var userId: U32
    var username: CStr
    var connectTime: int
    const ring: SendRing
    ghost var sent: Bytes
    const folded: bool
    ghost var spoiled: bool
    ghost var history: seq<Packet>
    ghost var since: nat

    constructor (folded: bool)
      ensures Blank() && fresh(ring) && fresh(ring.data) && this.folded == folded
    {
      this.folded := folded;
      ring := new SendRing();
      fd, active, joined, userId, username, connectTime := -1, false, false, 0, [], 0;
      sent, spoiled, history, since := [], false, [], 0;
    }

    ghost predicate Blank()
      reads this, ring, ring.data
    {
      && ring.Valid() && ring.Fifo() == [] && !ring.Pending() && ring.tail == 0
      && fd == -1 && !active && !joined && userId == 0 && username == [] && connectTime == 0
      && sent == [] && !spoiled && history == [] && since == 0
    }

    ghost function Conn(armed: bool): Conn
      requires ring.Valid()
      reads this, ring, ring.data
    {
      Chat.Conn(fd, connectTime, joined, userId, username, ring.Fifo(), ring.head, ring.tail, folded, armed, sent, spoiled, history, since)
    }

    /** ns_client_enqueue_send of a packet's wire bytes, with the tail as written or
        folded. */
    method EnqueueSend(wire: array<Byte>, len: nat, ghost p: Packet) returns (ok: bool)
      requires ring.Valid() && wire != ring.data && (folded ==> ring.tail < RING_SIZE)
      requires len <= wire.Length && wire[..len] == Encode(p) && |p.body| <= BODY_MAX
      modifies this`history, ring`tail, ring.data
      ensures ring.Valid()
      ensures ok <==> |old(ring.Fifo())| + 14 + |p.body| <= 2047
      ensures ring.Fifo() == if ok then old(ring.Fifo()) + Encode(p) else old(ring.Fifo())
      ensures ring.tail == if ok then Advanced(old(ring.tail), |Encode(p)|, folded) else old(ring.tail)
      ensures history == if ok then old(history) + [p] else old(history)
      ensures ring.Pending() == (ok || old(ring.Pending()))
    {
      if folded {
        ok := ring.EnqueueFolded(wire, len);
      } else {
        ok := ring.Enqueue(wire, len);
      }
      if ok {
        history := history + [p];
      }
    }

    /** ns_client_drain_send */
    method DrainSend(sends: seq<SendOutcome>) returns (ok: bool, ghost d: Drained)
      requires ring.Valid() && (ring.Fifo() != [] ==> ring.Pending())
      modifies this`sent, this`spoiled, ring`head
      ensures ring.Valid() && ring.tail == old(ring.tail)
      ensures d.accepted == SweptBytes(ring.data[..], old(ring.head), ring.tail, sends, 0) && d.sends == sends
      ensures Conn(d.armed) == AfterDrain(old(Conn(ring.Pending())), d) && CanDrain(old(Conn(ring.Pending())), d)
      ensures d.armed == ring.Pending() && ok == !d.broken && (d.broken ==> d.armed)
    {
      ghost var queue := ring.Fifo();
      var status, accepted := ring.Drain(sends);
      d := Drained(sends, accepted, ring.Fifo(), ring.head, ring.Pending(), status != 0);
      sent := sent + accepted;
      spoiled := spoiled || |accepted| > |queue|;
      ok := status == 0;
    }

    /** The fields a successful join sets. */
    method Join(id: U32, name: CStr, ghost start: nat, ghost armed: bool)
      requires ring.Valid()
      modifies this`joined, this`userId, this`username, this`since
      ensures joined && username == name
      ensures Conn(armed) == old(Conn(armed)).(joined := true, userId := id, name := name, since := start)
    {
      joined := true;
      userId := id;
      username := name;
      since := start;
    }

    /** A blank slot gets a new connection. */
    method Take(socket: int, now: int)
      requires Blank()
      modifies this`fd, this`active, this`connectTime
      ensures active && fd == socket && username == [] && ring.Valid() && ring.Fifo() == [] && !ring.Pending() && ring.tail == 0
      ensures Conn(false) == Fresh(socket, now, folded)
    {
      fd := socket;
      active := true;
      connectTime := now;
    }

    /** ns_server_reset_client */
    method Reset()
      requires ring.Valid()
      modifies this, ring, ring.data
      ensures Blank()
    {
      fd, active, joined, userId, connectTime := -1, false, false, 0, 0;
      username := [];
      ring.Clear();
      sent, spoiled, history, since := [], false, [], 0;
    }
  }

  ghost predicate Separate(slots: seq<Client>) {
    forall i, j | 0 <= i < j < |slots| ::
      slots[i] != slots[j] && slots[i].ring != slots[j].ring && slots[i].ring.data != slots[j].ring.data
  }

  method NewClients(folded: bool) returns (slots: seq<Client>)
    ensures |slots| == MAX_CLIENTS && Separate(slots)
    ensures forall c | c in slots :: fresh(c) && fresh(c.ring) && fresh(c.ring.data) && c.Blank() && c.folded == folded
  {
    slots := [];
    while |slots| < MAX_CLIENTS
      invariant |slots| <= MAX_CLIENTS && Separate(slots)
      invariant forall c | c in slots :: fresh(c) && fresh(c.ring) && fresh(c.ring.data) && c.Blank() && c.folded == folded
    {
      var c := new Client(folded);
      slots := slots + [c];
    }
  }

  /** NsServerState. `folded` chooses the ring: false for the code as it is.
      `world` is what the state stands for, in the terms of Chat, and `ready`
      what the last poll() reported for the connection that now holds the slot. */
  class ServerState {
    const clients: seq<Client>
    const pollFds: array<PollFd>
    const database: Database
    const folded: bool
    var clientCount: int
    var kernel: Kernel
    ghost var world: World
    ghost var ready: seq<Flags>

    /** The memory of the slot table, the poll entries and the rings. */
    ghost function Cells(): (r: set<object>)
      ensures forall i | 0 <= i < |clients| ::
        clients[i] in r && clients[i].ring in r && clients[i].ring.data in r
    {
      {pollFds}
      + (set i | 0 <= i < |clients| :: clients[i])
      + (set i | 0 <= i < |clients| :: clients[i].ring)
      + (set i | 0 <= i < |clients| :: clients[i].ring.data)
    }

    ghost function Repr(): set<object> {
      Cells() + {this, database}
    }

    /** No two slots share memory. */
    ghost predicate Shape() {
      && |clients| == MAX_CLIENTS && pollFds.Length == 1 + MAX_CLIENTS
      && this !in Cells() && database !in Cells()
      && Separate(clients)
    }

    /** An active slot and its poll entry agree: the entry watches the slot's
        socket for input, and for output exactly when the ring is not drained.
        A free slot is blank and so is its entry. */
    ghost predicate SlotOk(i: int)
      requires Shape() && 0 <= i < MAX_CLIENTS
      reads clients[i], clients[i].ring, clients[i].ring.data, pollFds
    {
      var c := clients[i];
      && c.ring.Valid()
      && c.folded == folded && (folded ==> c.ring.tail < RING_SIZE)
      && |c.username| <= USERNAME_MAX
      && (c.ring.Fifo() != [] ==> c.ring.Pending())
      && if c.active then
           c.fd >= 0 && pollFds[1 + i].fd == c.fd && pollFds[1 + i].events == Flags(true, c.ring.Pending(), false)
         else
           c.Blank() && pollFds[1 + i] == UNUSED
    }

    ghost function SlotView(i: int): Slot
      requires Shape() && 0 <= i < MAX_CLIENTS && SlotOk(i)
      reads clients[i], clients[i].ring, clients[i].ring.data, pollFds
    {
      if clients[i].active then Busy(clients[i].Conn(pollFds[1 + i].events.output)) else Free
    }

    /** The memory holds the given slots. */
    ghost predicate Holds(slots: seq<Slot>)
      reads Cells()
    {
      && Shape() && |slots| == MAX_CLIENTS
      && forall i | 0 <= i < MAX_CLIENTS :: SlotOk(i) && slots[i] == SlotView(i)
    }

    /** An entry's pending events are those the last poll() reported, unless the
        slot was freed since. */
    ghost predicate Attentive(slots: seq<Slot>)
      reads `ready, pollFds
    {
      && |ready| == |slots| == MAX_CLIENTS && pollFds.Length == 1 + MAX_CLIENTS
      && forall i | 0 <= i < MAX_CLIENTS :: pollFds[1 + i].revents == if slots[i].Free? then QUIET else ready[i]
    }

    /** The plain fields mean the rest of the world. */
    ghost predicate Means(w: World)
      reads `clientCount, `kernel, database
    {
      && w.count == clientCount && w.db == database.View() && w.folded == folded
      && kernel == Kernel(w.sockets, Fds(w.gone))
    }

    ghost predicate Valid()
      reads Repr()
    {
      Holds(world.slots) && Attentive(world.slots) && Means(world)
    }

    /** Everything about slot j is as it was. */
    twostate predicate SlotKept(j: int)
      requires Shape() && 0 <= j < MAX_CLIENTS
      reads clients[j], clients[j].ring, clients[j].ring.data, pollFds
    {
      && unchanged(clients[j]) && unchanged(clients[j].ring) && unchanged(clients[j].ring.data)
      && pollFds[1 + j] == old(pollFds[1 + j])
    }

    twostate lemma SlotStays(j: int)
      requires Shape() && 0 <= j < MAX_CLIENTS && old(SlotOk(j)) && SlotKept(j)
      ensures SlotOk(j) && SlotView(j) == old(SlotView(j))
    {
    }

    twostate lemma OneSlotChanged(i: int)
      requires old(Holds(world.slots) && Attentive(world.slots)) && 0 <= i < MAX_CLIENTS
      requires |ready| == MAX_CLIENTS && forall j | 0 <= j < MAX_CLIENTS && j != i :: SlotKept(j) && ready[j] == old(ready[j])
      requires SlotOk(i) && pollFds[1 + i].revents == if SlotView(i).Free? then QUIET else ready[i]
      ensures Holds(old(world).slots[i := SlotView(i)]) && Attentive(old(world).slots[i := SlotView(i)])
    {
      forall j | 0 <= j < MAX_CLIENTS && j != i ensures SlotOk(j) && SlotView(j) == old(world).slots[j] {
        assert old(SlotOk(j));
        SlotStays(j);
      }
      forall j | 0 <= j < MAX_CLIENTS && j != i
        ensures pollFds[1 + j].revents == if old(world).slots[j].Free? then QUIET else ready[j]
      {
        assert SlotKept(j);
        assert old(pollFds[1 + j].revents == if world.slots[j].Free? then QUIET else ready[j]);
      }
    }

    /** What the fields of slot i say about its connection. */
    lemma Seen(i: int)
      requires Valid() && 0 <= i < MAX_CLIENTS
      ensures clients[i].active <==> world.slots[i].Busy?
      ensures clients[i].active ==>
        var c := world.slots[i].conn;
        && clients[i].fd == c.fd >= 0 && clients[i].joined == c.joined && clients[i].userId == c.userId
        && clients[i].username == c.name && |c.name| <= USERNAME_MAX && clients[i].connectTime == c.born
    {
      assert SlotOk(i) && world.slots[i] == SlotView(i);
    }

    /** The poll entries mirror the slots: an entry holds a descriptor exactly if
        its slot is active, and then the slot's own one, watched for input, and for
        output exactly if bytes are queued. The one exception is a drained ring whose
        tail is at the array end, which stays armed. */
    lemma PollMirror(i: int)
      requires Valid() && 0 <= i < MAX_CLIENTS
      ensures clients[i].active <==> pollFds[1 + i].fd >= 0
      ensures !clients[i].active ==> pollFds[1 + i] == UNUSED && !clients[i].ring.Pending()
      ensures clients[i].active ==>
        var ring := clients[i].ring;
        && pollFds[1 + i].fd == clients[i].fd && pollFds[1 + i].events.input && !pollFds[1 + i].events.failure
        && (pollFds[1 + i].events.output <==>
              world.slots[i].conn.queue != [] || (ring.head == 0 && ring.tail == RING_SIZE))
    {
      assert SlotOk(i) && world.slots[i] == SlotView(i);
      assert |clients[i].ring.Fifo()| == Queued(clients[i].ring.head, clients[i].ring.tail);
    }

    /** Record what the memory stands for by now. */
    ghost method Record(w: World)
      requires Holds(w.slots) && Attentive(w.slots) && Means(w)
      modifies `world
      ensures Valid() && world == w
    {
      world := w;
    }

    /** ns_server_init */
    constructor (db: Database, folded: bool)
      ensures Valid() && database == db && this.folded == folded && fresh(Repr() - {db})
      ensures world == Start(db.View(), folded)
    {
      var slots := NewClients(folded);
      this.folded := folded;
      clients := slots;
      pollFds := new PollFd[1 + MAX_CLIENTS](_ => UNUSED);
      database := db;
      clientCount := 0;
      kernel := Kernel([], []);
      world := Start(db.View(), folded);
      ready := seq(MAX_CLIENTS, _ => QUIET);
      new;
      EmptyTable();
    }

    lemma EmptyTable()
      requires Shape() && (forall c | c in clients :: c.Blank() && c.folded == folded)
      requires forall k | 0 <= k <= MAX_CLIENTS :: pollFds[k] == UNUSED
      ensures Holds(seq(MAX_CLIENTS, _ => Free))
    {
      forall i | 0 <= i < MAX_CLIENTS ensures SlotOk(i) && SlotView(i) == Free {
        assert clients[i] in clients;
      }
    }

    /** ns_server_update_poll_events */
    method UpdatePollEvents(i: int)
      requires Shape() && 0 <= i < MAX_CLIENTS
      modifies pollFds
      ensures pollFds[1 + i] == old(pollFds[1 + i]).(events := Flags(true, clients[i].ring.Pending(), false))
      ensures forall j | 0 <= j <= MAX_CLIENTS && j != 1 + i :: pollFds[j] == old(pollFds[j])
    {
      var events := Flags(true, clients[i].ring.Pending(), false);
      pollFds[1 + i] := pollFds[1 + i].(events := events);
    }

    /** Enqueue one packet's bytes for slot i and arm POLLOUT: the slot's side. */
    method SendTo(i: int, wire: array<Byte>, len: nat, ghost p: Packet) returns (ok: bool)
      requires Shape() && 0 <= i < MAX_CLIENTS && SlotOk(i) && clients[i].active && wire !in Repr()
      requires len <= wire.Length && wire[..len] == Encode(p) && |p.body| <= BODY_MAX
      modifies clients[i], clients[i].ring, clients[i].ring.data, pollFds
      ensures SlotOk(i)
      ensures ok <==> Fits(old(SlotView(i)).conn, p)
      ensures SlotView(i) == if ok then Busy(Push(old(SlotView(i)).conn, p)) else old(SlotView(i))
      ensures pollFds[1 + i].revents == old(pollFds[1 + i].revents)
      ensures forall k | 0 <= k <= MAX_CLIENTS && k != 1 + i :: pollFds[k] == old(pollFds[k])
    {
      ok := clients[i].EnqueueSend(wire, len, p);
      if ok {
        UpdatePollEvents(i);
      }
    }

    method EnqueueWire(i: int, wire: array<Byte>, len: nat, ghost p: Packet) returns (ok: bool)
      requires Valid() && At(world, i) && wire !in Repr()
      requires len <= wire.Length && wire[..len] == Encode(p) && |p.body| <= BODY_MAX
      modifies Repr()
      ensures Valid() && ready == old(ready)
      ensures ok <==> Fits(old(world).slots[i].conn, p)
      ensures world == if ok then Put(old(world), i, Push(old(world).slots[i].conn, p)) else old(world)
    {
      assert SlotOk(i) && world.slots[i] == SlotView(i);
      ok := SendTo(i, wire, len, p);
      OneSlotChanged(i);
      if ok {
        Record(Put(world, i, Push(world.slots[i].conn, p)));
      }
    }

    /** Closing the socket of slot i and blanking the slot: the slot's side. */
    method Vacate(i: int)
      requires Shape() && 0 <= i < MAX_CLIENTS && SlotOk(i)
      modifies clients[i], clients[i].ring, clients[i].ring.data, pollFds
      ensures SlotOk(i) && SlotView(i) == Free
      ensures pollFds[1 + i].revents == QUIET
      ensures forall k | 0 <= k <= MAX_CLIENTS && k != 1 + i :: pollFds[k] == old(pollFds[k])
    {
      pollFds[1 + i] := PollFd(-1, QUIET, QUIET);
      clients[i].Reset();
    }

    method VacateSlot(i: int)
      requires Valid() && At(world, i)
      modifies Cells()
      ensures Holds(world.slots[i := Free]) && Attentive(world.slots[i := Free])
    {
      assert SlotOk(i);
      Vacate(i);
      OneSlotChanged(i);
    }

    /** The count and the descriptor of a connection that loses its slot. */
    method Discharge(i: int, fd: int)
      requires At(world, i) && world.slots[i].conn.fd == fd && Means(world)
      modifies `clientCount, `kernel
      ensures Means(Release(world, i))
    {
      FdsSnoc(world.gone, world.slots[i].conn);
      kernel := kernel.(closed := kernel.closed + [fd]);
      CountDown();
    }

    method CloseSlot(i: int)
      requires Valid() && At(world, i)
      modifies Repr()
      ensures Valid() && ready == old(ready)
      ensures world == Release(old(world), i)
    {
      Seen(i);
      var fd := clients[i].fd;
      VacateSlot(i);
      Discharge(i, fd);
      Record(Release(world, i));
    }

    method CountUp()
      modifies `clientCount
      ensures clientCount == old(clientCount) + 1
    {
      clientCount := clientCount + 1;
    }

    method CountDown()
      modifies `clientCount
      ensures clientCount == Decreased(old(clientCount), 1)
    {
      clientCount := clientCount - 1;
      if clientCount < 0 {
        clientCount := 0;
      }
    }

    /** One turn of the broadcast loop. */
    method DeliverTo(i: int, wire: array<Byte>, len: nat, p: Packet, except: int)
      requires Valid() && 0 <= i < MAX_CLIENTS && wire !in Repr()
      requires len <= wire.Length && wire[..len] == Encode(p) && |p.body| <= BODY_MAX
      modifies Repr()
      ensures Valid() && ready == old(ready)
      ensures world == AfterTurn(old(world), i, p, except)
      decreases 1
    {
      Seen(i);
      if !clients[i].active || !clients[i].joined || i == except {
        return;
      }
      var ok := EnqueueWire(i, wire, len, p);
      if !ok {
        DisconnectClient(i, false, 0);
      }
    }

    method DeliverToAll(wire: array<Byte>, len: nat, p: Packet, except: int, ghost w: World)
      requires Valid() && wire !in Repr() && |w.slots| == MAX_CLIENTS
      requires len <= wire.Length && wire[..len] == Encode(p) && |p.body| <= BODY_MAX
      requires world == BroadcastUpTo(w, p, except, 0)
      modifies Repr()
      ensures Valid() && ready == old(ready)
      ensures world == BroadcastUpTo(w, p, except, MAX_CLIENTS)
      decreases 2
    {
      var index := 0;
      while index < MAX_CLIENTS
        invariant 0 <= index <= MAX_CLIENTS
        invariant Valid() && ready == old(ready)
        invariant world == BroadcastUpTo(w, p, except, index)
      {
        BroadcastStep(w, p, except, index);
        DeliverTo(index, wire, len, p, except);
        index := index + 1;
      }
    }

    /** A packet's bytes in a buffer of their own. */
    method WireBuffer(p: Packet) returns (wire: array<Byte>, len: nat)
      requires Valid() && |p.body| <= BODY_MAX
      ensures Valid() && wire !in Repr() && fresh(wire)
      ensures len <= wire.Length && wire[..len] == Encode(p)
    {
      ghost var memory := Repr();
      wire, len := Serialize(p);
      assert wire !in memory;
    }

    /** ns_server_broadcast */
    method Broadcast(p: Packet, except: int)
      requires Valid()
      modifies Repr()
      ensures Valid() && ready == old(ready)
      ensures world == if |p.body| > BODY_MAX then old(world) else Chat.Broadcast(old(world), p, except)
      decreases 3
    {
      if |p.body| > BODY_MAX {
        return;
      }
      ghost var w := world;
      var wire, len := WireBuffer(p);
      Record(world.(log := world.log + [p]));
      BroadcastStarts(w, p, except);
      DeliverToAll(wire, len, p, except, w);
      BroadcastEnds(w, p, except);
    }

    /** ns_server_disconnect_client. An eviction never announces, so the two
        methods call each other only so deep. */
    method DisconnectClient(i: int, announceLeave: bool, now: int)
      requires Valid()
      modifies Repr()
      ensures Valid() && ready == old(ready)
      ensures world == Disconnect(old(world), i, announceLeave, now)
      decreases if announceLeave then 4 else 0
    {
      if i < 0 || i >= MAX_CLIENTS {
        return;
      }
      Seen(i);
      if !clients[i].active {
        return;
      }
      if announceLeave && clients[i].joined {
        var text := Cut(LeaveText(clients[i].username), BODY_MAX);
        var leave := PacketSet(LEAVE, clients[i].userId, Stamp(now), text);
        if leave.Some? {
          Broadcast(leave.value, i);
        }
      }
      CloseSlot(i);
    }

    /** ns_server_enqueue_packet for an active slot. */
    method EnqueuePacket(i: int, p: Packet) returns (status: int)
      requires Valid() && At(world, i)
      modifies Repr()
      ensures Valid() && ready == old(ready)
      ensures status == if |p.body| <= BODY_MAX && Fits(old(world).slots[i].conn, p) then 0 else -1
      ensures world == if status == 0 then Put(old(world), i, Push(old(world).slots[i].conn, p)) else old(world)
    {
      if |p.body| > BODY_MAX {
        return -1;
      }
      var wire, len := WireBuffer(p);
      var ok := EnqueueWire(i, wire, len, p);
      status := if ok then 0 else -1;
    }

    /** ns_server_send_error to an active slot. */
    method SendError(i: int, e: Complaint, now: int)
      requires Valid() && At(world, i)
      modifies Repr()
      ensures Valid() && ready == old(ready)
      ensures world == Complain(old(world), i, e, now)
    {
      var p := PacketSet(ERROR, 0, Stamp(now), Ascii(Wording(e)));
      var status := EnqueuePacket(i, p.value);
      PutSame(old(world), i);
    }

    /** ns_server_username_in_use */
    method UsernameInUse(name: CStr, skip: int) returns (inUse: bool)
      requires Valid()
      ensures inUse == NameInUse(world, name, skip)
    {
      var index := 0;
      while index < MAX_CLIENTS
        invariant 0 <= index <= MAX_CLIENTS
        invariant forall j | 0 <= j < index && j != skip :: !Named(world.slots[j], name)
      {
        Seen(index);
        if clients[index].active && clients[index].joined && index != skip && clients[index].username == name {
          return true;
        }
        index := index + 1;
      }
      return false;
    }

    /** The checks of ns_server_join_validate. */
    method JoinProblem(i: int, p: Packet) returns (problem: Option<Complaint>)
      requires Valid() && At(world, i)
      ensures problem == JoinComplaint(world, i, p)
    {
      Seen(i);
      if clients[i].joined {
        return Some(AlreadyJoined);
      }
      if |p.body| == 0 || |p.body| > USERNAME_MAX {
        return Some(BadLength);
      }
      var inUse := UsernameInUse(CString(p.body), i);
      problem := if inUse then Some(NameTaken) else None;
    }

    /** The fields a successful join sets. */
    method SetMember(i: int, id: U32, name: CStr, ghost since: nat)
      requires Shape() && 0 <= i < MAX_CLIENTS && SlotOk(i) && clients[i].active && |name| <= USERNAME_MAX
      modifies clients[i]
      ensures SlotOk(i)
      ensures SlotView(i) ==
        Busy(old(SlotView(i)).conn.(joined := true, userId := id, name := name, since := since))
    {
      clients[i].Join(id, name, since, pollFds[1 + i].events.output);
    }

    method MarkJoined(i: int, id: U32, name: CStr)
      requires Valid() && At(world, i) && |name| <= USERNAME_MAX
      modifies Repr()
      ensures Valid() && ready == old(ready)
      ensures world == Put(old(world), i, Joiner(old(world), i, name, id))
    {
      assert SlotOk(i) && world.slots[i] == SlotView(i);
      SetMember(i, id, name, |world.log|);
      OneSlotChanged(i);
      Record(Put(world, i, Joiner(world, i, name, id)));
    }

    method RegisterUser(name: CStr, e: Trouble) returns (status: int, id: U32)
      requires Valid()
      modifies Repr()
      ensures Valid() && ready == old(ready)
      ensures var (db, r) := Registered(old(world).db, name, e);
        && world == old(world).(db := db)
        && (status == 0 <==> r.Some?) && (r.Some? ==> id == r.value)
    {
      status, id := database.GetOrCreateUser(name, e);
      Record(world.(db := database.View()));
    }

    method StoreMessage(sender: U32, body: CStr, sentAt: U32, e: Trouble) returns (status: int)
      requires Valid()
      modifies Repr()
      ensures Valid() && ready == old(ready)
      ensures var (db, ok) := Inserted(old(world).db, sender, body, sentAt, e);
        world == old(world).(db := db) && (status == 0 <==> ok)
    {
      status := database.InsertMessage(sender, body, sentAt, e);
      Record(world.(db := database.View()));
    }

    /** ns_server_join_finalize once the store has given an id. */
    method Welcome(i: int, id: U32, name: CStr, now: int) returns (ok: bool)
      requires Valid() && At(world, i) && |name| <= USERNAME_MAX
      modifies Repr()
      ensures Valid() && ready == old(ready)
      ensures (world, ok) == Welcomed(old(world), i, id, name, now)
    {
      MarkJoined(i, id, name);
      var ack := PacketSet(ACK, id, Stamp(now), Cut(AckText(name), BODY_MAX));
      var status := EnqueuePacket(i, ack.value);
      PutTwice(old(world), i, Joiner(old(world), i, name, id), Push(Joiner(old(world), i, name, id), ack.value));
      if status != 0 {
        return false;
      }
      var notice := PacketSet(JOIN, id, Stamp(now), Cut(JoinText(name), BODY_MAX));
      if notice.Some? {
        Broadcast(notice.value, -1);
      }
      return true;
    }

    /** ns_server_handle_join: validation, then finalization. */
    method HandleJoin(i: int, p: Packet, e: Trouble, now: int) returns (ok: bool)
      requires Valid() && At(world, i)
      modifies Repr()
      ensures Valid() && ready == old(ready)
      ensures (world, ok) == Chat.HandleJoin(old(world), i, p, e, now)
    {
      var problem := JoinProblem(i, p);
      if problem.Some? {
        SendError(i, problem.value, now);
        return false;
      }
      var status, id := RegisterUser(CString(p.body), e);
      if status != 0 {
        SendError(i, NotRegistered, now);
        return false;
      }
      ok := Welcome(i, id, CString(p.body), now);
    }

    /** ns_server_handle_text. Its last ns_packet_set cannot fail, the text
        having been measured before. */
    method HandleText(i: int, p: Packet, e: Trouble, now: int) returns (ok: bool)
      requires Valid() && At(world, i)
      modifies Repr()
      ensures Valid() && ready == old(ready)
      ensures (world, ok) == Chat.HandleText(old(world), i, p, e, now)
    {
      Seen(i);
      if !clients[i].joined {
        SendError(i, NotJoined, now);
        return false;
      }
      if |p.body| == 0 {
        SendError(i, EmptyMessage, now);
        return true;
      }
      var body := CString(p.body);
      var text := DisplayText(clients[i].username, body);
      if |text| > BODY_MAX {
        SendError(i, TooLongWithName, now);
        return true;
      }
      var status := StoreMessage(clients[i].userId, body, Stamp(now), e);
      if status != 0 {
        SendError(i, NotStored, now);
        return false;
      }
      var said := PacketSet(TEXT, clients[i].userId, Stamp(now), text);
      Broadcast(said.value, -1);
      return true;
    }

    lemma Descriptors(fd: int)
      requires Valid()
      ensures |world.slots| == MAX_CLIENTS == |clients|
      ensures forall i | 0 <= i < MAX_CLIENTS :: (clients[i].active && clients[i].fd == fd) <==> On(world.slots[i], fd)
    {
      forall i | 0 <= i < MAX_CLIENTS ensures (clients[i].active && clients[i].fd == fd) <==> On(world.slots[i], fd) {
        Seen(i);
      }
    }

    /** accept(): a descriptor the kernel hands out is not open at that time. */
    method KernelAccept(candidate: int) returns (fd: int)
      requires Valid()
      ensures fd == if candidate >= 0 && !IsOpen(world, candidate) then candidate else -1
    {
      if candidate < 0 {
        return -1;
      }
      Descriptors(candidate);
      var index := 0;
      while index < MAX_CLIENTS
        invariant 0 <= index <= MAX_CLIENTS
        invariant forall j | 0 <= j < index :: !On(world.slots[j], candidate)
      {
        if clients[index].active && clients[index].fd == candidate {
          return -1;
        }
        index := index + 1;
      }
      return candidate;
    }

    lemma Occupancy()
      requires Valid()
      ensures |world.slots| == MAX_CLIENTS == |clients|
      ensures forall i | 0 <= i < MAX_CLIENTS :: clients[i].active <==> world.slots[i].Busy?
    {
      forall i | 0 <= i < MAX_CLIENTS ensures clients[i].active <==> world.slots[i].Busy? {
        Seen(i);
      }
    }

    /** ns_server_find_free_slot */
    method FindFreeSlot() returns (slot: int)
      requires Valid()
      ensures slot == FirstFree(world.slots, 0)
    {
      Occupancy();
      slot := 0;
      while slot < MAX_CLIENTS
        invariant 0 <= slot <= MAX_CLIENTS
        invariant forall j | 0 <= j < slot :: world.slots[j].Busy?
      {
        if !clients[slot].active {
          return;
        }
        slot := slot + 1;
      }
      return -1;
    }

    /** A new connection moves into a free slot: the slot's side. */
    method Occupy(i: int, fd: int, now: int)
      requires Shape() && 0 <= i < MAX_CLIENTS && SlotOk(i) && fd >= 0
      modifies clients[i], clients[i].ring, clients[i].ring.data, pollFds
      ensures SlotOk(i) && SlotView(i) == Busy(Fresh(fd, now, folded))
      ensures pollFds[1 + i].revents == QUIET
      ensures forall k | 0 <= k <= MAX_CLIENTS && k != 1 + i :: pollFds[k] == old(pollFds[k])
    {
      clients[i].Reset();
      clients[i].Take(fd, now);
      pollFds[1 + i] := PollFd(fd, Flags(true, false, false), QUIET);
    }

    method OccupySlot(i: int, fd: int, now: int)
      requires Holds(world.slots) && Attentive(world.slots) && 0 <= i < MAX_CLIENTS && fd >= 0
      modifies Cells(), `ready
      ensures ready == Unheard(old(ready), i)
      ensures Holds(world.slots[i := Busy(Fresh(fd, now, folded))]) && Attentive(world.slots[i := Busy(Fresh(fd, now, folded))])
    {
      assert SlotOk(i);
      Occupy(i, fd, now);
      ready := ready[i := QUIET];
      OneSlotChanged(i);
    }

    /** The count and the descriptor of a connection that gets a slot. */
    method Enroll(fd: int, now: int)
      requires |world.slots| == MAX_CLIENTS && FirstFree(world.slots, 0) >= 0 && Means(world)
      modifies `clientCount, `kernel
      ensures Means(Admit(world, fd, now))
    {
      AdmitInto(world, fd, now);
      CountUp();
      kernel := kernel.(accepted := kernel.accepted + [fd]);
    }

    method Seat(slot: int, fd: int, now: int)
      requires Valid() && fd >= 0
      requires slot == FirstFree(world.slots, 0) >= 0
      modifies Repr()
      ensures Valid() && ready == Unheard(old(ready), FirstFree(old(world).slots, 0))
      ensures world == Admit(old(world), fd, now)
    {
      AdmitInto(world, fd, now);
      Enroll(fd, now);
      OccupySlot(slot, fd, now);
      Record(Admit(world, fd, now));
    }

    method TurnAway(fd: int, now: int)
      requires Valid() && FirstFree(world.slots, 0) < 0
      modifies `world, `kernel
      ensures Valid() && ready == Unheard(old(ready), FirstFree(old(world).slots, 0))
      ensures world == Admit(old(world), fd, now)
    {
      FdsSnoc(world.gone, Fresh(fd, now, folded));
      kernel := Kernel(kernel.accepted + [fd], kernel.closed + [fd]);
      Record(Admit(world, fd, now));
    }

    /** A new socket gets the lowest free slot, or is closed. */
    method Place(fd: int, now: int)
      requires Valid() && fd >= 0
      modifies Repr()
      ensures Valid() && world == Admit(old(world), fd, now)
      ensures ready == Unheard(old(ready), FirstFree(old(world).slots, 0))
    {
      var slot := FindFreeSlot();
      if slot < 0 {
        TurnAway(fd, now);
      } else {
        Seat(slot, fd, now);
      }
    }

    /** ns_server_accept_client. A new connection has not been polled yet. */
    method AcceptClient(candidate: int, now: int) returns (fd: int)
      requires Valid()
      modifies Repr()
      ensures Valid()
      ensures fd == if candidate >= 0 && !IsOpen(old(world), candidate) then candidate else -1
      ensures fd == -1 ==> world == old(world) && ready == old(ready)
      ensures fd != -1 ==> Possible(old(world), Arrival(fd, now)) && world == Admit(old(world), fd, now)
      ensures fd != -1 ==> ready == Unheard(old(ready), FirstFree(old(world).slots, 0))
    {
      fd := KernelAccept(candidate);
      if fd != -1 {
        Place(fd, now);
      }
    }

    /** ns_server_handle_client_readable; the receipt is ns_recv_packet's answer. */
    method HandleClientReadable(i: int, receipt: Receipt, e: Trouble, now: int)
      requires Valid() && At(world, i)
      modifies Repr()
      ensures Valid() && ready == old(ready)
      ensures world == Readable(old(world), i, receipt, e, now)
    {
      Seen(i);
      match receipt {
        case PeerGone => DisconnectClient(i, clients[i].joined, now);
        case NotYet =>
        case Failed => DisconnectClient(i, clients[i].joined, now);
        case Got(p) =>
          if p.kind == JOIN {
            var ok := HandleJoin(i, p, e, now);
            if !ok {
              DisconnectClient(i, false, now);
            }
          } else if p.kind == TEXT {
            var ok := HandleText(i, p, e, now);
            if !ok {
              DisconnectClient(i, false, now);
            }
          } else if p.kind == LEAVE {
            DisconnectClient(i, true, now);
          } else {
            SendError(i, Unsupported, now);
            DisconnectClient(i, false, now);
          }
      }
    }

    /** One turn of the timeout sweep. */
    method ReapSlot(i: int, now: int)
      requires Valid() && 0 <= i < MAX_CLIENTS
      modifies Repr()
      ensures Valid() && ready == old(ready)
      ensures world == AfterReaping(old(world), i, now)
    {
      Seen(i);
      if !clients[i].active || clients[i].joined {
        return;
      }
      if now - clients[i].connectTime >= AUTH_TIMEOUT {
        SendError(i, AuthTimeout, now);
        DisconnectClient(i, false, now);
      }
    }

    method ReapTurn(i: int, now: int, ghost w: World)
      requires Valid() && 0 <= i < MAX_CLIENTS == |w.slots| && world == ReapUpTo(w, now, i)
      modifies Repr()
      ensures Valid() && ready == old(ready)
      ensures world == ReapUpTo(w, now, i + 1)
    {
      ReapStep(w, now, i);
      ReapSlot(i, now);
    }

    method ReapAll(now: int, ghost w: World)
      requires Valid() && |w.slots| == MAX_CLIENTS && world == ReapUpTo(w, now, 0)
      modifies Repr()
      ensures Valid() && ready == old(ready)
      ensures world == ReapUpTo(w, now, MAX_CLIENTS)
    {
      var index := 0;
      while index < MAX_CLIENTS
        invariant 0 <= index <= MAX_CLIENTS
        invariant Valid() && ready == old(ready)
        invariant world == ReapUpTo(w, now, index)
      {
        ReapTurn(index, now, w);
        index := index + 1;
      }
    }

    /** ns_server_reap_auth_timeouts */
    method ReapAuthTimeouts(now: int)
      requires Valid()
      modifies Repr()
      ensures Valid() && ready == old(ready)
      ensures world == Reap(old(world), now)
    {
      ghost var w := world;
      ReapStarts(w, now);
      ReapAll(now, w);
      ReapEnds(w, now);
    }

    /** ns_client_drain_send, and the poll events if the socket still works: the
        slot's side. */
    method DrainSlot(i: int, sends: seq<SendOutcome>) returns (ok: bool, ghost d: Drained)
      requires Shape() && 0 <= i < MAX_CLIENTS && SlotOk(i) && clients[i].active
      modifies clients[i], clients[i].ring, pollFds
      ensures SlotOk(i) && SlotView(i) == Busy(AfterDrain(old(SlotView(i)).conn, d))
      ensures CanDrain(old(SlotView(i)).conn, d) && d.sends == sends && ok == !d.broken
      ensures pollFds[1 + i].revents == old(pollFds[1 + i].revents)
      ensures forall k | 0 <= k <= MAX_CLIENTS && k != 1 + i :: pollFds[k] == old(pollFds[k])
    {
      ok, d := clients[i].DrainSend(sends);
      if ok {
        UpdatePollEvents(i);
      }
    }

    method FlushRing(i: int, sends: seq<SendOutcome>) returns (ok: bool, ghost d: Drained)
      requires Valid() && At(world, i)
      modifies Repr()
      ensures Valid() && ready == old(ready)
      ensures Possible(old(world), Writable(i, d, 0)) && world == Put(old(world), i, AfterDrain(old(world).slots[i].conn, d))
      ensures ok == !d.broken && d.sends == sends
    {
      assert SlotOk(i) && world.slots[i] == SlotView(i);
      ok, d := DrainSlot(i, sends);
      OneSlotChanged(i);
      Record(Put(world, i, AfterDrain(world.slots[i].conn, d)));
    }

    /** The POLLOUT branch of the poll loop. Only a ring whose tail is at the very
        end of its array can give away more than was queued. */
    method FlushSlot(i: int, sends: seq<SendOutcome>, now: int) returns (ghost d: Drained, ok: bool)
      requires Valid() && At(world, i)
      modifies Repr()
      ensures Valid() && ready == old(ready)
      ensures Possible(old(world), Writable(i, d, now)) && world == Flush(old(world), i, d, now)
      ensures d.sends == sends && (ok <==> At(world, i))
    {
      ok, d := FlushRing(i, sends);
      if !ok {
        Seen(i);
        DisconnectClient(i, clients[i].joined, now);
      }
    }

    /** poll(): each watched entry is told which of its events have come up, and
        failures whether watched for or not. An entry without a socket is skipped. */
    method Poll(reported: seq<Flags>)
      requires Valid() && |reported| == MAX_CLIENTS
      modifies `ready, pollFds
      ensures Valid() && world == old(world) && ready == Heard(world.slots, reported)
    {
      ready := Heard(world.slots, reported);
      PollEntries(reported);
      assert Holds(world.slots);
    }

    method PollEntries(reported: seq<Flags>)
      requires Holds(world.slots) && |reported| == MAX_CLIENTS
      modifies pollFds
      ensures Holds(world.slots)
      ensures forall i | 0 <= i < MAX_CLIENTS :: pollFds[1 + i].revents == Notified(world.slots[i], reported[i])
    {
      ghost var was := pollFds[..];
      forall k | 1 <= k <= MAX_CLIENTS {
        pollFds[k] := Polled(pollFds[k], reported[k - 1]);
      }
      forall i | 0 <= i < MAX_CLIENTS
        ensures SlotOk(i) && world.slots[i] == SlotView(i)
        ensures pollFds[1 + i].revents == Notified(world.slots[i], reported[i])
      {
        assert old(SlotOk(i)) && world.slots[i] == old(SlotView(i));
        assert pollFds[1 + i] == Polled(was[1 + i], reported[i]);
        PolledSlot(i);
      }
    }

    /** A slot does not depend on its entry's pending events. */
    twostate lemma PolledSlot(i: int)
      requires Shape() && 0 <= i < MAX_CLIENTS && old(SlotOk(i))
      requires unchanged(clients[i]) && unchanged(clients[i].ring) && unchanged(clients[i].ring.data)
      requires pollFds[1 + i] == old(pollFds[1 + i]).(revents := pollFds[1 + i].revents)
      requires !clients[i].active ==> pollFds[1 + i].revents == QUIET
      ensures SlotOk(i) && SlotView(i) == old(SlotView(i))
    {
    }

    /** The stretch of the run from `before` to the present. */
    ghost predicate Ends(p: Stretch, before: World)
      reads this
    {
      p.before == before && p.after == world
    }

    /** POLLOUT. */
    method ServeOutput(i: int, input: SlotInput, now: int) returns (ok: bool, ghost p: Stretch)
      requires Valid() && At(world, i)
      modifies Repr()
      ensures Valid() && ready == old(ready) && Ends(p, old(world)) && (ok <==> At(world, i))
      ensures Did(p, ready[i].output, Drain, i, input, now)
    {
      Listed(i);
      ok, p := true, Stretch(world, [], world);
      if pollFds[1 + i].revents.output {
        ghost var d;
        d, ok := FlushSlot(i, input.sends, now);
        p := Stretch(p.before, [Writable(i, d, now)], world);
      }
    }

    /** POLLIN. */
    method ServeInput(i: int, input: SlotInput, now: int) returns (ghost p: Stretch)
      requires Valid() && 0 <= i < MAX_CLIENTS && (input.receipt.Got? ==> WellFormed(input.receipt.packet))
      modifies Repr()
      ensures Valid() && ready == old(ready) && Ends(p, old(world))
      ensures Did(p, ready[i].input, Read, i, input, now)
    {
      Listed(i);
      p := Stretch(world, [], world);
      if pollFds[1 + i].revents.input {
        HandleClientReadable(i, input.receipt, input.trouble, now);
        p := Stretch(p.before, [Input(i, input.receipt, input.trouble, now)], world);
      }
    }

    /** POLLERR, POLLHUP, POLLNVAL. */
    method ServeFailure(i: int, input: SlotInput, now: int) returns (ghost p: Stretch)
      requires Valid() && 0 <= i < MAX_CLIENTS
      modifies Repr()
      ensures Valid() && ready == old(ready) && Ends(p, old(world))
      ensures Did(p, ready[i].failure, Fail, i, input, now)
    {
      Listed(i);
      p := Stretch(world, [], world);
      if pollFds[1 + i].revents.failure {
        Seen(i);
        DisconnectClient(i, clients[i].joined, now);
        p := Stretch(p.before, [Hangup(i, now)], world);
      }
    }

    /** POLLIN, then failures. */
    method ServeRest(i: int, input: SlotInput, now: int) returns (ghost p: Stretch)
      requires Valid() && 0 <= i < MAX_CLIENTS && (input.receipt.Got? ==> WellFormed(input.receipt.packet))
      modifies Repr()
      ensures Valid() && ready == old(ready) && Ends(p, old(world))
      ensures Serves(p, Duties(ready[i].(output := false)), i, input, now)
    {
      ghost var first := ServeInput(i, input, now);
      ghost var rest := ServeFailure(i, input, now);
      InputThenFailure(first, rest, ready[i], i, input, now);
      p := Then(first, rest);
    }

    /** One turn of the poll loop: drain, then read, then look for failures. Each
        step that poll() reported is taken as long as the slot stands, and no other. */
    method ServeSlot(i: int, input: SlotInput, now: int) returns (ghost p: Stretch)
      requires Valid() && 0 <= i < MAX_CLIENTS && (input.receipt.Got? ==> WellFormed(input.receipt.packet))
      modifies Repr()
      ensures Valid() && ready == old(ready) && Ends(p, old(world))
      ensures Serves(p, Duties(ready[i]), i, input, now)
    {
      Listed(i);
      Seen(i);
      p := Stretch(world, [], world);
      if !clients[i].active || pollFds[1 + i].revents == QUIET {
        return;
      }
      var ok;
      ghost var first;
      ok, first := ServeOutput(i, input, now);
      ghost var rest := Stretch(world, [], world);
      if ok {
        rest := ServeRest(i, input, now);
      }
      OutputThenRest(first, rest, ready[i], i, input, now);
      p := Then(first, rest);
    }

    /** Pending events are those that poll() reported for the connection that still
        holds the slot. */
    lemma Listed(i: int)
      requires Valid() && 0 <= i < MAX_CLIENTS
      ensures |ready| == MAX_CLIENTS
      ensures pollFds[1 + i].revents == if At(world, i) then ready[i] else QUIET
    {
      assert SlotOk(i) && world.slots[i] == SlotView(i);
    }

    method SweepTimeouts(now: int) returns (ghost p: Stretch)
      requires Valid()
      modifies Repr()
      ensures Valid() && ready == old(ready) && Ends(p, old(world)) && IsStretch(p)
      ensures p.events == [Timeouts(now)] && world == Reap(old(world), now)
    {
      ghost var start := world;
      ReapAuthTimeouts(now);
      OneEvent(start, Timeouts(now));
      p := Stretch(start, [Timeouts(now)], world);
    }

    method Arrive(arrivals: bool, candidate: int, now: int) returns (ghost p: Stretch)
      requires Valid()
      modifies Repr()
      ensures Valid() && Ends(p, old(world)) && IsStretch(p)
      ensures p.events ==
        if arrivals && candidate >= 0 && !IsOpen(old(world), candidate) then [Arrival(candidate, now)] else []
      ensures ready == if p.events != [] then Unheard(old(ready), FirstFree(old(world).slots, 0)) else old(ready)
    {
      ghost var start := world;
      p := Stretch(start, [], world);
      if arrivals {
        var fd := AcceptClient(candidate, now);
        if fd != -1 {
          OneEvent(start, Arrival(fd, now));
          p := Stretch(start, [Arrival(fd, now)], world);
        }
      }
    }

    /** The sweep and the new connection, if any. */
    method Open(arrivals: bool, candidate: int, now: int) returns (ghost p: Stretch)
      requires Valid()
      modifies Repr()
      ensures Valid() && Ends(p, old(world)) && IsStretch(p)
      ensures p.events == Opening(old(world), arrivals, candidate, now)
      ensures ready == if |p.events| == 2 then Unheard(old(ready), FirstFree(Reap(old(world), now).slots, 0)) else old(ready)
    {
      ghost var swept := SweepTimeouts(now);
      ghost var arrived := Arrive(arrivals, candidate, now);
      ThenIsStretch(swept, arrived);
      OpeningIs(swept, arrived, arrivals, candidate, now);
      p := Then(swept, arrived);
    }

    /** The poll loop over all slots. */
    method ServeAll(inputs: seq<SlotInput>, now: int) returns (ghost served: seq<Stretch>)
      requires Valid() && AreInputs(inputs)
      modifies Repr()
      ensures Valid() && ready == old(ready)
      ensures Chained(old(world), served) && Last(old(world), served) == world
      ensures |served| == MAX_CLIENTS && ServedUpTo(served, MAX_CLIENTS, ready, inputs, now)
    {
      served := [];
      var index := 0;
      while index < MAX_CLIENTS
        invariant 0 <= index <= MAX_CLIENTS == |ready| && |served| == index
        invariant Valid() && ready == old(ready)
        invariant Chained(old(world), served) && Last(old(world), served) == world
        invariant ServedUpTo(served, index, ready, inputs, now)
      {
        ghost var p := ServeSlot(index, inputs[index], now);
        ServesIsStretch(p, Duties(ready[index]), index, inputs[index], now);
        ChainSnoc(old(world), served, p);
        served := served + [p];
        index := index + 1;
      }
    }

    /** One turn of ns_server_run's loop after poll() has returned `count`: the sweep
        and at most one arrival, then everything that poll() has reported. */
    method Wakeup(count: nat, inputs: seq<SlotInput>, arrivals: bool, candidate: int, now: int)
      returns (ghost opening: Stretch, ghost served: seq<Stretch>)
      requires Valid() && AreInputs(inputs)
      modifies Repr()
      ensures Valid() && opening.before == old(world) && Last(opening.after, served) == world
      ensures Woken(opening, served, count > 0, inputs, arrivals, candidate, now)
    {
      Poll(Reports(inputs));
      opening := Open(count > 0 && arrivals, candidate, now);
      served := [];
      if count > 0 {
        served := ServeAll(inputs, now);
      }
    }
  }

  // ----- What a turn of the loop owes each slot -------------------------------

  predicate AreInputs(inputs: seq<SlotInput>) {
    && |inputs| == MAX_CLIENTS
    && forall k | 0 <= k < |inputs| && inputs[k].receipt.Got? :: WellFormed(inputs[k].receipt.packet)
  }

  /** Nothing has been reported yet for a connection that has just got slot i. */
  ghost function Unheard(ready: seq<Flags>, i: int): (r: seq<Flags>)
    ensures |r| == |ready|
  {
    if 0 <= i < |ready| then ready[i := QUIET] else ready
  }

  function Reports(inputs: seq<SlotInput>): (r: seq<Flags>)
    ensures |r| == |inputs|
  {
    seq(|inputs|, i requires 0 <= i < |inputs| => inputs[i].reported)
  }

  /** What poll() tells the entries. */
  ghost function Heard(slots: seq<Slot>, reported: seq<Flags>): (r: seq<Flags>)
    requires |slots| == |reported|
    ensures |r| == |slots|
  {
    seq(|slots|, i requires 0 <= i < |slots| => Notified(slots[i], reported[i]))
  }

  /** What is pending for each connection once poll() has returned in state w and
      the opening is over: nothing yet for one that has just been admitted. */
  ghost function Due(w: World, opening: seq<Event>, inputs: seq<SlotInput>, now: int): (r: seq<Flags>)
    requires |w.slots| == |inputs|
    ensures |r| == |inputs|
  {
    var heard := Heard(w.slots, Reports(inputs));
    if |opening| == 2 then Unheard(heard, FirstFree(Reap(w, now).slots, 0)) else heard
  }

  ghost function Opening(w: World, arrivals: bool, candidate: int, now: int): seq<Event> {
    if arrivals && candidate >= 0 && !IsOpen(Reap(w, now), candidate) then [Timeouts(now), Arrival(candidate, now)]
    else [Timeouts(now)]
  }

  lemma OpeningIs(swept: Stretch, arrived: Stretch, arrivals: bool, candidate: int, now: int)
    requires swept.events == [Timeouts(now)] && swept.after == Reap(swept.before, now) == arrived.before
    requires arrived.events ==
      if arrivals && candidate >= 0 && !IsOpen(arrived.before, candidate) then [Arrival(candidate, now)] else []
    ensures Then(swept, arrived).events == Opening(swept.before, arrivals, candidate, now)
    ensures |Then(swept, arrived).events| == 2 <==> arrived.events != []
  {
  }

  datatype Duty = Drain | Read | Fail

  /** What is to be done about pending events, in this order. */
  function Duties(pending: Flags): seq<Duty> {
    (if pending.output then [Drain] else []) + (if pending.input then [Read] else []) + (if pending.failure then [Fail] else [])
  }

  ghost predicate Performs(e: Event, duty: Duty, i: int, input: SlotInput, now: int) {
    match duty
    case Drain => e.Writable? && e.i == i && e.now == now && e.drained.sends == input.sends
    case Read => e == Input(i, input.receipt, input.trouble, now)
    case Fail => e == Hangup(i, now)
  }

  /** The stretch performs all duties towards slot i, up to the one that frees it. */
  ghost predicate Serves(p: Stretch, duties: seq<Duty>, i: int, input: SlotInput, now: int)
    decreases |duties|
  {
    if duties == [] || !At(p.before, i) then p.events == [] && p.after == p.before
    else
      && p.events != [] && Possible(p.before, p.events[0]) && Performs(p.events[0], duties[0], i, input, now)
      && Serves(Stretch(Next(p.before, p.events[0]), p.events[1..], p.after), duties[1..], i, input, now)
  }

  /** One duty, if it is due and the slot stands. */
  ghost predicate Did(p: Stretch, due: bool, duty: Duty, i: int, input: SlotInput, now: int) {
    if due && At(p.before, i) then
      && |p.events| == 1 && Possible(p.before, p.events[0]) && Performs(p.events[0], duty, i, input, now)
      && p.after == Next(p.before, p.events[0])
    else p.events == [] && p.after == p.before
  }

  lemma OneEvent(w: World, e: Event)
    requires Possible(w, e)
    ensures IsStretch(Stretch(w, [e], Next(w, e)))
  {
    RunSnoc(w, [], e);
    assert [] + [e] == [e];
  }

  lemma {:induction false} ServesIsStretch(p: Stretch, duties: seq<Duty>, i: int, input: SlotInput, now: int)
    requires Serves(p, duties, i, input, now)
    ensures IsStretch(p)
    decreases |duties|
  {
    if duties != [] && At(p.before, i) {
      var e, rest := p.events[0], Stretch(Next(p.before, p.events[0]), p.events[1..], p.after);
      OneEvent(p.before, e);
      ServesIsStretch(rest, duties[1..], i, input, now);
      ThenIsStretch(Stretch(p.before, [e], Next(p.before, e)), rest);
      assert p.events == [e] + p.events[1..];
    }
  }

  lemma ServesFirst(p: Stretch, q: Stretch, due: bool, duty: Duty, duties: seq<Duty>, i: int, input: SlotInput, now: int)
    requires Did(p, due, duty, i, input, now) && Serves(q, duties, i, input, now) && p.after == q.before
    ensures Serves(Then(p, q), (if due then [duty] else []) + duties, i, input, now)
  {
    if due && At(p.before, i) {
      assert (p.events + q.events)[1..] == q.events && ([duty] + duties)[1..] == duties;
    } else {
      assert p.events + q.events == q.events && [] + duties == duties;
    }
  }

  lemma InputThenFailure(p: Stretch, q: Stretch, pending: Flags, i: int, input: SlotInput, now: int)
    requires Did(p, pending.input, Read, i, input, now) && Did(q, pending.failure, Fail, i, input, now) && p.after == q.before
    ensures Serves(Then(p, q), Duties(pending.(output := false)), i, input, now)
  {
    var fail := if pending.failure then [Fail] else [];
    ServesFirst(q, Stretch(q.after, [], q.after), pending.failure, Fail, [], i, input, now);
    assert q.events + [] == q.events && fail + [] == fail;
    ServesFirst(p, q, pending.input, Read, fail, i, input, now);
    assert Duties(pending.(output := false)) == (if pending.input then [Read] else []) + fail;
  }

  lemma OutputThenRest(p: Stretch, q: Stretch, pending: Flags, i: int, input: SlotInput, now: int)
    requires Did(p, pending.output, Drain, i, input, now) && p.after == q.before
    requires if At(q.before, i) then Serves(q, Duties(pending.(output := false)), i, input, now)
      else q.events == [] && q.after == q.before
    ensures Serves(Then(p, q), Duties(pending), i, input, now)
  {
    ServesFirst(p, q, pending.output, Drain, Duties(pending.(output := false)), i, input, now);
    assert Duties(pending) == (if pending.output then [Drain] else []) + Duties(pending.(output := false));
  }

  /** What is left of a stretch after its first event. */
  ghost function Rest(p: Stretch): Stretch
    requires p.events != [] && Possible(p.before, p.events[0])
  {
    Stretch(Next(p.before, p.events[0]), p.events[1..], p.after)
  }

  /** In what order pending events are dealt with: first the drain, then the read,
      then the failure, each only as long as the slot stands; nothing else happens. */
  lemma ServedInOrder(p: Stretch, pending: Flags, i: int, input: SlotInput, now: int)
    requires Serves(p, Duties(pending), i, input, now)
    ensures !At(p.before, i) || pending == QUIET ==> p.events == []
    ensures At(p.before, i) && pending != QUIET ==> p.events != [] && Possible(p.before, p.events[0])
    ensures At(p.before, i) && pending.output ==>
      && p.events[0].Writable? && p.events[0].i == i && p.events[0].drained.sends == input.sends && p.events[0].now == now
      && Serves(Rest(p), Duties(pending.(output := false)), i, input, now)
    ensures At(p.before, i) && !pending.output && pending.input ==>
      && p.events[0] == Input(i, input.receipt, input.trouble, now)
      && Serves(Rest(p), Duties(pending.(input := false)), i, input, now)
    ensures At(p.before, i) && !pending.output && !pending.input && pending.failure ==>
      p.events[0] == Hangup(i, now) && Rest(p).events == []
  {
    var duties := Duties(pending);
    if At(p.before, i) && pending != QUIET {
      assert duties != [];
      if pending.output {
        assert duties[1..] == Duties(pending.(output := false));
      } else if pending.input {
        assert duties[1..] == Duties(pending.(input := false));
      } else {
        assert duties[1..] == [];
      }
    }
  }

  /** What is pending for slot i when its turn comes: input and failures if they were
      reported, output if it was reported and bytes were queued; nothing for a
      connection that arrived after poll(). */
  lemma DueExactly(w: World, opening: seq<Event>, inputs: seq<SlotInput>, now: int, i: nat)
    requires |w.slots| == |inputs| && i < |w.slots|
    ensures var d := Due(w, opening, inputs, now)[i];
      var late := |opening| == 2 && i == FirstFree(Reap(w, now).slots, 0);
      && (d.input <==> w.slots[i].Busy? && inputs[i].reported.input && !late)
      && (d.output <==> w.slots[i].Busy? && inputs[i].reported.output && w.slots[i].conn.armed && !late)
      && (d.failure <==> w.slots[i].Busy? && inputs[i].reported.failure && !late)
  {
  }

  /** One stretch for each of the first n slots, serving it. */
  ghost predicate ServedUpTo(served: seq<Stretch>, n: nat, ready: seq<Flags>, inputs: seq<SlotInput>, now: int)
    requires n <= |served| && n <= |ready| && n <= |inputs|
  {
    forall i | 0 <= i < n :: Serves(served[i], Duties(ready[i]), i, inputs[i], now)
  }

  /** One turn of the loop: first the sweep and at most one arrival, then, if poll()
      has reported anything, all that is due to every slot, and nothing else. */
  ghost predicate Woken(opening: Stretch, served: seq<Stretch>,
    any: bool, inputs: seq<SlotInput>, arrivals: bool, candidate: int, now: int)
  {
    && |opening.before.slots| == |inputs| == MAX_CLIENTS
    && IsStretch(opening) && opening.events == Opening(opening.before, any && arrivals, candidate, now)
    && Chained(opening.after, served)
    && if any then
         && |served| == MAX_CLIENTS
         && ServedUpTo(served, MAX_CLIENTS, Due(opening.before, opening.events, inputs, now), inputs, now)
       else served == []
  }

  lemma PutTwice(w: World, i: int, c: Conn, d: Conn)
    requires At(w, i)
    ensures Put(Put(w, i, c), i, d) == Put(w, i, d)
  {
  }

  lemma AdmitInto(w: World, fd: int, now: int)
    requires FirstFree(w.slots, 0) >= 0
    ensures var after := Admit(w, fd, now);
      && after.slots == w.slots[FirstFree(w.slots, 0) := Busy(Fresh(fd, now, w.folded))]
      && after.count == w.count + 1 && after.db == w.db && after.gone == w.gone
      && after.sockets == w.sockets + [fd] && after.folded == w.folded
  {
  }

  lemma PutSame(w: World, i: int)
    requires At(w, i)
    ensures Put(w, i, w.slots[i].conn) == w
  {
  }

  /** A broadcast that has dealt with the first n slots. */
  ghost function BroadcastUpTo(w: World, p: Packet, except: int, n: nat): World
    requires n <= |w.slots|
  {
    var dropped := Dropped(w.slots, p, except, n);
    w.(slots := DeliveredAll(w.slots, p, except)[..n] + w.slots[n..], count := Decreased(w.count, |dropped|),
       log := w.log + [p], gone := w.gone + dropped)
  }

  lemma BroadcastStarts(w: World, p: Packet, except: int)
    ensures BroadcastUpTo(w, p, except, 0) == w.(log := w.log + [p])
  {
  }

  lemma BroadcastEnds(w: World, p: Packet, except: int)
    ensures BroadcastUpTo(w, p, except, |w.slots|) == Chat.Broadcast(w, p, except)
  {
    assert w.slots[|w.slots|..] == [];
  }

  lemma NextSlot<T>(done: seq<T>, todo: seq<T>, n: nat)
    requires n < |done| == |todo|
    ensures (done[..n] + todo[n..])[n] == todo[n]
    ensures (done[..n] + todo[n..])[n := done[n]] == done[..n + 1] + todo[n + 1..]
  {
  }

  /** What one turn of the broadcast loop makes of the server. */
  ghost function AfterTurn(w: World, i: int, p: Packet, except: int): World
    requires 0 <= i < |w.slots|
  {
    if !Member(w.slots[i]) || i == except then w
    else if Fits(w.slots[i].conn, p) then Put(w, i, Push(w.slots[i].conn, p))
    else Disconnect(w, i, false, 0)
  }

  lemma BroadcastStep(w: World, p: Packet, except: int, n: nat)
    requires n < |w.slots|
    ensures AfterTurn(BroadcastUpTo(w, p, except, n), n, p, except) == BroadcastUpTo(w, p, except, n + 1)
  {
    var done := DeliveredAll(w.slots, p, except);
    NextSlot(done, w.slots, n);
    assert (done[..n] + w.slots[n..])[n := w.slots[n]] == done[..n] + w.slots[n..];
  }

  /** What one turn of the timeout sweep makes of the server. */
  ghost function AfterReaping(w: World, i: int, now: int): World
    requires 0 <= i < |w.slots|
  {
    if Expired(w.slots[i], now) then Disconnect(Complain(w, i, AuthTimeout, now), i, false, now) else w
  }

  /** A sweep that has dealt with the first n slots. */
  ghost function ReapUpTo(w: World, now: int, n: nat): World
    requires n <= |w.slots|
  {
    var reaped := ReapedConns(w.slots, now, n);
    w.(slots := Reaped(w.slots, now)[..n] + w.slots[n..], count := Decreased(w.count, |reaped|), gone := w.gone + reaped)
  }

  lemma ReapStarts(w: World, now: int)
    ensures ReapUpTo(w, now, 0) == w
  {
  }

  lemma ReapEnds(w: World, now: int)
    ensures ReapUpTo(w, now, |w.slots|) == Reap(w, now)
  {
    assert w.slots[|w.slots|..] == [];
  }

  lemma ReapStep(w: World, now: int, n: nat)
    requires n < |w.slots|
    ensures AfterReaping(ReapUpTo(w, now, n), n, now) == ReapUpTo(w, now, n + 1)
  {
    var done := Reaped(w.slots, now);
    NextSlot(done, w.slots, n);
    assert (done[..n] + w.slots[n..])[n := w.slots[n]] == done[..n] + w.slots[n..];
  }
}
