/** Whole runs of the server in its own form: from ns_server_init through any
    number of turns of the poll loop. */
module Service {
  import opened Wire
  import opened Ring
  import opened Store
  import opened Chat
  import opened Server
  import opened Delivery
  import Conservation
  import Identity
  import Persistence
  import Guarantees

  /** What one poll() and the calls that follow it will answer. */
  datatype Turn = Turn(count: nat, inputs: seq<SlotInput>, arrivals: bool, candidate: int, now: int)

  /** The opening of a turn and what it did for each slot. */
  datatype Past = Past(opening: Stretch, served: seq<Stretch>)

  ghost predicate TurnTaken(p: Past, t: Turn) {
    Woken(p.opening, p.served, t.count > 0, t.inputs, t.arrivals, t.candidate, t.now)
  }

  ghost predicate TurnsTaken(pasts: seq<Past>, turns: seq<Turn>) {
    && |pasts| == |turns|
    && forall k | 0 <= k < |pasts| :: TurnTaken(pasts[k], turns[k])
  }

  /** One turn as a stretch of the run. */
  function Whole(p: Past): Stretch {
    Stretch(p.opening.before, p.opening.events + AllEvents(p.served), Last(p.opening.after, p.served))
  }

  function Wholes(pasts: seq<Past>): (r: seq<Stretch>)
    ensures |r| == |pasts|
  {
    seq(|pasts|, k requires 0 <= k < |pasts| => Whole(pasts[k]))
  }

  lemma TurnIsStretch(p: Past, t: Turn)
    requires TurnTaken(p, t)
    ensures IsStretch(Whole(p))
  {
    ChainIsRun(p.opening.after, p.served);
    ThenIsStretch(p.opening, Stretch(p.opening.after, AllEvents(p.served), Last(p.opening.after, p.served)));
  }

  lemma WholesSnoc(pasts: seq<Past>, p: Past)
    ensures Wholes(pasts + [p]) == Wholes(pasts) + [Whole(p)]
  {
  }

  /** All that the lemmas say about a run. */
  ghost predicate InOrder(start: Tables, folded: bool, w: World, trace: seq<Event>) {
    && IsRun(Start(start, folded), trace) && After(Start(start, folded), trace) == w
    && Ordered(w) && Conservation.Conserved(w) && Identity.Identified(w)
    && Persistence.Recorded(start, w.db, w.log)
    && (folded ==> Guarantees.DrainsInside(Start(start, folded), trace))
  }

  lemma RunsInOrder(start: Tables, folded: bool, trace: seq<Event>)
    requires Store.Valid(start) && IsRun(Start(start, folded), trace)
    ensures InOrder(start, folded, After(Start(start, folded), trace), trace)
  {
    AlwaysOrdered(start, folded, trace);
    Conservation.AlwaysConserved(start, folded, trace);
    Identity.AlwaysIdentified(start, folded, trace);
    Persistence.AlwaysRecorded(start, folded, trace);
    if folded {
      Guarantees.FoldedDrainsInside(start, trace);
    }
  }

  method TakeTurn(server: ServerState, t: Turn) returns (ghost past: Past)
    requires server.Valid() && AreInputs(t.inputs)
    modifies server.Repr()
    ensures server.Valid() && TurnTaken(past, t)
    ensures IsStretch(Whole(past)) && Whole(past).before == old(server.world) && Whole(past).after == server.world
  {
    ghost var opening, served := server.Wakeup(t.count, t.inputs, t.arrivals, t.candidate, t.now);
    past := Past(opening, served);
    TurnIsStretch(past, t);
  }

  method TakeTurns(server: ServerState, turns: seq<Turn>) returns (ghost pasts: seq<Past>)
    requires server.Valid() && forall t | t in turns :: AreInputs(t.inputs)
    modifies server.Repr()
    ensures server.Valid() && TurnsTaken(pasts, turns)
    ensures Chained(old(server.world), Wholes(pasts)) && Last(old(server.world), Wholes(pasts)) == server.world
  {
    ghost var start := server.world;
    pasts := [];
    for n := 0 to |turns|
      invariant server.Valid() && |pasts| == n
      invariant forall k | 0 <= k < n :: TurnTaken(pasts[k], turns[k])
      invariant Chained(start, Wholes(pasts)) && Last(start, Wholes(pasts)) == server.world
    {
      ghost var past := TakeTurn(server, turns[n]);
      ChainSnoc(start, Wholes(pasts), Whole(past));
      WholesSnoc(pasts, past);
      pasts := pasts + [past];
    }
  }

  /** ns_server_run for as many turns as there are answers for. Whatever these are,
      each turn does all that is due in it, and the server ends in a state that the
      lemmas about runs describe. */
  method Serve(db: Database, folded: bool, turns: seq<Turn>) returns (server: ServerState, ghost pasts: seq<Past>)
    requires Store.Valid(db.View())
    requires forall t | t in turns :: AreInputs(t.inputs)
    modifies db
    ensures fresh(server) && server.Valid() && server.folded == folded && server.database == db
    ensures TurnsTaken(pasts, turns) && Chained(Start(old(db.View()), folded), Wholes(pasts))
    ensures InOrder(old(db.View()), folded, server.world, AllEvents(Wholes(pasts)))
  {
    ghost var start := db.View();
    server := new ServerState(db, folded);
    pasts := TakeTurns(server, turns);
    ChainIsRun(Start(start, folded), Wholes(pasts));
    RunsInOrder(start, folded, AllEvents(Wholes(pasts)));
  }

  // ----- Progress -------------------------------------------------------------

  /** The answers accept as many bytes as are queued. Ring.EnoughAnswers and
      Ring.TwoAnswers say how little that takes. */
  predicate AcceptAll(c: Conn, sends: seq<SendOutcome>) {
    Sweep(c.head, c.tail, sends, 0).total == |c.queue|
  }

  /** A drain whose answers accept all that is queued: the ring is empty afterwards,
      no longer armed, and all that was enqueued has been sent. */
  lemma DrainsOut(c: Conn, d: Drained)
    requires Faithful(c) && !c.spoiled && c.tail < RING_SIZE && CanDrain(c, d)
    requires AcceptAll(c, d.sends)
    ensures !d.broken
    ensures var after := AfterDrain(c, d); after.queue == [] && !after.armed && after.sent == EncodeAll(c.history)
  {
    SweepLeaves(c.head, c.tail, d.sends, 0);
    NotBroken(c.head, c.tail, d.sends, 0);
    assert d.left == [];
  }

  /** The state in which a slot's turn comes is a state of the run. */
  lemma SlotTurn(db: Tables, folded: bool, es: seq<Event>, p: Past, t: Turn, i: nat) returns (longer: seq<Event>)
    requires IsRun(Start(db, folded), es) && After(Start(db, folded), es) == p.opening.before
    requires TurnTaken(p, t) && t.count > 0 && i < MAX_CLIENTS
    ensures IsRun(Start(db, folded), longer) && After(Start(db, folded), longer) == p.served[i].before
  {
    var before := p.served[..i];
    forall k | 0 <= k < i ensures Linked(p.opening.after, before, k) {
      assert Linked(p.opening.after, p.served, k);
    }
    ChainIsRun(p.opening.after, before);
    assert Linked(p.opening.after, p.served, i);
    RunAppend(Start(db, folded), es, p.opening.events);
    RunAppend(Start(db, folded), es + p.opening.events, AllEvents(before));
    longer := es + p.opening.events + AllEvents(before);
  }

  lemma DutyFirst(p: Stretch, pending: Flags, i: int, input: SlotInput, now: int)
    requires Serves(p, Duties(pending), i, input, now) && At(p.before, i) && pending.output
    ensures p.events != [] && Possible(p.before, p.events[0])
    ensures p.events[0].Writable? && p.events[0].i == i && p.events[0].drained.sends == input.sends
  {
    assert Duties(pending)[0] == Duty.Drain;
  }

  /** A ring whose tail is inside the array: if POLLOUT is pending for a client when
      its turn comes, and the kernel accepts all that is queued, then its ring is
      emptied and it has been sent all that was ever enqueued for it. */
  lemma SlotDrains(p: Stretch, pending: Flags, i: nat, input: SlotInput, now: int)
    requires At(p.before, i) && pending.output && Serves(p, Duties(pending), i, input, now)
    requires var c := p.before.slots[i].conn;
      Faithful(c) && !c.spoiled && c.tail < RING_SIZE && AcceptAll(c, input.sends)
    ensures p.events != [] && Possible(p.before, p.events[0])
    ensures var c, w := p.before.slots[i].conn, Next(p.before, p.events[0]);
      At(w, i) && w.slots[i].conn.queue == [] && w.slots[i].conn.history == c.history
      && w.slots[i].conn.sent == EncodeAll(c.history)
  {
    DutyFirst(p, pending, i, input, now);
    DrainsOut(p.before.slots[i].conn, p.events[0].drained);
  }

  /** With the enqueue that the comments describe this holds in any turn of any run,
      for every client that is still there when its turn comes. */
  lemma TurnDrains(db: Tables, es: seq<Event>, p: Past, t: Turn, i: nat)
    requires IsRun(Start(db, true), es) && After(Start(db, true), es) == p.opening.before
    requires TurnTaken(p, t) && t.count > 0 && i < MAX_CLIENTS
    requires Due(p.opening.before, p.opening.events, t.inputs, t.now)[i].output && At(p.served[i].before, i)
    requires AcceptAll(p.served[i].before.slots[i].conn, t.inputs[i].sends)
    ensures p.served[i].events != [] && Possible(p.served[i].before, p.served[i].events[0])
    ensures var c, w := p.served[i].before.slots[i].conn, Next(p.served[i].before, p.served[i].events[0]);
      At(w, i) && w.slots[i].conn.queue == [] && w.slots[i].conn.history == c.history
      && w.slots[i].conn.sent == EncodeAll(c.history)
  {
    var longer := SlotTurn(db, true, es, p, t, i);
    AlwaysOrdered(db, true, longer);
    var w := p.served[i].before;
    if !w.slots[i].conn.joined {
      OkThenGone(w.slots[i].conn, w.log);
    }
    SlotDrains(p.served[i], Due(p.opening.before, p.opening.events, t.inputs, t.now)[i], i, t.inputs[i], t.now);
  }

  /** What it means in memory: the bytes that a client's socket has taken and those
      in its ring are the encoding of its packets exactly if no drain took more than
      was queued, which cannot be with a folded ring. */
  lemma InMemory(server: ServerState, i: int)
    requires server.Valid() && Ordered(server.world) && 0 <= i < MAX_CLIENTS && server.clients[i].active
    ensures var c := server.clients[i];
      && c.ring.Valid()
      && (c.sent + c.ring.Fifo() == EncodeAll(c.history) <==> !c.spoiled)
      && (server.folded ==> !c.spoiled)
  {
    assert server.SlotOk(i) && server.world.slots[i] == server.SlotView(i);
    var c := server.world.slots[i].conn;
    if !c.joined {
      OkThenGone(c, server.world.log);
    }
    assert Faithful(c);
  }
}
