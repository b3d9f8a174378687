/** A store whose second row id is 2^32 larger than its first: its two users meet,
    under one id, and what the second one says is kept under the first one's name. */
module Collision {
  import opened Wire
  import opened Store
  import opened Chat
  import opened Guarantees

  function Ann(): CStr { [65] }
  function Bob(): CStr { [66] }
  function Hi(): CStr { [104, 105] }

  function Users(): Tables {
    Tables(map[Ann() := 1, Bob() := 0x1_0000_0001], map[1 := Ann(), 0x1_0000_0001 := Bob()], 0x1_0000_0001, [], 0)
  }

  lemma UsersValid()
    ensures Valid(Users()) && Ann() != Bob()
    ensures Registered(Users(), Ann(), FINE) == (Users(), Some(1)) && Registered(Users(), Bob(), FINE) == (Users(), Some(1))
  {
    assert Ann()[0] != Bob()[0];
  }

  function Request(kind: Byte, body: CStr): (p: Packet)
    requires KnownKind(kind) && |body| <= BODY_MAX
    ensures WellFormed(p)
  {
    Packet(PROTOCOL_VERSION, kind, 0, 0, body)
  }

  /** State w is reached from Users() by the events es. */
  ghost predicate Reached(es: seq<Event>, w: World) {
    IsRun(Start(Users(), false), es) && After(Start(Users(), false), es) == w
  }

  /** The first n slots are taken, the others free. */
  ghost predicate Seated(w: World, n: nat) {
    && n <= |w.slots| == MAX_CLIENTS && w.db == Users() && !w.folded
    && forall i | 0 <= i < |w.slots| :: w.slots[i].Busy? <==> i < n
  }

  lemma NextSeat(w: World, n: nat)
    requires Seated(w, n) && n < MAX_CLIENTS
    ensures FirstFree(w.slots, 0) == n
  {
    assert w.slots[n].Free?;
    var r := FirstFree(w.slots, 0);
    assert r != -1 && w.slots[r].Free?;
  }

  lemma Enter(es: seq<Event>, w: World, n: nat, fd: int) returns (es2: seq<Event>, w2: World)
    requires Reached(es, w) && Seated(w, n) && n < MAX_CLIENTS && fd >= 0 && !IsOpen(w, fd)
    ensures Reached(es2, w2) && Seated(w2, n + 1) && w2.slots == w.slots[n := Busy(Fresh(fd, 0, false))]
  {
    es2, w2 := es + [Arrival(fd, 0)], Admit(w, fd, 0);
    RunSnoc(Start(Users(), false), es, Arrival(fd, 0));
    NextSeat(w, n);
  }

  lemma Join(es: seq<Event>, w: World, n: nat, i: nat, name: CStr) returns (es2: seq<Event>, w2: World)
    requires Reached(es, w) && Seated(w, n) && i < n && w.slots[i].conn.queue == [] && !w.slots[i].conn.joined
    requires 1 <= |name| <= USERNAME_MAX && !NameInUse(w, name, i) && Registered(w.db, name, FINE) == (w.db, Some(1))
    ensures Reached(es2, w2) && |w2.slots| == |w.slots| && w2.db == w.db && !w2.folded
    ensures w2.slots[i] == Busy(Newcomer(w, i, 1, name, 0))
    ensures forall j | 0 <= j < |w.slots| && j != i :: w2.slots[j] == Delivered(w.slots[j], j, JoinPacket(1, name, 0), -1)
  {
    var e := Input(i, Got(Request(JOIN, name)), FINE, 0);
    es2, w2 := es + [e], Next(w, e);
    RunSnoc(Start(Users(), false), es, e);
    WholeCString(name);
    WelcomeSucceeds(w, i, 1, name, 0);
  }

  ghost predicate Sits(s: Slot, fd: int, name: CStr) {
    s.Busy? && s.conn.fd == fd && s.conn.joined && s.conn.name == name && s.conn.userId == 1 && |s.conn.queue| <= 200
  }

  lemma AnnJoins() returns (es: seq<Event>, w: World)
    ensures Reached(es, w) && Seated(w, 1) && Sits(w.slots[0], 3, Ann()) && |w.slots[0].conn.queue| <= 100
  {
    UsersValid();
    es, w := Enter([], Start(Users(), false), 0, 3);
    Greeted(w, 0, Ann());
    es, w := Join(es, w, 1, 0, Ann());
  }

  lemma Greeted(w: World, i: int, name: CStr)
    requires At(w, i) && w.slots[i].conn.queue == [] && w.slots[i].conn.history == [] && |name| == 1
    ensures Sits(Busy(Newcomer(w, i, 1, name, 0)), w.slots[i].conn.fd, name) && |Newcomer(w, i, 1, name, 0).queue| <= 100
  {
    NewcomerHas(w, i, 1, name, 0);
  }

  /** A short queue has room for what follows. */
  lemma StillSits(s: Slot, j: int, fd: int, name: CStr, other: CStr)
    requires Sits(s, fd, name) && |s.conn.queue| <= 100 && |other| == 1
    ensures Sits(Delivered(s, j, JoinPacket(1, other, 0), -1), fd, name)
  {
  }

  lemma BothJoin() returns (es: seq<Event>, w: World)
    ensures Reached(es, w) && |w.slots| == MAX_CLIENTS && w.db == Users()
    ensures Sits(w.slots[0], 3, Ann()) && Sits(w.slots[1], 4, Bob())
  {
    UsersValid();
    es, w := AnnJoins();
    es, w := Enter(es, w, 1, 4);
    Greeted(w, 1, Bob());
    StillSits(w.slots[0], 0, 3, Ann(), Bob());
    es, w := Join(es, w, 2, 1, Bob());
  }

  /** Two members with the same id: what MembersDiffer excludes below 2^32. */
  lemma MembersMayShareId()
    ensures exists es, w :: (
      && Reached(es, w) && |w.slots| == MAX_CLIENTS && Member(w.slots[0]) && Member(w.slots[1])
      && w.slots[0].conn.name != w.slots[1].conn.name && w.slots[0].conn.userId == w.slots[1].conn.userId)
  {
    UsersValid();
    var es, w := BothJoin();
    assert Reached(es, w);
  }

  /** Bob says hi. It is broadcast as Bob's and stored as Ann's. */
  lemma TextUnderAnotherName()
    ensures exists es, w :: (
      && Reached(es, w) && |w.log| > 0 && w.log[|w.log| - 1].body == DisplayText(Bob(), Hi())
      && CutAll(Recent(w.db, 500)) == [Line(Ann(), Hi(), 0)])
  {
    UsersValid();
    var es, w := BothJoin();
    var e := Input(1, Got(Request(TEXT, Hi())), FINE, 0);
    RunSnoc(Start(Users(), false), es, e);
    WholeCString(Hi());
    var w2 := Next(w, e);
    assert w2.db.messages == [Row(1, 1, Hi(), 0)];
    JoinDropsNothing(w2.db.messages, w2.db.nameOf, 0);
    assert Reached(es + [e], w2);
  }
}
