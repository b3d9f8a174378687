/** The two threads of client/client.c and the state they share: a transition
    system over the mutex-guarded sections, the UI reduced to the two switches
    that gate clicks and the queue of events for the main thread. */
module Client {
  import opened Wire

  const INVALID := -1

  /** The fields under connection_lock. A socket is known by the number of the
      connection it was opened for, a receiver thread by its own number. */
  datatype Shared = Shared(socket: int, transport: bool, joined: bool, userId: U32, active: bool, handle: int)

  /** ns_client_take_socket */
  function Taken(s: Shared): Shared {
    s.(socket := INVALID, transport := false, joined := false, userId := 0)
  }

  /** ns_client_store_connection */
  function Stored(s: Shared, socket: int): Shared {
    s.(socket := socket, transport := true, joined := false, userId := 0)
  }

  /** The guarded part of ns_client_join_receiver_thread. */
  function Claimed(s: Shared): Shared {
    if s.active then s.(active := false, handle := INVALID) else s
  }

  /** The guarded part of starting a receiver. */
  function Spawned(s: Shared, thread: int): Shared {
    s.(active := true, handle := thread)
  }

  /** The guarded part of handling an ACK. */
  function Acked(s: Shared, id: U32): Shared {
    s.(joined := true, userId := id)
  }

  /** Queued for the main thread. `from` is the receiver that has ended, which the
      program itself does not record. */
  datatype UiEvent = Connected | Disconnected(from: nat) | Other

  /** What the main thread does once ns_client_disconnect, or the join for a
      DISCONNECTED event, is over. */
  datatype Then = Nothing | FailedConnect | FailedSend | Dispatched

  datatype Main =
    | Idle
    | SendingJoin              // socket stored, JOIN not sent
    | Spawning                 // JOIN sent, no receiver yet
    | SendingText(fd: int)     // a text is being sent on a copy of the socket
    | Taking(next: Then)       // ns_client_disconnect entered
    | Closing(fd: int, next: Then)
    | Claiming(next: Then)     // ns_client_join_receiver_thread entered
    | Waiting(thread: int, next: Then)

  datatype Pc = Starting | Reading(fd: int) | Greeting(fd: int) | Leaving | Holding(fd: int) | Reporting | Done

  /** A receiver thread, started for one connection. */
  datatype Receiver = Receiver(pc: Pc, connection: int)

  /** closes[k] counts how often the socket of connection k has been closed. */
  datatype App = App(shared: Shared, login: bool, send: bool, queue: seq<UiEvent>, main: Main, receivers: seq<Receiver>, closes: seq<nat>)

  function Begin(): App {
    App(Shared(INVALID, false, false, 0, false, INVALID), true, false, [], Idle, [], [])
  }

  function Close(a: App, fd: int): App {
    if 0 <= fd < |a.closes| then a.(closes := a.closes[fd := a.closes[fd] + 1]) else a
  }

  function Finish(a: App, next: Then): App {
    match next
    case Nothing => a.(main := Idle)
    case FailedConnect => a.(main := Idle, login := true)
    case FailedSend => a.(main := Idle, send := false, login := true)
    case Dispatched => a.(main := Idle, send := false, login := true)
  }

  /** What a receiver's ns_recv_packet may give. */
  datatype Incoming = Ack(id: U32) | Line | ErrorLine | Ended

  datatype Act =
    | ClickConnect         // the form is valid and ns_connect_tcp has succeeded
    | ClickSend
    | CloseWindow          // also the application's shutdown
    | Dispatch             // the main loop takes the oldest queued event
    | MainStep(ok: bool)   // the main thread goes on; ok: a send succeeds
    | ReceiverStep(thread: nat, incoming: Incoming)

  function MainNext(a: App, ok: bool): App {
    match a.main
    case Idle => a
    case SendingJoin => a.(main := if ok then Spawning else Taking(FailedConnect))
    case Spawning =>
      a.(main := Idle, shared := Spawned(a.shared, |a.receivers|),
         receivers := a.receivers + [Receiver(Starting, |a.closes| - 1)])
    case SendingText(_) => a.(main := if ok then Idle else Taking(FailedSend))
    case Taking(next) => a.(main := Closing(a.shared.socket, next), shared := Taken(a.shared))
    case Closing(fd, next) => Close(a, fd).(main := Claiming(next))
    case Claiming(next) =>
      if a.shared.active then a.(main := Waiting(a.shared.handle, next), shared := Claimed(a.shared))
      else Finish(a, next)
    case Waiting(thread, next) =>
      if 0 <= thread < |a.receivers| && !a.receivers[thread].pc.Done? then a else Finish(a, next)
  }

  function At(a: App, t: nat, pc: Pc): App
    requires t < |a.receivers|
  {
    a.(receivers := a.receivers[t := a.receivers[t].(pc := pc)])
  }

  function ReceiverNext(a: App, t: nat, incoming: Incoming): App
    requires t < |a.receivers|
  {
    match a.receivers[t].pc
    case Starting => At(a, t, Reading(a.shared.socket))
    case Reading(fd) =>
      if fd == INVALID then At(a, t, Leaving)
      else (
        match incoming
        case Ack(id) => At(a, t, Greeting(fd)).(shared := Acked(a.shared, id))
        case Line => a.(queue := a.queue + [Other])
        case ErrorLine => a.(queue := a.queue + [Other, Other])
        case Ended => At(a, t, Leaving))
    case Greeting(fd) => At(a, t, Reading(fd)).(queue := a.queue + [Connected])
    case Leaving => At(a, t, Holding(a.shared.socket)).(shared := Taken(a.shared))
    case Holding(fd) => Close(At(a, t, Reporting), fd)
    case Reporting => At(a, t, Done).(queue := a.queue + [Disconnected(t)])
    case Done => a
  }

  /** Clicks and queued events are only handled while the main thread is idle,
      and the connect button only while the login form is enabled. */
  function Step(a: App, act: Act): App {
    match act
    case ClickConnect =>
      if !a.main.Idle? || !a.login then a
      else a.(main := SendingJoin, shared := Stored(a.shared, |a.closes|), login := false, send := false, closes := a.closes + [0])
    case ClickSend =>
      if !a.main.Idle? || a.shared.socket == INVALID || !a.shared.joined then a
      else a.(main := SendingText(a.shared.socket))
    case CloseWindow => if !a.main.Idle? then a else a.(main := Taking(Nothing))
    case Dispatch =>
      if !a.main.Idle? || a.queue == [] then a
      else
        var b := a.(queue := a.queue[1..]);
        (match a.queue[0]
         case Connected => b.(send := true, login := false)
         case Disconnected(_) => b.(main := Claiming(Dispatched))
         case Other => b)
    case MainStep(ok) => MainNext(a, ok)
    case ReceiverStep(t, incoming) => if t < |a.receivers| then ReceiverNext(a, t, incoming) else a
  }

  function Run(a: App, acts: seq<Act>): App
    decreases |acts|
  {
    if acts == [] then a else Step(Run(a, acts[..|acts| - 1]), acts[|acts| - 1])
  }

  // ----- The invariant -----------------------------------------------------

  /** The newest receiver, which is the only one that can still be running. */
  function Newest(a: App): Receiver {
    if a.receivers == [] then Receiver(Done, INVALID) else a.receivers[|a.receivers| - 1]
  }

  predicate Live(a: App) {
    !Newest(a).pc.Done?
  }

  predicate Early(pc: Pc) {
    pc.Starting? || pc.Reading? || pc.Greeting? || pc.Leaving?
  }

  /** The newest receiver has not yet done its final ns_client_take_socket. */
  predicate BeforeTake(a: App) {
    Early(Newest(a).pc)
  }

  /** A connection is being set up that has no receiver so far. */
  predicate SettingUp(a: App) {
    a.main.SendingJoin? || a.main.Spawning? || a.main == Taking(FailedConnect)
  }

  /** The connection being given up never had a receiver. */
  predicate Unreceived(m: Main) {
    (m.Closing? || m.Claiming?) && m.next.FailedConnect?
  }

  predicate Disconnecting(m: Main) {
    m.Closing? || (m.Claiming? && !m.next.Dispatched?) || (m.Waiting? && !m.next.Dispatched?)
  }

  function Bit(b: bool): nat {
    if b then 1 else 0
  }

  /** In how many places the socket of connection k is held. */
  function Owners(a: App, k: int): nat {
    Bit(a.shared.socket == k) + Bit(a.main.Closing? && a.main.fd == k) + Bit(Newest(a).pc == Holding(k))
  }

  predicate Holdable(a: App, fd: int) {
    fd == INVALID || fd == |a.closes| - 1
  }

  /** A receiver only ever reads and closes the socket it was started for. */
  predicate HoldsOwn(a: App, pc: Pc) {
    (pc.Reading? || pc.Greeting? || pc.Holding?) ==> Holdable(a, pc.fd)
  }

  predicate ThreadsOk(a: App) {
    && (forall t | 0 <= t < |a.receivers| - 1 :: a.receivers[t].pc.Done?)
    && (a.shared.active ==> a.receivers != [] && a.shared.handle == |a.receivers| - 1)
    && (!a.shared.active ==> a.shared.handle == INVALID)
    && (a.main.Waiting? ==> a.receivers != [] && a.main.thread == |a.receivers| - 1 && !a.shared.active)
    && (Live(a) ==> a.shared.active || a.main.Waiting?)
    && (Live(a) ==> Newest(a).connection == |a.closes| - 1)
    && (forall e | e in a.queue && e.Disconnected? :: e.from < |a.receivers| && a.receivers[e.from].pc.Done?)
    && HoldsOwn(a, Newest(a).pc)
  }

  predicate SocketOk(a: App) {
    && Holdable(a, a.shared.socket)
    && (a.shared.transport <==> a.shared.socket != INVALID)
    && (a.shared.socket != INVALID ==> a.shared.active || SettingUp(a) || a.main == Waiting(|a.receivers| - 1, Dispatched))
    && (a.shared.socket != INVALID && !SettingUp(a) ==> BeforeTake(a))
    && (SettingUp(a) ==> !Live(a) && !a.shared.active && !a.shared.joined && a.shared.userId == 0)
    && (a.main.SendingJoin? || a.main.Spawning? ==> a.shared.socket == |a.closes| - 1 >= 0)
    && (Disconnecting(a.main) ==> a.shared.socket == INVALID)
    && (a.shared.joined || a.shared.userId != 0 ==> a.shared.socket != INVALID || BeforeTake(a))
    && (Unreceived(a.main) ==> !Live(a) && !a.shared.active)
  }

  predicate LoginOk(a: App) {
    a.login ==>
      && a.shared.socket == INVALID && !a.shared.active && !Live(a)
      && (a.main == Idle || a.main == Taking(Nothing) || a.main == Closing(INVALID, Nothing)
          || a.main == Claiming(Nothing) || a.main == Claiming(Dispatched))
  }

  predicate OwnedOnce(a: App) {
    forall k | 0 <= k < |a.closes| :: a.closes[k] + Owners(a, k) == 1
  }

  predicate Inv(a: App) {
    ThreadsOk(a) && SocketOk(a) && LoginOk(a) && OwnedOnce(a)
  }

  /** The newest receiver moves to `pc`. */
  function Moved(a: App, pc: Pc): (b: App)
    requires a.receivers != []
    ensures Newest(b) == Newest(a).(pc := pc)
    ensures |b.receivers| == |a.receivers|
    ensures forall t | 0 <= t < |a.receivers| - 1 :: b.receivers[t] == a.receivers[t]
  {
    At(a, |a.receivers| - 1, pc)
  }

  /** Until its final take a receiver can do nothing but note an ACK and queue
      events. */
  lemma EarlyKeeps(a: App, pc: Pc, shared: Shared, queue: seq<UiEvent>)
    requires Inv(a) && Early(Newest(a).pc) && Early(pc) && HoldsOwn(a, pc)
    requires shared == a.shared.(joined := shared.joined, userId := shared.userId)
    requires forall e | e in queue && e.Disconnected? :: e in a.queue
    ensures Inv(Moved(a, pc).(shared := shared, queue := queue))
  {
  }

  lemma FinalTakeKeeps(a: App)
    requires Inv(a) && Newest(a).pc.Leaving?
    ensures Inv(Moved(a, Holding(a.shared.socket)).(shared := Taken(a.shared)))
  {
  }

  lemma ReceiverClosesKeeps(a: App)
    requires Inv(a) && Newest(a).pc.Holding?
    ensures Inv(Close(Moved(a, Reporting), Newest(a).pc.fd))
  {
  }

  lemma ReportKeeps(a: App)
    requires Inv(a) && Newest(a).pc.Reporting?
    ensures Inv(Moved(a, Done).(queue := a.queue + [Disconnected(|a.receivers| - 1)]))
  {
  }

  lemma ReadingKeeps(a: App, incoming: Incoming)
    requires Inv(a) && Newest(a).pc.Reading?
    ensures Inv(ReceiverNext(a, |a.receivers| - 1, incoming))
  {
    var fd := Newest(a).pc.fd;
    if fd == INVALID || incoming.Ended? {
      EarlyKeeps(a, Leaving, a.shared, a.queue);
    } else if incoming.Ack? {
      EarlyKeeps(a, Greeting(fd), Acked(a.shared, incoming.id), a.queue);
    } else {
      LineKeeps(a, incoming);
    }
  }

  lemma LineKeeps(a: App, incoming: Incoming)
    requires Inv(a) && Newest(a).pc.Reading? && Newest(a).pc.fd != INVALID
    requires incoming.Line? || incoming.ErrorLine?
    ensures Inv(ReceiverNext(a, |a.receivers| - 1, incoming))
  {
  }

  lemma ReceiverKeeps(a: App, t: nat, incoming: Incoming)
    requires Inv(a) && t < |a.receivers|
    ensures Inv(ReceiverNext(a, t, incoming))
  {
    var was := a.receivers[t].pc;
    if !was.Done? {
      assert t == |a.receivers| - 1;
      match was
      case Starting => EarlyKeeps(a, Reading(a.shared.socket), a.shared, a.queue);
      case Reading(fd) => ReadingKeeps(a, incoming);
      case Greeting(fd) => EarlyKeeps(a, Reading(fd), a.shared, a.queue + [Connected]);
      case Leaving => FinalTakeKeeps(a);
      case Holding(fd) => ReceiverClosesKeeps(a);
      case Reporting => ReportKeeps(a);
    }
  }

  lemma TakingKeeps(a: App)
    requires Inv(a) && a.main.Taking?
    ensures Inv(MainNext(a, true))
  {
  }

  lemma ClosingKeeps(a: App)
    requires Inv(a) && a.main.Closing?
    ensures Inv(MainNext(a, true))
  {
  }

  /** Nothing is left to wait for. */
  lemma FinishKeeps(a: App)
    requires Inv(a) && ((a.main.Claiming? && !a.shared.active) || (a.main.Waiting? && !Live(a)))
    ensures Inv(Finish(a, a.main.next))
  {
  }

  lemma ClaimedKeeps(a: App)
    requires Inv(a) && a.main.Claiming? && a.shared.active
    ensures Inv(a.(main := Waiting(a.shared.handle, a.main.next), shared := Claimed(a.shared)))
  {
  }

  lemma ClaimingKeeps(a: App)
    requires Inv(a) && a.main.Claiming?
    ensures Inv(MainNext(a, true))
  {
    if a.shared.active {
      ClaimedKeeps(a);
    } else {
      FinishKeeps(a);
    }
  }

  lemma WaitingKeeps(a: App)
    requires Inv(a) && a.main.Waiting?
    ensures Inv(MainNext(a, true))
  {
    if !Live(a) {
      FinishKeeps(a);
    }
  }

  lemma SpawningKeeps(a: App)
    requires Inv(a) && a.main.Spawning?
    ensures Inv(MainNext(a, true))
  {
  }

  lemma SendingKeeps(a: App, ok: bool)
    requires Inv(a) && (a.main.SendingJoin? || a.main.SendingText?)
    ensures Inv(MainNext(a, ok))
  {
  }

  lemma MainKeeps(a: App, ok: bool)
    requires Inv(a)
    ensures Inv(MainNext(a, ok))
  {
    match a.main
    case Idle =>
    case SendingJoin => SendingKeeps(a, ok);
    case SendingText(_) => SendingKeeps(a, ok);
    case Spawning => SpawningKeeps(a);
    case Taking(_) => TakingKeeps(a);
    case Closing(_, _) => ClosingKeeps(a);
    case Claiming(_) => ClaimingKeeps(a);
    case Waiting(_, _) => WaitingKeeps(a);
  }

  lemma ConnectKeeps(a: App)
    requires Inv(a)
    ensures Inv(Step(a, ClickConnect))
  {
  }

  lemma QuietKeeps(a: App, queue: seq<UiEvent>, login: bool, send: bool)
    requires Inv(a)
    requires login ==> a.login
    requires forall e | e in queue :: e in a.queue
    ensures Inv(a.(queue := queue, login := login, send := send))
  {
    assert forall k :: Owners(a.(queue := queue, login := login, send := send), k) == Owners(a, k);
  }

  lemma ReportedKeeps(a: App)
    requires Inv(a) && a.main.Idle?
    ensures Inv(a.(main := Claiming(Dispatched)))
  {
  }

  lemma DispatchKeeps(a: App)
    requires Inv(a)
    ensures Inv(Step(a, Dispatch))
  {
    if a.main.Idle? && a.queue != [] {
      QuietKeeps(a, a.queue[1..], a.login, a.send);
      QuietKeeps(a, a.queue[1..], false, true);
      ReportedKeeps(a.(queue := a.queue[1..]));
    }
  }

  lemma StepKeeps(a: App, act: Act)
    requires Inv(a)
    ensures Inv(Step(a, act))
  {
    match act
    case ClickConnect => ConnectKeeps(a);
    case ClickSend =>
    case CloseWindow =>
    case Dispatch => DispatchKeeps(a);
    case MainStep(ok) => MainKeeps(a, ok);
    case ReceiverStep(t, incoming) => if t < |a.receivers| { ReceiverKeeps(a, t, incoming); }
  }

  lemma {:induction false} Always(acts: seq<Act>)
    ensures Inv(Run(Begin(), acts))
    decreases |acts|
  {
    if acts != [] {
      Always(acts[..|acts| - 1]);
      StepKeeps(Run(Begin(), acts[..|acts| - 1]), acts[|acts| - 1]);
    }
  }

  // ----- What it gives over every interleaving ------------------------------

  ghost predicate Reachable(a: App) {
    exists acts: seq<Act> :: Run(Begin(), acts) == a
  }

  lemma Reached(a: App)
    requires Reachable(a)
    ensures Inv(a)
  {
    var acts: seq<Act> :| Run(Begin(), acts) == a;
    Always(acts);
  }

  /** Every socket that connect has stored is closed at most once, never while it
      is still shared, and is certain to have been closed once the main thread is
      idle and no receiver is left, or the login form is enabled. */
  lemma ClosedOnce(a: App, k: nat)
    requires Reachable(a) && k < |a.closes|
    ensures a.closes[k] <= 1
    ensures a.closes[k] == 1 ==> a.shared.socket != k
    ensures (a.main.Idle? && !Live(a)) || a.login ==> a.closes[k] == 1
  {
    Reached(a);
    assert a.closes[k] + Owners(a, k) == 1;
  }

  /** At most one receiver is ever running, and it can only take, read or close
      the socket of the connection it was started for. */
  lemma OneReceiver(a: App, t: nat, u: nat)
    requires Reachable(a) && t < |a.receivers| && u < |a.receivers| && !a.receivers[t].pc.Done?
    ensures !a.receivers[u].pc.Done? ==> t == u
    ensures a.shared.socket in {INVALID, a.receivers[t].connection}
    ensures a.receivers[t].pc.Reading? || a.receivers[t].pc.Holding? ==> a.receivers[t].pc.fd in {INVALID, a.receivers[t].connection}
  {
    Reached(a);
  }

  /** Between main-thread events a valid socket has an unjoined receiver that has
      not yet done its final take, and while the login form is enabled nothing is
      left of any earlier connection. */
  lemma Disciplined(a: App)
    requires Reachable(a)
    ensures a.main.Idle? && a.shared.socket != INVALID ==>
              a.shared.active && a.shared.handle == |a.receivers| - 1 && BeforeTake(a)
    ensures a.login ==> a.shared == Begin().shared && forall t | 0 <= t < |a.receivers| :: a.receivers[t].pc.Done?
  {
    Reached(a);
    if a.login {
      forall t | 0 <= t < |a.receivers| ensures a.receivers[t].pc.Done? {
        assert t < |a.receivers| - 1 || a.receivers[t] == Newest(a);
      }
    }
  }

  /** An ACK may be noted after the main thread has taken the socket, but only by
      a receiver whose own take is still to come; whoever joins that receiver finds
      everything reset. */
  lemma LateAck(a: App)
    requires Reachable(a)
    ensures a.shared.joined || a.shared.userId != 0 ==> a.shared.socket != INVALID || BeforeTake(a)
    ensures a.main.Waiting? && !Live(a) ==> a.shared == Begin().shared
  {
    Reached(a);
  }

  // ----- The login form always comes back ----------------------------------

  predicate Awaited(queue: seq<UiEvent>) {
    exists i :: 0 <= i < |queue| && queue[i].Disconnected?
  }

  /** Every CONNECTED is followed by a DISCONNECTED. */
  predicate Settled(queue: seq<UiEvent>) {
    forall i | 0 <= i < |queue| && queue[i].Connected? :: exists j :: i < j < |queue| && queue[j].Disconnected?
  }

  /** What the main thread is doing ends by enabling the login form. */
  predicate Restoring(m: Main) {
    m.SendingJoin? || m.Spawning? || ((m.Taking? || m.Closing? || m.Claiming? || m.Waiting?) && !m.next.Nothing?)
  }

  predicate Recovers(a: App) {
    Live(a) || (Settled(a.queue) && (a.login || Restoring(a.main) || Awaited(a.queue)))
  }

  lemma RecoversMain(a: App, ok: bool)
    requires Inv(a) && Recovers(a)
    ensures Recovers(MainNext(a, ok))
  {
    var b := MainNext(a, ok);
    assert b.queue == a.queue;
    if a.main.Spawning? {
      assert Live(b);
    } else {
      assert b.receivers == a.receivers;
    }
  }

  /** The last event of a receiver settles the queue. */
  lemma ReportSettles(queue: seq<UiEvent>, t: nat)
    ensures Settled(queue + [Disconnected(t)]) && Awaited(queue + [Disconnected(t)])
  {
    var q := queue + [Disconnected(t)];
    assert q[|q| - 1].Disconnected?;
  }

  lemma RecoversReceiver(a: App, t: nat, incoming: Incoming)
    requires Inv(a) && Recovers(a) && t < |a.receivers|
    ensures Recovers(ReceiverNext(a, t, incoming))
  {
    if !a.receivers[t].pc.Done? {
      assert t == |a.receivers| - 1;
      if a.receivers[t].pc.Reporting? {
        ReportSettles(a.queue, t);
      } else {
        assert Live(ReceiverNext(a, t, incoming));
      }
    }
  }

  lemma RecoversDispatch(a: App)
    requires Inv(a) && Recovers(a)
    ensures Recovers(Step(a, Dispatch))
  {
    if !Live(a) && a.main.Idle? && a.queue != [] {
      var q := a.queue[1..];
      forall i | 0 <= i < |q| && q[i].Connected? ensures exists j :: i < j < |q| && q[j].Disconnected? {
        assert a.queue[i + 1].Connected?;
        var j :| i + 1 < j < |a.queue| && a.queue[j].Disconnected?;
        assert q[j - 1].Disconnected?;
      }
      if a.queue[0].Connected? {
        var j :| 0 < j < |a.queue| && a.queue[j].Disconnected?;
        assert q[j - 1].Disconnected?;
      } else if a.queue[0].Other? && Awaited(a.queue) {
        var j :| 0 <= j < |a.queue| && a.queue[j].Disconnected?;
        assert q[j - 1].Disconnected?;
      }
    }
  }

  lemma {:induction false} RecoversAlways(acts: seq<Act>)
    ensures Recovers(Run(Begin(), acts))
    decreases |acts|
  {
    if acts != [] {
      var before, act := acts[..|acts| - 1], acts[|acts| - 1];
      RecoversAlways(before);
      Always(before);
      var a := Run(Begin(), before);
      match act
      case ClickConnect =>
      case ClickSend =>
      case CloseWindow =>
      case Dispatch => RecoversDispatch(a);
      case MainStep(ok) => RecoversMain(a, ok);
      case ReceiverStep(t, incoming) => if t < |a.receivers| { RecoversReceiver(a, t, incoming); }
    }
  }

  /** With the main thread idle and no receiver running, a disabled login form has
      a DISCONNECTED still queued that will enable it again. */
  lemma NeverStranded(a: App)
    requires Reachable(a) && a.main.Idle? && !Live(a)
    ensures a.login || exists i :: 0 <= i < |a.queue| && a.queue[i].Disconnected?
  {
    var acts: seq<Act> :| Run(Begin(), acts) == a;
    RecoversAlways(acts);
  }

  // ----- What clicks, events and packets do -----------------------------------

  /** A click on connect counts exactly while the main thread is free and the form is
      enabled; on send exactly while it is free and the client has a socket and has
      been acknowledged. */
  lemma ClicksExactly(a: App)
    ensures var b := Step(a, ClickConnect);
      if a.main.Idle? && a.login then
        && b.main.SendingJoin? && b.shared.socket == |a.closes| && !b.shared.joined && b.shared.userId == 0
        && !b.login && !b.send && b.closes == a.closes + [0]
      else b == a
    ensures Step(a, ClickSend) ==
      if a.main.Idle? && a.shared.socket != -1 && a.shared.joined then a.(main := SendingText(a.shared.socket)) else a
    ensures Step(a, CloseWindow) == if a.main.Idle? then a.(main := Taking(Nothing)) else a
  {
  }

  /** CONNECTED opens the chat, DISCONNECTED starts the join of a receiver. */
  lemma EventsExactly(a: App)
    requires a.main.Idle? && a.queue != []
    ensures var b := Step(a, Dispatch);
      && b.queue == a.queue[1..] && b.shared == a.shared
      && (a.queue[0].Connected? ==> b.main.Idle? && b.send && !b.login)
      && (a.queue[0].Disconnected? ==> b.main == Claiming(Dispatched) && b.send == a.send && b.login == a.login)
      && (a.queue[0].Other? ==> b.main.Idle? && b.send == a.send && b.login == a.login)
  {
  }

  /** An ACK makes the client joined under the id it carries and then reports
      CONNECTED; the end of the stream makes the receiver leave its loop. */
  lemma PacketsExactly(a: App, t: nat, incoming: Incoming, next: Incoming)
    requires t < |a.receivers| && a.receivers[t].pc.Reading? && a.receivers[t].pc.fd != -1
    ensures var b := Step(a, ReceiverStep(t, incoming));
      var c := Step(b, ReceiverStep(t, next));
      && |b.receivers| == |a.receivers|
      && (incoming.Ack? ==>
            && b.shared.joined && b.shared.userId == incoming.id && b.shared.socket == a.shared.socket
            && c.queue == a.queue + [Connected] && c.receivers == a.receivers)
      && (incoming.Line? ==> b == a.(queue := a.queue + [Other]))
      && (incoming.ErrorLine? ==> b == a.(queue := a.queue + [Other, Other]))
      && (incoming.Ended? ==> b.receivers[t].pc.Leaving? && b.shared == a.shared && b.queue == a.queue)
  {
    if incoming.Ack? {
      var b := Step(a, ReceiverStep(t, incoming));
      assert b.receivers[t].pc == Greeting(a.receivers[t].pc.fd);
    }
  }

  /** When the main thread is done with a disconnect, a failed connect or send and a
      DISCONNECTED have enabled the form, the latter two have disabled the send
      button, and closing the window has done neither. */
  lemma RestoredExactly(a: App, ok: bool)
    requires a.main.Claiming? || a.main.Waiting?
    ensures var b := Step(a, MainStep(ok));
      b.main.Idle? ==>
        && b.login == (a.login || !a.main.next.Nothing?)
        && b.send == (a.send && (a.main.next.Nothing? || a.main.next.FailedConnect?))
        && b.shared == a.shared && b.queue == a.queue
  {
  }

  /** Nobody can have connected when the form is given back after a failed connect. */
  predicate Exclusive(a: App) {
    && (a.login ==> !a.send)
    && (a.main.SendingJoin? ==> !a.send)
    && ((a.main.Taking? || a.main.Closing? || a.main.Claiming? || a.main.Waiting?) && a.main.next.FailedConnect? ==> !a.send)
  }

  lemma ExclusiveStep(a: App, act: Act)
    requires Exclusive(a)
    ensures Exclusive(Step(a, act))
  {
  }

  lemma {:induction false} ExclusiveAlways(acts: seq<Act>)
    ensures Exclusive(Run(Begin(), acts))
    decreases |acts|
  {
    if acts != [] {
      ExclusiveAlways(acts[..|acts| - 1]);
      ExclusiveStep(Run(Begin(), acts[..|acts| - 1]), acts[|acts| - 1]);
    }
  }

  /** The login form and the send button are never enabled together. */
  lemma OnePage(a: App)
    requires Reachable(a)
    ensures !(a.login && a.send)
  {
    var acts: seq<Act> :| Run(Begin(), acts) == a;
    ExclusiveAlways(acts);
  }

  // ----- Sockets in use that have been closed --------------------------------

  /** What is known of the current connection's socket while a text is sent on it,
      and while its receiver has not taken it. */
  predicate Used(a: App) {
    var r := Newest(a);
    && (a.main.SendingText? ==>
          && a.main.fd == |a.closes| - 1 >= 0 && r.connection == a.main.fd && a.shared.active && !a.login
          && (Early(r.pc) ==> a.shared.socket == a.main.fd)
          && (r.pc.Holding? ==> r.pc.fd == a.main.fd))
    && (Early(r.pc) && a.shared.socket == INVALID ==>
          Disconnecting(a.main) && (a.main.Closing? ==> a.main.fd == |a.closes| - 1))
    && (a.main.Taking? || a.main.Closing? ==> !a.main.next.Dispatched?)
  }

  lemma UsedMain(a: App, ok: bool)
    requires Inv(a) && Used(a)
    ensures Used(MainNext(a, ok))
  {
  }

  /** Until the newest receiver takes the socket nothing about it changes. */
  lemma UsedEarly(a: App, pc: Pc, shared: Shared, queue: seq<UiEvent>)
    requires Used(a) && Early(Newest(a).pc) && Early(pc)
    requires shared == a.shared.(joined := shared.joined, userId := shared.userId)
    ensures Used(Moved(a, pc).(shared := shared, queue := queue))
  {
  }

  lemma UsedLate(a: App, incoming: Incoming)
    requires Inv(a) && Used(a) && !Early(Newest(a).pc) && Live(a)
    ensures Used(ReceiverNext(a, |a.receivers| - 1, incoming))
  {
  }

  lemma UsedTaken(a: App)
    requires Inv(a) && Used(a) && Newest(a).pc.Leaving?
    ensures Used(Moved(a, Holding(a.shared.socket)).(shared := Taken(a.shared)))
  {
  }

  lemma UsedReading(a: App, incoming: Incoming)
    requires Inv(a) && Used(a) && Newest(a).pc.Reading?
    ensures Used(ReceiverNext(a, |a.receivers| - 1, incoming))
  {
    var fd := Newest(a).pc.fd;
    if fd == INVALID || incoming.Ended? {
      UsedEarly(a, Leaving, a.shared, a.queue);
    } else if incoming.Ack? {
      UsedEarly(a, Greeting(fd), Acked(a.shared, incoming.id), a.queue);
    }
  }

  lemma UsedStarting(a: App, incoming: Incoming)
    requires Inv(a) && Used(a) && (Newest(a).pc.Starting? || Newest(a).pc.Greeting?)
    ensures Used(ReceiverNext(a, |a.receivers| - 1, incoming))
  {
    if Newest(a).pc.Starting? {
      UsedEarly(a, Reading(a.shared.socket), a.shared, a.queue);
    } else {
      UsedEarly(a, Reading(Newest(a).pc.fd), a.shared, a.queue + [Connected]);
    }
  }

  lemma UsedNewest(a: App, incoming: Incoming)
    requires Inv(a) && Used(a) && Live(a)
    ensures Used(ReceiverNext(a, |a.receivers| - 1, incoming))
  {
    match Newest(a).pc
    case Starting => UsedStarting(a, incoming);
    case Reading(_) => UsedReading(a, incoming);
    case Greeting(_) => UsedStarting(a, incoming);
    case Leaving => UsedTaken(a);
    case Holding(_) => UsedLate(a, incoming);
    case Reporting => UsedLate(a, incoming);
  }

  lemma UsedReceiver(a: App, t: nat, incoming: Incoming)
    requires Inv(a) && Used(a) && t < |a.receivers|
    ensures Used(ReceiverNext(a, t, incoming))
  {
    if t == |a.receivers| - 1 && Live(a) {
      UsedNewest(a, incoming);
    }
  }

  lemma UsedStep(a: App, act: Act)
    requires Inv(a) && Used(a)
    ensures Used(Step(a, act))
  {
    match act
    case ClickConnect =>
    case ClickSend =>
    case CloseWindow =>
    case Dispatch =>
    case MainStep(ok) => UsedMain(a, ok);
    case ReceiverStep(t, incoming) => if t < |a.receivers| { UsedReceiver(a, t, incoming); }
  }

  lemma {:induction false} UsedAlways(acts: seq<Act>)
    ensures Used(Run(Begin(), acts))
    decreases |acts|
  {
    if acts != [] {
      UsedAlways(acts[..|acts| - 1]);
      Always(acts[..|acts| - 1]);
      UsedStep(Run(Begin(), acts[..|acts| - 1]), acts[|acts| - 1]);
    }
  }

  lemma UsedReached(a: App)
    requires Reachable(a)
    ensures Inv(a) && Used(a)
  {
    var acts: seq<Act> :| Run(Begin(), acts) == a;
    Always(acts);
    UsedAlways(acts);
  }

  /** A text is sent on the current connection's socket, and on a closed one exactly
      if the receiver has taken and closed it since the click. The JOIN packet is
      never sent on a closed socket. */
  lemma SendsOnClosedExactly(a: App)
    requires Reachable(a)
    ensures a.main.SendingText? ==>
      && 0 <= a.main.fd == |a.closes| - 1 && Newest(a).connection == a.main.fd
      && (a.closes[a.main.fd] == 1 <==> Newest(a).pc.Reporting? || Newest(a).pc.Done?)
    ensures a.main.SendingJoin? ==> 0 <= a.shared.socket < |a.closes| && a.closes[a.shared.socket] == 0
  {
    UsedReached(a);
    if a.main.SendingText? {
      assert a.closes[a.main.fd] + Owners(a, a.main.fd) == 1;
    }
    if a.main.SendingJoin? {
      assert a.closes[a.shared.socket] + Owners(a, a.shared.socket) == 1;
    }
  }

  /** A receiver reads from a closed socket exactly while the main thread, in
      ns_client_disconnect, has closed it and is about to join the receiver. */
  lemma ReceivesOnClosedExactly(a: App, t: nat)
    requires Reachable(a) && t < |a.receivers| && a.receivers[t].pc.Reading? && a.receivers[t].pc.fd != INVALID
    ensures var fd := a.receivers[t].pc.fd;
      && fd == |a.closes| - 1 >= 0
      && (a.closes[fd] == 1 <==> (a.main.Claiming? || a.main.Waiting?) && !a.main.next.Dispatched?)
  {
    UsedReached(a);
    assert t == |a.receivers| - 1;
    var fd := a.receivers[t].pc.fd;
    assert fd >= 0 ==> a.closes[fd] + Owners(a, fd) == 1;
  }

  // ----- A DISCONNECTED that is dispatched late ------------------------------

  /** The state in which the main thread has claimed a receiver, if there is one,
      for the oldest queued DISCONNECTED. */
  function Joining(a: App): App {
    MainNext(Step(a, Dispatch), true)
  }

  lemma JoiningIs(a: App)
    requires a.main.Idle? && a.queue != [] && a.queue[0].Disconnected?
    ensures var b := Joining(a);
      && b.receivers == a.receivers
      && (a.shared.active ==> b.main == Waiting(a.shared.handle, Dispatched))
      && (!a.shared.active ==> b.main.Idle? && b.login)
  {
  }

  /** Dispatching a DISCONNECTED leaves the main thread waiting for a running
      thread exactly if a newer connection has its receiver running by then; the
      thread waited for is then never the one that reported. */
  lemma StaleExactly(a: App)
    requires Reachable(a) && a.main.Idle? && a.queue != [] && a.queue[0].Disconnected?
    ensures var b := Joining(a);
      && ((b.main.Waiting? && Live(b)) <==> (a.shared.active && Live(a)))
      && (b.main.Waiting? && Live(b) ==> a.queue[0].from < b.main.thread)
  {
    JoiningIs(a);
    Reported(a);
  }

  /** The receiver that reported is over, so it is not the one that is running. */
  lemma Reported(a: App)
    requires Reachable(a) && a.queue != [] && a.queue[0].Disconnected?
    ensures a.queue[0].from < |a.receivers| && (Live(a) ==> a.queue[0].from < |a.receivers| - 1)
    ensures a.shared.active ==> a.shared.handle == |a.receivers| - 1
  {
    Reached(a);
    assert a.queue[0] in a.queue;
  }

  /** The receiver's peer is still there. */
  predicate Healthy(a: App, t: nat) {
    && t < |a.receivers|
    && (a.receivers[t].pc.Reading? || a.receivers[t].pc.Greeting?)
    && a.receivers[t].pc.fd != INVALID
  }

  predicate Blocked(a: App, b: App, t: nat) {
    b.main == a.main && Healthy(b, t) && b.closes == a.closes && b.login == a.login && b.send == a.send
  }

  lemma StaysBlocked(a: App, t: nat, act: Act)
    requires Inv(a) && a.main.Waiting? && a.main.thread == t && Healthy(a, t)
    requires act != ReceiverStep(t, Ended)
    ensures Blocked(a, Step(a, act), t)
  {
  }

  /** As long as that peer keeps the connection up, the main thread stays blocked:
      no click and no event is handled. */
  lemma {:induction false} BlockedWhileHealthy(a: App, t: nat, acts: seq<Act>)
    requires Reachable(a) && a.main.Waiting? && a.main.thread == t && Healthy(a, t)
    requires ReceiverStep(t, Ended) !in acts
    ensures Inv(Run(a, acts)) && Blocked(a, Run(a, acts), t)
    decreases |acts|
  {
    Reached(a);
    if acts != [] {
      BlockedWhileHealthy(a, t, acts[..|acts| - 1]);
      assert acts[|acts| - 1] in acts;
      StaysBlocked(Run(a, acts[..|acts| - 1]), t, acts[|acts| - 1]);
      StepKeeps(Run(a, acts[..|acts| - 1]), acts[|acts| - 1]);
    }
  }

  lemma Go(a: App, act: Act) returns (b: App)
    requires Reachable(a)
    ensures Reachable(b) && b == Step(a, act)
  {
    var acts: seq<Act> :| Run(Begin(), acts) == a;
    b := Step(a, act);
    assert (acts + [act])[..|acts|] == acts;
    assert Run(Begin(), acts + [act]) == b;
  }

  function Joined(main: Main, queue: seq<UiEvent>, pc: Pc, send: bool): App {
    App(Shared(0, true, true, 7, true, 0), false, send, queue, main, [Receiver(pc, 0)], [0])
  }

  function Started(pc: Pc): App {
    App(Shared(0, true, false, 0, true, 0), false, false, [], Idle, [Receiver(pc, 0)], [0])
  }

  function GivingUp(main: Main, pc: Pc, queue: seq<UiEvent>): App {
    App(Begin().shared, false, true, queue, main, [Receiver(pc, 0)], [1])
  }

  function LeftOver(): App {
    App(Begin().shared, true, false, [Disconnected(0)], Idle, [Receiver(Done, 0)], [1])
  }

  lemma BeginHappens()
    ensures Reachable(Begin())
  {
    assert Run(Begin(), []) == Begin();
  }

  function Connecting(main: Main): App {
    App(Shared(0, true, false, 0, false, INVALID), false, false, [], main, [], [0])
  }

  lemma ConnectingHappens()
    ensures Reachable(Connecting(Spawning))
  {
    BeginHappens();
    var a := Go(Begin(), ClickConnect);
    assert a == Connecting(SendingJoin);
    a := Go(a, MainStep(true));
    assert a == Connecting(Spawning);
  }

  lemma StartedHappens()
    ensures Reachable(Started(Reading(0)))
  {
    ConnectingHappens();
    var a := Go(Connecting(Spawning), MainStep(true));
    assert a == Started(Starting);
    a := Go(a, ReceiverStep(0, Line));
    assert a == Started(Reading(0));
  }

  lemma JoinedHappens()
    ensures Reachable(Joined(Idle, [], Reading(0), true))
  {
    StartedHappens();
    var a := Go(Started(Reading(0)), ReceiverStep(0, Ack(7)));
    assert a == Joined(Idle, [], Greeting(0), false);
    a := Go(a, ReceiverStep(0, Line));
    assert a == Joined(Idle, [Connected], Reading(0), false);
    a := Go(a, Dispatch);
    assert a == Joined(Idle, [], Reading(0), true);
  }

  lemma TakingHappens()
    ensures Reachable(Joined(Taking(FailedSend), [], Reading(0), true))
  {
    JoinedHappens();
    var a := Go(Joined(Idle, [], Reading(0), true), ClickSend);
    assert a == Joined(SendingText(0), [], Reading(0), true);
    a := Go(a, MainStep(false));
  }

  lemma GivingUpHappens()
    ensures Reachable(GivingUp(Waiting(0, FailedSend), Reading(0), []))
  {
    TakingHappens();
    var a := Go(Joined(Taking(FailedSend), [], Reading(0), true), MainStep(true));
    a := Go(a, MainStep(true));
    assert a.closes == [1];
    a := Go(a, MainStep(true));
    assert a == GivingUp(Waiting(0, FailedSend), Reading(0), []);
  }

  lemma LeftOverHappens()
    ensures Reachable(LeftOver())
  {
    GivingUpHappens();
    var main := Waiting(0, FailedSend);
    var a := Go(GivingUp(main, Reading(0), []), ReceiverStep(0, Ended));
    assert a == GivingUp(main, Leaving, []);
    a := Go(a, ReceiverStep(0, Ended));
    assert a == GivingUp(main, Holding(INVALID), []);
    a := Go(a, ReceiverStep(0, Ended));
    assert a == GivingUp(main, Reporting, []);
    a := Go(a, ReceiverStep(0, Ended));
    assert a == GivingUp(main, Done, [Disconnected(0)]);
    a := Go(a, MainStep(true));
  }

  /** Both do happen. */
  lemma ClosedInUse()
    ensures exists a :: Reachable(a) && a.main == SendingText(0) && a.closes == [1]
    ensures exists a :: Reachable(a) && a.receivers == [Receiver(Reading(0), 0)] && a.closes == [1]
  {
    GivingUpHappens();
    SendOnClosedHappens();
  }

  function Overtaken(pc: Pc, closes: seq<nat>): App {
    App(Shared(INVALID, false, false, 0, true, 0), false, true, [], SendingText(0), [Receiver(pc, 0)], closes)
  }

  lemma SendOnClosedHappens()
    ensures Reachable(Overtaken(Reporting, [1]))
  {
    JoinedHappens();
    var a := Go(Joined(Idle, [], Reading(0), true), ClickSend);
    assert a == Joined(SendingText(0), [], Reading(0), true);
    a := Go(a, ReceiverStep(0, Ended));
    assert a == Joined(SendingText(0), [], Leaving, true);
    a := Go(a, ReceiverStep(0, Ended));
    assert a == Overtaken(Holding(0), [0]);
    a := Go(a, ReceiverStep(0, Ended));
    assert a == Overtaken(Reporting, [1]);
  }

  /** A failed send ends connection 0 and enables the login form before the event
      of its receiver is dispatched; connecting again first makes the event join
      the receiver of connection 1, whose peer is still there. */
  lemma StaleHappens()
    ensures exists a :: Reachable(a) && a.main == Waiting(1, Dispatched) && Healthy(a, 1) && a.closes == [1, 0]
  {
    LeftOverHappens();
    var a := Go(LeftOver(), ClickConnect);
    a := Go(a, MainStep(true));
    a := Go(a, MainStep(true));
    a := Go(a, ReceiverStep(1, Line));
    a := Go(a, Dispatch);
    a := Go(a, MainStep(true));
    assert a.closes == [1, 0];
  }

  // ----- The program itself -------------------------------------------------

  /** NsClientApp and what its two threads are at. Each method is one step of one
      thread, done in place; the lock makes the sections under it such steps. */
  class ClientApp {
    var socketFd: int
    var transportConnected: bool
    var joined: bool
    var userId: U32
    var receiverThreadActive: bool
    var receiverThread: int
    var loginSensitive: bool
    var sendSensitive: bool
    var idleQueue: seq<UiEvent>
    var main: Main
    var receivers: seq<Receiver>
    var closes: seq<nat>

    constructor ()
      ensures View() == Begin()
    {
      socketFd, transportConnected, joined, userId := INVALID, false, false, 0;
      receiverThreadActive, receiverThread := false, INVALID;
      loginSensitive, sendSensitive, idleQueue := true, false, [];
      main, receivers, closes := Idle, [], [];
    }

    function Guarded(): Shared
      reads this
    {
      Shared(socketFd, transportConnected, joined, userId, receiverThreadActive, receiverThread)
    }

    function View(): App
      reads this
    {
      App(Guarded(), loginSensitive, sendSensitive, idleQueue, main, receivers, closes)
    }

    /** ns_client_take_socket: the caller is the only one to get the socket. */
    method TakeSocket() returns (socket: int)
      modifies `socketFd, `transportConnected, `joined, `userId
      ensures socket == old(socketFd) && Guarded() == Taken(old(Guarded()))
    {
      socket := socketFd;
      socketFd := INVALID;
      transportConnected, joined, userId := false, false, 0;
    }

    /** ns_client_store_connection */
    method StoreConnection(socket: int)
      modifies `socketFd, `transportConnected, `joined, `userId
      ensures Guarded() == Stored(old(Guarded()), socket)
    {
      socketFd := socket;
      transportConnected := true;
      joined := false;
      userId := 0;
    }

    /** The guarded part of ns_client_join_receiver_thread. */
    method ClaimReceiver() returns (active: bool, thread: int)
      modifies `receiverThreadActive, `receiverThread
      ensures active == old(receiverThreadActive) && (active ==> thread == old(receiverThread))
      ensures Guarded() == Claimed(old(Guarded()))
    {
      active, thread := receiverThreadActive, INVALID;
      if active {
        thread := receiverThread;
        receiverThread := INVALID;
        receiverThreadActive := false;
      }
    }

    /** ns_client_close_socket; closes counts the calls for each connection. */
    method CloseSocket(fd: int)
      modifies `closes
      ensures View() == Close(old(View()), fd)
    {
      if 0 <= fd < |closes| {
        closes := closes[fd := closes[fd] + 1];
      }
    }

    /** What follows ns_client_disconnect or the join for a DISCONNECTED event. */
    method Conclude(next: Then)
      modifies `main, `loginSensitive, `sendSensitive
      ensures View() == Finish(old(View()), next)
    {
      main := Idle;
      if next != Nothing {
        loginSensitive := true;
      }
      if next == FailedSend || next == Dispatched {
        sendSensitive := false;
      }
    }

    /** ns_client_on_connect_clicked up to the sending of the JOIN packet. */
    method OnConnectClicked()
      modifies this
      ensures View() == Step(old(View()), ClickConnect)
    {
      if main.Idle? && loginSensitive {
        StoreConnection(|closes|);
        closes := closes + [0];
        loginSensitive, sendSensitive := false, false;
        main := SendingJoin;
      }
    }

    /** ns_client_on_send_clicked up to the sending of the text. */
    method OnSendClicked()
      modifies this
      ensures View() == Step(old(View()), ClickSend)
    {
      if main.Idle? && socketFd != INVALID && joined {
        main := SendingText(socketFd);
      }
    }

    /** ns_client_on_close_request and ns_client_on_shutdown enter
        ns_client_disconnect. */
    method OnCloseRequest()
      modifies this
      ensures View() == Step(old(View()), CloseWindow)
    {
      if main.Idle? {
        main := Taking(Nothing);
      }
    }

    /** ns_client_dispatch_ui_event for the oldest event. */
    method DispatchUiEvent()
      modifies this
      ensures View() == Step(old(View()), Dispatch)
    {
      if main.Idle? && idleQueue != [] {
        var event := idleQueue[0];
        idleQueue := idleQueue[1..];
        match event {
          case Connected => loginSensitive, sendSensitive := false, true;
          case Disconnected(_) => main := Claiming(Dispatched);
          case Other =>
        }
      }
    }

    /** The main thread goes on with what it has begun. */
    method MainGoesOn(ok: bool)
      modifies this
      ensures View() == Step(old(View()), MainStep(ok))
    {
      match main {
        case Idle =>
        case SendingJoin => main := if ok then Spawning else Taking(FailedConnect);
        case Spawning =>
          receiverThreadActive := true;
          receiverThread := |receivers|;
          receivers := receivers + [Receiver(Starting, |closes| - 1)];
          main := Idle;
        case SendingText(_) => main := if ok then Idle else Taking(FailedSend);
        case Taking(next) =>
          var fd := TakeSocket();
          main := Closing(fd, next);
        case Closing(fd, next) =>
          CloseSocket(fd);
          main := Claiming(next);
        case Claiming(next) =>
          var active, thread := ClaimReceiver();
          if active {
            main := Waiting(thread, next);
          } else {
            Conclude(next);
          }
        case Waiting(thread, next) =>
          if !(0 <= thread < |receivers|) || receivers[thread].pc.Done? {
            Conclude(next);
          }
      }
    }

    method MoveTo(t: nat, pc: Pc)
      requires t < |receivers|
      modifies `receivers
      ensures View() == At(old(View()), t, pc)
    {
      receivers := receivers[t := receivers[t].(pc := pc)];
    }

    /** ns_client_handle_packet, up to the queueing of CONNECTED. */
    method HandlePacket(t: nat, fd: int, incoming: Incoming)
      requires t < |receivers| && receivers[t].pc == Reading(fd) && fd != INVALID
      modifies this
      ensures View() == ReceiverNext(old(View()), t, incoming)
    {
      match incoming {
        case Ack(id) =>
          joined := true;
          userId := id;
          MoveTo(t, Greeting(fd));
        case Line => idleQueue := idleQueue + [Other];
        case ErrorLine => idleQueue := idleQueue + [Other, Other];
        case Ended => MoveTo(t, Leaving);
      }
    }

    /** ns_client_receive_loop */
    method ReceiverGoesOn(t: nat, incoming: Incoming)
      modifies this
      ensures View() == Step(old(View()), ReceiverStep(t, incoming))
    {
      if t >= |receivers| {
        return;
      }
      match receivers[t].pc {
        case Starting => MoveTo(t, Reading(socketFd));
        case Reading(fd) =>
          if fd == INVALID {
            MoveTo(t, Leaving);
          } else {
            HandlePacket(t, fd, incoming);
          }
        case Greeting(fd) =>
          MoveTo(t, Reading(fd));
          idleQueue := idleQueue + [Connected];
        case Leaving =>
          var fd := TakeSocket();
          MoveTo(t, Holding(fd));
        case Holding(fd) =>
          MoveTo(t, Reporting);
          CloseSocket(fd);
        case Reporting =>
          MoveTo(t, Done);
          idleQueue := idleQueue + [Disconnected(t)];
        case Done =>
      }
    }

    method Do(act: Act)
      modifies this
      ensures View() == Step(old(View()), act)
    {
      match act {
        case ClickConnect => OnConnectClicked();
        case ClickSend => OnSendClicked();
        case CloseWindow => OnCloseRequest();
        case Dispatch => DispatchUiEvent();
        case MainStep(ok) => MainGoesOn(ok);
        case ReceiverStep(t, incoming) => ReceiverGoesOn(t, incoming);
      }
    }
  }

  /** Any schedule of the two threads, from ns_client_run's initial state on. */
  method Session(acts: seq<Act>) returns (app: ClientApp)
    ensures fresh(app) && app.View() == Run(Begin(), acts)
    ensures forall k | 0 <= k < |app.closes| :: app.closes[k] <= 1 && (app.closes[k] == 1 ==> app.socketFd != k)
    ensures app.main.Idle? && app.socketFd != INVALID ==> app.receiverThreadActive
    ensures app.loginSensitive ==>
      app.socketFd == INVALID && !app.joined && app.userId == 0 && !app.receiverThreadActive
      && (forall k | 0 <= k < |app.closes| :: app.closes[k] == 1)
      && (forall t | 0 <= t < |app.receivers| :: app.receivers[t].pc.Done?)
  {
    app := new ClientApp();
    assert acts[..0] == [];
    for n := 0 to |acts|
      invariant fresh(app) && app.View() == Run(Begin(), acts[..n])
    {
      assert acts[..n + 1][..n] == acts[..n];
      app.Do(acts[n]);
    }
    assert acts[..|acts|] == acts;
    SessionHolds(app.View(), acts);
  }

  lemma SessionHolds(a: App, acts: seq<Act>)
    requires a == Run(Begin(), acts)
    ensures forall k | 0 <= k < |a.closes| :: a.closes[k] <= 1 && (a.closes[k] == 1 ==> a.shared.socket != k)
    ensures a.main.Idle? && a.shared.socket != INVALID ==> a.shared.active
    ensures a.login ==>
      a.shared == Begin().shared
      && (forall k | 0 <= k < |a.closes| :: a.closes[k] == 1)
      && (forall t | 0 <= t < |a.receivers| :: a.receivers[t].pc.Done?)
  {
    assert Reachable(a);
    Disciplined(a);
    forall k | 0 <= k < |a.closes|
      ensures a.closes[k] <= 1 && (a.closes[k] == 1 ==> a.shared.socket != k) && (a.login ==> a.closes[k] == 1)
    {
      ClosedOnce(a, k);
    }
  }
}
