/** The per-client send ring of server/server.c: a 2048-byte circular array with
    a head and a tail. An enqueue that ends exactly at the array end leaves
    `tail` at 2048, while `head` always wraps to 0. */
module Ring {
  import opened Wire

  const RING_SIZE := 2048
  const RING_ROOM := 2047
  const SIZE_T := 0x1_0000_0000_0000_0000

  /** What successive send() calls answer. Once the list is used up the kernel
      takes nothing more. */
  datatype SendOutcome = Accept(n: nat) | WouldBlock | Broken

  predicate Pointers(head: nat, tail: nat) {
    head < RING_SIZE && tail <= RING_SIZE
  }

  /** Bytes between head and tail, counting around the array. */
  function Queued(head: nat, tail: nat): (n: nat)
    requires Pointers(head, tail)
    ensures n <= RING_ROOM
  {
    if head == 0 && tail == RING_SIZE then 0
    else if head <= tail then tail - head
    else RING_SIZE - head + tail
  }

  /** Array index i places from the start, once around. */
  function Around(i: nat): (k: nat)
    requires i < 2 * RING_SIZE
    ensures k < RING_SIZE
  {
    if i < RING_SIZE then i else i - RING_SIZE
  }

  /** The byte queue the ring stands for. */
  function Queue(data: Bytes, head: nat, tail: nat): (q: Bytes)
    requires |data| == RING_SIZE && Pointers(head, tail)
    ensures |q| == Queued(head, tail)
  {
    seq(Queued(head, tail), k requires 0 <= k < Queued(head, tail) => data[Around(head + k)])
  }

  /** The contiguous run offered to one send(). */
  function Offered(head: nat, tail: nat): (k: nat)
    requires Pointers(head, tail) && head != tail
    ensures 1 <= k && head + k <= RING_SIZE
  {
    if tail > head then tail - head else RING_SIZE - head
  }

  /** send() takes at least one byte and at most what it is offered. */
  function Taken(n: nat, offered: nat): (k: nat)
    requires offered > 0
    ensures 1 <= k <= offered
  {
    if 1 <= n <= offered then n else offered
  }

  function Wrapped(at: nat): (h: nat)
    requires at <= RING_SIZE
    ensures h < RING_SIZE
  {
    if at == RING_SIZE then 0 else at
  }

  type Place = t: nat | t <= RING_SIZE
  type Index = h: nat | h < RING_SIZE

  /** Where an enqueue leaves the tail: as the code has it, or always reduced
      modulo the size of the array. */
  function Advanced(tail: Place, len: nat, folded: bool): (t: Place)
    ensures folded ==> t < RING_SIZE
    ensures t == RING_SIZE <==> !folded && tail + len == RING_SIZE
  {
    if !folded && tail + len == RING_SIZE then RING_SIZE else (tail + len) % RING_SIZE
  }

  /** An enqueue that fits makes the queue longer by its bytes. */
  lemma AdvancedQueued(head: Index, tail: Place, len: nat, folded: bool)
    requires Queued(head, tail) + len <= RING_ROOM
    ensures Queued(head, Advanced(tail, len, folded)) == Queued(head, tail) + len
  {
  }

  datatype Swept = Swept(total: nat, head: nat, broken: bool, calls: nat)

  /** One drain, with the kernel's answers from outs[at] on: bytes accepted,
      where the head stops, whether the socket broke, and accepting calls made. */
  function Sweep(head: nat, tail: nat, outs: seq<SendOutcome>, at: nat): (r: Swept)
    requires Pointers(head, tail) && at <= |outs|
    ensures r.head < RING_SIZE && r.calls <= |outs| - at
    decreases |outs| - at
  {
    if head == tail || at == |outs| || outs[at].WouldBlock? then Swept(0, head, false, 0)
    else if outs[at].Broken? then Swept(0, head, true, 0)
    else
      var k := Taken(outs[at].n, Offered(head, tail));
      var r := Sweep(Wrapped(head + k), tail, outs, at + 1);
      Swept(k + r.total, r.head, r.broken, 1 + r.calls)
  }

  /** With the tail inside the array a drain takes no more than is queued, makes
      no more accepting calls than that, and stops early only when told to. */
  lemma {:induction false} SweepStaysInside(head: nat, tail: nat, outs: seq<SendOutcome>, at: nat)
    requires Pointers(head, tail) && tail < RING_SIZE && at <= |outs|
    ensures var r := Sweep(head, tail, outs, at);
      && r.calls <= r.total <= Queued(head, tail)
      && (r.head == tail || at + r.calls == |outs| || !outs[at + r.calls].Accept?)
    decreases |outs| - at
  {
    if head != tail && at < |outs| && outs[at].Accept? {
      SweepStaysInside(Wrapped(head + Taken(outs[at].n, Offered(head, tail))), tail, outs, at + 1);
    }
  }

  /** The bytes that a drain hands over. */
  function SweptBytes(data: Bytes, head: nat, tail: nat, outs: seq<SendOutcome>, at: nat): (b: Bytes)
    requires |data| == RING_SIZE && Pointers(head, tail) && at <= |outs|
    ensures |b| == Sweep(head, tail, outs, at).total
    decreases |outs| - at
  {
    if head == tail || at == |outs| || !outs[at].Accept? then []
    else
      var k := Taken(outs[at].n, Offered(head, tail));
      data[head..head + k] + SweptBytes(data, Wrapped(head + k), tail, outs, at + 1)
  }

  /** What a drain hands over and what it leaves make up the queue, as long as it
      hands over no more bytes than were queued. */
  lemma {:induction false} SweptIsFront(data: Bytes, head: nat, tail: nat, outs: seq<SendOutcome>, at: nat)
    requires |data| == RING_SIZE && Pointers(head, tail) && at <= |outs|
    requires Sweep(head, tail, outs, at).total <= Queued(head, tail)
    ensures SweptBytes(data, head, tail, outs, at) + Queue(data, Sweep(head, tail, outs, at).head, tail)
      == Queue(data, head, tail)
    decreases |outs| - at
  {
    if head != tail && at < |outs| && outs[at].Accept? {
      var k := Taken(outs[at].n, Offered(head, tail));
      var h := Wrapped(head + k);
      QueueFront(data, head, tail, k);
      SweptIsFront(data, h, tail, outs, at + 1);
      Regroup(data[head..head + k], SweptBytes(data, h, tail, outs, at + 1), Queue(data, Sweep(head, tail, outs, at).head, tail));
    }
  }

  /** A drain of any ring, in bytes: bytes sent before, those handed over and those
      left make up the stream for all answers of the kernel exactly if the tail is
      inside the array. */
  lemma DrainKeepsStreamExactly(data: Bytes, head: nat, tail: nat, sent: Bytes, stream: Bytes)
    requires |data| == RING_SIZE && Pointers(head, tail) && sent + Queue(data, head, tail) == stream
    ensures (forall outs ::
        sent + SweptBytes(data, head, tail, outs, 0) + Queue(data, Sweep(head, tail, outs, 0).head, tail) == stream)
      <==> tail < RING_SIZE
  {
    if tail < RING_SIZE {
      forall outs
        ensures sent + SweptBytes(data, head, tail, outs, 0) + Queue(data, Sweep(head, tail, outs, 0).head, tail) == stream
      {
        SweepStaysInside(head, tail, outs, 0);
        SweptIsFront(data, head, tail, outs, 0);
        Regroup(sent, SweptBytes(data, head, tail, outs, 0), Queue(data, Sweep(head, tail, outs, 0).head, tail));
      }
    } else {
      var outs := Greedy(RING_SIZE);
      BrimNeverEmpties(head, RING_SIZE, 0);
      assert |sent + SweptBytes(data, head, tail, outs, 0) + Queue(data, Sweep(head, tail, outs, 0).head, tail)| > |stream|;
    }
  }

  /** A drain makes one accepting call after the other and stops at the first answer
      that does not accept, at the end of the answers, or when head meets tail. The
      socket is broken exactly if that answer is a failure other than "would block". */
  lemma {:induction false} StopsExactly(head: nat, tail: nat, outs: seq<SendOutcome>, at: nat)
    requires Pointers(head, tail) && at <= |outs|
    ensures var r := Sweep(head, tail, outs, at);
      && (forall k | at <= k < at + r.calls :: outs[k].Accept?)
      && (r.head == tail || at + r.calls == |outs| || !outs[at + r.calls].Accept?)
      && (r.broken <==> r.head != tail && at + r.calls < |outs| && outs[at + r.calls].Broken?)
    decreases |outs| - at
  {
    if head != tail && at < |outs| && outs[at].Accept? {
      StopsExactly(Wrapped(head + Taken(outs[at].n, Offered(head, tail))), tail, outs, at + 1);
    }
  }

  /** Each accepting call hands over the bytes from the head up to the tail or the
      array end, or the first n of them if the kernel takes only n. */
  lemma OneCall(data: Bytes, head: nat, tail: nat, n: nat)
    requires |data| == RING_SIZE && Pointers(head, tail) && head != tail && n >= 1
    ensures var run := if tail > head then data[head..tail] else data[head..];
      SweptBytes(data, head, tail, [Accept(n)], 0) == if n < |run| then run[..n] else run
  {
    var outs := [Accept(n)];
    var h := Wrapped(head + Taken(n, Offered(head, tail)));
    assert SweptBytes(data, h, tail, outs, 1) == [];
  }

  /** A drain with the tail inside the array leaves what it does not hand over. */
  lemma {:induction false} SweepLeaves(head: nat, tail: nat, outs: seq<SendOutcome>, at: nat)
    requires Pointers(head, tail) && tail < RING_SIZE && at <= |outs|
    ensures var r := Sweep(head, tail, outs, at); r.total + Queued(r.head, tail) == Queued(head, tail)
    decreases |outs| - at
  {
    if head != tail && at < |outs| && outs[at].Accept? {
      SweepLeaves(Wrapped(head + Taken(outs[at].n, Offered(head, tail))), tail, outs, at + 1);
    }
  }

  /** At least n answers, all of them accepting. */
  predicate AcceptsAtLeast(outs: seq<SendOutcome>, n: nat) {
    n <= |outs| && forall i | 0 <= i < n :: outs[i].Accept?
  }

  /** As many accepting answers as bytes are queued, however small, are enough to
      empty the ring. */
  lemma EnoughAnswers(head: nat, tail: nat, outs: seq<SendOutcome>)
    requires Pointers(head, tail) && tail < RING_SIZE && AcceptsAtLeast(outs, Queued(head, tail))
    ensures var r := Sweep(head, tail, outs, 0); r.head == tail && r.total == Queued(head, tail) && !r.broken
  {
    SweepStaysInside(head, tail, outs, 0);
    SweepLeaves(head, tail, outs, 0);
    NotBroken(head, tail, outs, 0);
  }

  /** So are two answers that each accept whatever they are offered. */
  lemma TwoAnswers(head: nat, tail: nat, outs: seq<SendOutcome>)
    requires Pointers(head, tail) && tail < RING_SIZE && |outs| >= 2
    requires forall i | 0 <= i < 2 :: outs[i].Accept? && outs[i].n >= RING_ROOM
    ensures Sweep(head, tail, outs, 0).total == Queued(head, tail)
  {
    if head != tail {
      var h := Wrapped(head + Offered(head, tail));
      assert Taken(outs[0].n, Offered(head, tail)) == Offered(head, tail);
      assert h != tail ==> Taken(outs[1].n, Offered(h, tail)) == Offered(h, tail);
      SweepLeaves(h, tail, outs, 1);
    }
  }

  lemma {:induction false} NotBroken(head: nat, tail: nat, outs: seq<SendOutcome>, at: nat)
    requires Pointers(head, tail) && at <= |outs|
    ensures var r := Sweep(head, tail, outs, at); r.broken ==> r.head != tail
    decreases |outs| - at
  {
    if head != tail && at < |outs| && outs[at].Accept? {
      NotBroken(Wrapped(head + Taken(outs[at].n, Offered(head, tail))), tail, outs, at + 1);
    }
  }

  /** A drain that has handed over `done` and is about to look at answer `at` ends
      like the whole drain, `all` and `bytes`. */
  ghost predicate Underway(all: Swept, bytes: Bytes, data: Bytes, head: nat, tail: nat, outs: seq<SendOutcome>, at: nat, done: Bytes)
    requires |data| == RING_SIZE && Pointers(head, tail) && at <= |outs|
  {
    var later := Sweep(head, tail, outs, at);
    && all.head == later.head && all.broken == later.broken
    && bytes == done + SweptBytes(data, head, tail, outs, at)
  }

  lemma SweepTurn(all: Swept, bytes: Bytes, data: Bytes, head: nat, tail: nat, outs: seq<SendOutcome>, at: nat, done: Bytes)
    requires |data| == RING_SIZE && Pointers(head, tail) && head != tail && at < |outs| && outs[at].Accept?
    requires Underway(all, bytes, data, head, tail, outs, at, done)
    ensures var k := Taken(outs[at].n, Offered(head, tail));
      Underway(all, bytes, data, Wrapped(head + k), tail, outs, at + 1, done + data[head..head + k])
  {
    var k := Taken(outs[at].n, Offered(head, tail));
    Regroup(done, data[head..head + k], SweptBytes(data, Wrapped(head + k), tail, outs, at + 1));
  }

  /** n calls that each take all they are offered. */
  function Greedy(n: nat): seq<SendOutcome> {
    seq(n, _ => Accept(RING_SIZE))
  }

  /** With the tail at 2048 the head never meets it: as long as the kernel keeps
      accepting, the loop keeps sending. */
  lemma {:induction false} BrimNeverEmpties(head: nat, n: nat, at: nat)
    requires head < RING_SIZE && at <= n
    ensures var r := Sweep(head, RING_SIZE, Greedy(n), at); r.calls == n - at <= r.total
    decreases n - at
  {
    if at < n {
      BrimNeverEmpties(Wrapped(head + Taken(RING_SIZE, Offered(head, RING_SIZE))), n, at + 1);
    }
  }

  /** A drain keeps within the queue whatever the kernel answers exactly when the
      tail is inside the array, which can be read off before the call. */
  lemma DrainSafeExactly(head: nat, tail: nat)
    requires Pointers(head, tail)
    ensures (forall outs :: Sweep(head, tail, outs, 0).total <= Queued(head, tail)) <==> tail < RING_SIZE
  {
    if tail < RING_SIZE {
      forall outs ensures Sweep(head, tail, outs, 0).total <= Queued(head, tail) {
        SweepStaysInside(head, tail, outs, 0);
      }
    } else {
      BrimNeverEmpties(head, RING_SIZE, 0);
      assert Sweep(head, tail, Greedy(RING_SIZE), 0).total > Queued(head, tail);
    }
  }

  lemma SweptOnce(data: Bytes, head: nat, outs: seq<SendOutcome>, at: nat, k: nat)
    requires |data| == RING_SIZE && head < RING_SIZE && at < |outs| && outs[at] == Accept(k) && 1 <= k <= RING_SIZE - head
    ensures SweptBytes(data, head, RING_SIZE, outs, at)
      == data[head..head + k] + SweptBytes(data, Wrapped(head + k), RING_SIZE, outs, at + 1)
  {
  }

  lemma SweptNoMore(data: Bytes, head: nat, outs: seq<SendOutcome>)
    requires |data| == RING_SIZE && head < RING_SIZE
    ensures SweptBytes(data, head, RING_SIZE, outs, |outs|) == []
  {
  }

  lemma QueueToBrim(data: Bytes, head: nat)
    requires |data| == RING_SIZE && 1 <= head < RING_SIZE
    ensures Queue(data, head, RING_SIZE) == data[head..]
  {
    var q := Queue(data, head, RING_SIZE);
    forall k | 0 <= k < |q| ensures q[k] == data[head..][k] {
      assert q[k] == data[Around(head + k)];
    }
  }

  /** The queue reaches up to the array end. Once it is sent the whole array is on
      offer again, and k more accepted bytes are the first k bytes of the array,
      none of which are queued. */
  lemma DrainResendsOldBytes(data: Bytes, head: nat, k: nat, outs: seq<SendOutcome>)
    requires |data| == RING_SIZE && 1 <= head < RING_SIZE && 1 <= k <= RING_SIZE
    requires outs == [Accept(RING_SIZE - head), Accept(k)]
    ensures Queue(data, head, RING_SIZE) == data[head..]
    ensures SweptBytes(data, head, RING_SIZE, outs, 0) == data[head..] + data[..k]
  {
    QueueToBrim(data, head);
    SweptOnce(data, head, outs, 0, RING_SIZE - head);
    SweptOnce(data, 0, outs, 1, k);
    SweptNoMore(data, Wrapped(k), outs);
    assert data[0..k] + [] == data[..k] && data[head..head + (RING_SIZE - head)] == data[head..];
  }

  /** The first answer that meets an empty queue, as an index into outs; the
      drain may also stop before, for lack of answers or on a refusal. */
  function EmptyAt(head: nat, tail: nat, outs: seq<SendOutcome>, at: nat): (i: nat)
    requires Pointers(head, tail) && at <= |outs|
    ensures at <= i <= |outs|
    decreases |outs| - at
  {
    if Queued(head, tail) == 0 || at == |outs| || !outs[at].Accept? then at
    else EmptyAt(Wrapped(head + Taken(outs[at].n, Offered(head, tail))), tail, outs, at + 1)
  }

  /** Draining with the tail at 2048 differs from draining with it folded to 0
      exactly when the queue runs empty and the next answer is not "would block". */
  lemma {:induction false} DivergesExactly(head: nat, outs: seq<SendOutcome>, at: nat)
    requires head < RING_SIZE && at <= |outs|
    ensures var brim, fold := Sweep(head, RING_SIZE, outs, at), Sweep(head, 0, outs, at);
      var next := EmptyAt(head, RING_SIZE, outs, at);
      (brim.total != fold.total || brim.broken != fold.broken)
      <==> fold.head == 0 && next < |outs| && !outs[next].WouldBlock?
    decreases |outs| - at
  {
    if head == 0 {
      assert EmptyAt(head, RING_SIZE, outs, at) == at;
    } else if at < |outs| && outs[at].Accept? {
      var k := Taken(outs[at].n, Offered(head, RING_SIZE));
      assert Offered(head, 0) == Offered(head, RING_SIZE);
      DivergesExactly(Wrapped(head + k), outs, at + 1);
    }
  }

  /** One accepted send() takes bytes off the front of the queue. */
  lemma QueueFront(data: Bytes, head: nat, tail: nat, k: nat)
    requires |data| == RING_SIZE && Pointers(head, tail) && head != tail
    requires 1 <= k <= Offered(head, tail) && k <= Queued(head, tail)
    ensures Queue(data, head, tail) == data[head..head + k] + Queue(data, Wrapped(head + k), tail)
  {
    var h := Wrapped(head + k);
    var q, left := Queue(data, head, tail), Queue(data, h, tail);
    assert |left| == |q| - k;
    forall i | 0 <= i < |q| ensures q[i] == (data[head..head + k] + left)[i] {
      assert q[i] == data[Around(head + i)];
      if i < k {
        assert data[head..head + k][i] == data[head + i];
      } else {
        assert Around(head + i) == Around(h + (i - k));
        assert left[i - k] == data[Around(h + (i - k))];
      }
    }
  }

  /** The array after `more` was written from the tail on, going around the end. */
  ghost predicate Written(before: Bytes, after: Bytes, tail: nat, more: Bytes)
    requires |before| == |after| == RING_SIZE && tail <= RING_SIZE && |more| <= RING_SIZE
  {
    forall k :: 0 <= k < RING_SIZE ==>
      (after[k] ==
        if tail <= k < tail + |more| then more[k - tail]
        else if k + RING_SIZE < tail + |more| then more[RING_SIZE - tail + k]
        else before[k])
  }

  lemma Appended(before: Bytes, after: Bytes, head: nat, tail: nat, more: Bytes)
    requires |before| == |after| == RING_SIZE && Pointers(head, tail)
    requires 0 < |more| && Queued(head, tail) + |more| <= RING_ROOM && Written(before, after, tail, more)
    ensures Queue(after, head, if tail + |more| <= RING_SIZE then tail + |more| else tail + |more| - RING_SIZE)
      == Queue(before, head, tail) + more
  {
    var t := if tail + |more| <= RING_SIZE then tail + |more| else tail + |more| - RING_SIZE;
    var q, longer := Queue(before, head, tail), Queue(after, head, t);
    assert |longer| == |q| + |more|;
    forall i | 0 <= i < |longer| ensures longer[i] == (q + more)[i] {
      assert longer[i] == after[Around(head + i)];
    }
  }

  lemma FoldedTail(data: Bytes, head: nat)
    requires |data| == RING_SIZE && head < RING_SIZE
    ensures Queue(data, head, 0) == Queue(data, head, RING_SIZE)
  {
  }

  /** NsSendBuf. */
  class SendRing {
    const data: array<Byte>
    var head: nat
    var tail: nat

    constructor ()
      ensures Valid() && fresh(data) && Fifo() == [] && !Pending() && tail == 0
    {
      data := new Byte[RING_SIZE](_ => 0);
      head, tail := 0, 0;
    }

    ghost predicate Valid()
      reads this
    {
      data.Length == RING_SIZE && Pointers(head, tail)
    }

    ghost function Fifo(): (q: Bytes)
      requires Valid()
      reads this, data
      ensures |q| == Queued(head, tail)
    {
      Queue(data[..], head, tail)
    }

    /** ns_client_send_buf_pending */
    predicate Pending()
      reads this
    {
      head != tail
    }

    /** memset of the whole structure. */
    method Clear()
      requires Valid()
      modifies this, data
      ensures Valid() && Fifo() == [] && !Pending() && tail == 0
    {
      forall k | 0 <= k < data.Length {
        data[k] := 0;
      }
      head, tail := 0, 0;
    }

    /** memcpy into the ring. */
    method Copy(at: nat, src: array<Byte>, from: nat, n: nat)
      requires Valid() && src != data
      requires at + n <= RING_SIZE && from + n <= src.Length
      modifies data
      ensures forall k :: 0 <= k < RING_SIZE ==> data[k] == if at <= k < at + n then src[from + k - at] else old(data[k])
    {
      forall k | 0 <= k < n {
        data[at + k] := src[from + k];
      }
    }

    /** One or two copies, depending on the array end. */
    method CopyIn(src: array<Byte>, len: nat) returns (end: nat)
      requires Valid() && src != data && len <= src.Length && len <= RING_SIZE
      modifies data
      ensures Written(old(data[..]), data[..], tail, src[..len])
      ensures end == if tail + len <= RING_SIZE then tail + len else tail + len - RING_SIZE
    {
      if tail + len <= RING_SIZE {
        Copy(tail, src, 0, len);
        end := tail + len;
      } else {
        var first := RING_SIZE - tail;
        Copy(tail, src, 0, first);
        Copy(0, src, first, len - first);
        end := len - first;
      }
    }

    /** The space left must exceed the bytes to come. */
    method HasRoom(len: nat) returns (ok: bool)
      requires Valid() && 0 < len < SIZE_T
      requires len <= RING_ROOM || !(head == 0 && tail == RING_SIZE)
      ensures ok <==> Queued(head, tail) + len <= RING_ROOM
    {
      var available := if tail >= head then RING_SIZE - (tail - head) else head - tail;
      ok := len <= (available + SIZE_T - 1) % SIZE_T;
    }

    /** ns_client_enqueue_send. The space left is a size_t, so with the head at 0
        and the tail at 2048 `available - 1` wraps around; then the caller must
        not hand over more than the array holds. */
    method Enqueue(src: array<Byte>, len: nat) returns (ok: bool)
      requires Valid() && src != data && len <= src.Length && len < SIZE_T
      requires len <= RING_ROOM || !(head == 0 && tail == RING_SIZE)
      modifies this`tail, data
      ensures Valid()
      ensures ok <==> |old(Fifo())| + len <= 2047
      ensures Fifo() == if ok then old(Fifo()) + src[..len] else old(Fifo())
      ensures ok && len > 0 ==> Pending()
      ensures tail == if ok then Advanced(old(tail), len, false) else old(tail)
      ensures if ok then Written(old(data[..]), data[..], old(tail), src[..len]) else data[..] == old(data[..])
    {
      if len == 0 {
        return true;
      }
      ok := HasRoom(len);
      if !ok {
        return;
      }
      ghost var before := data[..];
      var end := CopyIn(src, len);
      Appended(before, data[..], head, tail, src[..len]);
      tail := end;
      return true;
    }

    /** The enqueue that the field comments describe: the tail wraps like the head. */
    method EnqueueFolded(src: array<Byte>, len: nat) returns (ok: bool)
      requires Valid() && src != data && len <= src.Length && len < SIZE_T
      requires tail < RING_SIZE
      modifies this`tail, data
      ensures Valid() && tail < RING_SIZE
      ensures ok <==> |old(Fifo())| + len <= 2047
      ensures Fifo() == if ok then old(Fifo()) + src[..len] else old(Fifo())
      ensures ok && len > 0 ==> Pending()
      ensures tail == if ok then Advanced(old(tail), len, true) else old(tail)
    {
      ok := Enqueue(src, len);
      FoldedTail(data[..], head);
      tail := tail % RING_SIZE;
    }

    /** One send() that the kernel accepts. */
    method SendRun(n: nat, ghost was: Bytes) returns (chunk: Bytes)
      requires Valid() && head != tail && was == data[..]
      modifies this`head
      ensures Valid()
      ensures var k := Taken(n, Offered(old(head), tail));
        chunk == was[old(head)..old(head) + k] && head == Wrapped(old(head) + k)
    {
      var sent := Taken(n, Offered(head, tail));
      chunk := data[head..head + sent];
      head := (head + sent) % RING_SIZE;
    }

    method SendTurn(outs: seq<SendOutcome>, used: nat, accepted: Bytes, ghost all: Swept, ghost bytes: Bytes, ghost was: Bytes)
      returns (longer: Bytes)
      requires Valid() && was == data[..] && head != tail && used < |outs| && outs[used].Accept?
      requires Underway(all, bytes, was, head, tail, outs, used, accepted)
      modifies this`head
      ensures Valid() && Underway(all, bytes, was, head, tail, outs, used + 1, longer)
    {
      SweepTurn(all, bytes, was, head, tail, outs, used, accepted);
      var chunk := SendRun(outs[used].n, was);
      longer := accepted + chunk;
    }

    /** ns_client_drain_send. `accepted` is what the kernel took. */
    method Drain(outs: seq<SendOutcome>) returns (status: int, accepted: Bytes)
      requires Valid()
      modifies this`head
      ensures Valid()
      ensures var r := Sweep(old(head), tail, outs, 0);
        head == r.head && status == if r.broken then -1 else 0
      ensures accepted == SweptBytes(data[..], old(head), tail, outs, 0)
      ensures |accepted| <= |old(Fifo())| <==> accepted + Fifo() == old(Fifo())
      ensures tail < RING_SIZE ==> |accepted| <= |old(Fifo())|
      ensures !old(Pending()) ==> accepted == [] && status == 0 && head == old(head)
      ensures status == -1 ==> Pending()
    {
      status, accepted := SendLoop(outs);
      if |accepted| <= Queued(old(head), tail) {
        SweptIsFront(data[..], old(head), tail, outs, 0);
      }
      if tail < RING_SIZE {
        SweepStaysInside(old(head), tail, outs, 0);
      }
    }

    method SendLoop(outs: seq<SendOutcome>) returns (status: int, accepted: Bytes)
      requires Valid()
      modifies this`head
      ensures Valid()
      ensures var r := Sweep(old(head), tail, outs, 0);
        head == r.head && status == if r.broken then -1 else 0
      ensures accepted == SweptBytes(data[..], old(head), tail, outs, 0)
      ensures status == -1 ==> Pending()
    {
      accepted := [];
      status := 0;
      var used := 0;
      ghost var was := data[..];
      ghost var all, bytes := Sweep(head, tail, outs, 0), SweptBytes(was, head, tail, outs, 0);
      while head != tail
        invariant Valid() && was == data[..] && used <= |outs| && status == 0
        invariant Underway(all, bytes, was, head, tail, outs, used, accepted)
        decreases |outs| - used
      {
        if used == |outs| || outs[used].WouldBlock? {
          break;
        }
        if outs[used].Broken? {
          status := -1;
          break;
        }
        accepted := SendTurn(outs, used, accepted, all, bytes, was);
        used := used + 1;
      }
    }
  }
}
