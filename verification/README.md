# NodeSignal in Dafny

NodeSignal is a small chat system: a poll-driven server with a fixed table of
1024 clients, a binary wire protocol, a SQLite store and a client with two
threads. This project models the four parts as one stack and proves, over every
run, what a client can count on: whatever part of the sent bytes has reached it,
it reads a prefix of a packet history that starts with its own ACK and is,
without ACK and ERROR packets, the broadcast log from its own JOIN notice on.

`dafny verify dfyconfig.toml` checks everything.

## Layout

| file | models | form |
|---|---|---|
| `Wire.dfy` | packet layout, the meaning of a byte stream | functions |
| `Comm.dfy` | exact-length send and receive loops, packet I/O | loops over a `Socket` whose calls move arbitrary amounts |
| `Ring.dfy` | the 2048-byte send ring | class `SendRing` over an array |
| `Store.dfy` | the two tables and four statements | class `Database`, and the tables as a value |
| `Chat.dfy` | the server as a state machine: `World`, `Event`, `Next`, `After` | values; the specification of `Server` |
| `Server.dfy` | slot table, poll entries, rings and handlers, updated in place | classes `Client` and `ServerState` |
| `Service.dfy` | the server from its start through any number of turns of the poll loop | methods over `ServerState` |
| `Delivery.dfy`, `Conservation.dfy`, `Identity.dfy`, `Persistence.dfy` | one invariant of the state machine each, kept by every event | lemmas |
| `Guarantees.dfy` | what follows for clients | lemmas |
| `Outcomes.dfy` | what each event does, in plain numbers and words and without the handlers' functions | lemmas over `Next` |
| `Brim.dfy`, `Collision.dfy` | inputs on which a promised property fails | runs of the model |
| `Client.dfy` | the interleaving of the client's two threads, and the program that does it | transition system, class `ClientApp` |

`ServerState` carries a ghost `world`. Its `Valid()` says that the slots, the poll
entries, the rings and the descriptors accepted and closed so far stand for it.
Every handler's contract says which `Chat` function takes the old world to the new
one, `Wakeup` says that one turn of the poll loop does all that poll() has reported
and nothing else, and `Service.Serve` joins any number of turns, from
ns_server_init on, into one run. All lemmas about runs hold of the state it ends in.

A connection's history is part of the `World`: `history` lists the packets
enqueued for it, `sent` the bytes that send() has accepted, `since` where the
broadcast log stood when it joined. `log` lists all broadcasts, `gone` all
connections whose socket has been closed.

## Where the code departs from its comments

The code is followed throughout; in each case a lemma says exactly when the
described behaviour holds.

* An enqueue that ends exactly at the end of the ring's array leaves the tail at
  2048, although head and tail are described as positions modulo 2048
  (server/server.c:68, server/server.c:100-104, server/server.c:132-134). The
  queue is still right, but a drain that empties it goes on sending old bytes.
  `DrainKeepsStreamExactly`: in bytes and for all answers of the kernel, a drain
  keeps the stream if and only if the tail is inside the array. `Brim.AckTwice` is
  an instance from an empty ring on: a peer reads its ACK a second time.
  `DivergesExactly` compares with the folded tail for every list of answers.
  A server made with `folded` set keeps the tail modulo 2048, as described; with
  `folded` not set it is the code. `EveryByteDelivered` holds for every run of the
  former, `EndToEnd` for every run of the latter in which no drain finds its tail
  at 2048, and `DeliversExactly` says for every connection of every run that its
  stream is intact if and only if no drain took more than was queued.
* Receiving returns "closed" not only between packets but also when the peer
  closes right after a header (comm/comm.c:648-651): `EofExactly`.
* User ids are 64 bits in the store and 32 bits on the wire and in the messages
  table. `IdsCollideExactly` and `MembersDifferIn` give the exact condition for
  equal ids, `ReplaysExactly` and `HistoryReplays` the one for a message kept under
  another name; `MembersMayShareId` and `TextUnderAnotherName` are runs in which it
  happens.
* An ERROR to a client that is then dropped is never sent, since its ring is
  cleared. `NothingSentElse`: only a drain of its own ring sends a client
  anything, whatever event drops it; `TurnedAwayInSilence` is the case of a client
  that has not joined. Not every departure is announced: `AnnouncedExactly`.
* The client's main thread sends a text on a copy of the socket, and its receiver
  reads on one, so that a close by the other thread can come between
  (client/client.c:276-281, client/client.c:583-599). `SendsOnClosedExactly` and
  `ReceivesOnClosedExactly` say when, `ClosedInUse` that both occur.
* A client's DISCONNECTED event joins whatever receiver is current when it is
  dispatched, not the one that reported (client/client.c:342-349). After a failed
  send the form is enabled before the event arrives, so a new connection can be
  running by then. `StaleExactly` says when the main thread ends up waiting for a
  running receiver, `StaleHappens` that it does occur, `BlockedWhileHealthy` that
  the wait lasts as long as the new connection does.

## Model

| member | source | states |
|---|---|---|
| Wire.PacketSet | comm/comm.c:501-527 | a body is refused exactly if it exceeds 512 bytes; what is built is well formed |
| Wire.LoadStore | comm/comm.c:32-43 | loading four stored big-endian bytes gives the value back |
| Wire.StoreLoad | comm/comm.c:32-43 | storing a loaded value gives the bytes back, so the two are inverse |
| Wire.EncodedBytes | comm/comm.h:97-107 | where every byte of a packet goes: version, type, then sender, time and length with the most significant byte first, then the body |
| Wire.AcceptsExactly | comm/comm.c:603-655 | a packet is accepted exactly if version is 1, type 1 to 5, length at most 512, most significant byte first, and all of it has come |
| Wire.DecodeEncode | comm/comm.c:549-655 | decoding the encoding of any well-formed packet, whatever follows it, gives the packet and what follows |
| Wire.EncodeDecode | comm/comm.c:603-655 | whatever the decoder accepts is the encoding of a well-formed packet: version 1, types 1 to 5, body at most 512 |
| Wire.EofExactly | comm/comm.c:648-651 | result 0 means precisely: the peer closed before a header, or right after the header of a packet with a body |
| Wire.StreamRoundTrip | comm/comm.c:549-655 | encoding any list of packets and decoding the stream gives the list, followed by end of stream |
| Wire.TornPacket | comm/comm.c:603-655 | a packet cut short anywhere is never decoded |
| Wire.PrefixDecodesToPrefix | comm/comm.c:603-655 | from any prefix of an encoded list the packets read are the first ones of the list: none torn, lost or reordered |
| Comm.Socket.Recv | comm/comm.c:90-109 | what one recv() may do: move between one and all of the waiting bytes, or report the end |
| Comm.SendAll | comm/comm.c:57-73 | success means all bytes went out in order; failure leaves a proper prefix |
| Comm.RecvAll | comm/comm.c:90-109 | for any chunking the result is 1, 0 or -1 according to how much is still to come, and on success the buffer holds the first bytes |
| Comm.Serialize | server/server.c:410-432 | the header and body copied into one buffer are the packet's encoding |
| Comm.SendPacket | comm/comm.c:549-575 | success appends exactly the encoding; failure appends a proper prefix of it; an oversized body sends nothing |
| Comm.RecvPacket | comm/comm.c:603-655 | for any chunking the outcome is that of the decoder on the bytes to come |
| Comm.ReceiveAll | client/client.c:528-552 | the receive loop gets precisely the decoded packets of the stream, for any chunking, and ends with the stream's last word |
| Ring.SendRing.Enqueue | server/server.c:113-143 | all or nothing: succeeds if and only if pending + len is at most 2047, and then the queue is extended by the bytes; says when the tail reaches 2048 |
| Ring.SendRing.EnqueueFolded | server/server.c:100-104 | the enqueue as described, tail modulo 2048: same queue, and the tail stays inside the array |
| Ring.SendRing.SendRun | server/server.c:169-214 | one accepted send() hands over the bytes at the head, at least one and at most the contiguous run, and the head wraps |
| Ring.SendRing.Drain | server/server.c:169-214 | which bytes go out for every list of answers; they and what is left are the old queue exactly if no more was accepted than was queued, always so with the tail inside the array |
| Ring.SweptIsFront | server/server.c:169-214 | what a drain hands over is the front of the queue, as long as it is no more than was queued |
| Ring.DrainKeepsStreamExactly | server/server.c:132-134 | bytes sent, handed over and left are the stream for every list of answers if and only if the tail is inside the array |
| Ring.Appended | server/server.c:132-140 | one or two copies going around the end extend the byte queue |
| Ring.QueueFront | server/server.c:169-214 | the contiguous run is the front of the queue, also around the end |
| Ring.SweepStaysInside | server/server.c:169-214 | with the tail inside the array a drain never exceeds the queue, makes no more accepting calls than bytes are queued, and stops early only when told to |
| Ring.StopsExactly | server/server.c:169-214 | a drain stops at the first answer that does not accept, or when the ring is drained; it fails exactly if that answer is neither acceptance nor would-block |
| Ring.OneCall | server/server.c:169-214 | one accepting call hands over the run from the head up to the tail or array end, or its first n bytes |
| Ring.EnoughAnswers | server/server.c:169-214 | as many accepting answers as bytes are queued, however small, empty the ring |
| Ring.TwoAnswers | server/server.c:169-214 | two answers that accept all they are offered do so, too |
| Ring.DrainSafeExactly | server/server.c:132-134 | a drain keeps within the queue for every list of answers if and only if the tail is inside the array |
| Ring.BrimNeverEmpties | server/server.c:169-214 | with the tail at 2048 the head never meets it: an accepting kernel is sent bytes for ever |
| Ring.DrainResendsOldBytes | server/server.c:132-134 | with any data and the tail at 2048, a drain that has sent the queue goes on with the first bytes of the array |
| Brim.AckTwice | server/server.c:113-214 | from an empty ring, by enqueues and drains alone: a user's peer is sent the conversation and then its ACK again, and what it reads is not a prefix of its history |
| Brim.AckTwiceInRun | server/server.c:920-977 | a run of the server that does so: arrival, JOIN, a drain of the ACK, four texts, a drain of the rest |
| Ring.DivergesExactly | server/server.c:132-134 | for every list of answers, the tail at 2048 and the tail folded to 0 differ exactly if the queue runs empty and the kernel then does not say "would block" |
| Ring.FoldedTail | server/server.c:100-104 | folding the tail does not change the queue |
| Store.RegisteredKeepsValid | database/db.c:219-259 | registration keeps the tables consistent, keeps every id and name, and returns the id stored for the name |
| Store.RegisteredTwice | database/db.c:219-259 | registering a name again gives the same id and changes nothing |
| Store.InsertedKeepsValid | database/db.c:275-296 | storing a message keeps the tables consistent: ids ascend, every sender exists |
| Store.IdsCollideExactly | database/db.c:50-68 | row ids are distinct; the 32-bit ids of two users agree exactly if the row ids agree modulo 2^32 |
| Store.IdsMayCollide | database/db.c:50-68 | consistent tables with two users of the same 32-bit id |
| Store.JoinDropsNothing | database/db.c:331-385 | with the foreign key in force, line k of the join is message k under its sender's name |
| Store.TurnedAround | database/db.c:331-385 | newest-first rows turned around are the end of the conversation |
| Store.Database.GetOrCreateUser | database/db.c:219-259 | the call, with any step failing, does what registration on the tables does; a failed commit restores them |
| Store.Database.FindUserId | database/db.c:50-68 | finds exactly the registered names, as a 32-bit id |
| Store.Database.InsertMessage | database/db.c:275-296 | appends one row, or fails and changes nothing |
| Store.Database.RecentMessages | database/db.c:331-385 | for any limit the callback gets the last min(clamp(limit, 1, 500), n) lines, oldest first, cut to the buffers |
| Server.Client.EnqueueSend | server/server.c:113-143 | a packet's bytes are queued whole exactly if they fit, and then the packet is part of the history |
| Server.Client.DrainSend | server/server.c:169-214 | the bytes that the kernel's answers ask for move from the ring to the wire; only with the tail at the array end can they be more than are queued |
| Server.Client.Reset | server/server.c:288-298 | the slot is blank and its ring empty |
| Server.ServerState.constructor | server/server.c:305-322 | the empty server: every slot free, every poll entry unused |
| Server.ServerState.Seen | server/server.c:84-94 | the fields of a slot are those of the connection it stands for |
| Server.ServerState.OneSlotChanged | server/server.c:86-87 | poll entries mirror slots: changing one slot with its own entry leaves all others in step |
| Server.ServerState.PollMirror | server/server.c:86-87 | a slot is active exactly if its poll entry holds a descriptor, which is then its own and watched for input; free slots are unwatched; POLLOUT is armed exactly if bytes are queued, or if a drained ring has its tail at the array end |
| Server.ServerState.UpdatePollEvents | server/server.c:226-232 | POLLOUT is armed exactly if the ring is not drained |
| Server.ServerState.EnqueueWire | server/server.c:434-445 | slot i alone gets the bytes and POLLOUT, exactly if they fit |
| Server.ServerState.EnqueuePacket | server/server.c:253-285 | the same for one packet, with the status |
| Server.ServerState.SendError | server/server.c:375-386 | an ERROR is queued if it fits and ignored otherwise |
| Server.ServerState.CloseSlot | server/server.c:491-502 | the descriptor is closed, slot and poll entry are blank, the count is one less |
| Server.ServerState.DeliverTo | server/server.c:434-445 | one turn: the member gets the packet or is dropped; others are skipped |
| Server.ServerState.Broadcast | server/server.c:410-446 | although evictions happen in the middle of the loop, the outcome is slot by slot: each member has the packet appended or is gone |
| Server.ServerState.DisconnectClient | server/server.c:463-503 | announcement, then release; the mutual recursion with the broadcast ends, since an eviction never announces |
| Server.ServerState.UsernameInUse | server/server.c:352-366 | true exactly if another member holds the name |
| Server.ServerState.JoinProblem | server/server.c:521-537 | which complaint a JOIN meets, if any, in the order of the checks |
| Server.ServerState.Welcome | server/server.c:566-590 | marking, ACK, JOIN notice to everyone |
| Server.ServerState.HandleJoin | server/server.c:521-609 | the new state and verdict for every JOIN, every failure of the store included |
| Server.ServerState.HandleText | server/server.c:622-685 | the new state and verdict for every TEXT: refused, refused but kept, not stored, or stored and broadcast |
| Server.ServerState.FindFreeSlot | server/server.c:329-339 | the lowest free slot, or -1 exactly if there is none |
| Server.ServerState.AcceptClient | server/server.c:720-754 | a new socket takes the lowest free slot with an empty ring, a watched entry and no pending events, or is closed |
| Server.ServerState.HandleClientReadable | server/server.c:771-818 | the new state for every outcome of receiving and every packet type |
| Server.ServerState.ReapAuthTimeouts | server/server.c:828-843 | the one-by-one sweep drops precisely the unjoined clients that are ten seconds old |
| Server.ServerState.FlushSlot | server/server.c:961-967 | drain, then re-arm or drop; the entry's pending events survive a good drain |
| Server.ServerState.Poll | server/server.c:933-943 | afterwards exactly the reported events that each entry watches for are pending, and failures |
| Server.ServerState.Listed | server/server.c:954-959 | in every state the pending events of a slot are exactly those that poll() reported for the connection that still holds it, none if it was freed or has just been filled |
| Server.ServerState.ServeSlot | server/server.c:954-976 | drain, read and failure handling for one slot: each reported step is taken in this order as long as the slot stands, and no other |
| Server.ServedInOrder | server/server.c:954-976 | of a slot's pending events the drain comes first, then the read, then the failure, each as long as the slot stands |
| Server.DueExactly | server/server.c:933-959 | what is pending for a slot: what was reported, output only if it was armed, nothing for a connection that arrived after poll() |
| Server.ServerState.ServeAll | server/server.c:954-977 | every slot is served in turn, on the state the ones before have left |
| Server.ServerState.Wakeup | server/server.c:933-977 | one turn of the loop is the sweep, the arrival if there is one, and then all that is due to every slot and nothing else |
| Chat.ChainIsRun | server/server.c:920-977 | stretches that follow on each other are one run |
| Service.Serve | server/server.c:920-977 | from the start through any number of turns, whatever the kernel and the store answer: each turn does all that is due, and the state is in order for delivery, conservation, identity and persistence |
| Service.InMemory | server/server.c:76-84 | for every active slot in memory: bytes sent and ring content are the encoding of its packets exactly if no drain took too much, which cannot be with a folded ring |
| Service.SlotDrains | server/server.c:961-967 | a slot with POLLOUT pending whose ring is whole and has its tail inside the array: if the kernel accepts all that is queued, its turn empties the ring and everything enqueued has been sent |
| Service.TurnDrains | server/server.c:954-967 | with the enqueue as described, in any turn of any run: if POLLOUT is pending for a client that is there when its turn comes, and the kernel accepts all that is queued, its ring is emptied and it has been sent everything ever enqueued for it |
| Server.BroadcastStep | server/server.c:434-445 | a broadcast that has dealt with n slots, continued by one turn, has dealt with n + 1 |
| Server.ReapStep | server/server.c:832-842 | the same for the sweep |
| Delivery.BroadcastKeeps | server/server.c:410-446 | a broadcast keeps every member's history in step with the log, and those it drops had seen everything before |
| Delivery.AckFits | server/server.c:571-579 | a client that has not joined has an empty ring, so its ACK fits and starts its history |
| Delivery.HandleJoinKeeps | server/server.c:521-609 | a join puts the newcomer in step from its own notice on |
| Delivery.DrainKeeps | server/server.c:961-967 | draining keeps bytes sent plus bytes queued equal to the encoded history |
| Delivery.NextKeeps | server/server.c:933-977 | every event keeps ordered delivery |
| Delivery.AlwaysOrdered | server/server.c:410-685 | in every run, every member has its ACK first and then, ACK and ERROR aside, exactly the log from its own JOIN notice on |
| Conservation.NextKeeps | server/server.c:720-843 | every event keeps the count equal to the active slots, open descriptors distinct, and accepted = open + closed |
| Conservation.AlwaysConserved | server/server.c:463-843 | the same for every run |
| Conservation.ClosedExactlyOnce | server/server.c:463-503 | a descriptor has been closed as often as it was accepted, or once less exactly while it is in the table |
| Conservation.NestedClampNeverFires | server/server.c:434-445 | at every drop in the middle of a broadcast, and for its cause afterwards, the count is positive |
| Conservation.SweepClampNeverFires | server/server.c:828-843 | the same at every drop of the sweep |
| Conservation.ClampNeverFires | server/server.c:499-502 | in every run, dropping a client counts down without the clamp: by itself, within a broadcast, within the sweep |
| Identity.HandleJoinKeeps | server/server.c:521-609 | a join keeps names distinct and every member's id the one the store has for its name |
| Identity.AlwaysIdentified | server/server.c:521-591 | in every run members hold distinct names, each with the id the store has for it |
| Identity.MembersDifferIn | server/server.c:521-591 | two members differ in name; in id exactly unless their row ids agree modulo 2^32 |
| Identity.MembersDiffer | server/server.c:352-366 | in every run no two members share a name, nor an id while row ids fit 32 bits |
| Collision.MembersMayShareId | server/server.c:556-591 | a run in which two members hold one id, with a row id above 2^32 |
| Persistence.AcceptedKeeps | server/server.c:667-681 | a text that is stored and broadcast adds one row that records the packet: sender, time, and a text that its user said |
| Persistence.AlwaysRecorded | server/server.c:647-685 | in every run the rows added are one to one and in order the TEXT packets broadcast, each with sender id, time, and the broadcast text as some registered user's name and the stored body |
| Persistence.ShownNameExactly | database/db.c:331-385 | the name shown for a message is its speaker's exactly if the speaker's row id fits 32 bits |
| Collision.TextUnderAnotherName | database/db.c:331-385 | a run in which a text is broadcast under one name and shown by the history under another |
| Persistence.LineFromEnd | database/db.c:331-385 | a history has the smaller of all messages and the limit, at least 1 and at most 500 lines; line k from the end is message k from the end with its sender's name, cut to 63 and 512 bytes |
| Persistence.HistoryReplays | database/db.c:331-385 | after any run, for any limit, line k from the end reads word for word like text k from the end of the log exactly if the row id of the user who said it fits 32 bits |
| Guarantees.ReadsPrefix | comm/comm.c:603-655 | from any part of the sent bytes the blocking receiver reads a prefix of the packet history |
| Guarantees.SpoilableExactly | server/server.c:169-214 | a drain cannot spoil a whole connection, whatever the kernel answers, exactly if the ring's tail is inside the array |
| Guarantees.FoldedDrainsInside | server/server.c:100-104 | with the enqueue as described, every drain of every run finds the tail inside the array |
| Guarantees.AlwaysWhole | server/server.c:169-214 | in every run in which each drain finds the tail inside the array, no drain takes more than is queued |
| Guarantees.DeliversExactly | server/server.c:113-285 | for every run, connection and arrived part of its bytes: stream and reading are right exactly if no drain took more than was queued |
| Guarantees.EveryByteDelivered | server/server.c:113-285 | with the enqueue as described, in every run: sent bytes plus ring are the encoding of the history, and the peer reads its ACK and then the log from its own notice on |
| Guarantees.EndToEnd | server/server.c:113-285 | the same for the enqueue as written, in every run in which no drain finds the tail at 2048 |
| Guarantees.MembersAgree | server/server.c:410-446 | two members agree on everything since the later one joined |
| Guarantees.AdmissionSucceeds | server/server.c:556-591 | once checked and registered, a join cannot fail: ACK and own notice are queued and the joiner is not evicted by it |
| Outcomes.AdmittedExactly | server/server.c:521-591 | a packet makes its client a member exactly if it is a JOIN of 1 to 32 bytes, the name is no other member's and no step of the store fails; then name, id, ACK and own notice are as described |
| Outcomes.EndsExactly | server/server.c:771-818 | for every event about a client: exactly when it is still there afterwards, which packet if any is broadcast, and which the client itself gets, with type, sender, time and text |
| Outcomes.NotYetKeeps | server/server.c:787-791 | would-block changes nothing |
| Outcomes.BroadcastsExactly | server/server.c:410-685 | the log grows by exactly the packet described, for every event |
| Outcomes.StoresExactly | database/db.c:219-296 | what every event leaves in the store: one message with sender, text and time, one user, or nothing new |
| Outcomes.RefusedExactly | server/server.c:521-537 | a packet refused for good frees its slot and no other, with the reason as the last thing queued |
| Outcomes.TimedOutExactly | server/server.c:837-840 | the same for a client that the sweep frees |
| Outcomes.UnjoinedExactly | server/server.c:410-446 | an event about others leaves a client that has not joined untouched, but for the sweep after ten seconds |
| Outcomes.SeatedExactly | server/server.c:720-754 | a new socket gets the lowest free slot exactly if fewer than 1024 clients are active, unjoined, with the time of accept() and nothing queued; otherwise it is closed |
| Guarantees.EvictedExactly | server/server.c:410-446 | whatever event happens to another client, and for its own texts: a member is dropped exactly if something is broadcast and pending + 14 + body exceeds 2047, otherwise it gets just that packet |
| Guarantees.EvictionBound | server/server.c:113-130 | so with at most 1521 pending bytes a member survives every broadcast |
| Guarantees.ThreeFullPacketsFit | server/server.c:70-75 | three packets of full size fit an empty ring, a fourth never |
| Guarantees.DepartureEffect | server/server.c:463-503 | the effect of an announced departure on every slot, nested evictions included |
| Guarantees.AnnouncedExactly | server/server.c:771-818 | an event broadcasts at most one packet, and a LEAVE notice exactly in the listed cases |
| Guarantees.TurnedAwayInSilence | server/server.c:796-800 | a client refused before joining is closed without a byte sent |
| Guarantees.NothingSentElse | server/server.c:796-840 | any event but a drain of its own ring leaves a client with the bytes it had been sent, even if the event closes it |
| Guarantees.SweepExactly | server/server.c:828-843 | the sweep frees a slot exactly if its client has not joined and was accepted at least ten seconds ago; it changes nothing else |
| Guarantees.Lifecycle | server/server.c:463-591 | slots go only from free to unjoined to joined to free; name, id, history and sent bytes are never revised |
| Client.ClientApp.TakeSocket | client/client.c:276-296 | hands out the socket and leaves the reset state |
| Client.ClientApp.ClaimReceiver | client/client.c:244-260 | the handle is given out once |
| Client.ClientApp.MainGoesOn | client/client.c:430-441 | each main-thread step, in place, does what the transition system says |
| Client.ClientApp.Do | client/client.c:244-760 | any step of either thread, done in place, refines the transition system of which the invariants are proved |
| Client.ClicksExactly | client/client.c:569-609 | exactly when a click on connect, send or close counts, and what it starts |
| Client.EventsExactly | client/client.c:321-361 | what each queued event does to the form and the send button |
| Client.PacketsExactly | client/client.c:458-488 | an ACK makes the client joined under its id and reports CONNECTED; the end of the stream ends the receive loop |
| Client.RestoredExactly | client/client.c:596-603 | which of the form and the send button each kind of disconnect changes |
| Client.OnePage | client/client.c:321-361 | in every interleaving the login form and the send button are never enabled together |
| Client.ClientApp.ReceiverGoesOn | client/client.c:528-552 | each receiver step, in place, does what the transition system says |
| Client.Session | client/client.c:962-997 | for any schedule of the two threads: each socket closed at most once, a valid socket has a receiver, and an enabled login form means all sockets closed, all threads over and everything reset |
| Client.ConnectKeeps | client/client.c:687-694 | storing a new connection keeps the invariant: no socket is lost, the newcomer starts unjoined, no receiver is left that could take it |
| Client.SpawningKeeps | client/client.c:756-759 | the receiver that is started is the only one, belongs to the stored connection and is recorded as unjoined |
| Client.EarlyKeeps | client/client.c:458-552 | a receiver that has not done its final take cannot break the invariant, a late ACK included |
| Client.FinalTakeKeeps | client/client.c:543-549 | the final take moves ownership of the socket to the receiver |
| Client.TakingKeeps | client/client.c:430-441 | the main thread's take moves ownership to the main thread |
| Client.StepKeeps | client/client.c:244-760 | every step of either thread keeps the invariant |
| Client.ClosedOnce | client/client.c:276-296 | in every interleaving each stored socket is closed at most once, never while shared, and has been closed once the client is at rest |
| Client.OneReceiver | client/client.c:528-552 | at most one receiver runs, and it takes, reads and closes only its own connection's socket |
| Client.Disciplined | client/client.c:712-760 | between main-thread events a valid socket has an unjoined receiver before its final take; with the login form enabled nothing of an earlier connection is left |
| Client.LateAck | client/client.c:462-466 | joined implies a valid socket or a receiver before its final take; once that receiver has ended and is waited for, everything is reset |
| Client.SendsOnClosedExactly | client/client.c:583-599 | a text goes out on the current connection's socket, and on a closed one exactly if the receiver has taken and closed it since the click; the JOIN never does |
| Client.ReceivesOnClosedExactly | client/client.c:430-441 | a receiver reads on a closed socket exactly while the main thread has closed it in a disconnect and is about to join the receiver |
| Client.ClosedInUse | client/client.c:528-552 | both are reached |
| Client.NeverStranded | client/client.c:321-361 | with the main thread idle and no receiver running, a disabled login form always has an event queued that enables it |
| Client.StaleExactly | client/client.c:342-349 | dispatching DISCONNECTED waits for a running receiver exactly if a newer connection's receiver is active and running |
| Client.BlockedWhileHealthy | client/client.c:244-260 | the main thread then handles nothing as long as that connection stays up |
| Client.StaleHappens | client/client.c:596-603 | an interleaving that leads there after a failed send |

## Left out

- Clock: the source reads the time once per packet or sweep; here each handler gets one reading, and the time at which the timestamp no longer fits 32 bits is reduced modulo 2^32.
- SQLite internals: the four statements act on tables; any of them may fail (`Trouble`), and a new row id may skip ahead by any gap. Schema creation, opening and closing the database are not modelled.
- Server receive: a partial read that fails is lost by the code and the connection kept; what the server receives next is therefore any well-formed packet, end, "try again" or failure (`Receipt`), not tied to the peer's bytes. `Comm` covers the blocking receiver.
- Server.ServerState.AcceptClient: a descriptor that is already in the table is treated as no connection, since the kernel does not hand one out; the "server is full" packet that is sent directly on the refused socket is not modelled.
- Ring.SendRing.Drain: the kernel's answers are a finite list, after which it takes no more; with the tail at 2048 and a kernel that accepts for ever the loop of the code does not end.
- Ring.SendRing.Enqueue: with head 0 and tail 2048 the unsigned space computation wraps and accepts any length; the contract asks that callers then pass at most 2047 bytes, which every packet does.
- Server.ServerState.HandleText: the branch for a text that is too long after it was stored is left out, since the text was measured before.
- Usernames are kept as the C string that all later uses see, not as the raw bytes after the first NUL.
- Poll failures, the shutdown flag, logging, and what happens to open sockets when the server stops: the model covers the loop while it runs.
- Client window: widgets, texts, address resolution and form validation; kept are the switches that enable the form and the send button, and the event queue. A socket is known by the number of its connection, and the contents of what the client sends are not modelled.
- Client memory model: each section under the lock, and each socket call, is one step.
