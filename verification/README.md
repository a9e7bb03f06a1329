# seatd in Dafny

seatd arbitrates access to a seat: it opens input and graphics devices on behalf of
its clients, lets one client at a time use them, and moves the seat from one client
to the next on request or when the virtual terminal (VT) changes. This project models
the daemon's seat logic, the message transport between daemon and library, the
library's side of that transport, and the event poller, and proves what they promise.

## How the model is built

**The seat as a transition system.** `SeatModel` is one total function for each C
function of `seatd/seat.c` and for each handler of `seatd/client.c`, on a value `World`.
What the kernel and the peer decide (a revoke that fails, a VT query, a send that fails)
is read from an `Env` given with each input. `Step` is one event of the main loop and
`Run` any sequence of them. Every effect appends an event to a log, so a property of the
log and all its prefixes also covers the points inside a handover.

**Reading the log.** `SeatTrace` reads the log without looking at the daemon's state:
which devices are accessible, where each client is in its life, how often a path was
opened. Access belongs to open files, named when a device is opened and never named
again, because a client's copy of a descriptor outlives the daemon's. `SeatInvariant` and
`SeatSafety` connect the two by an invariant that every step
keeps, `SeatTheorems` draws the conclusions about every run, `SeatRequests` says for each
request, connection and VT signal what it does to every client and who is told what, and
`SeatRuns` has runs that reach the cases in which the code does less than its comments say.

**The seat as objects.** `SeatObjects` has the same operations in the form the C code
has them: objects with fields, lists walked by loops. Each method is proved to change
the abstract value exactly as its function in `SeatModel` says, and the assertions of
the C code are proved where they stand. So the theorems about runs apply to the objects.

**Transport.** `RingBuffer` is the 256-byte ring with its wrapping 32-bit counters,
`Connections` the buffered socket with its descriptors, `Framing` the meaning of a byte
stream and the proof that it does not depend on how reads cut it up, `ClientLoop` the
daemon's read loop on a ring, and `Backend` the library's demultiplexer. `Daemon` puts the
read loop and the seat together.

**Event loop and helpers.** `Poller` has the event sources, the lazily rebuilt array and
a dispatch during which callbacks change the list at will; `LinkedList` and `Terminal`
are the intrusive lists and the FreeBSD terminal names.

### Where the code and its documentation differ

The model follows the code.

- The comment at `seatd/seat.c:313-317` says that an open device is reused when its path
  is opened again. The code counts the open and then returns NULL, so the request is
  answered with an error although the count went up: `SeatTheorems.ReopenIsCountedButRefused`,
  `SeatTheorems.OpenReturnsExactlyNewEntries` for the exact condition, and
  `SeatRuns.SecondOpenIsRefused` for a run.
- Sessions without VTs start at 0, but a switch to session 0 is refused
  (`seatd/seat.c:656`), so the first client of a seat can never be switched back to by
  number: `SeatTheorems.SwitchTarget`, and `SeatRuns.NoSwitchToSessionZero` for a run.
- The encoder accepts paths of up to 256 bytes with the NUL, but a message must fit the
  256-byte ring with 6 bytes in front of the path. Exactly the paths of more than 250
  bytes never come through: `Framing.RequestRoundTrip`, `Framing.LongPathNeverDelivered`.
- `connection_read` returns the number of bytes buffered. An end of stream is therefore
  seen only when nothing is buffered: `Connections.Connection.Read`,
  `ClientLoop.AfterReadIsFeed`.
- The loop at `seatd/seat.c:543-549` logs a failure for evdev and hidraw devices and none
  for wscons devices, but none of the three becomes active again; only DRM devices do:
  `SeatTheorems.OnlyDrmComesBack`, `SeatTheorems.OpenClientExactly`.
- Exclusive access holds only as far as devices are taken away. Two clients can have
  access at once if a revoke failed, or if a file is a wscons device, for which there is
  no revoke (`seatd/seat.c:458-460`), and in no other way: `SeatTheorems.ExclusiveAccess`,
  `SeatTheorems.WhatIsLeftOver`. `SeatRuns.WsconsIsShared` is a run in which nothing fails
  and two clients share a keyboard.
- Closing a device ignores a failed revoke (`seatd/seat.c:482-485`) and closes the daemon's
  descriptor only, so a client that has closed the seat may keep using a device:
  `SeatRuns.ClosingRevokeMayFail` is such a run, and `SeatTheorems.RemovalLeavesAccess`
  says exactly when.
- `read_until_response` gives up without an error when a poll fails or a read would block
  (`libseat/backend/seatd.c:274-299`), and then nobody pings for the events queued so far.
  A request ends with its events covered exactly if there is an error, the response was
  there, or what the wait took in is empty or covered already: the contracts of
  `Backend.Client.Ask` and `Backend.Client.OpenDevice`; `Backend.WakeupCanBeLost` is an
  input where it fails.
- The comment at `seatd/seat.c:26-29` promises a VT-bound seat one client session for
  each VT. A client whose terminal could not be opened stays on the list of a free seat,
  and a second client may then join on the same VT: `SeatRuns.TwoClientsOnOneVt` is
  such a run, and `SeatTheorems.OneClientPerVtInRuns` says exactly which runs keep the
  promise.

## Model

| member | source | states |
|---|---|---|
| SeatTheorems.ExclusiveAccess | seatd/seat.c:435-490 | at every point of every run, also inside a handover and after devices were closed and clients left, two clients have access at once only if one of the files was to be taken away and was not, because its revoke failed or there is none |
| SeatTheorems.OnlyTheHolderHasAccess | seatd/seat.c:529-608 | at every point of every run, access that is not left over in this way belongs to a client that is active or is just getting its devices back on its way to being enabled |
| SeatTheorems.WhatIsLeftOver | seatd/seat.c:439-467 | a wscons device stays accessible to the client that opened it for ever, without any revoke; whatever else is left over had a revoke that failed |
| SeatTheorems.AccessFromLastEvent | seatd/seat.c:435-522 | access is wanted exactly after a grant, stuck exactly after a failed revoke, and kept exactly after a mere unmarking, whether or not the device was closed |
| SeatTheorems.OnlyTheHolderHasActiveDevices | seatd/seat.c:578-608 | in every reachable state an active device of a client that is not the active one is one whose revoke failed; without failures there is none |
| SeatTheorems.AccessEndsFirst | seatd/seat.c:473-608 | when a client is told to disable, when an entry is dropped and when a client leaves, the access left is to exactly the files that were not taken |
| SeatTheorems.FilesNeverReused | seatd/seat.c:379-383 | an open file's name never occurred before |
| SeatTheorems.TeardownExactly | seatd/seat.c:260-265 | which access teardown leaves: what was left of closed files, and open ones exactly if there is no revoke for them or it fails |
| SeatTheorems.RemovalLeavesAccess | seatd/seat.c:251-291 | a client that is removed keeps its access to a file exactly if it had it and the file was closed before, cannot be revoked, or its revoke fails now |
| SeatTheorems.ActiveClientInvariant | seatd/seat.c:529-608 | in every reachable state the active and the queued client are members, no member is closed, and a client is active or pending exactly if it is the seat's active client: what the assertions of seat.c rely on |
| SeatTheorems.QueueInvariant | seatd/seat.c:647-701 | a queued client means a seat without VTs whose active client is another one and pending disable; the queued one can be opened |
| SeatTheorems.NoIdleSeat | seatd/seat.c:147-182 | a seat without VTs that has members has an active client, in every reachable state |
| SeatTheorems.SignalsCycle | seatd/client.c:461-485 | the signals exchanged with a client go round enable, disable, ack in this order, starting with enable, in every run |
| SeatTheorems.NeverBroken | seatd/seat.c:616-638 | no run makes a client leave the protocol's life cycle; devices are opened only while active and come back only while being enabled |
| SeatTheorems.LeavingIsFinal | seatd/seat.c:251-291 | a client that left is never enabled, disabled or acked again and never rejoins |
| SeatTheorems.EnabledOnTheCurrentVt | seatd/seat.c:147-182 | on a VT-bound seat a client is enabled only while its session is the current VT |
| SeatTheorems.NobodyActiveWhileReleased | seatd/seat.c:727-742 | between the release of the VT and the next query that finds one, no client is active |
| SeatTheorems.SessionsNeverReissued | seatd/seat.c:232-232 | without VTs each session number exceeds all handed out before, also to clients that are gone |
| SeatTheorems.SessionsDistinct | seatd/seat.c:192-242 | without VTs two members never share a session |
| SeatTheorems.DeviceTable | seatd/seat.c:322-428 | every table of every reachable state has distinct ids and paths, positive counts and at most 128 entries, and each count is the opens minus the closes of the path |
| SeatTheorems.OnlyDrmComesBack | seatd/seat.c:496-522 | a device that gets its access back without being opened anew is a DRM device |
| SeatTheorems.OpenClientExactly | seatd/seat.c:529-571 | opening makes this client active, sends it one enable with its session and the current VT and nobody else anything, leaves other clients and everything else alone and reactivates exactly its DRM devices |
| SeatTheorems.DisableClientExactly | seatd/seat.c:578-608 | disabling sends one disable, leaves other clients alone, and only devices whose revoke failed stay active |
| SeatTheorems.CloseDeviceExactly | seatd/seat.c:473-490 | a close takes one reference, and the entry if it was the last; the rest of the table stays |
| SeatTheorems.FindDeviceExactly | seatd/seat.c:296-311 | an id is found at a position exactly if the entry there has it |
| SeatTheorems.ActivateFromExact | seatd/seat.c:543-549 | the loop makes every DRM device active and changes no other |
| SeatTheorems.DeactivateFromExact | seatd/seat.c:591-597 | the loop deactivates every device except those whose revoke fails |
| SeatTheorems.ReopenIsCountedButRefused | seatd/seat.c:356-364 | opening a path that is open adds a reference and returns nothing; one close undoes it |
| SeatTheorems.OpenReturnsExactlyNewEntries | seatd/seat.c:322-428 | exactly when an open returns a device; that it is then a new entry at the head, with the next id after the newest device's; and that a failed open of an unknown path changes nothing |
| SeatTheorems.FreshIdIsNext | seatd/seat.c:354-371 | the id chosen is 1 for an empty table and else one more than the newest entry's |
| SeatTheorems.EachClientOnOneList | seatd/client.c:77-128 | each connected client is on exactly one list, once: the seat's or the idle one; no list holds a freed client |
| SeatTheorems.SwitchTarget | seatd/seat.c:647-701 | in every reachable state a switch queues a client exactly if the active client asks for a positive session of another member; the target is unique |
| SeatTheorems.SessionZeroIsNeverQueued | seatd/seat.c:656-660 | the queued client never has session 0 |
| SeatTheorems.CandidateCanBeOpened | seatd/seat.c:147-182 | whoever seat_activate chooses is a member, new or disabled, and on the current VT if there are VTs; none is chosen only if there is none |
| SeatTheorems.QueuedClientIsServed | seatd/seat.c:616-701 | whatever happens next, a queued client stays queued behind the same client, or takes the seat, or is gone |
| SeatTheorems.RemovalHandsOn | seatd/seat.c:251-291 | when the active client leaves, the seat goes to its heir: without VTs the queued client, else the member that joined last; with VTs the first member on the current VT, if it is known and its terminal opens; otherwise the seat stays where it is |
| SeatTheorems.AckHandsOn | seatd/seat.c:616-638 | an ack counts exactly in the pending state and then passes the seat to the heir, with VTs and without; any other changes nothing |
| SeatTheorems.HeirIsOpened | seatd/seat.c:147-182 | seat_activate hands a free seat to its heir, for both kinds of seat |
| SeatTheorems.AddClientExactly | seatd/seat.c:192-242 | exactly when a client may join, and the whole state after it: first on the list, off the idle list, with the VT or the counter as its session; a refused join changes at most what is known of the VT |
| SeatTheorems.VtReleaseExactly | seatd/seat.c:727-742 | after a release nobody holds the seat, the members stay, and the VT is unknown |
| SeatTheorems.VtActivateExactly | seatd/seat.c:708-720 | a free seat is taken exactly if the VT is known, its terminal opens and it is some member's session; the first such member takes it |
| SeatTheorems.JoiningKeepsOneClientPerVt | seatd/seat.c:212-230 | joining keeps one client for each VT exactly if no member has the VT, which holds whenever the seat has an active client |
| SeatTheorems.StepOneClientPerVt | seatd/seat.c:212-230 | of all inputs only a client that joins on a taken VT and stays ends one client for each VT |
| SeatTheorems.OneClientPerVtInRuns | seatd/seat.c:26-27 | a run keeps one client for each VT throughout exactly if nobody joins on a taken VT and stays |
| SeatRequests.OpenSeatExactly | seatd/client.c:163-198 | succeeds exactly if the client may join and the reply was written; a client that joins a free seat is active and was sent one enable, with VTs and without, unless its terminal does not open; on a taken seat it stays new; nobody else notices |
| SeatRequests.CloseSeatExactly | seatd/client.c:200-219 | the client is closed, without devices and parked on the idle list; the seat goes to its heir if the client was active; without a seat the request fails |
| SeatRequests.OpenDeviceRequestExactly | seatd/client.c:221-263 | a new entry stays exactly if its descriptor could be duplicated; an open path is counted; anything else changes nothing; the connection is lost only if the reply or the new descriptor could not be queued |
| SeatRequests.CloseDeviceByIdExactly | seatd/client.c:265-297 | one reference of the device with that id is given up, and the entry with the last one; every other entry stays; an unknown id changes nothing; only the reply decides whether the client stays |
| SeatRequests.CloseTakesAccess | seatd/seat.c:473-490 | a close takes the access to exactly one file: that of the entry whose last reference it was, if there is a revoke for it that works |
| SeatRequests.SwitchExactly | seatd/client.c:299-323 | queues exactly the member the session belongs to and tells the caller to disable; a refused switch changes nothing and does not cost the connection |
| SeatRequests.SwitchAnswer | seatd/seat.c:647-701 | exactly when a switch is reported as done |
| SeatRequests.AckExactly | seatd/client.c:325-349 | an ack in the pending state disables the client and hands the seat to the heir, which alone is enabled; any other changes nothing and does not cost the connection |
| SeatRequests.SuccessExactly | seatd/client.c:365-459 | for each request exactly when its handler succeeds |
| SeatRequests.RemovalExactly | seatd/seat.c:251-291 | what becomes of every client and list when a member is removed |
| SeatRequests.HandoverExactly | seatd/seat.c:147-182 | a free seat goes to its heir, which gets its DRM devices back and one enable; everybody else is left alone |
| SeatRequests.ConnectExactly | seatd/client.c:77-101 | a new client gets an identity nobody has had and heads the idle list; nobody else notices |
| SeatRequests.DestroyExactly | seatd/client.c:103-128 | a destroyed client is on no list, and the others are as after a removal |
| SeatRequests.VtAcquiredExactly | seatd/seat.c:708-720 | the VT is looked up and a free seat goes to its heir; a taken one stays as it is |
| SeatRequests.VtReleasedExactly | seatd/seat.c:727-742 | the holder gives up its devices and is told to disable, nobody else notices, and the VT is unknown |
| SeatRuns.TwoClientsOnOneVt | seatd/seat.c:212-230 | a run that ends with two members on one VT |
| SeatRuns.ClosingRevokeMayFail | seatd/seat.c:473-490 | a run after which a client that closed the seat and another that opened the same device both have access |
| SeatRuns.WsconsIsShared | seatd/seat.c:458-460 | a run without a failed revoke after which a disabled client and the active one both have access to one keyboard |
| SeatRuns.SecondOpenIsRefused | seatd/seat.c:356-364 | a run in which the second open of a path is counted and returns nothing |
| SeatRuns.NoSwitchToSessionZero | seatd/seat.c:656-660 | a run in which the first client has session 0, hands the seat on, and cannot be switched back to |
| SeatSafety.StepKeeps | seatd/server.c:80-102 | every input keeps the invariant of the seat and of the log |
| SeatSafety.AlwaysSettled | seatd/server.c:80-102 | the invariant holds after every sequence of inputs |
| SeatSafety.HandleKeeps | seatd/client.c:365-459 | every request keeps the invariant, up to the destruction of its client |
| SeatSafety.OpenClientKeeps | seatd/seat.c:529-571 | opening a member on a free seat keeps the invariant |
| SeatSafety.DisableClientKeeps | seatd/seat.c:578-608 | disabling the active client keeps the invariant |
| SeatSafety.AckDisableKeeps | seatd/seat.c:616-638 | the ack and the handover it causes keep the invariant |
| SeatSafety.RemoveClientKeeps | seatd/seat.c:251-291 | removing any member, active, queued or not, keeps the invariant |
| SeatSafety.DestroyKeeps | seatd/client.c:103-128 | destroying any client keeps the invariant and leaves no trace of it in the lists |
| SeatSafety.AddClientKeeps | seatd/seat.c:192-242 | joining keeps the invariant, including the history of sessions |
| SeatSafety.SetNextSessionKeeps | seatd/seat.c:647-701 | a switch request keeps the invariant |
| SeatSafety.VtReleaseKeeps | seatd/seat.c:727-742 | a VT release keeps the invariant |
| SeatSafety.VtActivateKeeps | seatd/seat.c:708-720 | a VT activation keeps the invariant |
| SeatInvariant.OpenDeviceKeeps | seatd/seat.c:322-428 | opening keeps the table and its agreement with the log |
| SeatInvariant.CloseNthKeeps | seatd/seat.c:473-490 | closing keeps the table and its agreement with the log |
| SeatInvariant.TeardownKeeps | seatd/seat.c:260-265 | the teardown loop empties the table and keeps the agreement with the log |
| SeatInvariant.FreshIdAbove | seatd/seat.c:352-371 | the id chosen is larger than every id in the table |
| SeatModel.CloseShrinks | seatd/seat.c:260-265 | closing the first device brings the teardown loop closer to its end |
| SeatTrace.UnbrokenLifeCycles | include/client.h:13-19 | a life without a protocol violation is a walk round the cycle, and its length tells the state |
| SeatTrace.ClosedIsAbsorbing | include/client.h:13-19 | nothing follows the end of a client's life |
| SeatObjects.Seat.constructor | seatd/seat.c:34-46 | a new seat is the initial state |
| SeatObjects.Client.constructor | seatd/client.c:90-100 | a new client is new, without session, seat and devices |
| SeatObjects.Seat.DeactivateDevice | seatd/seat.c:435-467 | changes the seat as the specification says; succeeds exactly if the device ends up inactive |
| SeatObjects.Seat.DeactivateDevices | seatd/seat.c:591-597 | the loop changes the seat as the specification says |
| SeatObjects.Seat.ActivateDevice | seatd/seat.c:496-522 | changes the seat as the specification says; fails exactly for what must be reopened |
| SeatObjects.Seat.ActivateDevices | seatd/seat.c:543-549 | the loop changes the seat as the specification says |
| SeatObjects.Seat.CloseDevice | seatd/seat.c:473-490 | changes the seat as the specification says |
| SeatObjects.Seat.CloseDevices | seatd/seat.c:260-265 | the loop ends, with an empty table, as the specification says |
| SeatObjects.Seat.FindDevice | seatd/seat.c:296-311 | the search by id returns what the specification finds |
| SeatObjects.Seat.OpenDevice | seatd/seat.c:322-428 | changes the seat and returns as the specification says; the assertion on the active client holds |
| SeatObjects.Seat.UpdateVt | seatd/seat.c:67-75 | records the VT found, or nothing if tty0 cannot be opened |
| SeatObjects.Seat.OpenClient | seatd/seat.c:529-571 | changes the seat as the specification says |
| SeatObjects.Seat.DisableClient | seatd/seat.c:578-608 | changes the seat as the specification says; both assertions hold |
| SeatObjects.Seat.FindMember | seatd/seat.c:162-170 | the walk over the list finds the first member with the session |
| SeatObjects.Seat.ActivateSeat | seatd/seat.c:147-182 | changes the seat as the specification says; whoever is opened belongs to the seat |
| SeatObjects.Seat.AddClient | seatd/seat.c:192-242 | changes the seat as the specification says |
| SeatObjects.Seat.RemoveClient | seatd/seat.c:251-291 | changes the seat as the specification says |
| SeatObjects.Seat.AckDisable | seatd/seat.c:616-638 | changes the seat as the specification says |
| SeatObjects.Seat.SetNextSession | seatd/seat.c:647-701 | changes the seat as the specification says; the assertion holds |
| SeatObjects.Seat.VtActivate | seatd/seat.c:708-720 | changes the seat as the specification says and keeps the invariant |
| SeatObjects.Seat.VtRelease | seatd/seat.c:727-742 | changes the seat as the specification says and keeps the invariant |
| SeatObjects.Seat.Connect | seatd/client.c:77-101 | a new client at the head of the idle list; keeps the invariant |
| SeatObjects.Seat.Destroy | seatd/client.c:103-128 | changes the seat as the specification says, keeps the invariant, and the devices are gone as the assertion says |
| SeatObjects.Seat.HandleOpenSeat | seatd/client.c:163-198 | changes the seat and fails as the specification says |
| SeatObjects.Seat.HandleCloseSeat | seatd/client.c:200-219 | changes the seat and fails as the specification says |
| SeatObjects.Seat.HandleOpenDevice | seatd/client.c:221-263 | changes the seat and fails as the specification says |
| SeatObjects.Seat.HandleCloseDevice | seatd/client.c:265-297 | changes the seat and fails as the specification says |
| SeatObjects.Seat.HandleSwitchSession | seatd/client.c:299-323 | changes the seat and fails as the specification says |
| SeatObjects.Seat.HandleDisableSeat | seatd/client.c:325-349 | changes the seat and fails as the specification says |
| SeatObjects.Seat.HandleOpcode | seatd/client.c:365-459 | each request reaches its handler |
| SeatObjects.Seat.HandleMessage | seatd/client.c:487-544 | a request is one step of the transition system: handled, flushed, and its client destroyed if either fails; the invariant is kept |
| SeatObjects.Seat.Disconnect | seatd/client.c:487-497 | a hangup is one step of the transition system |
| RingBuffer.CellAt | common/connection.c:11-13 | where a byte of the queue lies in the data |
| RingBuffer.RestoreUndoesConsume | common/connection.c:19-25 | restoring what was consumed brings back the same queue, also where counters wrap |
| RingBuffer.FreeCellsAreElsewhere | common/connection.c:55-73 | free cells and queued cells never overlap |
| RingBuffer.AppendWindow | common/connection.c:92-109 | filling the cells behind the queue appends to it |
| RingBuffer.Ring.constructor | include/connection.h:11-14 | an empty ring |
| RingBuffer.Ring.Consume | common/connection.c:19-21 | drops a prefix of the queue |
| RingBuffer.Ring.Restore | common/connection.c:23-25 | puts the bytes in front of the queue back |
| RingBuffer.Ring.GetIov | common/connection.c:31-49 | one or two segments that cover exactly the queued bytes, in order |
| RingBuffer.Ring.PutIov | common/connection.c:55-73 | one or two segments that cover exactly the free cells, in order |
| RingBuffer.Ring.Copy | common/connection.c:78-88 | returns a prefix of the queue and keeps it |
| RingBuffer.Ring.Put | common/connection.c:92-109 | appends the bytes, or nothing if they exceed the ring |
| RingBuffer.Ring.Receive | common/connection.c:200-210 | what the kernel scatters into the segments is appended |
| Wire.U16RoundTrip | include/protocol.h:33-36 | a 16-bit field reads back |
| Wire.U16Exact | include/protocol.h:33-36 | and is the only encoding of its value |
| Wire.IntRoundTrip | include/protocol.h:43-49 | an int field reads back, negative ones included |
| Wire.IntExact | include/protocol.h:43-49 | and is the only encoding of its value |
| Wire.IntsRoundTrip | common/connection.c:114-149 | a ring of descriptors reads back in order |
| Connections.AdmitConserves | common/connection.c:151-177 | all descriptors received are queued if there is room for them, and an overflow is reported exactly if not; each is then queued or closed, exactly one of the two, in order |
| Connections.AdmitExactly | common/connection.c:151-177 | what is queued is the longest run of whole leading messages that fits, and the rest is closed |
| Connections.OverflowExactly | common/connection.c:159-176 | whatever is queued already, an overflow is reported exactly if descriptors come that there is no room for |
| Connections.Connection.constructor | include/connection.h:16-21 | a new connection has empty buffers and an empty ledger |
| Connections.Connection.CloseFds | common/connection.c:114-127 | closes every descriptor of the ring once, in order |
| Connections.Connection.BuildCmsg | common/connection.c:132-149 | attaches all waiting descriptors in order |
| Connections.Connection.Flush | common/connection.c:215-250 | what is sent is the queue's prefix, descriptors go with the first bytes, and success means that all that was accepted was sent; the ledger of bytes and descriptors balances |
| Connections.Connection.SendOnce | common/connection.c:221-246 | one round sends a prefix with all descriptors, or changes nothing |
| Connections.Connection.Put | common/connection.c:252-266 | all bytes are accepted or none, and nothing unsent is overwritten |
| Connections.Connection.PutFd | common/connection.c:268-275 | queues the descriptor exactly if fewer than 64 wait |
| Connections.Connection.Get | common/connection.c:277-285 | takes a prefix if there is enough, else nothing, and leaves it restorable |
| Connections.Connection.Restore | common/connection.c:306-308 | puts bytes back in front |
| Connections.Connection.GetFd | common/connection.c:287-295 | takes the first descriptor |
| Connections.Connection.CloseAllFds | common/connection.c:297-300 | every descriptor ever queued has then been sent or closed, once |
| Connections.Connection.DecodeCmsg | common/connection.c:151-177 | succeeds exactly if there is room for all descriptors, and then queues them all in order and closes none; else queues the longest run of whole messages that fits and closes the rest |
| Connections.Connection.Read | common/connection.c:179-213 | appends what arrived, all bytes and descriptors, or fails without touching the bytes, exactly if the ring was full, the read failed or there is no room for the descriptors; zero exactly at an end of stream with nothing buffered |
| Framing.DrainIsParse | seatd/client.c:527-536 | on what fits the ring the loop does what the stream means |
| Framing.ParseAppend | seatd/client.c:527-536 | reading on from where reading stopped is reading the whole |
| Framing.ParseStopsAtIncomplete | seatd/client.c:528-532 | what is left over is an incomplete message or one that cannot fit |
| Framing.ChunkingIndependence | seatd/client.c:510-536 | however reads cut the stream, the same requests are dispatched, and the bytes left over are the same; a client is dropped only for a bad or refused message or one that cannot fit |
| Framing.RoomForTheNextRead | seatd/client.c:511-515 | the ring is never full before a read unless a message cannot fit |
| Framing.AcceptsOnlyEncodings | seatd/client.c:365-459 | every message accepted is the encoding of the request it is taken for |
| Framing.PayloadDecodes | libseat/backend/seatd.c:511-634 | every encoded request is understood |
| Framing.RequestRoundTrip | libseat/backend/seatd.c:511-547 | an encoded request is the next one dispatched unless its path exceeds 250 bytes, and then it never is |
| Framing.LongPathNeverDelivered | libseat/backend/seatd.c:517-521 | no way of cutting the stream delivers such a path or anything behind it, while what was sent before it arrives |
| Framing.ParseOfEncodings | seatd/client.c:527-536 | a stream of encoded requests means those requests |
| Framing.RefusedRequestEndsIt | seatd/client.c:533-535 | a request whose handler fails is the last one dispatched |
| Framing.BadMessageEndsIt | seatd/client.c:365-459 | a complete message that encodes no request ends the conversation, and nothing of it is dispatched |
| Framing.RequestsArrive | seatd/client.c:510-536 | requests that fit arrive complete, in order and once each, however the stream is cut |
| ClientLoop.AfterReadIsFeed | seatd/client.c:510-526 | reads that deliver bytes are the steps of the chunking theorem; one that would block changes nothing; an end of stream is fatal only with nothing buffered |
| ClientLoop.WhichReadsAreFatal | seatd/client.c:510-526 | exactly which reads are fatal: the ring was full, the read failed for good, there was no room for the descriptors, or the stream ended with nothing buffered |
| ClientLoop.AfterReadKeeps | seatd/client.c:510-526 | every outcome of a read keeps the agreement with the chunks read so far |
| ClientLoop.ClientConnection.LoopIsParse | seatd/client.c:510-536 | after any number of readable events on the ring, what was dispatched is what the stream means, and what is buffered is its rest |
| ClientLoop.ClientConnection.GetPath | seatd/client.c:384-411 | the checks accept exactly the encodings of a path and consume them |
| ClientLoop.ClientConnection.GetInt | seatd/client.c:412-433 | an int payload is read and consumed exactly if its size is right |
| ClientLoop.ClientConnection.GetRequest | seatd/client.c:365-459 | the checks on the ring accept what the specification decodes and consume it |
| ClientLoop.ClientConnection.NextHeader | seatd/client.c:527-532 | takes a header, or puts it back if the message is incomplete |
| ClientLoop.ClientConnection.Dispatch | seatd/client.c:527-536 | the loop dispatches what the specification drains and leaves the rest |
| ClientLoop.ClientConnection.HandleReadable | seatd/client.c:510-544 | a readable event does what the specification says for every outcome of the read, and keeps the agreement with the chunks |
| Daemon.VerdictIsTheHandlers | seatd/client.c:455-459 | after a request the client is there exactly if its handler succeeded, under conditions given for each request, and its replies could be sent |
| Daemon.SeatFollowsTheStream | seatd/client.c:510-544 | however the reads cut a client's stream, and whatever others do in between, the seat is in the state that the stream's requests lead to |
| Daemon.CutsDoNotMatter | seatd/client.c:510-536 | two ways of cutting one stream lead to one state of the seat |
| Daemon.RequestsReachTheSeat | seatd/client.c:510-544 | the encoded requests of the library lead the seat where those requests lead it |
| Daemon.SeatFollowsTheRing | seatd/client.c:510-544 | the same after any number of readable events on the ring |
| Backend.ScanAppend | libseat/backend/seatd.c:229-267 | looking twice finds what looking once finds |
| Backend.ScanFindsBackground | libseat/backend/seatd.c:229-267 | any mix of events and pongs in front of a response is found exactly |
| Backend.AbsorbAppend | libseat/backend/seatd.c:301-320 | taking in background messages before or after more arrives makes no difference |
| Backend.AwaitIsOneRead | libseat/backend/seatd.c:301-320 | however the polls cut the stream up, a wait comes to what one read of it all comes to, so each event is queued once; the response is there exactly if what was brought before the first poll that stops the wait reaches it, and that poll decides whether the connection is lost or the request given up |
| Backend.PollIntoExactly | libseat/backend/seatd.c:269-299 | for each kind of poll whether it brings something, nothing, ends the wait or ends the connection |
| Backend.IdlePollsDoNotMatter | libseat/backend/seatd.c:275-277 | a poll that was interrupted or found nothing makes no difference to a wait |
| Backend.WhatEndsAWait | libseat/backend/seatd.c:269-299 | a hangup or an end of stream with nothing buffered breaks a wait; a failing poll(2) or a read that would block only ends it |
| Backend.WakeupCanBeLost | libseat/backend/seatd.c:301-320 | an unread enable event and a failing poll: the wait gives up with the event pending and no ping under way |
| Backend.ReplyIsFound | libseat/backend/seatd.c:301-320 | behind any mix of events and pongs the response is read back whole with its descriptor, and each event is queued once, in order |
| Backend.ReplyDecodes | libseat/backend/seatd.c:153-184 | a message at the front is taken as the reply exactly if it has the opcode and size asked for and its descriptor is there; an error message refuses the request; exactly that message is taken |
| Backend.OnlyRepliesAreTaken | libseat/backend/seatd.c:153-184 | what is taken for a reply is a message of the opcode and size asked for |
| Backend.DeviceDecodes | libseat/backend/seatd.c:536-543 | the answer to open_device is the id in the message and the descriptor beside it |
| Backend.AnsweredExactly | libseat/backend/seatd.c:549-634 | each of the other requests is granted exactly by its own message of the server |
| Backend.QueueBalanced | libseat/backend/seatd.c:186-196 | queueing keeps the account of events |
| Backend.ExecuteBalanced | libseat/backend/seatd.c:198-227 | executing one keeps the account of events |
| Backend.Client.SetError | libseat/backend/seatd.c:106-113 | the first error drops the pending events and closes all descriptors, received and waiting; later ones change nothing |
| Backend.Client.QueueEvent | libseat/backend/seatd.c:186-196 | the event goes to the head of the list |
| Backend.Client.ReadAndQueue | libseat/backend/seatd.c:229-267 | takes in exactly the background messages in front, and reports the complete response behind them |
| Backend.Client.ReadConnection | common/connection.c:179-213 | the bytes that fit and all descriptors are added to what is unread; fails exactly if the ring was full, the read failed, or there is no room for the descriptors |
| Backend.Client.PollConnection | libseat/backend/seatd.c:269-299 | for each kind of poll: nothing happens for a quiet or interrupted one; the call fails without an error if poll(2) failed or the read would block; an error for a hangup, an end of stream or a read that failed; else what arrived is added |
| Backend.Client.ConnFlush | libseat/backend/seatd.c:124-131 | success means that all that was accepted was sent; failure is an error and means that bytes stay unsent |
| Backend.Client.ConnPut | libseat/backend/seatd.c:115-122 | the bytes are accepted, or it is an error |
| Backend.Client.ConnGet | libseat/backend/seatd.c:133-141 | a prefix is taken, or it is an error |
| Backend.Client.ReadUntilResponse | libseat/backend/seatd.c:301-320 | everything accepted was sent, and the outcome and what is unread are those of a wait over these polls, also if it gives up; an error means a broken stream or unsent bytes |
| Backend.Client.ReadHeader | libseat/backend/seatd.c:153-184 | accepts exactly the header asked for; an error reply is consumed without breaking the connection |
| Backend.Client.SendPing | libseat/backend/seatd.c:478-487 | a ping is sent, or it is an error |
| Backend.Client.CheckPendingEvents | libseat/backend/seatd.c:489-509 | no wakeup is lost: an event that waits is covered by a ping whose pong has not been read, and at most one ping is sent; what is unread is given exactly, and a new error means a stray response or unsent bytes |
| Backend.Client.ExecuteEvents | libseat/backend/seatd.c:198-227 | every event taken over is executed once, in list order, while callbacks make requests and dispatch again; waiting events are covered afterwards unless a request of a callback was given up |
| Backend.Client.Reenter | libseat/backend/seatd.c:210-221 | callbacks that call back into the library keep the account of events |
| Backend.Client.ReadForDispatch | libseat/backend/seatd.c:345-353 | what a dispatch reads, at once or after a poll |
| Backend.Client.Dispatch | libseat/backend/seatd.c:327-371 | everything pending and at the front of what is unread is executed, then what more was read; the result, what is unread and what was executed are given exactly for a listener that does not call back; waiting events stay covered |
| Backend.Client.TakeReply | libseat/backend/seatd.c:536-543 | the reply is the payload and descriptor at the front; what remains, and when it is an error, is given exactly |
| Backend.Client.Exchange | libseat/backend/seatd.c:530-546 | the request was sent whole and the reply is the first message delivered by these polls that is no background message; what is unread afterwards, when there is an error, and exactly when waiting events are covered |
| Backend.Client.OpenDevice | libseat/backend/seatd.c:511-547 | sends the encoding of the request, or refuses a path that is too long; returns the id and descriptor of the response delivered by these polls; says exactly when waiting events are covered |
| Backend.Client.Ask | libseat/backend/seatd.c:549-634 | the same for the requests with an empty response; negative ids and sessions are refused |
| Poller.MasksAgree | seatd/poller.c:203-229 | readiness is asked for and reported in the same terms; errors and hangups are reported unasked |
| Poller.BitsOf | seatd/poller.c:203-229 | the bits of a mask are those it is put together from |
| Poller.AddKeeps | seatd/poller.c:118-134 | adding keeps the invariant |
| Poller.KillKeeps | seatd/poller.c:136-143 | destroying keeps the invariant |
| Poller.SetMaskKeeps | seatd/poller.c:145-151 | updating keeps the invariant |
| Poller.RebuildKeeps | seatd/poller.c:231-276 | rebuilding keeps the invariant; the slots then belong to the live sources one to one and ask for their masks |
| Poller.LiveIsAsked | seatd/poller.c:248-262 | the next poll asks the kernel for each live source's descriptor, for reading and writing exactly as the mask given last does |
| Poller.LiveSurvive | seatd/poller.c:248-262 | every source that was not destroyed stays |
| Poller.SurvivorsKeepOrder | seatd/poller.c:248-262 | those that stay keep their order |
| Poller.RebuildingStep | seatd/poller.c:248-262 | each live source has room for its slot: the assertion in the loop |
| Poller.RebuildingEnds | seatd/poller.c:263-263 | every counted source has a slot: the assertion after the loop |
| Poller.KilledIsNeverCalled | seatd/poller.c:295-307 | a destroyed source is never called again |
| Poller.FreedOnce | seatd/poller.c:250-253 | a source is freed at most once, and only after it was destroyed |
| Poller.FreeKilledPhase | seatd/poller.c:250-253 | a rebuild frees exactly the destroyed sources |
| Poller.Poller.constructor | seatd/poller.c:71-93 | a new poller satisfies the invariant |
| Poller.Poller.AddFd | seatd/poller.c:118-134 | a new source at the head of the list with this descriptor and mask, live and without a slot; the array is to be rebuilt |
| Poller.Poller.Destroy | seatd/poller.c:136-143 | this source is marked and no longer counted, every other one is unchanged, and the array is to be rebuilt |
| Poller.Poller.Update | seatd/poller.c:145-151 | this source has the new mask, every other one is unchanged, and the array is to be rebuilt |
| Poller.Poller.Regenerate | seatd/poller.c:231-276 | unlinks and frees the destroyed sources and gives each other one its slot, in list order |
| Poller.Poller.Dispatch | seatd/poller.c:278-308 | while signal and descriptor callbacks add, update and destroy: each source with events is called once, in list order, with its own descriptor and events, unless it was destroyed before its turn; nobody else is |
| Poller.HitsRightMore | seatd/poller.c:295-307 | a source that was skipped although it had events was destroyed before the first call after its turn |
| Poller.CallAtItsPlace | seatd/poller.c:295-307 | the call of a source stands behind those of the sources before it, with its descriptor and the events reported for it |
| Poller.Poller.Poll | seatd/poller.c:310-327 | the kernel is asked for the signal pipe and for each live source's descriptor, reading and writing as its current mask says, and the calls are those of the dispatch |
| SeatSafety.WithoutIsUnlinking | common/linked_list.c:22-29 | removing a client from the seat's list leaves what unlinking its node leaves of the ring |
| LinkedList.Init | common/linked_list.c:7-10 | an empty list |
| LinkedList.Insert | common/linked_list.c:12-20 | the element goes to the front |
| LinkedList.Remove | common/linked_list.c:22-29 | the ring without the node, in the same order |
| LinkedList.Empty | common/linked_list.c:31-34 | true exactly for the empty list |
| LinkedList.Take | common/linked_list.c:36-46 | all elements of the source go to the front of the target, in order |
| Terminal.DigitsLength | common/terminal.c:106-120 | how many digits a number has |
| Terminal.ValueOfDigits | common/terminal.c:106-120 | the digits read back |
| Terminal.NamesAreInjective | common/terminal.c:73-76 | names read back; two terminals share a name exactly if they are the same or are 0 and 1 |
| Terminal.WriteDigits | common/terminal.c:106-120 | writes the digits in reverse, and fails exactly if there are more than six |
| Terminal.ReverseDigits | common/terminal.c:122-129 | reverses the digits in place |
| Terminal.GetTtyPath | common/terminal.c:39-133 | succeeds exactly up to terminal 2^30 and then writes the canonical name |

## Left out

- System calls: their outcomes are inputs (`Env`, `Received`, `Polled`, the answer of poll). A call that is retried after an interrupt appears with its last outcome.
- The configuration of terminals (`vt_open`, `vt_close`, `vt_ack`, `vt_switch`): only success or failure is modelled, not the ioctls and their order.
- Path resolution and device classes (`realpath`, the `path_is_` functions): the canonical path and class are inputs.
- Device descriptors: opening and duplicating them succeeds or fails; their numbers are not tracked, nor is the duplicate lost when it cannot be queued (`seatd/client.c:240-243`). Access counts from the open on, whether or not the client's copy arrived.
- Allocation failure, and overflow of the session counter, of reference counts and of device ids.
- Peer credentials, the server's listening socket, `server_finish`, `seat_destroy`, `poller_finish` and `seatd.c`.
- More than one seat: the daemon has only one.
- Signals: the two VT signals are inputs of the seat, and a caught signal runs arbitrary callbacks in the poller; handlers and dispositions are not modelled.
- The encoding of the daemon's responses by the handlers, and their place in its output buffer; only whether they could be written.
- Ownership between `ClientLoop` and `SeatObjects`: `Daemon` joins the read loop with the seat's transition system, which the objects refine, and not the two kinds of objects.
- `open_seat` and `close_seat` of the library, which put the same steps together and then create or destroy the connection.
- The order in which the library executes events: the code inserts at the head and executes from the head, so events that were queued together run last to first.
- The writable half of `client_handle_connection` and the mask updates of `client_flush`: only whether a flush succeeded is modelled. That the next poll asks for a mask set there is `Poller.LiveIsAsked`.
- The logind and noop backends, `libseat.c`, `seatd-launch` and logging: none of them takes part in the protocol between daemon and library.
- Struct padding and byte order: fields are little-endian without gaps.
- Connections.Connection.SendMsg: assumes that a send that succeeds takes at least one byte.
- Backend.Client.ReadUntilResponse: does not model an unbounded wait; the polls made are given, and running out of them is reported as still waiting.
- Lists of the daemon are sequences and its device entries values; the links between the nodes are modelled in `LinkedList` only.
- Backend.Client.Dispatch: what is read and executed after a callback made requests is given by the account of events only, because each request adds what the peer answers and may fail to be sent.
- Poller.Poller.Destroy: assumes that a source is destroyed once, as its callers do; the code would count a second destruction again.
- Poller.Poller.Dispatch: callbacks do any number of additions, updates and destructions but do not poll themselves; new slots start zeroed.
- Terminal.GetTtyPath: the FreeBSD variant only; the others format a number.
