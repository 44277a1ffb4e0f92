# A verified model of the fabric shim, its transport and its protocol

This Dafny project models three layers of the repository and proves how they behave under every
answer the libfabric provider may give.

**The shim** (`handles.dfy`, `shim.dfy`). Handles are classes with the fields of the C structs: reference
counts, flags, and the intrusive list of operations in flight that every completion queue keeps. `World` has one
method per C function. Its `Valid()` says that this heap spells out a mathematical *resource graph*
(`graph.dfy`) which has no counters and no pointers: who depends on whom is read off the live sets, each queue
owns a sequence, and a log records every successful submission with its fate. Every method's contract equates the
new graph and the returned code with a function of the old graph and the provider's answers (`shim_spec.dfy`).

`Inv` is the invariant of the graph: no live handle points at a freed one; a queue is attached exactly while a live
endpoint uses it; lists are duplicate-free, disjoint, within capacity, and hold exactly the operations that fly on
them; every range in flight lies inside its live region, with the right access; pending submissions and operations in
flight correspond one to one. `Linked` adds that every counter equals the number of live dependants or borrowers.

**Runs** (`runs.dfy`, `ledger.dfy`, `freeze.dfy`, `teardown.dfy`). Because the contracts are equations on graphs,
theorems about sequences of calls are proved on graphs and hold for every program that uses the shim: conservation
of submissions, freeze and drain, borrows returned once, rollback of composite opens, and the universal teardown order.

**The transport** (`ownership.dfy`, `transport.dfy`). `Connection`, `Slot`, `Request`, `ListeningSide` and
`FabricSide` follow the Rust types and are proved against the contracts of `World` only. `Owns` says what a connection
owns in the resource graph, `SameRest` that a call changes nothing else, so several connections and a listener
share one world without disturbing each other; `Tracked` relates the `pending` flags of its two slots to the shim's ledger.

**The C example** is a second client of the shim. `pingpong.dfy` is its cleanup, which closes every handle once, whatever
failed before. `pingpong_session.dfy` says what opens, posts and polls do to a graph that holds one session and nothing
else. `pingpong_program.dfy` is the program: its polling loops are proved equal to functions of the graph and the
provider's answers, its two conversations are proved from them, and `Run` goes from the empty process to the cleanup.

`answers.dfy` states the codes and results of the main calls case by case on the fields that the caller and the provider
fill in, without the functions the calls are specified by.

**The protocol** (`exchange.dfy`, `history.dfy`, `protocol.dfy`, `progress.dfy`, `binding.dfy`). The two application loops
are proved equal to pure round functions. `history.dfy` describes them once more without any state, by the events polled and
the messages sent so far, for arbitrary rounds: what they accept, what they submit when, and how they end.
The product of client, server and link is a transition system whose turns are those rounds. `binding.dfy` relates the ports of that system to the transport's connections: with a provider that shows what
the link did and nothing else, a round of either program on a connection is a turn of the system.

## Assumptions

- The provider is unconstrained in the shim, the transport and the cleanup: its return codes, completion contexts,
  lengths and error values are parameters of the methods. A context is the identity of an operation or null.
- Identities are not reused: a handle that an open returns is none of the handles that existed before. Theorems about
  runs say so where they need it (`NeverReopened`).
- Errno values are libfabric's on Linux: the system values below 256, `FI_EOPBADSTATE` = 258, `FI_EAVAIL` = 259. So are
  the mode bits `FI_CONTEXT` (bit 59) and `FI_LOCAL_MR` (bit 55).
- A caller passes null or live handles, as `naive/fabric_shim.h:21-24` demands.
- Joint protocol only: delivery is reliable and in order; a message is placed only in a receive buffer its peer has
  posted; a send completes only after its message was placed; a placed message's completion arrives, and entries stay
  readable, even if the peer has closed; each side gets one connected event and, after its peer has closed, one
  shutdown event, in this order. Timeouts and provider errors are an `Abort` of one side at any time.
  `EAGAIN` and entries the provider does not show yet are part of every turn.

## Model

| member | source | states |
|---|---|---|
| Shim.World.constructor | naive/fabric_shim.c:269-319 | A process starts with no handles, and the empty graph is consistent. |
| Shim.World.FabricOpen | naive/fabric_shim.c:333-344 | The gate, allocation and provider codes in that order; a fabric joins exactly when the result is 0. |
| Shim.World.DomainOpen | naive/fabric_shim.c:346-359 | Likewise for a domain; its fabric gains one child. |
| Shim.World.EqOpen | naive/fabric_shim.c:361-376 | Likewise for an event queue; its fabric gains one child. |
| Shim.World.CqOpen | naive/fabric_shim.c:378-396 | Likewise for a completion queue, unused and empty; capacity 0 is invalid; its domain gains one child. |
| Shim.World.MrRegister | naive/fabric_shim.c:593-615 | Likewise for a region; null buffer, no capacity and access bits outside send and receive are invalid. |
| Shim.World.OpCreate | naive/fabric_shim.c:617-624 | A fresh operation is idle and on no list. |
| Shim.World.ListenerOpen | naive/fabric_shim.c:398-423 | Created, bound and listening, or closed again, or handed out unready when that close fails; the code is that of the first failing step. |
| Shim.World.EndpointOpen | naive/fabric_shim.c:425-466 | Created, bound and enabled, or closed again; the endpoint of a request is never closed here, any other only handed out when its close failed; every gate of the C code is met. |
| Shim.World.Connect | naive/fabric_shim.c:468-473 | Only a ready endpoint that is not closing, and a known destination, reach the provider. |
| Shim.World.Accept | naive/fabric_shim.c:475-479 | Only a ready endpoint that is not closing reaches the provider; an acceptance is recorded exactly when the provider agrees. |
| Shim.World.Reject | naive/fabric_shim.c:481-489 | The provider is asked at most once per request: the request handle is consumed even when the call fails. |
| GraphLaws.RequestInfo | naive/fabric_shim.c:491-539 | Request information of a whole entry reaches the caller or is freed, never both, never neither; nothing is handed out otherwise, and without memory nothing is read. |
| Answers.EventTable | naive/fabric_shim.c:491-539 | What a read of an event queue says for every kind of entry, error and short read. |
| Answers.PostRefusals | naive/fabric_shim.c:634-667 | Which of the tests refuses a post, with which code and in which order; otherwise the provider decides and only its agreement changes anything. |
| Answers.PostNothing | naive/fabric_shim.c:637-640 | A post without an endpoint, an operation or a region is invalid. |
| Answers.AccessBits | naive/fabric_shim.c:641-642 | Which bit of a region's mask a direction needs. |
| Answers.RegistrableMasks | naive/fabric_shim.c:593-600 | A region needs a buffer, a capacity and one of three access masks. |
| Answers.EndpointRefusals | naive/fabric_shim.c:431-438 | Why an endpoint is refused before the provider is asked, and with which code. |
| Answers.ListenerRefusals | naive/fabric_shim.c:398-405 | Why a listener is. |
| Answers.SupportedModes | naive/fabric_shim.c:436-438 | The four sets of mode bits, without operation flags, that an endpoint may have. |
| Answers.EndpointOrder | naive/fabric_shim.c:439-465 | An endpoint open returns the code of its first failing step. |
| Answers.ListenerOrder | naive/fabric_shim.c:406-422 | So does a listener open. |
| Answers.HandedOut | naive/fabric_shim.c:456-463 | A failed endpoint is handed out exactly if it belongs to a request or cannot be closed. |
| Shim.World.OutOfBounds | naive/fabric_shim.c:643-647 | The 64-bit subtraction test is exactly "not inside the region": no wrap-around lets a range through or refuses one. |
| Shim.World.PostGate | naive/fabric_shim.c:637-649 | All tests before the provider call, in order: null or closing, in flight, access, bounds and size, room on the queue. |
| Shim.World.PostMessage | naive/fabric_shim.c:634-667 | Heap update of a successful submission equals the graph submission; every other outcome changes nothing. |
| Shim.World.Find | naive/fabric_shim.c:578-580 | The list walk stops at the context exactly if it is on this queue, and knows the operation in front of it. |
| Shim.World.CqPoll | naive/fabric_shim.c:550-591 | Result code, completion record and new graph for every provider answer, including stale and foreign contexts and retired queues. |
| Shim.World.ReleaseOp | naive/fabric_shim.c:541-548 | The operation lands: it borrows nothing, no queue pins it, its submission meets its fate. |
| Shim.World.RetireCq | naive/fabric_shim.c:689-697 | The pointer walk returns every outstanding borrow of the list, keeps the list, and retires the queue. |
| Shim.World.EndpointClose | naive/fabric_shim.c:699-711 | Refused: only `closing` is set. Accepted: both queues retire, their operations lose their regions, event queue and domain lose a dependant. |
| Shim.World.Shutdown | naive/fabric_shim.c:681-687 | A ready endpoint becomes closing whatever the provider answers. |
| Shim.World.ListenerClose | naive/fabric_shim.c:713-722 | Consumed exactly on success; both parents lose a dependant. |
| Shim.World.MrClose | naive/fabric_shim.c:724-733 | EBUSY exactly while some operation in flight borrows the region. |
| Shim.World.CqClose | naive/fabric_shim.c:735-749 | EBUSY exactly while a live endpoint uses the queue; a close drains the whole list. |
| Shim.World.EqClose | naive/fabric_shim.c:751-760 | EBUSY exactly while a live listener or endpoint uses the event queue. |
| Shim.World.DomainClose | naive/fabric_shim.c:762-771 | EBUSY exactly while a live queue, endpoint or region belongs to the domain. |
| Shim.World.FabricClose | naive/fabric_shim.c:773-781 | EBUSY exactly while a live domain, event queue or listener belongs to the fabric. |
| Shim.World.OpFree | naive/fabric_shim.c:626-632 | EBUSY exactly while the operation is in flight. |
| GraphLaws.SubmitInv | naive/fabric_shim.c:634-667 | A submission that passes the tests keeps the invariant: list lengths within capacity, lists disjoint, the range inside its region, one pending log entry. |
| GraphLaws.SettleInv | naive/fabric_shim.c:581-591 | Unlinking from anywhere in a list and settling keeps the invariant. |
| GraphLaws.PollInv | naive/fabric_shim.c:550-591 | A poll keeps the invariant for any context and any length or error. |
| GraphLaws.ReturnAllShape | naive/fabric_shim.c:693-696 | Returning the borrows of a list changes the regions of its operations and nothing else. |
| GraphLaws.RemoveEndpointShape | naive/fabric_shim.c:699-711 | Exactly what closing an endpoint changes: two stages, the borrows of two lists, the endpoint. |
| GraphLaws.RemoveEndpointInv | naive/fabric_shim.c:699-711 | Closing an endpoint keeps the invariant. |
| GraphLaws.AddEndpointInv | naive/fabric_shim.c:446-455 | Creating an endpoint over two unused queues keeps the invariant. |
| GraphLaws.EndpointSetupInv | naive/fabric_shim.c:425-466 | Every way an endpoint open can end keeps the invariant. |
| GraphLaws.CloseEpInv | naive/fabric_shim.c:699-711 | An endpoint close keeps the invariant, refused or not. |
| GraphLaws.DiscardAllLaws | naive/fabric_shim.c:740-744 | Draining discards the pending submissions of the list, each once, and touches no other. |
| GraphLaws.CloseCqShape | naive/fabric_shim.c:735-749 | Exactly what closing a queue changes. |
| GraphLaws.CloseCqInv | naive/fabric_shim.c:735-749 | Closing a queue that no endpoint uses keeps the invariant. |
| GraphLaws.DropInv | naive/fabric_shim.c:713-733 | Handles without dependants may leave together without leaving a dangling pointer. |
| GraphLaws.Rollback | naive/fabric_shim.c:456-463 | Creating an endpoint and closing it again restores the graph but for its two spent queues. |
| Runs.StepInv | naive/fabric_shim.c:333-781 | Every call that can change the graph keeps the invariant, whatever the provider answers; the others leave the graph alone by their own contracts. |
| Runs.Exec | naive/fabric_shim.c:333-781 | So does every run of calls. |
| Ledger.Conserved | naive/fabric_shim.c:634-667 | What is in flight changes by exactly one per successful post, one per report, and the list of a closed queue. |
| Ledger.ConservedRun | naive/fabric_shim.c:541-591 | The balance over a whole run. |
| Ledger.PendingInFlight | naive/fabric_shim.c:658-666 | Pending submissions and operations in flight are equally many. |
| Ledger.PollReports | naive/fabric_shim.c:552-591 | A poll reports exactly when the provider names a context on that queue's own list; the report carries the provider's error, or none for a plain completion, and the length that goes with it, and the log remembers the same; every other answer is passed on. |
| Ledger.CallLog | naive/fabric_shim.c:585-590 | A settled submission was reported by a poll of its own queue with its own id and direction, or discarded when its queue closed. |
| Ledger.OneFate | naive/fabric_shim.c:541-591 | Over any run a submission stays pending until one call settles it, for good. |
| Freeze.FrozenStep | naive/fabric_shim.c:637-639 | The list of a closing endpoint's queue only loses operations, even if the close failed. |
| Freeze.FrozenRun | naive/fabric_shim.c:681-711 | The same over whole runs, until the queue is closed. |
| Freeze.FreezeBegins | naive/fabric_shim.c:681-704 | A shutdown of a ready endpoint and any close, refused or not, freeze both its queues; from then on it refuses every message. |
| Freeze.RetiredStep | naive/fabric_shim.c:689-697 | A retired queue keeps its list until closing it succeeds. |
| Freeze.RetiredRun | naive/fabric_shim.c:554-555 | Over whole runs a retired queue answers every poll with a bad state, is refused for any other endpoint on either side, and its operations refuse to be freed, until it is closed. |
| Freeze.CallBorrow | naive/fabric_shim.c:541-548 | A borrow ends by a report or by closing the endpoint, never by closing the queue, and starts only with a new submission. |
| Freeze.DrainedBorrow | naive/fabric_shim.c:735-749 | A queue that can close has no borrow left to return. |
| Teardown.FailedEndpoint | naive/fabric_shim.c:456-463 | A failed endpoint open undoes everything but its spent queues, or hands out an unready endpoint whose close does so. |
| Teardown.FailedListener | naive/fabric_shim.c:414-419 | A failed listener open leaves nothing, or an unready listener whose close leaves nothing. |
| Teardown.SpentCounts | naive/fabric_shim.c:448-463 | Spent queues leave every reference count as it was. |
| Teardown.NeverReady | naive/fabric_shim.c:637-639 | No later call makes a cleanup-only endpoint ready: at every point of a run it refuses messages and shutdown. |
| Teardown.NeverListening | naive/fabric_shim.c:414-419 | Nor does a cleanup-only listener ever start to listen, so it never rejects. |
| Teardown.TeardownWorks | README.md:127-139 | From any consistent graph the documented order meets no EBUSY of the shim at any step and, if the provider agrees, frees everything, with no submission left pending. |
| Ownership.OwnPost | src/transport.rs:401-449 | The shim never refuses the connection's own message: only the size limit and the provider decide. |
| Ownership.OwnPoll | src/transport.rs:454-469 | A completion the shim reports on a lane is that lane's own operation, in flight, in its direction, whatever context the provider named. |
| Ownership.LaneProbe | naive/fabric_shim.c:550-591 | A look at a connection's queue in the provider's own terms: an entry for the operation in flight is reported with its own error and length, any other is an I/O error, a failed look is passed on. |
| Ownership.LaneUser | src/transport.rs:321-332 | A queue in use belongs to the connection's own endpoint, on its own side. |
| Ownership.OwnCloseCq | src/transport.rs:500-502 | Once the endpoint is closed no gate of the shim keeps a queue open. |
| Ownership.OwnSlotClose | src/transport.rs:247-253 | Once both queues are closed a slot's operation is free and its region unborrowed. |
| Ownership.OwnCloseDomain | src/transport.rs:505-506 | A connection with nothing else left can close its domain. |
| Ownership.OwnEndpoint | src/transport.rs:321-332 | However far the endpoint open got, the connection owns what is left. |
| Ownership.IdleLook | src/transport.rs:350-357 | While a lane's operation is not in flight a poll changes nothing, and its result is the provider's answer alone. |
| Ownership.RoundTrip | src/transport.rs:492-508 | A connection that gave everything up leaves the graph as it found it, but for the log. |
| Ownership.Independent | src/transport.rs:259-278 | What one connection does leaves another's ownership, flights and endpoint alone. |
| Transport.OtherStays | src/transport.rs:259-278 | The same for the objects: another connection stays as valid and as ready as it was. |
| Transport.ListenerStays | src/transport.rs:120-125 | So does a listening side beside a connection. |
| Transport.ConnectionStays | src/transport.rs:120-125 | And a connection beside a listening side that opens or closes. |
| Transport.Slot.Close | src/transport.rs:247-253 | Operation, region, bytes, in that order; the bytes are released only after the region is gone; a failure keeps the rest. |
| Transport.Connection.constructor | src/transport.rs:280-295 | An empty connection owns nothing. |
| Transport.Connection.PostRecv | src/transport.rs:401-422 | Refused when closing or in flight; EAGAIN is `false` and changes nothing; success sets the flag and the shim's ledger together. |
| Transport.Connection.Send | src/transport.rs:424-449 | Likewise; the message is copied to the front of the buffer, and the buffer of a message in flight is not touched. |
| Transport.Connection.PollTx | src/transport.rs:457-463 | The "unexpected TX completion" branch cannot be reached. |
| Transport.Connection.PollRx | src/transport.rs:464-474 | The "unexpected RX completion" branch cannot be reached; the bytes are copied out only after completion. |
| Transport.Connection.Poll | src/transport.rs:454-483 | Events in polling order or the first error; exactly how the in-flight flags change. |
| Transport.TxTold | src/transport.rs:457-463 | The look at the sends in the provider's own terms; an error entry is the provider's error and leaves the slot in flight. |
| Transport.RxTold | src/transport.rs:464-474 | The look at the receives likewise; a completion brings as many bytes as it announces, or is an error. |
| Transport.EventAnswers | src/transport.rs:527-547 | The look at the event queue: error entries, failed reads, short entries, requests and unknown kinds are errors, each with its own code. |
| Transport.PollTold | src/transport.rs:454-483 | What a poll returns in the provider's own terms: the first look that fails decides, in order; otherwise the events of all three. |
| Answers.SubmissionCodes | src/transport.rs:413-421 | A submission that asks for repetition is not an error, any other refusal is. |
| Transport.Connection.FirstReceive | src/transport.rs:350-359 | How it ends as a function of the rounds; the graph changes by the one submission or not at all. |
| Transport.Connection.Initialize | src/transport.rs:297-360 | The result as a function of the provider's answers, whichever step fails; what it leaves satisfies the connection invariant; on success a receive is in flight. |
| Answers.SetupOrder | src/transport.rs:297-348 | A setup returns the code of its first failing step, in the order of the calls. |
| Answers.ReceiveEnds | src/transport.rs:350-359 | Exactly when the first receive is posted, and the error otherwise: the endpoint's limit, another code, or the deadline; the provider's request for repetition is followed. |
| Answers.HandshakeAnswers | src/transport.rs:362-394 | Connecting and serving succeed exactly if every step is granted, the receive is posted and the provider agrees; the first thing missing is the error. |
| Transport.Connection.Close | src/transport.rs:492-508 | Exactly which handles are left and which provider answer is returned, for every pattern of failures; no EBUSY of the shim; the peer is told at most once; buffers released only with their regions. |
| Transport.Connection.Drop | src/transport.rs:511-525 | After a failed close no buffer whose region is live is freed. |
| Transport.CloseLaws | src/transport.rs:26-33 | A close gives handles up and takes none, succeeds exactly when none is left, and fails only with a provider's answer. |
| Answers.CloseOrder | src/transport.rs:492-508 | A close goes through the handles in order up to the first refusal, and returns it. |
| Transport.CloseProgress | src/transport.rs:492-508 | A close gets nowhere exactly if nothing was left or the provider refuses the first handle, and then returns that refusal. |
| Transport.CloseAgainWorks | src/transport.rs:492-508 | Repeated closes never bring a handle back, and each one that is granted its first handle shrinks what is left, whatever else is refused. |
| Transport.GrantedCloseEnds | src/transport.rs:492-508 | A provider that gives in one handle at a time ends the teardown within as many tries as there are handles. |
| Transport.NoTrace | src/transport.rs:374-383 | An attempt that failed and was closed without refusal leaves the graph as it was, but for the log. |
| Transport.Request.Reject | src/transport.rs:204-217 | At most one provider reject; none after the request was handled. |
| Transport.TryAccept | src/transport.rs:366-373 | The result as a function of the answers; `handled` is set exactly when the provider accepted, with a receive already posted. |
| Transport.GiveUp | src/transport.rs:374-380 | The reject comes before the close of the request's endpoint. |
| Transport.FromRequest | src/transport.rs:362-383 | The result as a function of the provider's answers; a request is accepted once, or rejected once and only then its endpoint closed; a failed attempt leaves nothing behind if the closes are not refused. |
| Transport.Connect | src/transport.rs:385-394 | The result as a function of the provider's answers; on success a receive is in flight; a failed attempt leaves nothing behind if the closes are not refused. |
| Transport.ListeningSide.Bind | src/transport.rs:127-146 | The code of the first failing step; a listener that could not be closed again is kept. |
| Transport.ListeningSide.Poll | src/transport.rs:148-167 | A request exactly for a request event with its information. |
| Transport.ListeningSide.Close | src/transport.rs:180-184 | Listener, then event queue; only the provider can refuse. |
| Transport.FabricSide.Open | src/transport.rs:92-101 | Holds a live fabric exactly on success. |
| Transport.FabricSide.Close | src/transport.rs:103-106 | The handle is given up only on success. |
| Pingpong.Borrowing | examples/shim_pingpong.c:186-189 | A region is borrowed exactly while its operation is in flight and the endpoint open. |
| Pingpong.CqStep | examples/shim_pingpong.c:182-183 | A queue close meets EBUSY exactly while the endpoint survives. |
| Pingpong.OpStep | examples/shim_pingpong.c:184-185 | An operation is freed exactly if no queue pins it. |
| Pingpong.MrStep | examples/shim_pingpong.c:186-189 | A region close meets EBUSY exactly while the region is borrowed. |
| Pingpong.SurvivorsExact | examples/shim_pingpong.c:171-197 | Which handles survive the keep-going cleanup, for every pattern of provider failures. |
| Pingpong.FailureMeansLeftover | examples/shim_pingpong.c:171-197 | The cleanup reports failure exactly when something is left. |
| Pingpong.Cleanup | examples/shim_pingpong.c:171-197 | The session is left with exactly the survivors; a buffer is freed exactly when its region is gone; a pending request is rejected before its endpoint is shut down and closed. |
| Pingpong.CleanupCalls | examples/shim_pingpong.c:174-177 | A request still open is rejected first, an accepted one never; then a ready endpoint tells its peer and is closed. |
| PingpongSession.RunPost | naive/fabric_shim.c:634-667 | A post of the session changes nothing, or puts the lane's own operation in flight; one in flight is never posted again. |
| PingpongSession.RunPoll | examples/shim_pingpong.c:80-102 | Whatever the provider answers, a completion reported to the session is the lane's own operation. |
| PingpongSession.AllReported | naive/fabric_shim.c:585-590 | With nothing in flight and nothing discarded or failed, every submission was reported without an error. |
| PingpongProgram.Program.Progress | examples/shim_pingpong.c:80-116 | The round as a function; a flag is raised exactly when its operation has landed, with the bytes that arrived. |
| PingpongProgram.TurnTold | examples/shim_pingpong.c:80-116 | The same round in the provider's own terms: what fails it, which flag each completion raises, and which events stand against going on. |
| PingpongProgram.Program.PostReceive | examples/shim_pingpong.c:118-130 | The loop equals its specification; success means that a receive was not in flight and now is, once. |
| PingpongProgram.Program.SendMessage | examples/shim_pingpong.c:132-147 | Refused while the last message is not done, so its buffer is not touched; the loop equals its specification; success means one submission of the message. |
| PingpongProgram.TryingEnds | examples/shim_pingpong.c:118-147 | A submission is repeated exactly while the provider, or a full queue, asks for it; the first other answer is the result. |
| PingpongProgram.Program.WaitData | examples/shim_pingpong.c:149-166 | The loop equals its specification; success means both directions are done and what was expected is in the buffer. |
| PingpongProgram.AwaitingEnds | examples/shim_pingpong.c:149-166 | A wait goes on exactly as long as it may and must; the round that ends it decides. |
| PingpongProgram.Program.WaitEvent | examples/shim_pingpong.c:54-78 | Succeeds exactly if some look shows the wanted event and all before it show nothing, or requests nobody waits for; the first other event and the first failed look end it; on success every request on the way was used up. |
| PingpongProgram.Program.Join | examples/shim_pingpong.c:232-234 | Succeeds exactly if the endpoint is open, the provider agrees to connect or accept, and reports the connection up. |
| PingpongProgram.Program.Setup | examples/shim_pingpong.c:210-230 | Opens in order up to the first failure; unless the provider returns positive codes it succeeds exactly if all is granted and a server is shown a request, and the session then has everything. |
| PingpongProgram.ClientTold | examples/shim_pingpong.c:241-244 | A client whose waits succeed has had every submission accepted, and received world once. |
| PingpongProgram.ServerTold | examples/shim_pingpong.c:236-239 | A server whose waits succeed has received hello and ack in order and sent world once. |
| PingpongProgram.Program.ClientTalk | examples/shim_pingpong.c:231-245 | Equals its script step by step; success means hello and ack were sent once each and in order, world was received, and three submissions were made. |
| PingpongProgram.Program.ServerTalk | examples/shim_pingpong.c:231-245 | Equals its script; success means hello and ack were received in order, world was sent once, and three submissions were made. |
| PingpongProgram.Program.Run | examples/shim_pingpong.c:199-252 | Wherever the program stops, exactly the survivors stay live; status 0 is returned exactly if the session was set up, its script ran through and the cleanup did not fail; then the provider agreed and reported the connection up, the conversation took place, every submission completed without an error, and, unless the provider returns positive codes, nothing is left. |
| Exchange.BytesDiffer | src/bin/clients.rs:11-18 | The three payloads are pairwise different. |
| Exchange.ClientExchange.OnEvent | src/bin/clients.rs:35-58 | Every event in every state, with the two errors. |
| Exchange.ClientExchange.Drive | src/bin/clients.rs:102-123 | The loop equals its round-by-round specification, with the messages it sent and the rounds it used. |
| History.ClientTakes | src/bin/clients.rs:35-58 | The client's state is what its history of events and sent messages says; the first event that does not fit decides how it fails. |
| History.ClientLoop | src/bin/clients.rs:102-123 | For any rounds at all the loop succeeds exactly if world and nothing else was received and two sends completed; any other payload or completion ends it with its error. |
| History.ClientSubmissions | src/bin/clients.rs:60-71 | Exactly what the client submits in each round: the message that is due by the events so far, never before the link is up nor after the peer closed. |
| History.ClientHushed | src/bin/clients.rs:61-63 | Once the peer's closing was seen the client submits nothing more, from any state and for any rounds. |
| Exchange.ServerExchange.OnEvent | src/bin/server.rs:31-48 | Every event in every phase. |
| Exchange.ServerExchange.Serve | src/bin/server.rs:55-83 | The loop equals its specification, with the messages it sent, the receives it posted and the rounds it used. |
| History.ServerTakes | src/bin/server.rs:31-48 | The server's state is what its history says; a payload that does not fit is the only event it refuses. |
| History.ServerLoop | src/bin/server.rs:55-83 | For any rounds at all the loop succeeds exactly if hello and, after world was sent, ack were received and nothing else, and a send completed. |
| History.ServerSubmissions | src/bin/server.rs:66-76 | Exactly what the server posts and submits in each round: nothing before hello and the connection, nothing after the peer closed, and world only with a receive pending or just posted. |
| History.ServerHushed | src/bin/server.rs:66-77 | Once the peer's closing was seen the server submits nothing and posts nothing, from any state and for any rounds. |
| Protocol.ClientTakesRx | src/bin/clients.rs:38-45 | A message the client can receive is the one world it waits for. |
| Protocol.ServerTakesRx | src/bin/server.rs:36-45 | A message the server can receive is the one its phase waits for. |
| Protocol.ClientLooks | src/bin/clients.rs:105-109 | No subset of waiting entries, in polling order, surprises the client. |
| Protocol.ServerLooks | src/bin/server.rs:58-62 | Nor the server. |
| Protocol.ClientActs | src/bin/clients.rs:102-123 | A whole client turn keeps the joint invariant and does not fail. |
| Protocol.ServerActs | src/bin/server.rs:55-83 | So does a whole server turn. |
| Protocol.StepConsistent | src/bin/server.rs:55-83 | Every step of the joint system keeps the invariant; only an abort makes a side fail. |
| Progress.ServerSuccess | src/bin/server.rs:50-52 | If the server succeeds the client sent hello and ack, once each, in order, and received world. |
| Progress.ClientSuccess | src/bin/clients.rs:81-83 | If the client succeeds the server received hello, sent world once, and has the ack in its receive buffer or already read it. |
| Progress.NoProtocolFailure | src/bin/clients.rs:35-58 | Neither side ever sees an unexpected event or a busy slot; failures come from timeouts and provider errors only. |
| Progress.ReceiverReady | src/transport.rs:350-358 | A message under way always finds a posted receive. |
| Progress.StepWeight | src/bin/clients.rs:102-123 | Every step that changes anything brings the end closer. |
| Progress.NoDeadlock | src/bin/server.rs:55-83 | While no side has failed and not both have succeeded, some step changes something. |
| Progress.Finishes | src/bin/clients.rs:102-123 | From every reachable state without a failure both sides can succeed, in at most as many steps as the measure. |
| Progress.NothingMoreToSend | src/bin/server.rs:66-76 | Once one side succeeded the other submits nothing more. |
| Progress.SilentAfterClose | src/bin/server.rs:66-77 | In any joint run, aborts included, a program that has seen its peer close submits nothing more and posts no receive. |
| Progress.EarlyShutdown | src/bin/clients.rs:118-119 | After one side succeeded and closed, the other can still succeed without submitting anything. |
| Progress.ClientTurnIsRound | src/bin/clients.rs:102-123 | The client's turn in the joint system is a round of the verified loop, with the same state, port and message sent. |
| Progress.ServerTurnIsRound | src/bin/server.rs:55-83 | The server's turn in the joint system is a round of the verified loop, with the same state, port, posted receive and message sent. |
| Progress.ClientLoopInRun | src/bin/clients.rs:102-123 | In every joint run without an abort of the client its loop succeeds exactly if the client returned successfully, and sent the same messages. |
| Progress.ServerLoopInRun | src/bin/server.rs:55-83 | The same for the server. |
| Progress.LoopSuccess | src/bin/clients.rs:81-84 | If the client's loop returns success the server received hello, sent world and has or will read the ack; if the server's does, all three messages were exchanged. |
| Binding.PollSees | src/transport.rs:454-483 | An honest poll of a connection reports exactly what its port shows. |
| Binding.SendTries | src/transport.rs:424-449 | A send on a connection is the port's: refused while the slot is busy, otherwise taken or to be repeated. |
| Binding.PostTries | src/transport.rs:401-422 | So is posting the receive buffer. |
| Binding.ClientRoundOn | src/bin/clients.rs:102-123 | A round of the client's loop on a real connection with an honest provider is the client's turn of the joint system. |
| Binding.ServerRoundOn | src/bin/server.rs:55-83 | Likewise for the server. |
| Binding.StartsBound | src/transport.rs:362-394 | A connection that was just set up is bound to the initial port. |

## Left out

- Discovery and printing (`shim_info_open`, `shim_print_info`, `src/fabric.rs`, `build.rs`): filtering without shared state.
- Error texts and their composition (`shim_error_string`, `message` fields, `error_text`, `finish`): presentation only.
- The `out == NULL` tests: a Dafny method always has its out-parameters.
- `malloc` is a parameter that says whether the allocation succeeds; request information is a class with its handle, destination, mode and operation flags and size limit.
- Wall-clock time and sleeping: a deadline is the end of the scripted rounds.
- Threads: all handles belong to one driving thread (`naive/fabric_shim.h:21`).
- Transport.Connection.Close: the fields of the connection are updated once, after the last close of the call, not one by one; no caller can see the difference.
- Transport.Connection.Initialize: likewise for the fields it sets.
- Transport.Connection.PollRx: the contents of the receive buffer are a parameter until the completion; partial writes by the provider before it are not modelled.
- The drop of an `Info`, and the drops of `Listener` and `Fabric`, only call what is modelled here.
- `wait_request` repeats `ListeningSide.Poll` until a request arrives or the deadline passes.
- PingpongProgram.Program.Run: the two buffers exist from the start, and whether their allocation succeeds is an answer of the environment.
- PingpongProgram.Program.Progress: the receive buffer takes the provider's bytes at the completion, not before.
- Argument parsing, `main`, `println!`, the layout of `src/ffi.rs`: plumbing.
