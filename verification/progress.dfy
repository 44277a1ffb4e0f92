/** Runs of the joint protocol: safety at the end, no deadlock on the way. */
module Progress {
  import opened Transport
  import opened Exchange
  import opened Protocol
  import H = History

  // -------------------------------------------------------------------- runs

  predicate Follows(x: System, steps: seq<Step>)
    decreases |steps|
  {
    steps == [] || (Enabled(x, steps[0]) && Follows(Next(x, steps[0]), steps[1..]))
  }

  function After(x: System, steps: seq<Step>): System
    requires Follows(x, steps)
    decreases |steps|
  {
    if steps == [] then x else After(Next(x, steps[0]), steps[1..])
  }

  predicate NoAbort(steps: seq<Step>) { forall i | 0 <= i < |steps| :: !steps[i].Abort? }

  predicate Aborted(steps: seq<Step>, at: Side) { exists i :: 0 <= i < |steps| && steps[i] == Abort(at) }

  lemma StartsConsistent()
    ensures Consistent(INITIAL)
  {
  }

  lemma {:induction false} RunConsistent(x: System, steps: seq<Step>)
    requires Consistent(x) && Follows(x, steps)
    ensures Consistent(After(x, steps))
    decreases |steps|
  {
    hide Consistent, Next, Enabled;
    if steps != [] {
      StepConsistent(x, steps[0]);
      RunConsistent(Next(x, steps[0]), steps[1..]);
    }
  }

  // ------------------------------------------------------------------ safety

  /** If the server succeeds, the client sent hello and ack, once each and in that order, and received world. */
  lemma ServerSuccess(steps: seq<Step>)
    requires Follows(INITIAL, steps) && After(INITIAL, steps).sp.status == Returned(true)
    ensures After(INITIAL, steps).h == History([Hello, Ack], [World], [World], [Hello, Ack])
  {
    StartsConsistent();
    RunConsistent(INITIAL, steps);
  }

  /** If the client succeeds, the server received hello and sent world once, and the ack has been
      received or lies completed in the server's receive buffer. */
  lemma ClientSuccess(steps: seq<Step>)
    requires Follows(INITIAL, steps) && After(INITIAL, steps).cp.status == Returned(true)
    ensures var x := After(INITIAL, steps);
      && x.h.clientSent == [Hello, Ack] && x.h.clientGot == [World] && x.h.serverSent == [World]
      && ((x.sp.rx == Filled(Ack) && x.h.serverGot == [Hello]) || x.h.serverGot == [Hello, Ack])
  {
    StartsConsistent();
    RunConsistent(INITIAL, steps);
  }

  lemma {:induction false} FailsOnlyByAbort(x: System, steps: seq<Step>)
    requires Consistent(x) && Follows(x, steps)
    ensures After(x, steps).cp.status == Returned(false) ==> x.cp.status == Returned(false) || Aborted(steps, TheClient)
    ensures After(x, steps).sp.status == Returned(false) ==> x.sp.status == Returned(false) || Aborted(steps, TheServer)
    decreases |steps|
  {
    hide Consistent, Enabled;
    if steps != [] {
      var rest := steps[1..];
      StepConsistent(x, steps[0]);
      FailsOnlyByAbort(Next(x, steps[0]), rest);
      if i :| 0 <= i < |rest| && rest[i] == Abort(TheClient) { assert steps[i + 1] == Abort(TheClient); }
      if i :| 0 <= i < |rest| && rest[i] == Abort(TheServer) { assert steps[i + 1] == Abort(TheServer); }
    }
  }

  /** Neither program ever fails of itself: no unexpected event, no busy slot, only timeouts and provider errors. */
  lemma NoProtocolFailure(steps: seq<Step>)
    requires Follows(INITIAL, steps)
    ensures After(INITIAL, steps).cp.status == Returned(false) ==> Aborted(steps, TheClient)
    ensures After(INITIAL, steps).sp.status == Returned(false) ==> Aborted(steps, TheServer)
  {
    StartsConsistent();
    FailsOnlyByAbort(INITIAL, steps);
  }

  /** A message under way always has a posted buffer waiting at the other side. */
  lemma ReceiverReady(steps: seq<Step>, from: Side)
    requires Follows(INITIAL, steps) && PortOf(After(INITIAL, steps), from).tx.Underway?
    ensures PortOf(After(INITIAL, steps), Peer(from)).rx == Posted
  {
    StartsConsistent();
    RunConsistent(INITIAL, steps);
  }

  // ---------------------------------------------------------------- measure

  function TxWeight(t: Tx): nat { match t case Free => 0 case Completed => 1 case Placed => 2 case Underway(_) => 4 }
  function RxWeight(r: Rx): nat { if r.Filled? then 1 else 0 }
  function LinkWeight(e: Events): nat { (if e.up then 0 else 2) + (if e.down then 0 else 2) + |e.unread| }
  function PortWeight(p: Port): nat {
    TxWeight(p.tx) + RxWeight(p.rx) + LinkWeight(p.events) + if p.status == Running then 1 else 0
  }
  function ClientWeight(c: Client): nat { (if c.hello.posted then 0 else 5) + if c.ack.posted then 0 else 5 }

  function ServerWeight(x: System): nat {
    (if WorldSent(x) then 0 else 5) + if x.s.phase == AwaitHello || (x.s.phase == Reply && x.sp.rx == Empty) then 1
      else 0
  }

  /** What is still to do. */
  function Weight(x: System): nat { ClientWeight(x.c) + ServerWeight(x) + PortWeight(x.cp) + PortWeight(x.sp) }

  lemma ClientLookWeight(x: System, view: View)
    requires Consistent(x)
    ensures var r := ClientOnAll(x.c, Seen(x.cp, view));
      r.Going? && var y := ClientTook(x, r.state, view); Weight(y) <= Weight(x) && (Weight(y) == Weight(x) ==> y == x)
  {
    ClientLooks(x, view);
    ClientKeepsPosts(x.c, Seen(x.cp, view));
    if !(view.tx && x.cp.tx.Completed?) && !(view.rx && x.cp.rx.Filled?) && !(view.eq && x.cp.events.unread != []) {
      assert Seen(x.cp, view) == [];
    }
  }

  /** Events never change what has been posted. */
  lemma {:induction false} ClientKeepsPosts(c: Client, events: seq<Event>)
    ensures var r := ClientOnAll(c, events);
      r.Going? ==> r.state.hello.posted == c.hello.posted && r.state.ack.posted == c.ack.posted
    decreases |events|
  {
    if events != [] {
      match ClientOn(c, events[0])
      case Failed(_) =>
      case Going(next) => ClientKeepsPosts(next, events[1..]);
    }
  }

  lemma ClientDoesWeight(x: System, again: bool)
    requires Core(x) && x.cp.status == Running
    ensures var y := ClientDoes(x, again); Weight(y) <= Weight(x) && (Weight(y) == Weight(x) ==> y == x)
  {
    hide ServerSlot, ServerBuffer, ClientBuffer, Remembered, EventsOk;
  }

  lemma ClientTurnWeight(x: System, view: View, again: bool)
    requires Consistent(x) && x.cp.status == Running
    ensures var y := ClientTurn(x, view, again); Weight(y) <= Weight(x) && (Weight(y) == Weight(x) ==> y == x)
  {
    hide Core, Seen, Weight, ClientDoes, ClientOnAll;
    ClientLookWeight(x, view);
    ClientLooks(x, view);
    ClientDoesWeight(ClientTook(x, ClientOnAll(x.c, Seen(x.cp, view)).state, view), again);
  }

  lemma ServerLookWeight(x: System, view: View)
    requires Consistent(x)
    ensures var r := ServerOnAll(x.s, Seen(x.sp, view));
      r.Going? && var y := ServerTook(x, r.state, view); Weight(y) <= Weight(x) && (Weight(y) == Weight(x) ==> y == x)
  {
    ServerLooks(x, view);
    ServerReads(x, view);
    if !(view.tx && x.sp.tx.Completed?) && !(view.rx && x.sp.rx.Filled?) && !(view.eq && x.sp.events.unread != []) {
      assert Seen(x.sp, view) == [];
    }
  }

  /** A view moves the server's phase by the message it reads, if any. */
  lemma ServerReads(x: System, view: View)
    requires Consistent(x)
    ensures var r := ServerOnAll(x.s, Seen(x.sp, view));
      r.Going? && var s := r.state;
      if view.rx && x.sp.rx.Filled? then s.phase == (if x.s.phase == AwaitHello then Reply else Finished)
        else s.phase == x.s.phase
  {
    ServerLooks(x, view);
    var r := ServerOnAll(x.s, Seen(x.sp, view));
    assert ServerBuffer(ServerTook(x, r.state, view));
    assert ServerSlot(ServerTook(x, r.state, view));
    ServerPhase(x.s, Seen(x.sp, view));
    if !(view.rx && x.sp.rx.Filled?) {
      forall i | 0 <= i < |Seen(x.sp, view)| ensures !Seen(x.sp, view)[i].Received? { }
    }
  }

  /** Without a message the phase stays; it never goes back. */
  lemma {:induction false} ServerPhase(s: Server, events: seq<Event>)
    ensures (forall i | 0 <= i < |events| :: !events[i].Received?) && ServerOnAll(s, events).Going? ==>
      ServerOnAll(s, events).state.phase == s.phase
    ensures ServerOnAll(s, events).Going? && s.phase != AwaitHello ==>
      (ServerOnAll(s, events).state.phase == s.phase
        || (s.phase == AwaitAck && ServerOnAll(s, events).state.phase == Finished))
    ensures ServerOnAll(s, events).Going? && s.phase == AwaitHello ==>
      (ServerOnAll(s, events).state.phase == AwaitHello || ServerOnAll(s, events).state.phase == Reply)
    decreases |events|
  {
    if events != [] {
      match ServerOn(s, events[0])
      case Failed(_) =>
      case Going(next) =>
        ServerPhase(next, events[1..]);
        assert (forall i | 0 <= i < |events| :: !events[i].Received?) ==>
          forall i | 0 <= i < |events[1..]| :: !events[1..][i].Received?;
    }
  }

  lemma ServerDoesWeight(x: System, postAgain: bool, sendAgain: bool)
    requires Core(x) && x.sp.status == Running
    ensures var y := ServerDoes(x, postAgain, sendAgain); Weight(y) <= Weight(x) && (Weight(y) == Weight(x) ==> y == x)
  {
    hide ClientSlot, ClientBuffer, Remembered, EventsOk;
  }

  lemma ServerTurnWeight(x: System, view: View, postAgain: bool, sendAgain: bool)
    requires Consistent(x) && x.sp.status == Running
    ensures var y := ServerTurn(x, view, postAgain, sendAgain);
      Weight(y) <= Weight(x) && (Weight(y) == Weight(x) ==> y == x)
  {
    hide Core, Seen, Weight, ServerDoes, ServerOnAll;
    ServerLookWeight(x, view);
    ServerLooks(x, view);
    ServerDoesWeight(ServerTook(x, ServerOnAll(x.s, Seen(x.sp, view)).state, view), postAgain, sendAgain);
  }

  /** Every step that changes anything, an abort apart, brings the end closer. */
  lemma StepWeight(x: System, step: Step)
    requires Consistent(x) && Enabled(x, step) && !step.Abort?
    ensures Next(x, step) != x ==> Weight(Next(x, step)) < Weight(x)
  {
    match step
    case ClientRuns(view, again) => ClientTurnWeight(x, view, again);
    case ServerRuns(view, postAgain, sendAgain) => ServerTurnWeight(x, view, postAgain, sendAgain);
    case _ => LinkWeightFalls(x, step);
  }

  lemma LinkWeightFalls(x: System, step: Step)
    requires Enabled(x, step) && !step.Abort? && !step.ClientRuns? && !step.ServerRuns?
    ensures Weight(Next(x, step)) < Weight(x)
  {
    hide ClientTurn, ServerTurn, ClientWeight;
    match step
    case Place(from) =>
    case Complete(from) =>
    case LinkUp(at) =>
    case LinkDown(at) =>
  }

  // ------------------------------------------------------- no deadlock

  predicate BothSucceeded(x: System) { x.cp.status == Returned(true) && x.sp.status == Returned(true) }
  predicate Unbroken(x: System) { x.cp.status != Returned(false) && x.sp.status != Returned(false) }

  const ALL := View(true, true, true)

  /** A step of the link that is waiting to happen. */
  predicate LinkBusy(x: System) {
    || !x.cp.events.up || !x.sp.events.up
    || x.cp.tx.Underway? || x.sp.tx.Underway? || x.cp.tx == Placed || x.sp.tx == Placed
    || (x.cp.status != Running && !x.sp.events.down) || (x.sp.status != Running && !x.cp.events.down)
  }

  lemma LinkMoves(x: System) returns (step: Step)
    requires Consistent(x) && Unbroken(x) && LinkBusy(x)
    ensures Enabled(x, step) && !step.Abort? && Next(x, step) != x
  {
    if !x.cp.events.up { step := LinkUp(TheClient); }
    else if !x.sp.events.up { step := LinkUp(TheServer); }
    else if x.cp.tx.Underway? { step := Place(TheClient); }
    else if x.sp.tx.Underway? { step := Place(TheServer); }
    else if x.cp.tx == Placed { step := Complete(TheClient); }
    else if x.sp.tx == Placed { step := Complete(TheServer); }
    else if x.cp.status != Running && !x.sp.events.down { step := LinkDown(TheServer); }
    else { step := LinkDown(TheClient); }
  }

  /** An entry that a running program has not read yet. */
  predicate Unread(p: Port) { p.status == Running && (p.tx.Completed? || p.rx.Filled? || p.events.unread != []) }

  lemma ClientReads(x: System)
    requires Consistent(x) && Unread(x.cp)
    ensures ClientTurn(x, ALL, true) != x
  {
    ClientLooks(x, ALL);
  }

  lemma ServerReadsAll(x: System)
    requires Consistent(x) && Unread(x.sp)
    ensures ServerTurn(x, ALL, true, true) != x
  {
    ServerLooks(x, ALL);
  }

  /** With nothing to read and nothing on the link, one of the programs has something to send. */
  lemma SomebodySends(x: System)
    requires Consistent(x) && Unbroken(x) && !BothSucceeded(x) && !LinkBusy(x) && !Unread(x.cp) && !Unread(x.sp)
    ensures (x.cp.status == Running && NextMessage(x.c).Some? && x.cp.tx == Free)
         || (x.sp.status == Running && WantsReply(x.s) && x.sp.tx == Free)
  {
  }

  lemma ClientSends(x: System)
    requires Consistent(x) && x.cp.status == Running && !Unread(x.cp) && NextMessage(x.c).Some? && x.cp.tx == Free
    ensures ClientTurn(x, ALL, false) != x
  {
    assert Seen(x.cp, ALL) == [];
  }

  lemma ServerSends(x: System)
    requires Consistent(x) && x.sp.status == Running && !Unread(x.sp) && WantsReply(x.s) && x.sp.tx == Free
    ensures ServerTurn(x, ALL, false, false) != x
  {
    assert Seen(x.sp, ALL) == [];
  }

  /** No deadlock: while no side has failed and not both have succeeded, some step changes something. */
  lemma NoDeadlock(x: System) returns (step: Step)
    requires Consistent(x) && Unbroken(x) && !BothSucceeded(x)
    ensures Enabled(x, step) && !step.Abort? && Next(x, step) != x
  {
    hide Consistent, ClientTurn, ServerTurn, LinkBusy, Unread, NextMessage, WantsReply;
    if LinkBusy(x) { step := LinkMoves(x); }
    else if Unread(x.cp) { ReadingRuns(x.cp); ClientReads(x); step := ClientRuns(ALL, true); }
    else if Unread(x.sp) { ReadingRuns(x.sp); ServerReadsAll(x); step := ServerRuns(ALL, true, true); }
    else {
      SomebodySends(x);
      if x.cp.status == Running && NextMessage(x.c).Some? && x.cp.tx == Free {
        ClientSends(x);
        step := ClientRuns(ALL, false);
      } else {
        ServerSends(x);
        step := ServerRuns(ALL, false, false);
      }
    }
  }

  lemma ReadingRuns(p: Port)
    requires Unread(p)
    ensures p.status == Running
  {
  }

  /** From every reachable state without a failure the joint exchange can be brought to success on both
      sides, in at most as many steps as its weight; only stuttering or the deadline prevents it. */
  lemma {:induction false} Finishes(x: System) returns (steps: seq<Step>)
    requires Consistent(x) && Unbroken(x)
    ensures Follows(x, steps) && NoAbort(steps) && BothSucceeded(After(x, steps)) && |steps| <= Weight(x)
    decreases Weight(x)
  {
    hide Consistent, Enabled, Next, Weight;
    if BothSucceeded(x) {
      steps := [];
    } else {
      var step := NoDeadlock(x);
      StepConsistent(x, step);
      StepWeight(x, step);
      var rest := Finishes(Next(x, step));
      steps := [step] + rest;
      assert steps[1..] == rest;
    }
  }

  // -------------------------------------------------------- early shutdown

  /** Once one side has succeeded and may be gone, the other has posted all it ever posts: whatever
      happens then, it submits nothing more. */
  lemma {:induction false} NothingMoreToSend(x: System, steps: seq<Step>)
    requires Consistent(x) && Follows(x, steps) && (x.cp.status == Returned(true) || x.sp.status == Returned(true))
    ensures After(x, steps).h.clientSent == [Hello, Ack] && After(x, steps).h.serverSent == [World]
    decreases |steps|
  {
    hide Enabled;
    if steps != [] {
      StepConsistent(x, steps[0]);
      StaysReturned(x, steps[0]);
      hide Next;
      NothingMoreToSend(Next(x, steps[0]), steps[1..]);
    }
  }

  lemma StaysReturned(x: System, step: Step)
    requires Enabled(x, step)
    ensures x.cp.status != Running ==> Next(x, step).cp.status == x.cp.status
    ensures x.sp.status != Running ==> Next(x, step).sp.status == x.sp.status
  {
  }

  /** A program that has seen its peer close submits nothing more and posts no receive, in any run from any state,
      aborts included. */
  lemma {:induction false} SilentAfterClose(x: System, steps: seq<Step>)
    requires Follows(x, steps)
    ensures x.s.peerClosed ==>
      && After(x, steps).h.serverSent == x.h.serverSent && After(x, steps).s.peerClosed
      && (After(x, steps).sp.rx == Posted ==> x.sp.rx == Posted)
    ensures x.c.peerClosed ==> After(x, steps).h.clientSent == x.h.clientSent && After(x, steps).c.peerClosed
    decreases |steps|
  {
    hide Next, Enabled;
    if steps != [] {
      SilentStep(x, steps[0]);
      SilentAfterClose(Next(x, steps[0]), steps[1..]);
    }
  }

  lemma SilentStep(x: System, step: Step)
    requires Enabled(x, step)
    ensures x.s.peerClosed ==>
      && Next(x, step).h.serverSent == x.h.serverSent && Next(x, step).s.peerClosed
      && (Next(x, step).sp.rx == Posted ==> x.sp.rx == Posted)
    ensures x.c.peerClosed ==> Next(x, step).h.clientSent == x.h.clientSent && Next(x, step).c.peerClosed
  {
    if step.ClientRuns? { H.ClientSees(x.c, Seen(x.cp, step.view)); }
    if step.ServerRuns? { H.ServerSees(x.s, Seen(x.sp, step.view)); }
  }

  /** An early shutdown strands nobody: after one side succeeded, the other still can, sending nothing. */
  lemma EarlyShutdown(steps: seq<Step>) returns (more: seq<Step>)
    requires Follows(INITIAL, steps) && Unbroken(After(INITIAL, steps))
    requires After(INITIAL, steps).cp.status == Returned(true) || After(INITIAL, steps).sp.status == Returned(true)
    ensures var x := After(INITIAL, steps);
      && Follows(x, more) && NoAbort(more) && BothSucceeded(After(x, more))
      && After(x, more).h.clientSent == x.h.clientSent && After(x, more).h.serverSent == x.h.serverSent
  {
    hide Consistent, Next, Enabled;
    StartsConsistent();
    RunConsistent(INITIAL, steps);
    var x := After(INITIAL, steps);
    more := Finishes(x);
    NothingMoreToSend(x, []);
    NothingMoreToSend(x, more);
  }

  // ------------------------------------------------------- turns are rounds

  /** What the connection reports to the client in one of its turns. */
  function ClientIoOf(p: Port, view: View, again: bool): ClientIo {
    ClientIo(Ok(Seen(p, view)), TrySend(Viewed(p, view), again))
  }

  /** Likewise for the server; a receive is pending exactly when a buffer is posted or filled. */
  function ServerIoOf(p: Port, view: View, postAgain: bool, sendAgain: bool): ServerIo {
    ServerIo(Ok(Seen(p, view)), Viewed(p, view).rx != Empty, Ok(!postAgain), TrySend(Viewed(p, view), sendAgain))
  }

  /** A turn of the client is one round of its loop over what the connection reports, and puts under way
      the message that round submits. */
  lemma ClientTurnIsRound(x: System, view: View, again: bool)
    ensures var y, p, io := ClientTurn(x, view, again), Viewed(x.cp, view), ClientIoOf(x.cp, view, again);
      match ClientRound(x.c, io.poll, io.send)
      case ClientGoes(c, sent) =>
        y.c == c && y.cp.status == x.cp.status && y.cp == (if sent.Some? then p.(tx := Underway(sent.value)) else p)
          && y.h.clientSent == x.h.clientSent + AsSeq(sent)
      case ClientDone(c) => y.c == c && y.cp == p.(status := Returned(true)) && y.h.clientSent == x.h.clientSent
      case ClientFails(_) => y.cp == p.(status := Returned(false)) && y.h.clientSent == x.h.clientSent
  {
  }

  /** Likewise for the server, with the receive it posts. */
  lemma ServerTurnIsRound(x: System, view: View, postAgain: bool, sendAgain: bool)
    ensures var y, p := ServerTurn(x, view, postAgain, sendAgain), Viewed(x.sp, view);
      match ServerRound(x.s, ServerIoOf(x.sp, view, postAgain, sendAgain))
      case ServerGoes(s, posted, sent) =>
        y.s == s && y.sp.status == x.sp.status
          && y.sp == p.(rx := if posted then Posted else p.rx, tx := if sent.Some? then Underway(sent.value) else p.tx)
        && y.h.serverSent == x.h.serverSent + AsSeq(sent)
      case ServerDone(s) => y.s == s && y.sp == p.(status := Returned(true)) && y.h.serverSent == x.h.serverSent
      case ServerFails(_, _) => y.sp.status == Returned(false) && y.h.serverSent == x.h.serverSent
  {
  }

  /** What the connection reports to the client in the course of a joint run. */
  function ClientIos(x: System, steps: seq<Step>): seq<ClientIo>
    requires Follows(x, steps)
    decreases |steps|
  {
    if steps == [] then [] else
    var rest := ClientIos(Next(x, steps[0]), steps[1..]);
    if steps[0].ClientRuns? then [ClientIoOf(x.cp, steps[0].view, steps[0].again)] + rest else rest
  }

  function ServerIos(x: System, steps: seq<Step>): seq<ServerIo>
    requires Follows(x, steps)
    decreases |steps|
  {
    if steps == [] then [] else
    var rest := ServerIos(Next(x, steps[0]), steps[1..]);
    if steps[0].ServerRuns? then [ServerIoOf(x.sp, steps[0].view, steps[0].postAgain, steps[0].sendAgain)] + rest
      else rest
  }

  /** Where a program of the joint system stands when its loop, given the same reports, ends like this. */
  predicate Matches(status: Status, v: Verdict) {
    && (v == Success <==> status == Returned(true))
    && (v == Broken(Deadline) <==> status == Running)
  }

  lemma {:induction false} ClientGone(x: System, steps: seq<Step>)
    requires Follows(x, steps) && x.cp.status != Running
    ensures ClientIos(x, steps) == [] && After(x, steps).cp.status == x.cp.status
      && After(x, steps).h.clientSent == x.h.clientSent
    decreases |steps|
  {
    if steps != [] {
      StaysReturned(x, steps[0]);
      ClientWaits(x, steps[0]);
      hide Next;
      ClientGone(Next(x, steps[0]), steps[1..]);
    }
  }

  /** Only the client's own turns change its state and what it sent. */
  lemma ClientWaits(x: System, step: Step)
    requires Enabled(x, step) && !step.ClientRuns?
    ensures Next(x, step).c == x.c && Next(x, step).h.clientSent == x.h.clientSent
    ensures step != Abort(TheClient) ==> Next(x, step).cp.status == x.cp.status
  {
    if step.ServerRuns? { ServerMinds(x, step.view, step.postAgain, step.sendAgain); }
  }

  /** In every joint run without an abort of the client, its loop over what the connection reported to it
      succeeds exactly if the client returned successfully, is still waiting exactly if it still runs, and
      sent the same messages. */
  lemma {:induction false} ClientLoopInRun(x: System, steps: seq<Step>)
    requires Follows(x, steps) && x.cp.status == Running && !Aborted(steps, TheClient)
    ensures var e, y := ClientRun(x.c, ClientIos(x, steps)), After(x, steps);
      Matches(y.cp.status, e.verdict) && y.h.clientSent == x.h.clientSent + e.sent
    decreases |steps|
  {
    hide ClientRound, ClientTurn, Seen, Viewed, TrySend, Aborted;
    if steps != [] {
      var y, rest := Next(x, steps[0]), steps[1..];
      AbortedLater(steps, TheClient);
      if steps[0].ClientRuns? {
        var io := ClientIoOf(x.cp, steps[0].view, steps[0].again);
        ClientTurnIsRound(x, steps[0].view, steps[0].again);
        assert ClientIos(x, steps)[0] == io && ClientIos(x, steps)[1..] == ClientIos(y, rest);
        H.ClientInTime(x.c, io);
        if y.cp.status != Running { ClientGone(y, rest); } else { ClientLoopInRun(y, rest); }
      } else {
        ClientWaits(x, steps[0]);
        ClientLoopInRun(y, rest);
      }
    }
  }

  lemma AbortedLater(steps: seq<Step>, at: Side)
    requires steps != []
    ensures Aborted(steps[1..], at) || steps[0] == Abort(at) ==> Aborted(steps, at)
  {
    if i :| 0 <= i < |steps[1..]| && steps[1..][i] == Abort(at) { assert steps[i + 1] == Abort(at); }
  }

  lemma {:induction false} ServerGone(x: System, steps: seq<Step>)
    requires Follows(x, steps) && x.sp.status != Running
    ensures ServerIos(x, steps) == [] && After(x, steps).sp.status == x.sp.status
      && After(x, steps).h.serverSent == x.h.serverSent
    decreases |steps|
  {
    if steps != [] {
      StaysReturned(x, steps[0]);
      ServerWaits(x, steps[0]);
      hide Next;
      ServerGone(Next(x, steps[0]), steps[1..]);
    }
  }

  lemma ServerWaits(x: System, step: Step)
    requires Enabled(x, step) && !step.ServerRuns?
    ensures Next(x, step).s == x.s && Next(x, step).h.serverSent == x.h.serverSent
    ensures step != Abort(TheServer) ==> Next(x, step).sp.status == x.sp.status
  {
    if step.ClientRuns? { ClientMinds(x, step.view, step.again); }
  }

  /** The same for the server's loop. */
  lemma {:induction false} ServerLoopInRun(x: System, steps: seq<Step>)
    requires Follows(x, steps) && x.sp.status == Running && !Aborted(steps, TheServer)
    ensures var e, y := ServerRun(x.s, ServerIos(x, steps)), After(x, steps);
      Matches(y.sp.status, e.verdict) && y.h.serverSent == x.h.serverSent + e.sent
    decreases |steps|
  {
    hide ServerRound, ServerTurn, Seen, Viewed, TrySend, Aborted;
    if steps != [] {
      var y, rest := Next(x, steps[0]), steps[1..];
      AbortedLater(steps, TheServer);
      if steps[0].ServerRuns? {
        var io := ServerIoOf(x.sp, steps[0].view, steps[0].postAgain, steps[0].sendAgain);
        ServerTurnIsRound(x, steps[0].view, steps[0].postAgain, steps[0].sendAgain);
        assert ServerIos(x, steps)[0] == io && ServerIos(x, steps)[1..] == ServerIos(y, rest);
        H.ServerInTime(x.s, io);
        if y.sp.status != Running { ServerGone(y, rest); } else { ServerLoopInRun(y, rest); }
      } else {
        ServerWaits(x, steps[0]);
        ServerLoopInRun(y, rest);
      }
    }
  }

  /** What a successful end of the two loops means, in every joint run from the start: the client's, that the server
      received hello, sent world and has or will read the ack; the server's, that all three messages were exchanged. */
  lemma LoopSuccess(steps: seq<Step>)
    requires Follows(INITIAL, steps)
    ensures var y := After(INITIAL, steps);
      && (!Aborted(steps, TheClient) && ClientRun(CLIENT_START, ClientIos(INITIAL, steps)).verdict == Success ==>
            && ClientRun(CLIENT_START, ClientIos(INITIAL, steps)).sent == [Hello, Ack] && y.h.serverSent == [World]
            && ((y.sp.rx == Filled(Ack) && y.h.serverGot == [Hello]) || y.h.serverGot == [Hello, Ack]))
      && (!Aborted(steps, TheServer) && ServerRun(SERVER_START, ServerIos(INITIAL, steps)).verdict == Success ==>
            && ServerRun(SERVER_START, ServerIos(INITIAL, steps)).sent == [World]
            && y.h == History([Hello, Ack], [World], [World], [Hello, Ack]))
  {
    hide Follows, After, ClientRun, ServerRun, ClientIos, ServerIos, Aborted;
    if !Aborted(steps, TheClient) {
      ClientLoopInRun(INITIAL, steps);
      if After(INITIAL, steps).cp.status == Returned(true) { ClientSuccess(steps); }
    }
    if !Aborted(steps, TheServer) {
      ServerLoopInRun(INITIAL, steps);
      if After(INITIAL, steps).sp.status == Returned(true) { ServerSuccess(steps); }
    }
  }
}
