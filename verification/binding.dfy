/** The joint protocol's ports and the transport's connections: under a provider that shows what the
    link has done and nothing else, a connection behaves as its port, and a round of either program on
    it is a turn of the joint system. */
module Binding {
  import opened Handles
  import opened ResourceGraph
  import opened ShimSpec
  import R = Runs
  import opened Shim
  import opened Ownership
  import opened Transport
  import opened Exchange
  import opened Protocol
  import opened Progress

  /** An open connection whose slots are as free or busy as the port's; no completion was lost. */
  ghost predicate Bound(conn: Connection, p: Port)
    reads conn, conn.tx, conn.rx, conn.w, conn.w.objs
  {
    && conn.w.Valid() && conn.Valid() && conn.Ready() && !conn.closing && !conn.lost && conn.ep != null
    && conn.tx.pending == (p.tx != Tx.Free) && conn.rx.pending == (p.rx != Empty)
  }

  /** A connection that was just set up, on either side, is bound to the initial port. */
  lemma StartsBound(conn: Connection)
    requires conn.w.Valid() && conn.Valid() && conn.Opened() && !conn.lost && conn.ep != null
    ensures Bound(conn, INITIAL.cp) && Bound(conn, INITIAL.sp)
  {
    hide World.Valid, Connection.Valid;
  }

  /** The provider's answers when it shows the entries of `view` and no others. */
  predicate Honest(k: Conn, p: Port, view: View, a: PollAnswers) {
    && (if view.tx && p.tx.Completed? then ShowsOwn(k, Direction.Send, a.tx.read) else ShowsNothing(a.tx.read))
    && (if view.rx && p.rx.Filled?
        then ShowsOwn(k, Recv, a.rx.read) && a.rx.read.len == |Bytes(p.rx.m)| && Bytes(p.rx.m) <= a.memory
        else ShowsNothing(a.rx.read))
    && HonestEvents(p, view, a.eq)
  }

  predicate HonestEvents(p: Port, view: View, a: EqProbe) {
    a.alloc &&
    if view.eq && p.events.unread != []
    then a.read.ret >= CM_ENTRY_SIZE
      && a.read.kind == (if p.events.unread[0] == Up then CmKind.Connected else PeerShutdown)
    else a.read.ret == 0 || a.read.ret == -EAGAIN
  }

  lemma EventsSeen(q: Eq, p: Port, view: View, a: EqProbe)
    requires HonestEvents(p, view, a)
    ensures EqResult(EqPoll(q, a.alloc, a.read, a.error)) == Ok(SeenEq(p, view))
  {
  }

  /** What the two looks of one honest poll report. */
  lemma QueuesSeen(g: Graph, k: Conn, p: Port, view: View, a: PollAnswers)
    requires Inv(g) && Owns(g, k) && k.ep != null && Honest(k, p, view, a)
    requires Flies(g, k.tx.op) == (p.tx != Tx.Free) && Flies(g, k.rx.op) == (p.rx != Empty)
    ensures var x1 := Polling(g, k, Direction.Send, a.tx.read, a.tx.error);
      var x2 := Polling(x1.g, k, Recv, a.rx.read, a.rx.error);
      && TxResult(x1) == Ok(SeenTx(p, view)) && RxResult(x2, a.memory) == Ok(SeenRx(p, view))
      && (x1.ret == 1 <==> view.tx && p.tx.Completed?) && (x2.ret == 1 <==> view.rx && p.rx.Filled?)
      && (x1.ret == 1 ==> x1.out.err == 0) && (x2.ret == 1 ==> x2.out.err == 0)
  {
    hide Inv, Owns, Polling, Flies, Bytes;
    if view.rx && p.rx.Filled? { assert a.memory[..a.rx.read.len] == Bytes(p.rx.m); }
    HonestLook(g, k, Direction.Send, a.tx.read, a.tx.error);
    PollKeeps(g, k, a.tx);
    HonestLook(Polling(g, k, Direction.Send, a.tx.read, a.tx.error).g, k, Recv, a.rx.read, a.rx.error);
  }

  // ---------------------------------------------------- one call on a connection

  lemma BoundParts(conn: Connection, p: Port)
    requires Bound(conn, p)
    ensures var k, g := conn.Handles(), conn.w.g;
      && conn.Apart() && conn.tx.box.Length == BUFFER_SIZE && Inv(g) && Owns(g, k) && k.ep != null && k.eq != null
      && Flies(g, k.tx.op) == (p.tx != Tx.Free) && Flies(g, k.rx.op) == (p.rx != Empty)
  {
    hide World.Valid, Inv, Owns, Fitted, Flies;
    conn.w.Consistent();
    OwnedParts(conn.w.g, conn.Handles());
  }

  /** An honest poll reports exactly what the port shows, and leaves the connection bound to the rest. */
  method PollSees(conn: Connection, ghost p: Port, ghost view: View, a: PollAnswers) returns (r: Result<seq<Event>>)
    requires Bound(conn, p) && Honest(conn.Handles(), p, view, a) && |a.memory| == BUFFER_SIZE
    modifies conn.tx`pending, conn.rx`pending, conn.rx.box, conn`lost, conn.w`g, conn.w.objs
    ensures r == Ok(Seen(p, view)) && Bound(conn, Viewed(p, view))
    ensures conn.w.objs == old(conn.w.objs) && conn.w.cm == old(conn.w.cm)
  {
    hide World.Valid, Connection.Valid, Inv, Owns, Polling, Flies, Honest, TxResult, RxResult, EqResult;
    BoundParts(conn, p);
    QueuesSeen(conn.w.g, conn.Handles(), p, view, a);
    HonestParts(conn.Handles(), p, view, a);
    EventsSeen(conn.eq, p, view, a.eq);
    r := conn.Poll(a);
  }

  lemma HonestParts(k: Conn, p: Port, view: View, a: PollAnswers)
    requires Honest(k, p, view, a)
    ensures HonestEvents(p, view, a.eq)
  {
  }

  /** A send of a protocol message is the port's: refused while the slot is busy, otherwise taken or to be repeated. */
  method SendTries(conn: Connection, ghost p: Port, m: Message, again: bool) returns (r: Result<bool>)
    requires Bound(conn, p) && |Bytes(m)| <= conn.ep.maxMsg
    modifies conn.tx`pending, conn.tx.box, conn.w`g, conn.w.objs
    ensures r == TrySend(p, again) && Bound(conn, if r == Ok(true) then p.(tx := Underway(m)) else p)
    ensures r == Ok(true) ==> Bytes(m) <= conn.tx.box[..]
    ensures conn.w.objs == old(conn.w.objs) && conn.w.cm == old(conn.w.cm)
  {
    hide World.Valid, Connection.Valid, Inv, Owns, Sending, Ownership.Complete;
    BoundParts(conn, p);
    r := conn.Send(Bytes(m), if again then -EAGAIN else 0);
  }

  /** So is posting the receive buffer. */
  method PostTries(conn: Connection, ghost p: Port, again: bool) returns (r: Result<bool>)
    requires Bound(conn, p) && BUFFER_SIZE <= conn.ep.maxMsg
    modifies conn.rx`pending, conn.w`g, conn.w.objs
    ensures r == if p.rx != Empty then Err(InFlight) else Ok(!again)
    ensures Bound(conn, if r == Ok(true) then p.(rx := Rx.Posted) else p)
    ensures conn.w.objs == old(conn.w.objs) && conn.w.cm == old(conn.w.cm)
  {
    hide World.Valid, Connection.Valid, Inv, Owns, Sending, Ownership.Complete;
    BoundParts(conn, p);
    r := conn.PostRecv(if again then -EAGAIN else 0);
  }

  // ------------------------------------------------- rounds of the programs

  /** What the client does after the events of a round, on a bound connection. */
  method ClientActsOn(conn: Connection, e: ClientExchange, ghost p: Port, again: bool) returns (end: Option<Verdict>)
    requires Bound(conn, p) && e !in conn.w.objs && BUFFER_SIZE <= conn.ep.maxMsg
    modifies e, conn.tx`pending, conn.tx.box, conn.w`g, conn.w.objs
    ensures conn.w.objs == old(conn.w.objs)
    ensures match ClientAct(old(e.State()), TrySend(p, again))
      case ClientDone(_) => end == Some(Success) && Bound(conn, p)
      case ClientFails(why) => end == Some(Broken(why)) && Bound(conn, p)
      case ClientGoes(c, sent) =>
        end == None && e.State() == c && Bound(conn, if sent.Some? then p.(tx := Underway(sent.value)) else p)
  {
    hide Bound;
    BoundEndpoint(conn, p);
    if e.worldReceived && e.helloCompleted && e.ackCompleted { return Some(Success); }
    var message := NextMessage(e.State());
    if message == None { return None; }
    var sent := SendTries(conn, p, message.value, again);
    if sent.Err? { return Some(Broken(Io(sent.error))); }
    if sent.value { e.Posted(message.value); }
    return None;
  }

  /** A round of the client's loop on a bound connection, with an honest provider, is the client's turn. */
  method ClientRoundOn(conn: Connection, e: ClientExchange, ghost x: System, ghost view: View, again: bool,
                       a: PollAnswers)
    returns (end: Option<Verdict>)
    requires Bound(conn, x.cp) && x.cp.status == Running && e.State() == x.c && e !in conn.w.objs
    requires conn.ep != null && BUFFER_SIZE <= conn.ep.maxMsg
    requires Honest(conn.Handles(), x.cp, view, a) && |a.memory| == BUFFER_SIZE
    modifies e, conn.tx`pending, conn.rx`pending, conn.tx.box, conn.rx.box, conn`lost, conn.w`g, conn.w.objs
    ensures var y := ClientTurn(x, view, again);
      && Bound(conn, y.cp)
      && (end == None <==> y.cp.status == Running) && (end == Some(Success) <==> y.cp.status == Returned(true))
      && (end == None ==> e.State() == y.c)
  {
    hide Bound, Honest, Seen, ClientTurn, ClientAct, ClientOnAll, Viewed;
    BoundEndpoint(conn, x.cp);
    ClientTurnIsRound(x, view, again);
    ghost var p := Viewed(x.cp, view);
    var polled := PollSees(conn, x.cp, view, a);
    var taken := e.TakeAll(polled.value);
    if taken.Failed? {
      SameSlots(conn, p, p.(status := Returned(false)));
      return Some(Broken(taken.why));
    }
    end := ClientActsOn(conn, e, p, again);
    ViewedStatus(x.cp, view);
    if end.Some? { SameSlots(conn, p, p.(status := Returned(end.value == Success))); }
  }

  /** What the server does after the events of a round: a receive is posted before world is sent. */
  method ServerActsOn(conn: Connection, e: ServerExchange, ghost p: Port, postAgain: bool, sendAgain: bool)
    returns (end: Option<Verdict>)
    requires Bound(conn, p) && e !in conn.w.objs && BUFFER_SIZE <= conn.ep.maxMsg
    modifies e, conn.tx`pending, conn.tx.box, conn.rx`pending, conn.w`g, conn.w.objs
    ensures conn.w.objs == old(conn.w.objs)
    ensures match ServerAct(old(e.State()), p.rx != Empty, Ok(!postAgain), TrySend(p, sendAgain))
      case ServerDone(_) => end == Some(Success) && Bound(conn, p)
      case ServerFails(why, _) => end == Some(Broken(why))
      case ServerGoes(s, posted, sent) =>
        && end == None && e.State() == s
        && Bound(conn,
             p.(rx := if posted then Rx.Posted else p.rx, tx := if sent.Some? then Underway(sent.value) else p.tx))
  {
    hide Bound;
    BoundEndpoint(conn, p);
    if e.phase == Finished && e.sent { return Some(Success); }
    if !e.connected || e.peerClosed || e.phase != Reply { return None; }
    ghost var q := p;
    if !conn.rx.pending {
      var posted := PostTries(conn, p, postAgain);
      if !posted.value { return None; }
      q := p.(rx := Rx.Posted);
      BoundEndpoint(conn, q);
    }
    var sent := SendTries(conn, q, World, sendAgain);
    if sent.Err? { return Some(Broken(Io(sent.error))); }
    if sent.value { e.phase := AwaitAck; }
    return None;
  }

  /** A round of the server's loop on a bound connection, with an honest provider, is the server's turn. */
  method ServerRoundOn(conn: Connection, e: ServerExchange, ghost x: System, ghost view: View, postAgain: bool,
                       sendAgain: bool,
                       a: PollAnswers) returns (end: Option<Verdict>)
    requires Bound(conn, x.sp) && x.sp.status == Running && e.State() == x.s && e !in conn.w.objs
    requires conn.ep != null && BUFFER_SIZE <= conn.ep.maxMsg
    requires Honest(conn.Handles(), x.sp, view, a) && |a.memory| == BUFFER_SIZE
    modifies e, conn.tx`pending, conn.rx`pending, conn.tx.box, conn.rx.box, conn`lost, conn.w`g, conn.w.objs
    ensures var y := ServerTurn(x, view, postAgain, sendAgain);
      && (y.sp.status != Returned(false) ==> Bound(conn, y.sp))
      && (end == None <==> y.sp.status == Running) && (end == Some(Success) <==> y.sp.status == Returned(true))
      && (end == None ==> e.State() == y.s)
  {
    hide Bound, Honest, Seen, ServerTurn, ServerAct, ServerOnAll, Viewed;
    BoundEndpoint(conn, x.sp);
    ServerTurnIsRound(x, view, postAgain, sendAgain);
    ghost var p := Viewed(x.sp, view);
    ViewedStatus(x.sp, view);
    var polled := PollSees(conn, x.sp, view, a);
    var taken := e.TakeAll(polled.value);
    if taken.Failed? { return Some(Broken(taken.why)); }
    end := ServerActsOn(conn, e, p, postAgain, sendAgain);
    if end == Some(Success) { SameSlots(conn, p, p.(status := Returned(true))); }
  }

  lemma ViewedStatus(p: Port, view: View)
    ensures Viewed(p, view).status == p.status
  {
  }

  lemma SameSlots(conn: Connection, p: Port, q: Port)
    requires Bound(conn, p) && q.tx == p.tx && q.rx == p.rx
    ensures Bound(conn, q)
  {
  }

  lemma BoundEndpoint(conn: Connection, p: Port)
    requires Bound(conn, p)
    ensures conn.ep != null && conn !in conn.w.objs && conn.tx !in conn.w.objs && conn.rx !in conn.w.objs
    ensures conn.rx.pending == (p.rx != Empty)
  {
    hide World.Valid, Owns, Fitted, Tracked;
  }
}
