/** Client, server and the link between them as one transition system.

    A turn of either program is one round of its loop, with whatever subset of the
    waiting entries the provider shows it.  The link is assumed reliable: a message is
    placed in a receive buffer the peer has posted, only then is its send completed, and
    completions stay readable after the peer has closed.  Timeouts and provider errors
    are an `Abort` of one side at any moment. */
module Protocol {
  import opened Transport
  import opened Exchange

  /** The send slot: free, message under way, message placed, completion readable. */
  datatype Tx = Free | Underway(m: Message) | Placed | Completed

  /** The receive slot: nothing posted, buffer posted, message placed and its completion readable. */
  datatype Rx = Empty | Posted | Filled(m: Message)

  datatype Status = Running | Returned(ok: bool)

  /** Connection events: what was emitted for this side, and what of it is still unread. */
  datatype Link = Up | Down
  datatype Events = Events(up: bool, down: bool, unread: seq<Link>)

  datatype Port = Port(tx: Tx, rx: Rx, events: Events, status: Status)

  /** Messages each side has sent and received so far. */
  datatype History = History(clientSent: seq<Message>, clientGot: seq<Message>, serverSent: seq<Message>,
                             serverGot: seq<Message>)

  datatype System = System(c: Client, cp: Port, s: Server, sp: Port, h: History)

  const QUIET := Events(false, false, [])

  /** Both connections are set up, each with a receive posted; the handshake is under way. */
  const INITIAL := System(CLIENT_START, Port(Free, Posted, QUIET, Running),
                          SERVER_START, Port(Free, Posted, QUIET, Running), History([], [], [], []))

  // ------------------------------------------------------------------- a view

  /** Which waiting entries a poll gets to see. */
  datatype View = View(tx: bool, rx: bool, eq: bool)

  function SeenTx(p: Port, view: View): seq<Event> { if view.tx && p.tx.Completed? then [Sent] else [] }
  function SeenRx(p: Port, view: View): seq<Event> { if view.rx && p.rx.Filled? then [Received(Bytes(p.rx.m))] else [] }

  function SeenEq(p: Port, view: View): seq<Event> {
    if view.eq && p.events.unread != [] then [if p.events.unread[0] == Up then ConnectedNow else PeerClosed] else []
  }

  /** What one poll reports, in the order of `Connection.Poll`. */
  function Seen(p: Port, view: View): seq<Event> { SeenTx(p, view) + SeenRx(p, view) + SeenEq(p, view) }

  function ReadOff(e: Events, see: bool): Events { if see && e.unread != [] then e.(unread := e.unread[1..]) else e }

  /** The port after that poll. */
  function Viewed(p: Port, view: View): Port {
    p.(tx := if view.tx && p.tx.Completed? then Free else p.tx,
       rx := if view.rx && p.rx.Filled? then Empty else p.rx,
       events := ReadOff(p.events, view.eq))
  }

  function Got(p: Port, view: View, got: seq<Message>): seq<Message> {
    if view.rx && p.rx.Filled? then got + [p.rx.m] else got
  }

  // ------------------------------------------------------------------- turns

  /** `Connection.Send` on a port: an error if the slot is in flight, otherwise whether the provider took it. */
  function TrySend(p: Port, again: bool): Result<bool> { if p.tx != Free then Err(InFlight) else Ok(!again) }

  /** The system once the client has taken the events of one look. */
  function ClientTook(x: System, c: Client, view: View): System {
    x.(c := c, cp := Viewed(x.cp, view), h := x.h.(clientGot := Got(x.cp, view, x.h.clientGot)))
  }

  function ServerTook(x: System, s: Server, view: View): System {
    x.(s := s, sp := Viewed(x.sp, view), h := x.h.(serverGot := Got(x.sp, view, x.h.serverGot)))
  }

  /** The client stops if complete, otherwise it tries to send what is next. */
  function ClientDoes(x: System, again: bool): System {
    if ClientComplete(x.c) then x.(cp := x.cp.(status := Returned(true)))
    else match NextMessage(x.c)
      case None => x
      case Some(m) =>
        if x.cp.tx != Free then x.(cp := x.cp.(status := Returned(false)))
        else if again then x
        else x.(c := ClientPosted(x.c, m), cp := x.cp.(tx := Underway(m)),
          h := x.h.(clientSent := x.h.clientSent + [m]))
  }

  function ClientTurn(x: System, view: View, again: bool): System {
    match ClientOnAll(x.c, Seen(x.cp, view))
    case Failed(_) => var y := ClientTook(x, x.c, view); y.(cp := y.cp.(status := Returned(false)))
    case Going(c) => ClientDoes(ClientTook(x, c, view), again)
  }

  /** The server stops if complete; to reply, it first has a receive posted, then sends. */
  function ServerDoes(x: System, postAgain: bool, sendAgain: bool): System {
    if ServerComplete(x.s) then x.(sp := x.sp.(status := Returned(true)))
    else if !WantsReply(x.s) || (x.sp.rx == Empty && postAgain) then x
    else
      var x := if x.sp.rx == Empty then x.(sp := x.sp.(rx := Posted)) else x;
      if x.sp.tx != Free then x.(sp := x.sp.(status := Returned(false)))
      else if sendAgain then x
      else x.(s := x.s.(phase := AwaitAck), sp := x.sp.(tx := Underway(World)),
              h := x.h.(serverSent := x.h.serverSent + [World]))
  }

  function ServerTurn(x: System, view: View, postAgain: bool, sendAgain: bool): System {
    match ServerOnAll(x.s, Seen(x.sp, view))
    case Failed(_) => var y := ServerTook(x, x.s, view); y.(sp := y.sp.(status := Returned(false)))
    case Going(s) => ServerDoes(ServerTook(x, s, view), postAgain, sendAgain)
  }

  // ------------------------------------------------------------------- steps

  datatype Side = TheClient | TheServer

  datatype Step =
    | ClientRuns(view: View, again: bool)
    | ServerRuns(view: View, postAgain: bool, sendAgain: bool)
    | Place(from: Side)
    | Complete(from: Side)
    | LinkUp(at: Side)
    | LinkDown(at: Side)
    | Abort(at: Side)

  function PortOf(x: System, side: Side): Port { if side == TheClient then x.cp else x.sp }
  function WithPort(x: System, side: Side, p: Port): System { if side == TheClient then x.(cp := p) else x.(sp := p) }
  function Peer(side: Side): Side { if side == TheClient then TheServer else TheClient }

  /** Whether a step can happen. */
  predicate Enabled(x: System, step: Step) {
    match step
    case ClientRuns(_, _) => x.cp.status == Running
    case ServerRuns(_, _, _) => x.sp.status == Running
    case Place(from) => PortOf(x, from).tx.Underway? && PortOf(x, Peer(from)).status == Running
      && PortOf(x, Peer(from)).rx == Posted
    case Complete(from) => PortOf(x, from).tx == Placed
    case LinkUp(at) => !PortOf(x, at).events.up
    case LinkDown(at) => PortOf(x, at).events.up && !PortOf(x, at).events.down && PortOf(x, Peer(at)).status != Running
    case Abort(at) => PortOf(x, at).status == Running
  }

  function Emitted(e: Events, l: Link): Events {
    Events(e.up || l == Up, e.down || l == Down, e.unread + [l])
  }

  function Next(x: System, step: Step): System
    requires Enabled(x, step)
  {
    match step
    case ClientRuns(view, again) => ClientTurn(x, view, again)
    case ServerRuns(view, postAgain, sendAgain) => ServerTurn(x, view, postAgain, sendAgain)
    case Place(from) =>
      var p, q := PortOf(x, from), PortOf(x, Peer(from));
      WithPort(WithPort(x, from, p.(tx := Placed)), Peer(from), q.(rx := Filled(p.tx.m)))
    case Complete(from) => WithPort(x, from, PortOf(x, from).(tx := Completed))
    case LinkUp(at) => WithPort(x, at, PortOf(x, at).(events := Emitted(PortOf(x, at).events, Up)))
    case LinkDown(at) => WithPort(x, at, PortOf(x, at).(events := Emitted(PortOf(x, at).events, Down)))
    case Abort(at) => WithPort(x, at, PortOf(x, at).(status := Returned(false)))
  }

  // --------------------------------------------------------------- invariant

  predicate HelloPlaced(x: System) { x.c.hello.posted && x.cp.tx != Underway(Hello) }
  predicate AckPlaced(x: System) { x.c.ack.posted && x.cp.tx != Underway(Ack) }
  predicate WorldSent(x: System) { x.s.phase == AwaitAck || x.s.phase == Finished }
  predicate WorldPlaced(x: System) { WorldSent(x) && x.sp.tx != Underway(World) }

  /** The client's send slot follows its two messages. */
  predicate ClientSlot(x: System) {
    var c, tx := x.c, x.cp.tx;
    && (c.hello.completed ==> c.hello.posted) && (c.ack.completed ==> c.ack.posted)
    && (c.world ==> c.hello.posted) && (c.ack.posted ==> c.hello.completed && c.world)
    && (if c.hello.posted && !c.hello.completed then tx == Underway(Hello) || tx == Placed || tx == Completed
        else if c.ack.posted && !c.ack.completed then tx == Underway(Ack) || tx == Placed || tx == Completed
        else tx == Free)
  }

  /** The server's send slot follows its one message. */
  predicate ServerSlot(x: System) {
    var s, tx := x.s, x.sp.tx;
    if WorldSent(x) && !s.sent then tx == Underway(World) || tx == Placed || tx == Completed
    else tx == Free && (s.sent ==> WorldSent(x))
  }

  /** Where the client's messages are on the server's side. */
  predicate ServerBuffer(x: System) {
    match x.s.phase
    case AwaitHello => x.sp.rx == (if HelloPlaced(x) then Filled(Hello) else Posted)
    case Reply => HelloPlaced(x) && (x.sp.rx == Empty || x.sp.rx == Posted)
    case AwaitAck => HelloPlaced(x) && x.sp.rx == (if AckPlaced(x) then Filled(Ack) else Posted)
    case Finished => HelloPlaced(x) && AckPlaced(x) && x.sp.rx == Empty
  }

  /** Where the server's message is on the client's side. */
  predicate ClientBuffer(x: System) {
    && x.cp.rx == (if x.c.world then Empty else if WorldPlaced(x) then Filled(World) else Posted)
    && (x.c.world ==> WorldPlaced(x))
  }

  predicate Remembered(x: System) {
    && x.h.clientSent == (if x.c.ack.posted then [Hello, Ack] else if x.c.hello.posted then [Hello] else [])
    && x.h.clientGot == (if x.c.world then [World] else [])
    && x.h.serverSent == (if WorldSent(x) then [World] else [])
    && x.h.serverGot == (match x.s.phase case AwaitHello => [] case Finished => [Hello, Ack] case _ => [Hello])
  }

  predicate EventsOk(e: Events, connected: bool, closed: bool) {
    && (e.up ==> connected || e.unread == [Up] || e.unread == [Up, Down])
    && (!e.up ==> !connected && !e.down && e.unread == [])
    && (connected ==> e.unread == [] || e.unread == [Down])
    && (e.down ==> closed || (|e.unread| > 0 && e.unread[|e.unread| - 1] == Down))
    && (!e.down ==> !closed && (e.unread == [] || e.unread == [Up]))
    && (closed ==> connected && e.unread == [])
  }

  /** A program that returned successfully had everything it waits for; one that has everything returns. */
  predicate EndsOk(x: System) {
    && (x.cp.status == Returned(true) ==> ClientComplete(x.c))
    && (x.cp.status == Running ==> !ClientComplete(x.c))
    && (x.sp.status == Returned(true) ==> ServerComplete(x.s))
    && (x.sp.status == Running ==> !ServerComplete(x.s))
    && (x.cp.events.down ==> x.sp.status != Running) && (x.sp.events.down ==> x.cp.status != Running)
  }

  /** All of it but the ends of the two programs. */
  predicate Core(x: System) {
    && ClientSlot(x) && ServerSlot(x) && ServerBuffer(x) && ClientBuffer(x) && Remembered(x)
    && EventsOk(x.cp.events, x.c.connected, x.c.peerClosed) && EventsOk(x.sp.events, x.s.connected, x.s.peerClosed)
  }

  predicate Consistent(x: System) { Core(x) && EndsOk(x) }

  // -------------------------------------------------------- taking one event

  lemma {:induction false} ClientTakesBoth(c: Client, a: seq<Event>, b: seq<Event>)
    ensures ClientOnAll(c, a + b) ==
      match ClientOnAll(c, a)
      case Failed(why) => Failed(why)
      case Going(next) => ClientOnAll(next, b)
    decreases |a|
  {
    if a == [] {
      assert a + b == b;
    } else {
      assert (a + b)[0] == a[0] && (a + b)[1..] == a[1..] + b;
      match ClientOn(c, a[0])
      case Failed(_) =>
      case Going(next) => ClientTakesBoth(next, a[1..], b);
    }
  }

  lemma {:induction false} ServerTakesBoth(s: Server, a: seq<Event>, b: seq<Event>)
    ensures ServerOnAll(s, a + b) ==
      match ServerOnAll(s, a)
      case Failed(why) => Failed(why)
      case Going(next) => ServerOnAll(next, b)
    decreases |a|
  {
    if a == [] {
      assert a + b == b;
    } else {
      assert (a + b)[0] == a[0] && (a + b)[1..] == a[1..] + b;
      match ServerOn(s, a[0])
      case Failed(_) =>
      case Going(next) => ServerTakesBoth(next, a[1..], b);
    }
  }

  /** Looking at the send queue alone, then at the receive queue, then at the event queue. */
  const TX_ONLY := View(true, false, false)
  const RX_ONLY := View(false, true, false)
  const EQ_ONLY := View(false, false, true)

  /** A completed send is one the client waits for. */
  lemma ClientTakesTx(x: System)
    requires Core(x)
    ensures var r := ClientOnAll(x.c, SeenTx(x.cp, TX_ONLY)); r.Going? && Core(ClientTook(x, r.state, TX_ONLY))
  {
    if x.cp.tx.Completed? { assert SeenTx(x.cp, TX_ONLY)[1..] == []; }
  }

  /** A received message is the one world the client waits for. */
  lemma ClientTakesRx(x: System)
    requires Core(x)
    ensures var r := ClientOnAll(x.c, SeenRx(x.cp, RX_ONLY)); r.Going? && Core(ClientTook(x, r.state, RX_ONLY))
  {
    if x.cp.rx.Filled? { assert SeenRx(x.cp, RX_ONLY)[1..] == []; }
  }

  lemma ClientTakesEq(x: System)
    requires Core(x)
    ensures var r := ClientOnAll(x.c, SeenEq(x.cp, EQ_ONLY)); r.Going? && Core(ClientTook(x, r.state, EQ_ONLY))
  {
    if x.cp.events.unread != [] { assert SeenEq(x.cp, EQ_ONLY)[1..] == []; }
  }

  lemma ServerTakesTx(x: System)
    requires Core(x)
    ensures var r := ServerOnAll(x.s, SeenTx(x.sp, TX_ONLY)); r.Going? && Core(ServerTook(x, r.state, TX_ONLY))
  {
    if x.sp.tx.Completed? { assert SeenTx(x.sp, TX_ONLY)[1..] == []; }
  }

  /** A received message is the hello or the ack the server's phase waits for. */
  lemma ServerTakesRx(x: System)
    requires Core(x)
    ensures var r := ServerOnAll(x.s, SeenRx(x.sp, RX_ONLY)); r.Going? && Core(ServerTook(x, r.state, RX_ONLY))
  {
    if x.sp.rx.Filled? { assert SeenRx(x.sp, RX_ONLY)[1..] == []; }
  }

  lemma ServerTakesEq(x: System)
    requires Core(x)
    ensures var r := ServerOnAll(x.s, SeenEq(x.sp, EQ_ONLY)); r.Going? && Core(ServerTook(x, r.state, EQ_ONLY))
  {
    if x.sp.events.unread != [] { assert SeenEq(x.sp, EQ_ONLY)[1..] == []; }
  }

  // --------------------------------------------------------------- whole turns

  /** No event of a view surprises the client, and the system stays in order. */
  lemma ClientLooks(x: System, view: View)
    requires Core(x)
    ensures var r := ClientOnAll(x.c, Seen(x.cp, view)); r.Going? && Core(ClientTook(x, r.state, view))
  {
    hide Core, ClientOn;
    var x1, x2, x3 := x, x, x;
    if view.tx {
      ClientTakesTx(x);
      x1 := ClientTook(x, ClientOnAll(x.c, SeenTx(x.cp, TX_ONLY)).state, TX_ONLY);
    }
    x2, x3 := x1, x1;
    if view.rx {
      ClientTakesRx(x1);
      x2 := ClientTook(x1, ClientOnAll(x1.c, SeenRx(x1.cp, RX_ONLY)).state, RX_ONLY);
    }
    x3 := x2;
    if view.eq {
      ClientTakesEq(x2);
      x3 := ClientTook(x2, ClientOnAll(x2.c, SeenEq(x2.cp, EQ_ONLY)).state, EQ_ONLY);
    }
    ClientTakesBoth(x.c, SeenTx(x.cp, view), SeenRx(x.cp, view));
    ClientTakesBoth(x.c, SeenTx(x.cp, view) + SeenRx(x.cp, view), SeenEq(x.cp, view));
    assert x3 == ClientTook(x, x3.c, view);
  }

  lemma ServerLooks(x: System, view: View)
    requires Core(x)
    ensures var r := ServerOnAll(x.s, Seen(x.sp, view)); r.Going? && Core(ServerTook(x, r.state, view))
  {
    hide Core, ServerOn;
    var x1, x2, x3 := x, x, x;
    if view.tx {
      ServerTakesTx(x);
      x1 := ServerTook(x, ServerOnAll(x.s, SeenTx(x.sp, TX_ONLY)).state, TX_ONLY);
    }
    x2, x3 := x1, x1;
    if view.rx {
      ServerTakesRx(x1);
      x2 := ServerTook(x1, ServerOnAll(x1.s, SeenRx(x1.sp, RX_ONLY)).state, RX_ONLY);
    }
    x3 := x2;
    if view.eq {
      ServerTakesEq(x2);
      x3 := ServerTook(x2, ServerOnAll(x2.s, SeenEq(x2.sp, EQ_ONLY)).state, EQ_ONLY);
    }
    ServerTakesBoth(x.s, SeenTx(x.sp, view), SeenRx(x.sp, view));
    ServerTakesBoth(x.s, SeenTx(x.sp, view) + SeenRx(x.sp, view), SeenEq(x.sp, view));
    assert x3 == ServerTook(x, x3.s, view);
  }

  /** What the client does after its view keeps order, and it does not fail. */
  lemma ClientActs(x: System, view: View, again: bool)
    requires Consistent(x) && x.cp.status == Running
    ensures Consistent(ClientTurn(x, view, again)) && ClientTurn(x, view, again).cp.status != Returned(false)
  {
    hide Seen;
    ClientLooks(x, view);
    var c := ClientOnAll(x.c, Seen(x.cp, view)).state;
    hide ClientOnAll;
    assert Core(ClientTook(x, c, view));
  }

  lemma ServerActs(x: System, view: View, postAgain: bool, sendAgain: bool)
    requires Consistent(x) && x.sp.status == Running
    ensures Consistent(ServerTurn(x, view, postAgain, sendAgain))
      && ServerTurn(x, view, postAgain, sendAgain).sp.status != Returned(false)
  {
    hide Seen;
    ServerLooks(x, view);
    var s := ServerOnAll(x.s, Seen(x.sp, view)).state;
    hide ServerOnAll;
    assert Core(ServerTook(x, s, view));
  }

  /** A message under way meets the buffer posted for it, and is remembered there. */
  lemma PlaceKeeps(x: System, from: Side)
    requires Consistent(x) && Enabled(x, Place(from))
    ensures Consistent(Next(x, Place(from)))
  {
    hide EventsOk;
  }

  lemma CompleteKeeps(x: System, from: Side)
    requires Consistent(x) && Enabled(x, Complete(from))
    ensures Consistent(Next(x, Complete(from)))
  {
    hide EventsOk;
  }

  /** Link events and ends of programs do not move messages. */
  lemma SameTraffic(x: System, y: System)
    requires ClientSlot(x) && ServerSlot(x) && ServerBuffer(x) && ClientBuffer(x) && Remembered(x)
    requires y.c == x.c && y.s == x.s && y.h == x.h && y.cp.tx == x.cp.tx && y.cp.rx == x.cp.rx && y.sp.tx == x.sp.tx
      && y.sp.rx == x.sp.rx
    ensures ClientSlot(y) && ServerSlot(y) && ServerBuffer(y) && ClientBuffer(y) && Remembered(y)
  {
  }

  lemma LinkKeeps(x: System, step: Step)
    requires Consistent(x) && Enabled(x, step) && (step.LinkUp? || step.LinkDown? || step.Abort?)
    ensures Consistent(Next(x, step))
  {
    SameTraffic(x, Next(x, step));
    hide ClientSlot, ServerSlot, ServerBuffer, ClientBuffer, Remembered;
  }

  /** Every step keeps the system in order: no program ever sees an unexpected event or a busy slot. */
  lemma StepConsistent(x: System, step: Step)
    requires Consistent(x) && Enabled(x, step)
    ensures Consistent(Next(x, step))
    ensures !step.Abort? ==> (Next(x, step).cp.status == Returned(false) ==> x.cp.status == Returned(false))
                             && (Next(x, step).sp.status == Returned(false) ==> x.sp.status == Returned(false))
  {
    hide Consistent, ClientTurn, ServerTurn;
    match step
    case ClientRuns(view, again) => ClientActs(x, view, again); ClientMinds(x, view, again);
    case ServerRuns(view, postAgain, sendAgain) => ServerActs(x, view, postAgain, sendAgain);
      ServerMinds(x, view, postAgain, sendAgain);
    case Place(from) => PlaceKeeps(x, from);
    case Complete(from) => CompleteKeeps(x, from);
    case _ => LinkKeeps(x, step);
  }

  /** A turn of the client touches nothing of the server's, and the other way round. */
  lemma ClientMinds(x: System, view: View, again: bool)
    ensures ClientTurn(x, view, again).s == x.s && ClientTurn(x, view, again).sp == x.sp
  {
  }

  lemma ServerMinds(x: System, view: View, postAgain: bool, sendAgain: bool)
    ensures ServerTurn(x, view, postAgain, sendAgain).c == x.c && ServerTurn(x, view, postAgain, sendAgain).cp == x.cp
  {
  }
}
