/** What one transport connection owns in the shim's resource graph, and that every
    shim call the transport makes keeps it so.

    Nothing else uses the connection's domain and event queue, its two queues carry
    only its two operations, and each operation flies on its own queue or not at all. */
module Ownership {
  import opened Handles
  import opened ResourceGraph
  import opened ShimSpec
  import opened GraphLaws

  const TX_ID := 1
  const RX_ID := 2

  /** One direction of a connection: queue, region and operation. */
  datatype Lane = Lane(cq: Cq?, mr: Mr?, op: Op?)

  datatype Conn = Conn(domain: Domain?, eq: Eq?, ep: Endpoint?, tx: Lane, rx: Lane)

  const NOTHING := Conn(null, null, null, Lane(null, null, null), Lane(null, null, null))

  function LaneOf(k: Conn, dir: Direction): Lane { if dir == Recv then k.rx else k.tx }

  function WithLane(k: Conn, dir: Direction, lane: Lane): Conn {
    if dir == Recv then k.(rx := lane) else k.(tx := lane)
  }

  predicate LaneLive(g: Graph, lane: Lane) { LiveCq(g, lane.cq) && LiveMr(g, lane.mr) && LiveOp(g, lane.op) }

  predicate AllLive(g: Graph, k: Conn) {
    LiveDomain(g, k.domain) && LiveEq(g, k.eq) && LiveEp(g, k.ep) && LaneLive(g, k.tx) && LaneLive(g, k.rx)
  }

  predicate LaneShaped(lane: Lane, domain: Domain?, id: nat) {
    && (lane.cq != null ==> lane.cq.domain == domain)
    && (lane.mr != null ==> lane.mr.domain == domain)
    && (lane.op != null ==> lane.op.id == id)
  }

  predicate Shaped(k: Conn) {
    && LaneShaped(k.tx, k.domain, TX_ID) && LaneShaped(k.rx, k.domain, RX_ID)
    && (k.tx.cq != null ==> k.tx.cq != k.rx.cq) && (k.tx.mr != null ==> k.tx.mr != k.rx.mr)
    && (k.ep != null ==> k.ep.domain == k.domain && k.ep.eq == k.eq && k.ep.tx == k.tx.cq && k.ep.rx == k.rx.cq)
  }

  /** Nobody else depends on the connection's domain and event queue. */
  ghost predicate Exclusive(g: Graph, k: Conn) {
    && (forall c | c in g.stages :: c.domain == k.domain ==> c == k.tx.cq || c == k.rx.cq)
    && (forall e | e in g.eps :: e.domain == k.domain || e.eq == k.eq ==> e == k.ep)
    && (forall m | m in g.mrs :: m.domain == k.domain ==> m == k.tx.mr || m == k.rx.mr)
    && (forall l | l in g.listeners :: l.eq != k.eq)
  }

  /** Each operation flies on its own lane's queue, and nothing else flies there. */
  ghost predicate Lanes(g: Graph, k: Conn) {
    forall o | o in g.ops && g.ops[o].flight.Flying? ::
      && (g.ops[o].flight.cq == k.tx.cq <==> o == k.tx.op)
      && (g.ops[o].flight.cq == k.rx.cq <==> o == k.rx.op)
  }

  ghost predicate Owns(g: Graph, k: Conn) {
    AllLive(g, k) && Shaped(k) && Exclusive(g, k) && Lanes(g, k)
  }

  predicate Flies(g: Graph, o: Op?) { o != null && o in g.ops && g.ops[o].flight.Flying? }

  /** The endpoint takes messages. */
  predicate Open(g: Graph, k: Conn) {
    k.ep != null && k.ep in g.eps && g.eps[k.ep] == EpRec(true, false)
  }

  /** Set up completely: the endpoint takes messages and both lanes have all their parts. */
  predicate Complete(g: Graph, k: Conn) {
    && Open(g, k) && k.tx.mr != null && k.tx.op != null && k.rx.mr != null && k.rx.op != null
  }

  const QUEUE_CAPACITY: U64 := 16

  /** Queue sizes and access rights the transport asks for. */
  predicate Fitted(k: Conn) {
    && (k.tx.cq != null ==> k.tx.cq.capacity == QUEUE_CAPACITY)
    && (k.rx.cq != null ==> k.rx.cq.capacity == QUEUE_CAPACITY)
    && (k.tx.mr != null ==> k.tx.mr.access == ACCESS_SEND) && (k.rx.mr != null ==> k.rx.mr.access == ACCESS_RECV)
  }

  /** The two in-flight flags cover what is in flight, and if `exact` nothing else. */
  predicate Tracked(g: Graph, k: Conn, txPending: bool, rxPending: bool, exact: bool) {
    && (Flies(g, k.tx.op) ==> txPending) && (Flies(g, k.rx.op) ==> rxPending)
    && (exact ==> txPending == Flies(g, k.tx.op) && rxPending == Flies(g, k.rx.op))
  }

  function DomainsHeld(k: Conn): set<Domain> { if k.domain == null then {} else {k.domain} }
  function EqsIn(q: Eq?): set<Eq> { if q == null then {} else {q} }
  function EqsHeld(k: Conn): set<Eq> { EqsIn(k.eq) }
  function EpsHeld(k: Conn): set<Endpoint> { if k.ep == null then {} else {k.ep} }
  function CqsHeld(k: Conn): set<Cq> {
    (if k.tx.cq == null then {} else {k.tx.cq}) + if k.rx.cq == null then {} else {k.rx.cq}
  }
  function MrsHeld(k: Conn): set<Mr> {
    (if k.tx.mr == null then {} else {k.tx.mr}) + if k.rx.mr == null then {} else {k.rx.mr}
  }
  function OpsHeld(k: Conn): set<Op> {
    (if k.tx.op == null then {} else {k.tx.op}) + if k.rx.op == null then {} else {k.rx.op}
  }

  /** Apart from the connection's own handles, `k` before and `k'` after, nothing in the graph changed:
      a handle it gave up is gone, one it gained is new, and everybody else's are as they were. */
  predicate SameRest(g: Graph, k: Conn, g': Graph, k': Conn) {
    && g'.fabrics == g.fabrics && g'.listeners == g.listeners
    && g'.domains - DomainsHeld(k') == g.domains - DomainsHeld(k)
    && g'.eqs - EqsHeld(k') == g.eqs - EqsHeld(k)
    && g'.eps - EpsHeld(k') == g.eps - EpsHeld(k)
    && g'.stages - CqsHeld(k') == g.stages - CqsHeld(k)
    && g'.lists - CqsHeld(k') == g.lists - CqsHeld(k)
    && g'.mrs - MrsHeld(k') == g.mrs - MrsHeld(k)
    && g'.ops - OpsHeld(k') == g.ops - OpsHeld(k)
  }

  // ------------------------------------------------------------------ opens

  lemma NothingOwned(g: Graph)
    requires Inv(g)
    ensures Owns(g, NOTHING)
  {
  }

  lemma OwnDomain(g: Graph, d: Domain)
    requires Inv(g) && d !in g.domains
    ensures Owns(AddDomain(g, d), NOTHING.(domain := d))
  {
    hide Staged, Listed, Borrowed, Logged;
  }

  lemma OwnEq(g: Graph, k: Conn, q: Eq)
    requires Inv(g) && Owns(g, k) && k.eq == null && q !in g.eqs && k.ep == null
    ensures Owns(AddEq(g, q), k.(eq := q))
  {
    hide Staged, Listed, Borrowed, Logged;
  }

  lemma CqLanes(g: Graph, k: Conn, dir: Direction, c: Cq)
    requires Listed(g) && Lanes(g, k) && LaneOf(k, dir).cq == null && c !in g.stages
    ensures Lanes(AddCq(g, c), WithLane(k, dir, LaneOf(k, dir).(cq := c)))
  {
    assert forall o | o in g.ops && g.ops[o].flight.Flying? :: g.ops[o].flight.cq != c;
  }

  lemma OwnCq(g: Graph, k: Conn, dir: Direction, c: Cq)
    requires Inv(g) && Owns(g, k) && LaneOf(k, dir).cq == null && c !in g.stages && c.domain == k.domain && k.ep == null
    ensures Owns(AddCq(g, c), WithLane(k, dir, LaneOf(k, dir).(cq := c)))
    ensures AddCq(g, c).stages[c].Unused?
  {
    hide Closed, Staged, Listed, Borrowed, Logged, Lanes;
    CqLanes(g, k, dir, c);
  }

  lemma OwnMr(g: Graph, k: Conn, dir: Direction, m: Mr)
    requires Inv(g) && Owns(g, k) && LaneOf(k, dir).mr == null && m !in g.mrs && m.domain == k.domain
    ensures Owns(AddMr(g, m), WithLane(k, dir, LaneOf(k, dir).(mr := m)))
  {
    hide Closed, Staged, Listed, Borrowed, Logged;
  }

  lemma OwnOp(g: Graph, k: Conn, dir: Direction, o: Op)
    requires Inv(g) && Owns(g, k) && LaneOf(k, dir).op == null && o !in g.ops
      && o.id == if dir == Recv then RX_ID else TX_ID
    ensures Owns(AddOp(g, o), WithLane(k, dir, LaneOf(k, dir).(op := o)))
  {
    hide Closed, Staged, Listed, Borrowed, Logged;
  }

  /** What an endpoint open may change: the endpoint joins if it is returned, its queues change stage. */
  lemma SetupParts(g: Graph, e: Endpoint, request: bool, fi: EpAnswers)
    requires Inv(g) && e !in g.eps && Openable(g, e)
    ensures e.tx in g.lists && e.rx in g.lists
    ensures var g' := EndpointSetup(g, e, request, fi);
      && g' == g.(stages := g'.stages, eps := g'.eps) && g'.stages.Keys == g.stages.Keys
      && g'.eps.Keys == (if EndpointReturned(request, fi) then g.eps.Keys + {e} else g.eps.Keys)
      && (SetupCode(fi) == 0 ==> e in g'.eps && g'.eps[e] == EpRec(true, false))
  {
    hide Inv, RemoveEndpoint;
    Rollback(g, e);
  }

  /** However far the endpoint open got, the connection owns what is left of it. */
  lemma EndpointKept(g: Graph, g': Graph, k: Conn, e: Endpoint)
    requires Owns(g, k) && k.ep == null && g' == g.(stages := g'.stages, eps := g'.eps)
      && g'.stages.Keys == g.stages.Keys
    requires e.domain == k.domain && e.eq == k.eq && e.tx == k.tx.cq && e.rx == k.rx.cq
      && g'.eps.Keys == g.eps.Keys + {e}
    ensures Owns(g', k.(ep := e))
  {
  }

  lemma EndpointUndone(g: Graph, g': Graph, k: Conn)
    requires Owns(g, k) && g' == g.(stages := g'.stages, eps := g'.eps) && g'.stages.Keys == g.stages.Keys
      && g'.eps.Keys == g.eps.Keys
    ensures Owns(g', k)
  {
  }

  lemma OwnEndpoint(g: Graph, k: Conn, e: Endpoint, request: bool, fi: EpAnswers)
    requires Inv(g) && Owns(g, k) && k.ep == null && e !in g.eps && Openable(g, e)
    requires e.domain == k.domain && e.eq == k.eq && e.tx == k.tx.cq && e.rx == k.rx.cq
    ensures e.tx in g.lists && e.rx in g.lists
    ensures Owns(EndpointSetup(g, e, request, fi), k.(ep := if EndpointReturned(request, fi) then e else null))
    ensures SetupCode(fi) == 0 ==> Open(EndpointSetup(g, e, request, fi), k.(ep := e)) && EndpointReturned(request, fi)
    ensures SameRest(g, k, EndpointSetup(g, e, request, fi),
      k.(ep := if EndpointReturned(request, fi) then e else null))
  {
    hide Inv, EndpointSetup, Openable, Owns, SameRest;
    SetupParts(g, e, request, fi);
    RestEndpoint(g, k, e, request, fi);
    if EndpointReturned(request, fi) {
      EndpointKept(g, EndpointSetup(g, e, request, fi), k, e);
    } else {
      EndpointUndone(g, EndpointSetup(g, e, request, fi), k);
    }
  }

  // ---------------------------------------------------------------- messages

  lemma LaneEmpty(g: Graph, k: Conn, dir: Direction)
    requires Inv(g) && Owns(g, k) && LaneOf(k, dir).cq != null && !Flies(g, LaneOf(k, dir).op)
    ensures g.lists[LaneOf(k, dir).cq] == []
  {
    hide Closed, Staged, Borrowed, Logged;
    var c := LaneOf(k, dir).cq;
    forall o | o in g.ops ensures o !in g.lists[c] { }
    Memberless(g.lists[c]);
  }

  /** The shim never refuses the connection's own message: the operation is free, the queue has room,
      region and access fit.  Only the provider and the endpoint's size limit decide. */
  lemma OwnPost(g: Graph, k: Conn, dir: Direction, addr: U64, len: U64, fi: int)
    requires Inv(g) && Owns(g, k) && dir != Unset && Complete(g, k) && Fitted(k) && !Flies(g, LaneOf(k, dir).op)
    requires addr != 0 && Inside(LaneOf(k, dir).mr, addr, len)
    ensures k.ep.tx in g.lists && k.ep.rx in g.lists && AllLive(g, k)
    ensures var x := PostMessage(g, k.ep, LaneOf(k, dir).op, LaneOf(k, dir).mr, addr, len, dir, fi);
      && x.ret == (if len > k.ep.maxMsg then -EINVAL else fi)
      && x.g == (if x.ret == 0 then Sending(g, k, dir, addr, len) else g)
  {
    hide Staged, Borrowed, Logged, Lanes, Exclusive;
    LaneEmpty(g, k, dir);
    assert ACCESS_SEND & ACCESS_SEND != 0 && ACCESS_RECV & ACCESS_RECV != 0;
  }

  /** The graph after a submission on a lane that has all its parts. */
  function Sending(g: Graph, k: Conn, dir: Direction, addr: U64, len: U64): Graph {
    var lane := LaneOf(k, dir);
    if lane.cq == null || lane.mr == null || lane.op == null || lane.cq !in g.lists then g
    else Submit(g, lane.cq, lane.op, lane.mr, addr, len, dir)
  }

  lemma OwnSubmit(g: Graph, k: Conn, dir: Direction, addr: U64, len: U64, txPending: bool, rxPending: bool, exact: bool)
    requires Inv(g) && Owns(g, k) && Complete(g, k) && dir != Unset && Tracked(g, k, txPending, rxPending, exact)
    ensures var g' := Sending(g, k, dir, addr, len);
      && Owns(g', k) && Complete(g', k)
      && Tracked(g', k, txPending || dir == Send, rxPending || dir == Recv, exact)
  {
    hide Closed, Staged, Borrowed, Logged;
  }

  function Other(dir: Direction): Direction { if dir == Recv then Send else Recv }

  /** An operation on the queue of a lane that still reports is the lane's own, in its direction. */
  lemma LaneFlight(g: Graph, k: Conn, dir: Direction, o: Op)
    requires Inv(g) && Owns(g, k) && dir != Unset && LaneOf(k, dir).cq != null && LaneOf(k, dir).cq in g.lists
    requires g.stages[LaneOf(k, dir).cq] != Retired && o in g.lists[LaneOf(k, dir).cq]
    ensures o == LaneOf(k, dir).op && Flies(g, o) && g.ops[o].dir == dir && g.ops[o].flight.ticket < |g.log|
  {
    hide Closed, Staged, Logged, Exclusive, AllLive, Shaped;
    assert BorrowOk(g, g.ops[o]) && g.ops[o].flight.cq == LaneOf(k, dir).cq;
    LaneUser(g, k, dir);
    FlyingReturnable(g, o);
  }

  lemma OwnSettle(g: Graph, k: Conn, dir: Direction, fate: Fate)
    requires Listed(g) && Owns(g, k) && LaneOf(k, dir).cq != null && LaneOf(k, dir).cq in g.lists
    requires var o := LaneOf(k, dir).op; Flies(g, o) && g.ops[o].flight.ticket < |g.log|
    ensures var lane, g' := LaneOf(k, dir), Settle(g, LaneOf(k, dir).cq, LaneOf(k, dir).op, fate);
      && Owns(g', k) && g'.eps == g.eps && SameRest(g, k, g', k) && !Flies(g', lane.op)
      && (LaneOf(k, Other(dir)).op != lane.op ==>
           Flies(g', LaneOf(k, Other(dir)).op) == Flies(g, LaneOf(k, Other(dir)).op))
  {
    hide Listed;
    RestSettle(g, k, dir, fate);
    hide SameRest;
  }

  lemma OwnMatch(g: Graph, k: Conn, dir: Direction, context: Op?, len: U64, err: int, provErr: int)
    requires Inv(g) && Owns(g, k) && dir != Unset && LaneOf(k, dir).cq != null && LaneOf(k, dir).cq in g.lists
    requires g.stages[LaneOf(k, dir).cq] != Retired
    ensures var lane, x := LaneOf(k, dir), Match(g, LaneOf(k, dir).cq, context, len, err, provErr);
      && Owns(x.g, k) && x.g.eps == g.eps && SameRest(g, k, x.g, k) && x.out.err == err && (x.ret == 1 || x.ret == -EIO)
      && (x.ret != 1 ==> x.g == g)
      && (x.ret == 1 ==> Flies(g, lane.op) && !Flies(x.g, lane.op) && x.out.opId == lane.op.id && x.out.flags == dir)
      && (LaneOf(k, Other(dir)).op != lane.op ==>
           Flies(x.g, LaneOf(k, Other(dir)).op) == Flies(g, LaneOf(k, Other(dir)).op))
  {
    RestSame(g, k);
    hide Closed, Staged, Listed, Borrowed, Logged, Owns, Settle, SameRest;
    var c := LaneOf(k, dir).cq;
    if context != null && context in g.lists[c] {
      LaneFlight(g, k, dir, context);
      OwnSettle(g, k, dir, Reported(c, Report(context.id, g.ops[context], len, err, provErr)));
    }
  }

  /** The queue in use belongs to the connection's own endpoint, in the right direction. */
  lemma LaneUser(g: Graph, k: Conn, dir: Direction)
    requires Inv(g) && Owns(g, k) && dir != Unset && LaneOf(k, dir).cq != null && LaneOf(k, dir).cq in g.stages
    requires g.stages[LaneOf(k, dir).cq].InUse?
    ensures k.ep != null && g.stages[LaneOf(k, dir).cq] == InUse(k.ep)
    ensures LaneOf(k, dir).cq == k.ep.tx <==> dir == Send
  {
    hide Borrowed, Logged;
  }

  /** One look at a lane's completion queue. */
  ghost function Polling(g: Graph, k: Conn, dir: Direction, read: CqRead, error: CqReadErr): PollOutcome {
    if LaneOf(k, dir).cq == null || !LiveCq(g, LaneOf(k, dir).cq) || !Listed(g) then PollOutcome(g, -EINVAL, Blank)
    else CqPoll(g, LaneOf(k, dir).cq, read, error)
  }

  /** Whatever context the provider names, a completion the shim reports on a lane is that lane's own
      operation, in flight and in the lane's direction. */
  lemma OwnPoll(g: Graph, k: Conn, dir: Direction, read: CqRead, error: CqReadErr)
    requires Inv(g) && Owns(g, k) && (dir == Send || dir == Recv) && LaneOf(k, dir).cq != null
    ensures var lane, x := LaneOf(k, dir), Polling(g, k, dir, read, error);
      && LiveCq(g, lane.cq) && x == CqPoll(g, lane.cq, read, error)
      && Owns(x.g, k) && x.g.eps == g.eps && SameRest(g, k, x.g, k) && x.ret <= 1
      && (x.ret != 1 ==> x.g == g)
      && (x.ret == 1 ==>
           Flies(g, lane.op) && !Flies(x.g, lane.op) && x.out.opId == (if dir == Recv then RX_ID else TX_ID)
             && x.out.flags == dir)
      && (LaneOf(k, Other(dir)).op != lane.op ==>
           Flies(x.g, LaneOf(k, Other(dir)).op) == Flies(g, LaneOf(k, Other(dir)).op))
  {
    RestSame(g, k);
    hide Closed, Staged, Listed, Borrowed, Logged, Match, Exclusive, Lanes, SameRest;
    if g.stages[LaneOf(k, dir).cq] != Retired {
      OwnMatch(g, k, dir, error.context, 0, error.err, error.provErr);
      OwnMatch(g, k, dir, read.context, read.len, 0, 0);
    }
  }

  /** What a look at an empty queue returns: nothing, or an error. */
  function IdleCode(read: CqRead, error: CqReadErr): int {
    if read.ret == -EAVAIL then
      if error.ret == -EAGAIN || error.ret == 0 then 0 else if error.ret < 0 then error.ret else -EIO
    else if read.ret == -EAGAIN || read.ret == 0 then 0
    else if read.ret < 0 then read.ret
    else -EIO
  }

  /** A look that shows nothing. */
  predicate ShowsNothing(read: CqRead) { read.ret == 0 || read.ret == -EAGAIN }

  /** A look that shows the lane's own operation as completed. */
  predicate ShowsOwn(k: Conn, dir: Direction, read: CqRead) { read.ret > 0 && read.context == LaneOf(k, dir).op }

  /** While a connection is open, a provider that shows nothing changes nothing, and one that shows the lane's own
      operation in flight has it reported, with the length it names for a receive. */
  lemma HonestLook(g: Graph, k: Conn, dir: Direction, read: CqRead, error: CqReadErr)
    requires Inv(g) && Owns(g, k) && (dir == Send || dir == Recv) && k.ep != null
    ensures LaneOf(k, dir).cq != null
    ensures var x := Polling(g, k, dir, read, error);
      && (ShowsNothing(read) ==> x.ret == 0 && x.g == g)
      && (ShowsOwn(k, dir, read) && Flies(g, LaneOf(k, dir).op) ==>
           x.ret == 1 && x.out.err == 0 && (dir == Recv ==> x.out.len == read.len))
  {
    hide Borrowed, Logged, Exclusive, Settle;
    assert g.stages[LaneOf(k, dir).cq] == InUse(k.ep);
    if ShowsOwn(k, dir, read) && Flies(g, LaneOf(k, dir).op) {
      FlightListed(g, k, dir);
      LaneFlight(g, k, dir, LaneOf(k, dir).op);
    }
  }

  // What the provider may answer to one look, in its own terms.

  predicate EntryQuiet(read: CqRead, error: CqReadErr) {
    read.ret == 0 || read.ret == -EAGAIN || (read.ret == -EAVAIL && (error.ret == 0 || error.ret == -EAGAIN))
  }

  /** The look itself failed with `code`. */
  predicate EntryBroken(read: CqRead, error: CqReadErr, code: int) {
    || (read.ret == code && code < 0 && code != -EAGAIN && code != -EAVAIL)
    || (read.ret == -EAVAIL && error.ret == code && code < 0 && code != -EAGAIN)
  }

  /** A completion, or an error entry, was read. */
  predicate EntryRead(read: CqRead, error: CqReadErr) { read.ret > 0 || (read.ret == -EAVAIL && error.ret > 0) }

  /** It names operation `o`, and carries this error. */
  predicate EntryOf(read: CqRead, error: CqReadErr, o: Op?, err: int) {
    || (read.ret > 0 && read.context == o && err == 0)
    || (read.ret == -EAVAIL && error.ret > 0 && error.context == o && err == error.err)
  }

  /** A look at a lane in the provider's own terms: an entry for the lane's operation in flight is reported with its own
      error and length, any other entry is an I/O error, and a failed look is passed on. */
  lemma LaneProbe(g: Graph, k: Conn, dir: Direction, read: CqRead, error: CqReadErr, err: int, code: int)
    requires Inv(g) && Owns(g, k) && (dir == Send || dir == Recv) && k.ep != null
    ensures LaneOf(k, dir).cq != null
    ensures var o, x := LaneOf(k, dir).op, Polling(g, k, dir, read, error);
      && (EntryQuiet(read, error) ==> x.ret == 0 && x.g == g)
      && (EntryBroken(read, error, code) ==> x.ret == code && x.g == g)
      && (Flies(g, o) && EntryOf(read, error, o, err) ==>
           && x.ret == 1 && x.out.err == err
           && (dir == Recv && err == 0 ==> x.out.len == if read.ret > 0 then read.len else 0))
      && (EntryRead(read, error) && (!Flies(g, o) || (forall e :: !EntryOf(read, error, o, e))) ==>
           x.ret == -EIO && x.g == g)
  {
    hide Listed, Borrowed, Logged, Exclusive, Lanes, Match;
    assert g.stages[LaneOf(k, dir).cq] == InUse(k.ep);
    assert read.ret > 0 ==> EntryOf(read, error, read.context, 0);
    assert read.ret == -EAVAIL && error.ret > 0 ==> EntryOf(read, error, error.context, error.err);
    LaneMatch(g, k, dir, read.context, read.len, 0, 0);
    LaneMatch(g, k, dir, error.context, 0, error.err, error.provErr);
  }

  lemma LaneMatch(g: Graph, k: Conn, dir: Direction, context: Op?, len: U64, err: int, provErr: int)
    requires Inv(g) && Owns(g, k) && (dir == Send || dir == Recv) && k.ep != null
    ensures LaneOf(k, dir).cq != null && LaneOf(k, dir).cq in g.lists
    ensures var o, x := LaneOf(k, dir).op, Match(g, LaneOf(k, dir).cq, context, len, err, provErr);
      if context == o && Flies(g, o) then x.ret == 1 && x.out.err == err
        && (dir == Recv && err == 0 ==> x.out.len == len)
      else x.ret == -EIO && x.g == g
  {
    hide Borrowed, Logged, Exclusive, Settle;
    assert g.stages[LaneOf(k, dir).cq] == InUse(k.ep);
    if Flies(g, LaneOf(k, dir).op) {
      FlightListed(g, k, dir);
      LaneFlight(g, k, dir, LaneOf(k, dir).op);
    }
    LaneList(g, k, dir);
  }

  /** Nothing but the lane's own operation in flight is on its queue's list. */
  lemma LaneList(g: Graph, k: Conn, dir: Direction)
    requires Inv(g) && Owns(g, k) && LaneOf(k, dir).cq != null && LaneOf(k, dir).cq in g.lists
    ensures forall o | o in g.lists[LaneOf(k, dir).cq] :: o == LaneOf(k, dir).op && Flies(g, o)
  {
    hide Closed, Staged, Borrowed, Logged, Exclusive;
    forall o | o in g.lists[LaneOf(k, dir).cq]
      ensures o == LaneOf(k, dir).op && Flies(g, o)
    {
      assert o in g.ops && g.ops[o].flight.Flying? && g.ops[o].flight.cq == LaneOf(k, dir).cq;
    }
  }

  lemma FlightListed(g: Graph, k: Conn, dir: Direction)
    requires Inv(g) && Owns(g, k) && Flies(g, LaneOf(k, dir).op) && LaneOf(k, dir).cq != null
    ensures LaneOf(k, dir).cq in g.lists && LaneOf(k, dir).op in g.lists[LaneOf(k, dir).cq]
  {
    hide Closed, Staged, Borrowed, Logged, Exclusive;
  }

  /** While a lane's operation is not in flight, a look at its queue changes nothing and reports nothing. */
  lemma IdleLook(g: Graph, k: Conn, dir: Direction, read: CqRead, error: CqReadErr)
    requires Inv(g) && Owns(g, k) && (dir == Send || dir == Recv) && k.ep != null && !Flies(g, LaneOf(k, dir).op)
    ensures LaneOf(k, dir).cq != null
    ensures var x := Polling(g, k, dir, read, error); x.g == g && x.ret == IdleCode(read, error) && x.ret <= 0
  {
    hide Borrowed, Logged, Exclusive, Lanes, Match;
    assert g.stages[LaneOf(k, dir).cq] == InUse(k.ep);
    EmptyMatch(g, k, dir, read.context, read.len, 0, 0);
    EmptyMatch(g, k, dir, error.context, 0, error.err, error.provErr);
  }

  lemma EmptyMatch(g: Graph, k: Conn, dir: Direction, context: Op?, len: U64, err: int, provErr: int)
    requires Inv(g) && Owns(g, k) && LaneOf(k, dir).cq != null && !Flies(g, LaneOf(k, dir).op)
    ensures LaneOf(k, dir).cq in g.lists
    ensures var x := Match(g, LaneOf(k, dir).cq, context, len, err, provErr); x.g == g && x.ret == -EIO
  {
    LaneEmpty(g, k, dir);
    hide Closed, Staged, Borrowed, Logged, Exclusive, Lanes;
  }

  /** The flags after a report: the reported lane's flag may be cleared, or left behind. */
  lemma ReportTracked(g: Graph, k: Conn, dir: Direction, read: CqRead, error: CqReadErr, txPending: bool,
                      rxPending: bool, exact: bool)
    requires Inv(g) && Owns(g, k) && (dir == Send || dir == Recv) && LaneOf(k, dir).cq != null
    requires Tracked(g, k, txPending, rxPending, exact)
    ensures var x := Polling(g, k, dir, read, error);
      && (x.ret != 1 ==> Tracked(x.g, k, txPending, rxPending, exact))
      && (x.ret == 1 ==> (if dir == Recv then rxPending else txPending) && Tracked(x.g, k, txPending, rxPending, false)
                         && Tracked(x.g, k, txPending && dir == Recv, rxPending && dir == Send, exact))
  {
    OwnPoll(g, k, dir, read, error);
    hide Inv, Polling, Exclusive, Lanes, SameRest;
  }

  // ------------------------------------------------------------------ closes

  /** No operation of the connection takes off. */
  predicate NoTakeOff(g: Graph, g': Graph, k: Conn) {
    (Flies(g', k.tx.op) ==> Flies(g, k.tx.op)) && (Flies(g', k.rx.op) ==> Flies(g, k.rx.op))
  }

  predicate LaneLeft(x: Lane, y: Lane) {
    (y.cq == null || y.cq == x.cq) && (y.mr == null || y.mr == x.mr) && (y.op == null || y.op == x.op)
  }

  /** Every handle of `y` is one of `x`, in the same place. */
  predicate Left(x: Conn, y: Conn) {
    && (y.domain == null || y.domain == x.domain) && (y.eq == null || y.eq == x.eq) && (y.ep == null || y.ep == x.ep)
    && LaneLeft(x.tx, y.tx) && LaneLeft(x.rx, y.rx)
  }

  /** What is left of a connection keeps its sizes and rights, and its flags still cover what is in flight. */
  lemma LeftTracked(g: Graph, g': Graph, k: Conn, k': Conn, txWas: bool, rxWas: bool, exact: bool, txPending: bool,
                    rxPending: bool)
    requires Left(k, k') && NoTakeOff(g, g', k') && Fitted(k) && Tracked(g, k, txWas, rxWas, exact)
    requires (k'.tx.op == null || txPending == txWas) && (k'.rx.op == null || rxPending == rxWas)
    ensures Fitted(k') && Tracked(g', k', txPending, rxPending, false)
  {
  }

  lemma OwnShutdown(g: Graph, k: Conn, fi: int)
    requires Inv(g) && Owns(g, k) && k.ep != null
    ensures var g' := ShimSpec.Shutdown(g, k.ep, fi).g; Owns(g', k) && NoTakeOff(g, g', k)
  {
    hide Closed, Staged, Listed, Borrowed, Logged;
  }

  lemma OwnCloseEp(g: Graph, k: Conn, fi: int)
    requires Inv(g) && Owns(g, k) && k.ep != null
    ensures k.ep.tx in g.lists && k.ep.rx in g.lists
    ensures var x := CloseEp(g, k.ep, fi);
      x.ret == fi && Owns(x.g, if fi == 0 then k.(ep := null) else k) && NoTakeOff(g, x.g, k)
  {
    hide Inv, RemoveEndpoint;
    EndpointParts(g, k.ep);
    RemoveEndpointShape(SetClosing(g, k.ep), k.ep);
  }

  lemma DrainedLanes(g: Graph, k: Conn, dir: Direction)
    requires Listed(g) && Logged(g) && Lanes(g, k) && LaneOf(k, dir).cq != null && LaneOf(k, dir).cq in g.lists
    ensures Lanes(Drained(g, LaneOf(k, dir).cq), WithLane(k, dir, LaneOf(k, dir).(cq := null)))
  {
    hide Drained, Logged;
    CloseCqShape(g, LaneOf(k, dir).cq);
  }

  lemma OwnDrained(g: Graph, k: Conn, dir: Direction)
    requires Listed(g) && Logged(g) && Owns(g, k) && k.ep == null && dir != Unset
    requires LaneOf(k, dir).cq != null && LaneOf(k, dir).cq in g.lists
    ensures var g' := Drained(g, LaneOf(k, dir).cq);
      Owns(g', WithLane(k, dir, LaneOf(k, dir).(cq := null))) && NoTakeOff(g, g', k)
  {
    hide Drained, Listed, Logged, Lanes;
    DrainedLanes(g, k, dir);
    CloseCqShape(g, LaneOf(k, dir).cq);
  }

  /** With the endpoint gone no gate of the shim keeps a queue open. */
  lemma OwnCloseCq(g: Graph, k: Conn, dir: Direction, fi: int)
    requires Inv(g) && Owns(g, k) && k.ep == null && dir != Unset && LaneOf(k, dir).cq != null
      && LiveCq(g, LaneOf(k, dir).cq)
    ensures var x := CloseCq(g, LaneOf(k, dir).cq, fi);
      x.ret == fi && Owns(x.g, if fi == 0 then WithLane(k, dir, LaneOf(k, dir).(cq := null)) else k)
        && NoTakeOff(g, x.g, k)
  {
    hide Closed, Staged, Listed, Borrowed, Logged, Owns, Drained;
    if g.stages[LaneOf(k, dir).cq].InUse? { LaneUser(g, k, dir); }
    OwnDrained(g, k, dir);
  }

  lemma Grounded(g: Graph, k: Conn, dir: Direction)
    requires Inv(g) && Owns(g, k) && LaneOf(k, dir).cq == null
    ensures !Flies(g, LaneOf(k, dir).op)
  {
    hide Closed, Staged, Borrowed, Logged;
  }

  lemma OwnFree(g: Graph, k: Conn, dir: Direction)
    requires Inv(g) && Owns(g, k) && dir != Unset && LaneOf(k, dir).cq == null && LaneOf(k, dir).op != null
    ensures var x := FreeOp(g, LaneOf(k, dir).op);
      x.ret == 0 && Owns(x.g, WithLane(k, dir, LaneOf(k, dir).(op := null)))
  {
    hide Closed, Staged, Listed, Borrowed, Logged;
    Grounded(g, k, dir);
  }

  lemma Unborrowed(g: Graph, k: Conn, m: Mr)
    requires Inv(g) && Owns(g, k) && k.tx.cq == null && k.rx.cq == null && m.domain == k.domain
    ensures BorrowersOf(g.ops, m) == {}
  {
    hide Staged, Logged;
    forall o | o in g.ops && g.ops[o].flight.Flying?
      ensures g.ops[o].flight.mr != m
    {
      assert BorrowOk(g, g.ops[o]);
    }
  }

  lemma OwnCloseMr(g: Graph, k: Conn, dir: Direction, fi: int)
    requires Inv(g) && Owns(g, k) && dir != Unset && k.tx.cq == null && k.rx.cq == null && LaneOf(k, dir).mr != null
    ensures var x := CloseMr(g, LaneOf(k, dir).mr, fi);
      x.ret == fi && Owns(x.g, if fi == 0 then WithLane(k, dir, LaneOf(k, dir).(mr := null)) else k)
  {
    hide Closed, Staged, Listed, Borrowed, Logged;
    Unborrowed(g, k, LaneOf(k, dir).mr);
  }

  /** With both queues gone a slot's operation is free and its region unborrowed. */
  lemma OwnSlotClose(g: Graph, k: Conn, dir: Direction, fi: int)
    requires Inv(g) && Owns(g, k) && (dir == Send || dir == Recv) && k.tx.cq == null && k.rx.cq == null
    ensures var lane := LaneOf(k, dir); LiveOp(g, lane.op) && LiveMr(g, lane.mr)
    ensures var lane, x1 := LaneOf(k, dir), FreeOp(g, LaneOf(k, dir).op);
      var x2 := CloseMr(x1.g, lane.mr, fi);
      && x1.ret == 0 && x2.ret == (if lane.mr == null then 0 else fi)
      && Owns(x2.g, WithLane(k, dir, Lane(null, if x2.ret == 0 then null else lane.mr, null))) && NoTakeOff(g, x2.g, k)
  {
    hide Closed, Staged, Listed, Borrowed, Logged, Exclusive, Lanes;
    var lane := LaneOf(k, dir);
    Grounded(g, k, dir);
    if lane.op != null {
      OwnFree(g, k, dir);
      FreeOpInv(g, lane.op);
    }
    var k1 := WithLane(k, dir, Lane(null, lane.mr, null));
    if lane.mr != null { OwnCloseMr(FreeOp(g, lane.op).g, k1, dir, fi); }
  }

  lemma OwnCloseEq(g: Graph, k: Conn, fi: int)
    requires Inv(g) && Owns(g, k) && k.ep == null && k.eq != null
    ensures var x := CloseEq(g, k.eq, fi);
      x.ret == fi && Owns(x.g, if fi == 0 then k.(eq := null) else k) && NoTakeOff(g, x.g, k)
  {
    hide Closed, Staged, Listed, Borrowed, Logged;
  }

  lemma OwnCloseDomain(g: Graph, k: Conn, fi: int)
    requires Inv(g) && Owns(g, k) && k.domain != null && k == NOTHING.(domain := k.domain)
    ensures var x := CloseDomain(g, k.domain, fi); x.ret == fi && Owns(x.g, if fi == 0 then NOTHING else k)
  {
    hide Closed, Staged, Listed, Borrowed, Logged;
  }

  // --------------------------------------------------------------- the parts

  lemma Unflown(g: Graph, k: Conn, txPending: bool, rxPending: bool, exact: bool)
    requires Tracked(g, k, txPending, rxPending, exact)
    ensures (!txPending ==> !Flies(g, k.tx.op)) && (!rxPending ==> !Flies(g, k.rx.op))
  {
  }

  lemma OwnedParts(g: Graph, k: Conn)
    requires Owns(g, k)
    ensures AllLive(g, k) && Shaped(k)
  {
  }

  // --------------------------------------------------------------- listeners

  /** What a listening side owns: an event queue that only its own listener uses. */
  ghost predicate Listens(g: Graph, fabric: Fabric, q: Eq?, l: Listener?) {
    && LiveEq(g, q) && LiveListener(g, l)
    && (q != null ==> q.fabric == fabric) && (l != null ==> l.eq == q && l.fabric == fabric)
    && (forall x | x in g.listeners :: x.eq == q ==> x == l)
    && (forall e | e in g.eps :: e.eq != q)
  }

  lemma ListenParts(g: Graph, fabric: Fabric, q: Eq?, l: Listener?)
    requires Listens(g, fabric, q, l)
    ensures LiveEq(g, q) && LiveListener(g, l)
  {
  }

  lemma ListenEq(g: Graph, q: Eq)
    requires Inv(g) && q !in g.eqs
    ensures Listens(AddEq(g, q), q.fabric, q, null)
  {
    hide Staged, Listed, Borrowed, Logged;
  }

  /** However far the listener open got, the listening side owns what is left of it. */
  lemma ListenOpened(g: Graph, fabric: Fabric, q: Eq, l: Listener, fi: ListenerAnswers)
    requires Inv(g) && Listens(g, fabric, q, null) && l !in g.listeners && l.eq == q && l.fabric == fabric
    ensures var code := Then(fi.bind, fi.listen);
      Listens(ListenerSetup(g, l, fi), fabric, q, if code == 0 || fi.close != 0 then l else null)
  {
    hide Closed, Staged, Listed, Borrowed, Logged;
    assert g.listeners[l := false] - {l} == g.listeners;
  }

  lemma ListenClosed(g: Graph, fabric: Fabric, q: Eq?, l: Listener, fi: int)
    requires Listens(g, fabric, q, l)
    ensures CloseListener(g, l, fi).ret == fi
      && Listens(CloseListener(g, l, fi).g, fabric, q, if fi == 0 then null else l)
    ensures ListenRest(g, q, l, CloseListener(g, l, fi).g, q, if fi == 0 then null else l)
  {
  }

  lemma ListenEqClosed(g: Graph, fabric: Fabric, q: Eq, fi: int)
    requires Inv(g) && Listens(g, fabric, q, null)
    ensures CloseEq(g, q, fi).ret == fi && Listens(CloseEq(g, q, fi).g, fabric, if fi == 0 then null else q, null)
    ensures ListenRest(g, q, null, CloseEq(g, q, fi).g, if fi == 0 then null else q, null)
  {
    hide Staged, Listed, Borrowed, Logged;
  }

  lemma ListensNothing(g: Graph, fabric: Fabric)
    ensures Listens(g, fabric, null, null)
  {
  }

  // ------------------------------------------------------- the rest of the graph

  lemma RestParents(g: Graph, k: Conn, g': Graph, k': Conn)
    requires SameRest(g, k, g', k')
    ensures g'.fabrics == g.fabrics && g'.listeners == g.listeners
  {
  }

  lemma RestSame(g: Graph, k: Conn)
    ensures SameRest(g, k, g, k)
  {
  }

  lemma Further(g: Graph, k: Conn, g': Graph, k': Conn, g'': Graph, k'': Conn)
    requires SameRest(g, k, g', k') && SameRest(g', k', g'', k'')
    ensures SameRest(g, k, g'', k'')
  {
  }

  lemma RestDomain(g: Graph, d: Domain)
    requires d !in g.domains
    ensures SameRest(g, NOTHING, AddDomain(g, d), NOTHING.(domain := d))
  {
  }

  lemma RestEq(g: Graph, k: Conn, q: Eq)
    requires k.eq == null && q !in g.eqs
    ensures SameRest(g, k, AddEq(g, q), k.(eq := q))
  {
  }

  lemma RestCq(g: Graph, k: Conn, dir: Direction, c: Cq)
    requires LaneOf(k, dir).cq == null && c !in g.stages && c !in g.lists
    ensures SameRest(g, k, AddCq(g, c), WithLane(k, dir, LaneOf(k, dir).(cq := c)))
  {
    var k' := WithLane(k, dir, LaneOf(k, dir).(cq := c));
    assert CqsHeld(k') == CqsHeld(k) + {c};
    assert AddCq(g, c).stages - CqsHeld(k') == g.stages - CqsHeld(k);
    assert AddCq(g, c).lists - CqsHeld(k') == g.lists - CqsHeld(k);
  }

  lemma RestMr(g: Graph, k: Conn, dir: Direction, m: Mr)
    requires LaneOf(k, dir).mr == null && m !in g.mrs
    ensures SameRest(g, k, AddMr(g, m), WithLane(k, dir, LaneOf(k, dir).(mr := m)))
  {
  }

  lemma RestOp(g: Graph, k: Conn, dir: Direction, o: Op)
    requires LaneOf(k, dir).op == null && o !in g.ops
    ensures SameRest(g, k, AddOp(g, o), WithLane(k, dir, LaneOf(k, dir).(op := o)))
  {
    var k' := WithLane(k, dir, LaneOf(k, dir).(op := o));
    assert OpsHeld(k') == OpsHeld(k) + {o};
    assert AddOp(g, o).ops - OpsHeld(k') == g.ops - OpsHeld(k);
  }

  lemma RestSubmit(g: Graph, k: Conn, dir: Direction, addr: U64, len: U64)
    ensures SameRest(g, k, Sending(g, k, dir, addr, len), k)
  {
    var g' := Sending(g, k, dir, addr, len);
    assert g'.lists - CqsHeld(k) == g.lists - CqsHeld(k);
    assert g'.ops - OpsHeld(k) == g.ops - OpsHeld(k);
  }

  lemma RestSettle(g: Graph, k: Conn, dir: Direction, fate: Fate)
    requires LaneOf(k, dir).cq != null && LaneOf(k, dir).cq in g.lists && LaneOf(k, dir).op != null
    ensures SameRest(g, k, Settle(g, LaneOf(k, dir).cq, LaneOf(k, dir).op, fate), k)
  {
    var g' := Settle(g, LaneOf(k, dir).cq, LaneOf(k, dir).op, fate);
    assert g'.lists - CqsHeld(k) == g.lists - CqsHeld(k);
    assert g'.ops - OpsHeld(k) == g.ops - OpsHeld(k);
  }

  /** However far an endpoint open got, only its queues' stages have changed besides the endpoint itself. */
  lemma SetupRest(g: Graph, e: Endpoint, request: bool, fi: EpAnswers)
    requires Inv(g) && e !in g.eps && Openable(g, e)
    ensures e.tx in g.lists && e.rx in g.lists
    ensures var g' := EndpointSetup(g, e, request, fi);
      && g' == g.(stages := g'.stages, eps := g'.eps) && g'.stages - {e.tx, e.rx} == g.stages - {e.tx, e.rx}
      && g'.eps - (if EndpointReturned(request, fi) then {e} else {}) == g.eps
  {
    hide RemoveEndpoint, Inv;
    Rollback(g, e);
    var g1 := AddEndpoint(g, e);
    if SetupCode(fi) == 0 {
      assert SetReady(g1, e).eps - {e} == g.eps;
    } else if request {
      assert g1.eps - {e} == g.eps;
    } else if fi.close != 0 {
      assert SetClosing(g1, e).eps - {e} == g.eps;
    } else {
      assert g.eps - {} == g.eps;
    }
  }

  lemma RestEndpoint(g: Graph, k: Conn, e: Endpoint, request: bool, fi: EpAnswers)
    requires Inv(g) && k.ep == null && e !in g.eps && Openable(g, e) && e.tx == k.tx.cq && e.rx == k.rx.cq
    ensures e.tx in g.lists && e.rx in g.lists
    ensures SameRest(g, k, EndpointSetup(g, e, request, fi),
      k.(ep := if EndpointReturned(request, fi) then e else null))
  {
    hide Inv, EndpointSetup, EndpointReturned, Openable;
    SetupRest(g, e, request, fi);
    assert CqsHeld(k) == {e.tx, e.rx};
    assert g.eps - {} == g.eps;
  }

  lemma RestShutdown(g: Graph, k: Conn, fi: int)
    requires k.ep != null && k.ep in g.eps
    ensures SameRest(g, k, ShimSpec.Shutdown(g, k.ep, fi).g, k)
  {
    var g' := ShimSpec.Shutdown(g, k.ep, fi).g;
    assert g'.eps - EpsHeld(k) == g.eps - EpsHeld(k);
  }

  lemma RestCloseEp(g: Graph, k: Conn, fi: int)
    requires Inv(g) && Owns(g, k) && k.ep != null
    ensures k.ep.tx in g.lists && k.ep.rx in g.lists
    ensures var x := CloseEp(g, k.ep, fi); SameRest(g, k, x.g, if fi == 0 then k.(ep := null) else k)
  {
    hide Closed, Staged, Borrowed, Logged, RemoveEndpoint;
    EndpointParts(g, k.ep);
    RemoveEndpointShape(SetClosing(g, k.ep), k.ep);
    if fi == 0 {
      var g' := RemoveEndpoint(SetClosing(g, k.ep), k.ep);
      assert g'.eps - {} == g.eps - {k.ep};
      assert g'.stages - CqsHeld(k) == g.stages - CqsHeld(k);
      assert g'.ops - OpsHeld(k) == g.ops - OpsHeld(k);
    } else {
      assert SetClosing(g, k.ep).eps - {k.ep} == g.eps - {k.ep};
    }
  }

  /** Only the connection's own operation can be on its queue. */
  lemma DrainedOps(g: Graph, k: Conn, dir: Direction)
    requires Listed(g) && Logged(g) && Lanes(g, k) && LaneOf(k, dir).cq != null && LaneOf(k, dir).cq in g.lists
    ensures Drained(g, LaneOf(k, dir).cq).ops - OpsHeld(k) == g.ops - OpsHeld(k)
  {
    hide Drained, Logged;
    CloseCqShape(g, LaneOf(k, dir).cq);
  }

  lemma RestDrained(g: Graph, k: Conn, dir: Direction)
    requires Listed(g) && Logged(g) && Owns(g, k) && LaneOf(k, dir).cq != null && LaneOf(k, dir).cq in g.lists
    ensures SameRest(g, k, Drained(g, LaneOf(k, dir).cq), WithLane(k, dir, LaneOf(k, dir).(cq := null)))
  {
    hide Drained, Logged, Listed, Lanes, Exclusive, AllLive;
    var c, k' := LaneOf(k, dir).cq, WithLane(k, dir, LaneOf(k, dir).(cq := null));
    DrainedOps(g, k, dir);
    CloseCqShape(g, c);
    assert CqsHeld(k) == CqsHeld(k') + {c};
    assert Drained(g, c).stages - CqsHeld(k') == g.stages - CqsHeld(k);
    assert Drained(g, c).lists - CqsHeld(k') == g.lists - CqsHeld(k);
  }

  lemma RestCloseCq(g: Graph, k: Conn, dir: Direction, fi: int)
    requires Inv(g) && Owns(g, k) && k.ep == null && dir != Unset && LaneOf(k, dir).cq != null
      && LiveCq(g, LaneOf(k, dir).cq)
    ensures var x := CloseCq(g, LaneOf(k, dir).cq, fi);
      SameRest(g, k, x.g, if fi == 0 then WithLane(k, dir, LaneOf(k, dir).(cq := null)) else k)
  {
    RestSame(g, k);
    OwnCloseCq(g, k, dir, fi);
    hide Closed, Staged, Listed, Borrowed, Logged, Owns, Drained, SameRest;
    RestDrained(g, k, dir);
  }

  lemma RestFree(g: Graph, k: Conn, dir: Direction)
    requires LiveOp(g, LaneOf(k, dir).op)
    ensures var x := FreeOp(g, LaneOf(k, dir).op);
      x.ret == 0 ==> SameRest(g, k, x.g, WithLane(k, dir, LaneOf(k, dir).(op := null)))
  {
    var lane, x := LaneOf(k, dir), FreeOp(g, LaneOf(k, dir).op);
    if lane.op != null && x.ret == 0 {
      var k' := WithLane(k, dir, lane.(op := null));
      assert OpsHeld(k) == OpsHeld(k') + {lane.op};
      assert x.g.ops - OpsHeld(k') == g.ops - OpsHeld(k);
    }
  }

  lemma RestCloseMr(g: Graph, k: Conn, dir: Direction, fi: int)
    ensures var x := CloseMr(g, LaneOf(k, dir).mr, fi);
      SameRest(g, k, x.g, if x.ret == 0 then WithLane(k, dir, LaneOf(k, dir).(mr := null)) else k)
  {
  }

  lemma RestSlot(g: Graph, k: Conn, dir: Direction, fi: int)
    requires Inv(g) && Owns(g, k) && (dir == Send || dir == Recv) && k.tx.cq == null && k.rx.cq == null
    ensures LiveOp(g, LaneOf(k, dir).op)
    ensures var lane, x1 := LaneOf(k, dir), FreeOp(g, LaneOf(k, dir).op);
      var x2 := CloseMr(x1.g, lane.mr, fi);
      SameRest(g, k, x2.g, WithLane(k, dir, Lane(null, if x2.ret == 0 then null else lane.mr, null)))
  {
    hide Inv, Owns, FreeOp, CloseMr, SameRest, NoTakeOff;
    OwnSlotClose(g, k, dir, fi);
    RestFree(g, k, dir);
    var lane, x1 := LaneOf(k, dir), FreeOp(g, LaneOf(k, dir).op);
    var k1 := WithLane(k, dir, lane.(op := null));
    RestCloseMr(x1.g, k1, dir, fi);
    var x2 := CloseMr(x1.g, lane.mr, fi);
    Further(g, k, x1.g, k1, x2.g, WithLane(k, dir, Lane(null, if x2.ret == 0 then null else lane.mr, null)));
  }

  lemma RestCloseEq(g: Graph, k: Conn, fi: int)
    requires k.eq != null
    ensures var x := CloseEq(g, k.eq, fi); SameRest(g, k, x.g, if x.ret == 0 then k.(eq := null) else k)
  {
  }

  lemma RestCloseDomain(g: Graph, k: Conn, fi: int)
    requires k.domain != null
    ensures var x := CloseDomain(g, k.domain, fi); SameRest(g, k, x.g, if x.ret == 0 then k.(domain := null) else k)
  {
  }

  /** The same handles in the same states; only submissions have been logged and settled in between. */
  predicate SameButLog(g: Graph, g': Graph) { g' == g.(log := g'.log) }

  /** A connection that has given everything up leaves the graph as it found it, but for the log. */
  lemma RoundTrip(g: Graph, k: Conn, g': Graph, g'': Graph)
    requires SameRest(g, NOTHING, g', k) && SameRest(g', k, g'', NOTHING)
    ensures SameButLog(g, g'')
  {
    NothingHeld(g);
    NothingHeld(g'');
  }

  predicate SeparateTop(k: Conn, m: Conn) {
    DomainsHeld(k) !! DomainsHeld(m) && EqsHeld(k) !! EqsHeld(m) && EpsHeld(k) !! EpsHeld(m)
  }

  /** The two connections share no handle. */
  predicate Separate(k: Conn, m: Conn) {
    SeparateTop(k, m) && CqsHeld(k) !! CqsHeld(m) && MrsHeld(k) !! MrsHeld(m) && OpsHeld(k) !! OpsHeld(m)
  }

  /** What one connection does is no concern of another: new handles are not the other's, and the other
      still owns what it owned, with the same operations in flight and the same endpoint. */
  lemma Independent(g: Graph, k: Conn, g': Graph, k': Conn, m: Conn)
    requires Owns(g', k') && Owns(g, m) && SameRest(g, k, g', k') && Separate(k, m)
    ensures Separate(k', m) && Owns(g', m)
    ensures Flies(g', m.tx.op) == Flies(g, m.tx.op) && Flies(g', m.rx.op) == Flies(g, m.rx.op)
    ensures Open(g', m) == Open(g, m)
  {
    OthersApart(g, k, g', k', m);
    OthersLive(g, k, g', k', m);
    OthersExclusive(g, k, g', k', m);
    OthersLanes(g, k, g', k', m);
  }

  lemma OthersApart(g: Graph, k: Conn, g': Graph, k': Conn, m: Conn)
    requires AllLive(g, m) && SameRest(g, k, g', k') && Separate(k, m)
    ensures Separate(k', m)
  {
    OthersApartTop(g, k, g', k', m);
    hide DomainsHeld, EqsHeld, EpsHeld;
    forall c | c in CqsHeld(m) ensures c !in CqsHeld(k') { assert c in g.stages - CqsHeld(k); }
    forall x | x in MrsHeld(m) ensures x !in MrsHeld(k') { assert x in g.mrs - MrsHeld(k); }
    forall o | o in OpsHeld(m) ensures o !in OpsHeld(k') { assert o in g.ops - OpsHeld(k); }
  }

  lemma OthersApartTop(g: Graph, k: Conn, g': Graph, k': Conn, m: Conn)
    requires AllLive(g, m) && SameRest(g, k, g', k') && SeparateTop(k, m)
    ensures SeparateTop(k', m)
  {
    hide CqsHeld, MrsHeld, OpsHeld;
    forall e | e in EpsHeld(m) ensures e !in EpsHeld(k') { assert e in g.eps - EpsHeld(k); }
    forall d | d in DomainsHeld(m) ensures d !in DomainsHeld(k') { assert d in g.domains - DomainsHeld(k); }
    forall q | q in EqsHeld(m) ensures q !in EqsHeld(k') { assert q in g.eqs - EqsHeld(k); }
  }

  /** A handle that is not the connection's is live with the same record before and after. */
  lemma OtherEp(g: Graph, k: Conn, g': Graph, k': Conn, e: Endpoint)
    requires SameRest(g, k, g', k') && e !in EpsHeld(k) && e !in EpsHeld(k')
    ensures (e in g.eps <==> e in g'.eps) && (e in g.eps ==> g.eps[e] == g'.eps[e])
  {
    assert e in g.eps - EpsHeld(k) <==> e in g'.eps - EpsHeld(k');
    if e in g.eps { assert (g.eps - EpsHeld(k))[e] == (g'.eps - EpsHeld(k'))[e]; }
  }

  lemma OtherCq(g: Graph, k: Conn, g': Graph, k': Conn, c: Cq)
    requires SameRest(g, k, g', k') && c !in CqsHeld(k) && c !in CqsHeld(k')
    ensures (c in g.stages <==> c in g'.stages) && (c in g.lists <==> c in g'.lists)
  {
    assert c in g.stages - CqsHeld(k) <==> c in g'.stages - CqsHeld(k');
    assert c in g.lists - CqsHeld(k) <==> c in g'.lists - CqsHeld(k');
  }

  lemma OtherMr(g: Graph, k: Conn, g': Graph, k': Conn, x: Mr)
    requires SameRest(g, k, g', k') && x !in MrsHeld(k) && x !in MrsHeld(k')
    ensures x in g.mrs <==> x in g'.mrs
  {
    assert x in g.mrs - MrsHeld(k) <==> x in g'.mrs - MrsHeld(k');
  }

  lemma OtherOp(g: Graph, k: Conn, g': Graph, k': Conn, o: Op)
    requires SameRest(g, k, g', k') && o !in OpsHeld(k) && o !in OpsHeld(k')
    ensures (o in g.ops <==> o in g'.ops) && (o in g.ops ==> g.ops[o] == g'.ops[o])
  {
    assert o in g.ops - OpsHeld(k) <==> o in g'.ops - OpsHeld(k');
    if o in g.ops { assert (g.ops - OpsHeld(k))[o] == (g'.ops - OpsHeld(k'))[o]; }
  }

  lemma OthersLaneLive(g: Graph, k: Conn, g': Graph, k': Conn, m: Conn, dir: Direction)
    requires LaneLive(g, LaneOf(m, dir)) && SameRest(g, k, g', k') && Separate(k, m) && Separate(k', m)
    ensures LaneLive(g', LaneOf(m, dir)) && Flies(g', LaneOf(m, dir).op) == Flies(g, LaneOf(m, dir).op)
  {
    hide SameRest;
    var lane := LaneOf(m, dir);
    if lane.cq != null {
      assert lane.cq in CqsHeld(m);
      OtherCq(g, k, g', k', lane.cq);
    }
    if lane.mr != null {
      assert lane.mr in MrsHeld(m);
      OtherMr(g, k, g', k', lane.mr);
    }
    if lane.op != null {
      assert lane.op in OpsHeld(m);
      OtherOp(g, k, g', k', lane.op);
    }
  }

  lemma OthersLive(g: Graph, k: Conn, g': Graph, k': Conn, m: Conn)
    requires AllLive(g, m) && SameRest(g, k, g', k') && Separate(k, m) && Separate(k', m)
    ensures AllLive(g', m) && Open(g', m) == Open(g, m)
    ensures Flies(g', m.tx.op) == Flies(g, m.tx.op) && Flies(g', m.rx.op) == Flies(g, m.rx.op)
  {
    hide LaneLive, Flies, CqsHeld, MrsHeld, OpsHeld;
    OthersLaneLive(g, k, g', k', m, Send);
    OthersLaneLive(g, k, g', k', m, Recv);
    if m.ep != null { OtherEp(g, k, g', k', m.ep); }
    if m.domain != null { assert m.domain in g.domains - DomainsHeld(k); }
    if m.eq != null { assert m.eq in g.eqs - EqsHeld(k); }
  }

  lemma OthersExclusive(g: Graph, k: Conn, g': Graph, k': Conn, m: Conn)
    requires Owns(g', k') && Owns(g, m) && SameRest(g, k, g', k') && Separate(k, m) && Separate(k', m)
    ensures Exclusive(g', m)
  {
    hide AllLive, Lanes;
    forall c | c in g'.stages && c.domain == m.domain ensures c == m.tx.cq || c == m.rx.cq {
      assert c !in CqsHeld(k');
      assert c in g'.stages - CqsHeld(k');
    }
    forall e | e in g'.eps && (e.domain == m.domain || e.eq == m.eq) ensures e == m.ep {
      assert e !in EpsHeld(k');
      assert e in g'.eps - EpsHeld(k');
    }
    forall x | x in g'.mrs && x.domain == m.domain ensures x == m.tx.mr || x == m.rx.mr {
      assert x !in MrsHeld(k');
      assert x in g'.mrs - MrsHeld(k');
    }
  }

  lemma OthersLanes(g: Graph, k: Conn, g': Graph, k': Conn, m: Conn)
    requires Lanes(g', k') && Lanes(g, m) && SameRest(g, k, g', k') && Separate(k, m) && Separate(k', m)
    ensures Lanes(g', m)
  {
    forall o | o in g'.ops && g'.ops[o].flight.Flying?
      ensures (g'.ops[o].flight.cq == m.tx.cq <==> o == m.tx.op) && (g'.ops[o].flight.cq == m.rx.cq <==> o == m.rx.op)
    {
      if o in OpsHeld(k') {
        assert g'.ops[o].flight.cq in CqsHeld(k');
      } else {
        assert o in g'.ops - OpsHeld(k');
        OtherOp(g, k, g', k', o);
      }
    }
  }

  // ------------------------------------------------- beside a listening side

  function ListenersIn(l: Listener?): set<Listener> { if l == null then {} else {l} }

  /** Apart from the listening side's own event queue and listener nothing in the graph changed. */
  predicate ListenRest(g: Graph, q: Eq?, l: Listener?, g': Graph, q': Eq?, l': Listener?) {
    && g' == g.(eqs := g'.eqs, listeners := g'.listeners)
    && g'.eqs - EqsIn(q') == g.eqs - EqsIn(q)
    && g'.listeners - ListenersIn(l') == g.listeners - ListenersIn(l)
  }

  lemma ListenSame(g: Graph, q: Eq?, l: Listener?)
    ensures ListenRest(g, q, l, g, q, l)
  {
  }

  lemma ListenFurther(g: Graph, q: Eq?, l: Listener?, g': Graph, q': Eq?, l': Listener?, g'': Graph, q'': Eq?,
                      l'': Listener?)
    requires ListenRest(g, q, l, g', q', l') && ListenRest(g', q', l', g'', q'', l'')
    ensures ListenRest(g, q, l, g'', q'', l'')
  {
  }

  lemma RestListenEq(g: Graph, q: Eq)
    requires q !in g.eqs
    ensures ListenRest(g, null, null, AddEq(g, q), q, null)
  {
  }

  lemma RestListen(g: Graph, q: Eq, l: Listener, fi: ListenerAnswers)
    requires l !in g.listeners
    ensures ListenRest(g, q, null, ListenerSetup(g, l, fi), q,
      if Then(fi.bind, fi.listen) == 0 || fi.close != 0 then l else null)
  {
    var g' := ListenerSetup(g, l, fi);
    assert g'.listeners - {l} == g.listeners;
    assert g.listeners - {} == g.listeners;
    assert l !in g'.listeners ==> g'.listeners - {} == g.listeners;
  }

  /** A connection's own doings do not disturb a listening side. */
  lemma ListensOn(g: Graph, k: Conn, g': Graph, k': Conn, fabric: Fabric, q: Eq?, l: Listener?)
    requires Owns(g', k') && SameRest(g, k, g', k') && Listens(g, fabric, q, l) && EqsHeld(k) !! EqsIn(q)
    ensures Listens(g', fabric, q, l) && EqsHeld(k') !! EqsIn(q)
  {
    hide AllLive, Lanes, Exclusive;
    assert EqsHeld(k') !! EqsIn(q) by { if q != null { assert q in g.eqs - EqsHeld(k); } }
    assert LiveEq(g', q) by { if q != null { assert q in g.eqs - EqsHeld(k); } }
    forall e | e in g'.eps ensures e.eq != q {
      assert e !in EpsHeld(k') ==> e in g'.eps - EpsHeld(k');
    }
  }

  /** Nor does a listening side disturb a connection. */
  lemma OwnsOn(g: Graph, q: Eq?, l: Listener?, g': Graph, fabric: Fabric, q': Eq?, l': Listener?, m: Conn)
    requires Listens(g', fabric, q', l') && ListenRest(g, q, l, g', q', l') && Owns(g, m) && EqsIn(q) !! EqsHeld(m)
    ensures Owns(g', m) && EqsIn(q') !! EqsHeld(m)
    ensures g'.eps == g.eps && g'.ops == g.ops
  {
    assert EqsIn(q') !! EqsHeld(m) by { if m.eq != null { assert m.eq in g.eqs - EqsIn(q); } }
    assert LiveEq(g', m.eq) by { if m.eq != null { assert m.eq in g.eqs - EqsIn(q); } }
    forall x | x in g'.listeners ensures x.eq != m.eq {
      assert x !in ListenersIn(l') ==> x in g'.listeners - ListenersIn(l');
    }
  }

  lemma NothingHeld(g: Graph)
    ensures g.domains - DomainsHeld(NOTHING) == g.domains && g.eqs - EqsHeld(NOTHING) == g.eqs
      && g.eps - EpsHeld(NOTHING) == g.eps
    ensures g.stages - CqsHeld(NOTHING) == g.stages && g.lists - CqsHeld(NOTHING) == g.lists
    ensures g.mrs - MrsHeld(NOTHING) == g.mrs && g.ops - OpsHeld(NOTHING) == g.ops
  {
    assert CqsHeld(NOTHING) == {} && MrsHeld(NOTHING) == {} && OpsHeld(NOTHING) == {};
  }
}
