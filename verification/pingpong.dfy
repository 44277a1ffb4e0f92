/** The keep-going cleanup of the C example: every handle is closed once, in order,
    whatever happened to the ones before it. */
module Pingpong {
  import opened Handles
  import opened ResourceGraph
  import opened ShimSpec
  import opened GraphLaws
  import opened Shim
  import opened Ownership

  /** The handles of a session; null where the session never got that far. */
  datatype Parts = Parts(fabric: Fabric?, domain: Domain?, eq: Eq?, listener: Listener?, ep: Endpoint?, tx: Lane,
                         rx: Lane)

  /** Which handles of a lane are live, and whether its operation is in flight. */
  datatype Side = Side(cq: bool, op: bool, mr: bool, fly: bool)
  datatype Base = Base(listener: bool, eq: bool, domain: bool, fabric: bool)

  /** Which handles of the session are live. */
  datatype Alive = Alive(ep: bool, tx: Side, rx: Side, low: Base)

  // One predicate per kind: the live handles are the session's, where the flag is set.

  predicate TheFabric(xs: set<Fabric>, x: Fabric?, live: bool) {
    (forall y | y in xs :: live && y == x) && (live ==> x != null && x in xs)
  }
  predicate TheDomain(xs: set<Domain>, x: Domain?, live: bool) {
    (forall y | y in xs :: live && y == x) && (live ==> x != null && x in xs)
  }
  predicate TheEq(xs: set<Eq>, x: Eq?, live: bool) {
    (forall y | y in xs :: live && y == x) && (live ==> x != null && x in xs)
  }
  predicate TheListener(xs: set<Listener>, x: Listener?, live: bool) {
    (forall y | y in xs :: live && y == x) && (live ==> x != null && x in xs)
  }
  predicate TheEndpoint(xs: set<Endpoint>, x: Endpoint?, live: bool) {
    (forall y | y in xs :: live && y == x) && (live ==> x != null && x in xs)
  }

  predicate TheCqs(xs: set<Cq>, a: Cq?, b: Cq?, liveA: bool, liveB: bool) {
    (forall y | y in xs :: (liveA && y == a) || (liveB && y == b)) && (liveA ==> a != null && a in xs)
      && (liveB ==> b != null && b in xs)
  }

  predicate TheOps(xs: set<Op>, a: Op?, b: Op?, liveA: bool, liveB: bool) {
    (forall y | y in xs :: (liveA && y == a) || (liveB && y == b)) && (liveA ==> a != null && a in xs)
      && (liveB ==> b != null && b in xs)
  }

  predicate TheMrs(xs: set<Mr>, a: Mr?, b: Mr?, liveA: bool, liveB: bool) {
    (forall y | y in xs :: (liveA && y == a) || (liveB && y == b)) && (liveA ==> a != null && a in xs)
      && (liveB ==> b != null && b in xs)
  }

  /** The graph holds the live handles of the session and nothing else. */
  predicate Whole(g: Graph, s: Parts, v: Alive) {
    && TheFabric(g.fabrics, s.fabric, v.low.fabric) && TheDomain(g.domains, s.domain, v.low.domain)
    && TheEq(g.eqs, s.eq, v.low.eq)
    && TheListener(g.listeners.Keys, s.listener, v.low.listener) && TheEndpoint(g.eps.Keys, s.ep, v.ep)
    && TheCqs(g.stages.Keys, s.tx.cq, s.rx.cq, v.tx.cq, v.rx.cq)
    && TheOps(g.ops.Keys, s.tx.op, s.rx.op, v.tx.op, v.rx.op)
    && TheMrs(g.mrs, s.tx.mr, s.rx.mr, v.tx.mr, v.rx.mr)
  }

  /** The two lanes are apart, the endpoint uses them as its two sides, each region serves one direction. */
  predicate Wired(s: Parts) {
    && (s.tx.cq != null ==> s.tx.cq != s.rx.cq) && (s.tx.op != null ==> s.tx.op != s.rx.op)
    && (s.tx.mr != null ==> s.tx.mr != s.rx.mr)
    && (s.ep != null ==> s.ep.tx == s.tx.cq && s.ep.rx == s.rx.cq)
    && (s.tx.mr != null ==> s.tx.mr.access == ACCESS_SEND) && (s.rx.mr != null ==> s.rx.mr.access == ACCESS_RECV)
  }

  /** Operations fly on their own lane's queue. */
  predicate InLane(ops: map<Op, OpRec>, lane: Lane, fly: bool) {
    && (fly ==> lane.op != null)
    && (lane.op != null && lane.op in ops ==> ops[lane.op].flight.Flying? == fly)
    && (lane.op != null && lane.op !in ops ==> !fly)
    && (fly ==> ops[lane.op].flight.cq == lane.cq)
  }

  predicate Session(g: Graph, s: Parts, v: Alive) {
    Whole(g, s, v) && Wired(s) && InLane(g.ops, s.tx, v.tx.fly) && InLane(g.ops, s.rx, v.rx.fly)
  }

  // ----------------------------------------------------------------- one close

  lemma ShutdownStep(g: Graph, s: Parts, v: Alive, fi: int)
    requires Inv(g) && Session(g, s, v) && v.ep
    ensures Session(ShimSpec.Shutdown(g, s.ep, fi).g, s, v) && ShimSpec.Shutdown(g, s.ep, fi).g.log == g.log
  {
    hide TheFabric, TheDomain, TheEq, TheListener, TheCqs, TheOps, TheMrs, Closed, Staged, Listed, Borrowed, Logged;
  }

  lemma EndpointGone(xs: set<Endpoint>, x: Endpoint?)
    requires TheEndpoint(xs, x, true)
    ensures x != null && TheEndpoint(xs - {x}, x, false)
  {
  }

  lemma FlightsKept(ops: map<Op, OpRec>, ops': map<Op, OpRec>, lane: Lane, fly: bool)
    requires InLane(ops, lane, fly) && ops'.Keys == ops.Keys
    requires forall o | o in ops :: ops'[o] == ops[o] || ops'[o] == Returned(ops[o], true)
    ensures InLane(ops', lane, fly)
  {
  }

  lemma EpStep(g: Graph, s: Parts, v: Alive, fi: int)
    requires Inv(g) && Session(g, s, v) && v.ep
    ensures s.ep != null && s.ep in g.eps && s.ep.tx in g.lists && s.ep.rx in g.lists
    ensures var x := CloseEp(g, s.ep, fi);
      x.ret == fi && x.g.log == g.log && Session(x.g, s, if fi == 0 then v.(ep := false) else v)
  {
    EndpointGone(g.eps.Keys, s.ep);
    EndpointParts(g, s.ep);
    RemoveEndpointShape(SetClosing(g, s.ep), s.ep);
    hide Inv, RemoveEndpoint, InLane, Wired, TheFabric, TheDomain, TheEq, TheListener, TheEndpoint, TheCqs, TheOps,
      TheMrs;
    if fi == 0 {
      var g' := RemoveEndpoint(SetClosing(g, s.ep), s.ep);
      assert g'.stages.Keys == g.stages.Keys && g'.ops.Keys == g.ops.Keys && g'.eps.Keys == g.eps.Keys - {s.ep};
      FlightsKept(g.ops, g'.ops, s.tx, v.tx.fly);
      FlightsKept(g.ops, g'.ops, s.rx, v.rx.fly);
    } else {
      assert SetClosing(g, s.ep).eps.Keys == g.eps.Keys;
    }
  }

  function LaneAt(s: Parts, dir: Direction): Lane { if dir == Recv then s.rx else s.tx }

  /** With the queue gone its operation is free. */
  function CqGone(v: Alive, dir: Direction): Alive {
    if dir == Recv then v.(rx := v.rx.(cq := false, fly := false)) else v.(tx := v.tx.(cq := false, fly := false))
  }

  lemma Stage(g: Graph, s: Parts, v: Alive, dir: Direction)
    requires Inv(g) && Session(g, s, v) && (if dir == Recv then v.rx.cq else v.tx.cq)
    ensures g.stages[LaneAt(s, dir).cq].InUse? <==> v.ep
  {
    hide TheFabric, TheDomain, TheEq, TheListener, TheOps, TheMrs, Listed, Borrowed, Logged;
  }

  /** A drained lane's operation has landed, the other lane's flies on. */
  lemma DrainedLane(g: Graph, g': Graph, lane: Lane, fly: bool, c: Cq)
    requires Listed(g) && c in g.lists && AllDiscarded(DropCq(g, c), g', g.lists[c]) && InLane(g.ops, lane, fly)
    ensures InLane(g'.ops, lane, fly && lane.cq != c)
  {
    if lane.op != null && lane.op in g.ops { assert lane.op in g.lists[c] <==> fly && lane.cq == c; }
  }

  lemma DrainedHandles(g: Graph, g': Graph, s: Parts, v: Alive, dir: Direction)
    requires Whole(g, s, v) && Wired(s) && CqLive(v, dir) && LaneAt(s, dir).cq != null && LaneAt(s, dir).cq in g.lists
    requires AllDiscarded(DropCq(g, LaneAt(s, dir).cq), g', g.lists[LaneAt(s, dir).cq])
    ensures Whole(g', s, CqGone(v, dir))
  {
    hide TheFabric, TheDomain, TheEq, TheListener, TheEndpoint, TheOps, TheMrs;
  }

  lemma DrainedWhole(g: Graph, s: Parts, v: Alive, dir: Direction)
    requires Listed(g) && Logged(g) && Session(g, s, v) && CqLive(v, dir)
    ensures LaneAt(s, dir).cq != null && LaneAt(s, dir).cq in g.lists
    ensures Session(Drained(g, LaneAt(s, dir).cq), s, CqGone(v, dir))
  {
    hide InLane, Drained, Logged, AllDiscarded, TheFabric, TheDomain, TheEq, TheListener, TheEndpoint, TheOps, TheMrs;
    var c := LaneAt(s, dir).cq;
    CloseCqShape(g, c);
    DrainedHandles(g, Drained(g, c), s, v, dir);
    DrainedLane(g, Drained(g, c), s.tx, v.tx.fly, c);
    DrainedLane(g, Drained(g, c), s.rx, v.rx.fly, c);
    FlightQueue(g, s.tx, v.tx.fly);
    FlightQueue(g, s.rx, v.rx.fly);
  }

  lemma FlightQueue(g: Graph, lane: Lane, fly: bool)
    requires InLane(g.ops, lane, fly)
    ensures fly ==> lane.cq != null
  {
  }

  /** Nothing is discarded from a queue on which nothing flies. */
  lemma DrainedLog(g: Graph, s: Parts, v: Alive, dir: Direction)
    requires Listed(g) && Session(g, s, v) && CqLive(v, dir) && !Pinned(v, dir)
    ensures LaneAt(s, dir).cq in g.lists && Drained(g, LaneAt(s, dir).cq).log == g.log
  {
    hide TheFabric, TheDomain, TheEq, TheListener, TheEndpoint, TheMrs;
    var c := LaneAt(s, dir).cq;
    forall o | o in g.ops ensures o !in g.lists[c] { }
    Memberless(g.lists[c]);
  }

  lemma CqStep(g: Graph, s: Parts, v: Alive, dir: Direction, fi: int)
    requires Inv(g) && Session(g, s, v) && (if dir == Recv then v.rx.cq else v.tx.cq) && LiveCq(g, LaneAt(s, dir).cq)
    ensures var x := CloseCq(g, LaneAt(s, dir).cq, fi);
      && x.ret == (if v.ep then -EBUSY else fi) && (!Pinned(v, dir) ==> x.g.log == g.log)
      && Session(x.g, s, if x.ret == 0 then CqGone(v, dir) else v)
  {
    assert LaneAt(s, dir).cq != null;
    hide Closed, Staged, Listed, Borrowed, Logged, Drained, Whole, InLane;
    Stage(g, s, v, dir);
    DrainedWhole(g, s, v, dir);
    if !Pinned(v, dir) { DrainedLog(g, s, v, dir); }
  }

  function OpGone(v: Alive, dir: Direction): Alive {
    if dir == Recv then v.(rx := v.rx.(op := false)) else v.(tx := v.tx.(op := false))
  }
  function Pinned(v: Alive, dir: Direction): bool { if dir == Recv then v.rx.fly else v.tx.fly }

  lemma OpStep(g: Graph, s: Parts, v: Alive, dir: Direction)
    requires Inv(g) && Session(g, s, v) && (if dir == Recv then v.rx.op else v.tx.op)
    ensures LiveOp(g, LaneAt(s, dir).op)
    ensures var x := FreeOp(g, LaneAt(s, dir).op);
      x.ret == (if Pinned(v, dir) then -EBUSY else 0) && x.g.log == g.log
        && Session(x.g, s, if x.ret == 0 then OpGone(v, dir) else v)
  {
    hide TheFabric, TheDomain, TheEq, TheListener, TheEndpoint, TheCqs, TheMrs, Closed, Staged, Listed, Borrowed,
      Logged;
  }

  function MrGone(v: Alive, dir: Direction): Alive {
    if dir == Recv then v.(rx := v.rx.(mr := false)) else v.(tx := v.tx.(mr := false))
  }

  /** A region is borrowed exactly while its operation is in flight and the endpoint is open. */
  lemma Borrowing(g: Graph, s: Parts, v: Alive, dir: Direction)
    requires Inv(g) && Session(g, s, v) && (dir == Send || dir == Recv) && (if dir == Recv then v.rx.mr else v.tx.mr)
    ensures BorrowersOf(g.ops, LaneAt(s, dir).mr) != {} <==> Pinned(v, dir) && v.ep
  {
    hide TheFabric, TheDomain, TheEq, TheListener, Logged;
    var m := LaneAt(s, dir).mr;
    assert ACCESS_SEND & ACCESS_RECV == 0 && ACCESS_RECV & ACCESS_SEND == 0;
    forall o | o in g.ops && g.ops[o].flight.Flying?
      ensures Borrows(g.ops[o], m) <==> o == LaneAt(s, dir).op && v.ep
    {
      assert BorrowOk(g, g.ops[o]);
    }
    if Pinned(v, dir) && v.ep { assert LaneAt(s, dir).op in BorrowersOf(g.ops, m); }
  }

  lemma MrsGone(xs: set<Mr>, a: Mr?, b: Mr?, liveA: bool, liveB: bool)
    requires TheMrs(xs, a, b, liveA, liveB) && (a != null ==> a != b)
    ensures liveA ==> a != null && TheMrs(xs - {a}, a, b, false, liveB)
    ensures liveB ==> b != null && TheMrs(xs - {b}, a, b, liveA, false)
  {
  }

  lemma MrStep(g: Graph, s: Parts, v: Alive, dir: Direction, fi: int)
    requires Inv(g) && Session(g, s, v) && (dir == Send || dir == Recv) && (if dir == Recv then v.rx.mr else v.tx.mr)
    ensures var x := CloseMr(g, LaneAt(s, dir).mr, fi);
      && x.ret == (if Pinned(v, dir) && v.ep then -EBUSY else fi) && x.g.log == g.log
      && Session(x.g, s, if x.ret == 0 then MrGone(v, dir) else v)
  {
    Borrowing(g, s, v, dir);
    MrsGone(g.mrs, s.tx.mr, s.rx.mr, v.tx.mr, v.rx.mr);
    hide Inv, InLane, Wired, TheFabric, TheDomain, TheEq, TheListener, TheEndpoint, TheCqs, TheOps, TheMrs;
  }

  lemma ListenerGone(xs: set<Listener>, x: Listener?)
    requires TheListener(xs, x, true)
    ensures x != null && TheListener(xs - {x}, x, false)
  {
  }

  lemma ListenerStep(g: Graph, s: Parts, v: Alive, fi: int)
    requires Inv(g) && Session(g, s, v) && v.low.listener
    ensures var x := CloseListener(g, s.listener, fi);
      x.ret == fi && x.g.log == g.log && Session(x.g, s, if fi == 0 then v.(low := v.low.(listener := false)) else v)
  {
    hide Inv, InLane, Wired, TheFabric, TheDomain, TheEq, TheListener, TheEndpoint, TheCqs, TheOps, TheMrs;
    ListenerGone(g.listeners.Keys, s.listener);
    var l: Listener := s.listener;
    if fi == 0 { assert (g.listeners - {l}).Keys == g.listeners.Keys - {l}; }
  }

  lemma EqGate(g: Graph, s: Parts, v: Alive)
    requires Closed(g) && Whole(g, s, v) && v.low.eq
    ensures s.eq != null && TheEq(g.eqs - {s.eq}, s.eq, false)
    ensures ListenersOn(g.listeners.Keys, s.eq) == {} && EpsOn(g.eps.Keys, s.eq) == {} <==> !v.ep && !v.low.listener
  {
    hide TheFabric, TheDomain, TheCqs, TheOps, TheMrs;
    assert v.ep ==> s.ep in EpsOn(g.eps.Keys, s.eq);
    assert v.low.listener ==> s.listener in ListenersOn(g.listeners.Keys, s.eq);
  }

  lemma EqStep(g: Graph, s: Parts, v: Alive, fi: int)
    requires Inv(g) && Session(g, s, v) && v.low.eq
    ensures var x := CloseEq(g, s.eq, fi);
      x.ret == (if v.ep || v.low.listener then -EBUSY else fi) && x.g.log == g.log
        && Session(x.g, s, if x.ret == 0 then v.(low := v.low.(eq := false)) else v)
  {
    EqGate(g, s, v);
    hide Inv, InLane, Wired, TheFabric, TheDomain, TheEq, TheListener, TheEndpoint, TheCqs, TheOps, TheMrs;
  }

  lemma DomainGate(g: Graph, s: Parts, v: Alive)
    requires Closed(g) && Whole(g, s, v) && v.low.domain
    ensures s.domain != null && TheDomain(g.domains - {s.domain}, s.domain, false)
    ensures CqsOf(g.stages.Keys, s.domain) == {} && EpsOf(g.eps.Keys, s.domain) == {} && MrsOf(g.mrs, s.domain) == {}
       <==> !v.ep && !v.tx.cq && !v.rx.cq && !v.tx.mr && !v.rx.mr
  {
    hide TheFabric, TheEq, TheListener, TheOps;
    assert v.ep ==> s.ep in EpsOf(g.eps.Keys, s.domain);
    assert v.tx.cq ==> s.tx.cq in CqsOf(g.stages.Keys, s.domain);
    assert v.rx.cq ==> s.rx.cq in CqsOf(g.stages.Keys, s.domain);
    assert v.tx.mr ==> s.tx.mr in MrsOf(g.mrs, s.domain);
    assert v.rx.mr ==> s.rx.mr in MrsOf(g.mrs, s.domain);
  }

  lemma DomainStep(g: Graph, s: Parts, v: Alive, fi: int)
    requires Inv(g) && Session(g, s, v) && v.low.domain
    ensures var x := CloseDomain(g, s.domain, fi);
      && x.ret == (if v.ep || v.tx.cq || v.rx.cq || v.tx.mr || v.rx.mr then -EBUSY else fi) && x.g.log == g.log
      && Session(x.g, s, if x.ret == 0 then v.(low := v.low.(domain := false)) else v)
  {
    DomainGate(g, s, v);
    hide Inv, InLane, Wired, TheFabric, TheDomain, TheEq, TheListener, TheEndpoint, TheCqs, TheOps, TheMrs;
  }

  lemma FabricGate(g: Graph, s: Parts, v: Alive)
    requires Closed(g) && Whole(g, s, v) && v.low.fabric
    ensures s.fabric != null && TheFabric(g.fabrics - {s.fabric}, s.fabric, false)
    ensures (DomainsOf(g.domains, s.fabric) == {} && EqsOf(g.eqs, s.fabric) == {}
             && ListenersOf(g.listeners.Keys, s.fabric) == {})
       <==> !v.low.domain && !v.low.eq && !v.low.listener
  {
    hide TheEndpoint, TheCqs, TheOps, TheMrs;
    assert v.low.domain ==> s.domain in DomainsOf(g.domains, s.fabric);
    assert v.low.eq ==> s.eq in EqsOf(g.eqs, s.fabric);
    assert v.low.listener ==> s.listener in ListenersOf(g.listeners.Keys, s.fabric);
  }

  lemma FabricStep(g: Graph, s: Parts, v: Alive, fi: int)
    requires Inv(g) && Session(g, s, v) && v.low.fabric
    ensures var x := CloseFabric(g, s.fabric, fi);
      x.ret == (if v.low.domain || v.low.eq || v.low.listener then -EBUSY else fi) && x.g.log == g.log
        && Session(x.g, s, if x.ret == 0 then v.(low := v.low.(fabric := false)) else v)
  {
    FabricGate(g, s, v);
    hide Inv, InLane, Wired, TheFabric, TheDomain, TheEq, TheListener, TheEndpoint, TheCqs, TheOps, TheMrs;
  }

  // ------------------------------------------- what each close leaves and returns

  function CqLive(v: Alive, dir: Direction): bool { if dir == Recv then v.rx.cq else v.tx.cq }
  function OpLive(v: Alive, dir: Direction): bool { if dir == Recv then v.rx.op else v.tx.op }
  function MrLive(v: Alive, dir: Direction): bool { if dir == Recv then v.rx.mr else v.tx.mr }

  function EpCode(v: Alive, fi: int): int { if v.ep then fi else 0 }
  function AfterEp(v: Alive, fi: int): Alive { if fi == 0 then v.(ep := false) else v }

  function CqCode(v: Alive, dir: Direction, fi: int): int { if !CqLive(v, dir) then 0 else if v.ep then -EBUSY else fi }
  function AfterCq(v: Alive, dir: Direction, fi: int): Alive {
    if CqLive(v, dir) && CqCode(v, dir, fi) == 0 then CqGone(v, dir) else v
  }

  function OpCode(v: Alive, dir: Direction): int { if OpLive(v, dir) && Pinned(v, dir) then -EBUSY else 0 }
  function AfterOp(v: Alive, dir: Direction): Alive { if OpCode(v, dir) == 0 then OpGone(v, dir) else v }

  function MrCode(v: Alive, dir: Direction, fi: int): int {
    if !MrLive(v, dir) then 0 else if Pinned(v, dir) && v.ep then -EBUSY else fi
  }
  function AfterMr(v: Alive, dir: Direction, fi: int): Alive { if MrCode(v, dir, fi) == 0 then MrGone(v, dir) else v }

  function ListenerCode(v: Alive, fi: int): int { if v.low.listener then fi else 0 }
  function AfterListener(v: Alive, fi: int): Alive { if fi == 0 then v.(low := v.low.(listener := false)) else v }

  function EqCode(v: Alive, fi: int): int { if !v.low.eq then 0 else if v.ep || v.low.listener then -EBUSY else fi }
  function AfterEq(v: Alive, fi: int): Alive { if EqCode(v, fi) == 0 then v.(low := v.low.(eq := false)) else v }

  function DomainCode(v: Alive, fi: int): int {
    if !v.low.domain then 0 else if v.ep || v.tx.cq || v.rx.cq || v.tx.mr || v.rx.mr then -EBUSY else fi
  }
  function AfterDomain(v: Alive, fi: int): Alive {
    if DomainCode(v, fi) == 0 then v.(low := v.low.(domain := false)) else v
  }

  function FabricCode(v: Alive, fi: int): int {
    if !v.low.fabric then 0 else if v.low.domain || v.low.eq || v.low.listener then -EBUSY else fi
  }
  function AfterFabric(v: Alive, fi: int): Alive {
    if FabricCode(v, fi) == 0 then v.(low := v.low.(fabric := false)) else v
  }

  // --------------------------------------------------------- the closes themselves

  /** The session's endpoint, if any, was shut down and closed. */
  function Closing(g: Graph, cm: seq<CmCall>, ep: Endpoint?): seq<CmCall> {
    if ep == null then cm else Stopped(g, cm, ep, true)
  }

  method StopTraffic(w: World, s: Parts, ghost v: Alive, fi: int)
    requires w.Valid() && Session(w.g, s, v) && (v.ep <==> s.ep != null)
    modifies w`g, w`cm, w.objs
    ensures w.Valid() && Session(w.g, s, v) && w.objs == old(w.objs)
    ensures w.cm ==
      if s.ep != null && s.ep in old(w.g).eps && old(w.g).eps[s.ep].ready then old(w.cm) + [PeerTold(s.ep)]
      else old(w.cm)
    ensures w.g.log == old(w.g.log)
  {
    w.Consistent();
    if s.ep != null {
      ShutdownStep(w.g, s, v, fi);
      assert LiveEp(w.g, s.ep);
      hide World.Valid, Inv, Session;
      var ret := w.Shutdown(s.ep, fi);
    }
  }

  method TryCloseEndpoint(w: World, s: Parts, ghost v: Alive, fi: int) returns (ret: int, ghost v': Alive)
    requires w.Valid() && Session(w.g, s, v) && (v.ep <==> s.ep != null)
    modifies w`g, w`cm, w.objs
    ensures w.Valid() && w.objs == old(w.objs) && v' == AfterEp(v, fi) && ret == EpCode(v, fi) && Session(w.g, s, v')
    ensures w.cm == if s.ep == null then old(w.cm) else old(w.cm) + [EpClosed(s.ep)]
    ensures w.g.log == old(w.g.log)
  {
    w.Consistent();
    if s.ep != null { EpStep(w.g, s, v, fi); }
    hide World.Valid, Inv, Session, CloseEp;
    v' := AfterEp(v, fi);
    ret := w.EndpointClose(s.ep, fi);
  }

  method TryCloseCq(w: World, s: Parts, ghost v: Alive, dir: Direction, fi: int) returns (ret: int, ghost v': Alive)
    requires w.Valid() && Session(w.g, s, v) && (CqLive(v, dir) <==> LaneAt(s, dir).cq != null)
    modifies w`g, w.objs
    ensures w.Valid() && w.objs == old(w.objs) && w.cm == old(w.cm) && v' == AfterCq(v, dir, fi)
      && ret == CqCode(v, dir, fi) && Session(w.g, s, v')
    ensures !Pinned(v, dir) ==> w.g.log == old(w.g.log)
  {
    w.Consistent();
    assert LiveCq(w.g, LaneAt(s, dir).cq);
    if LaneAt(s, dir).cq != null { CqStep(w.g, s, v, dir, fi); }
    hide World.Valid, Inv, Session, ShimSpec.CloseCq;
    v' := AfterCq(v, dir, fi);
    ret := w.CqClose(LaneAt(s, dir).cq, fi);
  }

  method TryFreeOp(w: World, s: Parts, ghost v: Alive, dir: Direction) returns (ret: int, ghost v': Alive)
    requires w.Valid() && Session(w.g, s, v) && (OpLive(v, dir) <==> LaneAt(s, dir).op != null)
    modifies w`g
    ensures w.Valid() && w.objs == old(w.objs) && w.cm == old(w.cm) && v' == AfterOp(v, dir) && ret == OpCode(v, dir)
      && Session(w.g, s, v')
    ensures w.g.log == old(w.g.log)
  {
    w.Consistent();
    if LaneAt(s, dir).op != null { OpStep(w.g, s, v, dir); }
    hide World.Valid, Inv, Session, ShimSpec.FreeOp;
    v' := AfterOp(v, dir);
    ret := w.OpFree(LaneAt(s, dir).op);
  }

  /** Close the region; only then free the buffer behind it. */
  method TryCloseMr(w: World, s: Parts, ghost v: Alive, dir: Direction, fi: int)
    returns (ret: int, freed: bool, ghost v': Alive)
    requires w.Valid() && Session(w.g, s, v) && (dir == Send || dir == Recv)
      && (MrLive(v, dir) <==> LaneAt(s, dir).mr != null)
    modifies w`g, w.objs
    ensures w.Valid() && w.objs == old(w.objs) && w.cm == old(w.cm) && v' == AfterMr(v, dir, fi)
      && ret == MrCode(v, dir, fi) && Session(w.g, s, v')
    ensures freed == (ret == 0)
    ensures w.g.log == old(w.g.log)
  {
    w.Consistent();
    assert LiveMr(w.g, LaneAt(s, dir).mr);
    if LaneAt(s, dir).mr != null { MrStep(w.g, s, v, dir, fi); }
    hide World.Valid, Inv, Session, ShimSpec.CloseMr;
    v' := AfterMr(v, dir, fi);
    ret := w.MrClose(LaneAt(s, dir).mr, fi);
    freed := ret == 0;
  }

  method TryCloseListener(w: World, s: Parts, ghost v: Alive, fi: int) returns (ret: int, ghost v': Alive)
    requires w.Valid() && Session(w.g, s, v) && (v.low.listener <==> s.listener != null)
    modifies w`g, w.objs
    ensures w.Valid() && w.objs == old(w.objs) && w.cm == old(w.cm) && v' == AfterListener(v, fi)
      && ret == ListenerCode(v, fi) && Session(w.g, s, v')
    ensures w.g.log == old(w.g.log)
  {
    w.Consistent();
    assert LiveListener(w.g, s.listener);
    if s.listener != null { ListenerStep(w.g, s, v, fi); }
    hide World.Valid, Inv, Session, ShimSpec.CloseListener;
    v' := AfterListener(v, fi);
    ret := w.ListenerClose(s.listener, fi);
  }

  method TryCloseEq(w: World, s: Parts, ghost v: Alive, fi: int) returns (ret: int, ghost v': Alive)
    requires w.Valid() && Session(w.g, s, v) && (v.low.eq <==> s.eq != null)
    modifies w`g, w.objs
    ensures w.Valid() && w.objs == old(w.objs) && w.cm == old(w.cm) && v' == AfterEq(v, fi) && ret == EqCode(v, fi)
      && Session(w.g, s, v')
    ensures w.g.log == old(w.g.log)
  {
    w.Consistent();
    assert LiveEq(w.g, s.eq);
    if s.eq != null { EqStep(w.g, s, v, fi); }
    hide World.Valid, Inv, Session, ShimSpec.CloseEq;
    v' := AfterEq(v, fi);
    ret := w.EqClose(s.eq, fi);
  }

  method TryCloseDomain(w: World, s: Parts, ghost v: Alive, fi: int) returns (ret: int, ghost v': Alive)
    requires w.Valid() && Session(w.g, s, v) && (v.low.domain <==> s.domain != null)
    modifies w`g, w.objs
    ensures w.Valid() && w.objs == old(w.objs) && w.cm == old(w.cm) && v' == AfterDomain(v, fi)
      && ret == DomainCode(v, fi) && Session(w.g, s, v')
    ensures w.g.log == old(w.g.log)
  {
    w.Consistent();
    assert LiveDomain(w.g, s.domain);
    if s.domain != null { DomainStep(w.g, s, v, fi); }
    hide World.Valid, Inv, Session, ShimSpec.CloseDomain;
    v' := AfterDomain(v, fi);
    ret := w.DomainClose(s.domain, fi);
  }

  method TryCloseFabric(w: World, s: Parts, ghost v: Alive, fi: int) returns (ret: int, ghost v': Alive)
    requires w.Valid() && Session(w.g, s, v) && (v.low.fabric <==> s.fabric != null)
    modifies w`g
    ensures w.Valid() && w.objs == old(w.objs) && w.cm == old(w.cm) && v' == AfterFabric(v, fi)
      && ret == FabricCode(v, fi) && Session(w.g, s, v')
    ensures w.g.log == old(w.g.log)
  {
    w.Consistent();
    assert LiveFabric(w.g, s.fabric);
    if s.fabric != null { FabricStep(w.g, s, v, fi); }
    hide World.Valid, Inv, Session, ShimSpec.CloseFabric;
    v' := AfterFabric(v, fi);
    ret := w.FabricClose(s.fabric, fi);
  }

  // ------------------------------------------------------------ the whole cleanup

  datatype Upper = Upper(shutdown: int, ep: int, txCq: int, rxCq: int)
  datatype Lower = Lower(listener: int, eq: int, domain: int, fabric: int)

  /** The provider's answers, in order. */
  datatype CleanAnswers = CleanAnswers(reject: int, upper: Upper, txMr: int, rxMr: int, lower: Lower)

  function LaneUp(lane: Lane, fly: bool): Side { Side(lane.cq != null, lane.op != null, lane.mr != null, fly) }

  /** Everything the session has is live at first. */
  function Start(s: Parts, txFly: bool, rxFly: bool): Alive {
    Alive(s.ep != null, LaneUp(s.tx, txFly), LaneUp(s.rx, rxFly),
          Base(s.listener != null, s.eq != null, s.domain != null, s.fabric != null))
  }

  function UpperLeft(v: Alive, a: Upper): Alive {
    AfterCq(AfterCq(AfterEp(v, a.ep), Direction.Send, a.txCq), Recv, a.rxCq)
  }

  function OpsLeft(v: Alive): Alive { AfterOp(AfterOp(v, Direction.Send), Recv) }

  function MrsLeft(v: Alive, txMr: int, rxMr: int): Alive { AfterMr(AfterMr(v, Direction.Send, txMr), Recv, rxMr) }

  function LowerLeft(v: Alive, a: Lower): Alive {
    AfterFabric(AfterDomain(AfterEq(AfterListener(v, a.listener), a.eq), a.domain), a.fabric)
  }

  function MiddleLeft(v: Alive, a: CleanAnswers): Alive { MrsLeft(OpsLeft(v), a.txMr, a.rxMr) }

  /** What the cleanup leaves live, step by step. */
  function Survivors(v: Alive, a: CleanAnswers): Alive { LowerLeft(MiddleLeft(UpperLeft(v, a.upper), a), a.lower) }

  predicate SideLeft(x: Side) { x.cq || x.op || x.mr }
  predicate BaseLeft(x: Base) { x.listener || x.eq || x.domain || x.fabric }
  predicate AnythingLeft(v: Alive) { v.ep || SideLeft(v.tx) || SideLeft(v.rx) || BaseLeft(v.low) }

  /** In flight means on a live queue, of a live operation. */
  predicate Sensible(v: Alive) { (v.tx.fly ==> v.tx.cq && v.tx.op) && (v.rx.fly ==> v.rx.cq && v.rx.op) }

  predicate UpperNegative(a: Upper) { a.ep <= 0 && a.txCq <= 0 && a.rxCq <= 0 }
  predicate LowerNegative(a: Lower) { a.listener <= 0 && a.eq <= 0 && a.domain <= 0 && a.fabric <= 0 }

  /** The provider reports failures as negative codes. */
  predicate Negative(a: CleanAnswers) { UpperNegative(a.upper) && a.txMr <= 0 && a.rxMr <= 0 && LowerNegative(a.lower) }

  predicate Obliging(a: CleanAnswers) {
    && a.upper.ep == 0 && a.upper.txCq == 0 && a.upper.rxCq == 0 && a.txMr == 0 && a.rxMr == 0
    && a.lower.listener == 0 && a.lower.eq == 0 && a.lower.domain == 0 && a.lower.fabric == 0
  }

  // Which handles stay: those the provider kept, and those something that stays depends on.

  function KeptEp(v: Alive, a: CleanAnswers): bool { v.ep && a.upper.ep != 0 }
  function KeptTxCq(v: Alive, a: CleanAnswers): bool { v.tx.cq && (KeptEp(v, a) || a.upper.txCq != 0) }
  function KeptRxCq(v: Alive, a: CleanAnswers): bool { v.rx.cq && (KeptEp(v, a) || a.upper.rxCq != 0) }
  function KeptTxMr(v: Alive, a: CleanAnswers): bool { v.tx.mr && ((v.tx.fly && KeptEp(v, a)) || a.txMr != 0) }
  function KeptRxMr(v: Alive, a: CleanAnswers): bool { v.rx.mr && ((v.rx.fly && KeptEp(v, a)) || a.rxMr != 0) }
  function KeptListener(v: Alive, a: CleanAnswers): bool { v.low.listener && a.lower.listener != 0 }
  function KeptEq(v: Alive, a: CleanAnswers): bool {
    v.low.eq && (KeptEp(v, a) || KeptListener(v, a) || a.lower.eq != 0)
  }

  function KeptDomain(v: Alive, a: CleanAnswers): bool {
    v.low.domain
      && (KeptEp(v, a) || KeptTxCq(v, a) || KeptRxCq(v, a) || KeptTxMr(v, a) || KeptRxMr(v, a) || a.lower.domain != 0)
  }

  function KeptFabric(v: Alive, a: CleanAnswers): bool {
    v.low.fabric && (KeptDomain(v, a) || KeptEq(v, a) || KeptListener(v, a) || a.lower.fabric != 0)
  }

  lemma UpperExact(v: Alive, a: CleanAnswers)
    requires Sensible(v)
    ensures var u := UpperLeft(v, a.upper);
      && u.ep == KeptEp(v, a) && u.tx.cq == KeptTxCq(v, a) && u.rx.cq == KeptRxCq(v, a)
      && u.tx.fly == (v.tx.fly && KeptTxCq(v, a)) && u.rx.fly == (v.rx.fly && KeptRxCq(v, a))
      && u.tx.op == v.tx.op && u.rx.op == v.rx.op && u.tx.mr == v.tx.mr && u.rx.mr == v.rx.mr && u.low == v.low
  {
  }

  lemma MiddleExact(v: Alive, a: CleanAnswers)
    requires Sensible(v)
    ensures var m := MiddleLeft(v, a);
      && m.ep == v.ep && m.low == v.low && m.tx.cq == v.tx.cq && m.rx.cq == v.rx.cq && m.tx.fly == v.tx.fly
      && m.rx.fly == v.rx.fly
      && m.tx.op == v.tx.fly && m.rx.op == v.rx.fly
      && m.tx.mr == (v.tx.mr && ((v.tx.fly && v.ep) || a.txMr != 0))
      && m.rx.mr == (v.rx.mr && ((v.rx.fly && v.ep) || a.rxMr != 0))
  {
  }

  lemma LowerExact(v: Alive, a: Lower)
    ensures var l := LowerLeft(v, a);
      && l.ep == v.ep && l.tx == v.tx && l.rx == v.rx
      && l.low.listener == (v.low.listener && a.listener != 0)
      && l.low.eq == (v.low.eq && (v.ep || l.low.listener || a.eq != 0))
      && l.low.domain == (v.low.domain && (v.ep || v.tx.cq || v.rx.cq || v.tx.mr || v.rx.mr || a.domain != 0))
      && l.low.fabric == (v.low.fabric && (l.low.domain || l.low.eq || l.low.listener || a.fabric != 0))
  {
  }

  /** The survivors, handle by handle: an operation survives exactly while its queue pins it. */
  lemma SurvivorsExact(v: Alive, a: CleanAnswers)
    requires Sensible(v)
    ensures var x := Survivors(v, a);
      && x.ep == KeptEp(v, a) && x.tx.cq == KeptTxCq(v, a) && x.rx.cq == KeptRxCq(v, a)
      && x.tx.op == (v.tx.fly && KeptTxCq(v, a)) && x.rx.op == (v.rx.fly && KeptRxCq(v, a))
      && x.tx.mr == KeptTxMr(v, a) && x.rx.mr == KeptRxMr(v, a)
      && x.low.listener == KeptListener(v, a) && x.low.eq == KeptEq(v, a)
      && x.low.domain == KeptDomain(v, a) && x.low.fabric == KeptFabric(v, a)
    ensures Obliging(a) ==> !AnythingLeft(Survivors(v, a))
  {
    hide UpperLeft, MiddleLeft, LowerLeft;
    UpperExact(v, a);
    MiddleExact(UpperLeft(v, a.upper), a);
    LowerExact(MiddleLeft(UpperLeft(v, a.upper), a), a.lower);
  }

  // Whether one of a group of closes failed.

  function UpperFailed(v: Alive, a: Upper): bool {
    var e := AfterEp(v, a.ep);
    EpCode(v, a.ep) < 0 || CqCode(e, Direction.Send, a.txCq) < 0
      || CqCode(AfterCq(e, Direction.Send, a.txCq), Recv, a.rxCq) < 0
  }

  function OpsFailed(v: Alive): bool { OpCode(v, Direction.Send) < 0 || OpCode(AfterOp(v, Direction.Send), Recv) < 0 }

  function MrsFailed(v: Alive, txMr: int, rxMr: int): bool {
    MrCode(v, Direction.Send, txMr) != 0 || MrCode(AfterMr(v, Direction.Send, txMr), Recv, rxMr) != 0
  }

  function LowerFailed(v: Alive, a: Lower): bool {
    var l := AfterListener(v, a.listener);
    var q := AfterEq(l, a.eq);
    ListenerCode(v, a.listener) < 0 || EqCode(l, a.eq) < 0 || DomainCode(q, a.domain) < 0
    || FabricCode(AfterDomain(q, a.domain), a.fabric) < 0
  }

  lemma UpperFlag(v: Alive, a: Upper)
    requires Sensible(v) && UpperNegative(a)
    ensures var u := UpperLeft(v, a); UpperFailed(v, a) <==> u.ep || u.tx.cq || u.rx.cq
    ensures Sensible(UpperLeft(v, a))
  {
  }

  lemma MiddleFlag(v: Alive, txMr: int, rxMr: int)
    requires Sensible(v)
    ensures var o := OpsLeft(v); var m := MrsLeft(o, txMr, rxMr);
      OpsFailed(v) || MrsFailed(o, txMr, rxMr) <==> m.tx.op || m.rx.op || m.tx.mr || m.rx.mr
  {
  }

  lemma LowerFlag(v: Alive, a: Lower)
    requires LowerNegative(a)
    ensures LowerFailed(v, a) <==> BaseLeft(LowerLeft(v, a).low)
  {
  }

  method CleanUpper(w: World, s: Parts, ghost v: Alive, a: Upper) returns (failed: bool, ghost v': Alive)
    requires w.Valid() && Session(w.g, s, v) && (v.ep <==> s.ep != null) && (v.tx.cq <==> s.tx.cq != null)
      && (v.rx.cq <==> s.rx.cq != null)
    modifies w`g, w`cm, w.objs
    ensures w.Valid() && w.objs == old(w.objs) && v' == UpperLeft(v, a) && failed == UpperFailed(v, a)
      && Session(w.g, s, v')
    ensures w.cm == Closing(old(w.g), old(w.cm), s.ep)
    ensures !v.tx.fly && !v.rx.fly ==> w.g.log == old(w.g.log)
  {
    hide World.Valid, Session;
    StopTraffic(w, s, v, a.shutdown);
    var e, t, r;
    e, v' := TryCloseEndpoint(w, s, v, a.ep);
    t, v' := TryCloseCq(w, s, v', Direction.Send, a.txCq);
    r, v' := TryCloseCq(w, s, v', Recv, a.rxCq);
    failed := e < 0 || t < 0 || r < 0;
  }

  method CleanOps(w: World, s: Parts, ghost v: Alive) returns (failed: bool, ghost v': Alive)
    requires w.Valid() && Session(w.g, s, v) && (v.tx.op <==> s.tx.op != null) && (v.rx.op <==> s.rx.op != null)
    modifies w`g
    ensures w.Valid() && w.objs == old(w.objs) && w.cm == old(w.cm)
    ensures v' == OpsLeft(v) && failed == OpsFailed(v) && Session(w.g, s, v')
    ensures w.g.log == old(w.g.log)
  {
    hide World.Valid, Session;
    var t, r;
    t, v' := TryFreeOp(w, s, v, Direction.Send);
    r, v' := TryFreeOp(w, s, v', Recv);
    failed := t < 0 || r < 0;
  }

  lemma MrResult(v: Alive, dir: Direction, fi: int)
    requires dir == Send || dir == Recv
    ensures var v' := AfterMr(v, dir, fi);
      MrLive(v', dir) == (MrCode(v, dir, fi) != 0) && MrLive(v', Other(dir)) == MrLive(v, Other(dir))
  {
  }

  method CleanMrs(w: World, s: Parts, ghost v: Alive, txMr: int, rxMr: int)
    returns (failed: bool, txFreed: bool, rxFreed: bool, ghost v': Alive)
    requires w.Valid() && Session(w.g, s, v) && (v.tx.mr <==> s.tx.mr != null) && (v.rx.mr <==> s.rx.mr != null)
    modifies w`g, w.objs
    ensures w.Valid() && w.objs == old(w.objs) && w.cm == old(w.cm)
    ensures v' == MrsLeft(v, txMr, rxMr) && failed == MrsFailed(v, txMr, rxMr) && Session(w.g, s, v')
    ensures txFreed == !v'.tx.mr && rxFreed == !v'.rx.mr
    ensures w.g.log == old(w.g.log)
  {
    hide World.Valid, Session, AfterMr, MrCode;
    MrResult(v, Direction.Send, txMr);
    MrResult(AfterMr(v, Direction.Send, txMr), Recv, rxMr);
    var t, r;
    t, txFreed, v' := TryCloseMr(w, s, v, Direction.Send, txMr);
    r, rxFreed, v' := TryCloseMr(w, s, v', Recv, rxMr);
    failed := t != 0 || r != 0;
  }

  /** Each of the last closes leaves the flags of the later ones alone. */
  lemma LaterKept(v: Alive, a: Lower)
    ensures var l := AfterListener(v, a.listener); var q := AfterEq(l, a.eq); var d := AfterDomain(q, a.domain);
      l.low.eq == v.low.eq && q.low.domain == v.low.domain && d.low.fabric == v.low.fabric
  {
  }

  method CleanLower(w: World, s: Parts, ghost v: Alive, a: Lower) returns (failed: bool, ghost v': Alive)
    requires w.Valid() && Session(w.g, s, v)
      && v.low == Base(s.listener != null, s.eq != null, s.domain != null, s.fabric != null)
    modifies w`g, w.objs
    ensures w.Valid() && w.objs == old(w.objs) && w.cm == old(w.cm)
    ensures v' == LowerLeft(v, a) && failed == LowerFailed(v, a) && Session(w.g, s, v')
    ensures w.g.log == old(w.g.log)
  {
    hide World.Valid, Session, ListenerCode, EqCode, DomainCode, FabricCode, AfterListener, AfterEq, AfterDomain,
      AfterFabric;
    LaterKept(v, a);
    var l, q, d, f;
    l, v' := TryCloseListener(w, s, v, a.listener);
    q, v' := TryCloseEq(w, s, v', a.eq);
    d, v' := TryCloseDomain(w, s, v', a.domain);
    f, v' := TryCloseFabric(w, s, v', a.fabric);
    failed := l < 0 || q < 0 || d < 0 || f < 0;
  }

  /** There is a request that was not accepted, its handle is unspent, and a listener can reject it. */
  predicate Answerable(g: Graph, s: Parts, request: Info?, accepted: bool)
    reads request
  {
    request != null && !accepted && s.listener != null && s.listener in g.listeners && g.listeners[s.listener]
      && request.handle
  }

  method RejectPending(w: World, s: Parts, request: Info?, accepted: bool, fi: int)
    requires w.Valid() && LiveListener(w.g, s.listener) && request !in w.objs
    modifies w`cm, request
    ensures w.Valid()
      && w.cm == if old(Answerable(w.g, s, request, accepted)) then old(w.cm) + [Rejected(request)] else old(w.cm)
  {
    hide World.Valid;
    if request != null && !accepted && s.listener != null {
      var ret := w.Reject(s.listener, request, fi);
    }
  }

  ghost predicate CleanupFailed(v: Alive, a: CleanAnswers) {
    var u := UpperLeft(v, a.upper);
    UpperFailed(v, a.upper) || OpsFailed(u) || MrsFailed(OpsLeft(u), a.txMr, a.rxMr)
      || LowerFailed(MiddleLeft(u, a), a.lower)
  }

  /** The cleanup reports a failure exactly when something is left. */
  lemma FailureMeansLeftover(v: Alive, a: CleanAnswers)
    requires Sensible(v) && Negative(a)
    ensures CleanupFailed(v, a) <==> AnythingLeft(Survivors(v, a))
  {
    hide UpperLeft, OpsLeft, MrsLeft, LowerLeft, UpperFailed, OpsFailed, MrsFailed, LowerFailed;
    var u := UpperLeft(v, a.upper);
    UpperFlag(v, a.upper);
    MiddleFlag(u, a.txMr, a.rxMr);
    LowerFlag(MiddleLeft(u, a), a.lower);
    SurvivorsSides(v, a);
  }

  /** The later steps leave endpoint, queues and regions as the earlier ones left them. */
  lemma SurvivorsSides(v: Alive, a: CleanAnswers)
    requires Sensible(v)
    ensures var u := UpperLeft(v, a.upper); var m, x := MiddleLeft(u, a), Survivors(v, a);
      && x.ep == u.ep && x.tx.cq == u.tx.cq && x.rx.cq == u.rx.cq
      && x.tx == m.tx && x.rx == m.rx && x.low == LowerLeft(m, a.lower).low
  {
    hide UpperLeft, MiddleLeft, LowerLeft;
    UpperExact(v, a);
    MiddleExact(UpperLeft(v, a.upper), a);
    LowerExact(MiddleLeft(UpperLeft(v, a.upper), a), a.lower);
  }

  lemma OpsKeep(v: Alive)
    ensures var o := OpsLeft(v); o.tx.mr == v.tx.mr && o.rx.mr == v.rx.mr
  {
  }

  /** What the steps still have to close is what the session started with. */
  lemma Untouched(v: Alive, a: CleanAnswers)
    requires Sensible(v)
    ensures var u := UpperLeft(v, a.upper); var o := OpsLeft(u); var m := MiddleLeft(u, a);
      && u.tx.op == v.tx.op && u.rx.op == v.rx.op && o.tx.mr == v.tx.mr && o.rx.mr == v.rx.mr && m.low == v.low
  {
    hide UpperLeft, OpsLeft, MiddleLeft;
    UpperExact(v, a);
    OpsKeep(UpperLeft(v, a.upper));
    MiddleExact(UpperLeft(v, a.upper), a);
  }

  /** The provider calls of a cleanup, in order: a request that is still open is rejected first, by a listener that
      listens;
      an accepted one never is; then a ready endpoint tells its peer and is closed. */
  lemma CleanupCalls(g: Graph, cm: seq<CmCall>, s: Parts, request: Info?, accepted: bool)
    ensures var asked := Answerable(g, s, request, accepted);
      var base := if asked then cm + [Rejected(request)] else cm;
      && (asked <==>
           request != null && request.handle && !accepted && s.listener != null && s.listener in g.listeners
             && g.listeners[s.listener])
      && (s.ep == null ==> Closing(g, base, s.ep) == base)
      && (s.ep != null && s.ep in g.eps ==>
           Closing(g, base, s.ep) == base + if g.eps[s.ep].ready then [PeerTold(s.ep), EpClosed(s.ep)]
             else [EpClosed(s.ep)])
  {
  }

  lemma ListenerKnown(g: Graph, s: Parts, v: Alive)
    requires Session(g, s, v) && (v.low.listener <==> s.listener != null)
    ensures LiveListener(g, s.listener)
  {
  }

  /** The pending request, endpoint, queues. */
  method CleanFirst(w: World, s: Parts, request: Info?, accepted: bool, ghost v: Alive, a: CleanAnswers)
    returns (failed: bool, ghost v': Alive)
    requires w.Valid() && Session(w.g, s, v) && LiveListener(w.g, s.listener) && request !in w.objs
    requires (v.ep <==> s.ep != null) && (v.tx.cq <==> s.tx.cq != null) && (v.rx.cq <==> s.rx.cq != null)
    modifies w`g, w`cm, w.objs, request
    ensures w.Valid() && w.objs == old(w.objs)
    ensures v' == UpperLeft(v, a.upper) && failed == UpperFailed(v, a.upper) && Session(w.g, s, v')
    ensures w.cm == Closing(old(w.g),
      if old(Answerable(w.g, s, request, accepted)) then old(w.cm) + [Rejected(request)] else old(w.cm), s.ep)
    ensures !v.tx.fly && !v.rx.fly ==> w.g.log == old(w.g.log)
  {
    hide World.Valid, Session, Closing, UpperLeft, UpperFailed;
    RejectPending(w, s, request, accepted, a.reject);
    failed, v' := CleanUpper(w, s, v, a.upper);
  }

  /** Operations, regions, listener, event queue, domain, fabric. */
  method CleanRest(w: World, s: Parts, ghost v: Alive, a: CleanAnswers)
    returns (failed: bool, txFreed: bool, rxFreed: bool, ghost v': Alive)
    requires w.Valid() && Session(w.g, s, v) && (v.tx.op <==> s.tx.op != null) && (v.rx.op <==> s.rx.op != null)
    requires var o, m := OpsLeft(v), MiddleLeft(v, a);
      && (o.tx.mr <==> s.tx.mr != null) && (o.rx.mr <==> s.rx.mr != null)
      && m.low == Base(s.listener != null, s.eq != null, s.domain != null, s.fabric != null)
    modifies w`g, w.objs
    ensures w.Valid() && w.objs == old(w.objs) && w.cm == old(w.cm)
    ensures v' == LowerLeft(MiddleLeft(v, a), a.lower) && Session(w.g, s, v')
    ensures failed == (OpsFailed(v) || MrsFailed(OpsLeft(v), a.txMr, a.rxMr) || LowerFailed(MiddleLeft(v, a), a.lower))
    ensures txFreed == !MiddleLeft(v, a).tx.mr && rxFreed == !MiddleLeft(v, a).rx.mr
    ensures w.g.log == old(w.g.log)
  {
    hide World.Valid, Session, OpsLeft, MrsLeft, LowerLeft, OpsFailed, MrsFailed, LowerFailed;
    var o, m, l;
    o, v' := CleanOps(w, s, v);
    m, txFreed, rxFreed, v' := CleanMrs(w, s, v', a.txMr, a.rxMr);
    l, v' := CleanLower(w, s, v', a.lower);
    failed := o || m || l;
  }

  /** Close everything anyway.  Whatever the provider refuses, exactly the survivors stay live, a buffer is freed
      exactly when its region is gone, and the result tells whether anything is left.  A pending request is
      rejected before its endpoint is closed. */
  method Cleanup(w: World, s: Parts, request: Info?, accepted: bool, ghost txFly: bool, ghost rxFly: bool,
                 a: CleanAnswers)
    returns (status: int, txFreed: bool, rxFreed: bool)
    requires w.Valid() && Session(w.g, s, Start(s, txFly, rxFly)) && Sensible(Start(s, txFly, rxFly))
      && request !in w.objs
    modifies w`g, w`cm, w.objs, request
    ensures var x := Survivors(Start(s, txFly, rxFly), a);
      && w.Valid() && Session(w.g, s, x) && txFreed == !x.tx.mr && rxFreed == !x.rx.mr
    ensures status == if CleanupFailed(Start(s, txFly, rxFly), a) then -1 else 0
    ensures w.cm == Closing(old(w.g),
      if old(Answerable(w.g, s, request, accepted)) then old(w.cm) + [Rejected(request)] else old(w.cm), s.ep)
    ensures !txFly && !rxFly ==> w.g.log == old(w.g.log)
  {
    hide World.Valid, Session, Closing, UpperLeft, OpsLeft, MiddleLeft, LowerLeft, UpperFailed, OpsFailed, MrsFailed,
      LowerFailed;
    ghost var v := Start(s, txFly, rxFly);
    ListenerKnown(w.g, s, v);
    Untouched(v, a);
    SurvivorsSides(v, a);
    var first, rest;
    first, v := CleanFirst(w, s, request, accepted, v, a);
    rest, txFreed, rxFreed, v := CleanRest(w, s, v, a);
    status := if first || rest then -1 else 0;
  }
}
