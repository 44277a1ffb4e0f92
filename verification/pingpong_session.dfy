/** The C example's session while it is set up and used: what opens, posts and polls do to a graph
    that holds the session's handles and nothing else. */
module PingpongSession {
  import opened Handles
  import opened ResourceGraph
  import opened ShimSpec
  import opened GraphLaws
  import opened Shim
  import opened Ownership
  import opened Pingpong
  import opened Transport

  /** Everything the session has is live, and nothing else. */
  function Now(g: Graph, s: Parts): Alive { Start(s, Flies(g, s.tx.op), Flies(g, s.rx.op)) }

  ghost predicate Running(g: Graph, s: Parts) { Session(g, s, Now(g, s)) }

  /** The handles of a running session may be passed to the shim. */
  lemma RunningLive(g: Graph, s: Parts)
    requires Inv(g) && Running(g, s)
    ensures LiveFabric(g, s.fabric) && LiveDomain(g, s.domain) && LiveEq(g, s.eq) && LiveListener(g, s.listener)
      && LiveEp(g, s.ep)
    ensures LaneLive(g, s.tx) && LaneLive(g, s.rx) && Sensible(Now(g, s))
    ensures s.ep != null ==> s.ep.tx in g.lists && s.ep.rx in g.lists
  {
    hide Staged, Borrowed, Logged;
  }

  // ------------------------------------------------------------------ the log

  /** The directions and lengths of the submissions so far. */
  function Transcript(log: seq<Post>): seq<(Direction, U64)> {
    seq(|log|, i requires 0 <= i < |log| => (log[i].dir, log[i].len))
  }

  /** No submission was discarded or reported with an error. */
  predicate Fine(log: seq<Post>) {
    forall t | 0 <= t < |log| :: log[t].fate.Pending? || (log[t].fate.Reported? && log[t].fate.done.err == 0)
  }

  /** Every submission was reported, without an error. */
  predicate AllCompleted(log: seq<Post>) {
    forall t | 0 <= t < |log| :: log[t].fate.Reported? && log[t].fate.done.err == 0
  }

  /** With nothing in flight a fine log is one of successful completions. */
  lemma AllReported(g: Graph, s: Parts)
    requires Inv(g) && Running(g, s) && !Flies(g, s.tx.op) && !Flies(g, s.rx.op) && Fine(g.log)
    ensures AllCompleted(g.log)
  {
    hide Closed, Staged, Listed, Borrowed;
    forall t | 0 <= t < |g.log| ensures !g.log[t].fate.Pending? {
      var o := g.log[t].op;
      assert g.log[t].fate.Pending? ==> Flies(g, o);
    }
  }

  // ------------------------------------------------------------- posts and polls

  lemma PostLanes(g: Graph, s: Parts, dir: Direction, c: Cq, m: Mr, addr: U64, len: U64)
    requires Listed(g) && Running(g, s) && (dir == Send || dir == Recv) && LaneAt(s, dir).op != null
      && LaneAt(s, dir).op in g.ops
    requires c == LaneAt(s, dir).cq && c in g.lists && !Flies(g, LaneAt(s, dir).op)
    ensures var o := LaneAt(s, dir).op; var g' := Submit(g, c, o, m, addr, len, dir);
      && Running(g', s) && Flies(g', o) && Flies(g', LaneAt(s, Other(dir)).op) == Flies(g, LaneAt(s, Other(dir)).op)
  {
    hide TheFabric, TheDomain, TheEq, TheListener, TheEndpoint, TheMrs;
  }

  /** A post either changes nothing or puts the lane's own operation in flight. */
  lemma RunPost(g: Graph, s: Parts, dir: Direction, addr: U64, len: U64, fi: int)
    requires Inv(g) && Running(g, s) && (dir == Send || dir == Recv)
    ensures LiveEp(g, s.ep) && LaneLive(g, LaneAt(s, dir))
      && (s.ep != null ==> s.ep.tx in g.lists && s.ep.rx in g.lists)
    ensures var lane := LaneAt(s, dir);
      var x := PostMessage(g, s.ep, lane.op, lane.mr, addr, len, dir, fi);
      && Running(x.g, s)
      && (x.ret != 0 ==> x.g == g)
      && (Flies(g, lane.op) ==> x.ret == -EINVAL || x.ret == -EBUSY)
      && (x.ret == 0 ==>
            && Flies(x.g, lane.op) && Flies(x.g, LaneAt(s, Other(dir)).op) == Flies(g, LaneAt(s, Other(dir)).op)
            && lane.op != null && lane.cq != null && x.g.log == g.log + [Post(lane.op, lane.cq, dir, len, Pending)])
  {
    RunningLive(g, s);
    hide Closed, Staged, Listed, Borrowed, Logged, Whole, InLane, Running;
    var lane := LaneAt(s, dir);
    var x := PostMessage(g, s.ep, lane.op, lane.mr, addr, len, dir, fi);
    if x.ret == 0 {
      RunWired(g, s);
      PostLanes(g, s, dir, lane.cq, lane.mr, addr, len);
    }
  }

  lemma RunWired(g: Graph, s: Parts)
    requires Running(g, s)
    ensures Wired(s)
  {
  }

  /** An operation on the list of a queue that still reports is the lane's own, in its direction. */
  lemma RunFlight(g: Graph, s: Parts, dir: Direction, o: Op)
    requires Inv(g) && Running(g, s) && (dir == Send || dir == Recv) && LaneAt(s, dir).cq != null
      && LaneAt(s, dir).cq in g.lists
    requires g.stages[LaneAt(s, dir).cq] != Retired && o in g.lists[LaneAt(s, dir).cq]
    ensures o == LaneAt(s, dir).op && Flies(g, o) && g.ops[o].dir == dir && TicketOk(g, o)
  {
    hide Closed, TheFabric, TheDomain, TheEq, TheListener, TheMrs;
    assert BorrowOk(g, g.ops[o]) && g.ops[o].flight.cq == LaneAt(s, dir).cq;
  }

  lemma RunSettle(g: Graph, s: Parts, dir: Direction, done: Completion)
    requires Listed(g) && Running(g, s) && (dir == Send || dir == Recv) && LaneAt(s, dir).cq != null
      && LaneAt(s, dir).cq in g.lists
    requires var o := LaneAt(s, dir).op; o != null && Flies(g, o) && TicketOk(g, o)
    ensures var o, c := LaneAt(s, dir).op, LaneAt(s, dir).cq; var g' := Settle(g, c, o, Reported(c, done));
      && Running(g', s) && !Flies(g', o) && Flies(g', LaneAt(s, Other(dir)).op) == Flies(g, LaneAt(s, Other(dir)).op)
      && Transcript(g'.log) == Transcript(g.log) && (Fine(g.log) && done.err == 0 ==> Fine(g'.log))
  {
    hide Listed, TheFabric, TheDomain, TheEq, TheListener, TheEndpoint, TheMrs;
  }

  /** What one look at a lane's queue may do. */
  ghost predicate Looked(g: Graph, s: Parts, dir: Direction, x: PollOutcome) {
    && Running(x.g, s) && Transcript(x.g.log) == Transcript(g.log) && x.ret <= 1
    && (x.ret != 1 ==> x.g == g)
    && (x.ret == 1 ==>
          && LaneAt(s, dir).op != null && Flies(g, LaneAt(s, dir).op) && !Flies(x.g, LaneAt(s, dir).op)
          && Flies(x.g, LaneAt(s, Other(dir)).op) == Flies(g, LaneAt(s, Other(dir)).op)
          && x.out.opId == LaneAt(s, dir).op.id && x.out.flags == dir
          && (Fine(g.log) && x.out.err == 0 ==> Fine(x.g.log)))
  }

  lemma RunMatch(g: Graph, s: Parts, dir: Direction, context: Op?, len: U64, err: int, provErr: int)
    requires Inv(g) && Running(g, s) && (dir == Send || dir == Recv) && LaneAt(s, dir).cq != null
      && LaneAt(s, dir).cq in g.lists
    requires g.stages[LaneAt(s, dir).cq] != Retired
    ensures Looked(g, s, dir, Match(g, LaneAt(s, dir).cq, context, len, err, provErr))
  {
    hide Closed, Staged, Listed, Borrowed, Logged, Running, Settle, Transcript, Fine;
    var c := LaneAt(s, dir).cq;
    if context != null && context in g.lists[c] {
      RunFlight(g, s, dir, context);
      RunSettle(g, s, dir, Report(context.id, g.ops[context], len, err, provErr));
    }
  }

  /** Whatever the provider answers, a reported completion is the lane's own operation. */
  lemma RunPoll(g: Graph, s: Parts, dir: Direction, read: CqRead, error: CqReadErr)
    requires Inv(g) && Running(g, s) && (dir == Send || dir == Recv)
    ensures LiveCq(g, LaneAt(s, dir).cq) && Looked(g, s, dir, CqPoll(g, LaneAt(s, dir).cq, read, error))
  {
    RunningLive(g, s);
    hide Closed, Staged, Listed, Borrowed, Logged, Running, Match, Transcript, Fine;
    if LaneAt(s, dir).cq != null && g.stages[LaneAt(s, dir).cq] != Retired {
      RunMatch(g, s, dir, error.context, 0, error.err, error.provErr);
      RunMatch(g, s, dir, read.context, read.len, 0, 0);
    }
  }

  // -------------------------------------------------------------------- opens

  const NO_PARTS := Parts(null, null, null, null, null, Lane(null, null, null), Lane(null, null, null))

  lemma RunEmpty()
    ensures Running(EMPTY, NO_PARTS)
  {
  }

  lemma RunFabric(g: Graph, s: Parts, f: Fabric)
    requires Running(g, s) && s.fabric == null
    ensures Running(AddFabric(g, f), s.(fabric := f))
  {
    hide TheDomain, TheEq, TheListener, TheEndpoint, TheCqs, TheOps, TheMrs, InLane;
  }

  lemma RunDomain(g: Graph, s: Parts, d: Domain)
    requires Running(g, s) && s.domain == null
    ensures Running(AddDomain(g, d), s.(domain := d))
  {
    hide TheFabric, TheEq, TheListener, TheEndpoint, TheCqs, TheOps, TheMrs, InLane;
  }

  lemma RunEq(g: Graph, s: Parts, q: Eq)
    requires Running(g, s) && s.eq == null
    ensures Running(AddEq(g, q), s.(eq := q))
  {
    hide TheFabric, TheDomain, TheListener, TheEndpoint, TheCqs, TheOps, TheMrs, InLane;
  }

  function PutLane(s: Parts, dir: Direction, lane: Lane): Parts {
    if dir == Recv then s.(rx := lane) else s.(tx := lane)
  }

  lemma RunCq(g: Graph, s: Parts, dir: Direction, c: Cq)
    requires Listed(g) && Running(g, s) && LaneAt(s, dir).cq == null && s.ep == null && c !in g.stages
    ensures Running(AddCq(g, c), PutLane(s, dir, LaneAt(s, dir).(cq := c)))
  {
    hide TheFabric, TheDomain, TheEq, TheListener, TheEndpoint, TheOps, TheMrs;
  }

  lemma RunMr(g: Graph, s: Parts, dir: Direction, m: Mr)
    requires Running(g, s) && (dir == Send || dir == Recv) && LaneAt(s, dir).mr == null && m !in g.mrs
    requires m.access == if dir == Recv then ACCESS_RECV else ACCESS_SEND
    ensures Running(AddMr(g, m), PutLane(s, dir, LaneAt(s, dir).(mr := m)))
  {
    hide TheFabric, TheDomain, TheEq, TheListener, TheEndpoint, TheCqs, TheOps;
  }

  lemma OpJoins(xs: set<Op>, a: Op?, b: Op?, o: Op)
    requires TheOps(xs, a, b, a != null, b != null) && o !in xs
    ensures a == null ==> TheOps(xs + {o}, o, b, true, b != null) && o != b
    ensures b == null ==> TheOps(xs + {o}, a, o, a != null, true) && o != a
  {
  }

  lemma OpBeside(ops: map<Op, OpRec>, o: Op, lane: Lane, fly: bool)
    requires InLane(ops, lane, fly) && o !in ops
    ensures var ops' := ops[o := OpRec(Unset, 0, Idle)];
      && (lane.op != o ==> InLane(ops', lane, fly)) && (lane.op == null ==> InLane(ops', lane.(op := o), false))
  {
  }

  lemma OpGrounded(g: Graph, o: Op, p: Op?)
    ensures Flies(AddOp(g, o), p) == (p != o && Flies(g, p)) && !Flies(g, null)
  {
  }

  lemma OpWhole(g: Graph, s: Parts, v: Alive, dir: Direction, o: Op)
    requires Session(g, s, v) && (dir == Send || dir == Recv) && LaneAt(s, dir).op == null && o !in g.ops
    requires v.tx.op == (s.tx.op != null) && v.rx.op == (s.rx.op != null)
    ensures var s' := PutLane(s, dir, LaneAt(s, dir).(op := o));
      Session(AddOp(g, o), s', if dir == Recv then v.(rx := v.rx.(op := true)) else v.(tx := v.tx.(op := true)))
  {
    OpJoins(g.ops.Keys, s.tx.op, s.rx.op, o);
    OpBeside(g.ops, o, s.tx, v.tx.fly);
    OpBeside(g.ops, o, s.rx, v.rx.fly);
    assert v.tx.fly ==> s.tx.op != null;
    assert v.rx.fly ==> s.rx.op != null;
    hide TheFabric, TheDomain, TheEq, TheListener, TheEndpoint, TheOps, TheCqs, TheMrs, InLane;
    assert AddOp(g, o).ops.Keys == g.ops.Keys + {o};
  }

  lemma StartWithOp(s: Parts, p: bool, q: bool, dir: Direction, o: Op)
    ensures var v, v' := Start(s, p, q), Start(PutLane(s, dir, LaneAt(s, dir).(op := o)), p, q);
      v' == if dir == Recv then v.(rx := v.rx.(op := true)) else v.(tx := v.tx.(op := true))
  {
  }

  lemma RunOp(g: Graph, s: Parts, dir: Direction, o: Op)
    requires Running(g, s) && (dir == Send || dir == Recv) && LaneAt(s, dir).op == null && o !in g.ops
    ensures var g', s' := AddOp(g, o), PutLane(s, dir, LaneAt(s, dir).(op := o));
      Running(g', s') && Flies(g', s'.tx.op) == Flies(g, s.tx.op) && Flies(g', s'.rx.op) == Flies(g, s.rx.op)
  {
    OpsKnown(g, s);
    OpWhole(g, s, Now(g, s), dir, o);
    hide Session, Flies, Start;
    StartWithOp(s, Flies(g, s.tx.op), Flies(g, s.rx.op), dir, o);
    OpGrounded(g, o, s.tx.op);
    OpGrounded(g, o, s.rx.op);
    OpGrounded(g, o, o);
  }

  lemma OpsKnown(g: Graph, s: Parts)
    requires Running(g, s)
    ensures LiveOp(g, s.tx.op) && LiveOp(g, s.rx.op)
  {
  }

  lemma ListenerJoins(g: Graph, l: Listener, fi: ListenerAnswers)
    requires l !in g.listeners
    ensures var g' := ListenerSetup(g, l, fi);
      && g' == g.(listeners := g'.listeners)
      && g'.listeners.Keys == if Then(fi.bind, fi.listen) == 0 || fi.close != 0 then g.listeners.Keys + {l}
           else g.listeners.Keys
  {
    assert (g.listeners[l := false] - {l}).Keys == g.listeners.Keys;
  }

  lemma RunListener(g: Graph, s: Parts, l: Listener, fi: ListenerAnswers)
    requires Running(g, s) && s.listener == null && l !in g.listeners
    ensures Running(ListenerSetup(g, l, fi),
      s.(listener := if Then(fi.bind, fi.listen) == 0 || fi.close != 0 then l else null))
  {
    ListenerJoins(g, l, fi);
    hide TheFabric, TheDomain, TheEq, TheEndpoint, TheCqs, TheOps, TheMrs, InLane, ListenerSetup;
  }

  lemma EndpointJoins(g: Graph, g': Graph, s: Parts, e: Endpoint, txFly: bool, rxFly: bool)
    requires Session(g, s, Start(s, txFly, rxFly)) && s.ep == null && e.tx == s.tx.cq && e.rx == s.rx.cq
    requires g' == g.(stages := g'.stages, eps := g'.eps) && g'.stages.Keys == g.stages.Keys
    requires g'.eps.Keys == g.eps.Keys + {e}
    ensures Session(g', s.(ep := e), Start(s.(ep := e), txFly, rxFly))
  {
    hide TheFabric, TheDomain, TheEq, TheListener, TheCqs, TheOps, TheMrs, InLane;
  }

  lemma EndpointMissing(g: Graph, g': Graph, s: Parts, txFly: bool, rxFly: bool)
    requires Session(g, s, Start(s, txFly, rxFly)) && s.ep == null
    requires g' == g.(stages := g'.stages, eps := g'.eps) && g'.stages.Keys == g.stages.Keys
    requires g'.eps.Keys == g.eps.Keys
    ensures Session(g', s.(ep := null), Start(s.(ep := null), txFly, rxFly))
  {
    hide TheFabric, TheDomain, TheEq, TheListener, TheEndpoint, TheCqs, TheOps, TheMrs, InLane;
  }

  lemma RunEndpoint(g: Graph, s: Parts, e: Endpoint, request: bool, fi: EpAnswers)
    requires Inv(g) && Running(g, s) && s.ep == null && e !in g.eps && Openable(g, e) && e.tx == s.tx.cq
      && e.rx == s.rx.cq
    ensures e.tx in g.lists && e.rx in g.lists
    ensures var g' := EndpointSetup(g, e, request, fi);
      && Running(g', s.(ep := if EndpointReturned(request, fi) then e else null)) && g'.log == g.log && g'.ops == g.ops
      && (SetupCode(fi) == 0 ==> e in g'.eps && g'.eps[e] == EpRec(true, false))
  {
    hide Inv, EndpointSetup, EndpointReturned, SetupCode, Openable, Session, Flies;
    SetupParts(g, e, request, fi);
    var g' := EndpointSetup(g, e, request, fi);
    SameOps(g, g', s);
    if EndpointReturned(request, fi) {
      EndpointJoins(g, g', s, e, Flies(g, s.tx.op), Flies(g, s.rx.op));
    } else {
      EndpointMissing(g, g', s, Flies(g, s.tx.op), Flies(g, s.rx.op));
    }
  }

  // ------------------------------------------------------- shim calls of a session

  lemma LogGrows(log: seq<Post>, p: Post)
    requires p.fate.Pending?
    ensures Transcript(log + [p]) == Transcript(log) + [(p.dir, p.len)] && (Fine(log) ==> Fine(log + [p]))
  {
  }

  /** Nothing but the lane's own operation in flight is on its queue's list. */
  lemma RunList(g: Graph, s: Parts, dir: Direction)
    requires Inv(g) && Running(g, s) && (dir == Send || dir == Recv) && s.ep != null
    ensures var c, o := LaneAt(s, dir).cq, LaneAt(s, dir).op;
      && c != null && c in g.lists && c in g.stages && g.stages[c] != Retired
      && (forall x | x in g.lists[c] :: x == o && Flies(g, x))
      && (Flies(g, o) ==> o in g.lists[c] && g.ops[o].dir == dir)
  {
    hide TheFabric, TheDomain, TheEq, TheListener, TheMrs, Borrowed, Logged;
    RunWired(g, s);
    var c, o := LaneAt(s, dir).cq, LaneAt(s, dir).op;
    assert g.stages[c] == InUse(s.ep);
    forall x | x in g.lists[c]
      ensures x == o && Flies(g, x)
    {
      RunFlight(g, s, dir, x);
    }
    if Flies(g, o) {
      assert o in g.lists[c];
      RunFlight(g, s, dir, o);
    }
  }

  /** A look at one of the session's queues in the provider's own terms. */
  lemma SessionProbe(g: Graph, s: Parts, dir: Direction, p: CqProbe, err: int, code: int)
    requires Inv(g) && Running(g, s) && (dir == Send || dir == Recv) && s.ep != null
    ensures var o, x := LaneAt(s, dir).op, Polled(g, LaneAt(s, dir).cq, p);
      && (EntryQuiet(p.read, p.error) ==> x.ret == 0)
      && (EntryBroken(p.read, p.error, code) ==> x.ret == code)
      && (Flies(g, o) && EntryOf(p.read, p.error, o, err) ==>
           && x.ret == 1 && x.out.err == err
           && (dir == Recv && err == 0 ==> x.out.len == LookLength(p)))
      && (EntryRead(p.read, p.error) && (!Flies(g, o) || (forall e :: !EntryOf(p.read, p.error, o, e))) ==>
           x.ret == -EIO)
  {
    hide Closed, Staged, Borrowed, Logged, Running, Settle;
    RunList(g, s, dir);
    assert p.read.ret > 0 ==> EntryOf(p.read, p.error, p.read.context, 0);
    assert p.read.ret == -EAVAIL && p.error.ret > 0 ==> EntryOf(p.read, p.error, p.error.context, p.error.err);
  }

  /** What one submission of the session does, and its code. */
  ghost function Posting(g: Graph, s: Parts, dir: Direction, addr: U64, len: U64, fi: int): Outcome {
    if LiveEp(g, s.ep) && LiveOp(g, LaneAt(s, dir).op) && (s.ep != null ==> s.ep.tx in g.lists && s.ep.rx in g.lists)
    then PostMessage(g, s.ep, LaneAt(s, dir).op, LaneAt(s, dir).mr, addr, len, dir, fi) else Outcome(g, -EINVAL)
  }

  /** What one look at a queue does and says. */
  ghost function Polled(g: Graph, c: Cq?, probe: CqProbe): PollOutcome {
    if LiveCq(g, c) && Listed(g) then CqPoll(g, c, probe.read, probe.error) else PollOutcome(g, -EINVAL, Blank)
  }

  /** One submission, whatever the session has so far. */
  method PostNow(w: World, s: Parts, dir: Direction, addr: U64, len: U64, fi: int) returns (ret: int)
    requires w.Valid() && Running(w.g, s) && (dir == Send || dir == Recv)
    modifies w`g, w.objs
    ensures w.Valid() && Running(w.g, s) && w.objs == old(w.objs) && w.cm == old(w.cm)
    ensures Outcome(w.g, ret) == Posting(old(w.g), s, dir, addr, len, fi)
    ensures ret != 0 ==> w.g == old(w.g)
    ensures old(Flies(w.g, LaneAt(s, dir).op)) ==> ret == -EINVAL || ret == -EBUSY
    ensures ret == 0 ==>
      && Flies(w.g, LaneAt(s, dir).op)
      && Flies(w.g, LaneAt(s, Other(dir)).op) == old(Flies(w.g, LaneAt(s, Other(dir)).op))
      && Transcript(w.g.log) == Transcript(old(w.g.log)) + [(dir, len)] && (Fine(old(w.g.log)) ==> Fine(w.g.log))
  {
    hide World.Valid, Inv, Running, Transcript, Fine, Flies, ShimSpec.PostMessage;
    w.Consistent();
    RunPost(w.g, s, dir, addr, len, fi);
    ghost var g0 := w.g;
    ret := w.PostMessage(s.ep, LaneAt(s, dir).op, LaneAt(s, dir).mr, len, addr, dir == Recv, fi);
    if ret == 0 { LogGrows(g0.log, Post(LaneAt(s, dir).op, LaneAt(s, dir).cq, dir, len, Pending)); }
  }

  /** One look at a completion queue. */
  method LookNow(w: World, s: Parts, dir: Direction, probe: CqProbe) returns (ret: int, out: Completion)
    requires w.Valid() && Running(w.g, s) && (dir == Send || dir == Recv)
    modifies w`g, w.objs
    ensures w.Valid() && w.objs == old(w.objs) && w.cm == old(w.cm)
    ensures PollOutcome(w.g, ret, out) == Polled(old(w.g), LaneAt(s, dir).cq, probe)
    ensures Looked(old(w.g), s, dir, PollOutcome(w.g, ret, out))
  {
    hide World.Valid, Inv, Running, Looked, ShimSpec.CqPoll;
    w.Consistent();
    RunPoll(w.g, s, dir, probe.read, probe.error);
    ret, out := w.CqPoll(LaneAt(s, dir).cq, probe.read, probe.error);
  }

  method AcceptOn(w: World, s: Parts, fi: int) returns (ret: int)
    requires w.Valid() && Running(w.g, s)
    modifies w`cm
    ensures w.Valid() && (s.ep != null ==> s.ep in w.g.eps)
    ensures ret == if s.ep == null || !w.g.eps[s.ep].ready || w.g.eps[s.ep].closing then -EINVAL else fi
  {
    hide World.Valid, Inv, Running;
    w.Consistent();
    RunningLive(w.g, s);
    ret := w.Accept(s.ep, fi);
  }

  /** The session has a listener that can reject requests. */
  predicate Listening(g: Graph, s: Parts) { s.listener != null && s.listener in g.listeners && g.listeners[s.listener] }

  /** A request nobody waits for. */
  method RejectNow(w: World, s: Parts, info: Info?, fi: int)
    requires w.Valid() && Running(w.g, s) && info !in w.objs
    modifies w`cm, info
    ensures w.Valid()
    ensures var asked := Listening(w.g, s) && info != null && old(info.handle);
      && w.cm == (if asked then old(w.cm) + [Rejected(info)] else old(w.cm))
      && (info != null ==> info.handle == (old(info.handle) && !asked))
  {
    hide World.Valid, Inv, Running;
    w.Consistent();
    RunningLive(w.g, s);
    if s.listener != null { var ret := w.Reject(s.listener, info, fi); }
  }

  const SIZE: U64 := 64

  // ------------------------------------------------------------------- set-up

  /** Running with no message in flight. */
  ghost predicate Resting(g: Graph, s: Parts) { Running(g, s) && !Flies(g, s.tx.op) && !Flies(g, s.rx.op) }

  lemma SameOps(g: Graph, g': Graph, s: Parts)
    requires g'.ops == g.ops
    ensures Flies(g', s.tx.op) == Flies(g, s.tx.op) && Flies(g', s.rx.op) == Flies(g, s.rx.op)
  {
  }

  /** An endpoint can be opened over the session's queues. */
  predicate Pairs(g: Graph, s: Parts) {
    && s.domain != null && s.eq != null && s.eq.fabric == s.domain.fabric
    && s.tx.cq != null && s.rx.cq != null && s.tx.cq != s.rx.cq && s.tx.cq.domain == s.domain
    && s.rx.cq.domain == s.domain
    && s.tx.cq in g.stages && s.rx.cq in g.stages && g.stages[s.tx.cq].Unused? && g.stages[s.rx.cq].Unused?
  }

  method FabricInto(w: World, s: Parts, info: Info?, a: Answer) returns (s': Parts, code: int)
    requires w.Valid() && Resting(w.g, s) && s.fabric == null
    modifies w`g, w`objs, w.objs
    ensures w.Valid() && fresh(w.objs - old(w.objs)) && old(w.objs) <= w.objs
    ensures Resting(w.g, s') && w.g.log == old(w.g).log && s' == s.(fabric := s'.fabric)
    ensures code == Opened(if info == null then -EINVAL else 0, a.alloc, a.fi) && (code == 0 <==> s'.fabric != null)
  {
    hide World.Valid, Inv, Running, Flies;
    w.Consistent();
    RunningLive(w.g, s);
    ghost var g0 := w.g;
    var f;
    code, f := w.FabricOpen(info, a.alloc, a.fi);
    s' := s.(fabric := f);
    if f != null {
      RunFabric(g0, s, f);
      SameOps(g0, w.g, s);
    }
  }

  method EqInto(w: World, s: Parts, a: Answer) returns (s': Parts, code: int)
    requires w.Valid() && Resting(w.g, s) && s.eq == null
    modifies w`g, w`objs, w.objs
    ensures w.Valid() && fresh(w.objs - old(w.objs)) && old(w.objs) <= w.objs
    ensures Resting(w.g, s') && w.g.log == old(w.g).log && s' == s.(eq := s'.eq)
    ensures code == Opened(if s.fabric == null then -EINVAL else 0, a.alloc, a.fi) && (code == 0 <==> s'.eq != null)
    ensures s'.eq != null ==> s'.eq.fabric == s.fabric
  {
    hide World.Valid, Inv, Running, Flies;
    w.Consistent();
    RunningLive(w.g, s);
    ghost var g0 := w.g;
    var q;
    code, q := w.EqOpen(s.fabric, a.alloc, a.fi);
    s' := s.(eq := q);
    if q != null {
      RunEq(g0, s, q);
      SameOps(g0, w.g, s);
    }
  }

  method ListenerInto(w: World, s: Parts, info: Info?, alloc: bool, fi: ListenerAnswers) returns (s': Parts, code: int)
    requires w.Valid() && Resting(w.g, s) && s.listener == null
    modifies w`g, w`objs, w.objs
    ensures w.Valid() && fresh(w.objs - old(w.objs)) && old(w.objs) <= w.objs
    ensures Resting(w.g, s') && w.g.log == old(w.g).log && s' == s.(listener := s'.listener)
    ensures code == Opened(ListenerGate(s.fabric, info, s.eq), alloc, Then(fi.pep, Then(fi.bind, fi.listen)))
  {
    hide World.Valid, Inv, Running, Flies;
    w.Consistent();
    RunningLive(w.g, s);
    ghost var g0 := w.g;
    var l;
    ghost var made;
    code, l, made := w.ListenerOpen(s.fabric, info, s.eq, alloc, fi);
    s' := s.(listener := l);
    if made != null {
      RunListener(g0, s, made, fi);
      ListenerJoins(g0, made, fi);
      SameOps(g0, w.g, s);
    }
  }

  method DomainInto(w: World, s: Parts, info: Info?, a: Answer) returns (s': Parts, code: int)
    requires w.Valid() && Resting(w.g, s) && s.domain == null
    modifies w`g, w`objs, w.objs
    ensures w.Valid() && fresh(w.objs - old(w.objs)) && old(w.objs) <= w.objs
    ensures Resting(w.g, s') && w.g.log == old(w.g).log && s' == s.(domain := s'.domain)
    ensures code == Opened(if s.fabric == null || info == null then -EINVAL else 0, a.alloc, a.fi)
    ensures (code == 0 <==> s'.domain != null) && (s'.domain != null ==> s'.domain.fabric == s.fabric)
  {
    hide World.Valid, Inv, Running, Flies;
    w.Consistent();
    RunningLive(w.g, s);
    ghost var g0 := w.g;
    var d;
    code, d := w.DomainOpen(s.fabric, info, a.alloc, a.fi);
    s' := s.(domain := d);
    if d != null {
      RunDomain(g0, s, d);
      SameOps(g0, w.g, s);
    }
  }

  method CqInto(w: World, s: Parts, dir: Direction, a: Answer) returns (s': Parts, code: int)
    requires w.Valid() && Resting(w.g, s) && s.ep == null && (dir == Send || dir == Recv) && LaneAt(s, dir).cq == null
    modifies w`g, w`objs, w.objs
    ensures w.Valid() && fresh(w.objs - old(w.objs)) && old(w.objs) <= w.objs
    ensures Resting(w.g, s') && w.g.log == old(w.g).log
      && s' == PutLane(s, dir, LaneAt(s, dir).(cq := LaneAt(s', dir).cq))
    ensures code == Opened(if s.domain == null then -EINVAL else 0, a.alloc, a.fi)
    ensures var c := LaneAt(s', dir).cq;
      if code == 0 then c != null && c.domain == s.domain && w.g == AddCq(old(w.g), c) && c !in old(w.g).stages
      else c == null && w.g == old(w.g)
  {
    hide World.Valid, Inv, Running, Flies;
    w.Consistent();
    RunningLive(w.g, s);
    ghost var g0 := w.g;
    var c;
    code, c := w.CqOpen(s.domain, QUEUE_CAPACITY, a.alloc, a.fi);
    s' := PutLane(s, dir, LaneAt(s, dir).(cq := c));
    if c != null {
      RunCq(g0, s, dir, c);
      SameOps(g0, w.g, s');
      SameOps(g0, w.g, s);
    }
  }

  method EndpointInto(w: World, s: Parts, info: Info?, a: EpAnswer) returns (s': Parts, code: int)
    requires w.Valid() && Resting(w.g, s) && s.ep == null
    modifies w`g, w`objs, w`cm, w.objs
    ensures w.Valid() && fresh(w.objs - old(w.objs)) && old(w.objs) <= w.objs
    ensures Resting(w.g, s') && w.g.log == old(w.g).log && s' == s.(ep := s'.ep)
    ensures Pairs(old(w.g), s) && info != null ==> code == EndpointCode(info.supported, a)
    ensures code == 0 ==> s'.ep != null && s'.ep in w.g.eps && w.g.eps[s'.ep] == EpRec(true, false)
  {
    hide World.Valid, Inv, Running, Flies, EndpointSetup;
    w.Consistent();
    RunningLive(w.g, s);
    ghost var g0 := w.g;
    var e;
    ghost var made;
    code, e, made := w.EndpointOpen(s.domain, info, s.eq, s.tx.cq, s.rx.cq, a.alloc, a.fi);
    s' := s.(ep := e);
    if made != null {
      RunEndpoint(g0, s, made, old(info.handle), a.fi);
      SameOps(g0, w.g, s);
    }
  }

  method MrInto(w: World, s: Parts, dir: Direction, base: U64, a: Answer) returns (s': Parts, code: int)
    requires w.Valid() && Resting(w.g, s) && (dir == Send || dir == Recv) && LaneAt(s, dir).mr == null
    modifies w`g, w`objs, w.objs
    ensures w.Valid() && fresh(w.objs - old(w.objs)) && old(w.objs) <= w.objs
    ensures Resting(w.g, s') && w.g.log == old(w.g).log
      && s' == PutLane(s, dir, LaneAt(s, dir).(mr := LaneAt(s', dir).mr))
    ensures code == Opened(if s.domain == null || base == 0 then -EINVAL else 0, a.alloc, a.fi)
    ensures (code == 0 <==> LaneAt(s', dir).mr != null) && w.g.eps == old(w.g).eps
  {
    hide World.Valid, Inv, Running, Flies;
    w.Consistent();
    RunningLive(w.g, s);
    ghost var g0 := w.g;
    var m;
    code, m := w.MrRegister(s.domain, base, SIZE, Access(dir), a.alloc, a.fi);
    s' := PutLane(s, dir, LaneAt(s, dir).(mr := m));
    if m != null {
      RunMr(g0, s, dir, m);
      SameOps(g0, w.g, s);
    }
  }

  method OpInto(w: World, s: Parts, dir: Direction, alloc: bool) returns (s': Parts, code: int)
    requires w.Valid() && Resting(w.g, s) && (dir == Send || dir == Recv) && LaneAt(s, dir).op == null
    modifies w`g, w`objs, w.objs
    ensures w.Valid() && fresh(w.objs - old(w.objs)) && old(w.objs) <= w.objs
    ensures Resting(w.g, s') && w.g.log == old(w.g).log
      && s' == PutLane(s, dir, LaneAt(s, dir).(op := LaneAt(s', dir).op))
    ensures LaneAt(s', dir).op != null ==> LaneAt(s', dir).op.id == if dir == Recv then RX_ID else TX_ID
    ensures code == Opened(0, alloc, 0) && (code == 0 <==> LaneAt(s', dir).op != null) && w.g.eps == old(w.g).eps
  {
    hide World.Valid, Inv, Running, Flies;
    w.Consistent();
    RunningLive(w.g, s);
    ghost var g0 := w.g;
    var o;
    code, o := w.OpCreate(if dir == Recv then RX_ID else TX_ID, alloc);
    s' := PutLane(s, dir, LaneAt(s, dir).(op := o));
    if o != null { RunOp(g0, s, dir, o); }
  }

  /** The provider's answers while the session is set up, in order; `calloc` is the allocation of the two buffers. */
  datatype FirstAnswers = FirstAnswers(fabric: Answer, eq: Answer, listenerAlloc: bool, listener: ListenerAnswers)
  datatype FrameAnswers = FrameAnswers(domain: Answer, txCq: Answer, rxCq: Answer, ep: EpAnswer)
  datatype SlotsAnswers = SlotsAnswers(calloc: bool, txMr: Answer, rxMr: Answer, txOp: bool, rxOp: bool)

  /** The environment and the provider agree. */
  predicate Granted(a: Answer) { a.alloc && a.fi == 0 }

  /** No call of the provider returns a positive code. */
  predicate NotPositive(a: Answer) { a.fi <= 0 }

  predicate FirstGranted(server: bool, a: FirstAnswers) {
    && Granted(a.fabric) && Granted(a.eq)
    && (server ==> a.listenerAlloc && a.listener.pep == 0 && a.listener.bind == 0 && a.listener.listen == 0)
  }

  predicate FirstNotPositive(a: FirstAnswers) {
    NotPositive(a.fabric) && NotPositive(a.eq) && a.listener.pep <= 0 && a.listener.bind <= 0 && a.listener.listen <= 0
  }

  predicate EndpointGranted(a: EpAnswer) {
    a.alloc && a.fi.endpoint == 0 && a.fi.bindEq == 0 && a.fi.bindTx == 0 && a.fi.bindRx == 0 && a.fi.enable == 0
  }

  predicate EndpointNotPositive(a: EpAnswer) {
    a.fi.endpoint <= 0 && a.fi.bindEq <= 0 && a.fi.bindTx <= 0 && a.fi.bindRx <= 0 && a.fi.enable <= 0
  }

  predicate FrameGranted(a: FrameAnswers) {
    Granted(a.domain) && Granted(a.txCq) && Granted(a.rxCq) && EndpointGranted(a.ep)
  }

  predicate FrameNotPositive(a: FrameAnswers) {
    NotPositive(a.domain) && NotPositive(a.txCq) && NotPositive(a.rxCq) && EndpointNotPositive(a.ep)
  }

  predicate SlotsGranted(a: SlotsAnswers) { a.calloc && Granted(a.txMr) && Granted(a.rxMr) && a.txOp && a.rxOp }
  predicate SlotsNotPositive(a: SlotsAnswers) { NotPositive(a.txMr) && NotPositive(a.rxMr) }

  /** What the later steps build on. */
  predicate Based(s: Parts) { s.fabric != null && s.eq != null && s.eq.fabric == s.fabric }

  /** The session has everything, and its endpoint takes messages. */
  predicate Furnished(g: Graph, s: Parts) {
    && s.tx.mr != null && s.rx.mr != null && s.tx.op != null && s.rx.op != null && EndpointUp(g, s)
  }

  predicate EndpointUp(g: Graph, s: Parts) {
    s.ep != null && s.ep in g.eps && g.eps[s.ep] == EpRec(true, false) && s.domain != null
  }

  /** Fabric, event queue and, for the server, the listener; `ok` unless a call returned a negative code. */
  method SetFirst(w: World, server: bool, info: Info, a: FirstAnswers) returns (s: Parts, ok: bool)
    requires w.Valid() && Resting(w.g, NO_PARTS)
    modifies w`g, w`objs, w.objs
    ensures w.Valid() && fresh(w.objs - old(w.objs)) && old(w.objs) <= w.objs
    ensures Resting(w.g, s) && w.g.log == old(w.g).log
      && s == NO_PARTS.(fabric := s.fabric, eq := s.eq, listener := s.listener)
    ensures FirstNotPositive(a) ==> ok == FirstGranted(server, a) && (ok ==> Based(s))
  {
    hide World.Valid, Resting;
    var code;
    s, code := FabricInto(w, NO_PARTS, info, a.fabric);
    if code < 0 { return s, false; }
    s, code := EqInto(w, s, a.eq);
    if code < 0 || !server { return s, code >= 0; }
    s, code := ListenerInto(w, s, info, a.listenerAlloc, a.listener);
    ok := code >= 0;
  }

  /** Domain, completion queues, endpoint. */
  method SetFrame(w: World, s: Parts, info: Info?, a: FrameAnswers) returns (s': Parts, ok: bool)
    requires w.Valid() && Resting(w.g, s) && s == NO_PARTS.(fabric := s.fabric, eq := s.eq, listener := s.listener)
    modifies w`g, w`objs, w`cm, w.objs
    ensures w.Valid() && fresh(w.objs - old(w.objs)) && old(w.objs) <= w.objs
    ensures Resting(w.g, s') && w.g.log == old(w.g).log
    ensures s'.tx == Lane(s'.tx.cq, null, null) && s'.rx == Lane(s'.rx.cq, null, null) && s'.eq == s.eq
    ensures FrameNotPositive(a) && Based(s) && info != null ==>
      ok == (info.supported && FrameGranted(a)) && (ok ==> EndpointUp(w.g, s'))
  {
    hide World.Valid, Resting, EndpointNotPositive, EndpointGranted, EndpointCode;
    var code;
    s', code := DomainInto(w, s, info, a.domain);
    if code < 0 { return s', false; }
    s', code := CqInto(w, s', Direction.Send, a.txCq);
    if code < 0 { return s', false; }
    s', code := CqInto(w, s', Recv, a.rxCq);
    if code < 0 { return s', false; }
    if info != null { EndpointCodes(info.supported, a.ep); }
    s', code := EndpointInto(w, s', info, a.ep);
    ok := code >= 0;
  }

  lemma EndpointCodes(supported: bool, a: EpAnswer)
    ensures EndpointNotPositive(a) ==>
      EndpointCode(supported, a) <= 0 && (EndpointCode(supported, a) == 0 <==> supported && EndpointGranted(a))
  {
  }

  predicate Named(s: Parts) { (s.tx.op != null ==> s.tx.op.id == TX_ID) && (s.rx.op != null ==> s.rx.op.id == RX_ID) }

  /** Buffers, regions, operations. */
  method SetSlots(w: World, s: Parts, txBase: U64, rxBase: U64, a: SlotsAnswers) returns (s': Parts, ok: bool)
    requires w.Valid() && Resting(w.g, s) && s.tx == Lane(s.tx.cq, null, null) && s.rx == Lane(s.rx.cq, null, null)
    modifies w`g, w`objs, w.objs
    ensures w.Valid() && fresh(w.objs - old(w.objs)) && old(w.objs) <= w.objs
    ensures Resting(w.g, s') && w.g.log == old(w.g).log && Named(s') && s'.eq == s.eq
    ensures SlotsNotPositive(a) && EndpointUp(old(w.g), s) && txBase != 0 && rxBase != 0 ==>
      ok == SlotsGranted(a) && (ok ==> Furnished(w.g, s'))
  {
    hide World.Valid, Resting;
    if !a.calloc { return s, false; }
    var code;
    s', code := MrInto(w, s, Direction.Send, txBase, a.txMr);
    if code < 0 { return s', false; }
    s', code := MrInto(w, s', Recv, rxBase, a.rxMr);
    if code < 0 { return s', false; }
    s', code := OpInto(w, s', Direction.Send, a.txOp);
    if code < 0 { return s', false; }
    s', code := OpInto(w, s', Recv, a.rxOp);
    ok := code >= 0;
  }

  /** All that follows once it is known which request, or which destination, is served. */
  method SetRest(w: World, s: Parts, info: Info?, txBase: U64, rxBase: U64, frame: FrameAnswers, slots: SlotsAnswers)
    returns (s': Parts, ok: bool)
    requires w.Valid() && Resting(w.g, s) && s == NO_PARTS.(fabric := s.fabric, eq := s.eq, listener := s.listener)
    requires txBase != 0 && rxBase != 0
    modifies w`g, w`objs, w`cm, w.objs
    ensures w.Valid() && fresh(w.objs - old(w.objs)) && old(w.objs) <= w.objs
    ensures Resting(w.g, s') && w.g.log == old(w.g).log && Named(s') && s'.eq == s.eq
    ensures FrameNotPositive(frame) && SlotsNotPositive(slots) && Based(s) && info != null ==>
      ok == (info.supported && FrameGranted(frame) && SlotsGranted(slots)) && (ok ==> Furnished(w.g, s'))
  {
    hide World.Valid, Resting, FrameGranted, SlotsGranted, FrameNotPositive, SlotsNotPositive, Based, Furnished,
      EndpointUp;
    s', ok := SetFrame(w, s, info, frame);
    if !ok { return; }
    s', ok := SetSlots(w, s', txBase, rxBase, slots);
  }
}
