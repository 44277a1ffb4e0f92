/** What every shim call does to the resource graph and which code it returns.

    `fi` and the records below are the provider's answers; nothing is assumed
    about them.  A nullable handle is either null or live. */
module ShimSpec {
  import opened Handles
  import opened ResourceGraph

  datatype Outcome = Outcome(g: Graph, ret: int)

  /** Answers of the provider calls inside `shim_endpoint_open`, in order. */
  datatype EpAnswers = EpAnswers(endpoint: int, bindEq: int, bindTx: int, bindRx: int, enable: int, close: int)

  /** Answers of the provider calls inside `shim_listener_open`, in order. */
  datatype ListenerAnswers = ListenerAnswers(pep: int, bind: int, listen: int, close: int)

  /** `fi_cq_read`: a count or an error, and for a count the completed context. */
  datatype CqRead = CqRead(ret: int, context: Op?, len: U64)

  /** `fi_cq_readerr`, likewise. */
  datatype CqReadErr = CqReadErr(ret: int, context: Op?, err: int, provErr: int)

  datatype PollOutcome = PollOutcome(g: Graph, ret: int, out: Completion)

  // ------------------------------------------------------------- liveness

  predicate LiveFabric(g: Graph, f: Fabric?) { f == null || f in g.fabrics }
  predicate LiveDomain(g: Graph, d: Domain?) { d == null || d in g.domains }
  predicate LiveEq(g: Graph, q: Eq?) { q == null || q in g.eqs }
  predicate LiveCq(g: Graph, c: Cq?) { c == null || (c in g.stages && c in g.lists) }
  predicate LiveListener(g: Graph, l: Listener?) { l == null || l in g.listeners }
  predicate LiveEp(g: Graph, e: Endpoint?) { e == null || e in g.eps }
  predicate LiveMr(g: Graph, m: Mr?) { m == null || m in g.mrs }
  predicate LiveOp(g: Graph, o: Op?) { o == null || o in g.ops }

  /** The code of a provider call that follows one which returned `code`. */
  function Then(code: int, next: int): int { if code != 0 then code else next }

  // ---------------------------------------------------------------- opens

  function Opened(gate: int, alloc: bool, fi: int): int {
    if gate != 0 then gate else if !alloc then -ENOMEM else fi
  }

  predicate Registrable(buf: U64, capacity: U64, access: bv32) {
    buf != 0 && capacity != 0 && access != 0 && access & !(ACCESS_SEND | ACCESS_RECV) == 0
  }

  function AddFabric(g: Graph, f: Fabric): Graph { g.(fabrics := g.fabrics + {f}) }
  function AddDomain(g: Graph, d: Domain): Graph { g.(domains := g.domains + {d}) }
  function AddEq(g: Graph, q: Eq): Graph { g.(eqs := g.eqs + {q}) }
  function AddCq(g: Graph, c: Cq): Graph { g.(stages := g.stages[c := Unused], lists := g.lists[c := []]) }
  function AddMr(g: Graph, m: Mr): Graph { g.(mrs := g.mrs + {m}) }
  function AddOp(g: Graph, o: Op): Graph { g.(ops := g.ops[o := OpRec(Unset, 0, Idle)]) }
  function AddListener(g: Graph, l: Listener): Graph { g.(listeners := g.listeners[l := false]) }
  function StartListener(g: Graph, l: Listener): Graph { g.(listeners := g.listeners[l := true]) }

  function ListenerGate(fabric: Fabric?, info: Info?, eq: Eq?): int {
    if fabric == null || info == null || eq == null || eq.fabric != fabric then -EINVAL else 0
  }

  /** The passive endpoint of `l` was created. */
  function ListenerSetup(g: Graph, l: Listener, fi: ListenerAnswers): Graph {
    var g1 := AddListener(g, l);
    if Then(fi.bind, fi.listen) == 0 then StartListener(g1, l) else CloseListener(g1, l, fi.close).g
  }

  function EndpointGate(g: Graph, domain: Domain?, info: Info?, eq: Eq?, tx: Cq?, rx: Cq?): int
    requires LiveCq(g, tx) && LiveCq(g, rx)
  {
    if domain == null || info == null || eq == null || tx == null || rx == null || tx == rx
       || tx.domain != domain || rx.domain != domain || eq.fabric != domain.fabric
       || !g.stages[tx].Unused? || !g.stages[rx].Unused? then -EINVAL
    else if !info.supported then -ENOSYS
    else 0
  }

  function SetupCode(fi: EpAnswers): int {
    Then(fi.bindEq, Then(fi.bindTx, Then(fi.bindRx, fi.enable)))
  }

  /** What becomes of an endpoint whose binds and enable returned `code`;
      `request` tells whether its info carries a request handle. */
  function Concluded(g: Graph, e: Endpoint, code: int, request: bool, close: int): Graph
    requires e in g.eps && e.tx in g.lists && e.rx in g.lists
  {
    if code == 0 then SetReady(g, e) else if request then g else CloseEp(g, e, close).g
  }

  /** The endpoint `e` was created. */
  function EndpointSetup(g: Graph, e: Endpoint, request: bool, fi: EpAnswers): Graph
    requires e.tx in g.lists && e.rx in g.lists
  {
    Concluded(AddEndpoint(g, e), e, SetupCode(fi), request, fi.close)
  }

  predicate EndpointReturned(request: bool, fi: EpAnswers) {
    SetupCode(fi) == 0 || request || fi.close != 0
  }

  // ---------------------------------------------------------------- posting

  function Target(e: Endpoint, dir: Direction): Cq { if dir == Recv then e.rx else e.tx }

  /** The tests before the provider is called. */
  function PostTest(g: Graph, e: Endpoint?, o: Op?, m: Mr?, addr: U64, len: U64, dir: Direction): int
    requires LiveEp(g, e) && LiveOp(g, o)
    requires e != null ==> e.tx in g.lists && e.rx in g.lists
  {
    if e == null || o == null || m == null || addr == 0
       || !g.eps[e].ready || g.eps[e].closing || m.domain != e.domain then -EINVAL
    else if g.ops[o].flight.Flying? then -EBUSY
    else if !Allows(m.access, dir) then -EACCES
    else if !Inside(m, addr, len) || len > e.maxMsg then -EINVAL
    else if |g.lists[Target(e, dir)]| >= Target(e, dir).capacity then -EAGAIN
    else 0
  }

  function PostMessage(g: Graph, e: Endpoint?, o: Op?, m: Mr?, addr: U64, len: U64, dir: Direction, fi: int): Outcome
    requires LiveEp(g, e) && LiveOp(g, o)
    requires e != null ==> e.tx in g.lists && e.rx in g.lists
  {
    var test := PostTest(g, e, o, m, addr, len, dir);
    if test != 0 then Outcome(g, test)
    else if fi != 0 then Outcome(g, fi)
    else Outcome(Submit(g, Target(e, dir), o, m, addr, len, dir), 0)
  }

  // ---------------------------------------------------------------- polling

  /** What a reported operation looks like; `len` and the error come from the provider. */
  function Report(id: nat, r: OpRec, len: U64, err: int, provErr: int): Completion {
    Completion(id, r.dir, if err != 0 then 0 else if r.dir == Send then r.len else len, err, provErr)
  }

  function Match(g: Graph, c: Cq, context: Op?, len: U64, err: int, provErr: int): PollOutcome
    requires c in g.lists && Listed(g)
  {
    if context == null || context !in g.lists[c] then
      PollOutcome(g, -EIO, Completion(0, Unset, len, err, provErr))
    else
      var done := Report(context.id, g.ops[context], len, err, provErr);
      PollOutcome(Settle(g, c, context, Reported(c, done)), 1, done)
  }

  function CqPoll(g: Graph, c: Cq?, read: CqRead, error: CqReadErr): PollOutcome
    requires LiveCq(g, c) && Listed(g)
  {
    if c == null then PollOutcome(g, -EINVAL, Blank)
    else if g.stages[c].Retired? then PollOutcome(g, -EOPBADSTATE, Blank)
    else if read.ret == -EAVAIL then
      if error.ret == -EAGAIN || error.ret == 0 then PollOutcome(g, 0, Blank)
      else if error.ret < 0 then PollOutcome(g, error.ret, Blank)
      else Match(g, c, error.context, 0, error.err, error.provErr)
    else if read.ret == -EAGAIN || read.ret == 0 then PollOutcome(g, 0, Blank)
    else if read.ret < 0 then PollOutcome(g, read.ret, Blank)
    else Match(g, c, read.context, read.len, 0, 0)
  }

  // ------------------------------------------------------------ event queues

  datatype CmKind = ConnReq | Connected | PeerShutdown | OtherCm

  /** `fi_eq_read`: a byte count or an error, and for a whole entry what it says. */
  datatype EqRead = EqRead(ret: int, kind: CmKind, source: object?, info: Info?)

  /** `fi_eq_readerr`, likewise. */
  datatype EqReadErr = EqReadErr(ret: int, source: object?, err: int, provErr: int)

  datatype EventKind = NoEvent | RequestEvent | ConnectedEvent | ShutdownEvent | ErrorEvent
  datatype ConnectEvent = ConnectEvent(kind: EventKind, source: object?, info: Info?, err: int, provErr: int)

  /** `freed` is the request information the shim itself released. */
  datatype EqOutcome = EqOutcome(ret: int, event: ConnectEvent, freed: Info?)

  /** The size of `struct fi_eq_cm_entry` without trailing data. */
  const CM_ENTRY_SIZE := 16

  function Quietly(ret: int): EqOutcome { EqOutcome(ret, ConnectEvent(NoEvent, null, null, 0, 0), null) }

  function EqPoll(eq: Eq?, alloc: bool, read: EqRead, error: EqReadErr): EqOutcome {
    if eq == null then Quietly(-EINVAL) else EventRead(alloc, read, error)
  }

  /** The same of an event queue that exists. */
  function EventRead(alloc: bool, read: EqRead, error: EqReadErr): EqOutcome {
    if !alloc then Quietly(-ENOMEM)
    else if read.ret == -EAVAIL then
      if error.ret == -EAGAIN || error.ret == 0 then Quietly(0)
      else if error.ret < 0 then Quietly(error.ret)
      else EqOutcome(1, ConnectEvent(ErrorEvent, error.source, null, error.err, error.provErr), null)
    else if read.ret == -EAGAIN || read.ret == 0 then Quietly(0)
    else if read.ret < 0 then Quietly(read.ret)
    else if read.ret < CM_ENTRY_SIZE then Quietly(-EIO)
    else
      var event := ConnectEvent(NoEvent, read.source, null, 0, 0);
      match read.kind
      case ConnReq =>
        if read.info == null then EqOutcome(-EIO, event, null)
        else EqOutcome(1, event.(kind := RequestEvent, info := read.info), null)
      case Connected => EqOutcome(1, event.(kind := ConnectedEvent), read.info)
      case PeerShutdown => EqOutcome(1, event.(kind := ShutdownEvent), read.info)
      case OtherCm => EqOutcome(-ENOSYS, event, read.info)
  }

  // ---------------------------------------------------------------- closing

  function RemoveEndpoint(g: Graph, e: Endpoint): Graph
    requires e.tx in g.lists && e.rx in g.lists
  {
    var g1 := RetireCq(g, e.tx);
    if e.rx in g1.lists then
      var g2 := RetireCq(g1, e.rx);
      g2.(eps := g2.eps - {e})
    else g1
  }

  function CloseEp(g: Graph, e: Endpoint?, fi: int): Outcome
    requires LiveEp(g, e) && (e != null ==> e.tx in g.lists && e.rx in g.lists)
  {
    if e == null then Outcome(g, 0)
    else if fi != 0 then Outcome(SetClosing(g, e), fi)
    else Outcome(RemoveEndpoint(SetClosing(g, e), e), 0)
  }

  function Shutdown(g: Graph, e: Endpoint?, fi: int): Outcome
    requires LiveEp(g, e)
  {
    if e == null || !g.eps[e].ready then Outcome(g, -EINVAL) else Outcome(SetClosing(g, e), fi)
  }

  function CloseListener(g: Graph, l: Listener?, fi: int): Outcome {
    if l == null then Outcome(g, 0)
    else if fi != 0 then Outcome(g, fi)
    else Outcome(g.(listeners := g.listeners - {l}), 0)
  }

  function CloseMr(g: Graph, m: Mr?, fi: int): Outcome {
    if m == null then Outcome(g, 0)
    else if BorrowersOf(g.ops, m) != {} then Outcome(g, -EBUSY)
    else if fi != 0 then Outcome(g, fi)
    else Outcome(g.(mrs := g.mrs - {m}), 0)
  }

  /** The queue gives up its list, the listed operations are discarded, the queue leaves. */
  function Drained(g: Graph, c: Cq): Graph
    requires c in g.lists
  {
    DiscardAll(g.(lists := g.lists - {c}), g.lists[c]).(stages := g.stages - {c})
  }

  function CloseCq(g: Graph, c: Cq?, fi: int): Outcome
    requires LiveCq(g, c)
  {
    if c == null then Outcome(g, 0)
    else if g.stages[c].InUse? then Outcome(g, -EBUSY)
    else if fi != 0 then Outcome(g, fi)
    else Outcome(Drained(g, c), 0)
  }

  function FreeOp(g: Graph, o: Op?): Outcome
    requires LiveOp(g, o)
  {
    if o == null then Outcome(g, 0)
    else if g.ops[o].flight.Flying? then Outcome(g, -EBUSY)
    else Outcome(g.(ops := g.ops - {o}), 0)
  }

  function CloseEq(g: Graph, q: Eq?, fi: int): Outcome {
    if q == null then Outcome(g, 0)
    else if ListenersOn(g.listeners.Keys, q) != {} || EpsOn(g.eps.Keys, q) != {} then Outcome(g, -EBUSY)
    else if fi != 0 then Outcome(g, fi)
    else Outcome(g.(eqs := g.eqs - {q}), 0)
  }

  function CloseDomain(g: Graph, d: Domain?, fi: int): Outcome {
    if d == null then Outcome(g, 0)
    else if CqsOf(g.stages.Keys, d) != {} || EpsOf(g.eps.Keys, d) != {} || MrsOf(g.mrs, d) != {} then Outcome(g, -EBUSY)
    else if fi != 0 then Outcome(g, fi)
    else Outcome(g.(domains := g.domains - {d}), 0)
  }

  function CloseFabric(g: Graph, f: Fabric?, fi: int): Outcome {
    if f == null then Outcome(g, 0)
    else if DomainsOf(g.domains, f) != {} || EqsOf(g.eqs, f) != {}
      || ListenersOf(g.listeners.Keys, f) != {} then Outcome(g, -EBUSY)
    else if fi != 0 then Outcome(g, fi)
    else Outcome(g.(fabrics := g.fabrics - {f}), 0)
  }
}
