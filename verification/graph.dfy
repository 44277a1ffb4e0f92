/** The resource graph behind the shim's handles, as a mathematical value.

    It has no counters, no flags that mirror other state and no `next`
    pointers: who depends on whom is read off the live sets, and every
    completion queue owns a sequence of operations.  Every shim call is a
    function on this graph, with the provider's answers as parameters. */
module ResourceGraph {
  import opened Handles

  /** `used`, `attached` and `retired` of a completion queue, as one value. */
  datatype Stage = Unused | InUse(ep: Endpoint) | Retired

  datatype EpRec = EpRec(ready: bool, closing: bool)

  /** An operation in flight: its queue, the region it borrows (null once the
      borrow is returned), the address handed to the provider and the position
      of its submission in the log. */
  datatype Flight = Idle | Flying(cq: Cq, mr: Mr?, addr: U64, ticket: nat)
  datatype OpRec = OpRec(dir: Direction, len: U64, flight: Flight)

  /** Where a successful submission has ended up. */
  datatype Fate = Pending | Reported(queue: Cq, done: Completion) | Discarded
  datatype Post = Post(op: Op, cq: Cq, dir: Direction, len: U64, fate: Fate)

  datatype Graph = Graph(
    fabrics: set<Fabric>,
    domains: set<Domain>,
    eqs: set<Eq>,
    stages: map<Cq, Stage>,
    lists: map<Cq, seq<Op>>,
    listeners: map<Listener, bool>,
    eps: map<Endpoint, EpRec>,
    mrs: set<Mr>,
    ops: map<Op, OpRec>,
    log: seq<Post>)

  const EMPTY := Graph({}, {}, {}, map[], map[], map[], map[], {}, map[], [])

  // ---------------------------------------------------------------- dependants

  function DomainsOf(ds: set<Domain>, f: Fabric): set<Domain> { set d | d in ds && d.fabric == f }
  function EqsOf(qs: set<Eq>, f: Fabric): set<Eq> { set q | q in qs && q.fabric == f }
  function ListenersOf(ls: set<Listener>, f: Fabric): set<Listener> { set l | l in ls && l.fabric == f }
  function CqsOf(cs: set<Cq>, d: Domain): set<Cq> { set c | c in cs && c.domain == d }
  function EpsOf(es: set<Endpoint>, d: Domain): set<Endpoint> { set e | e in es && e.domain == d }
  function MrsOf(ms: set<Mr>, d: Domain): set<Mr> { set m | m in ms && m.domain == d }
  function ListenersOn(ls: set<Listener>, q: Eq): set<Listener> { set l | l in ls && l.eq == q }
  function EpsOn(es: set<Endpoint>, q: Eq): set<Endpoint> { set e | e in es && e.eq == q }

  predicate Borrows(r: OpRec, m: Mr) { r.flight.Flying? && r.flight.mr == m }

  function BorrowersOf(ops: map<Op, OpRec>, m: Mr): set<Op> { set o | o in ops && Borrows(ops[o], m) }

  function FabricKids(g: Graph, f: Fabric): nat {
    |DomainsOf(g.domains, f)| + |EqsOf(g.eqs, f)| + |ListenersOf(g.listeners.Keys, f)|
  }

  function DomainKids(g: Graph, d: Domain): nat {
    |CqsOf(g.stages.Keys, d)| + |EpsOf(g.eps.Keys, d)| + |MrsOf(g.mrs, d)|
  }

  function EqUsers(g: Graph, q: Eq): nat {
    |ListenersOn(g.listeners.Keys, q)| + |EpsOn(g.eps.Keys, q)|
  }

  function FlyingOps(g: Graph): set<Op> { set o | o in g.ops && g.ops[o].flight.Flying? }

  /** The same handles are live. */
  predicate SameHandles(g: Graph, g': Graph) {
    && g'.fabrics == g.fabrics && g'.domains == g.domains && g'.eqs == g.eqs
    && g'.stages.Keys == g.stages.Keys && g'.lists.Keys == g.lists.Keys && g'.listeners.Keys == g.listeners.Keys
    && g'.eps.Keys == g.eps.Keys && g'.mrs == g.mrs
    && g'.ops.Keys == g.ops.Keys
  }

  // ----------------------------------------------------------------- invariant

  predicate Allows(access: bv32, dir: Direction) {
    match dir
    case Unset => false
    case Send => access & ACCESS_SEND != 0
    case Recv => access & ACCESS_RECV != 0
  }

  /** The bytes [addr, addr + len) lie inside the registered region. */
  predicate Inside(m: Mr, addr: U64, len: U64) {
    m.buffer <= addr && addr + len <= m.buffer + m.capacity
  }

  ghost predicate NoDup<T>(s: seq<T>) {
    forall i, j :: 0 <= i < j < |s| ==> s[i] != s[j]
  }

  /** No live handle points at a freed one. */
  ghost predicate Closed(g: Graph) {
    && (forall d | d in g.domains :: d.fabric in g.fabrics)
    && (forall q | q in g.eqs :: q.fabric in g.fabrics)
    && (forall c | c in g.stages :: c.domain in g.domains)
    && (forall l | l in g.listeners :: l.fabric in g.fabrics && l.eq in g.eqs && l.eq.fabric == l.fabric)
    && (forall m | m in g.mrs :: m.domain in g.domains)
    && (forall e | e in g.eps ::
          && e.domain in g.domains && e.eq in g.eqs && e.eq.fabric == e.domain.fabric
          && e.tx in g.stages && e.rx in g.stages && e.tx != e.rx
          && e.tx.domain == e.domain && e.rx.domain == e.domain)
  }

  /** A queue belongs to at most one endpoint, once. */
  ghost predicate Staged(g: Graph) {
    && (forall e | e in g.eps :: e.tx in g.stages && g.stages[e.tx] == InUse(e))
    && (forall e | e in g.eps :: e.rx in g.stages && g.stages[e.rx] == InUse(e))
    && (forall c | c in g.stages && g.stages[c].InUse? ::
          var e := g.stages[c].ep; e in g.eps && (c == e.tx || c == e.rx))
  }

  /** Lists have no duplicates, fit the capacity, and hold exactly the operations that fly on them. */
  ghost predicate Listed(g: Graph) {
    && g.lists.Keys == g.stages.Keys
    && (forall c | c in g.lists :: |g.lists[c]| <= c.capacity && NoDup(g.lists[c]))
    && (forall c, o | c in g.lists && o in g.lists[c] ::
          o in g.ops && g.ops[o].flight.Flying? && g.ops[o].flight.cq == c)
    && (forall o | o in g.ops && g.ops[o].flight.Flying? ::
          g.ops[o].flight.cq in g.lists && o in g.lists[g.ops[o].flight.cq])
  }

  /** What the provider may still touch for one operation in flight. */
  ghost predicate BorrowOk(g: Graph, r: OpRec)
    requires r.flight.Flying?
  {
    var Flying(c, m, addr, _) := r.flight;
    && c in g.stages
    && match g.stages[c]
       case Unused => false
       case Retired => m == null
       case InUse(e) =>
         && m != null && m in g.mrs && m.domain == c.domain
         && Allows(m.access, r.dir) && Inside(m, addr, r.len)
         && r.dir == (if c == e.tx then Send else Recv)
  }

  ghost predicate Borrowed(g: Graph) {
    forall o | o in g.ops && g.ops[o].flight.Flying? :: BorrowOk(g, g.ops[o])
  }

  /** A report names its own queue, operation and direction, and follows the length rule. */
  ghost predicate FateOk(p: Post) {
    p.fate.Reported? ==>
      var d := p.fate.done;
      && p.fate.queue == p.cq && d.opId == p.op.id && d.flags == p.dir
      && (d.err != 0 ==> d.len == 0)
      && (d.err == 0 && p.dir == Send ==> d.len == p.len)
  }

  /** An operation in flight holds the ticket of its own pending submission. */
  ghost predicate TicketOk(g: Graph, o: Op) {
    && o in g.ops && g.ops[o].flight.Flying?
    && var r := g.ops[o];
       r.flight.ticket < |g.log| && g.log[r.flight.ticket] == Post(o, r.flight.cq, r.dir, r.len, Pending)
  }

  /** Pending submissions and operations in flight correspond one to one. */
  ghost predicate Logged(g: Graph) {
    && (forall o | o in g.ops && g.ops[o].flight.Flying? :: TicketOk(g, o))
    && (forall t | 0 <= t < |g.log| && g.log[t].fate.Pending? ::
          var o := g.log[t].op;
          o in g.ops && g.ops[o].flight.Flying? && g.ops[o].flight.ticket == t)
    && (forall t | 0 <= t < |g.log| :: FateOk(g.log[t]))
  }

  ghost predicate Inv(g: Graph) {
    Closed(g) && Staged(g) && Listed(g) && Borrowed(g) && Logged(g)
  }

  // ---------------------------------------------------------- graph operations

  function Remove<T(==)>(s: seq<T>, x: T): seq<T> {
    if s == [] then [] else if s[0] == x then s[1..] else [s[0]] + Remove(s[1..], x)
  }

  function AddEndpoint(g: Graph, e: Endpoint): Graph
  {
    g.(eps := g.eps[e := EpRec(false, false)],
       stages := g.stages[e.tx := InUse(e)][e.rx := InUse(e)])
  }

  function SetReady(g: Graph, e: Endpoint): Graph
    requires e in g.eps
  {
    g.(eps := g.eps[e := g.eps[e].(ready := true)])
  }

  function SetClosing(g: Graph, e: Endpoint): Graph
    requires e in g.eps
  {
    g.(eps := g.eps[e := g.eps[e].(closing := true)])
  }

  /** A successful submission: push in front of the queue's list and log it. */
  function Submit(g: Graph, c: Cq, o: Op, m: Mr, addr: U64, len: U64, dir: Direction): Graph
    requires c in g.lists
  {
    g.(lists := g.lists[c := [o] + g.lists[c]],
       ops := g.ops[o := OpRec(dir, len, Flying(c, m, addr, |g.log|))],
       log := g.log + [Post(o, c, dir, len, Pending)])
  }

  /** The operation is no longer in flight and its submission has met its fate. */
  function Land(g: Graph, o: Op, fate: Fate): Graph {
    if o in g.ops && g.ops[o].flight.Flying? && g.ops[o].flight.ticket < |g.log| then
      var t := g.ops[o].flight.ticket;
      g.(ops := g.ops[o := g.ops[o].(flight := Idle)], log := g.log[t := g.log[t].(fate := fate)])
    else g
  }

  /** Take one operation off its queue and settle its submission. */
  function Settle(g: Graph, c: Cq, o: Op, fate: Fate): Graph
    requires c in g.lists
  {
    Land(g.(lists := g.lists[c := Remove(g.lists[c], o)]), o, fate)
  }

  function DiscardAll(g: Graph, s: seq<Op>): Graph
    decreases |s|
  {
    if s == [] then g else DiscardAll(Land(g, s[0], Discarded), s[1..])
  }

  /** Give one borrow back; the operation itself stays pinned by its queue. */
  function ReturnBorrow(g: Graph, o: Op): Graph {
    if o in g.ops && g.ops[o].flight.Flying? then
      g.(ops := g.ops[o := g.ops[o].(flight := g.ops[o].flight.(mr := null))])
    else g
  }

  function ReturnAll(g: Graph, s: seq<Op>): Graph
    decreases |s|
  {
    if s == [] then g else ReturnAll(ReturnBorrow(g, s[0]), s[1..])
  }

  function RetireCq(g: Graph, c: Cq): Graph
    requires c in g.lists
  {
    ReturnAll(g.(stages := g.stages[c := Retired]), g.lists[c])
  }
}
