/** Whole runs: any sequence of shim calls, with any answers from the provider.

    The calls here are those that can change the graph, successful or not.  An open that
    fails before its provider object exists leaves the graph alone; connecting, accepting,
    rejecting and reading an event queue always do. */
module Runs {
  import opened Handles
  import opened ResourceGraph
  import opened ShimSpec
  import opened GraphLaws

  datatype Call =
    | OpenFabric(fabric: Fabric)
    | OpenDomain(domain: Domain)
    | OpenEq(eq: Eq)
    | OpenCq(cq: Cq)
    | OpenListener(listener: Listener, lfi: ListenerAnswers)
    | OpenEndpoint(ep: Endpoint, request: bool, efi: EpAnswers)
    | Register(mr: Mr)
    | CreateOp(op: Op)
    | PostCall(pep: Endpoint?, pop: Op?, pmr: Mr?, addr: U64, len: U64, dir: Direction, fi: int)
    | Poll(pcq: Cq?, read: CqRead, error: CqReadErr)
    | ShutDown(sep: Endpoint?, fi: int)
    | CloseEndpoint(cep: Endpoint?, fi: int)
    | CloseQueue(ccq: Cq?, fi: int)
    | Free(fop: Op?)
    | CloseRegion(cmr: Mr?, fi: int)
    | CloseListening(cl: Listener?, fi: int)
    | CloseEvents(ceq: Eq?, fi: int)
    | CloseDom(cd: Domain?, fi: int)
    | CloseFab(cf: Fabric?, fi: int)

  /** The handles a caller passes are live; a handle an open returns is none of the live ones. */
  predicate Legal(g: Graph, call: Call) {
    match call
    case OpenFabric(f) => f !in g.fabrics
    case OpenDomain(d) => d !in g.domains && d.fabric in g.fabrics
    case OpenEq(q) => q !in g.eqs && q.fabric in g.fabrics
    case OpenCq(c) => c !in g.stages && c.domain in g.domains
    case OpenListener(l, _) => l !in g.listeners && l.eq in g.eqs && l.fabric in g.fabrics && l.eq.fabric == l.fabric
    case OpenEndpoint(e, _, _) => e !in g.eps && Openable(g, e) && e.tx in g.lists && e.rx in g.lists
    case Register(m) => m !in g.mrs && m.domain in g.domains
    case CreateOp(o) => o !in g.ops
    case PostCall(e, o, m, _, _, dir, _) =>
      && LiveEp(g, e) && LiveOp(g, o) && LiveMr(g, m) && dir != Unset
      && (e != null ==> e.tx in g.lists && e.rx in g.lists)
    case Poll(c, _, _) => LiveCq(g, c)
    case ShutDown(e, _) => LiveEp(g, e)
    case CloseEndpoint(e, _) => LiveEp(g, e) && (e != null ==> e.tx in g.lists && e.rx in g.lists)
    case CloseQueue(c, _) => LiveCq(g, c)
    case Free(o) => LiveOp(g, o)
    case CloseRegion(m, _) => LiveMr(g, m)
    case CloseListening(l, _) => LiveListener(g, l)
    case CloseEvents(q, _) => LiveEq(g, q)
    case CloseDom(d, _) => LiveDomain(g, d)
    case CloseFab(f, _) => LiveFabric(g, f)
  }

  ghost function AsOutcome(p: PollOutcome): Outcome { Outcome(p.g, p.ret) }

  /** The graph after a call, and the code it returns. */
  ghost function Do(g: Graph, call: Call): Outcome
    requires Listed(g) && Legal(g, call)
  {
    match call
    case OpenFabric(f) => Outcome(AddFabric(g, f), 0)
    case OpenDomain(d) => Outcome(AddDomain(g, d), 0)
    case OpenEq(q) => Outcome(AddEq(g, q), 0)
    case OpenCq(c) => Outcome(AddCq(g, c), 0)
    case OpenListener(l, fi) => Outcome(ListenerSetup(g, l, fi), Then(fi.bind, fi.listen))
    case OpenEndpoint(e, request, fi) => Outcome(EndpointSetup(g, e, request, fi), SetupCode(fi))
    case Register(m) => Outcome(AddMr(g, m), 0)
    case CreateOp(o) => Outcome(AddOp(g, o), 0)
    case PostCall(e, o, m, addr, len, dir, fi) => PostMessage(g, e, o, m, addr, len, dir, fi)
    case Poll(c, read, error) => AsOutcome(CqPoll(g, c, read, error))
    case ShutDown(e, fi) => Shutdown(g, e, fi)
    case CloseEndpoint(e, fi) => CloseEp(g, e, fi)
    case CloseQueue(c, fi) => CloseCq(g, c, fi)
    case Free(o) => FreeOp(g, o)
    case CloseRegion(m, fi) => CloseMr(g, m, fi)
    case CloseListening(l, fi) => CloseListener(g, l, fi)
    case CloseEvents(q, fi) => CloseEq(g, q, fi)
    case CloseDom(d, fi) => CloseDomain(g, d, fi)
    case CloseFab(f, fi) => CloseFabric(g, f, fi)
  }

  // ------------------------------------------------------- the invariant

  lemma ListenerInv(g: Graph, l: Listener, fi: ListenerAnswers)
    requires Inv(g) && Legal(g, OpenListener(l, fi))
    ensures Inv(ListenerSetup(g, l, fi))
  {
    NewListener(g, l);
    if Then(fi.bind, fi.listen) == 0 {
      SetsInv(AddListener(g, l), StartListener(AddListener(g, l), l));
    } else {
      CloseListenerInv(AddListener(g, l), l, fi.close);
    }
  }

  lemma PostInv(g: Graph, e: Endpoint?, o: Op?, m: Mr?, addr: U64, len: U64, dir: Direction, fi: int)
    requires Inv(g) && Legal(g, PostCall(e, o, m, addr, len, dir, fi))
    ensures Inv(PostMessage(g, e, o, m, addr, len, dir, fi).g)
  {
    if PostTest(g, e, o, m, addr, len, dir) == 0 { SubmitInv(g, e, o, m, addr, len, dir); }
  }

  lemma CqPollInv(g: Graph, c: Cq?, read: CqRead, error: CqReadErr)
    requires Inv(g) && LiveCq(g, c)
    ensures Inv(CqPoll(g, c, read, error).g)
  {
    hide Closed, Staged, Borrowed, Logged;
    if c != null {
      PollInv(g, c, error.context, 0, error.err, error.provErr);
      PollInv(g, c, read.context, read.len, 0, 0);
    }
  }

  predicate Opens(call: Call) {
    call.OpenFabric? || call.OpenDomain? || call.OpenEq? || call.OpenCq? || call.OpenListener?
    || call.OpenEndpoint? || call.Register? || call.CreateOp?
  }

  predicate Closes(call: Call) {
    call.CloseRegion? || call.CloseListening? || call.CloseEvents? || call.CloseDom? || call.CloseFab?
  }

  lemma OpenInv(g: Graph, call: Call)
    requires Inv(g) && Legal(g, call) && Opens(call)
    ensures Inv(Do(g, call).g)
  {
    hide Closed, Staged, Listed, Borrowed, Logged;
    match call
    case OpenFabric(f) => NewFabric(g, f);
    case OpenDomain(d) => NewDomain(g, d);
    case OpenEq(q) => NewEq(g, q);
    case OpenCq(c) => NewCq(g, c);
    case OpenListener(l, fi) => ListenerInv(g, l, fi);
    case OpenEndpoint(e, request, fi) => EndpointSetupInv(g, e, request, fi);
    case Register(m) => UnusedMr(g, m);
    case CreateOp(o) => AddOpInv(g, o);
  }

  lemma CloseInv(g: Graph, call: Call)
    requires Inv(g) && Legal(g, call) && Closes(call)
    ensures Inv(Do(g, call).g)
  {
    hide Closed, Staged, Listed, Borrowed, Logged;
    match call
    case CloseRegion(m, fi) => CloseMrInv(g, m, fi);
    case CloseListening(l, fi) => CloseListenerInv(g, l, fi);
    case CloseEvents(q, fi) => CloseEqInv(g, q, fi);
    case CloseDom(d, fi) => CloseDomainInv(g, d, fi);
    case CloseFab(f, fi) => CloseFabricInv(g, f, fi);
  }

  /** Every legal call keeps the invariant, whatever the provider answers. */
  lemma StepInv(g: Graph, call: Call)
    requires Inv(g) && Legal(g, call)
    ensures Inv(Do(g, call).g)
  {
    hide Closed, Staged, Listed, Borrowed, Logged;
    match call
    case PostCall(e, o, m, addr, len, dir, fi) => PostInv(g, e, o, m, addr, len, dir, fi);
    case Poll(c, read, error) => CqPollInv(g, c, read, error);
    case ShutDown(e, fi) => if e != null { EpFlagInv(g, SetClosing(g, e), e); }
    case CloseEndpoint(e, fi) => if e != null { CloseEpInv(g, e, fi); }
    case CloseQueue(c, fi) => if c != null && !g.stages[c].InUse? { CloseCqInv(g, c); }
    case Free(o) => if o != null && g.ops[o].flight.Idle? { FreeOpInv(g, o); }
    case _ => if Opens(call) { OpenInv(g, call); } else { CloseInv(g, call); }
  }

  ghost predicate LegalRun(g: Graph, calls: seq<Call>)
    requires Inv(g)
    decreases |calls|
  {
    calls == [] || (Legal(g, calls[0]) && (StepInv(g, calls[0]); LegalRun(Do(g, calls[0]).g, calls[1..])))
  }

  /** The graph after a whole run; it satisfies the invariant. */
  ghost function Exec(g: Graph, calls: seq<Call>): (g': Graph)
    requires Inv(g) && LegalRun(g, calls)
    ensures Inv(g')
    decreases |calls|
  {
    if calls == [] then g else (StepInv(g, calls[0]); Exec(Do(g, calls[0]).g, calls[1..]))
  }
}
