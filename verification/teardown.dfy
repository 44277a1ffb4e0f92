/** Undoing: composite opens that fail, and taking down any graph in the documented order. */
module Teardown {
  import opened Handles
  import opened ResourceGraph
  import opened ShimSpec
  import opened GraphLaws
  import opened Runs
  import opened Ledger
  import opened Freeze

  // ------------------------------------------------------- composite opens

  /** The graph an endpoint's failed life leaves behind: only its two queues are spent. */
  function Spent(g: Graph, e: Endpoint): Graph {
    g.(stages := g.stages[e.tx := Retired][e.rx := Retired])
  }

  /** An endpoint open that fails after the endpoint exists either undoes everything but
      the queues, or hands out an endpoint that is not ready and whose close undoes the same. */
  lemma FailedEndpoint(g: Graph, e: Endpoint, request: bool, fi: EpAnswers)
    requires Inv(g) && Legal(g, OpenEndpoint(e, request, fi)) && SetupCode(fi) != 0
    ensures var g' := EndpointSetup(g, e, request, fi);
      if EndpointReturned(request, fi)
      then e in g'.eps && !g'.eps[e].ready && CloseEp(g', e, 0) == Outcome(Spent(g, e), 0)
      else g' == Spent(g, e)
  {
    Rollback(g, e);
    var g1 := AddEndpoint(g, e);
    assert SetClosing(SetClosing(g1, e), e) == SetClosing(g1, e);
  }

  /** Likewise for a listener, whose open leaves nothing behind at all. */
  lemma FailedListener(g: Graph, l: Listener, fi: ListenerAnswers)
    requires Legal(g, OpenListener(l, fi)) && Then(fi.bind, fi.listen) != 0
    ensures var g' := ListenerSetup(g, l, fi);
      if fi.close == 0 then g' == g
      else l in g'.listeners && !g'.listeners[l] && CloseListener(g', l, 0) == Outcome(g, 0)
  {
    assert g.listeners[l := false] - {l} == g.listeners;
  }

  /** Spent queues count as before for their domain, and nothing else counts differently. */
  lemma SpentCounts(g: Graph, e: Endpoint)
    requires Openable(g, e)
    ensures forall f :: FabricKids(Spent(g, e), f) == FabricKids(g, f)
    ensures forall d :: DomainKids(Spent(g, e), d) == DomainKids(g, d)
    ensures forall q :: EqUsers(Spent(g, e), q) == EqUsers(g, q)
  {
    assert Spent(g, e).stages.Keys == g.stages.Keys;
  }

  /** An endpoint that is not ready never becomes ready, whatever is called: it refuses messages and shutdowns until
      it is closed. */
  lemma {:induction false} NeverReady(g: Graph, calls: seq<Call>, e: Endpoint, i: nat)
    requires Inv(g) && LegalRun(g, calls) && i <= |calls|
    requires e in g.eps ==> !g.eps[e].ready
    requires forall k | 0 <= k < |calls| :: !(calls[k].OpenEndpoint? && calls[k].ep == e)
    ensures var g' := At(g, calls, i);
      e in g'.eps ==>
        && !g'.eps[e].ready && e.tx in g'.lists && e.rx in g'.lists
        && (forall o, m, addr, len, dir, fi | LiveOp(g', o) ::
             PostMessage(g', e, o, m, addr, len, dir, fi) == Outcome(g', -EINVAL))
        && (forall fi :: Shutdown(g', e, fi) == Outcome(g', -EINVAL))
    decreases |calls|
  {
    hide Closed, Staged, Listed, Borrowed, Logged, Do, Legal, PostMessage;
    if i > 0 {
      StepInv(g, calls[0]);
      if e in g.eps { CallFlags(g, calls[0], e); } else { NotOpened(g, calls[0], e); }
      NeverReady(Do(g, calls[0]).g, calls[1..], e, i - 1);
    } else if e in g.eps {
      NotReadyRefuses(g, e);
    }
  }

  lemma NotReadyRefuses(g: Graph, e: Endpoint)
    requires Inv(g) && e in g.eps && !g.eps[e].ready
    ensures e.tx in g.lists && e.rx in g.lists
    ensures forall o, m, addr, len, dir, fi | LiveOp(g, o) ::
      PostMessage(g, e, o, m, addr, len, dir, fi) == Outcome(g, -EINVAL)
    ensures forall fi :: Shutdown(g, e, fi) == Outcome(g, -EINVAL)
  {
  }

  /** Likewise a listener whose open failed but that could not be closed: it never starts to listen. */
  lemma {:induction false} NeverListening(g: Graph, calls: seq<Call>, l: Listener, i: nat)
    requires Inv(g) && LegalRun(g, calls) && i <= |calls|
    requires l in g.listeners ==> !g.listeners[l]
    requires forall k | 0 <= k < |calls| :: !(calls[k].OpenListener? && calls[k].listener == l)
    ensures var g' := At(g, calls, i); l in g'.listeners ==> !g'.listeners[l]
    decreases |calls|
  {
    hide Closed, Staged, Listed, Borrowed, Logged, Do, Legal;
    if i > 0 {
      StepInv(g, calls[0]);
      ListenerFlags(g, calls[0], l);
      NeverListening(Do(g, calls[0]).g, calls[1..], l, i - 1);
    }
  }

  lemma ListenerFlags(g: Graph, call: Call, l: Listener)
    requires Inv(g) && Legal(g, call) && !(call.OpenListener? && call.listener == l)
    ensures var g' := Do(g, call).g; l in g'.listeners ==> l in g.listeners && g'.listeners[l] == g.listeners[l]
  {
    hide Closed, Staged, Listed, Borrowed, Logged, Drained, RemoveEndpoint;
    if call.OpenEndpoint? {
      RemoveEndpointShape(SetClosing(AddEndpoint(g, call.ep), call.ep), call.ep);
    } else if call.CloseEndpoint? && call.cep != null {
      RemoveEndpointShape(SetClosing(g, call.cep), call.cep);
    } else if call.CloseQueue? && call.ccq != null {
      CloseCqShape(g, call.ccq);
    }
  }

  lemma NotOpened(g: Graph, call: Call, e: Endpoint)
    requires Inv(g) && Legal(g, call) && e !in g.eps && !(call.OpenEndpoint? && call.ep == e)
    ensures e !in Do(g, call).g.eps
  {
    hide Closed, Staged, Listed, Borrowed, Logged, Drained, RemoveEndpoint;
    if call.OpenEndpoint? { RemoveEndpointShape(SetClosing(AddEndpoint(g, call.ep), call.ep), call.ep); }
    else if call.CloseEndpoint? { if call.cep != null { RemoveEndpointShape(SetClosing(g, call.cep), call.cep); } }
    else if call.CloseQueue? { if call.ccq != null { CloseCqShape(g, call.ccq); } }
  }

  // ---------------------------------------------------------------- teardown

  /** The live handles of a graph, each kind in some order. */
  datatype Order = Order(es: seq<Endpoint>, cs: seq<Cq>, os: seq<Op>, ms: seq<Mr>,
                         ls: seq<Listener>, qs: seq<Eq>, ds: seq<Domain>, fs: seq<Fabric>)

  function SetOf<T>(s: seq<T>): set<T> { set x | x in s }

  ghost predicate Lists(g: Graph, t: Order) {
    && NoDup(t.es) && SetOf(t.es) == g.eps.Keys
    && NoDup(t.cs) && SetOf(t.cs) == g.stages.Keys
    && NoDup(t.os) && SetOf(t.os) == g.ops.Keys
    && NoDup(t.ms) && SetOf(t.ms) == g.mrs
    && NoDup(t.ls) && SetOf(t.ls) == g.listeners.Keys
    && NoDup(t.qs) && SetOf(t.qs) == g.eqs
    && NoDup(t.ds) && SetOf(t.ds) == g.domains
    && NoDup(t.fs) && SetOf(t.fs) == g.fabrics
  }

  /** Endpoints, queues, operations, regions, listeners, event queues, domains, fabrics. */
  function Next(t: Order, fi: int): Call
    requires t != Order([], [], [], [], [], [], [], [])
  {
    if t.es != [] then CloseEndpoint(t.es[0], fi)
    else if t.cs != [] then CloseQueue(t.cs[0], fi)
    else if t.os != [] then Free(t.os[0])
    else if t.ms != [] then CloseRegion(t.ms[0], fi)
    else if t.ls != [] then CloseListening(t.ls[0], fi)
    else if t.qs != [] then CloseEvents(t.qs[0], fi)
    else if t.ds != [] then CloseDom(t.ds[0], fi)
    else CloseFab(t.fs[0], fi)
  }

  function Rest(t: Order): Order
    requires t != Order([], [], [], [], [], [], [], [])
  {
    if t.es != [] then t.(es := t.es[1..])
    else if t.cs != [] then t.(cs := t.cs[1..])
    else if t.os != [] then t.(os := t.os[1..])
    else if t.ms != [] then t.(ms := t.ms[1..])
    else if t.ls != [] then t.(ls := t.ls[1..])
    else if t.qs != [] then t.(qs := t.qs[1..])
    else if t.ds != [] then t.(ds := t.ds[1..])
    else t.(fs := t.fs[1..])
  }

  function Size(t: Order): nat {
    |t.es| + |t.cs| + |t.os| + |t.ms| + |t.ls| + |t.qs| + |t.ds| + |t.fs|
  }

  /** The documented cleanup order, with a provider that lets every close succeed. */
  function Plan(t: Order): seq<Call>
    decreases Size(t)
  {
    if t == Order([], [], [], [], [], [], [], []) then [] else [Next(t, 0)] + Plan(Rest(t))
  }

  /** Every call returns what the provider answers, whatever that is: no gate of the shim is in the way. */
  ghost predicate Unhindered(g: Graph, t: Order)
    requires Inv(g)
    decreases Size(t)
  {
    t == Order([], [], [], [], [], [], [], []) || (
      && Legal(g, Next(t, 0))
      && (forall fi :: Legal(g, Next(t, fi)) && (Do(g, Next(t, fi)).ret == fi || Next(t, fi).Free?))
      && Do(g, Next(t, 0)).ret == 0
      && (StepInv(g, Next(t, 0)); Unhindered(Do(g, Next(t, 0)).g, Rest(t))))
  }

  lemma Tail<T>(s: seq<T>)
    requires NoDup(s) && s != []
    ensures NoDup(s[1..]) && SetOf(s[1..]) == SetOf(s) - {s[0]} && s[0] in SetOf(s)
  {
  }

  lemma EpNext(g: Graph, t: Order, fi: int)
    requires Inv(g) && Lists(g, t) && t.es != []
    ensures Legal(g, Next(t, fi)) && Do(g, Next(t, fi)).ret == fi
    ensures fi == 0 ==> Lists(Do(g, Next(t, fi)).g, Rest(t))
  {
    hide Closed, Listed, Borrowed, Logged, RemoveEndpoint;
    Tail(t.es);
    EndpointParts(g, t.es[0]);
    RemoveEndpointShape(SetClosing(g, t.es[0]), t.es[0]);
  }

  lemma CqNext(g: Graph, t: Order, fi: int)
    requires Inv(g) && Lists(g, t) && t.es == [] && t.cs != []
    ensures Legal(g, Next(t, fi)) && Do(g, Next(t, fi)).ret == fi
    ensures fi == 0 ==> Lists(Do(g, Next(t, fi)).g, Rest(t))
  {
    hide Closed, Borrowed, Logged, Drained;
    Tail(t.cs);
    CloseCqShape(g, t.cs[0]);
  }

  lemma OpNext(g: Graph, t: Order)
    requires Inv(g) && Lists(g, t) && t.es == [] && t.cs == [] && t.os != []
    ensures Legal(g, Next(t, 0)) && Do(g, Next(t, 0)).ret == 0 && Lists(Do(g, Next(t, 0)).g, Rest(t))
  {
    hide Closed, Staged, Borrowed, Logged;
    Tail(t.os);
    assert t.os[0] in g.ops;
  }

  lemma OtherNext(g: Graph, t: Order, fi: int)
    requires Inv(g) && Lists(g, t) && t.es == [] && t.cs == [] && t.os == []
      && t != Order([], [], [], [], [], [], [], [])
    ensures Legal(g, Next(t, fi)) && Do(g, Next(t, fi)).ret == fi
    ensures fi == 0 ==> Lists(Do(g, Next(t, fi)).g, Rest(t))
  {
    hide Closed, Staged, Listed, Borrowed, Logged;
    if t.ms != [] { Tail(t.ms); }
    else if t.ls != [] { Tail(t.ls); }
    else if t.qs != [] { Tail(t.qs); }
    else if t.ds != [] { Tail(t.ds); }
    else { Tail(t.fs); }
  }

  lemma NextOk(g: Graph, t: Order, fi: int)
    requires Inv(g) && Lists(g, t) && t != Order([], [], [], [], [], [], [], [])
    ensures Legal(g, Next(t, fi)) && (Do(g, Next(t, fi)).ret == fi || Next(t, fi).Free?)
    ensures fi == 0 ==> Do(g, Next(t, fi)).ret == 0 && Lists(Do(g, Next(t, fi)).g, Rest(t))
  {
    hide Closed, Staged, Listed, Borrowed, Logged, Legal, Do, Lists;
    if t.es != [] { EpNext(g, t, fi); }
    else if t.cs != [] { CqNext(g, t, fi); }
    else if t.os != [] { OpNext(g, t); }
    else { OtherNext(g, t, fi); }
  }

  /** From any consistent graph the documented order meets no EBUSY of the shim and frees everything;
      no submission is pending afterwards. */
  lemma {:induction false} TeardownWorks(g: Graph, t: Order)
    requires Inv(g) && Lists(g, t)
    ensures Unhindered(g, t) && LegalRun(g, Plan(t))
    ensures var g' := Exec(g, Plan(t)); g' == EMPTY.(log := g'.log) && PendingTickets(g') == {}
    decreases Size(t)
  {
    hide Closed, Staged, Borrowed, Legal, Do;
    if t == Order([], [], [], [], [], [], [], []) {
      assert g.eps == map[] && g.stages == map[] && g.lists == map[] && g.ops == map[] && g.listeners == map[];
    } else {
      forall fi
        ensures Legal(g, Next(t, fi)) && (Do(g, Next(t, fi)).ret == fi || Next(t, fi).Free?)
      {
        NextOk(g, t, fi);
      }
      NextOk(g, t, 0);
      StepInv(g, Next(t, 0));
      TeardownWorks(Do(g, Next(t, 0)).g, Rest(t));
    }
  }
}
