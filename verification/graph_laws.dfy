/** Every graph operation the shim performs keeps the invariant, and what the
    multi-step ones (retire, discard, endpoint close) do to each part of the graph. */
module GraphLaws {
  import opened Handles
  import opened ResourceGraph
  import opened ShimSpec

  // ---------------------------------------------------------------- sequences

  lemma {:induction false} RemoveAt<T>(s: seq<T>, k: nat)
    requires k < |s| && NoDup(s)
    ensures Remove(s, s[k]) == s[..k] + s[k + 1..]
  {
    if k == 0 {
    } else {
      assert NoDup(s[1..]);
      RemoveAt(s[1..], k - 1);
      assert s[1..][k - 1] == s[k];
      assert [s[0]] + (s[1..][..k - 1] + s[1..][k..]) == s[..k] + s[k + 1..];
    }
  }

  lemma Memberless<T>(s: seq<T>)
    ensures s == [] || exists x :: x in s
  {
    if s != [] { assert s[0] in s; }
  }

  lemma RemoveLaws<T>(s: seq<T>, x: T)
    requires x in s && NoDup(s)
    ensures NoDup(Remove(s, x)) && |Remove(s, x)| == |s| - 1
    ensures forall y :: y in Remove(s, x) <==> y in s && y != x
  {
    var k :| 0 <= k < |s| && s[k] == x;
    RemoveAt(s, k);
    var r := s[..k] + s[k + 1..];
    forall y | y in s && y != x
      ensures y in r
    {
      var j :| 0 <= j < |s| && s[j] == y;
      assert y == if j < k then r[j] else r[j - 1];
    }
  }

  /** `rest` is `s` without position `k`. */
  ghost predicate Without(s: seq<Op>, k: nat, rest: seq<Op>) {
    && k < |s| == |rest| + 1
    && (forall i | 0 <= i < k :: rest[i] == s[i])
    && (forall i | k <= i < |rest| :: rest[i] == s[i + 1])
  }

  // ------------------------------------------------------------- submissions

  lemma SubmitListed(g: Graph, c: Cq, o: Op, m: Mr, addr: U64, len: U64, dir: Direction)
    requires Listed(g) && c in g.lists && o in g.ops && g.ops[o].flight.Idle? && |g.lists[c]| < c.capacity
    ensures Listed(Submit(g, c, o, m, addr, len, dir))
  {
    assert o !in g.lists[c];
  }

  lemma SubmitLogged(g: Graph, c: Cq, o: Op, m: Mr, addr: U64, len: U64, dir: Direction)
    requires Logged(g) && c in g.lists && o in g.ops && g.ops[o].flight.Idle?
    ensures Logged(Submit(g, c, o, m, addr, len, dir))
  {
    var g' := Submit(g, c, o, m, addr, len, dir);
    forall p | p in g'.ops && g'.ops[p].flight.Flying?
      ensures TicketOk(g', p)
    {
      if p != o { assert TicketOk(g, p); }
    }
  }

  lemma SubmitBorrowed(g: Graph, e: Endpoint, o: Op, m: Mr, addr: U64, len: U64, dir: Direction)
    requires Closed(g) && Staged(g) && Borrowed(g) && e in g.eps && o in g.ops && m in g.mrs && dir != Unset
    requires Target(e, dir) in g.lists
    requires m.domain == e.domain && Allows(m.access, dir) && Inside(m, addr, len)
    ensures Borrowed(Submit(g, Target(e, dir), o, m, addr, len, dir))
  {
    var g' := Submit(g, Target(e, dir), o, m, addr, len, dir);
    forall p | p in g'.ops && g'.ops[p].flight.Flying?
      ensures BorrowOk(g', g'.ops[p])
    {
      if p != o { assert BorrowOk(g, g.ops[p]); }
    }
  }

  lemma SubmitInv(g: Graph, e: Endpoint, o: Op, m: Mr, addr: U64, len: U64, dir: Direction)
    requires Inv(g) && e in g.eps && o in g.ops && m in g.mrs && dir != Unset
    requires PostTest(g, e, o, m, addr, len, dir) == 0
    ensures Inv(Submit(g, Target(e, dir), o, m, addr, len, dir))
  {
    SubmitListed(g, Target(e, dir), o, m, addr, len, dir);
    SubmitLogged(g, Target(e, dir), o, m, addr, len, dir);
    SubmitBorrowed(g, e, o, m, addr, len, dir);
  }

  ghost predicate Unlisted(g: Graph, o: Op) {
    forall c, i {:trigger g.lists[c][i]} | c in g.lists && 0 <= i < |g.lists[c]| :: g.lists[c][i] != o
  }

  lemma IdleUnlisted(g: Graph, o: Op)
    requires Listed(g) && o in g.ops && g.ops[o].flight.Idle?
    ensures Unlisted(g, o)
  {
    forall c, i | c in g.lists && 0 <= i < |g.lists[c]|
      ensures g.lists[c][i] != o
    {
      assert g.lists[c][i] in g.lists[c];
    }
  }

  lemma PostOk(g: Graph, e: Endpoint, o: Op, m: Mr, addr: U64, len: U64, dir: Direction)
    requires Inv(g) && e in g.eps && o in g.ops && m in g.mrs && dir != Unset
    requires PostTest(g, e, o, m, addr, len, dir) == 0
    ensures Inv(Submit(g, Target(e, dir), o, m, addr, len, dir))
    ensures Target(e, dir) in g.lists && g.ops[o].flight.Idle? && Unlisted(g, o)
  {
    SubmitInv(g, e, o, m, addr, len, dir);
    IdleUnlisted(g, o);
  }

  // --------------------------------------------------------------- settlements

  /** The log entry of an operation in flight once it meets `fate`. */
  function Settlement(g: Graph, o: Op, fate: Fate): Post
    requires o in g.ops && g.ops[o].flight.Flying? && g.ops[o].flight.ticket < |g.log|
  {
    g.log[g.ops[o].flight.ticket].(fate := fate)
  }

  lemma SettleMember(g: Graph, c: Cq, o: Op, fate: Fate, q: Cq, p: Op)
    requires Listed(g) && c in g.lists && o in g.lists[c] && q in g.lists
    requires p in Settle(g, c, o, fate).lists[q]
    ensures p in g.lists[q] && p != o
  {
    if q == c { RemoveLaws(g.lists[c], o); }
  }

  lemma SettleListed(g: Graph, c: Cq, o: Op, fate: Fate)
    requires Listed(g) && Logged(g) && c in g.lists && o in g.lists[c]
    ensures Listed(Settle(g, c, o, fate))
  {
    RemoveLaws(g.lists[c], o);
    assert TicketOk(g, o);
    var g' := Settle(g, c, o, fate);
    forall q, p | q in g'.lists && p in g'.lists[q]
      ensures p in g'.ops && g'.ops[p].flight.Flying? && g'.ops[p].flight.cq == q
    {
      SettleMember(g, c, o, fate, q, p);
    }
    forall p | p in g'.ops && g'.ops[p].flight.Flying?
      ensures g'.ops[p].flight.cq in g'.lists && p in g'.lists[g'.ops[p].flight.cq]
    {
      assert p != o && g'.ops[p] == g.ops[p];
    }
  }

  lemma LandBorrowed(g: Graph, g': Graph, o: Op, fate: Fate)
    requires Borrowed(g) && Logged(g) && o in g.ops && g.ops[o].flight.Flying?
    requires g'.ops == Land(g, o, fate).ops && g'.stages == g.stages && g'.mrs == g.mrs
    ensures Borrowed(g')
  {
    assert TicketOk(g, o);
    forall p | p in g'.ops && g'.ops[p].flight.Flying?
      ensures BorrowOk(g', g'.ops[p])
    {
      assert p != o && BorrowOk(g, g.ops[p]);
    }
  }

  lemma LandLogged(g: Graph, o: Op, fate: Fate)
    requires Logged(g) && o in g.ops && g.ops[o].flight.Flying? && !fate.Pending? && TicketOk(g, o)
    requires FateOk(Settlement(g, o, fate))
    ensures Logged(Land(g, o, fate))
  {
    var g' := Land(g, o, fate);
    forall p | p in g'.ops && g'.ops[p].flight.Flying?
      ensures TicketOk(g', p)
    {
      assert p != o && TicketOk(g, p);
    }
  }

  lemma SettleInv(g: Graph, c: Cq, o: Op, fate: Fate)
    requires Inv(g) && c in g.lists && o in g.lists[c] && !fate.Pending? && TicketOk(g, o)
    requires FateOk(Settlement(g, o, fate))
    ensures Inv(Settle(g, c, o, fate)) && SameHandles(g, Settle(g, c, o, fate))
  {
    SettleListed(g, c, o, fate);
    LandBorrowed(g, Settle(g, c, o, fate), o, fate);
    LandLogged(g.(lists := g.lists[c := Remove(g.lists[c], o)]), o, fate);
  }

  lemma ReportOk(g: Graph, c: Cq, o: Op, given: Completion)
    requires Listed(g) && Logged(g) && c in g.lists && o in g.lists[c]
    ensures TicketOk(g, o)
    ensures FateOk(Settlement(g, o, Reported(c, Report(o.id, g.ops[o], given.len, given.err, given.provErr))))
  {
    assert g.ops[o].flight.cq == c;
    assert TicketOk(g, o);
  }

  lemma PollInv(g: Graph, c: Cq, context: Op?, len: U64, err: int, provErr: int)
    requires Inv(g) && c in g.lists
    ensures Inv(Match(g, c, context, len, err, provErr).g)
  {
    if context != null && context in g.lists[c] {
      ReportOk(g, c, context, Completion(0, Unset, len, err, provErr));
      SettleInv(g, c, context, Reported(c, Report(context.id, g.ops[context], len, err, provErr)));
    }
  }

  lemma ReturnThenLand(g: Graph, o: Op, fate: Fate)
    requires o in g.ops && g.ops[o].flight.Flying? && g.ops[o].flight.ticket < |g.log|
    ensures Land(ReturnBorrow(g, o), o, fate) == Land(g, o, fate)
  {
    var r := ReturnBorrow(g, o);
    assert r.ops[o := r.ops[o].(flight := Idle)] == g.ops[o := g.ops[o].(flight := Idle)];
  }

  /** No list but that of `cq` holds `o`. */
  ghost predicate Elsewhere(g: Graph, cq: Cq, o: Op) {
    forall c, i {:trigger g.lists[c][i]} | c in g.lists && c != cq && 0 <= i < |g.lists[c]| :: g.lists[c][i] != o
  }

  /** Lists are disjoint, so one that lost an operation leaves it unlisted. */
  lemma AfterUnlink(g: Graph, cq: Cq, op: Op, prev: Op?)
    requires Listed(g) && cq in g.lists && op in g.lists[cq]
    ensures Unlisted(g.(lists := g.lists[cq := Remove(g.lists[cq], op)]), op)
    ensures prev != null && prev in g.lists[cq] ==> Elsewhere(g, cq, prev)
  {
    RemoveLaws(g.lists[cq], op);
    forall c, o | c in g.lists && c != cq && o in g.lists[cq]
      ensures o !in g.lists[c]
    {
      assert g.ops[o].flight.cq == cq;
    }
  }

  // ------------------------------------------------------------ returned borrows

  /** Every listed operation flies and borrows nothing or a live region. */
  ghost predicate Returnable(g: Graph, s: seq<Op>) {
    forall o | o in s :: o in g.ops && g.ops[o].flight.Flying?
      && (g.ops[o].flight.mr == null || g.ops[o].flight.mr in g.mrs)
  }

  lemma FlyingReturnable(g: Graph, o: Op)
    requires Borrowed(g) && Logged(g) && o in g.ops && g.ops[o].flight.Flying?
    ensures Returnable(g, [o]) && g.ops[o].flight.ticket < |g.log|
  {
    assert BorrowOk(g, g.ops[o]) && TicketOk(g, o);
  }

  lemma ListsReturnable(g: Graph)
    requires Listed(g) && Borrowed(g)
    ensures forall c | c in g.lists :: Returnable(g, g.lists[c])
  {
    forall c, o | c in g.lists && o in g.lists[c]
      ensures o in g.ops && g.ops[o].flight.Flying?
      ensures g.ops[o].flight.mr == null || g.ops[o].flight.mr in g.mrs
    {
      assert BorrowOk(g, g.ops[o]);
    }
  }

  lemma ReturnStep(g: Graph, s: seq<Op>, i: nat)
    requires i < |s| && Returnable(g, s)
    ensures ReturnAll(g, s[i..]) == ReturnAll(ReturnBorrow(g, s[i]), s[i + 1..])
    ensures Returnable(ReturnBorrow(g, s[i]), s)
  {
    assert s[i..][0] == s[i] && s[i..][1..] == s[i + 1..];
  }

  function Returned(r: OpRec, listed: bool): OpRec {
    if listed && r.flight.Flying? then r.(flight := r.flight.(mr := null)) else r
  }

  /** Returning the borrows of a list changes the regions of its operations and nothing else. */
  lemma {:induction false} ReturnAllShape(g: Graph, s: seq<Op>)
    ensures ReturnAll(g, s) == g.(ops := ReturnAll(g, s).ops)
    ensures ReturnAll(g, s).ops.Keys == g.ops.Keys
    ensures forall o | o in g.ops :: ReturnAll(g, s).ops[o] == Returned(g.ops[o], o in s)
    decreases |s|
  {
    if s != [] {
      ReturnAllShape(ReturnBorrow(g, s[0]), s[1..]);
      assert forall o | o in g.ops :: o in s <==> o == s[0] || o in s[1..];
    }
  }

  /** Retiring one queue restages it alone and keeps every list returnable. */
  lemma RetireShape(g: Graph, c: Cq)
    requires c in g.lists && Returnable(g, g.lists[c])
    ensures var g' := RetireCq(g, c);
      && g' == g.(stages := g.stages[c := Retired], ops := g'.ops)
      && g'.ops.Keys == g.ops.Keys
      && forall s :: Returnable(g, s) ==> Returnable(g', s)
  {
    ReturnAllShape(g.(stages := g.stages[c := Retired]), g.lists[c]);
  }

  /** Closing an endpoint: both queues retire, their operations lose their regions, nothing else moves. */
  ghost predicate EndpointRemoved(g: Graph, g': Graph, e: Endpoint)
    requires e.tx in g.lists && e.rx in g.lists
  {
    && g' == g.(eps := g.eps - {e}, stages := g.stages[e.tx := Retired][e.rx := Retired], ops := g'.ops)
    && g'.ops.Keys == g.ops.Keys
    && forall o | o in g.ops :: g'.ops[o] == Returned(g.ops[o], o in g.lists[e.tx] || o in g.lists[e.rx])
  }

  lemma RemoveEndpointShape(g: Graph, e: Endpoint)
    requires e.tx in g.lists && e.rx in g.lists
    ensures EndpointRemoved(g, RemoveEndpoint(g, e), e)
  {
    ReturnAllShape(g.(stages := g.stages[e.tx := Retired]), g.lists[e.tx]);
    var g1 := RetireCq(g, e.tx);
    ReturnAllShape(g1.(stages := g1.stages[e.rx := Retired]), g1.lists[e.rx]);
  }

  // ---------------------------------------------------------------- endpoints

  /** Operations in flight do not notice a change elsewhere in the graph. */
  lemma FlightFrame(g: Graph, g': Graph)
    requires Listed(g) && Borrowed(g) && Logged(g)
    requires g'.ops == g.ops && g'.log == g.log && g'.lists.Keys == g'.stages.Keys
    requires forall c | c in g.lists :: c in g'.lists && g'.lists[c] == g.lists[c]
    requires forall c | c in g'.lists && c !in g.lists :: g'.lists[c] == []
    requires forall c | c in g.stages && !g.stages[c].Unused? :: g'.stages[c] == g.stages[c]
    requires forall m | m in g.mrs && m !in g'.mrs :: BorrowersOf(g.ops, m) == {}
    ensures Listed(g') && Borrowed(g') && Logged(g')
  {
    assert Listed(g');
    forall o | o in g.ops && g.ops[o].flight.Flying?
      ensures BorrowOk(g', g.ops[o])
    {
      assert BorrowOk(g, g.ops[o]);
      if g.ops[o].flight.mr != null { assert o in BorrowersOf(g.ops, g.ops[o].flight.mr); }
    }
    forall o | o in g.ops && g.ops[o].flight.Flying?
      ensures TicketOk(g', o)
    {
      assert TicketOk(g, o);
    }
  }

  predicate Openable(g: Graph, e: Endpoint) {
    && e.domain in g.domains && e.eq in g.eqs && e.eq.fabric == e.domain.fabric
    && e.tx in g.stages && e.rx in g.stages && e.tx != e.rx
    && e.tx.domain == e.domain && e.rx.domain == e.domain
    && g.stages[e.tx].Unused? && g.stages[e.rx].Unused?
  }

  lemma AddEndpointStaged(g: Graph, e: Endpoint)
    requires Staged(g) && e !in g.eps && Openable(g, e)
    ensures Staged(AddEndpoint(g, e))
  {
    var g' := AddEndpoint(g, e);
    forall p | p in g.eps
      ensures p.tx in g'.stages && g'.stages[p.tx] == InUse(p) && p.rx in g'.stages && g'.stages[p.rx] == InUse(p)
    {
      assert g.stages[p.tx].InUse? && g.stages[p.rx].InUse?;
    }
  }

  lemma AddEndpointInv(g: Graph, e: Endpoint)
    requires Inv(g) && e !in g.eps && Openable(g, e)
    ensures Inv(AddEndpoint(g, e))
  {
    AddEndpointStaged(g, e);
    FlightFrame(g, AddEndpoint(g, e));
    assert Closed(AddEndpoint(g, e));
  }

  lemma EpFlagInv(g: Graph, g': Graph, e: Endpoint)
    requires Inv(g) && e in g.eps && (g' == SetReady(g, e) || g' == SetClosing(g, e))
    ensures Inv(g')
  {
    FlightFrame(g, g');
  }

  lemma StagedWithout(g: Graph, g': Graph, e: Endpoint)
    requires Staged(g) && e in g.eps && g'.eps == g.eps - {e}
    requires g'.stages == g.stages[e.tx := Retired][e.rx := Retired]
    ensures Staged(g')
  {
    forall p | p in g'.eps
      ensures p.tx in g'.stages && g'.stages[p.tx] == InUse(p)
      ensures p.rx in g'.stages && g'.stages[p.rx] == InUse(p)
    {
      assert p in g.eps && p != e;
    }
    forall c | c in g'.stages && g'.stages[c].InUse?
      ensures var p := g'.stages[c].ep; p in g'.eps && (c == p.tx || c == p.rx)
    {
      assert g'.stages[c] == g.stages[c];
    }
  }

  /** Returning borrows moves no operation. */
  lemma SameFlights(g: Graph, g': Graph)
    requires Listed(g) && Logged(g)
    requires g'.lists == g.lists && g'.stages.Keys == g.stages.Keys && g'.ops.Keys == g.ops.Keys && g'.log == g.log
    requires forall o | o in g.ops :: g'.ops[o] == g.ops[o] || g'.ops[o] == Returned(g.ops[o], true)
    ensures Listed(g') && Logged(g')
  {
    assert Listed(g') by {
      forall o | o in g'.ops && g'.ops[o].flight.Flying?
        ensures g'.ops[o].flight.cq in g'.lists && o in g'.lists[g'.ops[o].flight.cq]
      {
        assert g.ops[o].flight.Flying?;
      }
    }
    forall p | p in g'.ops && g'.ops[p].flight.Flying?
      ensures TicketOk(g', p)
    {
      assert TicketOk(g, p);
    }
  }

  lemma RemoveEndpointBorrowed(g: Graph, g': Graph, e: Endpoint)
    requires Listed(g) && Borrowed(g) && e.tx in g.lists && e.rx in g.lists && EndpointRemoved(g, g', e)
    ensures Borrowed(g')
  {
    forall o | o in g'.ops && g'.ops[o].flight.Flying?
      ensures BorrowOk(g', g'.ops[o])
    {
      assert BorrowOk(g, g.ops[o]) && o in g.lists[g.ops[o].flight.cq];
      if g.ops[o].flight.cq != e.tx && g.ops[o].flight.cq != e.rx {
        assert g'.ops[o] == g.ops[o];
      }
    }
  }

  lemma RemoveEndpointInv(g: Graph, e: Endpoint)
    requires Inv(g) && e in g.eps
    ensures Inv(RemoveEndpoint(g, e))
  {
    var g' := RemoveEndpoint(g, e);
    RemoveEndpointShape(g, e);
    StagedWithout(g, g', e);
    SameFlights(g, g');
    RemoveEndpointBorrowed(g, g', e);
    ClosedWithout(g, g');
  }

  lemma ClosedWithout(g: Graph, g': Graph)
    requires Closed(g) && g'.eps.Keys <= g.eps.Keys && g'.stages.Keys == g.stages.Keys
    requires g' == g.(eps := g'.eps, stages := g'.stages, lists := g'.lists, ops := g'.ops, log := g'.log)
    ensures Closed(g')
  {
  }

  lemma CloseEpInv(g: Graph, e: Endpoint, fi: int)
    requires Inv(g) && e in g.eps
    ensures Inv(CloseEp(g, e, fi).g)
    ensures CloseEp(g, e, fi) ==
      if fi != 0 then Outcome(SetClosing(g, e), fi) else Outcome(RemoveEndpoint(SetClosing(g, e), e), 0)
  {
    EpFlagInv(g, SetClosing(g, e), e);
    if fi == 0 {
      RemoveEndpointInv(SetClosing(g, e), e);
      assert CloseEp(g, e, fi).g == RemoveEndpoint(SetClosing(g, e), e);
    } else {
      assert CloseEp(g, e, fi).g == SetClosing(g, e);
    }
  }

  /** What the shim reads of a live endpoint before it takes the endpoint apart. */
  lemma EndpointParts(g: Graph, e: Endpoint)
    requires Inv(g) && e in g.eps
    ensures e.eq in g.eqs && e.domain in g.domains && e.tx != e.rx
    ensures e.tx in g.lists && e.rx in g.lists && e.tx in g.stages && e.rx in g.stages
    ensures g.stages[e.tx].InUse? && g.stages[e.rx].InUse?
    ensures Returnable(g, g.lists[e.tx]) && Returnable(g, g.lists[e.rx])
  {
    ListsReturnable(g);
  }

  lemma EndpointSetupInv(g: Graph, e: Endpoint, request: bool, fi: EpAnswers)
    requires Inv(g) && e !in g.eps && Openable(g, e)
    ensures Inv(EndpointSetup(g, e, request, fi))
  {
    var g1 := AddEndpoint(g, e);
    AddEndpointInv(g, e);
    if SetupCode(fi) == 0 {
      EpFlagInv(g1, SetReady(g1, e), e);
      assert EndpointSetup(g, e, request, fi) == SetReady(g1, e);
    } else if request {
      assert EndpointSetup(g, e, request, fi) == g1;
    } else {
      CloseEpInv(g1, e, fi.close);
      assert EndpointSetup(g, e, request, fi) == CloseEp(g1, e, fi.close).g;
    }
  }

  // ------------------------------------------------------------------- queues

  /** Nothing flies on a queue that no endpoint has used. */
  lemma UnusedEmpty(g: Graph, c: Cq)
    requires Listed(g) && Borrowed(g) && c in g.stages && g.stages[c].Unused?
    ensures g.lists[c] == []
  {
    forall o | o in g.ops
      ensures o !in g.lists[c]
    {
      if g.ops[o].flight.Flying? { assert BorrowOk(g, g.ops[o]); }
    }
    Memberless(g.lists[c]);
  }

  /** Closing a fresh endpoint again undoes its creation, but both its queues are spent. */
  lemma Rollback(g: Graph, e: Endpoint)
    requires Inv(g) && e !in g.eps && Openable(g, e)
    ensures e.tx in g.lists && e.rx in g.lists
    ensures CloseEp(AddEndpoint(g, e), e, 0) == Outcome(g.(stages := g.stages[e.tx := Retired][e.rx := Retired]), 0)
  {
    UnusedEmpty(g, e.tx);
    UnusedEmpty(g, e.rx);
    var g1 := SetClosing(AddEndpoint(g, e), e);
    RemoveEndpointShape(g1, e);
    var g' := RemoveEndpoint(g1, e);
    assert g'.ops == g.ops;
    assert g'.eps == g.eps;
    assert g'.stages == g.stages[e.tx := Retired][e.rx := Retired];
  }

  /** Discarding a list lands its operations and settles their submissions, and changes nothing else. */
  ghost predicate AllDiscarded(g: Graph, g': Graph, s: seq<Op>) {
    && g' == g.(ops := g'.ops, log := g'.log)
    && g'.ops.Keys == g.ops.Keys && |g'.log| == |g.log|
    && (forall o | o in g.ops :: g'.ops[o] == if o in s then g.ops[o].(flight := Idle) else g.ops[o])
    && (forall t | 0 <= t < |g.log| :: g'.log[t] ==
          if g.log[t].fate.Pending? && g.log[t].op in s then g.log[t].(fate := Discarded) else g.log[t])
  }

  lemma LandStep(g: Graph, g': Graph, s: seq<Op>)
    requires Logged(g) && NoDup(s) && s != [] && s[0] in g.ops && g.ops[s[0]].flight.Flying?
    requires AllDiscarded(Land(g, s[0], Discarded), g', s[1..])
    ensures AllDiscarded(g, g', s)
  {
    var o := s[0];
    assert TicketOk(g, o);
    var g1 := Land(g, o, Discarded);
    assert forall p :: p in s <==> p == o || p in s[1..];
    assert o !in s[1..];
    forall t | 0 <= t < |g.log|
      ensures g'.log[t] == if g.log[t].fate.Pending? && g.log[t].op in s then g.log[t].(fate := Discarded) else g.log[t]
    {
      assert g1.log[t] == if t == g.ops[o].flight.ticket then g.log[t].(fate := Discarded) else g.log[t];
    }
  }

  ghost predicate AllFlying(g: Graph, s: seq<Op>) {
    forall o | o in s :: o in g.ops && g.ops[o].flight.Flying?
  }

  lemma DiscardStep(g: Graph, s: seq<Op>)
    requires Logged(g) && NoDup(s) && AllFlying(g, s) && s != []
    ensures Logged(Land(g, s[0], Discarded)) && NoDup(s[1..]) && AllFlying(Land(g, s[0], Discarded), s[1..])
  {
    assert s[0] in s && TicketOk(g, s[0]);
    LandLogged(g, s[0], Discarded);
    forall o | o in s[1..]
      ensures o in s && o != s[0]
    {
    }
  }

  lemma {:induction false} DiscardAllLaws(g: Graph, s: seq<Op>)
    requires Logged(g) && NoDup(s) && AllFlying(g, s)
    ensures AllDiscarded(g, DiscardAll(g, s), s) && Logged(DiscardAll(g, s))
    decreases |s|
  {
    if s != [] {
      DiscardStep(g, s);
      assert s[0] in s;
      DiscardAllLaws(Land(g, s[0], Discarded), s[1..]);
      LandStep(g, DiscardAll(g, s), s);
    }
  }

  function DropCq(g: Graph, c: Cq): Graph {
    g.(stages := g.stages - {c}, lists := g.lists - {c})
  }

  /** Closing a queue discards its list and nothing else. */
  lemma CloseCqShape(g: Graph, c: Cq)
    requires Listed(g) && Logged(g) && c in g.lists
    ensures AllDiscarded(DropCq(g, c), Drained(g, c), g.lists[c]) && Logged(Drained(g, c))
  {
    var g1 := g.(lists := g.lists - {c});
    assert Logged(g1) by {
      forall o | o in g1.ops && g1.ops[o].flight.Flying? ensures TicketOk(g1, o) { assert TicketOk(g, o); }
    }
    DiscardAllLaws(g1, g.lists[c]);
    var g2 := DiscardAll(g1, g.lists[c]);
    forall o | o in g2.ops && g2.ops[o].flight.Flying? ensures TicketOk(Drained(g, c), o) { assert TicketOk(g2, o); }
  }

  /** From position `i` on, the operations of `s` fly, but on no list of the graph. */
  ghost predicate Loose(g: Graph, s: seq<Op>, i: nat) {
    forall j {:trigger s[j]} | i <= j < |s| ::
      && s[j] in g.ops && g.ops[s[j]].flight.Flying? && Unlisted(g, s[j])
      && g.ops[s[j]].flight.ticket < |g.log|
      && (g.ops[s[j]].flight.mr == null || g.ops[s[j]].flight.mr in g.mrs)
  }

  lemma ListLoose(g: Graph, c: Cq)
    requires Inv(g) && c in g.lists
    ensures c.domain in g.domains && NoDup(g.lists[c])
    ensures Loose(g.(lists := g.lists - {c}), g.lists[c], 0)
  {
    ListsReturnable(g);
    forall j | 0 <= j < |g.lists[c]|
      ensures Unlisted(g.(lists := g.lists - {c}), g.lists[c][j]) && TicketOk(g, g.lists[c][j])
    {
      AfterUnlink(g, c, g.lists[c][j], g.lists[c][j]);
    }
  }

  lemma LooseStep(g: Graph, s: seq<Op>, i: nat)
    requires i < |s| && NoDup(s) && Loose(g, s, i)
    ensures Loose(Land(g, s[i], Discarded), s, i + 1) && SameHandles(g, Land(g, s[i], Discarded))
    ensures DiscardAll(g, s[i..]) == DiscardAll(Land(g, s[i], Discarded), s[i + 1..])
  {
    assert s[i..][0] == s[i] && s[i..][1..] == s[i + 1..];
  }

  lemma CloseCqFlights(g: Graph, g': Graph, c: Cq)
    requires Listed(g) && Borrowed(g) && c in g.lists
    requires g'.lists == g.lists - {c} && g'.stages == g.stages - {c} && g'.mrs == g.mrs
    requires g'.ops.Keys == g.ops.Keys
    requires forall o | o in g.ops :: g'.ops[o] == if o in g.lists[c] then g.ops[o].(flight := Idle) else g.ops[o]
    ensures Listed(g') && Borrowed(g')
  {
    forall o | o in g'.ops && g'.ops[o].flight.Flying?
      ensures var f := g'.ops[o].flight; f.cq in g'.lists && o in g'.lists[f.cq] && BorrowOk(g', g'.ops[o])
    {
      assert o !in g.lists[c] && g'.ops[o] == g.ops[o] && g.ops[o].flight.cq != c;
      assert BorrowOk(g, g.ops[o]);
    }
    forall q, o | q in g'.lists && o in g'.lists[q]
      ensures o in g'.ops && g'.ops[o].flight.Flying? && g'.ops[o].flight.cq == q
    {
      assert g.ops[o].flight.cq == q != c;
    }
  }

  lemma DropCqStaged(g: Graph, g': Graph, c: Cq)
    requires Closed(g) && Staged(g) && c in g.stages && !g.stages[c].InUse?
    requires g' == g.(stages := g.stages - {c}, lists := g'.lists, ops := g'.ops, log := g'.log)
    ensures Closed(g') && Staged(g')
  {
    forall e | e in g.eps
      ensures e.tx != c && e.rx != c
    {
      assert g.stages[e.tx].InUse? && g.stages[e.rx].InUse?;
    }
  }

  lemma CloseCqInv(g: Graph, c: Cq)
    requires Inv(g) && c in g.lists && !g.stages[c].InUse?
    ensures Inv(Drained(g, c))
    ensures var g' := Drained(g, c); g' == DropCq(g, c).(ops := g'.ops, log := g'.log) && g'.ops.Keys == g.ops.Keys
  {
    CloseCqShape(g, c);
    CloseCqFlights(g, Drained(g, c), c);
    DropCqStaged(g, Drained(g, c), c);
  }

  lemma {:induction false} DiscardedRest(g: Graph, s: seq<Op>)
    ensures DiscardAll(g, s).stages == g.stages && DiscardAll(g, s).domains == g.domains
    decreases |s|
  {
    if s != [] { DiscardedRest(Land(g, s[0], Discarded), s[1..]); }
  }

  // ---------------------------------------------------------------- the rest

  /** Handles that join or leave around the operations in flight keep the invariant. */
  lemma SetsInv(g: Graph, g': Graph)
    requires Inv(g) && Closed(g')
    requires g'.ops == g.ops && g'.log == g.log && g'.eps == g.eps && g'.lists.Keys == g'.stages.Keys
    requires forall c | c in g.lists :: c in g'.lists && g'.lists[c] == g.lists[c] && g'.stages[c] == g.stages[c]
    requires forall c | c in g'.lists && c !in g.lists :: g'.lists[c] == [] && g'.stages[c] == Unused
    requires forall m | m in g.mrs && m !in g'.mrs :: BorrowersOf(g.ops, m) == {}
    ensures Inv(g')
  {
    FlightFrame(g, g');
  }

  lemma NewFabric(g: Graph, f: Fabric)
    requires Inv(g) && f !in g.fabrics
    ensures Inv(AddFabric(g, f)) && FabricKids(AddFabric(g, f), f) == 0
  {
    SetsInv(g, AddFabric(g, f));
    assert DomainsOf(g.domains, f) == {} && EqsOf(g.eqs, f) == {} && ListenersOf(g.listeners.Keys, f) == {};
  }

  lemma NewDomain(g: Graph, d: Domain)
    requires Inv(g) && d !in g.domains && d.fabric in g.fabrics
    ensures Inv(AddDomain(g, d)) && DomainKids(AddDomain(g, d), d) == 0
  {
    SetsInv(g, AddDomain(g, d));
    assert CqsOf(g.stages.Keys, d) == {} && EpsOf(g.eps.Keys, d) == {} && MrsOf(g.mrs, d) == {};
  }

  lemma NewEq(g: Graph, q: Eq)
    requires Inv(g) && q !in g.eqs && q.fabric in g.fabrics
    ensures Inv(AddEq(g, q)) && EqUsers(AddEq(g, q), q) == 0
  {
    SetsInv(g, AddEq(g, q));
    assert ListenersOn(g.listeners.Keys, q) == {} && EpsOn(g.eps.Keys, q) == {};
  }

  lemma NewListener(g: Graph, l: Listener)
    requires Inv(g) && l !in g.listeners && l.eq in g.eqs && l.fabric in g.fabrics && l.eq.fabric == l.fabric
    ensures Inv(AddListener(g, l))
  {
    SetsInv(g, AddListener(g, l));
  }

  lemma NewCq(g: Graph, c: Cq)
    requires Inv(g) && c !in g.stages && c.domain in g.domains
    ensures Inv(AddCq(g, c)) && c !in g.lists
  {
    SetsInv(g, AddCq(g, c));
  }

  /** Nobody borrows a region that is not registered yet. */
  lemma UnusedMr(g: Graph, m: Mr)
    requires Inv(g) && m !in g.mrs && m.domain in g.domains
    ensures BorrowersOf(g.ops, m) == {} && Inv(AddMr(g, m))
  {
    forall o | o in g.ops && g.ops[o].flight.Flying?
      ensures g.ops[o].flight.mr != m
    {
      assert BorrowOk(g, g.ops[o]);
    }
    SetsInv(g, AddMr(g, m));
  }

  lemma AddOpInv(g: Graph, o: Op)
    requires Inv(g) && o !in g.ops
    ensures Inv(AddOp(g, o))
  {
    OtherOps(g, AddOp(g, o));
  }

  lemma FreeOpInv(g: Graph, o: Op)
    requires Inv(g) && o in g.ops && g.ops[o].flight.Idle?
    ensures Inv(g.(ops := g.ops - {o}))
  {
    OtherOps(g, g.(ops := g.ops - {o}));
  }

  /** Idle operations may come and go. */
  lemma OtherOps(g: Graph, g': Graph)
    requires Listed(g) && Borrowed(g) && Logged(g) && g' == g.(ops := g'.ops)
    requires forall o | o in g.ops && g.ops[o].flight.Flying? :: o in g'.ops && g'.ops[o] == g.ops[o]
    requires forall o | o in g'.ops && g'.ops[o].flight.Flying? :: o in g.ops && g'.ops[o] == g.ops[o]
    ensures Listed(g') && Borrowed(g') && Logged(g')
  {
    forall o | o in g'.ops && g'.ops[o].flight.Flying?
      ensures BorrowOk(g', g'.ops[o]) && TicketOk(g', o)
    {
      assert BorrowOk(g, g.ops[o]) && TicketOk(g, o);
    }
    assert Listed(g');
  }

  /** Handles without dependants may leave together. */
  lemma DropInv(g: Graph, g': Graph)
    requires Inv(g)
    requires g' == g.(fabrics := g'.fabrics, domains := g'.domains, eqs := g'.eqs, listeners := g'.listeners,
      mrs := g'.mrs)
    requires g'.fabrics <= g.fabrics && g'.domains <= g.domains && g'.eqs <= g.eqs
    requires g'.listeners.Keys <= g.listeners.Keys && g'.mrs <= g.mrs
    requires forall m | m in g.mrs - g'.mrs :: BorrowersOf(g.ops, m) == {}
    requires forall q | q in g.eqs - g'.eqs :: ListenersOn(g.listeners.Keys, q) == {} && EpsOn(g.eps.Keys, q) == {}
    requires forall d | d in g.domains - g'.domains ::
      CqsOf(g.stages.Keys, d) == {} && EpsOf(g.eps.Keys, d) == {} && MrsOf(g.mrs, d) == {}
    requires forall f | f in g.fabrics - g'.fabrics ::
      DomainsOf(g.domains, f) == {} && EqsOf(g.eqs, f) == {} && ListenersOf(g.listeners.Keys, f) == {}
    ensures Inv(g')
  {
    forall l | l in g'.listeners ensures l.eq in g'.eqs && l.fabric in g'.fabrics {
      assert l in ListenersOn(g.listeners.Keys, l.eq) && l in ListenersOf(g.listeners.Keys, l.fabric);
    }
    forall e | e in g'.eps ensures e.eq in g'.eqs && e.domain in g'.domains {
      assert e in EpsOn(g.eps.Keys, e.eq) && e in EpsOf(g.eps.Keys, e.domain);
    }
    forall c | c in g'.stages ensures c.domain in g'.domains { assert c in CqsOf(g.stages.Keys, c.domain); }
    forall m | m in g'.mrs ensures m.domain in g'.domains { assert m in MrsOf(g.mrs, m.domain); }
    forall d | d in g'.domains ensures d.fabric in g'.fabrics { assert d in DomainsOf(g.domains, d.fabric); }
    forall q | q in g'.eqs ensures q.fabric in g'.fabrics { assert q in EqsOf(g.eqs, q.fabric); }
    SetsInv(g, g');
  }

  lemma CloseMrInv(g: Graph, m: Mr?, fi: int)
    requires Inv(g)
    ensures Inv(CloseMr(g, m, fi).g)
  {
    hide Inv;
    DropInv(g, CloseMr(g, m, fi).g);
  }

  lemma CloseListenerInv(g: Graph, l: Listener?, fi: int)
    requires Inv(g)
    ensures Inv(CloseListener(g, l, fi).g)
  {
    hide Inv;
    DropInv(g, CloseListener(g, l, fi).g);
  }

  lemma CloseEqInv(g: Graph, q: Eq?, fi: int)
    requires Inv(g)
    ensures Inv(CloseEq(g, q, fi).g)
  {
    hide Inv;
    DropInv(g, CloseEq(g, q, fi).g);
  }

  lemma CloseDomainInv(g: Graph, d: Domain?, fi: int)
    requires Inv(g)
    ensures Inv(CloseDomain(g, d, fi).g)
  {
    hide Inv;
    DropInv(g, CloseDomain(g, d, fi).g);
  }

  lemma CloseFabricInv(g: Graph, f: Fabric?, fi: int)
    requires Inv(g)
    ensures Inv(CloseFabric(g, f, fi).g)
  {
    hide Inv;
    DropInv(g, CloseFabric(g, f, fi).g);
  }

  // ------------------------------------------------------------- event queues

  /** Once a whole entry was read, its request information reaches the caller or is freed, never both and never
      neither; the caller gets it exactly with a request event.  Before that nothing is handed out or freed, and
      without memory for the request nothing is read at all. */
  lemma RequestInfo(eq: Eq?, alloc: bool, read: EqRead, error: EqReadErr)
    ensures var x, whole := EqPoll(eq, alloc, read, error), eq != null && alloc && read.ret >= CM_ENTRY_SIZE;
      && (x.event.info != null <==> x.ret == 1 && x.event.kind == RequestEvent)
      && (x.event.info == null || x.freed == null)
      && (whole && read.info != null ==> x.event.info == read.info || x.freed == read.info)
      && (!whole ==> x.event.info == null && x.freed == null)
      && (eq != null && !alloc ==> x == Quietly(-ENOMEM)) && x.ret <= 1
  {
  }
}
