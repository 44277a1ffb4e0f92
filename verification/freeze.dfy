/** Once an endpoint is closing its queues only drain, and a retired queue stays
    retired, with its operations pinned, until it is closed. */
module Freeze {
  import opened Handles
  import opened ResourceGraph
  import opened ShimSpec
  import opened GraphLaws
  import opened Runs
  import opened Ledger

  /** How a call may change the stage of a queue that some endpoint uses or used. */
  ghost predicate StageLaw(g: Graph, call: Call, c: Cq)
    requires Listed(g) && Legal(g, call) && c in g.stages
  {
    var g' := Do(g, call).g;
    || (c in g'.stages && g'.stages[c] == g.stages[c])
    || (c in g'.stages && g'.stages[c].Retired? && call.CloseEndpoint? && g.stages[c] == InUse(call.cep))
    || (c !in g'.stages && call.CloseQueue? && call.ccq == c && Do(g, call).ret == 0 && !g.stages[c].InUse?)
  }

  lemma RemovedStages(g: Graph, e: Endpoint, c: Cq)
    requires e.tx in g.lists && e.rx in g.lists && e in g.eps && c in g.stages && c != e.tx && c != e.rx
    ensures var g' := RemoveEndpoint(SetClosing(g, e), e); c in g'.stages && g'.stages[c] == g.stages[c]
  {
    RemoveEndpointShape(SetClosing(g, e), e);
  }

  lemma SetupStages(g: Graph, e: Endpoint, request: bool, fi: EpAnswers, c: Cq)
    requires Inv(g) && Legal(g, OpenEndpoint(e, request, fi)) && c in g.stages && !g.stages[c].Unused?
    ensures var g' := EndpointSetup(g, e, request, fi); c in g'.stages && g'.stages[c] == g.stages[c]
  {
    RemovedStages(AddEndpoint(g, e), e, c);
  }

  lemma CloseEpStages(g: Graph, e: Endpoint, c: Cq)
    requires Staged(g) && e in g.eps && e.tx in g.lists && e.rx in g.lists && c in g.stages
    ensures var g' := RemoveEndpoint(SetClosing(g, e), e);
      c in g'.stages && if g.stages[c] == InUse(e) then g'.stages[c] == Retired else g'.stages[c] == g.stages[c]
  {
    RemoveEndpointShape(SetClosing(g, e), e);
  }

  lemma CallStage(g: Graph, call: Call, c: Cq)
    requires Inv(g) && Legal(g, call) && c in g.stages && !g.stages[c].Unused?
    ensures StageLaw(g, call, c)
  {
    hide Closed, Staged, Listed, Borrowed, Logged, Drained, RemoveEndpoint;
    if call.OpenEndpoint? { SetupStages(g, call.ep, call.request, call.efi, c); }
    else if call.CloseEndpoint? { if call.cep != null { CloseEpStages(g, call.cep, c); } }
    else if call.CloseQueue? { if call.ccq != null { CloseCqShape(g, call.ccq); } }
  }

  /** Flags of an endpoint: `closing` is never cleared, and only a complete open sets `ready`. */
  lemma CallFlags(g: Graph, call: Call, e: Endpoint)
    requires Inv(g) && Legal(g, call) && e in g.eps
    ensures var g' := Do(g, call).g; e in g'.eps ==>
      && (g.eps[e].closing ==> g'.eps[e].closing)
      && (!g.eps[e].ready ==> !g'.eps[e].ready)
  {
    hide Closed, Staged, Listed, Borrowed, Logged, Drained, RemoveEndpoint;
    if call.OpenEndpoint? { RemoveEndpointShape(SetClosing(AddEndpoint(g, call.ep), call.ep), call.ep); }
    else if call.CloseEndpoint? { if call.cep != null { RemoveEndpointShape(SetClosing(g, call.cep), call.cep); } }
    else if call.CloseQueue? { if call.ccq != null { CloseCqShape(g, call.ccq); } }
  }

  /** The queue's endpoint is closing, even if its close failed, or already closed. */
  predicate Frozen(g: Graph, c: Cq) {
    c in g.stages && match g.stages[c]
      case Unused => false
      case InUse(e) => e in g.eps && g.eps[e].closing
      case Retired => true
  }

  /** `t` is `s` with some operations gone and none new. */
  ghost predicate Shrunk(s: seq<Op>, t: seq<Op>) {
    |t| <= |s| && forall o | o in t :: o in s
  }

  /** How a call may change the list of a queue that stays open. */
  ghost predicate ListLaw(g: Graph, call: Call, c: Cq)
    requires Listed(g) && Legal(g, call) && c in g.lists
  {
    var g' := Do(g, call).g;
    c in g'.lists ==>
      || g'.lists[c] == g.lists[c]
      || (call.PostCall? && call.pep != null && call.pep in g.eps && !g.eps[call.pep].closing
           && c == Target(call.pep, call.dir))
      || (call.Poll? && call.pcq == c && c in g.stages && !g.stages[c].Retired? && Shrunk(g.lists[c], g'.lists[c]))
  }

  lemma MatchList(g: Graph, c: Cq, context: Op?, len: U64, err: int, provErr: int, q: Cq)
    requires Inv(g) && c in g.lists && q in g.lists
    ensures var g' := Match(g, c, context, len, err, provErr).g;
      && q in g'.lists && (q != c ==> g'.lists[q] == g.lists[q]) && Shrunk(g.lists[q], g'.lists[q])
  {
    if context != null && context in g.lists[c] {
      var o: Op := context;
      RemoveLaws(g.lists[c], o);
      var done := Reported(c, Report(o.id, g.ops[o], len, err, provErr));
      forall p | p in Settle(g, c, o, done).lists[q] ensures p in g.lists[q] { SettleMember(g, c, o, done, q, p); }
    }
  }

  lemma CallList(g: Graph, call: Call, c: Cq)
    requires Inv(g) && Legal(g, call) && c in g.lists
    ensures ListLaw(g, call, c)
  {
    hide Closed, Staged, Listed, Borrowed, Logged, Drained, Shrunk;
    if call.Poll? {
      if call.pcq != null {
        MatchList(g, call.pcq, call.error.context, 0, call.error.err, call.error.provErr, c);
        MatchList(g, call.pcq, call.read.context, call.read.len, 0, 0, c);
      }
    }
    else if call.CloseQueue? { if call.ccq != null { CloseCqShape(g, call.ccq); } }
    else if Quiet(call) { QuietCalm(g, call); }
  }

  /** A post never reaches the queue of a closing endpoint. */
  lemma FrozenTarget(g: Graph, e: Endpoint, dir: Direction, c: Cq)
    requires Inv(g) && Frozen(g, c) && e in g.eps && !g.eps[e].closing
    ensures c != Target(e, dir)
  {
    assert g.stages[e.tx] == InUse(e) && g.stages[e.rx] == InUse(e);
  }

  /** Freeze and drain: the list of a frozen queue only shrinks, and the queue stays frozen until it is closed. */
  lemma FrozenStep(g: Graph, call: Call, c: Cq)
    requires Inv(g) && Legal(g, call) && Frozen(g, c)
    ensures var g' := Do(g, call).g; c in g'.stages ==>
      Frozen(g', c) && c in g.lists && c in g'.lists && Shrunk(g.lists[c], g'.lists[c])
  {
    hide Closed, Staged, Borrowed, Logged, Legal, Do;
    StepInv(g, call);
    CallStage(g, call, c);
    CallList(g, call, c);
    if g.stages[c].InUse? { StillClosing(g, call, g.stages[c].ep, c); }
    if call.PostCall? && call.pep != null && call.pep in g.eps && !g.eps[call.pep].closing {
      FrozenTarget(g, call.pep, call.dir, c);
    }
  }

  lemma StillClosing(g: Graph, call: Call, e: Endpoint, c: Cq)
    requires Inv(g) && Legal(g, call) && e in g.eps && g.eps[e].closing && c in g.stages && g.stages[c] == InUse(e)
    ensures var g' := Do(g, call).g; c in g'.stages && g'.stages[c] == InUse(e) ==> e in g'.eps && g'.eps[e].closing
  {
    hide Closed, Listed, Borrowed, Logged, Legal, Do;
    StepInv(g, call);
    CallFlags(g, call, e);
  }

  /** A retired queue keeps its list, all of it pinned, until closing it succeeds. */
  lemma RetiredStep(g: Graph, call: Call, c: Cq)
    requires Inv(g) && Legal(g, call) && c in g.stages && g.stages[c].Retired?
    ensures var g' := Do(g, call).g;
      || (c in g'.stages && g'.stages[c].Retired? && c in g.lists && c in g'.lists && g'.lists[c] == g.lists[c])
      || (c !in g'.stages && call.CloseQueue? && call.ccq == c && Do(g, call).ret == 0)
  {
    hide Closed, Staged, Borrowed, Logged, Legal, Do;
    StepInv(g, call);
    CallStage(g, call, c);
    CallList(g, call, c);
    if call.PostCall? && call.pep != null && call.pep in g.eps && !g.eps[call.pep].closing {
      FrozenTarget(g, call.pep, call.dir, c);
    }
  }

  /** No call of the run reopens the identity of `c`. */
  predicate NeverReopened(calls: seq<Call>, c: Cq) {
    forall i | 0 <= i < |calls| :: !(calls[i].OpenCq? && calls[i].cq == c)
  }

  lemma GoneStep(g: Graph, call: Call, c: Cq)
    requires Inv(g) && Legal(g, call) && c !in g.stages && !(call.OpenCq? && call.cq == c)
    ensures c !in Do(g, call).g.stages
  {
    hide Closed, Staged, Listed, Borrowed, Logged, Drained, RemoveEndpoint;
    if call.OpenEndpoint? {
      RemoveEndpointShape(SetClosing(AddEndpoint(g, call.ep), call.ep), call.ep);
    } else if call.CloseEndpoint? && call.cep != null {
      EndpointParts(g, call.cep);
      RemoveEndpointShape(SetClosing(g, call.cep), call.cep);
    } else if call.CloseQueue? && call.ccq != null {
      CloseCqShape(g, call.ccq);
    }
  }

  lemma {:induction false} GoneRun(g: Graph, calls: seq<Call>, c: Cq, i: nat)
    requires Inv(g) && LegalRun(g, calls) && i <= |calls| && c !in g.stages && NeverReopened(calls, c)
    ensures c !in At(g, calls, i).stages
    decreases |calls|
  {
    hide Closed, Staged, Listed, Borrowed, Logged, Legal, Do;
    if i > 0 {
      StepInv(g, calls[0]);
      GoneStep(g, calls[0], c);
      assert NeverReopened(calls[1..], c);
      GoneRun(Do(g, calls[0]).g, calls[1..], c, i - 1);
    }
  }

  /** What freezes the queues of an endpoint: a shutdown once it is ready, and any close, whatever the provider answers.
      From then on the endpoint refuses every message. */
  lemma FreezeBegins(g: Graph, call: Call, e: Endpoint)
    requires Inv(g) && Legal(g, call) && e in g.eps
    requires (call.ShutDown? && call.sep == e && g.eps[e].ready) || (call.CloseEndpoint? && call.cep == e)
    ensures var g' := Do(g, call).g;
      && Frozen(g', e.tx) && Frozen(g', e.rx)
      && (e in g'.eps ==> forall o, m, addr, len, dir, fi | LiveOp(g', o) && e.tx in g'.lists && e.rx in g'.lists ::
            PostMessage(g', e, o, m, addr, len, dir, fi) == Outcome(g', -EINVAL))
  {
    hide Closed, Listed, Borrowed, Logged, RemoveEndpoint;
    EndpointParts(g, e);
    RemoveEndpointShape(SetClosing(g, e), e);
  }

  /** Over any run a frozen queue is closed for good or frozen with a list that only lost operations. */
  lemma {:induction false} FrozenRun(g: Graph, calls: seq<Call>, c: Cq, i: nat)
    requires Inv(g) && LegalRun(g, calls) && i <= |calls| && Frozen(g, c) && NeverReopened(calls, c)
    ensures var g' := At(g, calls, i); c in g'.stages ==>
      Frozen(g', c) && c in g.lists && c in g'.lists && Shrunk(g.lists[c], g'.lists[c])
    decreases |calls|
  {
    hide Closed, Staged, Borrowed, Logged, Legal, Do;
    if i > 0 {
      StepInv(g, calls[0]);
      FrozenStep(g, calls[0], c);
      assert NeverReopened(calls[1..], c);
      if c in Do(g, calls[0]).g.stages {
        FrozenRun(Do(g, calls[0]).g, calls[1..], c, i - 1);
      } else {
        GoneRun(Do(g, calls[0]).g, calls[1..], c, i - 1);
      }
    }
  }

  /** A queue some endpoint uses or used cannot be given to another one, on either side. */
  lemma Unpairable(g: Graph, c: Cq)
    requires c in g.stages && c in g.lists && !g.stages[c].Unused?
    ensures forall domain, info, eq, other | LiveCq(g, other) ::
      EndpointGate(g, domain, info, eq, c, other) == -EINVAL && EndpointGate(g, domain, info, eq, other, c) == -EINVAL
  {
  }

  /** Once retired, a queue never reports and is never accepted for another endpoint, and the
      operations on its list refuse to be freed until it is closed. */
  lemma {:induction false} RetiredRun(g: Graph, calls: seq<Call>, c: Cq, i: nat)
    requires Inv(g) && LegalRun(g, calls) && i <= |calls| && NeverReopened(calls, c)
    requires c in g.stages && g.stages[c].Retired?
    ensures var g' := At(g, calls, i); c in g'.stages ==>
      && g'.stages[c].Retired? && c in g.lists && c in g'.lists && g'.lists[c] == g.lists[c]
      && (forall read, error :: CqPoll(g', c, read, error).ret == -EOPBADSTATE)
      && (forall o | o in g.lists[c] :: o in g'.ops && FreeOp(g', o) == Outcome(g', -EBUSY))
      && (forall domain, info, eq, other | LiveCq(g', other) ::
            EndpointGate(g', domain, info, eq, c, other) == -EINVAL
              && EndpointGate(g', domain, info, eq, other, c) == -EINVAL)
    decreases |calls|
  {
    hide Closed, Staged, Borrowed, Logged, Legal, Do, EndpointGate;
    if i > 0 {
      StepInv(g, calls[0]);
      RetiredStep(g, calls[0], c);
      assert NeverReopened(calls[1..], c);
      if c in Do(g, calls[0]).g.stages {
        RetiredRun(Do(g, calls[0]).g, calls[1..], c, i - 1);
      } else {
        GoneRun(Do(g, calls[0]).g, calls[1..], c, i - 1);
      }
    } else {
      Unpairable(g, c);
    }
  }

  // ----------------------------------------------------------------- borrows

  /** Region `m` is borrowed only by a new submission, and a borrow ends only when its own queue
      reports the operation or the endpoint of that queue is closed. */
  ghost predicate BorrowLaw(g: Graph, call: Call, m: Mr)
    requires Listed(g) && Legal(g, call)
  {
    var g' := Do(g, call).g;
    && (forall o | o in BorrowersOf(g'.ops, m) && o !in BorrowersOf(g.ops, m) ::
          call.PostCall? && Do(g, call).ret == 0 && call.pop == o && call.pmr == m
            && g'.ops[o].flight.ticket == |g.log|)
    && (forall o | o in BorrowersOf(g.ops, m) && o !in BorrowersOf(g'.ops, m) ::
          || (call.Poll? && call.pcq == g.ops[o].flight.cq && Do(g, call).ret == 1 && o in g'.ops
               && g'.ops[o].flight.Idle?)
          || (call.CloseEndpoint? && Do(g, call).ret == 0 && g.ops[o].flight.cq in g.stages
              && g.stages[g.ops[o].flight.cq] == InUse(call.cep)))
  }

  lemma MatchBorrow(g: Graph, c: Cq, context: Op?, len: U64, err: int, provErr: int)
    requires Inv(g) && c in g.lists
    ensures var x := Match(g, c, context, len, err, provErr);
      && x.g.ops.Keys == g.ops.Keys
      && forall o | o in g.ops && x.g.ops[o] != g.ops[o] ::
           x.ret == 1 && g.ops[o].flight.Flying? && g.ops[o].flight.cq == c && x.g.ops[o].flight.Idle?
  {
    if context != null && context in g.lists[c] { assert TicketOk(g, context); }
  }

  lemma PollBorrow(g: Graph, call: Call, m: Mr)
    requires Inv(g) && Legal(g, call) && call.Poll?
    ensures BorrowLaw(g, call, m)
  {
    hide Closed, Staged, Listed, Borrowed, Logged, Match;
    if call.pcq != null {
      MatchBorrow(g, call.pcq, call.error.context, 0, call.error.err, call.error.provErr);
      MatchBorrow(g, call.pcq, call.read.context, call.read.len, 0, 0);
    }
  }

  lemma CloseEpBorrow(g: Graph, e: Endpoint, m: Mr)
    requires Inv(g) && e in g.eps && e.tx in g.lists && e.rx in g.lists
    ensures var g' := RemoveEndpoint(SetClosing(g, e), e);
      && BorrowersOf(g'.ops, m) <= BorrowersOf(g.ops, m)
      && forall o | o in BorrowersOf(g.ops, m) && o !in BorrowersOf(g'.ops, m) ::
           g.ops[o].flight.cq in g.stages && g.stages[g.ops[o].flight.cq] == InUse(e)
  {
    RemoveEndpointShape(SetClosing(g, e), e);
  }

  /** A queue that closes has given every borrow back before. */
  lemma DrainedBorrow(g: Graph, c: Cq, m: Mr)
    requires Inv(g) && c in g.lists && !g.stages[c].InUse? && m in g.mrs
    ensures BorrowersOf(Drained(g, c).ops, m) == BorrowersOf(g.ops, m)
  {
    hide Drained;
    CloseCqShape(g, c);
    forall o | o in g.lists[c]
      ensures o in g.ops && g.ops[o].flight.Flying? && g.ops[o].flight.mr == null
    {
      assert BorrowOk(g, g.ops[o]);
    }
  }

  lemma QuietBorrow(g: Graph, call: Call, m: Mr)
    requires Inv(g) && Legal(g, call) && Quiet(call) && !call.CloseEndpoint? && m in g.mrs
    ensures BorrowersOf(Do(g, call).g.ops, m) == BorrowersOf(g.ops, m)
  {
    hide Closed, Staged, Listed, Borrowed, Logged, RemoveEndpoint;
    if call.OpenEndpoint? { Rollback(g, call.ep); }
  }

  /** A borrow is returned exactly once: by a report or by closing the endpoint, never by closing
      the queue, and the operation borrows again only under a new submission. */
  lemma CallBorrow(g: Graph, call: Call, m: Mr)
    requires Inv(g) && Legal(g, call) && m in g.mrs
    ensures BorrowLaw(g, call, m)
  {
    hide Closed, Staged, Listed, Borrowed, Logged, Drained, RemoveEndpoint;
    if call.Poll? { PollBorrow(g, call, m); }
    else if call.CloseQueue? { if call.ccq != null && !g.stages[call.ccq].InUse? { DrainedBorrow(g, call.ccq, m); } }
    else if call.CloseEndpoint? {
      if call.cep != null { CloseEpBorrow(g, call.cep, m); }
    }
    else if Quiet(call) { QuietBorrow(g, call, m); }
  }
}
