/** What becomes of a submission over any run of calls: it is counted, it keeps its
    data, and it meets one fate. */
module Ledger {
  import opened Handles
  import opened ResourceGraph
  import opened ShimSpec
  import opened GraphLaws
  import opened Runs

  /** Calls that neither start nor end a submission. */
  predicate Quiet(call: Call) { !call.PostCall? && !call.Poll? && !call.CloseQueue? }

  /** No operation takes off or lands, no list changes; borrows may come back. */
  ghost predicate Calm(g: Graph, g': Graph) {
    && g'.log == g.log
    && (forall o | o in g.ops && g.ops[o].flight.Flying? ::
          o in g'.ops && (g'.ops[o] == g.ops[o] || g'.ops[o] == Returned(g.ops[o], true)))
    && (forall o | o in g'.ops && g'.ops[o].flight.Flying? :: o in g.ops && g.ops[o].flight.Flying?)
    && (forall c | c in g.lists :: c in g'.lists && g'.lists[c] == g.lists[c])
  }

  lemma CloseEpCalm(g: Graph, e: Endpoint?, fi: int)
    requires LiveEp(g, e) && (e != null ==> e.tx in g.lists && e.rx in g.lists)
    ensures Calm(g, CloseEp(g, e, fi).g)
  {
    if e != null && fi == 0 { RemoveEndpointShape(SetClosing(g, e), e); }
  }

  lemma SameOpsCalm(g: Graph, g': Graph)
    requires g'.ops == g.ops && g'.log == g.log
    requires forall c | c in g.lists :: c in g'.lists && g'.lists[c] == g.lists[c]
    ensures Calm(g, g')
  {
  }

  lemma OpenCalm(g: Graph, call: Call)
    requires Inv(g) && Legal(g, call) && Opens(call)
    ensures Calm(g, Do(g, call).g)
  {
    hide Closed, Staged, Borrowed, Logged, Calm;
    if call.OpenEndpoint? { SetupCalm(g, call.ep, call.request, call.efi); }
    else if call.CreateOp? { IdleOpCalm(g, AddOp(g, call.op)); }
    else { SameOpsCalm(g, Do(g, call).g); }
  }

  lemma CloseCalm(g: Graph, call: Call)
    requires Inv(g) && Legal(g, call) && Closes(call)
    ensures Calm(g, Do(g, call).g)
  {
    hide Closed, Staged, Listed, Borrowed, Logged, Calm;
    SameOpsCalm(g, Do(g, call).g);
  }

  lemma QuietCalm(g: Graph, call: Call)
    requires Inv(g) && Legal(g, call) && Quiet(call)
    ensures Calm(g, Do(g, call).g)
  {
    hide Closed, Staged, Listed, Borrowed, Logged, Calm;
    match call
    case ShutDown(e, fi) => SameOpsCalm(g, Shutdown(g, e, fi).g);
    case CloseEndpoint(e, fi) => CloseEpCalm(g, e, fi);
    case Free(o) => IdleOpCalm(g, FreeOp(g, o).g);
    case _ => if Opens(call) { OpenCalm(g, call); } else { CloseCalm(g, call); }
  }

  lemma SetupCalm(g: Graph, e: Endpoint, request: bool, fi: EpAnswers)
    requires e.tx in g.lists && e.rx in g.lists
    ensures Calm(g, EndpointSetup(g, e, request, fi))
  {
    CloseEpCalm(AddEndpoint(g, e), e, fi.close);
  }

  lemma IdleOpCalm(g: Graph, g': Graph)
    requires g' == g.(ops := g'.ops)
    requires forall o | o in g.ops && g.ops[o].flight.Flying? :: o in g'.ops && g'.ops[o] == g.ops[o]
    requires forall o | o in g'.ops && g'.ops[o].flight.Flying? :: o in g.ops && g'.ops[o] == g.ops[o]
    ensures Calm(g, g')
  {
  }

  // ------------------------------------------------------------ conservation

  /** How many submissions a call adds to those in flight. */
  ghost function Balance(g: Graph, call: Call): int
    requires Listed(g) && Legal(g, call)
  {
    match call
    case PostCall(_, _, _, _, _, _, _) => if Do(g, call).ret == 0 then 1 else 0
    case Poll(_, _, _) => if Do(g, call).ret == 1 then -1 else 0
    case CloseQueue(c, _) => if c != null && Do(g, call).ret == 0 then -|g.lists[c]| else 0
    case _ => 0
  }

  /** Whether the operation is in flight when its call returned `ret`. */
  lemma PostBalance(g: Graph, call: Call)
    requires Inv(g) && Legal(g, call) && call.PostCall?
    ensures |FlyingOps(Do(g, call).g)| == |FlyingOps(g)| + Balance(g, call)
  {
    hide Closed, Staged, Listed, Borrowed, Logged;
    if Do(g, call).ret == 0 {
      assert FlyingOps(Do(g, call).g) == FlyingOps(g) + {call.pop};
    } else {
      assert Do(g, call).g == g;
    }
  }

  lemma MatchFlights(g: Graph, c: Cq, context: Op?, len: U64, err: int, provErr: int)
    requires Inv(g) && c in g.lists
    ensures var m := Match(g, c, context, len, err, provErr);
      && (m.ret == 1 || m.ret == -EIO)
      && (m.ret != 1 ==> m.g == g)
      && |FlyingOps(m.g)| == |FlyingOps(g)| - if m.ret == 1 then 1 else 0
  {
    if context != null && context in g.lists[c] {
      assert TicketOk(g, context);
      assert FlyingOps(Match(g, c, context, len, err, provErr).g) == FlyingOps(g) - {context};
    }
  }

  lemma PollBalance(g: Graph, call: Call)
    requires Inv(g) && Legal(g, call) && call.Poll?
    ensures |FlyingOps(Do(g, call).g)| == |FlyingOps(g)| + Balance(g, call)
  {
    hide Closed, Staged, Listed, Borrowed, Logged, FlyingOps;
    if call.pcq != null {
      MatchFlights(g, call.pcq, call.error.context, 0, call.error.err, call.error.provErr);
      MatchFlights(g, call.pcq, call.read.context, call.read.len, 0, 0);
    }
  }

  lemma {:induction false} SetOfList(s: seq<Op>)
    requires NoDup(s)
    ensures |set o | o in s| == |s|
  {
    if s != [] {
      SetOfList(s[1..]);
      assert (set o | o in s) == {s[0]} + set o | o in s[1..];
    }
  }

  lemma DrainedFlights(g: Graph, c: Cq)
    requires Listed(g) && Logged(g) && c in g.lists
    ensures |FlyingOps(Drained(g, c))| == |FlyingOps(g)| - |g.lists[c]|
  {
    hide Drained, Logged;
    CloseCqShape(g, c);
    SetOfList(g.lists[c]);
    var gone := set o | o in g.lists[c];
    assert gone <= FlyingOps(g);
    assert FlyingOps(Drained(g, c)) == FlyingOps(g) - gone;
  }

  lemma CloseQueueBalance(g: Graph, call: Call)
    requires Inv(g) && Legal(g, call) && call.CloseQueue?
    ensures |FlyingOps(Do(g, call).g)| == |FlyingOps(g)| + Balance(g, call)
  {
    hide Closed, Staged, Listed, Borrowed, Logged, Drained, FlyingOps;
    if call.ccq != null { DrainedFlights(g, call.ccq); }
  }

  /** Conservation: each post that succeeds, each poll that reports and each queue that
      closes accounts for its submissions; nothing else changes what is in flight. */
  lemma Conserved(g: Graph, call: Call)
    requires Inv(g) && Legal(g, call)
    ensures |FlyingOps(Do(g, call).g)| == |FlyingOps(g)| + Balance(g, call)
  {
    hide Closed, Staged, Listed, Borrowed, Logged;
    if call.PostCall? { PostBalance(g, call); }
    else if call.Poll? { PollBalance(g, call); }
    else if call.CloseQueue? { CloseQueueBalance(g, call); }
    else {
      QuietCalm(g, call);
      assert FlyingOps(Do(g, call).g) == FlyingOps(g);
    }
  }

  ghost function PendingTickets(g: Graph): set<nat> { set t: nat | t < |g.log| && g.log[t].fate.Pending? }

  lemma {:induction false} SameSize(g: Graph, os: set<Op>, ts: set<nat>)
    requires forall o | o in os :: o in g.ops && g.ops[o].flight.Flying? && g.ops[o].flight.ticket in ts
    requires forall o | o in os :: g.ops[o].flight.ticket < |g.log| && g.log[g.ops[o].flight.ticket].op == o
    requires forall t | t in ts :: t < |g.log| && g.log[t].op in os && g.ops[g.log[t].op].flight.ticket == t
    ensures |os| == |ts|
  {
    if os == {} {
      assert ts == {};
    } else {
      var o :| o in os;
      SameSize(g, os - {o}, ts - {g.ops[o].flight.ticket});
    }
  }

  /** Every post that succeeded is pending, reported or discarded, and the pending ones
      are as many as the operations in flight. */
  lemma PendingInFlight(g: Graph)
    requires Inv(g)
    ensures |PendingTickets(g)| == |FlyingOps(g)|
  {
    hide Closed, Staged, Listed, Borrowed;
    forall o | o in FlyingOps(g)
      ensures TicketOk(g, o)
    {
    }
    SameSize(g, FlyingOps(g), PendingTickets(g));
  }

  ghost function Balances(g: Graph, calls: seq<Call>): int
    requires Inv(g) && LegalRun(g, calls)
    decreases |calls|
  {
    if calls == [] then 0
    else (StepInv(g, calls[0]); Balance(g, calls[0]) + Balances(Do(g, calls[0]).g, calls[1..]))
  }

  lemma {:induction false} ConservedRun(g: Graph, calls: seq<Call>)
    requires Inv(g) && LegalRun(g, calls)
    ensures |FlyingOps(Exec(g, calls))| == |FlyingOps(g)| + Balances(g, calls)
    decreases |calls|
  {
    hide Closed, Staged, Listed, Borrowed, Logged;
    if calls != [] {
      StepInv(g, calls[0]);
      Conserved(g, calls[0]);
      ConservedRun(Do(g, calls[0]).g, calls[1..]);
    }
  }

  // ------------------------------------------------------------------- fates

  /** The call reports submission `p`: a poll of its own queue returned 1 with exactly this record. */
  ghost predicate Reports(g: Graph, call: Call, p: Post, p': Post)
    requires Listed(g) && Legal(g, call)
  {
    && call.Poll? && call.pcq == p.cq && Do(g, call).ret == 1
    && var out := CqPoll(g, call.pcq, call.read, call.error).out;
       p' == p.(fate := Reported(p.cq, out)) && out.opId == p.op.id && out.flags == p.dir
  }

  /** The call discards submission `p`: its queue, no longer attached, was closed. */
  ghost predicate Discards(g: Graph, call: Call, p: Post, p': Post)
    requires Listed(g) && Legal(g, call)
  {
    && call.CloseQueue? && call.ccq == p.cq && Do(g, call).ret == 0 && !g.stages[p.cq].InUse?
    && p' == p.(fate := Discarded)
  }

  /** A call adds at most one entry, at the end; an old entry stays or meets its first fate. */
  ghost predicate LogStep(g: Graph, call: Call)
    requires Listed(g) && Legal(g, call)
  {
    var log, log' := g.log, Do(g, call).g.log;
    && |log'| == |log| + (if call.PostCall? && Do(g, call).ret == 0 then 1 else 0)
    && forall t | 0 <= t < |log| ::
         || log'[t] == log[t]
         || (log[t].fate.Pending? && (Reports(g, call, log[t], log'[t]) || Discards(g, call, log[t], log'[t])))
  }

  lemma MatchFate(g: Graph, c: Cq, context: Op?, len: U64, err: int, provErr: int)
    requires Inv(g) && c in g.lists
    ensures var m := Match(g, c, context, len, err, provErr);
      && |m.g.log| == |g.log|
      && forall t | 0 <= t < |g.log| :: m.g.log[t] != g.log[t] ==>
           && m.ret == 1 && g.log[t].fate.Pending? && g.log[t].cq == c
           && m.g.log[t] == g.log[t].(fate := Reported(c, m.out))
           && m.out.opId == g.log[t].op.id && m.out.flags == g.log[t].dir
  {
    if context != null && context in g.lists[c] { assert TicketOk(g, context); }
  }

  lemma PollLog(g: Graph, call: Call)
    requires Inv(g) && Legal(g, call) && call.Poll?
    ensures LogStep(g, call)
  {
    hide Closed, Staged, Listed, Borrowed, Logged;
    if call.pcq != null {
      MatchFate(g, call.pcq, call.error.context, 0, call.error.err, call.error.provErr);
      MatchFate(g, call.pcq, call.read.context, call.read.len, 0, 0);
    }
  }

  /** The provider named a completed context: in an entry, or in an error entry. */
  predicate Named(read: CqRead, error: CqReadErr) {
    if read.ret == -EAVAIL then error.ret > 0 else read.ret > 0
  }

  function NamedContext(read: CqRead, error: CqReadErr): Op? {
    if read.ret == -EAVAIL then error.context else read.context
  }

  /** A poll reports exactly when the provider named a context on the queue's own list.  A stale or foreign
      one is an I/O error; in every case without a report the graph is as before.  A report carries the
      provider's error, or none if it came as a plain completion, and the length that goes with it; the log
      remembers the very same.  Every other answer of the provider is passed on. */
  lemma PollReports(g: Graph, c: Cq, read: CqRead, error: CqReadErr)
    requires Inv(g) && LiveCq(g, c)
    ensures var x, o := CqPoll(g, c, read, error), NamedContext(read, error);
      && (x.ret == 1 <==> !g.stages[c].Retired? && Named(read, error) && o != null && o in g.lists[c])
      && (x.ret != 1 ==> x.g == g)
      && (!g.stages[c].Retired? && Named(read, error) && (o == null || o !in g.lists[c]) ==> x.ret == -EIO)
      && (x.ret == 1 ==>
           o in g.ops && x.out.opId == o.id && x.out.flags == g.ops[o].dir
             && !(o in x.g.ops && x.g.ops[o].flight.Flying?))
      && (x.ret == 1 ==>
           && x.out.err == (if read.ret == -EAVAIL then error.err else 0)
           && x.out.provErr == (if read.ret == -EAVAIL then error.provErr else 0)
           && x.out.len == (if x.out.err != 0 then 0
                            else if g.ops[o].dir == Send then g.ops[o].len
                            else if read.ret == -EAVAIL then 0 else read.len)
           && x.g.log == g.log[g.ops[o].flight.ticket := g.log[g.ops[o].flight.ticket].(fate := Reported(c, x.out))])
    ensures var ret := CqPoll(g, c, read, error).ret;
      && (g.stages[c].Retired? ==> ret == -EOPBADSTATE)
      && (!g.stages[c].Retired? ==>
           && (read.ret == 0 || read.ret == -EAGAIN ==> ret == 0)
           && (read.ret < 0 && read.ret != -EAGAIN && read.ret != -EAVAIL ==> ret == read.ret)
           && (read.ret == -EAVAIL && (error.ret == 0 || error.ret == -EAGAIN) ==> ret == 0)
           && (read.ret == -EAVAIL && error.ret < 0 && error.ret != -EAGAIN ==> ret == error.ret))
  {
    hide Closed, Staged, Borrowed;
    var o := NamedContext(read, error);
    if o != null && o in g.lists[c] { assert TicketOk(g, o); }
  }

  lemma DrainedLog(g: Graph, c: Cq)
    requires Listed(g) && Logged(g) && c in g.lists
    ensures |Drained(g, c).log| == |g.log|
    ensures forall t | 0 <= t < |g.log| :: Drained(g, c).log[t] != g.log[t] ==>
      g.log[t].fate.Pending? && g.log[t].cq == c && Drained(g, c).log[t] == g.log[t].(fate := Discarded)
  {
    hide Drained;
    CloseCqShape(g, c);
    forall t | 0 <= t < |g.log| && g.log[t].fate.Pending? && g.log[t].op in g.lists[c]
      ensures g.log[t].cq == c
    {
      assert TicketOk(g, g.log[t].op);
    }
  }

  lemma CallLog(g: Graph, call: Call)
    requires Inv(g) && Legal(g, call)
    ensures LogStep(g, call)
  {
    hide Closed, Staged, Listed, Borrowed, Logged, Drained;
    if call.Poll? { PollLog(g, call); }
    else if call.CloseQueue? { if call.ccq != null { DrainedLog(g, call.ccq); } }
    else if Quiet(call) { QuietCalm(g, call); }
  }

  /** The state before call `i` of a run. */
  ghost function At(g: Graph, calls: seq<Call>, i: nat): (g': Graph)
    requires Inv(g) && LegalRun(g, calls) && i <= |calls|
    ensures Inv(g') && (i < |calls| ==> Legal(g', calls[i]))
    decreases |calls|
  {
    if i == 0 then g else (StepInv(g, calls[0]); At(Do(g, calls[0]).g, calls[1..], i - 1))
  }

  /** The one call of a run after which submission `t` is no longer pending; `|calls|` if there is none. */
  ghost predicate Settles(g: Graph, calls: seq<Call>, t: nat, i: nat)
    requires Inv(g) && LegalRun(g, calls) && t < |g.log|
  {
    && i <= |calls|
    && (forall j | 0 <= j <= i :: |g.log| <= |At(g, calls, j).log| && At(g, calls, j).log[t] == g.log[t])
    && (i < |calls| ==>
          var g1, g2 := At(g, calls, i), At(g, calls, i + 1);
          |g.log| <= |g2.log|
            && (Reports(g1, calls[i], g.log[t], g2.log[t]) || Discards(g1, calls[i], g.log[t], g2.log[t]))
          && forall j | i < j <= |calls| :: |g.log| <= |At(g, calls, j).log| && At(g, calls, j).log[t] == g2.log[t])
  }

  /** An entry that met its fate never changes again. */
  lemma {:induction false} FateStays(g: Graph, calls: seq<Call>, t: nat, j: nat)
    requires Inv(g) && LegalRun(g, calls) && t < |g.log| && !g.log[t].fate.Pending? && j <= |calls|
    ensures |g.log| <= |At(g, calls, j).log| && At(g, calls, j).log[t] == g.log[t]
    decreases |calls|
  {
    hide Closed, Staged, Listed, Borrowed, Logged;
    if j != 0 {
      StepInv(g, calls[0]);
      CallLog(g, calls[0]);
      FateStays(Do(g, calls[0]).g, calls[1..], t, j - 1);
    }
  }

  lemma SettlesLater(g: Graph, calls: seq<Call>, g1: Graph, t: nat, k: nat)
    requires Inv(g) && LegalRun(g, calls) && calls != [] && t < |g.log|
    requires Inv(g1) && g1 == Do(g, calls[0]).g && LegalRun(g1, calls[1..])
    requires |g.log| <= |g1.log| && g1.log[t] == g.log[t] && Settles(g1, calls[1..], t, k)
    ensures Settles(g, calls, t, k + 1)
  {
    hide Inv, Legal, Do, Reports, Discards;
    forall j | 0 < j <= |calls|
      ensures At(g, calls, j) == At(g1, calls[1..], j - 1)
    {
    }
    assert k < |calls[1..]| ==> calls[k + 1] == calls[1..][k];
  }

  /** Over any run a pending submission stays as it is until one call settles it,
      by a report of its own queue or by closing that queue, and for good. */
  lemma {:induction false} OneFate(g: Graph, calls: seq<Call>, t: nat) returns (i: nat)
    requires Inv(g) && LegalRun(g, calls) && t < |g.log| && g.log[t].fate.Pending?
    ensures Settles(g, calls, t, i)
    decreases |calls|
  {
    hide Closed, Staged, Listed, Borrowed, Logged;
    if calls == [] {
      i := 0;
    } else {
      StepInv(g, calls[0]);
      CallLog(g, calls[0]);
      var g1, rest := Do(g, calls[0]).g, calls[1..];
      if g1.log[t].fate.Pending? {
        var k := OneFate(g1, rest, t);
        i := k + 1;
        SettlesLater(g, calls, g1, t, k);
      } else {
        i := 0;
        forall j | 0 < j <= |calls|
          ensures |g.log| <= |At(g, calls, j).log| && At(g, calls, j).log[t] == g1.log[t]
        {
          FateStays(g1, rest, t, j - 1);
        }
        assert At(g, calls, 0) == g && At(g, calls, 1) == At(g1, rest, 0) == g1;
      }
    }
  }
}
