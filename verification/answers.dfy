/** The codes and results of the main calls, case by case on the fields the caller and the provider fill in. */
module Answers {
  import opened Handles
  import opened ResourceGraph
  import opened ShimSpec
  import opened Ownership
  import opened Transport

  /** The first code from `i` on that is not zero. */
  function FirstFailure(codes: seq<int>, i: nat): int
    decreases |codes| - i
  {
    if i >= |codes| then 0 else if codes[i] != 0 then codes[i] else FirstFailure(codes, i + 1)
  }

  lemma Peel(codes: seq<int>, i: nat)
    requires i < |codes|
    ensures FirstFailure(codes, i) == Then(codes[i], FirstFailure(codes, i + 1))
  {
  }

  /** The last four codes, starting at `i`, peeled off one by one. */
  lemma PeelFour(codes: seq<int>, i: nat)
    requires i + 4 <= |codes|
    ensures FirstFailure(codes, i) ==
      Then(codes[i], Then(codes[i + 1], Then(codes[i + 2], Then(codes[i + 3], FirstFailure(codes, i + 4)))))
  {
    Peel(codes, i);
    Peel(codes, i + 1);
    Peel(codes, i + 2);
    Peel(codes, i + 3);
  }

  // ------------------------------------------------------------------ the shim

  /** The three access masks a region can have: send, receive, both. */
  lemma RegistrableMasks(buf: U64, capacity: U64, access: bv32)
    ensures Registrable(buf, capacity, access) <==>
      buf != 0 && capacity != 0 && (access == 1 || access == 2 || access == 3)
  {
    assert access & !3 == 0 ==> access == 0 || access == 1 || access == 2 || access == 3;
  }

  /** Send needs bit 0 of the mask, receive bit 1. */
  lemma AccessBits(access: bv32)
    ensures Allows(access, Send) <==> access % 2 == 1
    ensures Allows(access, Recv) <==> (access / 2) % 2 == 1
  {
  }

  /** The shim can serve an endpoint whose only mode bits are 55 and 59, and whose operations are reported unasked. */
  lemma SupportedModes(info: Info)
    ensures info.supported <==>
      && (info.mode == 0 || info.mode == 0x80_0000_0000_0000 || info.mode == 0x800_0000_0000_0000
          || info.mode == 0x880_0000_0000_0000)
      && info.txFlags == 0 && info.rxFlags == 0
  {
  }

  /** A composite open returns the code of its first failing step. */
  lemma EndpointOrder(gate: int, alloc: bool, fi: EpAnswers)
    ensures Opened(gate, alloc, Then(fi.endpoint, SetupCode(fi))) ==
      FirstFailure([gate, if alloc then 0 else -ENOMEM, fi.endpoint, fi.bindEq, fi.bindTx, fi.bindRx, fi.enable], 0)
  {
    var codes := [gate, if alloc then 0 else -ENOMEM, fi.endpoint, fi.bindEq, fi.bindTx, fi.bindRx, fi.enable];
    PeelFour(codes, 3);
    Peel(codes, 2);
    Peel(codes, 1);
    Peel(codes, 0);
  }

  lemma ListenerOrder(gate: int, alloc: bool, fi: ListenerAnswers)
    ensures Opened(gate, alloc, Then(fi.pep, Then(fi.bind, fi.listen))) ==
      FirstFailure([gate, if alloc then 0 else -ENOMEM, fi.pep, fi.bind, fi.listen], 0)
  {
    var codes := [gate, if alloc then 0 else -ENOMEM, fi.pep, fi.bind, fi.listen];
    PeelFour(codes, 1);
    Peel(codes, 0);
  }

  /** Why a post between live handles is refused: in this order the endpoint or its domain does not fit, the operation
      is in
      flight, the region does not allow the direction, the range leaves the region or exceeds the endpoint's limit, the
      direction's own queue is full.  Otherwise the provider decides, and only its agreement changes anything. */
  lemma PostRefusals(g: Graph, e: Endpoint, o: Op, m: Mr, addr: U64, len: U64, dir: Direction, fi: int)
    requires e in g.eps && o in g.ops && e.tx in g.lists && e.rx in g.lists && (dir == Send || dir == Recv)
    ensures var x, c := PostMessage(g, e, o, m, addr, len, dir, fi), if dir == Recv then e.rx else e.tx;
      var unfit := addr == 0 || !g.eps[e].ready || g.eps[e].closing || m.domain != e.domain;
      var denied := if dir == Send then m.access % 2 == 0 else (m.access / 2) % 2 == 0;
      var outside := addr < m.buffer || addr + len > m.buffer + m.capacity || len > e.maxMsg;
      && (unfit ==> x.ret == -EINVAL)
      && (!unfit && Flies(g, o) ==> x.ret == -EBUSY)
      && (!unfit && !Flies(g, o) && denied ==> x.ret == -EACCES)
      && (!unfit && !Flies(g, o) && !denied && outside ==> x.ret == -EINVAL)
      && (!unfit && !Flies(g, o) && !denied && !outside && |g.lists[c]| >= c.capacity ==> x.ret == -EAGAIN)
      && (!unfit && !Flies(g, o) && !denied && !outside && |g.lists[c]| < c.capacity ==> x.ret == fi)
      && (x.ret != 0 ==> x.g == g)
      && (x.ret == 0 ==>
           && x.g.lists == g.lists[c := [o] + g.lists[c]] && x.g.log == g.log + [Post(o, c, dir, len, Pending)]
           && x.g.ops == g.ops[o := OpRec(dir, len, Flying(c, m, addr, |g.log|))])
  {
    AccessBits(m.access);
    hide Allows;
  }

  /** A post without an endpoint, an operation or a region is invalid. */
  lemma PostNothing(g: Graph, e: Endpoint?, o: Op?, m: Mr?, addr: U64, len: U64, dir: Direction, fi: int)
    requires LiveEp(g, e) && LiveOp(g, o) && (e != null ==> e.tx in g.lists && e.rx in g.lists)
    requires e == null || o == null || m == null
    ensures PostMessage(g, e, o, m, addr, len, dir, fi) == Outcome(g, -EINVAL)
  {
  }

  /** Why an endpoint is refused before the provider is asked: a null or foreign handle, one queue for both sides, or
      a queue
      that was ever used is invalid; after that, information the shim cannot serve is not supported. */
  lemma EndpointRefusals(g: Graph, domain: Domain?, info: Info?, eq: Eq?, tx: Cq?, rx: Cq?)
    requires LiveCq(g, tx) && LiveCq(g, rx)
    ensures var code := EndpointGate(g, domain, info, eq, tx, rx);
      && (domain == null || info == null || eq == null || tx == null || rx == null ==> code == -EINVAL)
      && (domain != null && info != null && eq != null && tx != null && rx != null ==>
           var wrong := tx == rx || tx.domain != domain || rx.domain != domain || eq.fabric != domain.fabric;
           var spent := g.stages[tx] != Unused || g.stages[rx] != Unused;
           && (wrong || spent ==> code == -EINVAL)
           && (!wrong && !spent ==> code == if info.supported then 0 else -ENOSYS))
  {
  }

  /** Why a listener is refused before the provider is asked. */
  lemma ListenerRefusals(fabric: Fabric?, info: Info?, eq: Eq?)
    ensures ListenerGate(fabric, info, eq) == 0 <==> fabric != null && info != null && eq != null && eq.fabric == fabric
    ensures ListenerGate(fabric, info, eq) != 0 ==> ListenerGate(fabric, info, eq) == -EINVAL
  {
  }

  /** A failed endpoint is handed out exactly if it belongs to a request, which must be rejected first, or cannot be
      closed. */
  lemma HandedOut(request: bool, fi: EpAnswers)
    ensures EndpointReturned(request, fi) <==>
      request || fi.close != 0 || (fi.bindEq == 0 && fi.bindTx == 0 && fi.bindRx == 0 && fi.enable == 0)
  {
  }

  /** What a read of an event queue says, entry by entry. */
  lemma EventTable(eq: Eq, alloc: bool, read: EqRead, error: EqReadErr)
    ensures var x, whole := EqPoll(eq, alloc, read, error), alloc && read.ret >= CM_ENTRY_SIZE;
      && (!alloc ==> x.ret == -ENOMEM)
      && (alloc && (read.ret == 0 || read.ret == -EAGAIN) ==> x.ret == 0)
      && (alloc && read.ret < 0 && read.ret != -EAGAIN && read.ret != -EAVAIL ==> x.ret == read.ret)
      && (alloc && read.ret == -EAVAIL && (error.ret == 0 || error.ret == -EAGAIN) ==> x.ret == 0)
      && (alloc && read.ret == -EAVAIL && error.ret < 0 && error.ret != -EAGAIN ==> x.ret == error.ret)
      && (alloc && read.ret == -EAVAIL && error.ret > 0 ==>
           x.ret == 1 && x.event == ConnectEvent(ErrorEvent, error.source, null, error.err, error.provErr))
      && (alloc && 0 < read.ret < CM_ENTRY_SIZE ==> x.ret == -EIO)
      && (whole && read.kind == ConnReq && read.info == null ==> x.ret == -EIO)
      && (whole && read.kind == ConnReq && read.info != null ==>
           x.ret == 1 && x.event == ConnectEvent(RequestEvent, read.source, read.info, 0, 0))
      && (whole && read.kind == CmKind.Connected ==>
           x.ret == 1 && x.event == ConnectEvent(ConnectedEvent, read.source, null, 0, 0))
      && (whole && read.kind == PeerShutdown ==>
           x.ret == 1 && x.event == ConnectEvent(ShutdownEvent, read.source, null, 0, 0))
      && (whole && read.kind == OtherCm ==> x.ret == -ENOSYS)
  {
  }

  // ------------------------------------------------------------- the transport

  /** A connection's setup returns the code of its first failing step, in the order of the calls. */
  lemma SetupOrder(supported: bool, a: InitAnswers)
    ensures InitCode(supported, a) == FirstFailure(SetupCodes(supported, a), 0)
  {
    var codes := SetupCodes(supported, a);
    PeelFour(codes, 16);
    PeelFour(codes, 12);
    PeelFour(codes, 8);
    PeelFour(codes, 4);
    PeelFour(codes, 0);
  }

  function Refused(alloc: bool): int { if alloc then 0 else -ENOMEM }

  function SetupCodes(supported: bool, a: InitAnswers): seq<int> {
    [Refused(a.domain.alloc), a.domain.fi, Refused(a.eq.alloc), a.eq.fi, Refused(a.txCq.alloc), a.txCq.fi,
     Refused(a.rxCq.alloc), a.rxCq.fi,
     if supported then Refused(a.ep.alloc) else -ENOSYS, a.ep.fi.endpoint, a.ep.fi.bindEq, a.ep.fi.bindTx,
     a.ep.fi.bindRx, a.ep.fi.enable,
     Refused(a.tx.mr.alloc), a.tx.mr.fi, Refused(a.tx.op), Refused(a.rx.mr.alloc), a.rx.mr.fi, Refused(a.rx.op)]
  }

  /** A submission that asks for repetition is not an error; any other refusal is, with its own code. */
  lemma SubmissionCodes(code: int)
    ensures Connection.Posted(code) == Ok(true) <==> code == 0
    ensures Connection.Posted(code) == Ok(false) <==> code == -EAGAIN
    ensures code != 0 && code != -EAGAIN ==> Connection.Posted(code) == Err(Code(code))
  {
  }

  /** A poll that finds nothing wrong while nothing is in flight. */
  predicate QuietPoll(a: PollAnswers) {
    && EntryQuiet(a.tx.read, a.tx.error) && EntryQuiet(a.rx.read, a.rx.error)
    && (EventsFine(a.eq, []) || EventsFine(a.eq, [ConnectedNow]) || EventsFine(a.eq, [PeerClosed]))
  }

  /** A round after which the first receive is tried again: the provider asked for it, there is time, and the poll is
      quiet. */
  predicate TriedAgain(round: Round) { round.fi == -EAGAIN && !round.expired && QuietPoll(round.poll) }

  lemma RoundAnswers(maxMsg: U64, round: Round)
    ensures var r := RoundResult(maxMsg, round);
      && (maxMsg < BUFFER_SIZE ==> r == Err(Code(-EINVAL)))
      && (maxMsg >= BUFFER_SIZE && round.fi == 0 ==> r == Ok(true))
      && (maxMsg >= BUFFER_SIZE && round.fi != 0 && round.fi != -EAGAIN ==> r == Err(Code(round.fi)))
      && (maxMsg >= BUFFER_SIZE && round.fi == -EAGAIN && round.expired ==> r == Err(TimedOut))
      && (maxMsg >= BUFFER_SIZE && round.fi == -EAGAIN && !round.expired ==>
           (r == Ok(false) <==> QuietPoll(round.poll)) && r != Ok(true))
  {
  }

  /** The first receive is posted exactly if the endpoint takes whole buffers and the provider, asking for repetition
      until
      then, agrees in time; an endpoint that does not, another code, or the deadline is the error. */
  lemma {:induction false} ReceiveEnds(maxMsg: U64, rounds: seq<Round>, i: nat)
    requires i <= |rounds| && forall j | 0 <= j < i :: TriedAgain(rounds[j])
    ensures maxMsg < BUFFER_SIZE && rounds != [] ==> ReceiveResult(maxMsg, rounds) == Err(Code(-EINVAL))
    ensures maxMsg >= BUFFER_SIZE && i == |rounds| ==> ReceiveResult(maxMsg, rounds) == Err(TimedOut)
    ensures maxMsg >= BUFFER_SIZE && i < |rounds| && rounds[i].fi == 0 ==> ReceiveResult(maxMsg, rounds) == Ok(())
    ensures maxMsg >= BUFFER_SIZE && i < |rounds| && rounds[i].fi != 0 && rounds[i].fi != -EAGAIN ==>
      ReceiveResult(maxMsg, rounds) == Err(Code(rounds[i].fi))
    ensures maxMsg >= BUFFER_SIZE && i < |rounds| && rounds[i].fi == -EAGAIN && rounds[i].expired ==>
      ReceiveResult(maxMsg, rounds) == Err(TimedOut)
    ensures (maxMsg >= BUFFER_SIZE && i < |rounds| && rounds[i].fi == -EAGAIN && !rounds[i].expired
             && !QuietPoll(rounds[i].poll)) ==> ReceiveResult(maxMsg, rounds).Err?
    decreases i
  {
    hide RoundResult, QuietPoll;
    if rounds != [] {
      RoundAnswers(maxMsg, rounds[0]);
      if i > 0 && maxMsg >= BUFFER_SIZE { ReceiveEnds(maxMsg, rounds[1..], i - 1); }
    }
  }

  /** Every step of a setup is granted. */
  predicate AllGranted(supported: bool, a: InitAnswers) {
    && supported && a.domain == Answer(true, 0) && a.eq == Answer(true, 0) && a.txCq == Answer(true, 0)
    && a.rxCq == Answer(true, 0)
    && a.ep.alloc && a.ep.fi.endpoint == 0 && a.ep.fi.bindEq == 0 && a.ep.fi.bindTx == 0 && a.ep.fi.bindRx == 0
    && a.ep.fi.enable == 0
    && a.tx == SlotAnswers(Answer(true, 0), true) && a.rx == SlotAnswers(Answer(true, 0), true)
  }

  /** Connecting and serving succeed exactly if every step is granted, the first receive is posted, and the provider
      agrees at
      the end; the first thing missing is the error. */
  lemma HandshakeAnswers(info: Info, a: ServeAnswers, connect: int)
    ensures InitCode(info.supported, a.setup) == 0 <==> AllGranted(info.supported, a.setup)
    ensures var granted, received := AllGranted(info.supported, a.setup), ReceiveResult(info.maxMsg, a.rounds);
      var c, s := ConnectResult(info, a.setup, a.rounds, connect), AcceptResult(info, a);
      && (c.Ok? <==> granted && received.Ok? && info.hasDest && connect == 0)
      && (s.Ok? <==> granted && received.Ok? && a.accept == 0)
      && (!granted ==> c == s == Err(Code(InitCode(info.supported, a.setup))))
      && (granted && received.Err? ==> c == s == Err(received.error))
      && (granted && received.Ok? && !info.hasDest ==> c == Err(Code(-EINVAL)))
      && (granted && received.Ok? && info.hasDest && connect != 0 ==> c == Err(Code(connect)))
      && (granted && received.Ok? && a.accept != 0 ==> s == Err(Code(a.accept)))
  {
    hide ReceiveResult;
  }

  /** The provider's answers for the handles a close finds, in the order of the closes. */
  function CloseCodes(k: Conn, a: CloseAnswers): seq<int> {
    [if k.ep != null then a.ep else 0, if k.tx.cq != null then a.txCq else 0, if k.rx.cq != null then a.rxCq else 0,
     if k.tx.mr != null then a.txMr else 0, if k.rx.mr != null then a.rxMr else 0, if k.eq != null then a.eq else 0,
     if k.domain != null then a.domain else 0]
  }

  /** What is left once the first `n` closes went through; the operation of a slot goes when its slot's turn comes. */
  function LeftAfter(k: Conn, n: nat): Conn {
    Conn(if n < 7 then k.domain else null, if n < 6 then k.eq else null, if n < 1 then k.ep else null,
         Lane(if n < 2 then k.tx.cq else null, if n < 4 then k.tx.mr else null, if n < 3 then k.tx.op else null),
         Lane(if n < 3 then k.rx.cq else null, if n < 5 then k.rx.mr else null, if n < 4 then k.rx.op else null))
  }

  /** A close goes through the handles in order up to the first refusal, and returns it. */
  lemma CloseOrder(k: Conn, a: CloseAnswers, n: nat)
    requires n <= 7 && forall j | 0 <= j < n :: CloseCodes(k, a)[j] == 0
    requires n < 7 ==> CloseCodes(k, a)[n] != 0
    ensures CloseSteps(k, a) == (LeftAfter(k, n), if n < 7 then CloseCodes(k, a)[n] else 0)
  {
    var codes := CloseCodes(k, a);
    assert n > 0 ==> codes[0] == 0;
    assert n > 1 ==> codes[1] == 0;
    assert n > 2 ==> codes[2] == 0;
    assert n > 3 ==> codes[3] == 0;
    assert n > 4 ==> codes[4] == 0;
    assert n > 5 ==> codes[5] == 0;
    assert n > 6 ==> codes[6] == 0;
  }
}
