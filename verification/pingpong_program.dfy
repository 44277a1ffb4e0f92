/** The C example as a program: its polling loops, the conversation of each side, and the whole run
    from an empty process to the cleanup, as a second client of the shim. */
module PingpongProgram {
  import opened Handles
  import opened ResourceGraph
  import opened ShimSpec
  import opened GraphLaws
  import opened Shim
  import opened Ownership
  import opened Pingpong
  import opened Transport
  import opened Exchange
  import opened PingpongSession
  import R = Runs

  // ------------------------------------------------------------ what messages do

  /** One direction: its flag in the session, and whether its operation is in flight. */
  datatype Half = Half(done: bool, fly: bool)

  /** The state of the messages: `bytes` is the receive buffer, `received` every message that arrived so far. */
  datatype Talk = Talk(tx: Half, rx: Half, len: U64, bytes: seq<bv8>, received: seq<seq<bv8>>,
                       script: seq<(Direction, U64)>, fine: bool)

  /** The message in the receive buffer. */
  function Front(bytes: seq<bv8>, len: nat): seq<bv8> { if len <= |bytes| then bytes[..len] else bytes }

  predicate TxGoes(a: Talk, b: Talk) { b.tx == a.tx || (a.tx.fly && b.tx == Half(true, false)) }

  predicate RxGoes(a: Talk, b: Talk) {
    || (b.rx == a.rx && b.len == a.len && b.bytes == a.bytes && b.received == a.received)
    || (a.rx.fly && b.rx == Half(true, false) && b.received == a.received + [Front(b.bytes, b.len)])
  }

  /** Looking at the queues only lands what was in flight: each operation once, each message with its bytes. */
  predicate Goes(a: Talk, b: Talk) { TxGoes(a, b) && RxGoes(a, b) && b.script == a.script && (a.fine ==> b.fine) }

  lemma GoesSame(a: Talk)
    ensures Goes(a, a)
  {
  }

  lemma GoesOn(a: Talk, b: Talk, c: Talk)
    requires Goes(a, b) && Goes(b, c)
    ensures Goes(a, c)
  {
  }

  /** A submission loop ended with a code that is no failure: 0 if the operation is in flight now.
      Meanwhile the other direction may have landed. */
  predicate Tried(a: Talk, b: Talk, dir: Direction, n: U64, code: int) {
    && (if dir == Recv then !a.rx.fly && b.rx == Half(false, code == 0) && b.received == a.received && TxGoes(a, b)
        else !a.tx.fly && b.tx == Half(false, code == 0) && RxGoes(a, b))
    && b.script == (if code == 0 then a.script + [(dir, n)] else a.script) && (a.fine ==> b.fine)
  }

  function HalfOf(a: Talk, dir: Direction): Half { if dir == Recv then a.rx else a.tx }

  /** The rounds before a submission do not touch its own direction. */
  lemma TriedLater(a: Talk, b: Talk, c: Talk, dir: Direction, n: U64, code: int)
    requires Goes(a, b) && Tried(b, c, dir, n, code) && (a == b || !HalfOf(a, dir).fly)
    ensures Tried(a, c, dir, n, code)
  {
  }

  /** The messages before the first post. */
  predicate Fresh(a: Talk) {
    a.tx == Half(true, false) && a.rx == Half(false, false) && a.received == [] && a.script == [] && a.fine
  }

  /** Both directions are done and nothing is in flight; this was received, and this submitted. */
  predicate TalkedOut(a: Talk, received: seq<seq<bv8>>, script: seq<(Direction, U64)>) {
    a.tx == Half(true, false) && a.rx == Half(true, false) && a.received == received && a.script == script && a.fine
  }

  /** Both directions are done, nothing is in flight, and what was expected has arrived. */
  predicate Heard(b: Talk, expected: Option<seq<bv8>>) {
    && b.tx == Half(true, false) && b.rx == Half(true, false)
    && (expected == None || (b.len == |expected.value| && Front(b.bytes, b.len) == expected.value))
  }

  /** A message of `n` bytes was sent and completed, and by then at most the one posted receive had landed. */
  predicate Spoke(a: Talk, b: Talk, n: U64, expected: Option<seq<bv8>>) {
    && a.tx.done && !a.tx.fly && Heard(b, expected) && b.script == a.script + [(Send, n)] && (a.fine ==> b.fine)
    && b.received == (if a.rx.fly then a.received + [Front(b.bytes, b.len)] else a.received)
    && (!a.rx.fly ==> a.rx.done)
  }

  /** A wait that succeeds after a submission loop means that the message was really submitted. */
  lemma SpeaksOnce(a: Talk, b: Talk, c: Talk, n: U64, code: int, expected: Option<seq<bv8>>)
    requires a.tx.done && Tried(a, b, Send, n, code) && Goes(b, c) && Heard(c, expected)
    ensures code == 0 && Spoke(a, c, n, expected)
  {
  }

  /** The client's part of the conversation: success means that every post went through. */
  lemma ClientTold(t0: Talk, t1: Talk, t2: Talk, t3: Talk, code: int)
    requires Fresh(t0) && Tried(t0, t1, Recv, SIZE, code)
    requires Spoke(t1, t2, 5, Some(Bytes(World))) && Spoke(t2, t3, 3, None)
    ensures TalkedOut(t3, [Bytes(World)], [(Recv, SIZE), (Send, 5), (Send, 3)])
  {
  }

  /** The server's part. */
  lemma ServerTold(t0: Talk, t1: Talk, t2: Talk, t3: Talk, t4: Talk, first: int, second: int)
    requires Fresh(t0) && Tried(t0, t1, Recv, SIZE, first) && Goes(t1, t2) && Heard(t2, Some(Bytes(Hello)))
    requires Tried(t2, t3, Recv, SIZE, second) && Spoke(t3, t4, 5, Some(Bytes(Ack)))
    ensures TalkedOut(t4, [Bytes(Hello), Bytes(Ack)], [(Recv, SIZE), (Recv, SIZE), (Send, 5)])
  {
  }

  /** The provider's answers during one round of polling; `reject` answers a late connection request. */
  datatype Look = Look(poll: PollAnswers, reject: int)

  /** One round of a submission loop: the provider's answer, then one look. */
  datatype Try = Try(fi: int, look: Look)

  ghost predicate Apart(w: World, infos: set<Info>)
    reads w`objs
  {
    forall i | i in infos :: i !in w.objs
  }

  predicate AllShown(infos: set<Info>, tries: seq<Try>) { forall i | 0 <= i < |tries| :: Shown(infos, tries[i].look) }

  predicate AllLooks(infos: set<Info>, looks: seq<Look>) { forall i | 0 <= i < |looks| :: Shown(infos, looks[i]) }

  predicate Shown(infos: set<Info>, look: Look) {
    |look.poll.memory| == SIZE && (look.poll.eq.read.info != null ==> look.poll.eq.read.info in infos)
  }

  // -------------------------------------------------- the loops, as functions

  /** Everything a polling loop works on: the graph and the session's message fields. */
  datatype Msgs = Msgs(g: Graph, txDone: bool, rxDone: bool, len: U64, bytes: seq<bv8>)

  predicate Good(x: PollOutcome) { x.ret == 0 || (x.ret == 1 && x.out.err == 0) }

  /** The session goes on: nothing, a late request or the connected event. */
  predicate Calm(x: EqOutcome) {
    x.ret >= 0 && (x.ret == 1 ==> x.event.kind != ErrorEvent && x.event.kind != ShutdownEvent)
  }

  ghost function AfterTx(s: Parts, m: Msgs, look: Look): (Msgs, bool) {
    var x := Polled(m.g, s.tx.cq, look.poll.tx);
    (m.(g := x.g, txDone := m.txDone || (x.ret == 1 && x.out.err == 0)), Good(x))
  }

  ghost function AfterRx(s: Parts, m: Msgs, look: Look): (Msgs, bool) {
    var x := Polled(m.g, s.rx.cq, look.poll.rx);
    if x.ret != 1 then (m.(g := x.g), Good(x))
    else if x.out.err != 0 then (m.(g := x.g, bytes := look.poll.memory), false)
    else (Msgs(x.g, m.txDone, true, x.out.len, look.poll.memory), true)
  }

  /** One round of polling, and whether the session may go on. */
  ghost function Turn(s: Parts, m: Msgs, look: Look): (Msgs, bool) {
    var a := AfterTx(s, m, look);
    if !a.1 then a else
    var b := AfterRx(s, a.0, look);
    if !b.1 || (b.0.txDone && b.0.rxDone) then b
    else (b.0, Calm(EqPoll(s.eq, look.poll.eq.alloc, look.poll.eq.read, look.poll.eq.error)))
  }

  /** One attempt to submit and, if it has to be repeated, one round of polling; a code ends the attempts. */
  ghost function Attempt(s: Parts, m: Msgs, dir: Direction, addr: U64, len: U64, t: Try): (Msgs, Option<int>) {
    var x := Posting(m.g, s, dir, addr, len, t.fi);
    if x.ret != -EAGAIN then (m.(g := x.g), Some(x.ret)) else
    var r := Turn(s, m.(g := x.g), t.look);
    (r.0, if r.1 then None else Some(-1))
  }

  /** Submit, polling between attempts: the last state, and the code. */
  ghost function Trying(s: Parts, m: Msgs, dir: Direction, addr: U64, len: U64, tries: seq<Try>): (Msgs, int)
    decreases |tries|
  {
    if tries == [] then (m, -1) else
    var r := Attempt(s, m, dir, addr, len, tries[0]);
    match r.1
    case Some(code) => (r.0, code)
    case None => Trying(s, r.0, dir, addr, len, tries[1..])
  }

  /** What arrived is what was expected. */
  predicate Arrived(m: Msgs, expected: Option<seq<bv8>>) {
    expected == None || (m.len == |expected.value| && Front(m.bytes, m.len) == expected.value)
  }

  /** One round of waiting; a verdict ends the wait. */
  ghost function Await(s: Parts, m: Msgs, expected: Option<seq<bv8>>, look: Look): (Msgs, Option<bool>) {
    var t := Turn(s, m, look);
    (t.0, if !t.1 then Some(false) else if t.0.txDone && t.0.rxDone then Some(Arrived(t.0, expected)) else None)
  }

  /** Poll until both directions are done: the last state, and whether what was expected has arrived. */
  ghost function Awaiting(s: Parts, m: Msgs, expected: Option<seq<bv8>>, looks: seq<Look>): (Msgs, bool)
    decreases |looks|
  {
    if looks == [] then (m, false) else
    var r := Await(s, m, expected, looks[0]);
    match r.1
    case Some(ok) => (r.0, ok)
    case None => Awaiting(s, r.0, expected, looks[1..])
  }

  /** The provider's answers once the session is set up: the first receive, the connection, the conversation. */
  datatype TalkAnswers = TalkAnswers(receive: seq<Try>, connect: int, connected: seq<Look>,
                                     first: seq<Try>, answer: seq<Look>, second: seq<Try>, last: seq<Look>)

  predicate TalkShown(infos: set<Info>, a: TalkAnswers) {
    && AllShown(infos, a.receive) && AllLooks(infos, a.connected) && AllShown(infos, a.first)
    && AllLooks(infos, a.answer)
    && AllShown(infos, a.second) && AllLooks(infos, a.last)
  }

  datatype SetupAnswers = SetupAnswers(first: FirstAnswers, request: seq<Look>, frame: FrameAnswers,
                                       slots: SlotsAnswers)

  predicate SetupNotPositive(a: SetupAnswers) {
    FirstNotPositive(a.first) && FrameNotPositive(a.frame) && SlotsNotPositive(a.slots)
  }

  /** Everything the set-up needs is granted, by a provider that supports it; a server has a request to serve. */
  predicate SetupFine(server: bool, info: Info, request: Info?, a: SetupAnswers) {
    && FirstGranted(server, a.first) && FrameGranted(a.frame) && SlotsGranted(a.slots)
    && if server then request != null && request.supported else info.supported
  }

  /** How far a run got: set up, with the session in state `ready`, and what was in flight when the cleanup began. */
  datatype Course = Course(setUp: bool, ready: Msgs, txFly: bool, rxFly: bool)

  datatype RunAnswers = RunAnswers(setup: SetupAnswers, talk: TalkAnswers, clean: CleanAnswers)

  /** A session of which nothing is left leaves nothing in the graph but the log. */
  lemma NothingLive(g: Graph, s: Parts, v: Alive)
    requires Inv(g) && Session(g, s, v) && !AnythingLeft(v)
    ensures SameButLog(EMPTY, g)
  {
    hide Closed, Staged, Borrowed, Logged;
    assert g.stages.Keys == {} && g.listeners.Keys == {} && g.eps.Keys == {} && g.ops.Keys == {};
  }

  /** The provider agrees to connect or accept, and then reports the connection up. */
  ghost predicate Joined(m: Msgs, s: Parts, server: bool, info: Info, a: TalkAnswers) {
    && s.ep != null && s.ep in m.g.eps && m.g.eps[s.ep].ready && !m.g.eps[s.ep].closing
    && a.connect >= 0 && (server || info.hasDest) && s.eq != null && LinkSeen(a.connected)
  }

  /** Send a message and wait: the last state, and whether all went well. */
  ghost function SendAwait(s: Parts, m: Msgs, message: seq<bv8>, expected: Option<seq<bv8>>, base: U64, tries: seq<Try>,
                           looks: seq<Look>): (Msgs, bool) {
    if |message| > SIZE || !m.txDone then (m, false) else
    var t := Trying(s, m.(txDone := false), Direction.Send, base, Connection.Size(message), tries);
    if t.1 < 0 then (t.0, false) else Awaiting(s, t.0, expected, looks)
  }

  /** Post a receive: the last state, and whether that went well. */
  ghost function PostAwait(s: Parts, m: Msgs, base: U64, tries: seq<Try>): (Msgs, bool) {
    var t := Trying(s, m.(rxDone := false), Recv, base, SIZE, tries);
    (t.0, t.1 >= 0)
  }

  /** The client's conversation, step by step. */
  ghost predicate ClientScript(s: Parts, m: Msgs, info: Info, txBase: U64, rxBase: U64, a: TalkAnswers) {
    var p := PostAwait(s, m, rxBase, a.receive);
    && p.1 && Joined(p.0, s, false, info, a)
    && var hello := SendAwait(s, p.0, Bytes(Hello), Some(Bytes(World)), txBase, a.first, a.answer);
       hello.1 && SendAwait(s, hello.0, Bytes(Ack), None, txBase, a.second, a.last).1
  }

  /** The server's conversation. */
  ghost predicate ServerScript(s: Parts, m: Msgs, info: Info, txBase: U64, rxBase: U64, a: TalkAnswers) {
    var p := PostAwait(s, m, rxBase, a.receive);
    && p.1 && Joined(p.0, s, true, info, a)
    && var hello := Awaiting(s, p.0, Some(Bytes(Hello)), a.answer);
       && hello.1
       && var q := PostAwait(s, hello.0, rxBase, a.second);
          q.1 && SendAwait(s, q.0, Bytes(World), Some(Bytes(Ack)), txBase, a.first, a.last).1
  }

  // What one look at the event queue shows, in the provider's own terms.

  predicate EventSilent(p: EqProbe) {
    p.alloc && (p.read.ret == 0 || p.read.ret == -EAGAIN
                || (p.read.ret == -EAVAIL && (p.error.ret == 0 || p.error.ret == -EAGAIN)))
  }

  /** A whole entry of a connection request. */
  predicate EventRequest(p: EqProbe) {
    p.alloc && p.read.ret >= CM_ENTRY_SIZE && p.read.kind == ConnReq && p.read.info != null
  }

  /** A whole entry that says the connection is up. */
  predicate EventUp(p: EqProbe) { p.alloc && p.read.ret >= CM_ENTRY_SIZE && p.read.kind == CmKind.Connected }

  lemma EventKinds(q: Eq?, p: EqProbe)
    ensures var x := EqPoll(q, p.alloc, p.read, p.error);
      && (x.ret == 0 <==> q != null && EventSilent(p))
      && (x.ret > 0 && x.event.kind == RequestEvent <==> q != null && EventRequest(p))
      && (x.ret > 0 && x.event.kind == ConnectedEvent <==> q != null && EventUp(p))
      && (x.ret > 0 && x.event.kind == RequestEvent ==> x.event.info == p.read.info) && x.ret <= 1
      && (q == null ==> x.ret < 0)
  {
  }

  lemma ShownOnce(p: EqProbe)
    ensures !(EventSilent(p) && EventRequest(p)) && !(EventSilent(p) && EventUp(p)) && !(EventRequest(p) && EventUp(p))
    ensures EventRequest(p) ==> p.read.info != null
  {
  }

  /** Nothing on the event queue stands against going on: nothing at all, a late request, or the connection coming up.
      */
  predicate EventsCalm(q: Eq?, p: EqProbe) { q != null && (EventSilent(p) || EventRequest(p) || EventUp(p)) }

  lemma CalmTold(q: Eq?, p: EqProbe)
    ensures Calm(EqPoll(q, p.alloc, p.read, p.error)) <==> EventsCalm(q, p)
  {
  }

  /** The look at the sends, in the provider's own terms. */
  lemma TxTurn(s: Parts, m: Msgs, look: Look, sent: bool, code: int)
    requires Inv(m.g) && Running(m.g, s) && s.ep != null
    ensures var a := AfterTx(s, m, look);
      && (LookFails(m.g, s.tx.op, look.poll.tx, code) ==> !a.1 && a.0.txDone == m.txDone)
      && (LookFine(m.g, s.tx.op, look.poll.tx, sent) ==> a.1 && a.0.txDone == (m.txDone || sent))
      && a.0 == m.(g := a.0.g, txDone := a.0.txDone)
  {
    hide Inv, Running, Polled, EntryQuiet, EntryOf, EntryRead, Flies;
    SessionProbe(m.g, s, Direction.Send, look.poll.tx, 0, code);
    SessionProbe(m.g, s, Direction.Send, look.poll.tx, code, code);
  }

  lemma RxTurn(s: Parts, m: Msgs, look: Look, got: bool, code: int)
    requires Inv(m.g) && Running(m.g, s) && s.ep != null
    ensures var a := AfterRx(s, m, look);
      && (LookFails(m.g, s.rx.op, look.poll.rx, code) ==> !a.1 && a.0.rxDone == m.rxDone)
      && (LookFine(m.g, s.rx.op, look.poll.rx, got) ==>
           a.1 && a.0 == if got then Msgs(a.0.g, m.txDone, true, LookLength(look.poll.rx), look.poll.memory)
             else m.(g := a.0.g))
      && a.0.txDone == m.txDone
  {
    hide Inv, Running, Polled, EntryQuiet, EntryOf, EntryRead, Flies;
    SessionProbe(m.g, s, Recv, look.poll.rx, 0, code);
    SessionProbe(m.g, s, Recv, look.poll.rx, code, code);
  }

  /** One round of polling, in the provider's own terms: a look that fails ends it; otherwise each flag is raised
      exactly by its own completion, the buffer and its length are those of the completion, and while something is
      still awaited the event queue must not stand against going on. */
  lemma TurnTold(s: Parts, m: Msgs, look: Look, sent: bool, got: bool, code: int)
    requires Inv(m.g) && Running(m.g, s) && s.ep != null
    ensures var r := Turn(s, m, look);
      var t := LookFine(m.g, s.tx.op, look.poll.tx, sent);
      && (LookFails(m.g, s.tx.op, look.poll.tx, code) ==> !r.1 && r.0.txDone == m.txDone)
      && (t && LookFails(m.g, s.rx.op, look.poll.rx, code) ==> !r.1 && r.0.rxDone == m.rxDone)
      && (t && LookFine(m.g, s.rx.op, look.poll.rx, got) ==>
           && r.0.txDone == (m.txDone || sent) && r.0.rxDone == (m.rxDone || got)
           && r.0.len == (if got then LookLength(look.poll.rx) else m.len)
           && r.0.bytes == (if got then look.poll.memory else m.bytes)
           && r.1 == ((r.0.txDone && r.0.rxDone) || EventsCalm(s.eq, look.poll.eq)))
  {
    hide Inv, Running, AfterTx, AfterRx, EqPoll, Calm, EventsCalm, LookLength;
    var a := AfterTx(s, m, look);
    TxTurn(s, m, look, sent, code);
    TurnKeeps(s, m, look);
    RxTurn(s, a.0, look, got, code);
    SameLook(m.g, a.0.g, s.rx.op, look.poll.rx, got, code);
    CalmTold(s.eq, look.poll.eq);
    hide LookFine, LookFails;
  }

  lemma TurnKeeps(s: Parts, m: Msgs, look: Look)
    requires Inv(m.g) && Running(m.g, s) && s.ep != null
    ensures var g' := AfterTx(s, m, look).0.g; Inv(g') && Running(g', s) && Flies(g', s.rx.op) == Flies(m.g, s.rx.op)
  {
    hide Closed, Staged, Listed, Borrowed, Logged, Running, ShimSpec.CqPoll, Transcript, Fine, Flies;
    RunPoll(m.g, s, Direction.Send, look.poll.tx.read, look.poll.tx.error);
    R.CqPollInv(m.g, s.tx.cq, look.poll.tx.read, look.poll.tx.error);
  }

  /** The state after the first `n` rounds of polling. */
  ghost function Turned(s: Parts, m: Msgs, looks: seq<Look>, n: nat): Msgs
    requires n <= |looks|
    decreases n
  {
    if n == 0 then m else Turned(s, Turn(s, m, looks[0]).0, looks[1..], n - 1)
  }

  /** In each of the first `n` rounds the session may go on, and something is still awaited. */
  ghost predicate StillWaiting(s: Parts, m: Msgs, looks: seq<Look>, n: nat)
    requires n <= |looks|
    decreases n
  {
    n > 0 ==>
      var t := Turn(s, m, looks[0]);
      t.1 && !(t.0.txDone && t.0.rxDone) && StillWaiting(s, t.0, looks[1..], n - 1)
  }

  /** A wait goes on exactly as long as it may and must; the round that ends it decides. */
  lemma {:induction false} AwaitingEnds(s: Parts, m: Msgs, expected: Option<seq<bv8>>, looks: seq<Look>, n: nat)
    requires n <= |looks| && StillWaiting(s, m, looks, n)
    ensures n == |looks| ==> Awaiting(s, m, expected, looks) == (Turned(s, m, looks, n), false)
    ensures n < |looks| ==>
      var t := Turn(s, Turned(s, m, looks, n), looks[n]);
      && (!t.1 ==> Awaiting(s, m, expected, looks) == (t.0, false))
      && (t.1 && t.0.txDone && t.0.rxDone ==>
           var there := expected == None
             || (t.0.len == |expected.value| && Front(t.0.bytes, t.0.len) == expected.value);
           Awaiting(s, m, expected, looks) == (t.0, there))
    decreases n
  {
    hide Turn;
    if n > 0 { AwaitingEnds(s, Turn(s, m, looks[0]).0, expected, looks[1..], n - 1); }
  }

  /** The state after `n` attempts to submit that had to be repeated. */
  ghost function Retried(s: Parts, m: Msgs, dir: Direction, addr: U64, len: U64, tries: seq<Try>, n: nat): Msgs
    requires n <= |tries|
    decreases n
  {
    if n == 0 then m else Retried(s, Turn(s, m, tries[0].look).0, dir, addr, len, tries[1..], n - 1)
  }

  /** In each of the first `n` attempts the provider asks for repetition and the round of polling goes on. */
  ghost predicate StillTrying(s: Parts, m: Msgs, dir: Direction, addr: U64, len: U64, tries: seq<Try>, n: nat)
    requires n <= |tries|
    decreases n
  {
    n > 0 ==>
      && Posting(m.g, s, dir, addr, len, tries[0].fi) == Outcome(m.g, -EAGAIN) && Turn(s, m, tries[0].look).1
      && StillTrying(s, Turn(s, m, tries[0].look).0, dir, addr, len, tries[1..], n - 1)
  }

  /** A submission is repeated exactly while the provider, or a full queue, asks for it; the first other answer is the
      result, and a failed round of polling or the deadline is a failure. */
  lemma {:induction false} TryingEnds(s: Parts, m: Msgs, dir: Direction, addr: U64, len: U64, tries: seq<Try>, n: nat)
    requires n <= |tries| && StillTrying(s, m, dir, addr, len, tries, n)
    ensures n == |tries| ==> Trying(s, m, dir, addr, len, tries).1 < 0
    ensures n < |tries| ==>
      var now := Retried(s, m, dir, addr, len, tries, n);
      var x := Posting(now.g, s, dir, addr, len, tries[n].fi);
      && (x.ret != -EAGAIN ==> Trying(s, m, dir, addr, len, tries) == (now.(g := x.g), x.ret))
      && (x == Outcome(now.g, -EAGAIN) && !Turn(s, now, tries[n].look).1 ==> Trying(s, m, dir, addr, len, tries).1 < 0)
    decreases n
  {
    hide Turn, Posting;
    if n > 0 {
      assert m.(g := m.g) == m;
      TryingEnds(s, Turn(s, m, tries[0].look).0, dir, addr, len, tries[1..], n - 1);
    }
  }

  /** Some look shows that the connection is up, and all before it show nothing or a request. */
  predicate LinkSeen(looks: seq<Look>) {
    exists i :: 0 <= i < |looks| && EventUp(looks[i].poll.eq)
                && forall j :: 0 <= j < i ==> EventSilent(looks[j].poll.eq) || EventRequest(looks[j].poll.eq)
  }

  /** The request the look shows, if any, was used up. */
  predicate Spent(p: EqProbe)
    reads p.read.info
  {
    EventRequest(p) ==> !p.read.info.handle
  }

  /** The first `n` looks show nothing or a request. */
  predicate RequestsOnly(looks: seq<Look>, n: nat)
    requires n <= |looks|
  {
    forall j | 0 <= j < n :: EventSilent(looks[j].poll.eq) || EventRequest(looks[j].poll.eq)
  }

  /** Some look shows this request, and all before it show nothing. */
  predicate RequestSeen(looks: seq<Look>, request: Info?) {
    exists i :: 0 <= i < |looks| && EventRequest(looks[i].poll.eq) && looks[i].poll.eq.read.info == request
                && forall j :: 0 <= j < i ==> EventSilent(looks[j].poll.eq)
  }

  /** `struct session`, with what the program sent and received so far. */
  class Program {
    const w: World
    const txBase: U64
    const rxBase: U64
    const tx: array<bv8>
    const rx: array<bv8>
    var parts: Parts
    var request: Info?
    var txDone: bool
    var rxDone: bool
    var rxLen: U64
    var accepted: bool
    ghost var sent: seq<seq<bv8>>
    ghost var received: seq<seq<bv8>>

    /** The program's own memory is apart from the shim's. */
    ghost predicate Mine()
      reads this, w`objs
    {
      this !in w.objs && tx !in w.objs && rx !in w.objs && tx != rx && tx.Length == SIZE && rx.Length == SIZE
        && txBase != 0 && rxBase != 0
        && request !in w.objs
    }

    /** A flag is raised only while its operation is not in flight. */
    ghost predicate Valid()
      reads this, w`g, w`objs
    {
      && Mine() && Running(w.g, parts)
      && (parts.tx.op != null ==> parts.tx.op.id == TX_ID) && (parts.rx.op != null ==> parts.rx.op.id == RX_ID)
      && (txDone ==> !Flies(w.g, parts.tx.op)) && (rxDone ==> !Flies(w.g, parts.rx.op))
    }

    /** A session with nothing but its two buffers and `tx_done` set. */
    constructor (w: World, txBase: U64, rxBase: U64)
      requires w.Valid() && w.g == EMPTY && txBase != 0 && rxBase != 0
      ensures this.w == w && this.txBase == txBase && this.rxBase == rxBase && parts == NO_PARTS && request == null
        && !accepted
      ensures w.Valid() && Valid() && sent == [] && fresh(tx) && fresh(rx)
      ensures Talked() == Talk(Half(true, false), Half(false, false), 0, rx[..], [], [], true)
    {
      hide World.Valid;
      RunEmpty();
      this.w, this.txBase, this.rxBase := w, txBase, rxBase;
      tx, rx := new bv8[SIZE](_ => 0), new bv8[SIZE](_ => 0);
      parts, request, txDone, rxDone, rxLen, accepted, sent, received := NO_PARTS, null, true, false, 0, false, [], [];
      new;
      w.Consistent();
    }

    lemma OwnMemory()
      requires Valid()
      ensures Mine()
    {
    }

    /** The state of the messages. */
    ghost function Talked(): Talk
      reads this, rx, w`g
    {
      Talk(Half(txDone, Flies(w.g, parts.tx.op)), Half(rxDone, Flies(w.g, parts.rx.op)), rxLen, rx[..], received,
           Transcript(w.g.log), Fine(w.g.log))
    }

    /** What the polling loops work on. */
    ghost function Fields(): Msgs
      reads this, rx, w`g
    {
      Msgs(w.g, txDone, rxDone, rxLen, rx[..])
    }

    /** Look at the send queue.  A completion there can only be the send operation's. */
    method LookTx(look: Look) returns (ok: bool)
      requires w.Valid() && Valid()
      modifies this`txDone, w`g, w.objs
      ensures w.Valid() && Valid() && w.objs == old(w.objs) && w.cm == old(w.cm)
      ensures (Fields(), ok) == AfterTx(parts, old(Fields()), look)
      ensures ok ==> Goes(old(Talked()), Talked()) && Talked().rx == old(Talked().rx)
    {
      hide World.Valid, Running, Flies, Transcript, Fine, Polled;
      var ret, done := LookNow(w, parts, Direction.Send, look.poll.tx);
      if ret < 0 { return false; }
      if ret == 1 {
        if done.err != 0 || done.opId != TX_ID || done.flags != Direction.Send { return false; }
        txDone := true;
      }
      return true;
    }

    /** Look at the receive queue; the answers hold what the provider has put into the buffer by then. */
    method LookRx(look: Look) returns (ok: bool)
      requires w.Valid() && Valid() && |look.poll.memory| == SIZE
      modifies this`rxDone, this`rxLen, this`received, rx, w`g, w.objs
      ensures w.Valid() && Valid() && w.objs == old(w.objs) && w.cm == old(w.cm)
      ensures (Fields(), ok) == AfterRx(parts, old(Fields()), look)
      ensures ok ==> Goes(old(Talked()), Talked()) && Talked().tx == old(Talked().tx)
    {
      hide World.Valid, Running, Flies, Transcript, Fine, Polled;
      var ret, done := LookNow(w, parts, Recv, look.poll.rx);
      if ret < 0 { return false; }
      if ret == 1 {
        Connection.CopyIn(rx, look.poll.memory);
        assert rx[..] == look.poll.memory;
        if done.err != 0 || done.opId != RX_ID || done.flags != Recv { return false; }
        rxDone, rxLen := true, done.len;
        received := received + [Front(rx[..], rxLen)];
      }
      return true;
    }

    /** Look at the event queue.  A late request is rejected; an error or the peer's shutdown ends the session. */
    method LookEvents(look: Look) returns (ok: bool)
      requires w.Valid() && Valid() && (look.poll.eq.read.info != null ==> look.poll.eq.read.info !in w.objs)
      modifies w`cm, look.poll.eq.read.info
      ensures w.Valid() && Valid() && Talked() == old(Talked()) && Fields() == old(Fields())
      ensures ok && Listening(w.g, parts) ==> Spent(look.poll.eq)
      ensures ok == Calm(EqPoll(parts.eq, look.poll.eq.alloc, look.poll.eq.read, look.poll.eq.error))
    {
      hide World.Valid, Running, Flies, Transcript, Fine, EventSilent, EventUp, EqPoll;
      EventKinds(parts.eq, look.poll.eq);
      var x := EqPoll(parts.eq, look.poll.eq.alloc, look.poll.eq.read, look.poll.eq.error);
      if x.ret < 0 { return false; }
      if x.ret == 1 {
        if x.event.kind == RequestEvent {
          RejectNow(w, parts, x.event.info, look.reject);
        } else if x.event.kind == ErrorEvent || x.event.kind == ShutdownEvent {
          return false;
        }
      }
      return true;
    }

    /** One round: both queues first, and events only while a message is still awaited. */
    method Progress(look: Look, ghost infos: set<Info>) returns (ok: bool)
      requires w.Valid() && Valid() && Shown(infos, look) && Apart(w, infos)
      modifies this`txDone, this`rxDone, this`rxLen, this`received, rx, w`g, w`cm, w.objs, infos
      ensures w.Valid() && Valid() && w.objs == old(w.objs)
      ensures (Fields(), ok) == Turn(parts, old(Fields()), look)
      ensures ok && !(txDone && rxDone) && Listening(w.g, parts) ==> Spent(look.poll.eq)
      ensures ok ==> Goes(old(Talked()), Talked())
      ensures request == old(request) && accepted == old(accepted) && parts == old(parts)
    {
      hide World.Valid, Valid, Talked, AfterTx, AfterRx, Calm;
      OwnMemory();
      ghost var a := Talked();
      ok := LookTx(look);
      if !ok { return; }
      ghost var b := Talked();
      ok := LookRx(look);
      if !ok { return; }
      GoesOn(a, b, Talked());
      if txDone && rxDone { return true; }
      ok := LookEvents(look);
    }

    /** One attempt to submit on a lane whose flag is down. */
    method SubmitOnce(dir: Direction, addr: U64, len: U64, t: Try, ghost infos: set<Info>) returns (code: Option<int>)
      requires w.Valid() && Valid() && Shown(infos, t.look) && Apart(w, infos)
      requires (dir == Send || dir == Recv) && !HalfOf(Talked(), dir).done
      modifies this`txDone, this`rxDone, this`rxLen, this`received, rx, w`g, w`cm, w.objs, infos
      ensures w.Valid() && Valid() && w.objs == old(w.objs)
      ensures (Fields(), code) == Attempt(parts, old(Fields()), dir, addr, len, t)
      ensures code == None ==>
        Goes(old(Talked()), Talked()) && !old(HalfOf(Talked(), dir)).fly && !HalfOf(Talked(), dir).done
      ensures code.Some? && code.value >= 0 ==> Tried(old(Talked()), Talked(), dir, len, code.value)
      ensures request == old(request) && accepted == old(accepted) && parts == old(parts)
    {
      hide World.Valid, Running, Flies, Transcript, Fine, Turn, Posting;
      var ret := PostNow(w, parts, dir, addr, len, t.fi);
      if ret != -EAGAIN { return Some(ret); }
      var ok := Progress(t.look, infos);
      code := if ok then None else Some(-1);
    }

    /** Submit on a lane whose flag is down, polling between attempts; the rounds end with the deadline. */
    method Submit(dir: Direction, addr: U64, len: U64, tries: seq<Try>, ghost infos: set<Info>) returns (code: int)
      requires w.Valid() && Valid() && AllShown(infos, tries) && Apart(w, infos)
      requires (dir == Send || dir == Recv) && !HalfOf(Talked(), dir).done
      modifies this`txDone, this`rxDone, this`rxLen, this`received, rx, w`g, w`cm, w.objs, infos
      ensures w.Valid() && Valid() && w.objs == old(w.objs)
      ensures (Fields(), code) == Trying(parts, old(Fields()), dir, addr, len, tries)
      ensures code >= 0 ==> Tried(old(Talked()), Talked(), dir, len, code)
      ensures request == old(request) && accepted == old(accepted) && parts == old(parts)
    {
      hide World.Valid, Valid, Talked, Fields, Goes, Tried, Attempt;
      GoesSame(Talked());
      ghost var a, m := Talked(), Fields();
      var i := 0;
      while i < |tries|
        invariant i <= |tries| && w.Valid() && Valid() && w.objs == old(w.objs)
        invariant request == old(request) && accepted == old(accepted) && parts == old(parts)
        invariant Goes(a, Talked()) && !HalfOf(Talked(), dir).done
          && if i == 0 then Talked() == a else !HalfOf(a, dir).fly
        invariant Trying(parts, m, dir, addr, len, tries) == Trying(parts, Fields(), dir, addr, len, tries[i..])
      {
        assert tries[i..][0] == tries[i] && tries[i..][1..] == tries[i + 1..];
        ghost var b := Talked();
        var end := SubmitOnce(dir, addr, len, tries[i], infos);
        if end.Some? {
          if end.value >= 0 { TriedLater(a, b, Talked(), dir, len, end.value); }
          return end.value;
        }
        GoesOn(a, b, Talked());
        i := i + 1;
      }
      return -1;
    }

    /** Post the receive buffer. */
    method PostReceive(tries: seq<Try>, ghost infos: set<Info>) returns (code: int)
      requires w.Valid() && Valid() && AllShown(infos, tries) && Apart(w, infos)
      modifies this`txDone, this`rxDone, this`rxLen, this`received, rx, w`g, w`cm, w.objs, infos
      ensures w.Valid() && Valid() && w.objs == old(w.objs)
      ensures (Fields(), code) == Trying(parts, old(Fields()).(rxDone := false), Recv, rxBase, SIZE, tries)
      ensures code >= 0 ==> Tried(old(Talked()), Talked(), Recv, SIZE, code)
      ensures request == old(request) && accepted == old(accepted) && parts == old(parts)
    {
      hide World.Valid, Running, Flies, Transcript, Fine, Trying;
      rxDone := false;
      code := Submit(Recv, rxBase, SIZE, tries, infos);
    }

    /** Copy a message into the send buffer and post it; the buffer of a message in flight is not touched. */
    method SendMessage(message: seq<bv8>, tries: seq<Try>, ghost infos: set<Info>) returns (code: int)
      requires w.Valid() && Valid() && AllShown(infos, tries) && Apart(w, infos)
      modifies this`txDone, this`rxDone, this`rxLen, this`received, this`sent, tx, rx, w`g, w`cm, w.objs, infos
      ensures w.Valid() && Valid() && w.objs == old(w.objs)
      ensures if |message| > SIZE || !old(txDone) then code == -1 && Fields() == old(Fields()) && tx[..] == old(tx[..])
        else tx[..] == Connection.Overwritten(old(tx[..]), message)
             && (Fields(), code) == Trying(parts, old(Fields()).(txDone := false), Direction.Send, txBase,
                  Connection.Size(message), tries)
      ensures code >= 0 ==> |message| <= SIZE && old(Talked()).tx.done
                            && Tried(old(Talked()), Talked(), Send, Connection.Size(message), code)
      ensures sent == if code == 0 then old(sent) + [message] else old(sent)
      ensures request == old(request) && accepted == old(accepted) && parts == old(parts)
    {
      hide World.Valid, Running, Flies, Transcript, Fine, Trying;
      if |message| > SIZE || !txDone { return -1; }
      Connection.CopyIn(tx, message);
      txDone := false;
      code := Submit(Direction.Send, txBase, Connection.Size(message), tries, infos);
      if code == 0 { sent := sent + [message]; }
    }

    /** One round of waiting for data. */
    method WaitOnce(expected: Option<seq<bv8>>, look: Look, ghost infos: set<Info>) returns (end: Option<bool>)
      requires w.Valid() && Valid() && Shown(infos, look) && Apart(w, infos)
      modifies this`txDone, this`rxDone, this`rxLen, this`received, rx, w`g, w`cm, w.objs, infos
      ensures w.Valid() && Valid() && w.objs == old(w.objs)
      ensures (Fields(), end) == Await(parts, old(Fields()), expected, look)
      ensures end != Some(false) ==> Goes(old(Talked()), Talked())
      ensures end == Some(true) ==> Heard(Talked(), expected)
      ensures request == old(request) && accepted == old(accepted) && parts == old(parts)
    {
      hide World.Valid, Running, Flies, Transcript, Fine, Turn, Goes;
      var ok := Progress(look, infos);
      if !ok { return Some(false); }
      if !txDone || !rxDone { return None; }
      return Some(expected == None || (rxLen == |expected.value| && Front(rx[..], rxLen) == expected.value));
    }

    /** Poll until both directions are done, then compare what arrived. */
    method WaitData(expected: Option<seq<bv8>>, looks: seq<Look>, ghost infos: set<Info>) returns (ok: bool)
      requires w.Valid() && Valid() && AllLooks(infos, looks) && Apart(w, infos)
      modifies this`txDone, this`rxDone, this`rxLen, this`received, rx, w`g, w`cm, w.objs, infos
      ensures w.Valid() && Valid() && w.objs == old(w.objs)
      ensures (Fields(), ok) == Awaiting(parts, old(Fields()), expected, looks)
      ensures ok ==> Goes(old(Talked()), Talked()) && Heard(Talked(), expected)
      ensures request == old(request) && accepted == old(accepted) && parts == old(parts)
    {
      hide World.Valid, Valid, Talked, Fields, Goes, Heard, Await;
      GoesSame(Talked());
      ghost var a, m := Talked(), Fields();
      var i := 0;
      while i < |looks|
        invariant i <= |looks| && w.Valid() && Valid() && w.objs == old(w.objs) && Goes(a, Talked())
        invariant request == old(request) && accepted == old(accepted) && parts == old(parts)
        invariant Awaiting(parts, m, expected, looks) == Awaiting(parts, Fields(), expected, looks[i..])
      {
        assert looks[i..][0] == looks[i] && looks[i..][1..] == looks[i + 1..];
        ghost var b := Talked();
        var end := WaitOnce(expected, looks[i], infos);
        if end != Some(false) { GoesOn(a, b, Talked()); }
        if end.Some? { return end.value; }
        i := i + 1;
      }
      return false;
    }

    /** One look at the event queue while an event is awaited. */
    method EventOnce(wanted: EventKind, look: Look, ghost infos: set<Info>) returns (end: Option<bool>)
      requires w.Valid() && Valid() && Shown(infos, look) && Apart(w, infos)
      modifies this`request, w`cm, infos
      ensures w.Valid() && Valid() && Talked() == old(Talked()) && Fields() == old(Fields()) && parts == old(parts)
      ensures var p := look.poll.eq;
        var mine := wanted == RequestEvent && old(request) == null && EventRequest(p) && parts.eq != null;
        && request == (if mine then p.read.info else old(request)) && (mine ==> end == Some(true))
        && (end == None <==> parts.eq != null && !mine && (EventSilent(p) || EventRequest(p)))
        && (wanted == ConnectedEvent ==> (end == Some(true) <==> parts.eq != null && EventUp(p)))
        && (wanted == RequestEvent ==> (end == Some(true) <==> mine))
        && (end == None && Listening(w.g, parts) ==> Spent(p))
      ensures forall i | i in infos && !old(i.handle) :: !i.handle
    {
      hide World.Valid, Running, Flies, Transcript, Fine, EqPoll, EventSilent, EventUp;
      var probe := look.poll.eq;
      var x := EqPoll(parts.eq, probe.alloc, probe.read, probe.error);
      EventKinds(parts.eq, probe);
      ShownOnce(probe);
      if x.ret < 0 { return Some(false); }
      if x.ret == 0 { return None; }
      if x.event.kind != RequestEvent { return Some(x.event.kind == wanted); }
      if wanted == RequestEvent && request == null {
        request := x.event.info;
        return Some(true);
      }
      RejectNow(w, parts, x.event.info, look.reject);
      return None;
    }

    /** Wait for one connection event.  Requests nobody waits for are rejected on the way; the first other event, and
        the first failed look, end the wait without success. */
    method WaitEvent(wanted: EventKind, looks: seq<Look>, ghost infos: set<Info>) returns (ok: bool)
      requires w.Valid() && Valid() && AllLooks(infos, looks) && Apart(w, infos)
      modifies this`request, w`cm, infos
      ensures w.Valid() && Valid() && Talked() == old(Talked()) && Fields() == old(Fields()) && parts == old(parts)
      ensures wanted == ConnectedEvent ==> (ok <==> parts.eq != null && LinkSeen(looks))
      ensures wanted == RequestEvent ==>
        (ok <==> parts.eq != null && old(request) == null && exists info: Info? :: RequestSeen(looks, info))
      ensures wanted == ConnectedEvent && Listening(w.g, parts) && ok ==>
        forall j | 0 <= j < |looks| && RequestsOnly(looks, j) && !EventUp(looks[j].poll.eq) :: Spent(looks[j].poll.eq)
      ensures ok && wanted == RequestEvent ==> RequestSeen(looks, request) && request != null && request in infos
      ensures !(ok && wanted == RequestEvent) ==> request == old(request)
    {
      hide World.Valid, Valid, Talked, Fields, EventSilent, EventUp, Listening;
      var i := 0;
      while i < |looks|
        invariant i <= |looks| && w.Valid() && Valid() && request == old(request) && w.g == old(w.g)
        invariant Talked() == old(Talked()) && parts == old(parts) && Fields() == old(Fields())
          && (i > 0 ==> parts.eq != null)
        invariant Listening(w.g, parts) ==> forall j | 0 <= j < i :: Spent(looks[j].poll.eq)
        invariant forall j | 0 <= j < i ::
          && !EventUp(looks[j].poll.eq)
          && if EventRequest(looks[j].poll.eq) then wanted != RequestEvent || old(request) != null
             else EventSilent(looks[j].poll.eq)
      {
        ShownOnce(looks[i].poll.eq);
        var end := EventOnce(wanted, looks[i], infos);
        if end.Some? {
          if end.value && wanted == RequestEvent { assert RequestSeen(looks, request); }
          return end.value;
        }
        i := i + 1;
      }
      return false;
    }

    /** The endpoint is set up and not closing. */
    ghost predicate CanJoin()
      reads this, w`g
    {
      parts.ep != null && parts.ep in w.g.eps && w.g.eps[parts.ep].ready && !w.g.eps[parts.ep].closing
    }

    /** Accept the request; once the provider was asked without refusing, cleanup must not reject it. */
    method AcceptNow(fi: int) returns (ok: bool)
      requires w.Valid() && Valid()
      modifies this`accepted, w`cm
      ensures w.Valid() && Valid() && Talked() == old(Talked()) && Fields() == old(Fields()) && parts == old(parts)
      ensures accepted == (old(accepted) || ok)
      ensures ok == (CanJoin() && fi >= 0)
    {
      hide World.Valid, Running, Flies, Transcript, Fine;
      var ret := AcceptOn(w, parts, fi);
      if ret < 0 { return false; }
      accepted := true;
      return true;
    }

    method ConnectNow(info: Info, fi: int) returns (ok: bool)
      requires w.Valid() && Valid()
      ensures ok == (CanJoin() && info.hasDest && fi >= 0)
    {
      hide World.Valid, Running, Flies, Transcript, Fine;
      w.Consistent();
      RunningLive(w.g, parts);
      var ret := w.Connect(parts.ep, info, fi);
      return ret >= 0;
    }

    /** Connect or accept, and wait until the connection is up. */
    method Join(server: bool, info: Info, a: TalkAnswers, ghost infos: set<Info>) returns (ok: bool)
      requires w.Valid() && Valid() && TalkShown(infos, a) && Apart(w, infos)
      modifies this`accepted, this`request, w`cm, infos
      ensures w.Valid() && Valid() && Talked() == old(Talked()) && request == old(request)
      ensures (accepted ==> old(accepted) || server) && (old(accepted) || (ok && server) ==> accepted)
      ensures Fields() == old(Fields()) && parts == old(parts)
      ensures ok == Joined(Fields(), parts, server, info, a)
    {
      hide World.Valid, Valid, Talked, LinkSeen;
      OwnMemory();
      if server {
        ok := AcceptNow(a.connect);
      } else {
        ok := ConnectNow(info, a.connect);
      }
      if !ok { return; }
      ok := WaitEvent(ConnectedEvent, a.connected, infos);
    }

    /** Send a message, then wait for its completion and for what is expected. */
    method SendAndWait(message: seq<bv8>, expected: Option<seq<bv8>>, tries: seq<Try>, looks: seq<Look>,
                       ghost infos: set<Info>)
      returns (ok: bool)
      requires w.Valid() && Valid() && AllShown(infos, tries) && AllLooks(infos, looks) && Apart(w, infos)
      modifies this`txDone, this`rxDone, this`rxLen, this`received, this`sent, tx, rx, w`g, w`cm, w.objs, infos
      ensures w.Valid() && Valid() && w.objs == old(w.objs)
      ensures request == old(request) && accepted == old(accepted) && parts == old(parts)
      ensures (Fields(), ok) == SendAwait(parts, old(Fields()), message, expected, txBase, tries, looks)
      ensures ok ==> sent == old(sent) + [message] && Spoke(old(Talked()), Talked(), Connection.Size(message), expected)
    {
      hide World.Valid, Valid, Talked, Goes, Tried, Heard, Spoke, Trying, Awaiting, AllShown, AllLooks;
      OwnMemory();
      ghost var a := Talked();
      var code := SendMessage(message, tries, infos);
      if code < 0 { return false; }
      ghost var b := Talked();
      ok := WaitData(expected, looks, infos);
      if ok { SpeaksOnce(a, b, Talked(), Connection.Size(message), code, expected); }
    }

    /** hello, world, ack from the client's side: success means both messages were sent, once each and in order,
        world was received, and every submission completed. */
    method ClientTalk(info: Info, a: TalkAnswers, ghost infos: set<Info>) returns (ok: bool)
      requires w.Valid() && Valid() && Fresh(Talked()) && sent == [] && TalkShown(infos, a) && Apart(w, infos)
      modifies this`txDone, this`rxDone, this`rxLen, this`received, this`sent, this`accepted, this`request, tx, rx,
        w`g, w`cm, w.objs, infos
      ensures w.Valid() && Valid() && w.objs == old(w.objs) && request == old(request) && accepted == old(accepted)
      ensures parts == old(parts) && ok == ClientScript(parts, old(Fields()), info, txBase, rxBase, a)
      ensures ok ==>
        sent == [Bytes(Hello), Bytes(Ack)] && TalkedOut(Talked(), [Bytes(World)], [(Recv, SIZE), (Send, 5), (Send, 3)])
    {
      hide World.Valid, Valid, Talked, Fields, Goes, Tried, Heard, Spoke, Trying, Awaiting, SendAwait, Joined,
        TalkedOut, Fresh,
        AllShown, AllLooks;
      OwnMemory();
      ghost var t0 := Talked();
      var code := PostReceive(a.receive, infos);
      if code < 0 { return false; }
      ok := Join(false, info, a, infos);
      if !ok { return; }
      ghost var t1 := Talked();
      ok := SendAndWait(Bytes(Hello), Some(Bytes(World)), a.first, a.answer, infos);
      if !ok { return; }
      ghost var t2 := Talked();
      ok := SendAndWait(Bytes(Ack), None, a.second, a.last, infos);
      if ok { ClientTold(t0, t1, t2, Talked(), code); }
    }

    /** The same from the server's side: both messages were received in order and world was sent once. */
    method ServerTalk(info: Info, a: TalkAnswers, ghost infos: set<Info>) returns (ok: bool)
      requires w.Valid() && Valid() && Fresh(Talked()) && sent == [] && TalkShown(infos, a) && Apart(w, infos)
      modifies this`txDone, this`rxDone, this`rxLen, this`received, this`sent, this`accepted, this`request, tx, rx,
        w`g, w`cm, w.objs, infos
      ensures w.Valid() && Valid() && w.objs == old(w.objs) && request == old(request) && (ok ==> accepted)
      ensures parts == old(parts) && ok == ServerScript(parts, old(Fields()), info, txBase, rxBase, a)
      ensures ok ==>
        sent == [Bytes(World)]
          && TalkedOut(Talked(), [Bytes(Hello), Bytes(Ack)], [(Recv, SIZE), (Recv, SIZE), (Send, 5)])
    {
      hide World.Valid, Valid, Talked, Fields, Goes, Tried, Heard, Spoke, Trying, Awaiting, SendAwait, Joined,
        TalkedOut, Fresh,
        AllShown, AllLooks;
      OwnMemory();
      ghost var t0 := Talked();
      var first := PostReceive(a.receive, infos);
      if first < 0 { return false; }
      ok := Join(true, info, a, infos);
      if !ok { return; }
      ghost var t1 := Talked();
      ok := WaitData(Some(Bytes(Hello)), a.answer, infos);
      if !ok { return; }
      ghost var t2 := Talked();
      var second := PostReceive(a.second, infos);
      if second < 0 { return false; }
      ghost var t3 := Talked();
      ok := SendAndWait(Bytes(World), Some(Bytes(Ack)), a.first, a.last, infos);
      if ok { ServerTold(t0, t1, t2, t3, Talked(), first, second); }
    }

    /** No message has moved yet. */
    ghost predicate Unspoken()
      reads this, w`g, w`objs
    {
      Valid() && Resting(w.g, parts) && w.g.log == [] && txDone && !rxDone && received == [] && sent == []
    }

    /** Open everything, up to the first call that fails.  Unless the provider returns positive codes, it succeeds
        exactly
        if all is granted and, for the server, a request is shown; the session then has everything. */
    method Setup(server: bool, info: Info, a: SetupAnswers, ghost infos: set<Info>) returns (ok: bool)
      requires w.Valid() && Unspoken() && parts == NO_PARTS && request == null && !accepted
      requires AllLooks(infos, a.request) && Apart(w, infos)
      modifies this`parts, this`request, w`g, w`objs, w`cm, w.objs, infos
      ensures w.Valid() && Unspoken() && fresh(w.objs - old(w.objs)) && !accepted
      ensures request != null ==> server && request in infos && RequestSeen(a.request, request)
      ensures ok && server ==> request != null
      ensures SetupNotPositive(a) ==>
        && (ok ==> Furnished(w.g, parts) && parts.eq != null)
        && ok == SetupFine(server, info, request, a)
      ensures SetupNotPositive(a) && server && FirstGranted(server, a.first) ==>
        (request != null <==> exists shown: Info? :: RequestSeen(a.request, shown))
    {
      hide World.Valid, Running, Flies, FirstGranted, FrameGranted, SlotsGranted, FirstNotPositive, FrameNotPositive,
        SlotsNotPositive, RequestSeen, Furnished, EndpointUp;
      var s;
      s, ok := SetFirst(w, server, info, a.first);
      parts := s;
      if !ok { return; }
      if server {
        ok := WaitEvent(RequestEvent, a.request, infos);
        if !ok { return; }
      }
      var active := if server then request else info;
      s, ok := SetRest(w, parts, active, txBase, rxBase, a.frame, a.slots);
      parts := s;
    }

    lemma Silence()
      requires Unspoken()
      ensures Valid() && Fresh(Talked()) && sent == []
      ensures Fields().g.log == [] && Fields().txDone && !Fields().rxDone
    {
    }

    /** What each side has sent and received when all went well. */
    ghost predicate Said(server: bool)
      reads this, w`g
    {
      if server then
        sent == [Bytes(World)] && received == [Bytes(Hello), Bytes(Ack)]
        && Transcript(w.g.log) == [(Recv, SIZE), (Recv, SIZE), (Send, 5)]
      else
        sent == [Bytes(Hello), Bytes(Ack)] && received == [Bytes(World)]
        && Transcript(w.g.log) == [(Recv, SIZE), (Send, 5), (Send, 3)]
    }

    ghost predicate Landed()
      reads this, w`g
    {
      !Flies(w.g, parts.tx.op) && !Flies(w.g, parts.rx.op) && AllCompleted(w.g.log)
    }

    lemma AllSaid(server: bool)
      requires w.Valid() && Valid()
      requires server ==>
        sent == [Bytes(World)]
          && TalkedOut(Talked(), [Bytes(Hello), Bytes(Ack)], [(Recv, SIZE), (Recv, SIZE), (Send, 5)])
      requires !server ==>
        sent == [Bytes(Hello), Bytes(Ack)] && TalkedOut(Talked(), [Bytes(World)], [(Recv, SIZE), (Send, 5), (Send, 3)])
      ensures Said(server) && Landed()
    {
      hide World.Valid, Running, Transcript, Fine, Flies;
      w.Consistent();
      AllReported(w.g, parts);
    }

    /** Set up and talk, up to the first failure. */
    method Converse(server: bool, info: Info, a: RunAnswers, ghost infos: set<Info>)
      returns (ok: bool, ghost setUp: bool, ghost ready: Msgs)
      requires w.Valid() && Unspoken() && parts == NO_PARTS && request == null && !accepted
      requires AllLooks(infos, a.setup.request) && TalkShown(infos, a.talk) && Apart(w, infos)
      modifies this, tx, rx, w`g, w`objs, w`cm, w.objs, infos
      ensures w.Valid() && Valid() && fresh(w.objs - old(w.objs))
      ensures ok == (setUp && Script(server, parts, ready, info, txBase, rxBase, a.talk))
      ensures ready.g.log == [] && ready.txDone && !ready.rxDone
      ensures SetupNotPositive(a.setup) ==>
        setUp == SetupFine(server, info, request, a.setup) && (setUp ==> Furnished(ready.g, parts))
      ensures ok ==> Said(server) && Landed() && (server ==> accepted)
      ensures request != null ==> server && request in infos && RequestSeen(a.setup.request, request)
      ensures setUp && server ==> request != null
    {
      hide World.Valid, Valid, Talked, Unspoken, Fresh, TalkedOut, Said, Landed, SetupFine, Furnished, ClientScript,
        ServerScript,
        RequestSeen;
      ok := Setup(server, info, a.setup, infos);
      Silence();
      setUp, ready := ok, Fields();
      if !ok { return; }
      if server { ok := ServerTalk(info, a.talk, infos); } else { ok := ClientTalk(info, a.talk, infos); }
      if ok { AllSaid(server); }
    }

    lemma CanClean()
      requires w.Valid() && Valid()
      ensures var v := Start(parts, Flies(w.g, parts.tx.op), Flies(w.g, parts.rx.op));
        Session(w.g, parts, v) && Sensible(v) && request !in w.objs
    {
      hide World.Valid, Session;
      w.Consistent();
      RunningLive(w.g, parts);
    }

    /** The whole program.  Wherever it stops, the cleanup leaves exactly the survivors and frees a buffer exactly if
        its region is gone.  It returns status 0 exactly if the session was set up, its side's script ran through, and
        the cleanup did not fail.  Then the provider agreed to connect or accept and reported the connection up, the
        conversation took place, every submission completed without an error, and, unless the provider returns positive
        codes, nothing is left. */
    method Run(server: bool, info: Info, a: RunAnswers, ghost infos: set<Info>)
      returns (status: int, txFreed: bool, rxFreed: bool, ghost course: Course)
      requires w.Valid() && Unspoken() && parts == NO_PARTS && request == null && !accepted
      requires AllLooks(infos, a.setup.request) && TalkShown(infos, a.talk) && Apart(w, infos)
      modifies this, tx, rx, w`g, w`objs, w`cm, w.objs, infos
      ensures var x := Survivors(Start(parts, course.txFly, course.rxFly), a.clean);
        w.Valid() && Session(w.g, parts, x) && txFreed == !x.tx.mr && rxFreed == !x.rx.mr
      ensures status == 0 || status == 1
      ensures status == 0 <==>
        && course.setUp && Script(server, parts, course.ready, info, txBase, rxBase, a.talk)
        && !CleanupFailed(Start(parts, course.txFly, course.rxFly), a.clean)
      ensures SetupNotPositive(a.setup) ==>
        course.setUp == SetupFine(server, info, request, a.setup) && (course.setUp ==> Furnished(course.ready.g, parts))
      ensures status == 0 ==>
        && Said(server) && AllCompleted(w.g.log) && (server ==> accepted && RequestSeen(a.setup.request, request))
        && a.talk.connect >= 0 && (server || info.hasDest) && LinkSeen(a.talk.connected)
        && (Negative(a.clean) ==> SameButLog(EMPTY, w.g) && txFreed && rxFreed)
    {
      hide World.Valid, Valid, Session, Survivors, CleanupFailed, Flies, AllCompleted, Transcript, SetupFine,
        Furnished, Script,
        RequestSeen, LinkSeen;
      var ok;
      ghost var setUp, ready;
      ok, setUp, ready := Converse(server, info, a, infos);
      course := Course(setUp, ready, Flies(w.g, parts.tx.op), Flies(w.g, parts.rx.op));
      CanClean();
      OwnMemory();
      ghost var v := Start(parts, course.txFly, course.rxFly);
      status, txFreed, rxFreed := Cleanup(w, parts, request, accepted, course.txFly, course.rxFly, a.clean);
      if !ok || status < 0 {
        status := 1;
        return;
      }
      ScriptJoins(server, parts, ready, info, txBase, rxBase, a.talk);
      FinishedClean(w, parts, v, a.clean);
    }
  }

  /** The conversation of one side. */
  ghost predicate Script(server: bool, s: Parts, m: Msgs, info: Info, txBase: U64, rxBase: U64, a: TalkAnswers) {
    if server then ServerScript(s, m, info, txBase, rxBase, a) else ClientScript(s, m, info, txBase, rxBase, a)
  }

  lemma ScriptJoins(server: bool, s: Parts, m: Msgs, info: Info, txBase: U64, rxBase: U64, a: TalkAnswers)
    ensures Script(server, s, m, info, txBase, rxBase, a) ==>
      a.connect >= 0 && (server || info.hasDest) && LinkSeen(a.connected)
  {
    hide Trying, Awaiting, LinkSeen;
  }

  lemma FinishedClean(w: World, s: Parts, v: Alive, a: CleanAnswers)
    requires w.Valid() && Session(w.g, s, Survivors(v, a)) && Sensible(v) && !CleanupFailed(v, a)
    ensures Negative(a) ==> SameButLog(EMPTY, w.g) && !Survivors(v, a).tx.mr && !Survivors(v, a).rx.mr
  {
    hide World.Valid, Session, Survivors, CleanupFailed;
    w.Consistent();
    if Negative(a) {
      FailureMeansLeftover(v, a);
      NothingLive(w.g, s, Survivors(v, a));
    }
  }
}
