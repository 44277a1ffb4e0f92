/** The two application loops described without their state: by the events polled so far and the
    messages sent so far.  Nothing here depends on what the peer or the provider does. */
module History {
  import opened Transport
  import opened Exchange

  // ------------------------------------------------------------------ events

  /** The payloads of the messages among the events, in order. */
  function Payloads(es: seq<Event>): seq<seq<bv8>>
    decreases |es|
  {
    if es == [] then [] else (if es[0].Received? then [es[0].message] else []) + Payloads(es[1..])
  }

  /** How many sends were reported as completed. */
  function Sents(es: seq<Event>): nat
    decreases |es|
  {
    if es == [] then 0 else (if es[0].Sent? then 1 else 0) + Sents(es[1..])
  }

  lemma {:induction false} PayloadsOf(a: seq<Event>, b: seq<Event>)
    ensures Payloads(a + b) == Payloads(a) + Payloads(b) && Sents(a + b) == Sents(a) + Sents(b)
    decreases |a|
  {
    if a == [] {
      assert a + b == b;
    } else {
      assert (a + b)[0] == a[0] && (a + b)[1..] == a[1..] + b;
      PayloadsOf(a[1..], b);
    }
  }

  lemma PayloadsOne(a: seq<Event>, e: Event)
    ensures Payloads(a + [e]) == Payloads(a) + (if e.Received? then [e.message] else [])
    ensures Sents(a + [e]) == Sents(a) + if e.Sent? then 1 else 0
  {
    PayloadsOf(a, [e]);
    assert [e][1..] == [];
  }

  /** When a list grown by one is a prefix of a list of one or two. */
  lemma Grown<T>(p: seq<T>, x: T, a: T, b: T)
    ensures p + [x] <= [a] <==> p == [] && x == a
    ensures p <= [a] ==> (p + [x] <= [a, b] <==> (p == [] && x == a) || (p == [a] && x == b))
    ensures p == [a, b] ==> !(p + [x] <= [a, b])
    ensures |p + [x]| == |p| + 1 && (p == [] ==> p + [x] == [x]) && p + [] == p
  {
    if p == [a] { assert p + [x] == [a, x]; }
    if p == [] { assert p + [x] == [x]; }
    assert p + [x] <= [a] ==> (p + [x])[0] == a && |p| == 0;
    assert p + [x] <= [a, b] && p == [a] ==> (p + [x])[1] == b;
    assert p + [x] <= [a, b] && p == [] ==> (p + [x])[0] == a;
  }

  /** The prefixes of a list of one or two. */
  lemma Prefixes<T>(p: seq<T>, a: T, b: T)
    ensures p <= [a, b] <==> p == [] || p == [a] || p == [a, b]
    ensures p <= [a] <==> p == [] || p == [a]
    ensures p <= [] <==> p == []
  {
  }

  // ------------------------------------------------------------------ client

  /** The only payload the client takes is world, once, after hello; and it takes no more completions than it sent. */
  predicate ClientGood(es: seq<Event>, sent: seq<Message>) {
    Payloads(es) <= (if sent == [] then [] else [Bytes(World)]) && Sents(es) <= |sent|
  }

  /** Everything the client waits for has happened. */
  predicate ClientHasAll(es: seq<Event>) { Payloads(es) == [Bytes(World)] && Sents(es) == 2 }

  /** What the client may have sent: hello, then ack, the latter only with world in hand and hello completed. */
  predicate ClientTold(es: seq<Event>, sent: seq<Message>) {
    sent <= [Hello, Ack] && (sent == [Hello, Ack] ==> Payloads(es) == [Bytes(World)] && Sents(es) >= 1)
  }

  /** The message that is due: none before the link is up or after the peer has closed. */
  function ClientDue(es: seq<Event>, sent: seq<Message>): Option<Message> {
    if ConnectedNow !in es || PeerClosed in es then None
    else if sent == [] then Some(Hello)
    else if sent == [Hello] && Payloads(es) == [Bytes(World)] && Sents(es) == 1 then Some(Ack)
    else None
  }

  /** The client's state, read off its history. */
  function ClientMemory(es: seq<Event>, sent: seq<Message>): Client {
    Client(ConnectedNow in es, PeerClosed in es, Sub(sent != [], Sents(es) >= 1), Sub(|sent| >= 2, Sents(es) >= 2),
      Payloads(es) != [])
  }

  lemma ClientFresh()
    ensures ClientMemory([], []) == CLIENT_START && ClientGood([], []) && ClientTold([], [])
  {
  }

  lemma ClientRemembers(es: seq<Event>, sent: seq<Message>, e: Event)
    requires ClientGood(es, sent) && ClientTold(es, sent)
    ensures ClientOn(ClientMemory(es, sent), e) ==
      if ClientGood(es + [e], sent) then Going(ClientMemory(es + [e], sent))
      else Failed(if e.Received? then BadMessage else BadCompletion)
    ensures ClientGood(es + [e], sent) ==> ClientTold(es + [e], sent)
  {
    PayloadsOne(es, e);
    Prefixes(Payloads(es), Bytes(World), Bytes(World));
    if e.Received? { Grown(Payloads(es), e.message, Bytes(World), Bytes(World)); }
    hide Payloads, Sents, Bytes;
    assert Payloads(es) + [] == Payloads(es);
  }

  /** Histories only get worse. */
  lemma ClientGoodPrefix(es: seq<Event>, more: seq<Event>, sent: seq<Message>)
    requires ClientGood(es + more, sent)
    ensures ClientGood(es, sent)
  {
    PayloadsOf(es, more);
  }

  /** The first event that does not fit decides how the client fails. */
  predicate ClientFailsWith(es: seq<Event>, sent: seq<Message>, why: Failure) {
    exists i ::
      && 0 <= i < |es| && ClientGood(es[..i], sent) && !ClientGood(es[..i + 1], sent)
      && why == if es[i].Received? then BadMessage else BadCompletion
  }

  /** Taking the events of a poll: the state afterwards is read off the longer history, and the first event
      that does not fit decides the failure. */
  lemma {:induction false} ClientTakes(es: seq<Event>, sent: seq<Message>, more: seq<Event>)
    requires ClientGood(es, sent) && ClientTold(es, sent)
    ensures var r := ClientOnAll(ClientMemory(es, sent), more);
      if ClientGood(es + more, sent) then r == Going(ClientMemory(es + more, sent)) && ClientTold(es + more, sent)
      else r.Failed? && ClientFailsWith(es + more, sent, r.why)
    decreases |more|
  {
    if more == [] {
      assert es + more == es;
    } else {
      var e, rest := more[0], more[1..];
      ClientRemembers(es, sent, e);
      assert es + more == es + [e] + rest;
      if ClientGood(es + [e], sent) {
        ClientTakes(es + [e], sent, rest);
      } else {
        if ClientGood(es + more, sent) { ClientGoodPrefix(es + [e], rest, sent); }
        assert (es + more)[..|es|] == es && (es + more)[..|es| + 1] == es + [e];
      }
    }
  }

  /** What the client does next, read off the history. */
  lemma ClientChooses(es: seq<Event>, sent: seq<Message>)
    requires ClientGood(es, sent) && ClientTold(es, sent)
    ensures ClientComplete(ClientMemory(es, sent)) <==> ClientHasAll(es)
    ensures !ClientHasAll(es) ==> NextMessage(ClientMemory(es, sent)) == ClientDue(es, sent)
    ensures var m := ClientDue(es, sent);
      m.Some? ==>
        && ClientMemory(es, sent + [m.value]) == ClientPosted(ClientMemory(es, sent), m.value)
        && ClientGood(es, sent + [m.value]) && ClientTold(es, sent + [m.value])
  {
  }

  /** The history is in order and the exchange not complete. */
  predicate ClientGoing(es: seq<Event>, sent: seq<Message>) {
    ClientGood(es, sent) && ClientTold(es, sent) && !ClientHasAll(es)
  }

  /** The events a round polled. */
  function ClientPolled(io: ClientIo): seq<Event> { if io.poll.Ok? then io.poll.value else [] }

  /** The message a round submits: the one that is due, if the connection takes it. */
  function ClientSubmits(es: seq<Event>, sent: seq<Message>, io: ClientIo): Option<Message> {
    if io.poll.Ok? && ClientGood(es, sent) && !ClientHasAll(es) && io.send == Ok(true) then ClientDue(es, sent)
      else None
  }

  /** One round, read off the history before it. */
  lemma ClientRounds(es: seq<Event>, sent: seq<Message>, io: ClientIo)
    requires ClientGoing(es, sent)
    ensures var now := es + ClientPolled(io);
      match ClientRound(ClientMemory(es, sent), io.poll, io.send)
      case ClientFails(why) =>
        && (if ClientGood(now, sent) then why.Io? && !ClientHasAll(now) else ClientFailsWith(now, sent, why))
        && ClientSubmits(now, sent, io) == None
      case ClientDone(_) => ClientGood(now, sent) && ClientHasAll(now) && ClientSubmits(now, sent, io) == None
      case ClientGoes(c, m) =>
        && m == ClientSubmits(now, sent, io) && ClientGoing(now, sent + AsSeq(m))
        && c == ClientMemory(now, sent + AsSeq(m))
  {
    hide ClientOnAll, NextMessage, ClientComplete, ClientMemory, ClientGood, ClientTold, ClientDue, ClientFailsWith,
      ClientPosted;
    var now := es + ClientPolled(io);
    assert es + [] == es && sent + [] == sent;
    if io.poll.Ok? {
      ClientTakes(es, sent, io.poll.value);
      if ClientGood(now, sent) { ClientChooses(now, sent); }
    }
  }

  /** The events of the first `n` rounds. */
  function ClientHeard(rounds: seq<ClientIo>, n: nat): seq<Event>
    requires n <= |rounds|
    decreases n
  {
    if n == 0 then [] else ClientPolled(rounds[0]) + ClientHeard(rounds[1..], n - 1)
  }

  lemma ClientHeardMore(es: seq<Event>, rounds: seq<ClientIo>, n: nat)
    requires n < |rounds|
    ensures es + ClientHeard(rounds, n + 1) == es + ClientPolled(rounds[0]) + ClientHeard(rounds[1..], n)
  {
  }

  /** How the client's loop ends: with success exactly if all has happened and nothing else, and with one of its two
      own errors exactly if some event does not fit, the first such event saying which. */
  predicate ClientOutcome(all: seq<Event>, out: seq<Message>, v: Verdict) {
    && (v == Success <==> ClientHasAll(all) && ClientGood(all, out))
    && (ClientGood(all, out) <==> v != Broken(BadMessage) && v != Broken(BadCompletion))
    && (!ClientGood(all, out) ==> v.Broken? && ClientFailsWith(all, out, v.why))
  }

  lemma {:induction false} ClientEnds(es: seq<Event>, sent: seq<Message>, rounds: seq<ClientIo>)
    requires ClientGoing(es, sent)
    ensures var e := ClientRun(ClientMemory(es, sent), rounds);
      e.used <= |rounds| && ClientOutcome(es + ClientHeard(rounds, e.used), sent + e.sent, e.verdict)
    decreases |rounds|
  {
    hide ClientRound, ClientMemory, ClientGood, ClientTold, ClientHasAll, ClientSubmits;
    assert sent + [] == sent && es + [] == es;
    if rounds != [] {
      var now := es + ClientPolled(rounds[0]);
      ClientRounds(es, sent, rounds[0]);
      ClientHeardMore(es, rounds, 0);
      assert now + [] == now;
      match ClientRound(ClientMemory(es, sent), rounds[0].poll, rounds[0].send)
      case ClientFails(_) =>
      case ClientDone(_) =>
      case ClientGoes(c, m) =>
        var e := ClientRun(c, rounds[1..]);
        ClientEnds(now, sent + AsSeq(m), rounds[1..]);
        ClientHeardMore(es, rounds, e.used);
        assert sent + AsSeq(m) + e.sent == sent + (AsSeq(m) + e.sent);
    }
  }

  /** For any rounds at all: the client's loop succeeds exactly if world, and nothing else, was received, and two sends
      were completed, none before it was sent; any other payload and any other completion ends it with its error. */
  lemma ClientLoop(rounds: seq<ClientIo>)
    ensures var e := ClientRun(CLIENT_START, rounds);
      && e.used <= |rounds| && ClientOutcome(ClientHeard(rounds, e.used), e.sent, e.verdict)
      && (e.verdict == Success ==> Payloads(ClientHeard(rounds, e.used)) == [Bytes(World)])
  {
    hide ClientRun, ClientHeard, ClientMemory, ClientGoing, ClientOutcome, Payloads;
    ClientFresh();
    ClientStarts();
    ClientEnds([], [], rounds);
    var e := ClientRun(CLIENT_START, rounds);
    var heard := ClientHeard(rounds, e.used);
    assert [] + heard == heard && [] + e.sent == e.sent;
    if e.verdict == Success { ClientSucceeds(heard, e.sent, e.verdict); }
  }

  lemma ClientSucceeds(all: seq<Event>, out: seq<Message>, v: Verdict)
    requires ClientOutcome(all, out, v) && v == Success
    ensures Payloads(all) == [Bytes(World)]
  {
  }

  lemma ClientInTime(c: Client, io: ClientIo)
    ensures ClientRound(c, io.poll, io.send).ClientFails? ==> ClientRound(c, io.poll, io.send).why != Deadline
  {
    hide ClientOnAll;
    if io.poll.Ok? { ClientReadsInTime(c, io.poll.value); }
  }

  lemma {:induction false} ClientReadsInTime(c: Client, es: seq<Event>)
    ensures ClientOnAll(c, es) != Failed(Deadline)
    decreases |es|
  {
    if es != [] && ClientOn(c, es[0]).Going? { ClientReadsInTime(ClientOn(c, es[0]).state, es[1..]); }
  }

  /** What round `n` adds to the messages submitted before it. */
  lemma {:induction false} ClientSubmitsFrom(es: seq<Event>, sent: seq<Message>, rounds: seq<ClientIo>, n: nat)
    requires ClientGoing(es, sent) && n < |rounds|
    ensures var c := ClientMemory(es, sent);
      var e, f := ClientRun(c, rounds[..n]), ClientRun(c, rounds[..n + 1]);
      var m := if e.verdict == Broken(Deadline) then ClientSubmits(es + ClientHeard(rounds, n + 1), sent + e.sent,
        rounds[n]) else None;
      f.sent == e.sent + AsSeq(m)
    decreases n
  {
    hide ClientRound, ClientMemory, ClientGoing, ClientSubmits, ClientGood, ClientHasAll, ClientHeard;
    var c := ClientMemory(es, sent);
    var r := ClientRound(c, rounds[0].poll, rounds[0].send);
    assert rounds[..n + 1][0] == rounds[0] && rounds[..n + 1][1..] == rounds[1..][..n];
    ClientRounds(es, sent, rounds[0]);
    ClientInTime(c, rounds[0]);
    ClientHeardMore(es, rounds, n);
    if n == 0 {
      ClientHeardNone(rounds[1..]);
      assert es + ClientPolled(rounds[0]) + [] == es + ClientPolled(rounds[0]) && sent + [] == sent;
      assert rounds[..0] == [] && rounds[1..][..0] == [];
    } else {
      assert rounds[..n][0] == rounds[0] && rounds[..n][1..] == rounds[1..][..n - 1];
      if r.ClientGoes? {
        var e, f := ClientRun(r.c, rounds[1..][..n - 1]), ClientRun(r.c, rounds[1..][..n]);
        ClientSubmitsFrom(es + ClientPolled(rounds[0]), sent + AsSeq(r.sent), rounds[1..], n - 1);
        assert sent + AsSeq(r.sent) + e.sent == sent + (AsSeq(r.sent) + e.sent);
      }
    }
  }

  lemma ClientHeardNone(rounds: seq<ClientIo>)
    ensures ClientHeard(rounds, 0) == []
  {
  }

  /** Exactly what the client submits in each round: nothing but the message that is due by the events so far, while
      the loop still runs, and that one as soon as the connection takes it. */
  lemma ClientSubmissions(rounds: seq<ClientIo>, n: nat)
    requires n < |rounds|
    ensures var e, f := ClientRun(CLIENT_START, rounds[..n]), ClientRun(CLIENT_START, rounds[..n + 1]);
      var m := if e.verdict == Broken(Deadline) then ClientSubmits(ClientHeard(rounds, n + 1), e.sent, rounds[n])
        else None;
      f.sent == e.sent + AsSeq(m)
  {
    hide ClientRun, ClientMemory, ClientGoing, ClientSubmits, ClientHeard;
    ClientFresh();
    ClientStarts();
    ClientSubmitsFrom([], [], rounds, n);
    var e := ClientRun(CLIENT_START, rounds[..n]);
    assert [] + ClientHeard(rounds, n + 1) == ClientHeard(rounds, n + 1) && [] + e.sent == e.sent;
  }

  lemma ClientStarts()
    ensures ClientGoing([], [])
  {
  }

  /** One round of a client that has seen its peer close, or sees it in this round. */
  lemma ClientRoundHushed(c: Client, io: ClientIo)
    ensures var r := ClientRound(c, io.poll, io.send);
      && (r.ClientGoes? ==> (c.peerClosed ==> r.c.peerClosed) && (PeerClosed in ClientPolled(io) ==> r.c.peerClosed))
      && (r.ClientGoes? && (c.peerClosed || PeerClosed in ClientPolled(io)) ==> r.sent == None)
  {
    hide ClientOnAll;
    if io.poll.Ok? { ClientSees(c, io.poll.value); }
  }

  /** Once the peer's closing was seen the client submits nothing more, whatever its state and whatever follows. */
  lemma {:induction false} ClientHushed(c: Client, rounds: seq<ClientIo>, n: nat)
    requires n <= |rounds| && (c.peerClosed || (n < |rounds| && PeerClosed in ClientPolled(rounds[n])))
    ensures ClientRun(c, rounds).sent == ClientRun(c, rounds[..n]).sent
    decreases |rounds|
  {
    hide ClientRound, ClientPolled;
    if rounds == [] {
      assert rounds[..n] == rounds;
    } else {
      var r := ClientRound(c, rounds[0].poll, rounds[0].send);
      ClientRoundHushed(c, rounds[0]);
      if n == 0 {
        if r.ClientGoes? { ClientHushed(r.c, rounds[1..], 0); }
      } else {
        assert rounds[..n][0] == rounds[0] && rounds[..n][1..] == rounds[1..][..n - 1];
        if r.ClientGoes? { ClientHushed(r.c, rounds[1..], n - 1); }
      }
    }
  }

  lemma {:induction false} ClientSees(c: Client, es: seq<Event>)
    ensures var r := ClientOnAll(c, es); r.Going? ==> r.state.peerClosed == (c.peerClosed || PeerClosed in es)
    decreases |es|
  {
    if es != [] && ClientOn(c, es[0]).Going? { ClientSees(ClientOn(c, es[0]).state, es[1..]); }
  }

  // ------------------------------------------------------------------ server

  /** The payloads the server takes are hello and, once it has answered, ack. */
  predicate ServerGood(es: seq<Event>, sent: seq<Message>) {
    Payloads(es) <= if sent == [] then [Bytes(Hello)] else [Bytes(Hello), Bytes(Ack)]
  }

  predicate ServerHasAll(es: seq<Event>) { Payloads(es) == [Bytes(Hello), Bytes(Ack)] && Sents(es) > 0 }

  /** The server sends at most world, in answer to a message. */
  predicate ServerTold(es: seq<Event>, sent: seq<Message>) { sent == [] || (sent == [World] && Payloads(es) != []) }

  /** The answer is due: hello was received, the link is up, the peer has not closed. */
  predicate ServerDue(es: seq<Event>, sent: seq<Message>) {
    sent == [] && Payloads(es) == [Bytes(Hello)] && ConnectedNow in es && PeerClosed !in es
  }

  function PhaseOf(es: seq<Event>, sent: seq<Message>): Phase {
    if Payloads(es) == [] then AwaitHello
    else if sent == [] then Reply
    else if |Payloads(es)| == 1 then AwaitAck
    else Finished
  }

  /** The server's state, read off its history. */
  function ServerMemory(es: seq<Event>, sent: seq<Message>): Server {
    Server(PhaseOf(es, sent), ConnectedNow in es, Sents(es) > 0, PeerClosed in es)
  }

  predicate ServerGoing(es: seq<Event>, sent: seq<Message>) {
    ServerGood(es, sent) && ServerTold(es, sent) && !ServerHasAll(es)
  }

  lemma ServerStarts()
    ensures ServerMemory([], []) == SERVER_START && ServerGoing([], [])
  {
  }

  lemma ServerRemembers(es: seq<Event>, sent: seq<Message>, e: Event)
    requires ServerGood(es, sent) && ServerTold(es, sent)
    ensures ServerOn(ServerMemory(es, sent), e) ==
      if ServerGood(es + [e], sent) then Going(ServerMemory(es + [e], sent)) else Failed(BadMessage)
    ensures ServerGood(es + [e], sent) ==> ServerTold(es + [e], sent)
  {
    PayloadsOne(es, e);
    Prefixes(Payloads(es), Bytes(Hello), Bytes(Ack));
    if e.Received? { Grown(Payloads(es), e.message, Bytes(Hello), Bytes(Ack)); }
    hide Payloads, Sents, Bytes;
    assert Payloads(es) + [] == Payloads(es);
  }

  lemma ServerGoodPrefix(es: seq<Event>, more: seq<Event>, sent: seq<Message>)
    requires ServerGood(es + more, sent)
    ensures ServerGood(es, sent)
  {
    PayloadsOf(es, more);
  }

  lemma {:induction false} ServerTakes(es: seq<Event>, sent: seq<Message>, more: seq<Event>)
    requires ServerGood(es, sent) && ServerTold(es, sent)
    ensures ServerOnAll(ServerMemory(es, sent), more) ==
      if ServerGood(es + more, sent) then Going(ServerMemory(es + more, sent)) else Failed(BadMessage)
    ensures ServerGood(es + more, sent) ==> ServerTold(es + more, sent)
    decreases |more|
  {
    if more == [] {
      assert es + more == es;
    } else {
      var e, rest := more[0], more[1..];
      ServerRemembers(es, sent, e);
      assert es + more == es + [e] + rest;
      if ServerGood(es + [e], sent) {
        ServerTakes(es + [e], sent, rest);
      } else if ServerGood(es + more, sent) {
        ServerGoodPrefix(es + [e], rest, sent);
      }
    }
  }

  /** What the server does next, read off the history. */
  lemma ServerChooses(es: seq<Event>, sent: seq<Message>)
    requires ServerGood(es, sent) && ServerTold(es, sent)
    ensures ServerComplete(ServerMemory(es, sent)) <==> ServerHasAll(es)
    ensures WantsReply(ServerMemory(es, sent)) <==> ServerDue(es, sent)
    ensures ServerDue(es, sent) ==>
      && ServerMemory(es, sent + [World]) == ServerMemory(es, sent).(phase := AwaitAck)
      && ServerGoing(es, sent + [World])
  {
  }

  lemma ServerDueFits(es: seq<Event>, sent: seq<Message>)
    ensures ServerDue(es, sent) ==> ServerGood(es, sent) && !ServerHasAll(es)
  {
  }

  function ServerPolled(io: ServerIo): seq<Event> { if io.poll.Ok? then io.poll.value else [] }

  /** A round posts a receive when the answer is due and none is pending. */
  predicate ServerPosts(es: seq<Event>, sent: seq<Message>, io: ServerIo) {
    io.poll.Ok? && ServerDue(es, sent) && !io.pending && io.post == Ok(true)
  }

  /** It submits the answer only with a receive pending or just posted. */
  function ServerSubmits(es: seq<Event>, sent: seq<Message>, io: ServerIo): Option<Message> {
    if io.poll.Ok? && ServerDue(es, sent) && (io.pending || io.post == Ok(true))
      && io.send == Ok(true) then Some(World) else None
  }

  /** One round, read off the history before it. */
  lemma ServerRounds(es: seq<Event>, sent: seq<Message>, io: ServerIo)
    requires ServerGoing(es, sent)
    ensures var now := es + ServerPolled(io);
      match ServerRound(ServerMemory(es, sent), io)
      case ServerFails(why, posted) =>
        && (if ServerGood(now, sent) then why.Io? && !ServerHasAll(now) else why == BadMessage)
        && posted == ServerPosts(now, sent, io) && ServerSubmits(now, sent, io) == None
      case ServerDone(_) =>
        ServerGood(now, sent) && ServerHasAll(now) && !ServerPosts(now, sent, io)
          && ServerSubmits(now, sent, io) == None
      case ServerGoes(s, posted, m) =>
        && posted == ServerPosts(now, sent, io) && m == ServerSubmits(now, sent, io)
        && ServerGoing(now, sent + AsSeq(m)) && s == ServerMemory(now, sent + AsSeq(m))
  {
    hide ServerOnAll, WantsReply, ServerComplete, ServerMemory, ServerTold, ServerGood, ServerHasAll, ServerDue;
    var now := es + ServerPolled(io);
    assert es + [] == es && sent + [] == sent;
    if io.poll.Ok? {
      ServerTakes(es, sent, io.poll.value);
      ServerDueFits(now, sent);
      if ServerGood(now, sent) { ServerChooses(now, sent); }
    }
  }

  /** The events of the first `n` rounds. */
  function ServerHeard(rounds: seq<ServerIo>, n: nat): seq<Event>
    requires n <= |rounds|
    decreases n
  {
    if n == 0 then [] else ServerPolled(rounds[0]) + ServerHeard(rounds[1..], n - 1)
  }

  lemma ServerHeardMore(es: seq<Event>, rounds: seq<ServerIo>, n: nat)
    requires n < |rounds|
    ensures es + ServerHeard(rounds, n + 1) == es + ServerPolled(rounds[0]) + ServerHeard(rounds[1..], n)
  {
  }

  predicate ServerOutcome(all: seq<Event>, out: seq<Message>, v: Verdict) {
    && (v == Success <==> ServerHasAll(all) && ServerGood(all, out))
    && (v == Broken(BadMessage) <==> !ServerGood(all, out))
    && v != Broken(BadCompletion)
  }

  lemma {:induction false} ServerEnds(es: seq<Event>, sent: seq<Message>, rounds: seq<ServerIo>)
    requires ServerGoing(es, sent)
    ensures var e := ServerRun(ServerMemory(es, sent), rounds);
      e.used <= |rounds| && ServerOutcome(es + ServerHeard(rounds, e.used), sent + e.sent, e.verdict)
    decreases |rounds|
  {
    hide ServerRound, ServerMemory, ServerGood, ServerTold, ServerHasAll, ServerSubmits, ServerPosts;
    assert sent + [] == sent && es + [] == es;
    if rounds != [] {
      var now := es + ServerPolled(rounds[0]);
      ServerRounds(es, sent, rounds[0]);
      ServerHeardMore(es, rounds, 0);
      assert now + [] == now;
      match ServerRound(ServerMemory(es, sent), rounds[0])
      case ServerFails(_, _) =>
      case ServerDone(_) =>
      case ServerGoes(s, posted, m) =>
        var e := ServerRun(s, rounds[1..]);
        ServerEnds(now, sent + AsSeq(m), rounds[1..]);
        ServerHeardMore(es, rounds, e.used);
        assert sent + AsSeq(m) + e.sent == sent + (AsSeq(m) + e.sent);
    }
  }

  /** For any rounds at all: the server's loop succeeds exactly if hello and ack, and nothing else, were received, the
      latter after world was sent, and a send was completed; any other payload ends it with its error. */
  lemma ServerLoop(rounds: seq<ServerIo>)
    ensures var e := ServerRun(SERVER_START, rounds);
      && e.used <= |rounds| && ServerOutcome(ServerHeard(rounds, e.used), e.sent, e.verdict)
      && (e.verdict == Success ==> Payloads(ServerHeard(rounds, e.used)) == [Bytes(Hello), Bytes(Ack)])
  {
    hide ServerRun, ServerHeard, ServerMemory, ServerGoing, ServerOutcome, Payloads;
    ServerStarts();
    ServerEnds([], [], rounds);
    var e := ServerRun(SERVER_START, rounds);
    var heard := ServerHeard(rounds, e.used);
    assert [] + heard == heard && [] + e.sent == e.sent;
    if e.verdict == Success { ServerSucceeds(heard, e.sent, e.verdict); }
  }

  lemma ServerSucceeds(all: seq<Event>, out: seq<Message>, v: Verdict)
    requires ServerOutcome(all, out, v) && v == Success
    ensures Payloads(all) == [Bytes(Hello), Bytes(Ack)]
  {
  }

  lemma ServerInTime(s: Server, io: ServerIo)
    ensures ServerRound(s, io).ServerFails? ==> ServerRound(s, io).why != Deadline
  {
    hide ServerOnAll;
    if io.poll.Ok? { ServerReadsInTime(s, io.poll.value); }
  }

  lemma {:induction false} ServerReadsInTime(s: Server, es: seq<Event>)
    ensures ServerOnAll(s, es) != Failed(Deadline)
    decreases |es|
  {
    if es != [] && ServerOn(s, es[0]).Going? { ServerReadsInTime(ServerOn(s, es[0]).state, es[1..]); }
  }

  /** What round `n` adds to the messages submitted and the receives posted before it. */
  lemma {:induction false} ServerSubmitsFrom(es: seq<Event>, sent: seq<Message>, rounds: seq<ServerIo>, n: nat)
    requires ServerGoing(es, sent) && n < |rounds|
    ensures var s := ServerMemory(es, sent);
      var e, f := ServerRun(s, rounds[..n]), ServerRun(s, rounds[..n + 1]);
      var going, now := e.verdict == Broken(Deadline), es + ServerHeard(rounds, n + 1);
      && f.sent == e.sent + AsSeq(if going then ServerSubmits(now, sent + e.sent, rounds[n]) else None)
      && f.posted == e.posted + if going && ServerPosts(now, sent + e.sent, rounds[n]) then 1 else 0
    decreases n
  {
    hide ServerRound, ServerMemory, ServerGoing, ServerSubmits, ServerPosts, ServerGood, ServerHasAll, ServerHeard;
    var s := ServerMemory(es, sent);
    var r := ServerRound(s, rounds[0]);
    assert rounds[..n + 1][0] == rounds[0] && rounds[..n + 1][1..] == rounds[1..][..n];
    ServerRounds(es, sent, rounds[0]);
    ServerInTime(s, rounds[0]);
    ServerHeardMore(es, rounds, n);
    if n == 0 {
      ServerHeardNone(rounds[1..]);
      assert es + ServerPolled(rounds[0]) + [] == es + ServerPolled(rounds[0]) && sent + [] == sent;
      assert rounds[..0] == [] && rounds[1..][..0] == [];
    } else {
      assert rounds[..n][0] == rounds[0] && rounds[..n][1..] == rounds[1..][..n - 1];
      if r.ServerGoes? {
        var e, f := ServerRun(r.s, rounds[1..][..n - 1]), ServerRun(r.s, rounds[1..][..n]);
        ServerSubmitsFrom(es + ServerPolled(rounds[0]), sent + AsSeq(r.sent), rounds[1..], n - 1);
        assert sent + AsSeq(r.sent) + e.sent == sent + (AsSeq(r.sent) + e.sent);
      }
    }
  }

  lemma ServerHeardNone(rounds: seq<ServerIo>)
    ensures ServerHeard(rounds, 0) == []
  {
  }

  /** Exactly what the server posts and submits in each round. */
  lemma ServerSubmissions(rounds: seq<ServerIo>, n: nat)
    requires n < |rounds|
    ensures var e, f := ServerRun(SERVER_START, rounds[..n]), ServerRun(SERVER_START, rounds[..n + 1]);
      var going, now := e.verdict == Broken(Deadline), ServerHeard(rounds, n + 1);
      && f.sent == e.sent + AsSeq(if going then ServerSubmits(now, e.sent, rounds[n]) else None)
      && f.posted == e.posted + if going && ServerPosts(now, e.sent, rounds[n]) then 1 else 0
  {
    hide ServerRun, ServerMemory, ServerGoing, ServerSubmits, ServerPosts, ServerHeard;
    ServerStarts();
    ServerSubmitsFrom([], [], rounds, n);
    var e := ServerRun(SERVER_START, rounds[..n]);
    assert [] + ServerHeard(rounds, n + 1) == ServerHeard(rounds, n + 1) && [] + e.sent == e.sent;
  }

  /** One round of a server that has seen its peer close, or sees it in this round. */
  lemma ServerRoundHushed(s: Server, io: ServerIo)
    ensures var r := ServerRound(s, io);
      && (r.ServerGoes? ==> (s.peerClosed ==> r.s.peerClosed) && (PeerClosed in ServerPolled(io) ==> r.s.peerClosed))
      && (s.peerClosed || PeerClosed in ServerPolled(io) ==>
           && (r.ServerGoes? ==> r.sent == None && !r.posted)
           && (r.ServerFails? ==> !r.posted))
  {
    hide ServerOnAll;
    if io.poll.Ok? { ServerSees(s, io.poll.value); }
  }

  /** Once the peer's closing was seen the server submits nothing more and posts no receive, whatever its state and
      whatever follows. */
  lemma {:induction false} ServerHushed(s: Server, rounds: seq<ServerIo>, n: nat)
    requires n <= |rounds| && (s.peerClosed || (n < |rounds| && PeerClosed in ServerPolled(rounds[n])))
    ensures var e, f := ServerRun(s, rounds[..n]), ServerRun(s, rounds); f.sent == e.sent && f.posted == e.posted
    decreases |rounds|
  {
    hide ServerRound, ServerPolled;
    if rounds == [] {
      assert rounds[..n] == rounds;
    } else {
      var r := ServerRound(s, rounds[0]);
      ServerRoundHushed(s, rounds[0]);
      if n == 0 {
        if r.ServerGoes? { ServerHushed(r.s, rounds[1..], 0); }
      } else {
        assert rounds[..n][0] == rounds[0] && rounds[..n][1..] == rounds[1..][..n - 1];
        if r.ServerGoes? { ServerHushed(r.s, rounds[1..], n - 1); }
      }
    }
  }

  lemma {:induction false} ServerSees(s: Server, es: seq<Event>)
    ensures var r := ServerOnAll(s, es); r.Going? ==> r.state.peerClosed == (s.peerClosed || PeerClosed in es)
    decreases |es|
  {
    if es != [] && ServerOn(s, es[0]).Going? { ServerSees(ServerOn(s, es[0]).state, es[1..]); }
  }
}
