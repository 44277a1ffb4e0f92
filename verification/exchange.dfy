/** The two application loops: the client's and the server's exchange state, and the
    loops that drive them from whatever the connection reports. */
module Exchange {
  import opened Transport

  datatype Option<T> = None | Some(value: T)

  /** The three payloads the two programs exchange. */
  datatype Message = Hello | World | Ack

  /** "hello", "world" and "ack". */
  function Bytes(m: Message): seq<bv8> {
    match m
    case Hello => [0x68, 0x65, 0x6c, 0x6c, 0x6f]
    case World => [0x77, 0x6f, 0x72, 0x6c, 0x64]
    case Ack => [0x61, 0x63, 0x6b]
  }

  lemma BytesDiffer(m: Message, n: Message)
    ensures Bytes(m) == Bytes(n) <==> m == n
  {
    if m != n {
      assert |Bytes(m)| != |Bytes(n)| || Bytes(m)[0] != Bytes(n)[0];
    }
  }

  /** Why an exchange failed. */
  datatype Failure = Io(error: Error) | BadMessage | BadCompletion | Deadline

  datatype Reaction<T> = Going(state: T) | Failed(why: Failure)

  /** How a whole exchange ended. */
  datatype Verdict = Success | Broken(why: Failure)

  /** What a loop did on the way: the messages the connection accepted, the receives it posted, the rounds it used. */
  datatype Tally = Tally(sent: seq<Message>, posted: nat, used: nat)

  /** How a loop ended, with its tally. */
  datatype Ending = Ending(verdict: Verdict, sent: seq<Message>, posted: nat, used: nat)

  /** The same after what was done before. */
  function Before(t: Tally, e: Ending): Ending {
    Ending(e.verdict, t.sent + e.sent, t.posted + e.posted, t.used + e.used)
  }

  function Plus(t: Tally, u: Tally): Tally { Tally(t.sent + u.sent, t.posted + u.posted, t.used + u.used) }

  function AsSeq(sent: Option<Message>): seq<Message> { if sent.Some? then [sent.value] else [] }

  /** The tally of one round that goes on. */
  function OneRound(posted: bool, sent: Option<Message>): Tally { Tally(AsSeq(sent), if posted then 1 else 0, 1) }

  lemma BeforeMore(t: Tally, u: Tally, e: Ending)
    ensures Before(t, Before(u, e)) == Before(Plus(t, u), e)
  {
    assert t.sent + (u.sent + e.sent) == t.sent + u.sent + e.sent;
  }

  // ------------------------------------------------------------------ client

  /** One message the client sends: submitted, and its completion seen. */
  datatype Sub = Sub(posted: bool, completed: bool)

  datatype Client = Client(connected: bool, peerClosed: bool, hello: Sub, ack: Sub, world: bool)

  const CLIENT_START := Client(false, false, Sub(false, false), Sub(false, false), false)

  function ClientOn(c: Client, e: Event): Reaction<Client> {
    match e
    case ConnectedNow => Going(c.(connected := true))
    case Received(message) =>
      if !c.hello.posted || c.world || message != Bytes(World) then Failed(BadMessage) else Going(c.(world := true))
    case Sent =>
      if c.ack.posted && !c.ack.completed then Going(c.(ack := c.ack.(completed := true)))
      else if c.hello.posted && !c.hello.completed then Going(c.(hello := c.hello.(completed := true)))
      else Failed(BadCompletion)
    case PeerClosed => Going(c.(peerClosed := true))
  }

  function ClientOnAll(c: Client, events: seq<Event>): Reaction<Client>
    decreases |events|
  {
    if events == [] then Going(c)
    else match ClientOn(c, events[0])
      case Failed(why) => Failed(why)
      case Going(next) => ClientOnAll(next, events[1..])
  }

  function NextMessage(c: Client): Option<Message> {
    if !c.connected || c.peerClosed then None
    else if !c.hello.posted then Some(Hello)
    else if c.hello.completed && c.world && !c.ack.posted then Some(Ack)
    else None
  }

  function ClientPosted(c: Client, m: Message): Client {
    if m == Hello then c.(hello := c.hello.(posted := true))
      else if m == Ack then c.(ack := c.ack.(posted := true)) else c
  }

  predicate ClientComplete(c: Client) { c.world && c.hello.completed && c.ack.completed }

  /** What one round of the client's loop leads to. */
  datatype ClientEnd = ClientGoes(c: Client, sent: Option<Message>) | ClientDone(c: Client) | ClientFails(why: Failure)

  /** After the events: stop if complete, otherwise try to send what is next. */
  function ClientAct(c: Client, send: Result<bool>): ClientEnd {
    if ClientComplete(c) then ClientDone(c)
    else match NextMessage(c)
      case None => ClientGoes(c, None)
      case Some(m) =>
        if send.Err? then ClientFails(Io(send.error))
        else if send.value then ClientGoes(ClientPosted(c, m), Some(m))
        else ClientGoes(c, None)
  }

  /** One round: take all events, then act. */
  function ClientRound(c: Client, poll: Result<seq<Event>>, send: Result<bool>): ClientEnd {
    if poll.Err? then ClientFails(Io(poll.error))
    else match ClientOnAll(c, poll.value)
      case Failed(why) => ClientFails(why)
      case Going(next) => ClientAct(next, send)
  }

  /** The answers of the connection during one round. */
  datatype ClientIo = ClientIo(poll: Result<seq<Event>>, send: Result<bool>)

  /** The whole loop; running out of rounds is the deadline. */
  function ClientRun(c: Client, rounds: seq<ClientIo>): Ending
    decreases |rounds|
  {
    if rounds == [] then Ending(Broken(Deadline), [], 0, 0)
    else match ClientRound(c, rounds[0].poll, rounds[0].send)
      case ClientFails(why) => Ending(Broken(why), [], 0, 1)
      case ClientDone(_) => Ending(Success, [], 0, 1)
      case ClientGoes(next, sent) => Before(OneRound(false, sent), ClientRun(next, rounds[1..]))
  }

  /** The client's state as the program keeps it. */
  class ClientExchange {
    var connected: bool
    var helloPosted: bool
    var helloCompleted: bool
    var worldReceived: bool
    var ackPosted: bool
    var ackCompleted: bool
    var peerClosed: bool

    function State(): Client
      reads this
    {
      Client(connected, peerClosed, Sub(helloPosted, helloCompleted), Sub(ackPosted, ackCompleted), worldReceived)
    }

    constructor ()
      ensures State() == CLIENT_START
    {
      connected, helloPosted, helloCompleted, worldReceived, ackPosted, ackCompleted, peerClosed :=
        false, false, false, false, false, false, false;
    }

    /** Take one event; an unexpected one leaves the state alone. */
    method OnEvent(event: Event) returns (r: Reaction<()>)
      modifies this
      ensures match ClientOn(old(State()), event)
        case Going(next) => r == Going(()) && State() == next
        case Failed(why) => r == Failed(why) && State() == old(State())
    {
      match event {
        case ConnectedNow => connected := true;
        case Received(message) =>
          if !helloPosted || worldReceived || message != Bytes(World) { return Failed(BadMessage); }
          worldReceived := true;
        case Sent =>
          if ackPosted && !ackCompleted {
            ackCompleted := true;
          } else if helloPosted && !helloCompleted {
            helloCompleted := true;
          } else {
            return Failed(BadCompletion);
          }
        case PeerClosed => peerClosed := true;
      }
      return Going(());
    }

    method Posted(m: Message)
      modifies this
      ensures State() == ClientPosted(old(State()), m)
    {
      match m
      case Hello => helloPosted := true;
      case Ack => ackPosted := true;
      case World =>
    }

    method TakeAll(events: seq<Event>) returns (r: Reaction<()>)
      modifies this
      ensures match ClientOnAll(old(State()), events)
        case Going(next) => r == Going(()) && State() == next
        case Failed(why) => r == Failed(why)
    {
      var i := 0;
      while i < |events|
        invariant i <= |events| && ClientOnAll(old(State()), events) == ClientOnAll(State(), events[i..])
      {
        assert events[i..][0] == events[i] && events[i..][1..] == events[i + 1..];
        var step := OnEvent(events[i]);
        if step.Failed? { return Failed(step.why); }
        i := i + 1;
      }
      return Going(());
    }

    /** One round of the client's loop. */
    method Round(io: ClientIo) returns (end: Option<Verdict>, sent: Option<Message>)
      modifies this
      ensures match ClientRound(old(State()), io.poll, io.send)
        case ClientFails(why) => end == Some(Broken(why)) && sent == None
        case ClientDone(_) => end == Some(Success) && sent == None
        case ClientGoes(next, message) => end == None && sent == message && State() == next
    {
      if io.poll.Err? { return Some(Broken(Io(io.poll.error))), None; }
      var taken := TakeAll(io.poll.value);
      if taken.Failed? { return Some(Broken(taken.why)), None; }
      if worldReceived && helloCompleted && ackCompleted { return Some(Success), None; }
      var message := NextMessage(State());
      if message == None { return None, None; }
      if io.send.Err? { return Some(Broken(Io(io.send.error))), None; }
      if !io.send.value { return None, None; }
      Posted(message.value);
      return None, message;
    }

    /** The client's loop, with the messages the connection accepted and the rounds it used. */
    method Drive(rounds: seq<ClientIo>) returns (r: Verdict, sent: seq<Message>, used: nat)
      modifies this
      ensures Ending(r, sent, 0, used) == ClientRun(old(State()), rounds)
    {
      hide ClientRound;
      sent, used := [], 0;
      while used < |rounds|
        invariant used <= |rounds|
        invariant ClientRun(old(State()), rounds) == Before(Tally(sent, 0, used), ClientRun(State(), rounds[used..]))
      {
        assert rounds[used..][0] == rounds[used] && rounds[used..][1..] == rounds[used + 1..];
        ghost var was := Tally(sent, 0, used);
        var end, message := Round(rounds[used]);
        used := used + 1;
        if end.Some? { return end.value, sent, used; }
        BeforeMore(was, OneRound(false, message), ClientRun(State(), rounds[used..]));
        sent := sent + AsSeq(message);
      }
      return Broken(Deadline), sent, used;
    }
  }

  // ------------------------------------------------------------------ server

  datatype Phase = AwaitHello | Reply | AwaitAck | Finished

  datatype Server = Server(phase: Phase, connected: bool, sent: bool, peerClosed: bool)

  const SERVER_START := Server(AwaitHello, false, false, false)

  function ServerOn(s: Server, e: Event): Reaction<Server> {
    match e
    case ConnectedNow => Going(s.(connected := true))
    case Sent => Going(s.(sent := true))
    case PeerClosed => Going(s.(peerClosed := true))
    case Received(message) =>
      if s.phase == AwaitHello && message == Bytes(Hello) then Going(s.(phase := Reply))
      else if s.phase == AwaitAck && message == Bytes(Ack) then Going(s.(phase := Finished))
      else Failed(BadMessage)
  }

  function ServerOnAll(s: Server, events: seq<Event>): Reaction<Server>
    decreases |events|
  {
    if events == [] then Going(s)
    else match ServerOn(s, events[0])
      case Failed(why) => Failed(why)
      case Going(next) => ServerOnAll(next, events[1..])
  }

  predicate ServerComplete(s: Server) { s.phase == Finished && s.sent }

  /** What one round of the server's loop leads to; `posted` tells whether it posted a receive. */
  datatype ServerEnd = ServerGoes(s: Server, posted: bool, sent: Option<Message>) | ServerDone(s: Server)
      | ServerFails(why: Failure, posted: bool)

  /** What the connection does in one round: the poll, whether a receive is posted already, and the
      results of posting one and of sending. */
  datatype ServerIo = ServerIo(poll: Result<seq<Event>>, pending: bool, post: Result<bool>, send: Result<bool>)

  predicate WantsReply(s: Server) { s.connected && !s.peerClosed && s.phase == Reply }

  /** After the events: stop if complete; to reply, first have a receive posted, then send. */
  function ServerAct(s: Server, pending: bool, post: Result<bool>, send: Result<bool>): ServerEnd {
    if ServerComplete(s) then ServerDone(s)
    else if !WantsReply(s) then ServerGoes(s, false, None)
    else if !pending && post.Err? then ServerFails(Io(post.error), false)
    else if !pending && !post.value then ServerGoes(s, false, None)
    else if send.Err? then ServerFails(Io(send.error), !pending)
    else if send.value then ServerGoes(s.(phase := AwaitAck), !pending, Some(World))
    else ServerGoes(s, !pending, None)
  }

  /** One round: take all events, then act. */
  function ServerRound(s: Server, io: ServerIo): ServerEnd {
    if io.poll.Err? then ServerFails(Io(io.poll.error), false)
    else match ServerOnAll(s, io.poll.value)
      case Failed(why) => ServerFails(why, false)
      case Going(next) => ServerAct(next, io.pending, io.post, io.send)
  }

  function ServerRun(s: Server, rounds: seq<ServerIo>): Ending
    decreases |rounds|
  {
    if rounds == [] then Ending(Broken(Deadline), [], 0, 0)
    else match ServerRound(s, rounds[0])
      case ServerFails(why, posted) => Ending(Broken(why), [], if posted then 1 else 0, 1)
      case ServerDone(_) => Ending(Success, [], 0, 1)
      case ServerGoes(next, posted, sent) => Before(OneRound(posted, sent), ServerRun(next, rounds[1..]))
  }

  /** The server's state as the program keeps it. */
  class ServerExchange {
    var phase: Phase
    var connected: bool
    var sent: bool
    var peerClosed: bool

    function State(): Server
      reads this
    {
      Server(phase, connected, sent, peerClosed)
    }

    constructor ()
      ensures State() == SERVER_START
    {
      phase, connected, sent, peerClosed := AwaitHello, false, false, false;
    }

    method OnEvent(event: Event) returns (r: Reaction<()>)
      modifies this
      ensures match ServerOn(old(State()), event)
        case Going(next) => r == Going(()) && State() == next
        case Failed(why) => r == Failed(why) && State() == old(State())
    {
      match event {
        case ConnectedNow => connected := true;
        case Sent => sent := true;
        case PeerClosed => peerClosed := true;
        case Received(message) =>
          if phase == AwaitHello && message == Bytes(Hello) {
            phase := Reply;
          } else if phase == AwaitAck && message == Bytes(Ack) {
            phase := Finished;
          } else {
            return Failed(BadMessage);
          }
      }
      return Going(());
    }

    method TakeAll(events: seq<Event>) returns (r: Reaction<()>)
      modifies this
      ensures match ServerOnAll(old(State()), events)
        case Going(next) => r == Going(()) && State() == next
        case Failed(why) => r == Failed(why)
    {
      var i := 0;
      while i < |events|
        invariant i <= |events| && ServerOnAll(old(State()), events) == ServerOnAll(State(), events[i..])
      {
        assert events[i..][0] == events[i] && events[i..][1..] == events[i + 1..];
        var step := OnEvent(events[i]);
        if step.Failed? { return Failed(step.why); }
        i := i + 1;
      }
      return Going(());
    }

    /** One round of the server's loop; `posted` tells whether it posted a receive. */
    method Round(io: ServerIo) returns (end: Option<Verdict>, posted: bool, sent: Option<Message>)
      modifies this
      ensures match ServerRound(old(State()), io)
        case ServerFails(why, receive) => end == Some(Broken(why)) && posted == receive && sent == None
        case ServerDone(_) => end == Some(Success) && !posted && sent == None
        case ServerGoes(next, receive, message) =>
          end == None && posted == receive && sent == message && State() == next
    {
      posted := false;
      if io.poll.Err? { return Some(Broken(Io(io.poll.error))), posted, None; }
      var taken := TakeAll(io.poll.value);
      if taken.Failed? { return Some(Broken(taken.why)), posted, None; }
      if phase == Finished && this.sent { return Some(Success), posted, None; }
      if !connected || peerClosed || phase != Reply { return None, posted, None; }
      if !io.pending {
        if io.post.Err? { return Some(Broken(Io(io.post.error))), posted, None; }
        if !io.post.value { return None, posted, None; }
        posted := true;
      }
      if io.send.Err? { return Some(Broken(Io(io.send.error))), posted, None; }
      if !io.send.value { return None, posted, None; }
      phase := AwaitAck;
      return None, posted, Some(World);
    }

    /** The server's loop, with the messages accepted, the receives posted and the rounds used. */
    method Serve(rounds: seq<ServerIo>) returns (r: Verdict, sent: seq<Message>, posted: nat, used: nat)
      modifies this
      ensures Ending(r, sent, posted, used) == ServerRun(old(State()), rounds)
    {
      hide ServerRound;
      sent, posted, used := [], 0, 0;
      while used < |rounds|
        invariant used <= |rounds|
        invariant ServerRun(old(State()), rounds) == Before(Tally(sent, posted, used),
          ServerRun(State(), rounds[used..]))
      {
        assert rounds[used..][0] == rounds[used] && rounds[used..][1..] == rounds[used + 1..];
        ghost var was := Tally(sent, posted, used);
        var end, receive, message := Round(rounds[used]);
        used := used + 1;
        if receive { posted := posted + 1; }
        if end.Some? { return end.value, sent, posted, used; }
        BeforeMore(was, OneRound(receive, message), ServerRun(State(), rounds[used..]));
        sent := sent + AsSeq(message);
      }
      return Broken(Deadline), sent, posted, used;
    }
  }
}
