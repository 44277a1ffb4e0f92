/** The Rust transport: connections, slots, requests and listeners over the shim.

    Every method follows one Rust method and is proved against the shim's contracts.
    The provider's answers are parameters. */
module Transport {
  import opened Handles
  import opened ResourceGraph
  import opened ShimSpec
  import opened GraphLaws
  import opened Shim
  import opened Ownership

  const BUFFER_SIZE: U64 := 64

  datatype Error =
    | Code(code: int) | Closing | InFlight | TooLong | UnexpectedTx | UnexpectedRx
    | Overlong | UnexpectedEvent | TimedOut | AlreadyHandled | ListenerClosed

  datatype Result<T> = Ok(value: T) | Err(error: Error)

  datatype Event = ConnectedNow | Received(message: seq<bv8>) | Sent | PeerClosed

  /** The provider's answers during one look at a completion queue, and at an event queue. */
  datatype CqProbe = CqProbe(read: CqRead, error: CqReadErr)
  datatype EqProbe = EqProbe(alloc: bool, read: EqRead, error: EqReadErr)

  /** `memory` is what the provider has put into the receive buffer by then. */
  datatype PollAnswers = PollAnswers(tx: CqProbe, rx: CqProbe, memory: seq<bv8>, eq: EqProbe)

  /** A buffer with its region, operation and in-flight flag.

      `box` is the allocation behind `bytes`; `freed` says whether it was given back. */
  class Slot {
    const base: U64
    const box: array<bv8>
    var bytes: array?<bv8>
    var mr: Mr?
    var op: Op?
    var pending: bool
    ghost var freed: bool

    /** The allocation outlives the region that covers it. */
    ghost predicate Sound()
      reads this
    {
      && base != 0 && box.Length == BUFFER_SIZE
      && (bytes != null ==> bytes == box && !freed)
      && (mr != null ==> mr.buffer == base && mr.capacity == BUFFER_SIZE && !freed)
    }

    constructor (base: U64)
      requires base != 0
      ensures Sound() && fresh(box) && bytes == box && mr == null && op == null && !pending && this.base == base
    {
      var b := new bv8[BUFFER_SIZE](_ => 0);
      this.base, box, bytes, mr, op, pending, freed := base, b, b, null, null, false, false;
    }

    /** Free the operation, close the region, then release the bytes; stop at the first failure. */
    method Close(w: World, fi: int) returns (code: int)
      requires w.Valid() && Sound() && LiveOp(w.g, op) && LiveMr(w.g, mr) && this !in w.objs
      modifies this, w`g, w.objs
      ensures w.Valid() && Sound() && w.objs == old(w.objs) && w.cm == old(w.cm)
      ensures var x1 := FreeOp(old(w.g), old(op));
        if x1.ret != 0 then
          code == x1.ret && w.g == old(w.g) && unchanged(this)
        else
          var x2 := CloseMr(x1.g, old(mr), fi);
          && code == x2.ret && w.g == x2.g && op == null
          && mr == (if code == 0 then null else old(mr))
          && bytes == (if code == 0 then null else old(bytes))
          && freed == (old(freed) || (code == 0 && old(bytes) != null))
          && pending == (old(pending) && code != 0)
    {
      hide World.Valid;
      if op != null {
        code := w.OpFree(op);
        if code != 0 { return; }
        op := null;
      }
      if mr != null {
        code := w.MrClose(mr, fi);
        if code != 0 { return; }
        mr := null;
      }
      if bytes != null { freed := true; }
      bytes := null;
      pending := false;
      return 0;
    }
  }

  // ------------------------------------------------------- what a poll says

  /** The transport's reading of one completion-queue poll: an error, or whether there was a completion. */
  function CqResult(x: PollOutcome): Result<bool> {
    if x.ret < 0 then Err(Code(x.ret))
    else if x.ret == 1 && x.out.err != 0 then Err(Code(x.out.err))
    else Ok(x.ret == 1)
  }

  function TxResult(x: PollOutcome): Result<seq<Event>> {
    match CqResult(x)
    case Err(e) => Err(e)
    case Ok(done) => Ok(if done then [Sent] else [])
  }

  function RxResult(x: PollOutcome, memory: seq<bv8>): Result<seq<Event>> {
    match CqResult(x)
    case Err(e) => Err(e)
    case Ok(done) =>
      if !done then Ok([])
      else if x.out.len > |memory| then Err(Overlong)
      else Ok([Received(memory[..x.out.len])])
  }

  function EqResult(x: EqOutcome): Result<seq<Event>> {
    if x.ret < 0 then Err(Code(x.ret))
    else if x.ret == 0 then Ok([])
    else if x.event.err != 0 then Err(Code(x.event.err))
    else match x.event.kind
      case ConnectedEvent => Ok([ConnectedNow])
      case ShutdownEvent => Ok([PeerClosed])
      case _ => Err(UnexpectedEvent)
  }

  /** The first of the three that fails, or all events in polling order. */
  function PollResult(tx: Result<seq<Event>>, rx: Result<seq<Event>>, eq: Result<seq<Event>>): Result<seq<Event>> {
    if tx.Err? then tx else if rx.Err? then rx else if eq.Err? then eq else Ok(tx.value + rx.value + eq.value)
  }

  /** What a poll of an open connection with handles `k` returns. */
  ghost function PollVerdict(g: Graph, k: Conn, a: PollAnswers): Result<seq<Event>> {
    var x1 := Polling(g, k, Direction.Send, a.tx.read, a.tx.error);
    var x2 := Polling(x1.g, k, Recv, a.rx.read, a.rx.error);
    PollResult(TxResult(x1), RxResult(x2, a.memory), EqResult(EqPoll(k.eq, a.eq.alloc, a.eq.read, a.eq.error)))
  }

  // ----------------------------------------- a poll in the provider's own terms

  /** A look at a queue that ends well; `shown` tells whether it shows the completion of `o`. */
  predicate LookFine(g: Graph, o: Op?, p: CqProbe, shown: bool) {
    if shown then Flies(g, o) && EntryOf(p.read, p.error, o, 0) else EntryQuiet(p.read, p.error)
  }

  /** A look that fails with `code`: the look itself, an error entry for `o`, or an entry for anything else. */
  ghost predicate LookFails(g: Graph, o: Op?, p: CqProbe, code: int) {
    || EntryBroken(p.read, p.error, code)
    || (Flies(g, o) && EntryOf(p.read, p.error, o, code) && code != 0)
    || (code == -EIO && EntryRead(p.read, p.error) && (!Flies(g, o) || forall e :: !EntryOf(p.read, p.error, o, e)))
  }

  /** How many bytes the completion of a receive announces. */
  function LookLength(p: CqProbe): U64 { if p.read.ret > 0 then p.read.len else 0 }

  /** A look at the event queue that shows nothing, the connection coming up, or the peer closing. */
  predicate EventsFine(p: EqProbe, events: seq<Event>) {
    p.alloc
    && (|| (p.read.ret == 0 && events == [])
        || (p.read.ret == -EAGAIN && events == [])
        || (p.read.ret == -EAVAIL && (p.error.ret == 0 || p.error.ret == -EAGAIN) && events == [])
        || (p.read.ret >= CM_ENTRY_SIZE && p.read.kind == CmKind.Connected && events == [ConnectedNow])
        || (p.read.ret >= CM_ENTRY_SIZE && p.read.kind == PeerShutdown && events == [PeerClosed]))
  }

  /** A look at the event queue that fails: no memory, a failed read, an error entry, a short entry, a request where
      none is expected, or an entry of another kind. */
  predicate EventsFail(p: EqProbe, e: Error) {
    if !p.alloc then e == Code(-ENOMEM)
    else
      || (p.read.ret < 0 && p.read.ret != -EAGAIN && p.read.ret != -EAVAIL && e == Code(p.read.ret))
      || (p.read.ret == -EAVAIL && p.error.ret < 0 && p.error.ret != -EAGAIN && e == Code(p.error.ret))
      || (p.read.ret == -EAVAIL && p.error.ret > 0
           && e == if p.error.err != 0 then Code(p.error.err) else UnexpectedEvent)
      || (0 < p.read.ret < CM_ENTRY_SIZE && e == Code(-EIO))
      || (p.read.ret >= CM_ENTRY_SIZE && p.read.kind == ConnReq
           && e == if p.read.info != null then UnexpectedEvent else Code(-EIO))
      || (p.read.ret >= CM_ENTRY_SIZE && p.read.kind == OtherCm && e == Code(-ENOSYS))
  }

  lemma EventAnswers(q: Eq, p: EqProbe, events: seq<Event>, e: Error)
    ensures var r := EqResult(EqPoll(q, p.alloc, p.read, p.error));
      (EventsFine(p, events) ==> r == Ok(events)) && (EventsFail(p, e) ==> r == Err(e))
  {
  }

  lemma PollKeeps(g: Graph, k: Conn, p: CqProbe)
    requires Inv(g) && Owns(g, k) && k.ep != null
    ensures var x := Polling(g, k, Direction.Send, p.read, p.error);
      Inv(x.g) && Owns(x.g, k) && Flies(x.g, k.rx.op) == Flies(g, k.rx.op)
  {
    hide Closed, Staged, Listed, Borrowed, Logged, Exclusive, Lanes, Match;
    OwnPoll(g, k, Direction.Send, p.read, p.error);
    assert k.rx.op != null ==> k.rx.op != k.tx.op;
    PollInv(g, k.tx.cq, p.error.context, 0, p.error.err, p.error.provErr);
    PollInv(g, k.tx.cq, p.read.context, p.read.len, 0, 0);
  }

  /** The look at the sends, in the provider's own terms.  The slot is released exactly by its own completion. */
  lemma TxTold(g: Graph, k: Conn, p: CqProbe, shown: bool, code: int)
    requires Inv(g) && Owns(g, k) && k.ep != null
    ensures var x := Polling(g, k, Direction.Send, p.read, p.error);
      && (LookFails(g, k.tx.op, p, code) ==> TxResult(x) == Err(Code(code)) && !Lands(x))
      && (LookFine(g, k.tx.op, p, shown) ==> TxResult(x) == Ok(if shown then [Sent] else []) && Lands(x) == shown)
  {
    hide Inv, Owns, Polling, EntryQuiet, EntryOf, EntryRead, Flies;
    LaneProbe(g, k, Direction.Send, p.read, p.error, 0, code);
    LaneProbe(g, k, Direction.Send, p.read, p.error, code, code);
  }

  /** The look at the receives: a completion brings the bytes it announces, if there are so many. */
  lemma RxTold(g: Graph, k: Conn, p: CqProbe, memory: seq<bv8>, shown: bool, code: int)
    requires Inv(g) && Owns(g, k) && k.ep != null
    ensures var x, n := Polling(g, k, Recv, p.read, p.error), LookLength(p);
      && (LookFails(g, k.rx.op, p, code) ==> RxResult(x, memory) == Err(Code(code)) && !Lands(x))
      && (LookFine(g, k.rx.op, p, shown) ==>
           && Lands(x) == shown
           && RxResult(x, memory) == if !shown then Ok([])
                                     else if n > |memory| then Err(Overlong)
                                     else Ok([Received(memory[..n])]))
  {
    hide Inv, Owns, Polling, EntryQuiet, EntryOf, EntryRead, Flies;
    LaneProbe(g, k, Recv, p.read, p.error, 0, code);
    LaneProbe(g, k, Recv, p.read, p.error, code, code);
  }

  /** A poll that releases the slot. */
  predicate Lands(x: PollOutcome) { x.ret == 1 && x.out.err == 0 }

  /** What a poll of an open connection returns, in the provider's own terms: the first look that fails decides, in the
      order sends, receives, events; otherwise the events of all three.  A slot is released exactly by the completion of
      its own operation, so a failed one stays in flight. */
  lemma PollTold(g: Graph, k: Conn, a: PollAnswers, sent: bool, got: bool, code: int, e: Error, events: seq<Event>)
    requires Inv(g) && Owns(g, k) && k.ep != null && k.eq != null
    ensures var r, n := PollVerdict(g, k, a), LookLength(a.rx);
      var t := LookFine(g, k.tx.op, a.tx, sent);
      var b := t && LookFine(g, k.rx.op, a.rx, got);
      && (LookFails(g, k.tx.op, a.tx, code) ==> r == Err(Code(code)))
      && (t && LookFails(g, k.rx.op, a.rx, code) ==> r == Err(Code(code)))
      && (b && got && n > |a.memory| ==> r == Err(Overlong))
      && (b && (got ==> n <= |a.memory|) && EventsFail(a.eq, e) ==> r == Err(e))
      && (b && (got ==> n <= |a.memory|) && EventsFine(a.eq, events) ==>
           r == Ok((if sent then [Sent] else []) + (if got then [Received(a.memory[..n])] else []) + events))
  {
    hide Inv, Owns, Polling, TxResult, RxResult, EqResult, EqPoll, EventsFine, EventsFail, LookLength;
    var x := Polling(g, k, Direction.Send, a.tx.read, a.tx.error);
    TxTold(g, k, a.tx, sent, code);
    PollKeeps(g, k, a.tx);
    RxTold(x.g, k, a.rx, a.memory, got, code);
    SameLook(g, x.g, k.rx.op, a.rx, got, code);
    EventAnswers(k.eq, a.eq, events, e);
    hide LookFine, LookFails;
  }

  lemma SameLook(g: Graph, g': Graph, o: Op?, p: CqProbe, shown: bool, code: int)
    requires Flies(g', o) == Flies(g, o)
    ensures LookFine(g', o, p, shown) == LookFine(g, o, p, shown)
      && LookFails(g', o, p, code) == LookFails(g, o, p, code)
  {
  }

  // ------------------------------------------- shim calls of one connection

  /** The slots of a connection with handles `k`. */
  ghost predicate Holds(w: World, k: Conn, tx: Slot, rx: Slot)
    reads tx, rx, w`objs
  {
    && tx != rx && tx !in w.objs && rx !in w.objs && tx.Sound() && rx.Sound()
    && tx.op == k.tx.op && tx.mr == k.tx.mr && rx.op == k.rx.op && rx.mr == k.rx.mr
  }

  /** One submission on a lane that is free. */
  method PostOn(w: World, k: Conn, dir: Direction, addr: U64, len: U64, fi: int, ghost txPending: bool,
                ghost rxPending: bool,
              ghost exact: bool) returns (ret: int)
    requires w.Valid() && Owns(w.g, k) && Complete(w.g, k) && Fitted(k) && Tracked(w.g, k, txPending, rxPending, exact)
    requires dir == Send || dir == Recv
    requires !(if dir == Recv then rxPending else txPending) && addr != 0 && Inside(LaneOf(k, dir).mr, addr, len)
    modifies w`g, w.objs
    ensures w.Valid() && w.objs == old(w.objs) && w.cm == old(w.cm)
    ensures ret == (if len > k.ep.maxMsg then -EINVAL else fi)
    ensures w.g == if ret == 0 then Sending(old(w.g), k, dir, addr, len) else old(w.g)
    ensures Owns(w.g, k) && Complete(w.g, k)
    ensures Tracked(w.g, k, txPending || (ret == 0 && dir == Send), rxPending || (ret == 0 && dir == Recv), exact)
    ensures SameRest(old(w.g), k, w.g, k)
  {
    hide SameRest, World.Valid, Inv, Owns, Complete, Tracked, Sending, ShimSpec.PostMessage;
    w.Consistent();
    Unflown(w.g, k, txPending, rxPending, exact);
    OwnPost(w.g, k, dir, addr, len, fi);
    OwnSubmit(w.g, k, dir, addr, len, txPending, rxPending, exact);
    RestSame(w.g, k);
    RestSubmit(w.g, k, dir, addr, len);
    ret := w.PostMessage(k.ep, LaneOf(k, dir).op, LaneOf(k, dir).mr, len, addr, dir == Recv, fi);
  }

  /** One look at a lane's completion queue. */
  method PollOn(w: World, k: Conn, dir: Direction, probe: CqProbe, ghost txPending: bool, ghost rxPending: bool,
                ghost exact: bool)
    returns (ret: int, out: Completion)
    requires w.Valid() && Owns(w.g, k) && Tracked(w.g, k, txPending, rxPending, exact)
    requires (dir == Send || dir == Recv) && LaneOf(k, dir).cq != null
    modifies w`g, w.objs
    ensures w.Valid() && w.objs == old(w.objs) && w.cm == old(w.cm)
    ensures PollOutcome(w.g, ret, out) == Polling(old(w.g), k, dir, probe.read, probe.error)
    ensures Owns(w.g, k) && (old(Complete(w.g, k)) ==> Complete(w.g, k)) && ret <= 1
    ensures ret != 1 ==> w.g == old(w.g) && Tracked(w.g, k, txPending, rxPending, exact)
    ensures ret == 1 ==>
      && (if dir == Recv then rxPending else txPending)
      && out.opId == (if dir == Recv then RX_ID else TX_ID) && out.flags == dir
      && Tracked(w.g, k, txPending, rxPending, false)
      && Tracked(w.g, k, txPending && dir == Recv, rxPending && dir == Send, exact)
    ensures SameRest(old(w.g), k, w.g, k)
  {
    hide SameRest, World.Valid, Inv, Owns, Tracked, Polling, ShimSpec.CqPoll;
    w.Consistent();
    OwnPoll(w.g, k, dir, probe.read, probe.error);
    ReportTracked(w.g, k, dir, probe.read, probe.error, txPending, rxPending, exact);
    ret, out := w.CqPoll(LaneOf(k, dir).cq, probe.read, probe.error);
  }

  method ShutdownOn(w: World, k: Conn, fi: int)
    requires w.Valid() && Owns(w.g, k) && k.ep != null
    modifies w`g, w`cm, w.objs
    ensures w.Valid() && w.objs == old(w.objs) && Owns(w.g, k) && NoTakeOff(old(w.g), w.g, k)
    ensures SameRest(old(w.g), k, w.g, k)
    ensures w.cm == if k.ep in old(w.g).eps && old(w.g).eps[k.ep].ready then old(w.cm) + [PeerTold(k.ep)] else old(w.cm)
  {
    hide SameRest, World.Valid, Inv, Owns, NoTakeOff;
    w.Consistent();
    OwnedParts(w.g, k);
    OwnShutdown(w.g, k, fi);
    RestShutdown(w.g, k, fi);
    var ret := w.Shutdown(k.ep, fi);
  }

  method CloseEpOn(w: World, k: Conn, fi: int) returns (code: int)
    requires w.Valid() && Owns(w.g, k) && k.ep != null
    modifies w`g, w`cm, w.objs
    ensures w.Valid() && w.objs == old(w.objs) && w.cm == old(w.cm) + [EpClosed(k.ep)] && code == fi
    ensures Owns(w.g, if fi == 0 then k.(ep := null) else k) && NoTakeOff(old(w.g), w.g, k)
    ensures SameRest(old(w.g), k, w.g, if fi == 0 then k.(ep := null) else k)
  {
    hide SameRest, World.Valid, Inv, Owns, NoTakeOff, CloseEp;
    w.Consistent();
    OwnedParts(w.g, k);
    OwnCloseEp(w.g, k, fi);
    RestCloseEp(w.g, k, fi);
    code := w.EndpointClose(k.ep, fi);
  }

  method CloseCqOn(w: World, k: Conn, dir: Direction, fi: int) returns (code: int)
    requires w.Valid() && Owns(w.g, k) && k.ep == null && (dir == Send || dir == Recv) && LaneOf(k, dir).cq != null
    modifies w`g, w.objs
    ensures w.Valid() && w.objs == old(w.objs) && w.cm == old(w.cm) && code == fi
    ensures Owns(w.g, if fi == 0 then WithLane(k, dir, LaneOf(k, dir).(cq := null)) else k)
      && NoTakeOff(old(w.g), w.g, k)
    ensures SameRest(old(w.g), k, w.g, if fi == 0 then WithLane(k, dir, LaneOf(k, dir).(cq := null)) else k)
  {
    hide SameRest, World.Valid, Inv, Owns, NoTakeOff, CloseCq;
    w.Consistent();
    OwnedParts(w.g, k);
    assert LiveCq(w.g, LaneOf(k, dir).cq);
    OwnCloseCq(w.g, k, dir, fi);
    RestCloseCq(w.g, k, dir, fi);
    code := w.CqClose(LaneOf(k, dir).cq, fi);
  }

  /** What is left of a lane once its operation was freed and its region closed, unless the provider refused. */
  function LaneSteps(k: Conn, dir: Direction, fi: int): (Conn, int) {
    var lane := LaneOf(k, dir);
    if lane.mr != null && fi != 0 then (WithLane(k, dir, lane.(op := null)), fi)
    else (WithLane(k, dir, lane.(op := null, mr := null)), 0)
  }

  method CloseSlotOn(w: World, k: Conn, dir: Direction, slot: Slot, fi: int) returns (k': Conn, code: int)
    requires w.Valid() && Owns(w.g, k) && (dir == Send || dir == Recv) && k.tx.cq == null && k.rx.cq == null
    requires slot.Sound() && slot !in w.objs && slot.op == LaneOf(k, dir).op && slot.mr == LaneOf(k, dir).mr
    modifies slot, w`g, w.objs
    ensures w.Valid() && w.objs == old(w.objs) && w.cm == old(w.cm) && slot.Sound()
    ensures (k', code) == LaneSteps(k, dir, fi) && Left(k, k')
    ensures k' == WithLane(k, dir, Lane(null, slot.mr, null)) && slot.op == null
      && slot.mr == if code == 0 then null else old(slot.mr)
    ensures slot.bytes == (if code == 0 then null else old(slot.bytes))
      && slot.pending == (old(slot.pending) && code != 0)
    ensures slot.freed == (old(slot.freed) || (code == 0 && old(slot.bytes) != null))
    ensures Owns(w.g, k') && NoTakeOff(old(w.g), w.g, k) && SameRest(old(w.g), k, w.g, k')
  {
    hide SameRest, World.Valid, Inv, Owns, NoTakeOff, FreeOp, CloseMr;
    w.Consistent();
    OwnSlotClose(w.g, k, dir, fi);
    RestSlot(w.g, k, dir, fi);
    code := slot.Close(w, fi);
    k' := WithLane(k, dir, Lane(null, slot.mr, null));
  }

  method CloseEqOn(w: World, k: Conn, fi: int) returns (code: int)
    requires w.Valid() && Owns(w.g, k) && k.ep == null && k.eq != null
    modifies w`g, w.objs
    ensures w.Valid() && w.objs == old(w.objs) && w.cm == old(w.cm) && code == fi
    ensures Owns(w.g, if fi == 0 then k.(eq := null) else k) && NoTakeOff(old(w.g), w.g, k)
    ensures SameRest(old(w.g), k, w.g, if fi == 0 then k.(eq := null) else k)
  {
    hide SameRest, World.Valid, Inv, Owns, NoTakeOff, CloseEq;
    w.Consistent();
    OwnedParts(w.g, k);
    OwnCloseEq(w.g, k, fi);
    RestCloseEq(w.g, k, fi);
    code := w.EqClose(k.eq, fi);
  }

  method CloseDomainOn(w: World, k: Conn, fi: int) returns (code: int)
    requires w.Valid() && Owns(w.g, k) && k.domain != null && k == NOTHING.(domain := k.domain)
    modifies w`g, w.objs
    ensures w.Valid() && w.objs == old(w.objs) && w.cm == old(w.cm) && code == fi
    ensures Owns(w.g, if fi == 0 then NOTHING else k)
    ensures SameRest(old(w.g), k, w.g, if fi == 0 then NOTHING else k)
  {
    hide SameRest, World.Valid, Inv, Owns, CloseDomain;
    w.Consistent();
    OwnedParts(w.g, k);
    OwnCloseDomain(w.g, k, fi);
    RestCloseDomain(w.g, k, fi);
    code := w.DomainClose(k.domain, fi);
  }

  /** The provider's answer to an open, after the allocation the shim makes for it. */
  datatype Answer = Answer(alloc: bool, fi: int)

  method OpenDomainOn(w: World, fabric: Fabric, info: Info, a: Answer) returns (k: Conn, code: int)
    requires w.Valid() && fabric in w.g.fabrics
    modifies w`g, w`objs, w.objs
    ensures w.Valid() && fresh(w.objs - old(w.objs)) && old(w.objs) <= w.objs && w.cm == old(w.cm)
      && fabric in w.g.fabrics
    ensures code == Opened(0, a.alloc, a.fi) && (code == 0 <==> k.domain != null)
    ensures Owns(w.g, k) && k == NOTHING.(domain := k.domain) && (k.domain != null ==> k.domain.fabric == fabric)
    ensures SameRest(old(w.g), NOTHING, w.g, k)
  {
    hide World.Valid, SameRest;
    w.Consistent();
    ghost var g0 := w.g;
    NothingOwned(g0);
    RestSame(g0, NOTHING);
    var d;
    code, d := w.DomainOpen(fabric, info, a.alloc, a.fi);
    k := NOTHING.(domain := d);
    if d != null {
      OwnDomain(g0, d);
      RestDomain(g0, d);
    }
  }

  method OpenEqOn(w: World, fabric: Fabric, k: Conn, a: Answer) returns (k': Conn, code: int)
    requires w.Valid() && fabric in w.g.fabrics && Owns(w.g, k) && k.eq == null && k.ep == null
    modifies w`g, w`objs, w.objs
    ensures w.Valid() && fresh(w.objs - old(w.objs)) && old(w.objs) <= w.objs && w.cm == old(w.cm)
      && fabric in w.g.fabrics
    ensures code == Opened(0, a.alloc, a.fi) && (code == 0 <==> k'.eq != null)
    ensures Owns(w.g, k') && k' == k.(eq := k'.eq) && (k'.eq != null ==> k'.eq.fabric == fabric)
    ensures SameRest(old(w.g), k, w.g, k')
  {
    hide SameRest, World.Valid, Owns;
    w.Consistent();
    ghost var g0 := w.g;
    RestSame(g0, k);
    var q;
    code, q := w.EqOpen(fabric, a.alloc, a.fi);
    k' := k.(eq := q);
    if q != null {
      OwnEq(g0, k, q);
      RestEq(g0, k, q);
    }
  }

  method OpenCqOn(w: World, k: Conn, dir: Direction, a: Answer) returns (k': Conn, code: int)
    requires w.Valid() && Owns(w.g, k) && k.ep == null && k.domain != null
    requires (dir == Send || dir == Recv) && LaneOf(k, dir).cq == null
    modifies w`g, w`objs, w.objs
    ensures w.Valid() && fresh(w.objs - old(w.objs)) && old(w.objs) <= w.objs && w.cm == old(w.cm)
    ensures code == Opened(0, a.alloc, a.fi)
    ensures Owns(w.g, k') && k' == WithLane(k, dir, LaneOf(k, dir).(cq := LaneOf(k', dir).cq))
    ensures var c := LaneOf(k', dir).cq; if code != 0 then c == null && w.g == old(w.g)
      else c != null && c.capacity == QUEUE_CAPACITY && w.g == AddCq(old(w.g), c) && c !in old(w.g.stages)
    ensures SameRest(old(w.g), k, w.g, k')
  {
    hide SameRest, World.Valid, Owns;
    w.Consistent();
    OwnedParts(w.g, k);
    ghost var g0 := w.g;
    RestSame(g0, k);
    var c;
    code, c := w.CqOpen(k.domain, QUEUE_CAPACITY, a.alloc, a.fi);
    k' := WithLane(k, dir, LaneOf(k, dir).(cq := c));
    if c != null {
      OwnCq(g0, k, dir, c);
      RestCq(g0, k, dir, c);
    }
  }

  /** An endpoint can be opened over the connection's queues: they are fresh. */
  predicate Pairable(g: Graph, k: Conn) {
    && k.domain != null && k.eq != null && k.tx.cq != null && k.rx.cq != null && k.eq.fabric == k.domain.fabric
    && k.tx.cq in g.stages && k.rx.cq in g.stages && g.stages[k.tx.cq].Unused? && g.stages[k.rx.cq].Unused?
  }

  lemma PairableGate(g: Graph, k: Conn, info: Info)
    requires Pairable(g, k) && AllLive(g, k) && Shaped(k)
    ensures LiveCq(g, k.tx.cq) && LiveCq(g, k.rx.cq)
    ensures EndpointGate(g, k.domain, info, k.eq, k.tx.cq, k.rx.cq) == if info.supported then 0 else -ENOSYS
  {
  }

  method OpenQueuesOn(w: World, k: Conn, tx: Answer, rx: Answer) returns (k': Conn, code: int)
    requires w.Valid() && Owns(w.g, k) && k.ep == null && k.tx.cq == null && k.rx.cq == null
    requires k.domain != null && k.eq != null && k.eq.fabric == k.domain.fabric
    modifies w`g, w`objs, w.objs
    ensures w.Valid() && fresh(w.objs - old(w.objs)) && old(w.objs) <= w.objs && w.cm == old(w.cm)
    ensures code == Then(Opened(0, tx.alloc, tx.fi), Opened(0, rx.alloc, rx.fi))
    ensures Owns(w.g, k') && QueuesFitted(k') && k' == k.(tx := k.tx.(cq := k'.tx.cq), rx := k.rx.(cq := k'.rx.cq))
    ensures code == 0 ==> Pairable(w.g, k')
    ensures SameRest(old(w.g), k, w.g, k')
  {
    hide SameRest, World.Valid, Owns;
    k', code := OpenCqOn(w, k, Direction.Send, tx);
    if code != 0 { return; }
    ghost var k1, g1 := k', w.g;
    k', code := OpenCqOn(w, k', Recv, rx);
    Further(old(w.g), k, g1, k1, w.g, k');
  }

  predicate QueuesFitted(k: Conn) {
    (k.tx.cq != null ==> k.tx.cq.capacity == QUEUE_CAPACITY) && (k.rx.cq != null ==> k.rx.cq.capacity == QUEUE_CAPACITY)
  }

  datatype EpAnswer = EpAnswer(alloc: bool, fi: EpAnswers)

  function EndpointCode(supported: bool, a: EpAnswer): int {
    if !supported then -ENOSYS else Opened(0, a.alloc, Then(a.fi.endpoint, SetupCode(a.fi)))
  }

  /** The connection keeps whatever endpoint the shim hands out, ready or not. */
  method OpenEndpointOn(w: World, k: Conn, info: Info, a: EpAnswer) returns (k': Conn, code: int)
    requires w.Valid() && Owns(w.g, k) && k.ep == null && Pairable(w.g, k) && info !in w.objs
    modifies w`g, w`objs, w`cm, w.objs
    ensures w.Valid() && fresh(w.objs - old(w.objs)) && old(w.objs) <= w.objs && (info.handle ==> w.cm == old(w.cm))
    ensures code == EndpointCode(info.supported, a) && (code == 0 ==> Open(w.g, k'))
    ensures Owns(w.g, k') && k' == k.(ep := k'.ep) && (k'.ep != null ==> k'.ep.maxMsg == info.maxMsg)
    ensures code == 0 ==> k'.ep != null
    ensures SameRest(old(w.g), k, w.g, k')
  {
    hide SameRest, World.Valid, Inv, Owns, ShimSpec.EndpointSetup, EndpointReturned, SetupCode, EndpointGate, Open;
    w.Consistent();
    OwnedParts(w.g, k);
    ghost var g0 := w.g;
    RestSame(g0, k);
    PairableGate(g0, k, info);
    var e;
    ghost var made;
    code, e, made := w.EndpointOpen(k.domain, info, k.eq, k.tx.cq, k.rx.cq, a.alloc, a.fi);
    k' := k.(ep := e);
    if made != null { OwnEndpoint(g0, k, made, info.handle, a.fi); }
  }

  datatype SlotAnswers = SlotAnswers(mr: Answer, op: bool)

  function SlotCode(a: SlotAnswers): int { Then(Opened(0, a.mr.alloc, a.mr.fi), Opened(0, a.op, 0)) }

  function Access(dir: Direction): bv32 { if dir == Recv then ACCESS_RECV else ACCESS_SEND }

  method OpenMrOn(w: World, k: Conn, dir: Direction, base: U64, a: Answer) returns (k': Conn, code: int)
    requires w.Valid() && Owns(w.g, k) && k.domain != null && (dir == Send || dir == Recv)
      && LaneOf(k, dir).mr == null && base != 0
    modifies w`g, w`objs, w.objs
    ensures w.Valid() && fresh(w.objs - old(w.objs)) && old(w.objs) <= w.objs && w.cm == old(w.cm)
    ensures w.g.eps == old(w.g).eps && w.g.ops == old(w.g).ops
    ensures code == Opened(0, a.alloc, a.fi) && Owns(w.g, k')
    ensures var m := LaneOf(k', dir).mr;
      && k' == WithLane(k, dir, LaneOf(k, dir).(mr := m)) && (code == 0 <==> m != null)
      && (m != null ==> m.buffer == base && m.capacity == BUFFER_SIZE && m.access == Access(dir))
    ensures SameRest(old(w.g), k, w.g, k')
  {
    hide SameRest, World.Valid, Owns;
    w.Consistent();
    OwnedParts(w.g, k);
    ghost var g0 := w.g;
    RestSame(g0, k);
    var m;
    code, m := w.MrRegister(k.domain, base, BUFFER_SIZE, Access(dir), a.alloc, a.fi);
    k' := WithLane(k, dir, LaneOf(k, dir).(mr := m));
    if m != null {
      OwnMr(g0, k, dir, m);
      RestMr(g0, k, dir, m);
    }
  }

  method OpenOpOn(w: World, k: Conn, dir: Direction, alloc: bool) returns (k': Conn, code: int)
    requires w.Valid() && Owns(w.g, k) && (dir == Send || dir == Recv) && LaneOf(k, dir).op == null
    modifies w`g, w`objs, w.objs
    ensures w.Valid() && fresh(w.objs - old(w.objs)) && old(w.objs) <= w.objs && w.cm == old(w.cm)
    ensures w.g.eps == old(w.g).eps && code == Opened(0, alloc, 0) && Owns(w.g, k')
    ensures var o := LaneOf(k', dir).op;
      && k' == WithLane(k, dir, LaneOf(k, dir).(op := o)) && (code == 0 <==> o != null)
      && !Flies(w.g, o) && (forall p | p in old(w.g).ops :: Flies(w.g, p) == Flies(old(w.g), p))
    ensures SameRest(old(w.g), k, w.g, k')
  {
    hide SameRest, World.Valid, Owns;
    w.Consistent();
    ghost var g0 := w.g;
    RestSame(g0, k);
    var o;
    code, o := w.OpCreate(if dir == Recv then RX_ID else TX_ID, alloc);
    k' := WithLane(k, dir, LaneOf(k, dir).(op := o));
    if o != null {
      OwnOp(g0, k, dir, o);
      RestOp(g0, k, dir, o);
    }
  }

  /** Register the slot's buffer, then create its operation. */
  method OpenSlotOn(w: World, k: Conn, dir: Direction, slot: Slot, a: SlotAnswers) returns (k': Conn, code: int)
    requires w.Valid() && Owns(w.g, k) && k.domain != null && (dir == Send || dir == Recv)
    requires LaneOf(k, dir).mr == null && LaneOf(k, dir).op == null
    requires slot.Sound() && slot.bytes != null && slot.mr == null && slot.op == null && slot !in w.objs
    modifies slot`mr, slot`op, w`g, w`objs, w.objs
    ensures w.Valid() && fresh(w.objs - old(w.objs)) && old(w.objs) <= w.objs && w.cm == old(w.cm)
      && w.g.eps == old(w.g).eps
    ensures code == SlotCode(a) && (code == 0 ==> slot.mr != null && slot.op != null) && slot.Sound()
    ensures Owns(w.g, k') && k' == WithLane(k, dir, Lane(LaneOf(k, dir).cq, slot.mr, slot.op)) && !Flies(w.g, slot.op)
    ensures slot.mr != null ==> slot.mr.access == Access(dir)
    ensures forall p | p in old(w.g).ops :: Flies(w.g, p) == Flies(old(w.g), p)
    ensures SameRest(old(w.g), k, w.g, k')
  {
    hide SameRest, World.Valid, Owns;
    k', code := OpenMrOn(w, k, dir, slot.base, a.mr);
    slot.mr := LaneOf(k', dir).mr;
    if code != 0 { return; }
    ghost var k1, g1 := k', w.g;
    k', code := OpenOpOn(w, k', dir, a.op);
    Further(old(w.g), k, g1, k1, w.g, k');
    slot.op := LaneOf(k', dir).op;
  }

  /** The provider's answers while a connection is set up, in order. */
  datatype InitAnswers = InitAnswers(domain: Answer, eq: Answer, txCq: Answer, rxCq: Answer, ep: EpAnswer,
                                     tx: SlotAnswers, rx: SlotAnswers)

  function ParentsCode(a: InitAnswers): int {
    Then(Opened(0, a.domain.alloc, a.domain.fi), Opened(0, a.eq.alloc, a.eq.fi))
  }

  function FrameCode(supported: bool, a: InitAnswers): int {
    Then(ParentsCode(a),
      Then(Then(Opened(0, a.txCq.alloc, a.txCq.fi), Opened(0, a.rxCq.alloc, a.rxCq.fi)), EndpointCode(supported, a.ep)))
  }

  /** The code of the first step of a setup that fails: none of the shim's own tests is among them,
      the endpoint's mode bits apart. */
  function InitCode(supported: bool, a: InitAnswers): int {
    Then(FrameCode(supported, a), Then(SlotCode(a.tx), SlotCode(a.rx)))
  }

  method OpenParentsOn(w: World, fabric: Fabric, info: Info, a: InitAnswers) returns (k: Conn, code: int)
    requires w.Valid() && fabric in w.g.fabrics
    modifies w`g, w`objs, w.objs
    ensures w.Valid() && fresh(w.objs - old(w.objs)) && old(w.objs) <= w.objs && w.cm == old(w.cm)
    ensures code == ParentsCode(a) && Owns(w.g, k) && k == NOTHING.(domain := k.domain, eq := k.eq)
    ensures code == 0 ==> k.domain != null && k.eq != null && k.eq.fabric == k.domain.fabric
    ensures SameRest(old(w.g), NOTHING, w.g, k)
  {
    hide SameRest, World.Valid, Owns;
    k, code := OpenDomainOn(w, fabric, info, a.domain);
    if code != 0 { return; }
    ghost var k1, g1 := k, w.g;
    k, code := OpenEqOn(w, fabric, k, a.eq);
    Further(old(w.g), NOTHING, g1, k1, w.g, k);
  }

  /** Domain, event queue, completion queues, endpoint. */
  method OpenFrameOn(w: World, fabric: Fabric, info: Info, a: InitAnswers) returns (k: Conn, code: int)
    requires w.Valid() && fabric in w.g.fabrics && info !in w.objs
    modifies w`g, w`objs, w`cm, w.objs
    ensures w.Valid() && fresh(w.objs - old(w.objs)) && old(w.objs) <= w.objs && (info.handle ==> w.cm == old(w.cm))
    ensures code == FrameCode(info.supported, a) && Owns(w.g, k) && QueuesFitted(k)
    ensures k == NOTHING.(domain := k.domain, eq := k.eq, ep := k.ep, tx := Lane(k.tx.cq, null, null),
      rx := Lane(k.rx.cq, null, null))
    ensures code == 0 ==> k.domain != null && Open(w.g, k) && k.ep != null && k.ep.maxMsg == info.maxMsg
    ensures SameRest(old(w.g), NOTHING, w.g, k)
  {
    hide SameRest, World.Valid, Owns, Open, Pairable;
    k, code := OpenParentsOn(w, fabric, info, a);
    if code != 0 { return; }
    ghost var k1, g1 := k, w.g;
    k, code := OpenQueuesOn(w, k, a.txCq, a.rxCq);
    Further(old(w.g), NOTHING, g1, k1, w.g, k);
    if code != 0 { return; }
    assert k.domain != null;
    ghost var k2, g2 := k, w.g;
    k, code := OpenEndpointOn(w, k, info, a.ep);
    Further(old(w.g), NOTHING, g2, k2, w.g, k);
  }

  method OpenSlotsOn(w: World, k: Conn, tx: Slot, rx: Slot, a: InitAnswers) returns (k': Conn, code: int)
    requires w.Valid() && Owns(w.g, k) && k.domain != null && QueuesFitted(k)
    requires k.tx == Lane(k.tx.cq, null, null) && k.rx == Lane(k.rx.cq, null, null)
    requires Holds(w, k, tx, rx) && tx.bytes != null && rx.bytes != null
    modifies tx`mr, tx`op, rx`mr, rx`op, w`g, w`objs, w.objs
    ensures w.Valid() && fresh(w.objs - old(w.objs)) && old(w.objs) <= w.objs && w.cm == old(w.cm)
      && w.g.eps == old(w.g).eps
    ensures code == Then(SlotCode(a.tx), SlotCode(a.rx)) && Owns(w.g, k') && Fitted(k')
    ensures k' == k.(tx := k'.tx, rx := k'.rx) && Holds(w, k', tx, rx)
    ensures Tracked(w.g, k', false, false, true)
    ensures code == 0 ==> k'.tx.mr != null && k'.tx.op != null && k'.rx.mr != null && k'.rx.op != null
    ensures SameRest(old(w.g), k, w.g, k')
  {
    hide SameRest, World.Valid, Owns;
    k', code := OpenSlotOn(w, k, Direction.Send, tx, a.tx);
    if code != 0 { return; }
    OwnedParts(w.g, k');
    ghost var k1, g1 := k', w.g;
    k', code := OpenSlotOn(w, k', Recv, rx, a.rx);
    Further(old(w.g), k, g1, k1, w.g, k');
  }

  /** Everything a setup opens, up to its first failure. */
  method OpenAllOn(w: World, fabric: Fabric, info: Info, a: InitAnswers, tx: Slot, rx: Slot)
    returns (k: Conn, code: int)
    requires w.Valid() && fabric in w.g.fabrics && info !in w.objs
    requires Holds(w, NOTHING, tx, rx) && tx.bytes != null && rx.bytes != null
    modifies tx`mr, tx`op, rx`mr, rx`op, w`g, w`objs, w`cm, w.objs
    ensures w.Valid() && fresh(w.objs - old(w.objs)) && old(w.objs) <= w.objs && (info.handle ==> w.cm == old(w.cm))
    ensures code == InitCode(info.supported, a) && Owns(w.g, k) && Fitted(k) && Holds(w, k, tx, rx)
    ensures Tracked(w.g, k, false, false, true)
      && (code == 0 ==> Complete(w.g, k) && k.ep != null && k.ep.maxMsg == info.maxMsg)
    ensures SameRest(old(w.g), NOTHING, w.g, k)
  {
    hide SameRest, World.Valid, Owns, FrameCode;
    k, code := OpenFrameOn(w, fabric, info, a);
    if code != 0 { return; }
    ghost var k1, g1 := k, w.g;
    k, code := OpenSlotsOn(w, k, tx, rx, a);
    Further(old(w.g), NOTHING, g1, k1, w.g, k);
  }

  /** The provider's answers while a connection closes, in order. */
  datatype CloseAnswers = CloseAnswers(shutdown: int, ep: int, txCq: int, rxCq: int, txMr: int, rxMr: int, eq: int,
                                       domain: int)

  /** Closing the queues: the handles left, and the code of the first close that failed. */
  function QueueSteps(k: Conn, a: CloseAnswers): (Conn, int) {
    if k.tx.cq != null && a.txCq != 0 then (k, a.txCq) else
    var k := k.(tx := k.tx.(cq := null));
    if k.rx.cq != null && a.rxCq != 0 then (k, a.rxCq) else (k.(rx := k.rx.(cq := null)), 0)
  }

  /** Closing the slots, likewise. */
  function SlotSteps(k: Conn, a: CloseAnswers): (Conn, int) {
    var s := LaneSteps(k, Direction.Send, a.txMr);
    if s.1 != 0 then s else LaneSteps(s.0, Recv, a.rxMr)
  }

  /** Closing event queue and domain, likewise. */
  function ParentSteps(k: Conn, a: CloseAnswers): (Conn, int) {
    if k.eq != null && a.eq != 0 then (k, a.eq) else
    var k := k.(eq := null);
    if k.domain != null && a.domain != 0 then (k, a.domain) else (k.(domain := null), 0)
  }

  function LowerSteps(k: Conn, a: CloseAnswers): (Conn, int) {
    var s := QueueSteps(k, a);
    if s.1 != 0 then s else RestSteps(s.0, a)
  }

  function RestSteps(k: Conn, a: CloseAnswers): (Conn, int) {
    var s := SlotSteps(k, a);
    if s.1 != 0 then s else ParentSteps(s.0, a)
  }

  /** A whole close: endpoint, queues, slots, event queue, domain. */
  function CloseSteps(k: Conn, a: CloseAnswers): (Conn, int) {
    if k.ep != null && a.ep != 0 then (k, a.ep) else LowerSteps(k.(ep := null), a)
  }

  /** What a close may do to a slot: nothing, free its operation, or release operation, region and bytes. */
  twostate predicate SlotStep(slot: Slot)
    reads slot
  {
    || (slot.bytes == old(slot.bytes) && slot.freed == old(slot.freed) && slot.pending == old(slot.pending))
    || (slot.bytes == null && slot.mr == null && slot.op == null && !slot.pending
        && slot.freed == (old(slot.freed) || old(slot.bytes) != null))
  }

  method CloseQueuesOn(w: World, k: Conn, a: CloseAnswers) returns (k': Conn, code: int)
    requires w.Valid() && Owns(w.g, k) && k.ep == null
    modifies w`g, w.objs
    ensures w.Valid() && w.objs == old(w.objs) && w.cm == old(w.cm)
    ensures (k', code) == QueueSteps(k, a) && Left(k, k') && Owns(w.g, k') && NoTakeOff(old(w.g), w.g, k')
    ensures SameRest(old(w.g), k, w.g, k')
  {
    hide SameRest, World.Valid, Owns;
    RestSame(w.g, k);
    k', code := k, 0;
    if k'.tx.cq != null {
      code := CloseCqOn(w, k', Direction.Send, a.txCq);
      if code != 0 { return; }
      k' := k'.(tx := k'.tx.(cq := null));
    }
    if k'.rx.cq != null {
      ghost var k1, g1 := k', w.g;
      code := CloseCqOn(w, k', Recv, a.rxCq);
      if code == 0 { k' := k'.(rx := k'.rx.(cq := null)); }
      Further(old(w.g), k, g1, k1, w.g, k');
    }
  }

  method CloseSlotsOn(w: World, k: Conn, a: CloseAnswers, tx: Slot, rx: Slot) returns (k': Conn, code: int)
    requires w.Valid() && Owns(w.g, k) && k.tx.cq == null && k.rx.cq == null && Holds(w, k, tx, rx)
    modifies tx, rx, w`g, w.objs
    ensures w.Valid() && w.objs == old(w.objs) && w.cm == old(w.cm)
    ensures (k', code) == SlotSteps(k, a) && Left(k, k') && Owns(w.g, k') && NoTakeOff(old(w.g), w.g, k')
    ensures Holds(w, k', tx, rx) && SlotStep(tx) && SlotStep(rx) && (code == 0 ==> tx.bytes == null && rx.bytes == null)
    ensures SameRest(old(w.g), k, w.g, k')
  {
    hide SameRest, World.Valid, Owns, LaneSteps;
    k', code := CloseSlotOn(w, k, Direction.Send, tx, a.txMr);
    if code != 0 { return; }
    ghost var k1, g1 := k', w.g;
    k', code := CloseSlotOn(w, k', Recv, rx, a.rxMr);
    Further(old(w.g), k, g1, k1, w.g, k');
  }

  method CloseParentsOn(w: World, k: Conn, a: CloseAnswers) returns (k': Conn, code: int)
    requires w.Valid() && Owns(w.g, k) && k == NOTHING.(eq := k.eq, domain := k.domain)
    modifies w`g, w.objs
    ensures w.Valid() && w.objs == old(w.objs) && w.cm == old(w.cm)
    ensures (k', code) == ParentSteps(k, a) && Left(k, k') && Owns(w.g, k')
    ensures SameRest(old(w.g), k, w.g, k')
  {
    hide SameRest, World.Valid, Owns;
    RestSame(w.g, k);
    k', code := k, 0;
    if k'.eq != null {
      code := CloseEqOn(w, k', a.eq);
      if code != 0 { return; }
      k' := k'.(eq := null);
    }
    if k'.domain != null {
      ghost var k1, g1 := k', w.g;
      code := CloseDomainOn(w, k', a.domain);
      if code == 0 { k' := k'.(domain := null); }
      Further(old(w.g), k, g1, k1, w.g, k');
    }
  }

  method CloseRestOn(w: World, k: Conn, a: CloseAnswers, tx: Slot, rx: Slot) returns (k': Conn, code: int)
    requires w.Valid() && Owns(w.g, k) && k.ep == null && k.tx.cq == null && k.rx.cq == null && Holds(w, k, tx, rx)
    modifies tx, rx, w`g, w.objs
    ensures w.Valid() && w.objs == old(w.objs) && w.cm == old(w.cm)
    ensures (k', code) == RestSteps(k, a) && Left(k, k') && Owns(w.g, k') && NoTakeOff(old(w.g), w.g, k')
    ensures Holds(w, k', tx, rx) && SlotStep(tx) && SlotStep(rx) && (code == 0 ==> tx.bytes == null && rx.bytes == null)
    ensures SameRest(old(w.g), k, w.g, k')
  {
    hide SameRest, World.Valid, Owns;
    k', code := CloseSlotsOn(w, k, a, tx, rx);
    if code != 0 { return; }
    ghost var k1, g1 := k', w.g;
    k', code := CloseParentsOn(w, k', a);
    Further(old(w.g), k, g1, k1, w.g, k');
  }

  method CloseLowerOn(w: World, k: Conn, a: CloseAnswers, tx: Slot, rx: Slot) returns (k': Conn, code: int)
    requires w.Valid() && Owns(w.g, k) && k.ep == null && Holds(w, k, tx, rx)
    modifies tx, rx, w`g, w.objs
    ensures w.Valid() && w.objs == old(w.objs) && w.cm == old(w.cm)
    ensures (k', code) == LowerSteps(k, a) && Left(k, k') && Owns(w.g, k') && NoTakeOff(old(w.g), w.g, k')
    ensures Holds(w, k', tx, rx) && SlotStep(tx) && SlotStep(rx) && (code == 0 ==> tx.bytes == null && rx.bytes == null)
    ensures SameRest(old(w.g), k, w.g, k')
  {
    hide SameRest, World.Valid, Owns, RestSteps;
    k', code := CloseQueuesOn(w, k, a);
    if code != 0 { return; }
    ghost var k1, g1 := k', w.g;
    k', code := CloseRestOn(w, k', a, tx, rx);
    Further(old(w.g), k, g1, k1, w.g, k');
  }

  /** Tell the peer if it has to be told, then close the endpoint. */
  method StopOn(w: World, k: Conn, tell: bool, a: CloseAnswers) returns (code: int)
    requires w.Valid() && Owns(w.g, k) && k.ep != null
    modifies w`g, w`cm, w.objs
    ensures w.Valid() && w.objs == old(w.objs) && w.cm == Stopped(old(w.g), old(w.cm), k.ep, tell) && code == a.ep
    ensures var k' := if code == 0 then k.(ep := null) else k;
      Owns(w.g, k') && NoTakeOff(old(w.g), w.g, k) && SameRest(old(w.g), k, w.g, k')
  {
    hide SameRest, World.Valid, Owns;
    RestSame(w.g, k);
    if tell { ShutdownOn(w, k, a.shutdown); }
    ghost var g1 := w.g;
    code := CloseEpOn(w, k, a.ep);
    Further(old(w.g), k, g1, k, w.g, if code == 0 then k.(ep := null) else k);
  }

  /** Everything a connection closes, in order, after telling the peer if it has to. */
  method CloseAllOn(w: World, k: Conn, a: CloseAnswers, tell: bool, tx: Slot, rx: Slot) returns (k': Conn, code: int)
    requires w.Valid() && Owns(w.g, k) && Holds(w, k, tx, rx)
    modifies tx, rx, w`g, w`cm, w.objs
    ensures w.Valid() && w.objs == old(w.objs)
    ensures w.cm == if k.ep != null then Stopped(old(w.g), old(w.cm), k.ep, tell) else old(w.cm)
    ensures (k', code) == CloseSteps(k, a) && Left(k, k') && Owns(w.g, k') && NoTakeOff(old(w.g), w.g, k')
    ensures Holds(w, k', tx, rx) && SlotStep(tx) && SlotStep(rx) && (code == 0 ==> tx.bytes == null && rx.bytes == null)
    ensures SameRest(old(w.g), k, w.g, k')
  {
    hide SameRest, World.Valid, Owns, LowerSteps;
    RestSame(w.g, k);
    k', code := k, 0;
    if k'.ep != null {
      code := StopOn(w, k', tell, a);
      if code != 0 { return; }
      k' := k'.(ep := null);
    }
    ghost var k1, g1 := k', w.g;
    k', code := CloseLowerOn(w, k', a, tx, rx);
    Further(old(w.g), k, g1, k1, w.g, k');
  }

  // -------------------------------------------------------------- connections

  /** One round of the receive retry: the submission's answer, whether the deadline has passed, one poll. */
  datatype Round = Round(fi: int, expired: bool, poll: PollAnswers)

  predicate Rounds(rounds: seq<Round>) {
    forall i | 0 <= i < |rounds| :: |rounds[i].poll.memory| == BUFFER_SIZE
  }


  /** What a poll returns while nothing is in flight. */
  function IdleResult(a: PollAnswers): Result<()> {
    var t, r := IdleCode(a.tx.read, a.tx.error), IdleCode(a.rx.read, a.rx.error);
    if t < 0 then Err(Code(t)) else if r < 0 then Err(Code(r)) else
    match EqResult(EventRead(a.eq.alloc, a.eq.read, a.eq.error))
    case Ok(_) => Ok(())
    case Err(e) => Err(e)
  }

  /** How the attempts to post the first receive end, on an endpoint for messages of at most `maxMsg` bytes. */
  function ReceiveResult(maxMsg: U64, rounds: seq<Round>): Result<()>
    decreases |rounds|
  {
    if rounds == [] then Err(TimedOut) else
    match RoundResult(maxMsg, rounds[0])
    case Err(e) => Err(e)
    case Ok(posted) => if posted then Ok(()) else ReceiveResult(maxMsg, rounds[1..])
  }

  /** One attempt: posted, to be repeated, or failed. */
  function RoundResult(maxMsg: U64, round: Round): Result<bool> {
    var code := if BUFFER_SIZE > maxMsg then -EINVAL else round.fi;
    if code == 0 then Ok(true)
    else if code != -EAGAIN then Err(Code(code))
    else if round.expired then Err(TimedOut)
    else match IdleResult(round.poll)
      case Ok(_) => Ok(false)
      case Err(e) => Err(e)
  }

  /** How a whole setup ends. */
  function SetupResult(supported: bool, maxMsg: U64, a: InitAnswers, rounds: seq<Round>): Result<()> {
    var code := InitCode(supported, a);
    if code != 0 then Err(Code(code)) else ReceiveResult(maxMsg, rounds)
  }

  class Connection {
    const w: World
    const fabric: Fabric
    var domain: Domain?
    var eq: Eq?
    var txCq: Cq?
    var rxCq: Cq?
    var ep: Endpoint?
    const tx: Slot
    const rx: Slot
    var cmStarted: bool
    var closing: bool
    /** A completion with an error was taken off a queue. */
    ghost var lost: bool

    function Handles(): Conn
      reads this, tx, rx
    {
      Conn(domain, eq, ep, Lane(txCq, tx.mr, tx.op), Lane(rxCq, rx.mr, rx.op))
    }

    /** The transport's own objects, apart from the shim's. */
    ghost predicate Apart()
      reads this, w`objs
    {
      tx != rx && tx.box != rx.box && this !in w.objs && tx !in w.objs && rx !in w.objs && tx.box !in w.objs
        && rx.box !in w.objs
    }

    ghost predicate Valid()
      reads this, tx, rx, w`g, w`objs
    {
      && Apart() && tx.Sound() && rx.Sound()
      && Owns(w.g, Handles()) && Fitted(Handles())
      && Tracked(w.g, Handles(), tx.pending, rx.pending, !closing && !lost)
      && (!closing ==> tx.bytes != null && rx.bytes != null)
    }

    /** Set up completely, and not closed since. */
    ghost predicate Ready()
      reads this, tx, rx, w`g
    {
      Complete(w.g, Handles())
    }

    constructor (w: World, fabric: Fabric, txBase: U64, rxBase: U64)
      requires w.Valid() && txBase != 0 && rxBase != 0
      ensures this.w == w && this.fabric == fabric && fresh(tx) && fresh(rx) && fresh(tx.box) && fresh(rx.box)
      ensures Valid() && w.Valid() && Handles() == NOTHING && !cmStarted && !closing && !lost && !tx.pending
        && !rx.pending
    {
      hide World.Valid;
      w.Consistent();
      NothingOwned(w.g);
      this.w, this.fabric := w, fabric;
      domain, eq, txCq, rxCq, ep := null, null, null, null, null;
      tx := new Slot(txBase);
      rx := new Slot(rxBase);
      cmStarted, closing, lost := false, false, false;
    }

    // ------------------------------------------------------------- messages

    /** The code of a submission on a lane that is free: only size limit and provider decide. */
    function SubmitCode(len: U64, fi: int): int
      reads this
    {
      if ep != null && len > ep.maxMsg then -EINVAL else fi
    }

    /** The length of a message that fits the buffer. */
    static function Size(message: seq<bv8>): U64 { if |message| <= BUFFER_SIZE then |message| else BUFFER_SIZE }

    /** The buffer once `message` was copied to its front. */
    static function Overwritten(bytes: seq<bv8>, message: seq<bv8>): (r: seq<bv8>)
      ensures |r| == |bytes|
    {
      if |message| <= |bytes| then message + bytes[|message|..] else bytes
    }

    static function Posted(code: int): Result<bool> {
      if code == -EAGAIN then Ok(false) else if code == 0 then Ok(true) else Err(Code(code))
    }

    /** The shim call both directions share; on success the slot is in flight. */
    method Submission(slot: Slot, dir: Direction, len: U64, fi: int) returns (ret: int)
      requires w.Valid() && Valid() && Ready() && !closing && !slot.pending && len <= BUFFER_SIZE
      requires dir != Unset && slot == if dir == Recv then rx else tx
      modifies slot`pending, w`g, w.objs
      ensures SameRest(old(w.g), old(Handles()), w.g, Handles())
      ensures w.Valid() && Valid() && Ready() && w.objs == old(w.objs) && w.cm == old(w.cm)
      ensures ret == SubmitCode(len, fi) && slot.pending == (ret == 0)
      ensures w.g == if ret == 0 then Sending(old(w.g), Handles(), dir, slot.base, len) else old(w.g)
    {
      hide SameRest, World.Valid, Owns, Tracked, Sending;
      ret := PostOn(w, Handles(), dir, slot.base, len, fi, tx.pending, rx.pending, !closing && !lost);
      if ret == 0 { slot.pending := true; }
    }

    /** Post the receive buffer; `Ok(false)` means nothing was submitted. */
    method PostRecv(fi: int) returns (r: Result<bool>)
      requires w.Valid() && Valid() && (closing || ep == null || Ready())
      modifies rx`pending, w`g, w.objs
      ensures SameRest(old(w.g), old(Handles()), w.g, Handles())
      ensures w.Valid() && Valid() && w.objs == old(w.objs) && w.cm == old(w.cm) && (old(Ready()) ==> Ready())
      ensures if ep == null || closing then r == Err(Closing) && w.g == old(w.g) && rx.pending == old(rx.pending)
        else if old(rx.pending) then r == Err(InFlight) && w.g == old(w.g) && rx.pending
        else var code := SubmitCode(BUFFER_SIZE, fi);
          && r == Posted(code) && rx.pending == (code == 0)
          && w.g == if code == 0 then Sending(old(w.g), Handles(), Recv, rx.base, BUFFER_SIZE) else old(w.g)
    {
      hide SameRest, World.Valid, Owns, Tracked;
      RestSame(w.g, Handles());
      if ep == null || closing { return Err(Closing); }
      if rx.pending { return Err(InFlight); }
      hide Connection.Valid, Connection.Ready, Sending;
      var ret := Submission(rx, Recv, BUFFER_SIZE, fi);
      if ret == -EAGAIN { return Ok(false); }
      if ret != 0 { return Err(Code(ret)); }
      return Ok(true);
    }

    /** Copy a message into the send buffer and post it.  The buffer of a message in flight is not touched. */
    method Send(message: seq<bv8>, fi: int) returns (r: Result<bool>)
      requires w.Valid() && Valid() && (closing || ep == null || Ready())
      modifies tx`pending, tx.box, w`g, w.objs
      ensures w.Valid() && Valid() && w.objs == old(w.objs) && w.cm == old(w.cm) && (old(Ready()) ==> Ready())
      ensures old(tx.pending) ==> tx.box[..] == old(tx.box[..])
      ensures if ep == null || closing then r == Err(Closing) && w.g == old(w.g) && tx.pending == old(tx.pending)
        else if old(tx.pending) then r == Err(InFlight) && w.g == old(w.g) && tx.pending
        else if |message| > BUFFER_SIZE then r == Err(TooLong) && w.g == old(w.g) && !tx.pending
        else var code := SubmitCode(Size(message), fi);
          && r == Posted(code) && tx.pending == (code == 0)
          && tx.box[..] == Overwritten(old(tx.box[..]), message)
          && w.g == if code == 0 then Sending(old(w.g), Handles(), Direction.Send, tx.base, Size(message)) else old(w.g)
      ensures SameRest(old(w.g), old(Handles()), w.g, Handles())
    {
      hide SameRest, World.Valid, Owns, Tracked;
      RestSame(w.g, Handles());
      if ep == null || closing { return Err(Closing); }
      if tx.pending { return Err(InFlight); }
      var bytes: array<bv8> := tx.bytes;
      if |message| > bytes.Length { return Err(TooLong); }
      CopyIn(bytes, message);
      hide Connection.Valid, Connection.Ready, Sending;
      var ret := Submission(tx, Direction.Send, Size(message), fi);
      if ret == -EAGAIN { return Ok(false); }
      if ret != 0 { return Err(Code(ret)); }
      return Ok(true);
    }

    static method CopyIn(bytes: array<bv8>, message: seq<bv8>)
      requires |message| <= bytes.Length
      modifies bytes
      ensures bytes[..] == Overwritten(old(bytes[..]), message)
    {
      forall i | 0 <= i < |message| { bytes[i] := message[i]; }
    }

    // ---------------------------------------------------------------- polling

    /** Look at the send queue.  That the completion is the send slot's own is a fact, not a hope. */
    method PollTx(probe: CqProbe) returns (r: Result<seq<Event>>)
      requires w.Valid() && Valid() && !closing && txCq != null
      modifies tx`pending, this`lost, w`g, w.objs
      ensures SameRest(old(w.g), old(Handles()), w.g, Handles())
      ensures w.Valid() && Valid() && w.objs == old(w.objs) && w.cm == old(w.cm) && (old(Ready()) ==> Ready())
      ensures var x := Polling(old(w.g), Handles(), Direction.Send, probe.read, probe.error);
        && r == TxResult(x) && w.g == x.g && (x.ret == 1 ==> old(tx.pending))
        && tx.pending == (old(tx.pending) && !(x.ret == 1 && x.out.err == 0))
        && lost == (old(lost) || (x.ret == 1 && x.out.err != 0))
    {
      hide World.Valid, Owns, Tracked, Polling, Complete, SameRest, Fitted;
      var ret, done := PollOn(w, Handles(), Direction.Send, probe, tx.pending, rx.pending, !closing && !lost);
      if ret == 0 { return Ok([]); }
      if ret < 0 { return Err(Code(ret)); }
      if done.err != 0 {
        lost := true;
        return Err(Code(done.err));
      }
      if !tx.pending || done.opId != TX_ID || done.flags != Direction.Send { return Err(UnexpectedTx); }
      tx.pending := false;
      return Ok([Sent]);
    }

    /** Look at the receive queue and copy a received message out of the buffer. */
    method PollRx(probe: CqProbe, memory: seq<bv8>) returns (r: Result<seq<Event>>)
      requires w.Valid() && Valid() && !closing && rxCq != null && |memory| == BUFFER_SIZE
      modifies rx`pending, rx.box, this`lost, w`g, w.objs
      ensures SameRest(old(w.g), old(Handles()), w.g, Handles())
      ensures w.Valid() && Valid() && w.objs == old(w.objs) && w.cm == old(w.cm) && (old(Ready()) ==> Ready())
      ensures var x := Polling(old(w.g), Handles(), Recv, probe.read, probe.error);
        && r == RxResult(x, memory) && w.g == x.g && (x.ret == 1 ==> old(rx.pending))
        && rx.pending == (old(rx.pending) && !(x.ret == 1 && x.out.err == 0))
        && lost == (old(lost) || (x.ret == 1 && x.out.err != 0))
    {
      hide World.Valid, Owns, Tracked, Polling, Complete, SameRest, Fitted;
      var ret, done := PollOn(w, Handles(), Recv, probe, tx.pending, rx.pending, !closing && !lost);
      if ret == 0 { return Ok([]); }
      if ret < 0 { return Err(Code(ret)); }
      if done.err != 0 {
        lost := true;
        return Err(Code(done.err));
      }
      if !rx.pending || done.opId != RX_ID || done.flags != Recv { return Err(UnexpectedRx); }
      rx.pending := false;
      var bytes: array<bv8> := rx.bytes;
      CopyIn(bytes, memory);
      assert bytes[..] == memory;
      if done.len > bytes.Length { return Err(Overlong); }
      assert bytes[..done.len] == memory[..done.len];
      return Ok([Received(bytes[..done.len])]);
    }

    /** Look once at each queue: sends, receives, then connection events.  The completions that would
        not belong to a slot cannot occur, whatever contexts the provider returns. */
    method Poll(a: PollAnswers) returns (r: Result<seq<Event>>)
      requires w.Valid() && Valid() && |a.memory| == BUFFER_SIZE
      modifies tx`pending, rx`pending, rx.box, this`lost, w`g, w.objs
      ensures SameRest(old(w.g), old(Handles()), w.g, Handles())
      ensures w.Valid() && Valid() && w.objs == old(w.objs) && w.cm == old(w.cm) && (old(Ready()) ==> Ready())
      ensures r != Err(UnexpectedTx) && r != Err(UnexpectedRx)
      ensures if ep == null || closing then
          r == Err(Closing) && w.g == old(w.g) && tx.pending == old(tx.pending) && rx.pending == old(rx.pending)
            && lost == old(lost)
        else
          var x1 := Polling(old(w.g), Handles(), Direction.Send, a.tx.read, a.tx.error);
          var x2 := Polling(x1.g, Handles(), Recv, a.rx.read, a.rx.error);
          var t1, t2 := TxResult(x1), RxResult(x2, a.memory);
          && r == PollVerdict(old(w.g), Handles(), a)
          && w.g == (if t1.Err? then x1.g else x2.g)
          && tx.pending == (old(tx.pending) && !Lands(x1))
          && rx.pending == (old(rx.pending) && !(t1.Ok? && Lands(x2)))
          && lost == (old(lost) || (x1.ret == 1 && x1.out.err != 0) || (t1.Ok? && x2.ret == 1 && x2.out.err != 0))
    {
      hide SameRest, World.Valid, Owns, Tracked, Polling, Complete;
      RestSame(w.g, Handles());
      if ep == null || closing { return Err(Closing); }
      assert txCq != null && rxCq != null by { OwnedParts(w.g, Handles()); }
      hide Connection.Valid, Connection.Ready, CqResult;
      var t1 := PollTx(a.tx);
      if t1.Err? { return t1; }
      ghost var g1 := w.g;
      var t2 := PollRx(a.rx, a.memory);
      Further(old(w.g), old(Handles()), g1, old(Handles()), w.g, Handles());
      if t2.Err? { return t2; }
      var events := EqResult(EqPoll(eq, a.eq.alloc, a.eq.read, a.eq.error));
      if events.Err? { return events; }
      return Ok(t1.value + t2.value + events.value);
    }

    // ---------------------------------------------------------------- closing

    /** Take over what a close has left. */
    method Adopt(k: Conn)
      requires Apart() && Holds(w, k, tx, rx) && Owns(w.g, k) && Fitted(k)
        && Tracked(w.g, k, tx.pending, rx.pending, false)
      modifies this`closing, this`cmStarted, this`ep, this`txCq, this`rxCq, this`eq, this`domain
      ensures Valid() && closing && Handles() == k && cmStarted == (old(cmStarted) && old(ep) == null)
    {
      hide Owns, Tracked, Fitted;
      closing := true;
      if ep != null { cmStarted := false; }
      ep, txCq, rxCq, eq, domain := k.ep, k.tx.cq, k.rx.cq, k.eq, k.domain;
    }

    /** A connection that was set up tells its peer, if the handshake was started, and then closes its endpoint. */
    lemma TellsAndCloses()
      ensures ep != null && Ready() ==>
        Stopped(w.g, w.cm, ep, cmStarted) == w.cm + if cmStarted then [PeerTold(ep), EpClosed(ep)] else [EpClosed(ep)]
    {
    }

    /** Close what is left, in order, up to the first close the provider refuses.  No close meets an
        EBUSY of the shim; a refused close can be repeated. */
    method Close(a: CloseAnswers) returns (r: Result<()>)
      requires w.Valid() && Valid()
      modifies this, tx, rx, w`g, w`cm, w.objs
      ensures w.Valid() && Valid() && closing && w.objs == old(w.objs)
      ensures var s := CloseSteps(old(Handles()), a);
        Handles() == s.0 && r == if s.1 == 0 then Ok(()) else Err(Code(s.1))
      ensures w.cm == if old(ep) != null then Stopped(old(w.g), old(w.cm), old(ep), old(cmStarted)) else old(w.cm)
      ensures old(ep) != null && old(Ready()) ==>
        w.cm == old(w.cm) + if old(cmStarted) then [PeerTold(old(ep)), EpClosed(old(ep))] else [EpClosed(old(ep))]
      ensures SlotStep(tx) && SlotStep(rx)
      ensures r.Ok? ==> tx.bytes == null && rx.bytes == null
      ensures cmStarted == (old(cmStarted) && old(ep) == null)
      ensures SameRest(old(w.g), old(Handles()), w.g, Handles())
    {
      hide SameRest, World.Valid, Owns, CloseSteps, Fitted, Tracked, NoTakeOff, Left, Stopped, Ready;
      w.Consistent();
      TellsAndCloses();
      ghost var k0, g0, p0, q0, x0 := Handles(), w.g, tx.pending, rx.pending, !closing && !lost;
      var k, code := CloseAllOn(w, Handles(), a, cmStarted, tx, rx);
      LeftTracked(g0, w.g, k0, k, p0, q0, x0, tx.pending, rx.pending);
      hide Connection.Valid, SlotStep;
      Adopt(k);
      return if code == 0 then Ok(()) else Err(Code(code));
    }

    // ------------------------------------------------------------------ setup

    /** Open, with nothing posted for receiving. */
    ghost predicate Waiting()
      reads this, tx, rx, w`g, w`objs, w.objs
    {
      w.Valid() && Valid() && !closing && Ready() && !tx.pending && !rx.pending
    }

    /** Open, with a receive posted and nothing sent. */
    ghost predicate Opened()
      reads this, tx, rx, w`g
    {
      Ready() && !closing && !tx.pending && rx.pending
    }

    lemma Standing()
      requires Waiting()
      ensures Apart() && ep != null
    {
    }

    /** Open every handle, up to the first failure. */
    method OpenHandles(info: Info, a: InitAnswers) returns (code: int)
      requires w.Valid() && Valid() && Handles() == NOTHING && !closing && !tx.pending && !rx.pending && !lost
      requires fabric in w.g.fabrics && info !in w.objs
      modifies this`domain, this`eq, this`txCq, this`rxCq, this`ep, tx`mr, tx`op, rx`mr, rx`op, w`g, w`objs, w`cm,
        w.objs
      ensures SameRest(old(w.g), old(Handles()), w.g, Handles())
      ensures w.Valid() && Valid() && fresh(w.objs - old(w.objs)) && (info.handle ==> w.cm == old(w.cm))
      ensures code == InitCode(info.supported, a) && (code == 0 ==> Waiting() && ep.maxMsg == info.maxMsg && !lost)
    {
      hide SameRest, World.Valid, Owns, InitCode, Complete;
      var k;
      k, code := OpenAllOn(w, fabric, info, a, tx, rx);
      domain, eq, txCq, rxCq, ep := k.domain, k.eq, k.tx.cq, k.rx.cq, k.ep;
    }

    /** While nothing is in flight a poll depends on the provider alone, and changes nothing. */
    method IdlePoll(a: PollAnswers) returns (r: Result<()>)
      requires Waiting() && |a.memory| == BUFFER_SIZE
      modifies tx`pending, rx`pending, rx.box, this`lost, w`g, w.objs
      ensures Waiting() && w.g == old(w.g) && lost == old(lost) && w.objs == old(w.objs) && w.cm == old(w.cm)
      ensures r == IdleResult(a)
    {
      hide World.Valid, Owns, Fitted, Tracked, Inv, Flies, Polling, SameRest;
      w.Consistent();
      Unflown(w.g, Handles(), tx.pending, rx.pending, !closing && !lost);
      IdleLook(w.g, Handles(), Direction.Send, a.tx.read, a.tx.error);
      IdleLook(w.g, Handles(), Recv, a.rx.read, a.rx.error);
      OwnedParts(w.g, Handles());
      assert eq != null;
      hide Connection.Valid, IdleCode;
      var polled := Poll(a);
      r := if polled.Ok? then Ok(()) else Err(polled.error);
    }

    /** One attempt to post the first receive; when it has to be repeated, one poll. */
    method TryReceive(round: Round) returns (r: Result<bool>)
      requires Waiting() && |round.poll.memory| == BUFFER_SIZE
      modifies tx`pending, rx`pending, rx.box, this`lost, w`g, w.objs
      ensures SameRest(old(w.g), old(Handles()), w.g, Handles()) && ep != null && r == RoundResult(ep.maxMsg, round)
      ensures if r == Ok(true) then w.Valid() && Valid() && Opened() else Waiting()
      ensures w.g == if r == Ok(true) then Sending(old(w.g), Handles(), Recv, rx.base, BUFFER_SIZE) else old(w.g)
      ensures w.objs == old(w.objs) && w.cm == old(w.cm) && lost == old(lost) && cmStarted == old(cmStarted)
    {
      hide SameRest, World.Valid, Owns, Sending, Complete, IdleResult;
      RestSame(w.g, Handles());
      Standing();
      hide Connection.Valid, Connection.Ready;
      r := PostRecv(round.fi);
      if r.Err? || r.value { return; }
      if round.expired { return Err(TimedOut); }
      var polled := IdlePoll(round.poll);
      if polled.Err? { return Err(polled.error); }
      return Ok(false);
    }

    /** Post the first receive, polling between attempts; the last round is the last before the deadline. */
    method FirstReceive(rounds: seq<Round>) returns (r: Result<()>)
      requires Waiting() && Rounds(rounds)
      modifies tx`pending, rx`pending, rx.box, this`lost, w`g, w.objs
      ensures SameRest(old(w.g), old(Handles()), w.g, Handles()) && ep != null && r == ReceiveResult(ep.maxMsg, rounds)
      ensures if r.Ok? then w.Valid() && Valid() && Opened() else Waiting()
      ensures w.g == if r.Ok? then Sending(old(w.g), Handles(), Recv, rx.base, BUFFER_SIZE) else old(w.g)
      ensures w.objs == old(w.objs) && w.cm == old(w.cm) && lost == old(lost) && cmStarted == old(cmStarted)
    {
      hide SameRest, Sending, RoundResult, Connection.Waiting, World.Valid, Connection.Valid, Connection.Ready;
      Standing();
      RestSame(w.g, Handles());
      var i := 0;
      while i < |rounds|
        invariant i <= |rounds| && Waiting() && w.objs == old(w.objs) && w.cm == old(w.cm) && lost == old(lost)
          && cmStarted == old(cmStarted)
        invariant w.g == old(w.g) && ReceiveResult(ep.maxMsg, rounds) == ReceiveResult(ep.maxMsg, rounds[i..])
      {
        assert rounds[i..][0] == rounds[i] && rounds[i..][1..] == rounds[i + 1..];
        var posted := TryReceive(rounds[i]);
        if posted.Err? { return Err(posted.error); }
        if posted.value { return Ok(()); }
        i := i + 1;
      }
      return Err(TimedOut);
    }

    /** Prepare every resource and a posted receive.  It may stop at any step; what it leaves can be closed. */
    method Initialize(info: Info, a: InitAnswers, rounds: seq<Round>) returns (r: Result<()>)
      requires w.Valid() && Valid() && Handles() == NOTHING && !closing && !tx.pending && !rx.pending && !lost
        && Rounds(rounds)
      requires fabric in w.g.fabrics && info !in w.objs
      modifies this`domain, this`eq, this`txCq, this`rxCq, this`ep, this`lost, tx, rx, rx.box, w`g, w`objs, w`cm, w.objs
      ensures SameRest(old(w.g), old(Handles()), w.g, Handles())
        && r == SetupResult(info.supported, info.maxMsg, a, rounds)
      ensures w.Valid() && Valid() && fresh(w.objs - old(w.objs)) && (info.handle ==> w.cm == old(w.cm))
      ensures cmStarted == old(cmStarted) && (r.Ok? ==> !lost && Opened() && Flies(w.g, rx.op))
    {
      hide SameRest, World.Valid, InitCode, Owns, ReceiveResult;
      var code := OpenHandles(info, a);
      if code != 0 { return Err(Code(code)); }
      assert !closing && fresh(w.objs - old(w.objs));
      hide Connection.Waiting, Connection.Ready, Connection.Opened;
      ghost var k1, g1 := Handles(), w.g;
      r := FirstReceive(rounds);
      Further(old(w.g), NOTHING, g1, k1, w.g, Handles());
    }

    method Accept(fi: int) returns (ret: int)
      requires w.Valid() && Valid() && Ready()
      modifies this`cmStarted, w`cm
      ensures w.Valid() && Valid() && Ready() && ret == fi && ep != null && cmStarted == (old(cmStarted) || ret == 0)
      ensures w.cm == if ret == 0 then old(w.cm) + [Accepted(ep)] else old(w.cm)
    {
      hide World.Valid, Owns, Fitted, Tracked;
      ret := w.Accept(ep, fi);
      if ret == 0 { cmStarted := true; }
    }

    method StartConnect(info: Info, fi: int) returns (ret: int)
      requires w.Valid() && Valid() && Ready()
      modifies this`cmStarted
      ensures w.Valid() && Valid() && Ready() && ret == (if !info.hasDest then -EINVAL else fi)
      ensures cmStarted == (old(cmStarted) || ret == 0)
    {
      hide World.Valid, Owns, Fitted, Tracked;
      ret := w.Connect(ep, info, fi);
      if ret == 0 { cmStarted := true; }
    }

    /** Close; if the provider refuses, the buffers are leaked rather than freed. */
    method Drop(a: CloseAnswers)
      requires w.Valid() && Valid()
      modifies this, tx, rx, w`g, w`cm, w.objs
      ensures w.Valid() && Valid() && w.objs == old(w.objs) && Handles() == CloseSteps(old(Handles()), a).0
      ensures w.cm == if old(ep) != null then Stopped(old(w.g), old(w.cm), old(ep), old(cmStarted)) else old(w.cm)
      ensures old(ep) != null && old(Ready()) ==>
        w.cm == old(w.cm) + if old(cmStarted) then [PeerTold(old(ep)), EpClosed(old(ep))] else [EpClosed(old(ep))]
      ensures tx.bytes == null && rx.bytes == null
      ensures (tx.mr != null ==> !tx.freed) && (rx.mr != null ==> !rx.freed)
      ensures SameRest(old(w.g), old(Handles()), w.g, Handles())
    {
      hide SameRest, World.Valid, Owns, CloseSteps, Tracked, Fitted;
      var r := Close(a);
      if r.Err? {
        tx.bytes := null;
        rx.bytes := null;
      }
    }
  }

  /** A connection request, to be accepted or rejected once. */
  class Request {
    const w: World
    const listener: Listener
    const info: Info
    var handled: bool

    ghost predicate Valid()
      reads this, w`g, w`objs
    {
      this !in w.objs && info !in w.objs && listener in w.g.listeners
    }

    constructor (w: World, listener: Listener, info: Info)
      requires w.Valid() && listener in w.g.listeners && info !in w.objs
      ensures this.w == w && this.listener == listener && this.info == info && !handled && Valid() && w.Valid()
    {
      hide World.Valid;
      this.w, this.listener, this.info, handled := w, listener, info, false;
    }

    /** The request reaches the provider's reject at most once. */
    method Reject(fi: int) returns (r: Result<()>)
      requires w.Valid() && Valid()
      modifies this`handled, info, w`cm
      ensures w.Valid() && Valid() && handled
      ensures if old(handled) then r == Ok(()) && w.cm == old(w.cm) && info.handle == old(info.handle)
        else if w.g.listeners[listener] && old(info.handle)
        then r == (if fi == 0 then Ok(()) else Err(Code(fi))) && w.cm == old(w.cm) + [Rejected(info)] && !info.handle
        else r == Err(Code(-EINVAL)) && w.cm == old(w.cm) && info.handle == old(info.handle)
    {
      hide World.Valid;
      if handled { return Ok(()); }
      handled := true;
      var ret := w.Reject(listener, info, fi);
      return if ret == 0 then Ok(()) else Err(Code(ret));
    }
  }

  /** How a request may appear among the connection-management calls of an attempt to serve it:
      accepted; or rejected first and only then its endpoint closed. */
  predicate Answered(was: seq<CmCall>, cm: seq<CmCall>, info: Info, accepted: Endpoint?) {
    if accepted != null then cm == was + [Accepted(accepted)]
    else was + [Rejected(info)] <= cm && |cm| <= |was| + 2 && (|cm| == |was| + 2 ==> cm[|was| + 1].EpClosed?)
  }

  /** The provider's answers while a request is served. */
  datatype ServeAnswers = ServeAnswers(setup: InitAnswers, rounds: seq<Round>, accept: int, reject: int,
                                       close: CloseAnswers)

  /** How an attempt to set up and accept ends. */
  function AcceptResult(info: Info, a: ServeAnswers): Result<()> {
    var setup := SetupResult(info.supported, info.maxMsg, a.setup, a.rounds);
    if setup.Err? then setup else if a.accept != 0 then Err(Code(a.accept)) else Ok(())
  }

  /** How a client's attempt to connect ends. */
  function ConnectResult(info: Info, a: InitAnswers, rounds: seq<Round>, connect: int): Result<()> {
    var setup := SetupResult(info.supported, info.maxMsg, a, rounds);
    if setup.Err? then setup
    else if !info.hasDest then Err(Code(-EINVAL))
    else if connect != 0 then Err(Code(connect))
    else Ok(())
  }

  /** An attempt that failed and was then closed without refusal has left no trace but in the log. */
  lemma NoTrace(g: Graph, k: Conn, g': Graph, g'': Graph, a: CloseAnswers)
    requires SameRest(g, NOTHING, g', k) && SameRest(g', k, g'', CloseSteps(k, a).0)
    ensures Cooperative(a) ==> SameButLog(g, g'')
  {
    hide CloseSteps, SameRest;
    CloseLaws(k, a);
    if Cooperative(a) { RoundTrip(g, k, g', g''); }
  }

  /** Set up a connection and accept the request; `handled` is set once the provider accepted. */
  method TryAccept(request: Request, conn: Connection, a: ServeAnswers) returns (r: Result<()>)
    requires request.w == conn.w && conn.w.Valid() && request.Valid() && conn.Valid() && Rounds(a.rounds)
      && !request.handled
    requires conn.Handles() == NOTHING && !conn.closing && !conn.tx.pending && !conn.rx.pending && !conn.lost
      && !conn.cmStarted
    requires conn.fabric in conn.w.g.fabrics
    modifies request`handled, conn, conn.tx, conn.rx, conn.rx.box, conn.w`g, conn.w`objs, conn.w`cm, conn.w.objs
    ensures conn.w.Valid() && request.Valid() && conn.Valid() && fresh(conn.w.objs - old(conn.w.objs))
    ensures r == AcceptResult(request.info, a)
    ensures request.handled == r.Ok? && SameRest(old(conn.w.g), NOTHING, conn.w.g, conn.Handles())
    ensures r.Err? ==> !conn.cmStarted
    ensures r.Ok? ==> conn.cmStarted && conn.ep != null && conn.Opened() && !conn.lost && Flies(conn.w.g, conn.rx.op)
    ensures request.info.handle ==> conn.w.cm == if r.Ok? then old(conn.w.cm) + [Accepted(conn.ep)] else old(conn.w.cm)
  {
    hide SameRest, World.Valid, Connection.Valid, Connection.Ready, InitCode, SetupResult, Flies;
    r := conn.Initialize(request.info, a.setup, a.rounds);
    RestParents(old(conn.w.g), NOTHING, conn.w.g, conn.Handles());
    if r.Err? { return; }
    var ret := conn.Accept(a.accept);
    if ret != 0 { return Err(Code(ret)); }
    request.handled := true;
    return Ok(());
  }

  /** After a failed attempt: reject the request, then close its endpoint with the rest. */
  method GiveUp(request: Request, conn: Connection, a: ServeAnswers)
    requires request.w == conn.w && conn.w.Valid() && request.Valid() && conn.Valid() && !request.handled
    modifies request`handled, request.info, conn, conn.tx, conn.rx, conn.w`g, conn.w`cm, conn.w.objs
    ensures conn.w.Valid() && conn.Valid() && conn.w.objs == old(conn.w.objs) && request.handled
    ensures SameRest(old(conn.w.g), old(conn.Handles()), conn.w.g, CloseSteps(old(conn.Handles()), a.close).0)
    ensures conn.tx.bytes == null && conn.rx.bytes == null
    ensures (conn.tx.mr != null ==> !conn.tx.freed) && (conn.rx.mr != null ==> !conn.rx.freed)
    ensures old(conn.w.g.listeners[request.listener] && request.info.handle) ==>
      var cm := old(conn.w.cm) + [Rejected(request.info)];
      conn.w.cm == if old(conn.ep) != null then Stopped(old(conn.w.g), cm, old(conn.ep), old(conn.cmStarted)) else cm
  {
    hide SameRest, World.Valid, Owns, CloseSteps, Tracked, Fitted;
    var rejected := request.Reject(a.reject);
    conn.Drop(a.close);
  }

  /** Serve a request: accept it with a connection that already has a receive posted, or reject it,
      always before its endpoint is closed. */
  method FromRequest(request: Request, fabric: Fabric, txBase: U64, rxBase: U64, a: ServeAnswers)
    returns (r: Result<Connection>)
    requires request.w.Valid() && request.Valid() && fabric in request.w.g.fabrics && Rounds(a.rounds) && txBase != 0
      && rxBase != 0
    modifies request, request.info, request.w`g, request.w`objs, request.w`cm, request.w.objs
    ensures request.w.Valid() && fresh(request.w.objs - old(request.w.objs)) && request.handled
    ensures if old(request.handled) then r == Err(AlreadyHandled) else
      (r.Ok? <==> AcceptResult(request.info, a).Ok?) && (r.Err? ==> Err(r.error) == AcceptResult(request.info, a))
    ensures old(request.handled) ==> request.w.cm == old(request.w.cm) && request.w.g == old(request.w.g)
    ensures r.Ok? ==>
      fresh(r.value) && r.value.w == request.w && r.value.ep != null && r.value.Valid() && r.value.cmStarted
                      && r.value.Opened() && !r.value.lost && Flies(request.w.g, r.value.rx.op)
    ensures r.Ok? ==> SameRest(old(request.w.g), NOTHING, request.w.g, r.value.Handles())
    ensures r.Err? && Cooperative(a.close) ==> SameButLog(old(request.w.g), request.w.g)
    ensures !old(request.handled) && old(request.w.g.listeners[request.listener] && request.info.handle) ==>
      Answered(old(request.w.cm), request.w.cm, request.info, if r.Ok? then r.value.ep else null)
  {
    hide SameRest, World.Valid, Connection.Valid, Connection.Ready, InitCode, SetupResult, Flies;
    if request.handled { return Err(AlreadyHandled); }
    var conn := new Connection(request.w, fabric, txBase, rxBase);
    var setup := TryAccept(request, conn, a);
    RestParents(old(request.w.g), NOTHING, request.w.g, conn.Handles());
    if setup.Ok? { return Ok(conn); }
    ghost var k1, g1 := conn.Handles(), request.w.g;
    GiveUp(request, conn, a);
    NoTrace(old(request.w.g), k1, g1, request.w.g, a.close);
    return Err(setup.error);
  }

  /** Start a client connection.  It returns with a receive posted and the handshake under way. */
  method Connect(w: World, fabric: Fabric, info: Info, txBase: U64, rxBase: U64, a: InitAnswers, rounds: seq<Round>,
                 connect: int, close: CloseAnswers) returns (r: Result<Connection>)
    requires w.Valid() && fabric in w.g.fabrics && info !in w.objs && Rounds(rounds) && txBase != 0 && rxBase != 0
    modifies w`g, w`objs, w`cm, w.objs
    ensures w.Valid() && fresh(w.objs - old(w.objs))
    ensures r.Ok? ==> fresh(r.value) && r.value.w == w && r.value.Valid() && r.value.cmStarted
                      && r.value.Opened() && !r.value.lost && Flies(w.g, r.value.rx.op)
    ensures r.Ok? ==> SameRest(old(w.g), NOTHING, w.g, r.value.Handles())
    ensures r.Err? && Cooperative(close) ==> SameButLog(old(w.g), w.g)
    ensures (r.Ok? <==> ConnectResult(info, a, rounds, connect).Ok?)
      && (r.Err? ==> Err(r.error) == ConnectResult(info, a, rounds, connect))
  {
    hide SameRest, World.Valid, Connection.Valid, Connection.Ready, InitCode, SetupResult, Flies, CloseSteps;
    var conn := new Connection(w, fabric, txBase, rxBase);
    var setup := conn.Initialize(info, a, rounds);
    if setup.Ok? {
      var ret := conn.StartConnect(info, connect);
      if ret == 0 { return Ok(conn); }
      setup := Err(Code(ret));
    }
    ghost var k1, g1 := conn.Handles(), w.g;
    conn.Drop(close);
    NoTrace(old(w.g), k1, g1, w.g, close);
    return Err(setup.error);
  }

  // ---------------------------------------------------------------- listening

  method UnlistenOn(w: World, fabric: Fabric, q: Eq?, l: Listener, fi: int) returns (code: int)
    requires w.Valid() && Listens(w.g, fabric, q, l)
    modifies w`g, w.objs
    ensures w.Valid() && w.objs == old(w.objs) && w.cm == old(w.cm) && code == fi
    ensures Listens(w.g, fabric, q, if fi == 0 then null else l)
    ensures ListenRest(old(w.g), q, l, w.g, q, if fi == 0 then null else l)
  {
    hide ListenRest, World.Valid, Inv, Listens, CloseListener;
    w.Consistent();
    ListenClosed(w.g, fabric, q, l, fi);
    ListenParts(w.g, fabric, q, l);
    code := w.ListenerClose(l, fi);
  }

  method UneventOn(w: World, fabric: Fabric, q: Eq, fi: int) returns (code: int)
    requires w.Valid() && Listens(w.g, fabric, q, null)
    modifies w`g, w.objs
    ensures w.Valid() && w.objs == old(w.objs) && w.cm == old(w.cm) && code == fi
    ensures Listens(w.g, fabric, if fi == 0 then null else q, null)
    ensures ListenRest(old(w.g), q, null, w.g, if fi == 0 then null else q, null)
  {
    hide ListenRest, World.Valid, Inv, Listens, CloseEq;
    w.Consistent();
    ListenEqClosed(w.g, fabric, q, fi);
    ListenParts(w.g, fabric, q, null);
    code := w.EqClose(q, fi);
  }

  /** The listening side: an event queue and the passive endpoint on it. */
  class ListeningSide {
    const w: World
    const fabric: Fabric
    var eq: Eq?
    var raw: Listener?

    ghost predicate Valid()
      reads this, w`g, w`objs
    {
      this !in w.objs && Listens(w.g, fabric, eq, raw)
    }

    constructor (w: World, fabric: Fabric)
      requires w.Valid()
      ensures this.w == w && this.fabric == fabric && eq == null && raw == null && Valid() && w.Valid()
    {
      hide World.Valid;
      ListensNothing(w.g, fabric);
      this.w, this.fabric, eq, raw := w, fabric, null, null;
    }

    method OpenEvents(a: Answer) returns (code: int)
      requires w.Valid() && Valid() && eq == null && raw == null && fabric in w.g.fabrics
      modifies this`eq, w`g, w`objs, w.objs
      ensures w.Valid() && Valid() && fresh(w.objs - old(w.objs)) && w.cm == old(w.cm) && fabric in w.g.fabrics
      ensures code == Opened(0, a.alloc, a.fi) && (code == 0 <==> eq != null)
      ensures ListenRest(old(w.g), old(eq), old(raw), w.g, eq, raw)
    {
      hide World.Valid, Listens;
      w.Consistent();
      ghost var g0 := w.g;
      ListenSame(g0, null, null);
      ListensNothing(g0, fabric);
      var q;
      code, q := w.EqOpen(fabric, a.alloc, a.fi);
      eq := q;
      if q != null {
        ListenEq(g0, q);
        RestListenEq(g0, q);
      }
    }

    method OpenPassive(info: Info, alloc: bool, fi: ListenerAnswers) returns (code: int)
      requires w.Valid() && Valid() && eq != null && raw == null && fabric in w.g.fabrics
      modifies this`raw, w`g, w`objs, w.objs
      ensures w.Valid() && Valid() && fresh(w.objs - old(w.objs)) && w.cm == old(w.cm)
      ensures code == Opened(0, alloc, Then(fi.pep, Then(fi.bind, fi.listen)))
      ensures code == 0 ==> raw != null && raw in w.g.listeners && w.g.listeners[raw]
      ensures ListenRest(old(w.g), old(eq), old(raw), w.g, eq, raw)
    {
      hide World.Valid;
      w.Consistent();
      ghost var g0 := w.g;
      ListenSame(g0, eq, null);
      var l;
      ghost var made;
      code, l, made := w.ListenerOpen(fabric, info, eq, alloc, fi);
      raw := l;
      if made != null {
        ListenOpened(g0, fabric, eq, made, fi);
        RestListen(g0, eq, made, fi);
      }
    }

    /** Event queue, then listener; a listener that failed to start but could not be closed is kept. */
    method Bind(info: Info, eqAnswer: Answer, alloc: bool, fi: ListenerAnswers) returns (r: Result<()>)
      requires w.Valid() && Valid() && eq == null && raw == null && fabric in w.g.fabrics
      modifies this`eq, this`raw, w`g, w`objs, w.objs
      ensures w.Valid() && Valid() && fresh(w.objs - old(w.objs)) && w.cm == old(w.cm)
      ensures var code := Then(Opened(0, eqAnswer.alloc, eqAnswer.fi),
        Opened(0, alloc, Then(fi.pep, Then(fi.bind, fi.listen))));
        r == if code == 0 then Ok(()) else Err(Code(code))
      ensures r.Ok? ==> raw != null && raw in w.g.listeners && w.g.listeners[raw]
      ensures ListenRest(old(w.g), old(eq), old(raw), w.g, eq, raw)
    {
      hide ListenRest, World.Valid, Listens;
      var code := OpenEvents(eqAnswer);
      if code != 0 { return Err(Code(code)); }
      ghost var q1, g1 := eq, w.g;
      code := OpenPassive(info, alloc, fi);
      ListenFurther(old(w.g), null, null, g1, q1, null, w.g, eq, raw);
      return if code == 0 then Ok(()) else Err(Code(code));
    }

    /** Look once for a connection request. */
    method Poll(probe: EqProbe) returns (r: Result<Request?>)
      requires w.Valid() && Valid() && (probe.read.info == null || probe.read.info !in w.objs)
      ensures w.Valid() && Valid()
      ensures var x := EqPoll(eq, probe.alloc, probe.read, probe.error);
        if raw == null then r == Err(ListenerClosed)
        else if x.ret < 0 then r == Err(Code(x.ret))
        else if x.ret == 0 then r == Ok(null)
        else if x.event.err != 0 then r == Err(Code(x.event.err))
        else if x.event.kind == RequestEvent then
          r.Ok? && r.value != null && fresh(r.value) && r.value.Valid() && r.value.w == w
          && r.value.listener == raw && r.value.info == x.event.info && !r.value.handled
        else r == Err(UnexpectedEvent)
    {
      hide World.Valid;
      if raw == null { return Err(ListenerClosed); }
      var x := EqPoll(eq, probe.alloc, probe.read, probe.error);
      if x.ret == 0 { return Ok(null); }
      if x.ret < 0 { return Err(Code(x.ret)); }
      if x.event.err != 0 { return Err(Code(x.event.err)); }
      if x.event.kind != RequestEvent || x.event.info == null { return Err(UnexpectedEvent); }
      var request := new Request(w, raw, x.event.info);
      return Ok(request);
    }

    /** Close the listener, then its event queue; stop where the provider refuses.  The shim never does. */
    method Close(listener: int, events: int) returns (r: Result<()>)
      requires w.Valid() && Valid()
      modifies this`eq, this`raw, w`g, w.objs
      ensures w.Valid() && Valid() && w.objs == old(w.objs) && w.cm == old(w.cm)
      ensures if old(raw) != null && listener != 0 then r == Err(Code(listener)) && raw == old(raw) && eq == old(eq)
        else if old(eq) != null && events != 0 then r == Err(Code(events)) && raw == null && eq == old(eq)
        else r == Ok(()) && raw == null && eq == null
      ensures ListenRest(old(w.g), old(eq), old(raw), w.g, eq, raw)
    {
      hide ListenRest, World.Valid, Listens;
      var code := CloseListener(listener);
      if code != 0 { return Err(Code(code)); }
      ghost var q1, g1 := eq, w.g;
      code := CloseEvents(events);
      ListenFurther(old(w.g), old(eq), old(raw), g1, q1, null, w.g, eq, raw);
      return if code == 0 then Ok(()) else Err(Code(code));
    }

    method CloseListener(fi: int) returns (code: int)
      requires w.Valid() && Valid()
      modifies this`raw, w`g, w.objs
      ensures w.Valid() && Valid() && w.objs == old(w.objs) && w.cm == old(w.cm)
      ensures code == (if old(raw) == null then 0 else fi) && raw == if code == 0 then null else old(raw)
      ensures ListenRest(old(w.g), old(eq), old(raw), w.g, eq, raw)
    {
      ListenSame(w.g, eq, raw);
      hide ListenRest, World.Valid, Listens;
      if raw == null { return 0; }
      code := UnlistenOn(w, fabric, eq, raw, fi);
      if code != 0 { return; }
      raw := null;
    }

    method CloseEvents(fi: int) returns (code: int)
      requires w.Valid() && Valid() && raw == null
      modifies this`eq, w`g, w.objs
      ensures w.Valid() && Valid() && w.objs == old(w.objs) && w.cm == old(w.cm)
      ensures code == (if old(eq) == null then 0 else fi) && eq == if code == 0 then null else old(eq)
      ensures ListenRest(old(w.g), old(eq), old(raw), w.g, eq, raw)
    {
      ListenSame(w.g, eq, raw);
      hide ListenRest, World.Valid, Listens;
      if eq == null { return 0; }
      code := UneventOn(w, fabric, eq, fi);
      if code != 0 { return; }
      eq := null;
    }
  }

  /** The shared fabric. */
  class FabricSide {
    const w: World
    var raw: Fabric?

    constructor (w: World)
      ensures this.w == w && raw == null
    {
      this.w, raw := w, null;
    }

    method Open(info: Info, a: Answer) returns (r: Result<()>)
      requires w.Valid() && raw == null && this !in w.objs
      modifies this`raw, w`g, w`objs
      ensures w.Valid() && fresh(w.objs - old(w.objs)) && this !in w.objs
      ensures var code := Opened(0, a.alloc, a.fi);
        r == (if code == 0 then Ok(()) else Err(Code(code))) && (code == 0 <==> raw != null) && LiveFabric(w.g, raw)
    {
      hide World.Valid;
      var code, f := w.FabricOpen(info, a.alloc, a.fi);
      raw := f;
      return if code == 0 then Ok(()) else Err(Code(code));
    }

    /** The handle is given up only on success; it stays while anything still depends on the fabric. */
    method Close(fi: int) returns (r: Result<()>)
      requires w.Valid() && LiveFabric(w.g, raw) && this !in w.objs
      modifies this`raw, w`g
      ensures w.Valid() && LiveFabric(w.g, raw)
      ensures var x := CloseFabric(old(w.g), old(raw), fi);
        w.g == x.g && raw == (if x.ret == 0 then null else old(raw))
          && r == if x.ret == 0 then Ok(()) else Err(Code(x.ret))
    {
      hide World.Valid;
      if raw != null {
        var code := w.FabricClose(raw, fi);
        if code != 0 { return Err(Code(code)); }
        raw := null;
      }
      return Ok(());
    }
  }

  // ---------------------------------------------- several users of one world

  /** Whatever one connection does, from `k` to `k'`, another one stays as valid and as ready as it was. */
  twostate lemma OtherStays(other: Connection, k: Conn, k': Conn)
    requires old(other.Valid()) && unchanged(other) && unchanged(other.tx) && unchanged(other.rx)
    requires fresh(other.w.objs - old(other.w.objs))
    requires Owns(other.w.g, k') && SameRest(old(other.w.g), k, other.w.g, k') && Separate(k, other.Handles())
    ensures other.Valid() && Separate(k', other.Handles()) && other.Ready() == old(other.Ready())
  {
    hide Owns, SameRest, Separate, Fitted, Slot.Sound;
    Independent(old(other.w.g), k, other.w.g, k', other.Handles());
  }

  /** So does a listening side. */
  twostate lemma ListenerStays(side: ListeningSide, k: Conn, k': Conn)
    requires old(side.Valid()) && unchanged(side) && fresh(side.w.objs - old(side.w.objs))
    requires Owns(side.w.g, k') && SameRest(old(side.w.g), k, side.w.g, k') && EqsHeld(k) !! EqsIn(side.eq)
    ensures side.Valid() && EqsHeld(k') !! EqsIn(side.eq)
  {
    ListensOn(old(side.w.g), k, side.w.g, k', side.fabric, side.eq, side.raw);
  }

  /** And a connection beside a listening side that opens or closes. */
  twostate lemma ConnectionStays(other: Connection, side: ListeningSide)
    requires old(other.Valid()) && unchanged(other) && unchanged(other.tx) && unchanged(other.rx)
    requires other.w == side.w && fresh(other.w.objs - old(other.w.objs)) && side.Valid()
    requires ListenRest(old(side.w.g), old(side.eq), old(side.raw), side.w.g, side.eq, side.raw)
    requires EqsIn(old(side.eq)) !! EqsHeld(other.Handles())
    ensures other.Valid() && EqsIn(side.eq) !! EqsHeld(other.Handles()) && other.Ready() == old(other.Ready())
  {
    OwnsOn(old(side.w.g), old(side.eq), old(side.raw), side.w.g, side.fabric, side.eq, side.raw, other.Handles());
    hide Owns, ListenRest, Listens, EqsIn, Fitted, Slot.Sound;
  }

  // ------------------------------------------------------- closing in full

  function One(x: object?): nat { if x == null then 0 else 1 }
  function LaneCount(lane: Lane): nat { One(lane.cq) + One(lane.mr) + One(lane.op) }

  /** How many handles a connection still holds. */
  function Count(k: Conn): nat { One(k.domain) + One(k.eq) + One(k.ep) + LaneCount(k.tx) + LaneCount(k.rx) }

  predicate Cooperative(a: CloseAnswers) {
    a.ep == 0 && a.txCq == 0 && a.rxCq == 0 && a.txMr == 0 && a.rxMr == 0 && a.eq == 0 && a.domain == 0
  }

  lemma LaneCounts(x: Lane, y: Lane)
    requires LaneLeft(x, y)
    ensures LaneCount(y) <= LaneCount(x) && (y != x ==> LaneCount(y) < LaneCount(x))
  {
  }

  /** Giving any handle up makes the rest smaller. */
  lemma LeftCounts(x: Conn, y: Conn)
    requires Left(x, y)
    ensures Count(y) <= Count(x) && (y != x ==> Count(y) < Count(x))
  {
    LaneCounts(x.tx, y.tx);
    LaneCounts(x.rx, y.rx);
    hide LaneCount, LaneLeft;
  }

  lemma CountZero(k: Conn)
    ensures Count(k) == 0 <==> k == NOTHING
  {
  }

  lemma LeftFurther(x: Conn, y: Conn, z: Conn)
    requires Left(x, y) && Left(y, z)
    ensures Left(x, z)
  {
  }

  lemma ParentLaws(k: Conn, a: CloseAnswers)
    ensures Left(k, ParentSteps(k, a).0) && ParentSteps(k, a).1 in {0, a.eq, a.domain}
    ensures var s := ParentSteps(k, a);
      if s.1 == 0 then s.0 == k.(eq := null, domain := null) else s.0.eq != null || s.0.domain != null
  {
  }

  lemma LaneLaws(k: Conn, dir: Direction, fi: int)
    ensures Left(k, LaneSteps(k, dir, fi).0) && LaneSteps(k, dir, fi).1 in {0, fi}
    ensures var s, lane := LaneSteps(k, dir, fi), LaneOf(k, dir);
      s.0 == WithLane(k, dir, Lane(lane.cq, if s.1 == 0 then null else lane.mr, null)) && (s.1 != 0 ==> lane.mr != null)
  {
  }

  lemma SlotLaws(k: Conn, a: CloseAnswers)
    ensures Left(k, SlotSteps(k, a).0) && SlotSteps(k, a).1 in {0, a.txMr, a.rxMr}
    ensures var s := SlotSteps(k, a);
      if s.1 == 0 then s.0 == k.(tx := Lane(k.tx.cq, null, null), rx := Lane(k.rx.cq, null, null))
      else s.0.tx.mr != null || s.0.rx.mr != null
  {
    hide LaneSteps, LaneLeft;
    var s := LaneSteps(k, Direction.Send, a.txMr);
    LaneLaws(k, Direction.Send, a.txMr);
    LaneLaws(s.0, Recv, a.rxMr);
    if s.1 == 0 { LeftFurther(k, s.0, LaneSteps(s.0, Recv, a.rxMr).0); }
  }

  lemma QueueLaws(k: Conn, a: CloseAnswers)
    ensures Left(k, QueueSteps(k, a).0) && QueueSteps(k, a).1 in {0, a.txCq, a.rxCq}
    ensures var s := QueueSteps(k, a);
      if s.1 == 0 then s.0 == k.(tx := k.tx.(cq := null), rx := k.rx.(cq := null))
        else s.0.tx.cq != null || s.0.rx.cq != null
  {
  }

  /** A close gives handles up and takes none; it succeeds exactly when nothing is left, and fails only
      with an answer of the provider. */
  lemma CloseLaws(k: Conn, a: CloseAnswers)
    ensures var s := CloseSteps(k, a);
      && Left(k, s.0) && (s.1 == 0 <==> s.0 == NOTHING)
      && s.1 in {0, a.ep, a.txCq, a.rxCq, a.txMr, a.rxMr, a.eq, a.domain}
      && (Cooperative(a) ==> s == (NOTHING, 0))
  {
    hide QueueSteps, SlotSteps, ParentSteps;
    var k0 := k.(ep := null);
    QueueLaws(k0, a);
    SlotLaws(QueueSteps(k0, a).0, a);
    ParentLaws(SlotSteps(QueueSteps(k0, a).0, a).0, a);
  }

  /** The provider's answer for the first handle a close comes to; an operation is freed without asking. */
  function FirstAnswer(k: Conn, a: CloseAnswers): int {
    if k.ep != null then a.ep
    else if k.tx.cq != null then a.txCq
    else if k.rx.cq != null then a.rxCq
    else if k.tx.op != null then 0
    else if k.tx.mr != null then a.txMr
    else if k.rx.op != null then 0
    else if k.rx.mr != null then a.rxMr
    else if k.eq != null then a.eq
    else if k.domain != null then a.domain
    else 0
  }

  /** A close gets nowhere exactly if nothing was left or the provider refuses the very first handle. */
  lemma CloseProgress(k: Conn, a: CloseAnswers)
    ensures CloseSteps(k, a).0 == k <==> k == NOTHING || FirstAnswer(k, a) != 0
    ensures k != NOTHING && FirstAnswer(k, a) != 0 ==> CloseSteps(k, a).1 == FirstAnswer(k, a)
  {
  }

  function CloseAgain(k: Conn, tries: seq<CloseAnswers>): Conn
    decreases |tries|
  {
    if tries == [] then k else CloseAgain(CloseSteps(k, tries[0]).0, tries[1..])
  }

  /** How many of the tries found something left and were granted at least its first handle. */
  function Grants(k: Conn, tries: seq<CloseAnswers>): nat
    decreases |tries|
  {
    if tries == [] then 0 else
    (if k != NOTHING && FirstAnswer(k, tries[0]) == 0 then 1 else 0) + Grants(CloseSteps(k, tries[0]).0, tries[1..])
  }

  /** Every try that finds something left is granted at least the first handle. */
  predicate Granting(k: Conn, tries: seq<CloseAnswers>)
    decreases |tries|
  {
    tries == [] || (FirstAnswer(k, tries[0]) == 0 && Granting(CloseSteps(k, tries[0]).0, tries[1..]))
  }

  /** Closing again and again never brings a handle back, and every try that is granted its first handle shrinks what
      is left, whatever is refused otherwise; one try that meets no refusal ends it. */
  lemma {:induction false} CloseAgainWorks(k: Conn, tries: seq<CloseAnswers>)
    ensures Left(k, CloseAgain(k, tries)) && Count(CloseAgain(k, tries)) + Grants(k, tries) <= Count(k)
    ensures (exists i :: 0 <= i < |tries| && Cooperative(tries[i])) || k == NOTHING ==> CloseAgain(k, tries) == NOTHING
    decreases |tries|
  {
    hide CloseSteps, Count, FirstAnswer, Left;
    if tries == [] {
      LeftSame(k);
    } else {
      var k' := CloseSteps(k, tries[0]).0;
      CloseLaws(k, tries[0]);
      CloseProgress(k, tries[0]);
      LeftCounts(k, k');
      CloseAgainWorks(k', tries[1..]);
      LeftFurther(k, k', CloseAgain(k', tries[1..]));
      CloseLaws(NOTHING, tries[0]);
      LeftCounts(NOTHING, CloseSteps(NOTHING, tries[0]).0);
      CloseProgress(NOTHING, tries[0]);
      if i :| 0 < i < |tries| && Cooperative(tries[i]) { assert Cooperative(tries[1..][i - 1]); }
    }
  }

  lemma LeftSame(k: Conn)
    ensures Left(k, k)
  {
  }

  /** A provider that gives in one handle at a time ends the teardown within as many tries as there are handles. */
  lemma {:induction false} GrantedCloseEnds(k: Conn, tries: seq<CloseAnswers>)
    requires Granting(k, tries)
    ensures Grants(k, tries) == |tries| || CloseAgain(k, tries) == NOTHING
    ensures |tries| >= Count(k) ==> CloseAgain(k, tries) == NOTHING
    decreases |tries|
  {
    hide CloseSteps, Count, FirstAnswer, Left;
    CloseAgainWorks(k, tries);
    CountZero(CloseAgain(k, tries));
    if tries != [] { GrantedCloseEnds(CloseSteps(k, tries[0]).0, tries[1..]); }
  }
}
