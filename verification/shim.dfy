/** The shim itself: counters, flags and list pointers on heap objects.

    Every method follows one C function.  Its contract says that the heap keeps
    representing a consistent graph, and that graph and return code change as
    `ShimSpec` says.  The provider's answers are parameters, so a contract holds
    whatever the provider does. */
module Shim {
  import opened Handles
  import opened ResourceGraph
  import opened ShimSpec
  import opened GraphLaws
  import opened Counts

  /** The provider calls whose order matters to a pending connection request. */
  datatype CmCall = Rejected(info: Info) | Accepted(ep: Endpoint) | PeerTold(ep: Endpoint) | EpClosed(ep: Endpoint)

  /** The calls once endpoint `e` was closed; before that the peer was told if `tell` and the endpoint is ready. */
  function Stopped(g: Graph, cm: seq<CmCall>, e: Endpoint, tell: bool): seq<CmCall> {
    (if tell && e in g.eps && g.eps[e].ready then cm + [PeerTold(e)] else cm) + [EpClosed(e)]
  }

  function First(s: seq<Op>, i: nat): Op? { if i < |s| then s[i] else null }

  function CqField(r: OpRec): Cq? { if r.flight.Flying? then r.flight.cq else null }
  function MrField(r: OpRec): Mr? { if r.flight.Flying? then r.flight.mr else null }

  /** `size_t` subtraction. */
  function Sub64(a: U64, b: U64): U64 { (a - b) % 0x1_0000_0000_0000_0000 }

  class World {
    ghost var g: Graph
    ghost var objs: set<object>
    ghost var cm: seq<CmCall>

    /** Every live handle is one of `objs`, the frame of the public methods. */
    static ghost predicate Owned(g: Graph, objs: set<object>) {
      && (forall f | f in g.fabrics :: f in objs)
      && (forall d | d in g.domains :: d in objs)
      && (forall q | q in g.eqs :: q in objs)
      && (forall c | c in g.stages :: c in objs)
      && (forall c | c in g.lists :: c in objs)
      && (forall l | l in g.listeners :: l in objs)
      && (forall e | e in g.eps :: e in objs)
      && (forall m | m in g.mrs :: m in objs)
      && (forall o | o in g.ops :: o in objs)
    }

    /** The owned handles grow by one at most. */
    static lemma OwnedGrows(g: Graph, g': Graph, objs: set<object>, o: object)
      requires Owned(g, objs)
      requires g'.fabrics <= g.fabrics + (if o is Fabric then {o as Fabric} else {})
      requires g'.domains <= g.domains + (if o is Domain then {o as Domain} else {})
      requires g'.eqs <= g.eqs + (if o is Eq then {o as Eq} else {})
      requires g'.stages.Keys <= g.stages.Keys + (if o is Cq then {o as Cq} else {})
      requires g'.lists.Keys <= g.lists.Keys + (if o is Cq then {o as Cq} else {})
      requires g'.listeners.Keys <= g.listeners.Keys + (if o is Listener then {o as Listener} else {})
      requires g'.eps.Keys <= g.eps.Keys + (if o is Endpoint then {o as Endpoint} else {})
      requires g'.mrs <= g.mrs + (if o is Mr then {o as Mr} else {})
      requires g'.ops.Keys <= g.ops.Keys + (if o is Op then {o as Op} else {})
      ensures Owned(g', objs + {o})
    {
    }

    static ghost predicate ParentsLinked(g: Graph)
      reads g.fabrics`children, g.domains`children, g.eqs`users
    {
      && (forall f {:trigger f.children} | f in g.fabrics :: f.children == FabricKids(g, f))
      && (forall d {:trigger d.children} | d in g.domains :: d.children == DomainKids(g, d))
      && (forall q {:trigger q.users} | q in g.eqs :: q.users == EqUsers(g, q))
    }

    static ghost predicate FlagsLinked(stages: map<Cq, Stage>, listeners: map<Listener, bool>,
                                       eps: map<Endpoint, EpRec>)
      reads stages.Keys`used, stages.Keys`attached, stages.Keys`retired
      reads listeners.Keys`ready, eps.Keys`ready, eps.Keys`closing
    {
      && (forall c {:trigger c.used} {:trigger c.attached} {:trigger c.retired} | c in stages ::
            c.used == !stages[c].Unused? && c.attached == stages[c].InUse? && c.retired == stages[c].Retired?)
      && (forall l {:trigger l.ready} | l in listeners :: l.ready == listeners[l])
      && (forall e {:trigger e.ready} {:trigger e.closing} | e in eps ::
            e.ready == eps[e].ready && e.closing == eps[e].closing)
    }

    static ghost predicate ListsLinked(lists: map<Cq, seq<Op>>, ops: set<Op>)
      reads lists.Keys`count, lists.Keys`pending, ops`next
    {
      && (forall c {:trigger c.count} {:trigger c.pending} | c in lists ::
            c.count == |lists[c]| && c.pending == First(lists[c], 0))
      && (forall c, i {:trigger lists[c][i].next} | c in lists && 0 <= i < |lists[c]| ::
            lists[c][i] in ops && lists[c][i].next == First(lists[c], i + 1))
    }

    static ghost predicate OpsLinked(ops: map<Op, OpRec>, mrs: set<Mr>)
      reads mrs`pending, ops.Keys`direction, ops.Keys`len, ops.Keys`cq, ops.Keys`mr
    {
      && (forall m {:trigger m.pending} | m in mrs :: m.pending == |BorrowersOf(ops, m)|)
      && (forall o {:trigger o.direction} {:trigger o.len} {:trigger o.cq} {:trigger o.mr} | o in ops ::
            && o.direction == ops[o].dir && o.len == ops[o].len
            && o.cq == CqField(ops[o]) && o.mr == MrField(ops[o]))
    }

    /** The heap objects spell out the graph `g`. */
    static ghost predicate Linked(g: Graph)
      reads g.fabrics, g.domains, g.eqs, g.stages.Keys, g.lists.Keys, g.listeners.Keys, g.eps.Keys, g.mrs, g.ops.Keys
    {
      && ParentsLinked(g) && FlagsLinked(g.stages, g.listeners, g.eps)
      && ListsLinked(g.lists, g.ops.Keys) && OpsLinked(g.ops, g.mrs)
    }

    ghost predicate Valid()
      reads this`g, this`objs, objs
    {
      this !in objs && Owned(g, objs) && Linked(g) && Inv(g)
    }

    lemma Consistent()
      requires Valid()
      ensures Inv(g) && this !in objs
    {
    }

    /** A step that touches no handle. */
    twostate lemma Untouched()
      requires old(Valid()) && unchanged(this`g) && unchanged(this`objs) && unchanged(old(objs))
      ensures Valid()
    {
    }

    constructor ()
      ensures Valid() && g == EMPTY && objs == {} && cm == []
    {
      g, objs, cm := EMPTY, {}, [];
    }

    // -------------------------------------------------------------- posting

    /** The bounds test of the C code, in 64-bit arithmetic. */
    function OutOfBounds(mr: Mr, address: U64, len: U64): (r: bool)
      ensures r <==> !Inside(mr, address, len)
    {
      address < mr.buffer || Sub64(address, mr.buffer) > mr.capacity
      || len > Sub64(mr.capacity, Sub64(address, mr.buffer))
    }

    /** A step that leaves every queue alone, and every listed operation's `next`. */
    twostate lemma ListsKept()
      requires old(ListsLinked(g.lists, g.ops.Keys)) && g.lists == old(g).lists && g.ops.Keys == old(g).ops.Keys
      requires unchanged(old(g).lists.Keys`count) && unchanged(old(g).lists.Keys`pending)
      requires forall o {:trigger o.next} | o in g.ops :: o.next == old(o.next) || Unlisted(g, o)
      ensures ListsLinked(g.lists, g.ops.Keys)
    {
      var lists := g.lists;
      forall c, i | c in lists && 0 <= i < |lists[c]|
        ensures lists[c][i] in g.ops && lists[c][i].next == First(lists[c], i + 1)
      {
        assert old(lists[c][i].next) == First(lists[c], i + 1);
      }
    }

    /** Queues may leave, and empty ones may join. */
    twostate lemma ListsSame()
      requires old(ListsLinked(g.lists, g.ops.Keys)) && old(g).ops.Keys <= g.ops.Keys
      requires forall c | c in g.lists :: (c in old(g).lists && g.lists[c] == old(g).lists[c])
                                          || (g.lists[c] == [] && c.count == 0 && c.pending == null)
      requires unchanged(old(g).lists.Keys`count) && unchanged(old(g).lists.Keys`pending)
      requires unchanged(old(g).ops.Keys`next)
      ensures ListsLinked(g.lists, g.ops.Keys)
    {
      var lists := g.lists;
      forall c, i | c in lists && 0 <= i < |lists[c]|
        ensures lists[c][i] in g.ops && lists[c][i].next == First(lists[c], i + 1)
      {
        assert old(g.lists[c][i].next) == First(lists[c], i + 1);
      }
    }

    /** Handles may leave, and fresh ones may join with clear flags. */
    twostate lemma FlagsKept()
      requires old(FlagsLinked(g.stages, g.listeners, g.eps))
      requires forall c | c in g.stages :: (c in old(g).stages && g.stages[c] == old(g).stages[c])
                                           || (g.stages[c].Unused? && !c.used && !c.attached && !c.retired)
      requires forall l | l in g.listeners :: (l in old(g).listeners && g.listeners[l] == old(g).listeners[l])
                                              || (!g.listeners[l] && !l.ready)
      requires forall e | e in g.eps :: (e in old(g).eps && g.eps[e] == old(g).eps[e])
                                        || (g.eps[e] == EpRec(false, false) && !e.ready && !e.closing)
      requires unchanged(old(g).stages.Keys`used) && unchanged(old(g).stages.Keys`attached)
      requires unchanged(old(g).stages.Keys`retired) && unchanged(old(g).listeners.Keys) && unchanged(old(g).eps.Keys)
      ensures FlagsLinked(g.stages, g.listeners, g.eps)
    {
    }

    /** Regions may leave, and ones nobody borrows may join. */
    twostate lemma OpsKept()
      requires old(OpsLinked(g.ops, g.mrs)) && g.ops == old(g).ops
      requires forall m | m in g.mrs :: m in old(g).mrs || (m.pending == 0 && BorrowersOf(g.ops, m) == {})
      requires unchanged(old(g).ops.Keys`direction) && unchanged(old(g).ops.Keys`len)
      requires unchanged(old(g).ops.Keys`cq) && unchanged(old(g).ops.Keys`mr) && unchanged(old(g).mrs)
      ensures OpsLinked(g.ops, g.mrs)
    {
    }

    /** A step that touches operations, regions and list pointers only. */
    twostate lemma ParentsKept()
      requires old(ParentsLinked(g))
      requires g.fabrics <= old(g).fabrics && g.domains == old(g).domains && g.eqs == old(g).eqs
      requires g.stages.Keys == old(g).stages.Keys && g.listeners.Keys == old(g).listeners.Keys
      requires g.eps.Keys == old(g).eps.Keys && g.mrs == old(g).mrs
      requires unchanged(old(g).fabrics) && unchanged(old(g).domains) && unchanged(old(g).eqs)
      ensures ParentsLinked(g)
    {
      forall f | f in g.fabrics
        ensures f.children == FabricKids(g, f)
      {
        assert old(f.children) == FabricKids(old(g), f);
      }
      forall d | d in g.domains
        ensures d.children == DomainKids(g, d)
      {
        assert old(d.children) == DomainKids(old(g), d);
      }
      forall q | q in g.eqs ensures q.users == EqUsers(g, q) { assert old(q.users) == EqUsers(old(g), q); }
    }

    /** One operation changed, and every region's counter moved by that operation's share. */
    twostate lemma OpsStepped(op: Op)
      requires old(OpsLinked(g.ops, g.mrs)) && op in old(g).ops && op in g.ops
      requires g.mrs == old(g).mrs && g.ops == old(g).ops[op := g.ops[op]]
      requires op.direction == g.ops[op].dir && op.len == g.ops[op].len
      requires op.cq == CqField(g.ops[op]) && op.mr == MrField(g.ops[op])
      requires unchanged(old(g).ops.Keys - {op})
      requires forall m {:trigger m.pending, m in g.mrs} | m in g.mrs ::
        m.pending + Share(old(g).ops[op], m) == old(m.pending) + Share(g.ops[op], m)
      ensures OpsLinked(g.ops, g.mrs)
    {
      OpChanges(old(g).ops, op, g.ops[op]);
      forall m | m in g.mrs
        ensures m.pending == |BorrowersOf(g.ops, m)|
      {
        assert old(m.pending) == |BorrowersOf(old(g).ops, m)|;
      }
    }

    /** One operation and the region it borrows or borrowed changed; the graph followed. */
    twostate lemma OpMoved(op: Op)
      requires old(Linked(g)) && op in old(g).ops && op in g.ops
      requires g == old(g).(ops := old(g).ops[op := g.ops[op]], log := g.log)
      requires op.direction == g.ops[op].dir && op.len == g.ops[op].len
      requires op.cq == CqField(g.ops[op]) && op.mr == MrField(g.ops[op])
      requires op.next == old(op.next) || Unlisted(g, op)
      requires forall m {:trigger m.pending} | m in g.mrs ::
        m.pending + Share(old(g).ops[op], m) == old(m.pending) + Share(g.ops[op], m)
      requires unchanged(old(g).ops.Keys - {op}) && unchanged(old(g).fabrics) && unchanged(old(g).domains)
      requires unchanged(old(g).eqs) && unchanged(old(g).stages.Keys) && unchanged(old(g).lists.Keys)
      requires unchanged(old(g).listeners.Keys) && unchanged(old(g).eps.Keys)
      ensures Linked(g)
    {
      assert g.ops.Keys == old(g).ops.Keys;
      OpsStepped(op);
      ParentsKept();
      FlagsKept();
      ListsKept();
    }

    /** One queue's list and the `next` pointers of operations changed. */
    twostate lemma QueueMoved()
      requires old(Linked(g)) && g == old(g).(lists := g.lists) && ListsLinked(g.lists, g.ops.Keys)
      requires unchanged(old(g).ops.Keys`direction) && unchanged(old(g).ops.Keys`len)
      requires unchanged(old(g).ops.Keys`cq) && unchanged(old(g).ops.Keys`mr) && unchanged(old(g).mrs)
      requires unchanged(old(g).stages.Keys`used) && unchanged(old(g).stages.Keys`attached)
      requires unchanged(old(g).stages.Keys`retired) && unchanged(old(g).listeners.Keys) && unchanged(old(g).eps.Keys)
      requires unchanged(old(g).fabrics) && unchanged(old(g).domains) && unchanged(old(g).eqs)
      ensures Linked(g)
    {
      ParentsKept();
      FlagsKept();
      OpsKept();
    }

    /** One queue got a new front; its old front is the new front's successor. */
    twostate lemma FrontLinked(cq: Cq)
      requires old(ListsLinked(g.lists, g.ops.Keys)) && cq in old(g).lists && g.ops == old(g).ops
      requires cq in g.lists && g.lists[cq] != []
      requires g.lists == old(g).lists[cq := g.lists[cq]]
      requires var op := g.lists[cq][0];
        && g.lists[cq] == [op] + old(g).lists[cq] && op in g.ops && Unlisted(old(g), op)
        && cq.count == old(cq.count) + 1 && cq.pending == op && op.next == old(cq.pending)
        && unchanged(old(g).ops.Keys - {op})
      requires unchanged(old(g).lists.Keys - {cq})
      ensures ListsLinked(g.lists, g.ops.Keys)
    {
      var lists, lists0 := g.lists, old(g).lists;
      forall c, i | c in lists && 0 <= i < |lists[c]|
        ensures lists[c][i] in g.ops && lists[c][i].next == First(lists[c], i + 1)
      {
        if c == cq && i > 0 {
          assert lists[c][i] == lists0[c][i - 1] == old(g).lists[c][i - 1];
          assert old(lists0[c][i - 1].next) == First(lists0[c], i);
        } else if c != cq {
          assert lists[c] == lists0[c] && lists0[c][i] == old(g).lists[c][i];
          assert old(lists0[c][i].next) == First(lists0[c], i + 1);
        }
      }
    }

    /** Only counters of parents changed; handles may have left, fresh ones joined. */
    twostate lemma ParentsMoved()
      requires old(Linked(g)) && ParentsLinked(g) && g.ops == old(g).ops
      requires forall c | c in g.lists :: (c in old(g).lists && g.lists[c] == old(g).lists[c])
                                          || (g.lists[c] == [] && c.count == 0 && c.pending == null)
      requires forall c | c in g.stages :: (c in old(g).stages && g.stages[c] == old(g).stages[c])
                                           || (g.stages[c].Unused? && !c.used && !c.attached && !c.retired)
      requires forall l | l in g.listeners :: (l in old(g).listeners && g.listeners[l] == old(g).listeners[l])
                                              || (!g.listeners[l] && !l.ready)
      requires forall e | e in g.eps :: (e in old(g).eps && g.eps[e] == old(g).eps[e])
                                        || (g.eps[e] == EpRec(false, false) && !e.ready && !e.closing)
      requires forall m | m in g.mrs :: m in old(g).mrs || (m.pending == 0 && BorrowersOf(g.ops, m) == {})
      requires unchanged(old(g).stages.Keys) && unchanged(old(g).lists.Keys) && unchanged(old(g).ops.Keys)
      requires unchanged(old(g).listeners.Keys) && unchanged(old(g).eps.Keys) && unchanged(old(g).mrs)
      ensures Linked(g)
    {
      FlagsKept();
      OpsKept();
      ListsSame();
    }

    twostate lemma EndpointLeft(e: Endpoint)
      requires old(ParentsLinked(g)) && e in old(g).eps && e.eq in g.eqs && e.domain in g.domains
      requires g == old(g).(eps := old(g).eps - {e})
      requires e.eq.users == old(e.eq.users) - 1 && e.domain.children == old(e.domain.children) - 1
      requires unchanged(old(g).fabrics) && unchanged(old(g).domains - {e.domain}) && unchanged(old(g).eqs - {e.eq})
      ensures ParentsLinked(g)
    {
      assert old(g).eps.Keys == g.eps.Keys + {e};
      EndpointJoins(g.eps.Keys, e);
      forall f | f in g.fabrics
        ensures f.children == FabricKids(g, f)
      {
        assert old(f.children) == FabricKids(old(g), f);
      }
      forall d | d in g.domains
        ensures d.children == DomainKids(g, d)
      {
        assert old(d.children) == DomainKids(old(g), d);
      }
      forall q | q in g.eqs ensures q.users == EqUsers(g, q) { assert old(q.users) == EqUsers(old(g), q); }
    }

    twostate lemma ListenerLeft(l: Listener)
      requires old(ParentsLinked(g)) && l in old(g).listeners.Keys && l.eq in g.eqs && l.fabric in g.fabrics
      requires g == old(g).(listeners := old(g).listeners - {l})
      requires l.eq.users == old(l.eq.users) - 1 && l.fabric.children == old(l.fabric.children) - 1
      requires unchanged(old(g).domains) && unchanged(old(g).fabrics - {l.fabric}) && unchanged(old(g).eqs - {l.eq})
      ensures ParentsLinked(g)
    {
      assert old(g).listeners.Keys == g.listeners.Keys + {l};
      ListenerJoins(g.listeners.Keys, l);
      forall f | f in g.fabrics
        ensures f.children == FabricKids(g, f)
      {
        assert old(f.children) == FabricKids(old(g), f);
      }
      forall d | d in g.domains
        ensures d.children == DomainKids(g, d)
      {
        assert old(d.children) == DomainKids(old(g), d);
      }
      forall q | q in g.eqs ensures q.users == EqUsers(g, q) { assert old(q.users) == EqUsers(old(g), q); }
    }

    twostate lemma MrLeft(m: Mr)
      requires old(ParentsLinked(g)) && m in old(g).mrs && m.domain in g.domains
      requires g == old(g).(mrs := old(g).mrs - {m})
      requires m.domain.children == old(m.domain.children) - 1
      requires unchanged(old(g).fabrics) && unchanged(old(g).domains - {m.domain}) && unchanged(old(g).eqs)
      ensures ParentsLinked(g)
    {
      assert old(g).mrs == g.mrs + {m};
      MrJoins(g.mrs, m);
      forall f | f in g.fabrics
        ensures f.children == FabricKids(g, f)
      {
        assert old(f.children) == FabricKids(old(g), f);
      }
      forall d | d in g.domains
        ensures d.children == DomainKids(g, d)
      {
        assert old(d.children) == DomainKids(old(g), d);
      }
      forall q | q in g.eqs ensures q.users == EqUsers(g, q) { assert old(q.users) == EqUsers(old(g), q); }
    }

    twostate lemma CqLeft(c: Cq)
      requires old(ParentsLinked(g)) && c in old(g).stages.Keys && c.domain in g.domains
      requires g == old(g).(stages := old(g).stages - {c})
      requires c.domain.children == old(c.domain.children) - 1
      requires unchanged(old(g).fabrics) && unchanged(old(g).domains - {c.domain}) && unchanged(old(g).eqs)
      ensures ParentsLinked(g)
    {
      assert old(g).stages.Keys == g.stages.Keys + {c};
      CqJoins(g.stages.Keys, c);
      forall f | f in g.fabrics
        ensures f.children == FabricKids(g, f)
      {
        assert old(f.children) == FabricKids(old(g), f);
      }
      forall d | d in g.domains
        ensures d.children == DomainKids(g, d)
      {
        assert old(d.children) == DomainKids(old(g), d);
      }
      forall q | q in g.eqs ensures q.users == EqUsers(g, q) { assert old(q.users) == EqUsers(old(g), q); }
    }

    twostate lemma EqLeft(q: Eq)
      requires old(ParentsLinked(g)) && q in old(g).eqs && q.fabric in g.fabrics
      requires g == old(g).(eqs := old(g).eqs - {q})
      requires q.fabric.children == old(q.fabric.children) - 1
      requires unchanged(old(g).domains) && unchanged(old(g).fabrics - {q.fabric}) && unchanged(old(g).eqs)
      ensures ParentsLinked(g)
    {
      assert old(g).eqs == g.eqs + {q};
      EqJoins(g.eqs, q);
      forall f | f in g.fabrics
        ensures f.children == FabricKids(g, f)
      {
        assert old(f.children) == FabricKids(old(g), f);
      }
      forall d | d in g.domains
        ensures d.children == DomainKids(g, d)
      {
        assert old(d.children) == DomainKids(old(g), d);
      }
      forall p | p in g.eqs ensures p.users == EqUsers(g, p) { assert old(p.users) == EqUsers(old(g), p); }
    }

    twostate lemma DomainLeft(d: Domain)
      requires old(ParentsLinked(g)) && d in old(g).domains && d.fabric in g.fabrics
      requires g == old(g).(domains := old(g).domains - {d})
      requires d.fabric.children == old(d.fabric.children) - 1
      requires unchanged(old(g).domains) && unchanged(old(g).fabrics - {d.fabric}) && unchanged(old(g).eqs)
      ensures ParentsLinked(g)
    {
      assert old(g).domains == g.domains + {d};
      DomainJoins(g.domains, d);
      forall f | f in g.fabrics
        ensures f.children == FabricKids(g, f)
      {
        assert old(f.children) == FabricKids(old(g), f);
      }
      forall p | p in g.domains
        ensures p.children == DomainKids(g, p)
      {
        assert old(p.children) == DomainKids(old(g), p);
      }
      forall q | q in g.eqs ensures q.users == EqUsers(g, q) { assert old(q.users) == EqUsers(old(g), q); }
    }

    /** The operation now flies on `cq` and borrows `mr`. */
    method Launch(op: Op, cq: Cq, mr: Mr, len: U64, dir: Direction, ghost addr: U64)
      requires Linked(g) && op in g.ops && mr in g.mrs && g.ops[op].flight.Idle? && Unlisted(g, op)
      modifies this`g, op, mr
      ensures Linked(g) && objs == old(objs) && cm == old(cm) && op.next == old(op.next)
      ensures g == old(g).(ops := old(g).ops[op := OpRec(dir, len, Flying(cq, mr, addr, |old(g).log|))],
                           log := old(g).log + [Post(op, cq, dir, len, Pending)])
    {
      ghost var r := OpRec(dir, len, Flying(cq, mr, addr, |g.log|));
      op.Fly(dir, len, mr, cq);
      mr.pending := mr.pending + 1;
      g := g.(ops := g.ops[op := r], log := g.log + [Post(op, cq, dir, len, Pending)]);
      OpMoved(op);
    }

    /** Push an operation that no list holds. */
    method LinkFront(cq: Cq, op: Op)
      requires Linked(g) && cq in g.lists && op in g.ops
      requires Unlisted(g, op)
      modifies this`g, op`next, cq`pending, cq`count
      ensures Linked(g) && objs == old(objs) && cm == old(cm)
      ensures g == old(g).(lists := old(g).lists[cq := [op] + old(g).lists[cq]])
    {
      cq.Push(op);
      g := g.(lists := g.lists[cq := [op] + g.lists[cq]]);
      FrontLinked(cq);
      QueueMoved();
    }

    /** The bookkeeping after the provider took a message. */
    method Register(cq: Cq, op: Op, mr: Mr, len: U64, dir: Direction, ghost addr: U64)
      requires Linked(g) && cq in g.lists && op in g.ops && mr in g.mrs && g.ops[op].flight.Idle? && Unlisted(g, op)
      modifies this`g, op, mr, cq`pending, cq`count
      ensures Linked(g) && g == Submit(old(g), cq, op, mr, addr, len, dir) && objs == old(objs) && cm == old(cm)
    {
      Launch(op, cq, mr, len, dir, addr);
      LinkFront(cq, op);

    }

    /** The tests `post_message` makes before it calls the provider. */
    method PostGate(ep: Endpoint?, op: Op?, mr: Mr?, len: U64, buf: U64, receive: bool) returns (ret: int)
      requires Valid() && LiveEp(g, ep) && LiveOp(g, op) && LiveMr(g, mr)
      ensures ret == PostTest(g, ep, op, mr, buf, len, if receive then Recv else Send)
    {
      if ep == null || op == null || mr == null || buf == 0
         || !ep.ready || ep.closing || mr.domain != ep.domain {
        return -EINVAL;
      }
      if op.cq != null { return -EBUSY; }
      var access := if receive then ACCESS_RECV else ACCESS_SEND;
      if mr.access & access == 0 { return -EACCES; }
      if OutOfBounds(mr, buf, len) || len > ep.maxMsg { return -EINVAL; }
      var cq := if receive then ep.rx else ep.tx;
      if cq.count >= cq.capacity { return -EAGAIN; }
      return 0;
    }

    /** The provider took the message. */
    method Posted(ep: Endpoint, op: Op, mr: Mr, len: U64, buf: U64, dir: Direction)
      requires Valid() && ep in g.eps && op in g.ops && mr in g.mrs && dir != Unset
      requires PostTest(g, ep, op, mr, buf, len, dir) == 0
      modifies this`g, objs
      ensures Valid() && objs == old(objs) && cm == old(cm)
        && g == Submit(old(g), Target(ep, dir), op, mr, buf, len, dir)
    {
      PostOk(g, ep, op, mr, buf, len, dir);
      Register(if dir == Recv then ep.rx else ep.tx, op, mr, len, dir, buf);
    }

    method PostMessage(ep: Endpoint?, op: Op?, mr: Mr?, len: U64, buf: U64, receive: bool, fi: int)
      returns (ret: int)
      requires Valid() && LiveEp(g, ep) && LiveOp(g, op) && LiveMr(g, mr)
      modifies this`g, objs
      ensures Valid() && objs == old(objs) && cm == old(cm)
      ensures Outcome(g, ret) ==
        ShimSpec.PostMessage(old(g), ep, op, mr, buf, len, if receive then Recv else Send, fi)
    {
      ret := PostGate(ep, op, mr, len, buf, receive);
      if ret != 0 { return; }
      if fi != 0 { return fi; }
      Posted(ep, op, mr, len, buf, if receive then Recv else Send);
    }

    // -------------------------------------------------------------- polling

    /** Return a borrow that is still out; the operation stays pinned. */
    method ReturnOne(op: Op)
      requires Linked(g) && op in g.ops && g.ops[op].flight.Flying?
      requires g.ops[op].flight.mr == null || g.ops[op].flight.mr in g.mrs
      modifies this`g, op`mr, g.mrs`pending
      ensures Linked(g) && objs == old(objs) && cm == old(cm) && g == ReturnBorrow(old(g), op) && SameHandles(old(g), g)
    {
      if op.mr != null {
        assert op in BorrowersOf(g.ops, op.mr);
        op.mr.pending := op.mr.pending - 1;
      }
      op.mr := null;
      g := ReturnBorrow(g, op);
      OpMoved(op);
    }

    /** `release_op`: the operation borrows nothing and no queue pins it. */
    method ReleaseOp(op: Op, ghost fate: Fate)
      requires Linked(g) && op in g.ops && g.ops[op].flight.Flying? && Unlisted(g, op)
      requires g.ops[op].flight.ticket < |g.log|
      requires g.ops[op].flight.mr == null || g.ops[op].flight.mr in g.mrs
      modifies this`g, op`mr, op`cq, op`next, g.mrs`pending
      ensures Linked(g) && objs == old(objs) && cm == old(cm) && g == Land(old(g), op, fate)
    {
      ReturnThenLand(g, op, fate);
      ReturnOne(op);
      Unpin(op, fate);
    }

    method Unpin(op: Op, ghost fate: Fate)
      requires Linked(g) && op in g.ops && g.ops[op].flight.Flying? && Unlisted(g, op)
      requires g.ops[op].flight.mr == null && g.ops[op].flight.ticket < |g.log|
      modifies this`g, op`cq, op`next
      ensures Linked(g) && objs == old(objs) && cm == old(cm) && g == Land(old(g), op, fate)
    {
      op.cq := null;
      op.next := null;
      g := Land(g, op, fate);
      OpMoved(op);
    }

    /** Position `at.1` left the list of `at.0`; its predecessor, or the head, skips it. */
    twostate lemma CutLinked(at: (Cq, nat))
      requires old(ListsLinked(g.lists, g.ops.Keys)) && at.0 in old(g).lists && at.0 in g.lists && g.ops == old(g).ops
      requires var s := old(g).lists[at.0];
        && at.1 < |s| && Without(s, at.1, g.lists[at.0]) && NoDup(s)
        && at.0.count == old(at.0.count) - 1
        && (if at.1 == 0 then at.0.pending == First(s, 1) && unchanged(old(g).ops.Keys)
            else
              && at.0.pending == old(at.0.pending) && s[at.1 - 1].next == First(s, at.1 + 1)
              && Elsewhere(old(g), at.0, s[at.1 - 1]) && unchanged(old(g).ops.Keys - {s[at.1 - 1]}))
      requires g.lists == old(g).lists[at.0 := g.lists[at.0]]
      requires unchanged(old(g).lists.Keys - {at.0})
      ensures ListsLinked(g.lists, g.ops.Keys)
    {
      var lists, lists0 := g.lists, old(g).lists;
      var s := lists0[at.0];
      forall c, i | c in lists && 0 <= i < |lists[c]|
        ensures lists[c][i] in g.ops && lists[c][i].next == First(lists[c], i + 1)
      {
        if c != at.0 {
          assert lists[c] == lists0[c] && lists0[c][i] == old(g).lists[c][i];
          assert old(lists0[c][i].next) == First(lists0[c], i + 1);
        } else {
          var j := if i < at.1 then i else i + 1;
          assert lists[c][i] == s[j];
          assert old(lists0[c][j].next) == First(s, j + 1);
        }
      }
    }

    /** Take the first operation off its list, which leaves `rest`. */
    method UnlinkFront(cq: Cq, op: Op, ghost rest: seq<Op>)
      requires Linked(g) && cq in g.lists && NoDup(g.lists[cq]) && Without(g.lists[cq], 0, rest)
      requires op == g.lists[cq][0]
      modifies this`g, cq`pending, cq`count
      ensures Linked(g) && objs == old(objs) && cm == old(cm)
      ensures g == old(g).(lists := old(g).lists[cq := rest])
    {
      assert op.next == First(g.lists[cq], 1) by { assert g.lists[cq][0].next == First(g.lists[cq], 1); }
      cq.Pop(op.next);
      g := g.(lists := g.lists[cq := rest]);
      CutLinked((cq, 0));
      QueueMoved();
    }

    /** Take the operation behind `prev` off its list, which leaves `rest`. */
    method UnlinkAfter(cq: Cq, prev: Op, op: Op, ghost k: nat, ghost rest: seq<Op>)
      requires Linked(g) && cq in g.lists && NoDup(g.lists[cq]) && Without(g.lists[cq], k, rest)
      requires k > 0 && prev == g.lists[cq][k - 1] && op == g.lists[cq][k] && Elsewhere(g, cq, prev)
      modifies this`g, cq`count, prev`next
      ensures Linked(g) && objs == old(objs) && cm == old(cm)
      ensures g == old(g).(lists := old(g).lists[cq := rest])
    {
      assert op.next == First(g.lists[cq], k + 1) by { assert g.lists[cq][k].next == First(g.lists[cq], k + 1); }
      cq.Cut(prev, op.next);
      g := g.(lists := g.lists[cq := rest]);
      CutLinked((cq, k));
      QueueMoved();
    }

    /** Unlink and release an operation whose submission meets `fate`. */
    method TakeOff(cq: Cq, prev: Op?, op: Op, ghost k: nat, ghost fate: Fate)
      requires Linked(g) && Listed(g) && Returnable(g, [op]) && g.ops[op].flight.ticket < |g.log|
      requires cq in g.lists && k < |g.lists[cq]| && op == g.lists[cq][k]
      requires prev == if k == 0 then null else g.lists[cq][k - 1]
      modifies this`g, g.lists.Keys, g.ops.Keys, g.mrs
      ensures Linked(g) && g == Settle(old(g), cq, op, fate) && objs == old(objs) && cm == old(cm)
    {
      ghost var rest := Remove(g.lists[cq], op);
      RemoveAt(g.lists[cq], k);
      AfterUnlink(g, cq, op, prev);
      if prev == null { UnlinkFront(cq, op, rest); } else { UnlinkAfter(cq, prev, op, k, rest); }
      assert op in [op];
      ReleaseOp(op, fate);
    }

    method Settled(cq: Cq, prev: Op?, op: Op, ghost k: nat, ghost fate: Fate)
      requires Valid() && cq in g.lists && k < |g.lists[cq]| && op == g.lists[cq][k]
      requires prev == if k == 0 then null else g.lists[cq][k - 1]
      requires !fate.Pending? && FateOk(Settlement(g, op, fate))
      modifies this`g, objs
      ensures Valid() && objs == old(objs) && cm == old(cm) && g == Settle(old(g), cq, op, fate)
    {
      SettleInv(g, cq, op, fate);
      FlyingReturnable(g, op);
      TakeOff(cq, prev, op, k, fate);
    }

    /** Walk the list to `context`; `prev` is the operation before it. */
    method Find(cq: Cq, context: Op?) returns (prev: Op?, cur: Op?, ghost k: nat)
      requires Linked(g) && cq in g.lists
      ensures k <= |g.lists[cq]| && cur == First(g.lists[cq], k)
      ensures prev == if k == 0 then null else g.lists[cq][k - 1]
      ensures if context != null && context in g.lists[cq] then cur == context else cur == null
    {
      ghost var s := g.lists[cq];
      prev, cur, k := null, cq.pending, 0;
      while cur != null && cur != context
        invariant 0 <= k <= |s| && cur == First(s, k)
        invariant prev == if k == 0 then null else s[k - 1]
        invariant forall j | 0 <= j < k :: s[j] != context
        decreases |s| - k
      {
        assert g.lists[cq][k].next == First(s, k + 1);
        prev := cur;
        cur := cur.next;
        k := k + 1;
      }
    }

    /** The second half of `shim_cq_poll`, from a context the provider returned. */
    method Complete(cq: Cq, context: Op?, given: Completion) returns (ret: int, out: Completion)
      requires Valid() && cq in g.lists && given.opId == 0 && given.flags == Unset
      modifies this`g, objs
      ensures Valid() && objs == old(objs) && cm == old(cm)
      ensures PollOutcome(g, ret, out) == Match(old(g), cq, context, given.len, given.err, given.provErr)
    {
      hide World.ParentsLinked, World.FlagsLinked, World.ListsLinked, Closed, Staged, Borrowed, Logged;
      out := given;
      var prev, cur;
      ghost var k;
      prev, cur, k := Find(cq, context);
      if cur == null { return -EIO, out; }
      var op: Op := cur;
      ghost var done := Report(op.id, g.ops[op], given.len, given.err, given.provErr);
      ReportOk(g, cq, op, given);
      out := out.(opId := op.id, flags := op.direction);
      if out.err != 0 { out := out.(len := 0); } else if op.direction == Send { out := out.(len := op.len); }
      Settled(cq, prev, op, k, Reported(cq, done));
      return 1, out;
    }

    method CqPoll(cq: Cq?, read: CqRead, error: CqReadErr) returns (ret: int, out: Completion)
      requires Valid() && LiveCq(g, cq)
      modifies this`g, objs
      ensures Valid() && objs == old(objs) && cm == old(cm)
      ensures PollOutcome(g, ret, out) == ShimSpec.CqPoll(old(g), cq, read, error)
    {
      out := Blank;
      if cq == null { return -EINVAL, out; }
      if cq.retired { return -EOPBADSTATE, out; }
      ret := read.ret;
      var context: Op? := null;
      if ret == -EAVAIL {
        ret := error.ret;
        if ret == -EAGAIN || ret == 0 { return 0, out; }
        if ret < 0 { return ret, out; }
        context := error.context;
        out := out.(err := error.err, provErr := error.provErr);
      } else {
        if ret == -EAGAIN || ret == 0 { return 0, out; }
        if ret < 0 { return ret, out; }
        context := read.context;
        out := out.(len := read.len);
      }
      ret, out := Complete(cq, context, out);
    }

    // ------------------------------------------------------ closing endpoints

    /** One queue changed its stage and its flags with it. */
    twostate lemma StageMoved(cq: Cq)
      requires old(Linked(g)) && cq in old(g).stages && cq in g.stages
      requires g == old(g).(stages := old(g).stages[cq := g.stages[cq]])
      requires cq.used == !g.stages[cq].Unused? && cq.attached == g.stages[cq].InUse?
        && cq.retired == g.stages[cq].Retired?
      requires unchanged(old(g).stages.Keys - {cq}) && unchanged(old(g).listeners.Keys) && unchanged(old(g).eps.Keys)
      requires unchanged(old(g).lists.Keys`count) && unchanged(old(g).lists.Keys`pending) && unchanged(old(g).ops.Keys)
      requires unchanged(old(g).mrs) && unchanged(old(g).fabrics) && unchanged(old(g).domains) && unchanged(old(g).eqs)
      ensures Linked(g)
    {
      assert g.stages.Keys == old(g).stages.Keys;
      ParentsKept();
      OpsKept();
      ListsSame();
    }

    method SetFlags(cq: Cq)
      requires Linked(g) && cq in g.stages && !g.stages[cq].Unused?
      modifies this`g, cq`attached, cq`retired
      ensures Linked(g) && objs == old(objs) && cm == old(cm) && g == old(g).(stages := old(g).stages[cq := Retired])
    {
      hide World.ParentsLinked, World.ListsLinked, World.OpsLinked;
      cq.Retire();
      g := g.(stages := g.stages[cq := Retired]);
      StageMoved(cq);
    }

    method RetireOne(op: Op)
      requires Linked(g) && op in g.ops && g.ops[op].flight.Flying?
      requires g.ops[op].flight.mr == null || g.ops[op].flight.mr in g.mrs
      modifies this`g, g.ops.Keys, g.mrs
      ensures Linked(g) && g == ReturnBorrow(old(g), op) && SameHandles(old(g), g) && objs == old(objs) && cm == old(cm)
    {
      ReturnOne(op);
    }

    /** `retire_cq`: the queue stops reporting and its operations give their regions back. */
    method RetireCq(cq: Cq)
      requires Linked(g) && cq in g.lists && cq in g.stages && !g.stages[cq].Unused? && Returnable(g, g.lists[cq])
      modifies this`g, cq, g.ops.Keys, g.mrs
      ensures Linked(g) && g == ResourceGraph.RetireCq(old(g), cq) && SameHandles(old(g), g) && objs == old(objs)
        && cm == old(cm)
    {
      ghost var s := g.lists[cq];
      SetFlags(cq);
      var op := cq.pending;
      ghost var g1 := g;
      ghost var i := 0;
      while op != null
        invariant 0 <= i <= |s| && op == First(s, i)
        invariant Linked(g) && g.lists == g1.lists && Returnable(g, s) && SameHandles(old(g), g) && objs == old(objs)
          && cm == old(cm)
        invariant ReturnAll(g, s[i..]) == ReturnAll(g1, s)
        decreases |s| - i
      {
        ReturnStep(g, s, i);
        RetireOne(op);
        assert g.lists[cq][i].next == First(s, i + 1);
        op := op.next;
        i := i + 1;
      }
    }

    method MarkClosing(ep: Endpoint)
      requires Linked(g) && ep in g.eps
      modifies this`g, ep`closing
      ensures Linked(g) && objs == old(objs) && cm == old(cm) && g == SetClosing(old(g), ep)
    {
      ep.closing := true;
      g := SetClosing(g, ep);
      assert g.eps.Keys == old(g).eps.Keys;
      ParentsKept();
      OpsKept();
      ListsSame();
    }

    twostate lemma EndpointDetached(e: Endpoint)
      requires old(Linked(g)) && e in old(g).eps && e.eq in g.eqs && e.domain in g.domains
      requires g == old(g).(eps := old(g).eps - {e})
      requires e.eq.users == old(e.eq.users) - 1 && e.domain.children == old(e.domain.children) - 1
      requires unchanged(old(g).fabrics) && unchanged(old(g).domains - {e.domain}) && unchanged(old(g).eqs - {e.eq})
      requires unchanged(old(g).stages.Keys) && unchanged(old(g).lists.Keys) && unchanged(old(g).ops.Keys)
      requires unchanged(old(g).listeners.Keys) && unchanged(old(g).eps.Keys) && unchanged(old(g).mrs)
      ensures Linked(g)
    {
      EndpointLeft(e);
      ParentsMoved();
    }

    /** The endpoint is freed; its event queue and domain lose a dependant. */
    method Detach(ep: Endpoint)
      requires Linked(g) && ep in g.eps && ep.eq in g.eqs && ep.domain in g.domains
      modifies this`g, ep.eq`users, ep.domain`children
      ensures Linked(g) && objs == old(objs) && cm == old(cm) && g == old(g).(eps := old(g).eps - {ep})
    {
      hide World.FlagsLinked, World.ListsLinked, World.OpsLinked;
      ghost var es := g.eps.Keys - {ep};
      assert es + {ep} == g.eps.Keys;
      EndpointJoins(es, ep);
      assert ep.eq.users > 0 && ep.domain.children > 0;
      ep.eq.users := ep.eq.users - 1;
      ep.domain.children := ep.domain.children - 1;
      g := g.(eps := g.eps - {ep});
      assert g.eps.Keys == es;
      hide World.Linked;
      EndpointDetached(ep);
    }

    /** Everything a successful `fi_close` of an endpoint entails. */
    method Unbind(ep: Endpoint)
      requires Linked(g) && ep in g.eps && ep.eq in g.eqs && ep.domain in g.domains
      requires ep.tx in g.lists && ep.rx in g.lists && ep.tx in g.stages && ep.rx in g.stages && ep.tx != ep.rx
      requires g.stages[ep.tx].InUse? && g.stages[ep.rx].InUse?
      requires Returnable(g, g.lists[ep.tx]) && Returnable(g, g.lists[ep.rx])
      modifies this`g, g.stages.Keys, g.ops.Keys, g.mrs, ep.eq`users, ep.domain`children
      ensures Linked(g) && objs == old(objs) && cm == old(cm) && g == RemoveEndpoint(old(g), ep)
    {
      RetireShape(g, ep.tx);
      RetireCq(ep.tx);
      RetireShape(g, ep.rx);
      RetireCq(ep.rx);
      Detach(ep);
    }

    method EndpointClose(ep: Endpoint?, fi: int) returns (ret: int)
      requires Valid() && LiveEp(g, ep)
      modifies this`g, this`cm, objs
      ensures Valid() && objs == old(objs) && Outcome(g, ret) == CloseEp(old(g), ep, fi)
      ensures cm == if ep == null then old(cm) else old(cm) + [EpClosed(ep)]
    {
      hide World.Valid;
      if ep == null { return 0; }
      Consistent();
      cm := cm + [EpClosed(ep)];
      ret := CloseEndpoint(ep, fi);
    }

    method CloseEndpoint(ep: Endpoint, fi: int) returns (ret: int)
      requires Valid() && ep in g.eps
      modifies this`g, objs
      ensures Valid() && objs == old(objs) && cm == old(cm) && Outcome(g, ret) == CloseEp(old(g), ep, fi)
    {
      CloseEpInv(g, ep, fi);
      Marked(ep);
      if fi != 0 { return fi; }
      Freed(ep);
      return 0;
    }

    method Marked(ep: Endpoint)
      requires Valid() && ep in g.eps
      modifies this`g, objs
      ensures Valid() && objs == old(objs) && cm == old(cm) && g == SetClosing(old(g), ep)
    {
      EpFlagInv(g, SetClosing(g, ep), ep);
      MarkClosing(ep);
    }

    method Freed(ep: Endpoint)
      requires Valid() && ep in g.eps
      modifies this`g, objs
      ensures Valid() && objs == old(objs) && cm == old(cm) && g == RemoveEndpoint(old(g), ep)
    {
      EndpointParts(g, ep);
      RemoveEndpointInv(g, ep);
      RemoveEndpointShape(g, ep);
      Unbind(ep);
    }

    // ------------------------------------------------------ closing the others

    method ListenerClose(l: Listener?, fi: int) returns (ret: int)
      requires Valid() && LiveListener(g, l)
      modifies this`g, objs
      ensures Valid() && objs == old(objs) && cm == old(cm) && Outcome(g, ret) == CloseListener(old(g), l, fi)
    {
      if l == null { return 0; }
      if fi != 0 { return fi; }
      CloseListenerInv(g, l, 0);
      DropListener(l);
      return 0;
    }

    method DropListener(l: Listener)
      requires Linked(g) && l in g.listeners && l.eq in g.eqs && l.fabric in g.fabrics
      modifies this`g, l.eq`users, l.fabric`children
      ensures Linked(g) && objs == old(objs) && cm == old(cm) && g == old(g).(listeners := old(g).listeners - {l})
    {
      hide World.FlagsLinked, World.ListsLinked, World.OpsLinked;
      assert l in ListenersOn(g.listeners.Keys, l.eq) && l in ListenersOf(g.listeners.Keys, l.fabric);
      l.eq.users := l.eq.users - 1;
      l.fabric.children := l.fabric.children - 1;
      g := g.(listeners := g.listeners - {l});
      ListenerLeft(l);
      ParentsMoved();
    }

    method MrClose(mr: Mr?, fi: int) returns (ret: int)
      requires Valid() && LiveMr(g, mr)
      modifies this`g, objs
      ensures Valid() && objs == old(objs) && cm == old(cm) && Outcome(g, ret) == CloseMr(old(g), mr, fi)
    {
      if mr == null { return 0; }
      if mr.pending != 0 { return -EBUSY; }
      if fi != 0 { return fi; }
      CloseMrInv(g, mr, 0);
      DropMr(mr);
      return 0;
    }

    method DropMr(mr: Mr)
      requires Linked(g) && mr in g.mrs && mr.domain in g.domains
      modifies this`g, mr.domain`children
      ensures Linked(g) && objs == old(objs) && cm == old(cm) && g == old(g).(mrs := old(g).mrs - {mr})
    {
      assert mr in MrsOf(g.mrs, mr.domain);
      mr.domain.children := mr.domain.children - 1;
      g := g.(mrs := g.mrs - {mr});
      MrLeft(mr);
      ParentsMoved();
    }

    method EqClose(eq: Eq?, fi: int) returns (ret: int)
      requires Valid() && LiveEq(g, eq)
      modifies this`g, objs
      ensures Valid() && objs == old(objs) && cm == old(cm) && Outcome(g, ret) == CloseEq(old(g), eq, fi)
    {
      if eq == null { return 0; }
      if eq.users != 0 { return -EBUSY; }
      if fi != 0 { return fi; }
      CloseEqInv(g, eq, 0);
      DropEq(eq);
      return 0;
    }

    method DropEq(eq: Eq)
      requires Linked(g) && eq in g.eqs && eq.fabric in g.fabrics
      modifies this`g, eq.fabric`children
      ensures Linked(g) && objs == old(objs) && cm == old(cm) && g == old(g).(eqs := old(g).eqs - {eq})
    {
      assert eq in EqsOf(g.eqs, eq.fabric);
      eq.fabric.children := eq.fabric.children - 1;
      g := g.(eqs := g.eqs - {eq});
      EqLeft(eq);
      ParentsMoved();
    }

    method DomainClose(domain: Domain?, fi: int) returns (ret: int)
      requires Valid() && LiveDomain(g, domain)
      modifies this`g, objs
      ensures Valid() && objs == old(objs) && cm == old(cm) && Outcome(g, ret) == CloseDomain(old(g), domain, fi)
    {
      if domain == null { return 0; }
      if domain.children != 0 { return -EBUSY; }
      if fi != 0 { return fi; }
      CloseDomainInv(g, domain, 0);
      DropDomain(domain);
      return 0;
    }

    method DropDomain(domain: Domain)
      requires Linked(g) && domain in g.domains && domain.fabric in g.fabrics
      modifies this`g, domain.fabric`children
      ensures Linked(g) && objs == old(objs) && cm == old(cm) && g == old(g).(domains := old(g).domains - {domain})
    {
      assert domain in DomainsOf(g.domains, domain.fabric);
      domain.fabric.children := domain.fabric.children - 1;
      g := g.(domains := g.domains - {domain});
      DomainLeft(domain);
      ParentsMoved();
    }

    method FabricClose(fabric: Fabric?, fi: int) returns (ret: int)
      requires Valid() && LiveFabric(g, fabric)
      modifies this`g
      ensures Valid() && Outcome(g, ret) == CloseFabric(old(g), fabric, fi)
    {
      hide Closed, Staged, Borrowed, Logged, Listed, World.FlagsLinked, World.ListsLinked, World.OpsLinked;
      if fabric == null { return 0; }
      if fabric.children != 0 { return -EBUSY; }
      if fi != 0 { return fi; }
      CloseFabricInv(g, fabric, 0);
      DropFabric(fabric);
      return 0;
    }

    ghost method DropFabric(fabric: Fabric)
      requires Linked(g)
      modifies this`g
      ensures Linked(g) && g == old(g).(fabrics := old(g).fabrics - {fabric})
    {
      g := g.(fabrics := g.fabrics - {fabric});
      ParentsKept();
      ParentsMoved();
    }

    method OpFree(op: Op?) returns (ret: int)
      requires Valid() && LiveOp(g, op)
      modifies this`g
      ensures Valid() && Outcome(g, ret) == FreeOp(old(g), op)
    {
      if op == null { return 0; }
      if op.cq != null { return -EBUSY; }
      Freeing(op);
      return 0;
    }

    ghost method Freeing(op: Op)
      requires Valid() && op in g.ops && g.ops[op].flight.Idle?
      modifies this`g
      ensures Valid() && g == old(g).(ops := old(g).ops - {op})
    {
      FreeOpInv(g, op);
      IdleUnlisted(g, op);
      DropOp(op);
    }

    ghost method DropOp(op: Op)
      requires Linked(g) && op in g.ops && g.ops[op].flight.Idle? && Unlisted(g, op)
      modifies this`g
      ensures Linked(g) && g == old(g).(ops := old(g).ops - {op})
    {
      IdleOpLeaves(g.ops, op);
      ghost var lists := g.lists;
      g := g.(ops := g.ops - {op});
      ParentsKept();
      forall c, i | c in lists && 0 <= i < |lists[c]|
        ensures lists[c][i] in g.ops && lists[c][i].next == First(lists[c], i + 1)
      {
        assert old(lists[c][i].next) == First(lists[c], i + 1);
      }
    }

    lemma Flagged(ep: Endpoint)
      requires Valid() && ep in g.eps
      ensures ep.ready == g.eps[ep].ready && ep.closing == g.eps[ep].closing
    {
    }

    method Shutdown(ep: Endpoint?, fi: int) returns (ret: int)
      requires Valid() && LiveEp(g, ep)
      modifies this`g, this`cm, objs
      ensures Valid() && objs == old(objs) && Outcome(g, ret) == ShimSpec.Shutdown(old(g), ep, fi)
      ensures cm == if ep != null && old(g).eps[ep].ready then old(cm) + [PeerTold(ep)] else old(cm)
    {
      hide World.Valid;
      Consistent();
      if ep != null { Flagged(ep); }
      if ep == null || !ep.ready { return -EINVAL; }
      cm := cm + [PeerTold(ep)];
      Marked(ep);
      return fi;
    }

    // ------------------------------------------------------ closing queues

    /** The queue no longer owns its list, whose operations are loose now. */
    ghost method Unlist(cq: Cq)
      requires Linked(g) && cq in g.lists
      modifies this`g
      ensures Linked(g) && g == old(g).(lists := old(g).lists - {cq}) && objs == old(objs) && cm == old(cm)
    {
      g := g.(lists := g.lists - {cq});
      ListsSame();
      QueueMoved();
    }

    method MoveHead(cq: Cq, next: Op?)
      requires Linked(g) && cq !in g.lists
      modifies cq`pending
      ensures Linked(g) && cq.pending == next
    {
      cq.pending := next;
      ListsSame();
      QueueMoved();
    }

    /** One round of the drain: the head of a loose list is released for good. */
    method Discard(cq: Cq, ghost s: seq<Op>, ghost i: nat)
      requires Linked(g) && cq !in g.lists && i < |s| && NoDup(s) && cq.pending == s[i] && Loose(g, s, i)
      requires forall j | i <= j < |s| :: s[j].next == First(s, j + 1)
      modifies this`g, cq`pending, g.ops.Keys, g.mrs`pending
      ensures Linked(g) && objs == old(objs) && cm == old(cm)
      ensures g == Land(old(g), s[i], Discarded) && cq.pending == First(s, i + 1)
      ensures forall j | i < j < |s| :: s[j].next == First(s, j + 1)
    {
      var op: Op := cq.pending;
      MoveHead(cq, op.next);
      ReleaseOp(op, Discarded);
    }

    /** The queue leaves the graph and its domain loses a child. */
    method DropCq(cq: Cq)
      requires Linked(g) && cq in g.stages && cq.domain in g.domains
      modifies this`g, cq.domain`children
      ensures Linked(g) && objs == old(objs) && cm == old(cm) && g == old(g).(stages := old(g).stages - {cq})
    {
      assert cq in CqsOf(g.stages.Keys, cq.domain);
      cq.domain.children := cq.domain.children - 1;
      g := g.(stages := g.stages - {cq});
      CqLeft(cq);
      ParentsMoved();
    }

    /** Release every operation of a loose list. */
    method ReleaseAll(cq: Cq, ghost s: seq<Op>)
      requires Linked(g) && cq !in g.lists && NoDup(s) && Loose(g, s, 0) && cq.pending == First(s, 0)
      requires forall j | 0 <= j < |s| :: s[j].next == First(s, j + 1)
      modifies this`g, cq`pending, g.ops.Keys, g.mrs`pending
      ensures Linked(g) && objs == old(objs) && cm == old(cm) && g == DiscardAll(old(g), s)
    {
      ghost var i := 0;
      while cq.pending != null
        invariant 0 <= i <= |s| && cq.pending == First(s, i) && Linked(g) && Loose(g, s, i)
        invariant forall j | i <= j < |s| :: s[j].next == First(s, j + 1)
        invariant objs == old(objs) && cm == old(cm) && SameHandles(old(g), g) && cq !in g.lists
        invariant DiscardAll(g, s[i..]) == DiscardAll(old(g), s)
        decreases |s| - i
      {
        LooseStep(g, s, i);
        Discard(cq, s, i);
        i := i + 1;
      }
    }

    /** What follows a successful `fi_close` of a queue. */
    method Drain(cq: Cq)
      requires Linked(g) && cq in g.lists && cq in g.stages && cq.domain in g.domains
      requires NoDup(g.lists[cq]) && Loose(g.(lists := g.lists - {cq}), g.lists[cq], 0)
      modifies this`g, cq`pending, g.ops.Keys, g.mrs`pending, cq.domain`children
      ensures Linked(g) && objs == old(objs) && cm == old(cm) && g == Drained(old(g), cq)
    {
      ghost var s := g.lists[cq];
      assert forall j | 0 <= j < |s| :: s[j].next == First(s, j + 1) by {
        forall j | 0 <= j < |s| ensures s[j].next == First(s, j + 1) {
          assert g.lists[cq][j].next == First(s, j + 1);
        }
      }
      Unlist(cq);
      DiscardedRest(g, s);
      ReleaseAll(cq, s);
      DropCq(cq);
    }

    method CqClosed(cq: Cq)
      requires Valid() && cq in g.stages && cq in g.lists && !g.stages[cq].InUse?
      modifies this`g, objs
      ensures Valid() && objs == old(objs) && cm == old(cm) && g == Drained(old(g), cq)
    {
      CloseCqInv(g, cq);
      ListLoose(g, cq);
      Drain(cq);
    }

    method CqClose(cq: Cq?, fi: int) returns (ret: int)
      requires Valid() && LiveCq(g, cq)
      modifies this`g, objs
      ensures Valid() && objs == old(objs) && cm == old(cm) && Outcome(g, ret) == CloseCq(old(g), cq, fi)
    {
      if cq == null { return 0; }
      if cq.attached { return -EBUSY; }
      if fi != 0 { return fi; }
      CqClosed(cq);
      return 0;
    }

    // ---------------------------------------------------------------- opens

    /** The counters of the parents that neither gained nor lost a dependant. */
    twostate lemma FabricJoined(f: Fabric)
      requires old(ParentsLinked(g)) && f !in old(g).fabrics && g == ShimSpec.AddFabric(old(g), f)
      requires f.children == 0 == FabricKids(g, f)
      requires unchanged(old(g).fabrics) && unchanged(old(g).domains) && unchanged(old(g).eqs)
      ensures ParentsLinked(g)
    {
      forall p | p in old(g).fabrics
        ensures p.children == FabricKids(g, p)
      {
        assert old(p.children) == FabricKids(old(g), p);
      }
      forall d | d in g.domains
        ensures d.children == DomainKids(g, d)
      {
        assert old(d.children) == DomainKids(old(g), d);
      }
      forall q | q in g.eqs ensures q.users == EqUsers(g, q) { assert old(q.users) == EqUsers(old(g), q); }
    }

    twostate lemma DomainJoined(d: Domain)
      requires old(ParentsLinked(g)) && d !in old(g).domains && d.fabric in old(g).fabrics
      requires g == ShimSpec.AddDomain(old(g), d)
      requires d.children == 0 == DomainKids(g, d) && d.fabric.children == old(d.fabric.children) + 1
      requires unchanged(old(g).fabrics - {d.fabric}) && unchanged(old(g).domains) && unchanged(old(g).eqs)
      ensures ParentsLinked(g)
    {
      DomainJoins(old(g).domains, d);
      forall f | f in g.fabrics
        ensures f.children == FabricKids(g, f)
      {
        assert old(f.children) == FabricKids(old(g), f);
      }
      forall p | p in old(g).domains
        ensures p.children == DomainKids(g, p)
      {
        assert old(p.children) == DomainKids(old(g), p);
      }
      forall q | q in g.eqs ensures q.users == EqUsers(g, q) { assert old(q.users) == EqUsers(old(g), q); }
    }

    twostate lemma EqJoined(q: Eq)
      requires old(ParentsLinked(g)) && q !in old(g).eqs && q.fabric in old(g).fabrics
      requires g == ShimSpec.AddEq(old(g), q)
      requires q.users == 0 == EqUsers(g, q) && q.fabric.children == old(q.fabric.children) + 1
      requires unchanged(old(g).fabrics - {q.fabric}) && unchanged(old(g).domains) && unchanged(old(g).eqs)
      ensures ParentsLinked(g)
    {
      EqJoins(old(g).eqs, q);
      forall f | f in g.fabrics
        ensures f.children == FabricKids(g, f)
      {
        assert old(f.children) == FabricKids(old(g), f);
      }
      forall d | d in g.domains
        ensures d.children == DomainKids(g, d)
      {
        assert old(d.children) == DomainKids(old(g), d);
      }
      forall p | p in old(g).eqs ensures p.users == EqUsers(g, p) { assert old(p.users) == EqUsers(old(g), p); }
    }

    twostate lemma CqJoined(c: Cq)
      requires old(ParentsLinked(g)) && c !in old(g).stages && c.domain in old(g).domains
      requires g == ShimSpec.AddCq(old(g), c)
      requires c.domain.children == old(c.domain.children) + 1
      requires unchanged(old(g).fabrics) && unchanged(old(g).domains - {c.domain}) && unchanged(old(g).eqs)
      ensures ParentsLinked(g)
    {
      assert g.stages.Keys == old(g).stages.Keys + {c};
      CqJoins(old(g).stages.Keys, c);
      forall f | f in g.fabrics
        ensures f.children == FabricKids(g, f)
      {
        assert old(f.children) == FabricKids(old(g), f);
      }
      forall d | d in g.domains
        ensures d.children == DomainKids(g, d)
      {
        assert old(d.children) == DomainKids(old(g), d);
      }
      forall q | q in g.eqs ensures q.users == EqUsers(g, q) { assert old(q.users) == EqUsers(old(g), q); }
    }

    twostate lemma MrJoined(m: Mr)
      requires old(ParentsLinked(g)) && m !in old(g).mrs && m.domain in old(g).domains
      requires g == ShimSpec.AddMr(old(g), m)
      requires m.domain.children == old(m.domain.children) + 1
      requires unchanged(old(g).fabrics) && unchanged(old(g).domains - {m.domain}) && unchanged(old(g).eqs)
      ensures ParentsLinked(g)
    {
      MrJoins(old(g).mrs, m);
      forall f | f in g.fabrics
        ensures f.children == FabricKids(g, f)
      {
        assert old(f.children) == FabricKids(old(g), f);
      }
      forall d | d in g.domains
        ensures d.children == DomainKids(g, d)
      {
        assert old(d.children) == DomainKids(old(g), d);
      }
      forall q | q in g.eqs ensures q.users == EqUsers(g, q) { assert old(q.users) == EqUsers(old(g), q); }
    }

    twostate lemma ListenerJoined(l: Listener)
      requires old(ParentsLinked(g)) && l !in old(g).listeners && l.eq in old(g).eqs && l.fabric in old(g).fabrics
      requires g == ShimSpec.AddListener(old(g), l)
      requires l.eq.users == old(l.eq.users) + 1 && l.fabric.children == old(l.fabric.children) + 1
      requires unchanged(old(g).domains) && unchanged(old(g).fabrics - {l.fabric}) && unchanged(old(g).eqs - {l.eq})
      ensures ParentsLinked(g)
    {
      assert g.listeners.Keys == old(g).listeners.Keys + {l};
      ListenerJoins(old(g).listeners.Keys, l);
      forall f | f in g.fabrics
        ensures f.children == FabricKids(g, f)
      {
        assert old(f.children) == FabricKids(old(g), f);
      }
      forall d | d in g.domains
        ensures d.children == DomainKids(g, d)
      {
        assert old(d.children) == DomainKids(old(g), d);
      }
      forall q | q in g.eqs ensures q.users == EqUsers(g, q) { assert old(q.users) == EqUsers(old(g), q); }
    }

    method FabricOpen(info: Info?, alloc: bool, fi: int) returns (ret: int, out: Fabric?)
      requires Valid()
      modifies this`g, this`objs
      ensures Valid() && fresh(objs - old(objs)) && ret == Opened(if info == null then -EINVAL else 0, alloc, fi)
      ensures if ret != 0 then out == null && g == old(g) && objs == old(objs)
        else out != null && fresh(out) && g == ShimSpec.AddFabric(old(g), out) && objs == old(objs) + {out}
    {
      hide World.Valid;
      if info == null { return -EINVAL, null; }
      if !alloc { return -ENOMEM, null; }
      if fi != 0 { return fi, null; }
      out := new Fabric();
      assert g == old(g);
      InstallFabric(out);
      return 0, out;
    }

    method DomainOpen(fabric: Fabric?, info: Info?, alloc: bool, fi: int) returns (ret: int, out: Domain?)
      requires Valid() && LiveFabric(g, fabric)
      modifies this`g, this`objs, objs
      ensures Valid() && fresh(objs - old(objs)) && cm == old(cm)
      ensures ret == Opened(if fabric == null || info == null then -EINVAL else 0, alloc, fi)
      ensures if ret != 0 then out == null && g == old(g) && objs == old(objs)
        else out != null && fresh(out) && out.fabric == fabric
             && g == ShimSpec.AddDomain(old(g), out) && objs == old(objs) + {out}
    {
      hide World.Valid;
      if fabric == null || info == null { return -EINVAL, null; }
      if !alloc { return -ENOMEM, null; }
      if fi != 0 { return fi, null; }
      out := new Domain(fabric);
      InstallDomain(out);
      return 0, out;
    }

    method EqOpen(fabric: Fabric?, alloc: bool, fi: int) returns (ret: int, out: Eq?)
      requires Valid() && LiveFabric(g, fabric)
      modifies this`g, this`objs, objs
      ensures Valid() && fresh(objs - old(objs)) && cm == old(cm)
      ensures ret == Opened(if fabric == null then -EINVAL else 0, alloc, fi)
      ensures if ret != 0 then out == null && g == old(g) && objs == old(objs)
        else out != null && fresh(out) && out.fabric == fabric
             && g == ShimSpec.AddEq(old(g), out) && objs == old(objs) + {out}
    {
      hide World.Valid;
      if fabric == null { return -EINVAL, null; }
      if !alloc { return -ENOMEM, null; }
      if fi != 0 { return fi, null; }
      out := new Eq(fabric);
      InstallEq(out);
      return 0, out;
    }

    method CqOpen(domain: Domain?, capacity: U64, alloc: bool, fi: int) returns (ret: int, out: Cq?)
      requires Valid() && LiveDomain(g, domain)
      modifies this`g, this`objs, objs
      ensures Valid() && fresh(objs - old(objs)) && cm == old(cm)
      ensures ret == Opened(if domain == null || capacity == 0 then -EINVAL else 0, alloc, fi)
      ensures if ret != 0 then out == null && g == old(g) && objs == old(objs)
        else out != null && fresh(out) && out.domain == domain && out.capacity == capacity
             && g == ShimSpec.AddCq(old(g), out) && objs == old(objs) + {out}
    {
      hide World.Valid;
      if domain == null || capacity == 0 { return -EINVAL, null; }
      if !alloc { return -ENOMEM, null; }
      if fi != 0 { return fi, null; }
      out := new Cq(domain, capacity);
      InstallCq(out);
      return 0, out;
    }

    method MrRegister(domain: Domain?, buf: U64, capacity: U64, access: bv32, alloc: bool, fi: int)
      returns (ret: int, out: Mr?)
      requires Valid() && LiveDomain(g, domain)
      modifies this`g, this`objs, objs
      ensures Valid() && fresh(objs - old(objs)) && cm == old(cm)
      ensures ret == Opened(if domain == null || !Registrable(buf, capacity, access) then -EINVAL else 0, alloc, fi)
      ensures if ret != 0 then out == null && g == old(g) && objs == old(objs)
        else out != null && fresh(out) && out.domain == domain && out.buffer == buf
             && out.capacity == capacity && out.access == access
             && g == ShimSpec.AddMr(old(g), out) && objs == old(objs) + {out}
    {
      hide World.Valid;
      if domain == null || buf == 0 || capacity == 0 || access == 0 || access & !(ACCESS_SEND | ACCESS_RECV) != 0 {
        return -EINVAL, null;
      }
      if !alloc { return -ENOMEM, null; }
      if fi != 0 { return fi, null; }
      out := new Mr(domain, buf, capacity, access);
      InstallMr(out);
      return 0, out;
    }

    method OpCreate(id: nat, alloc: bool) returns (ret: int, out: Op?)
      requires Valid()
      modifies this`g, this`objs
      ensures Valid() && fresh(objs - old(objs)) && ret == Opened(0, alloc, 0)
      ensures if ret != 0 then out == null && g == old(g) && objs == old(objs)
        else out != null && fresh(out) && out.id == id && g == ShimSpec.AddOp(old(g), out) && objs == old(objs) + {out}
    {
      hide World.Valid;
      if !alloc { return -ENOMEM, null; }
      out := new Op(id);
      assert g == old(g);
      InstallOp(out);
      return 0, out;
    }

    ghost method InstallFabric(f: Fabric)
      requires Valid() && f !in objs && f.children == 0
      modifies this`g, this`objs
      ensures Valid() && g == ShimSpec.AddFabric(old(g), f) && objs == old(objs) + {f} && cm == old(cm)
    {
      NewFabric(g, f);
      AddFabric(f);
    }

    ghost method AddFabric(f: Fabric)
      requires Linked(g) && FabricKids(ShimSpec.AddFabric(g, f), f) == 0 && f !in g.fabrics && f.children == 0
      modifies this`g, this`objs
      ensures Linked(g) && objs == old(objs) + {f} && cm == old(cm) && g == ShimSpec.AddFabric(old(g), f)
    {
      objs := objs + {f};
      g := ShimSpec.AddFabric(g, f);
      FabricJoined(f);
      ParentsMoved();
    }

    method InstallDomain(d: Domain)
      requires Valid() && d !in objs && d.fabric in g.fabrics && d.children == 0
      modifies this`g, this`objs, objs
      ensures Valid() && g == ShimSpec.AddDomain(old(g), d) && objs == old(objs) + {d} && cm == old(cm)
    {
      NewDomain(g, d);
      AddDomain(d);
    }

    method AddDomain(d: Domain)
      requires Linked(g) && DomainKids(ShimSpec.AddDomain(g, d), d) == 0 && d !in g.domains && d.fabric in g.fabrics
        && d.children == 0
      modifies this`g, this`objs, d.fabric`children
      ensures Linked(g) && objs == old(objs) + {d} && cm == old(cm) && g == ShimSpec.AddDomain(old(g), d)
    {
      d.fabric.children := d.fabric.children + 1;
      objs := objs + {d};
      g := ShimSpec.AddDomain(g, d);
      DomainJoined(d);
      ParentsMoved();
    }

    method InstallEq(q: Eq)
      requires Valid() && q !in objs && q.fabric in g.fabrics && q.users == 0
      modifies this`g, this`objs, objs
      ensures Valid() && g == ShimSpec.AddEq(old(g), q) && objs == old(objs) + {q} && cm == old(cm)
    {
      NewEq(g, q);
      AddEq(q);
    }

    method AddEq(q: Eq)
      requires Linked(g) && EqUsers(ShimSpec.AddEq(g, q), q) == 0 && q !in g.eqs && q.fabric in g.fabrics
        && q.users == 0
      modifies this`g, this`objs, q.fabric`children
      ensures Linked(g) && objs == old(objs) + {q} && cm == old(cm) && g == ShimSpec.AddEq(old(g), q)
    {
      q.fabric.children := q.fabric.children + 1;
      objs := objs + {q};
      g := ShimSpec.AddEq(g, q);
      EqJoined(q);
      ParentsMoved();
    }

    method InstallCq(c: Cq)
      requires Valid() && c !in objs && c.domain in g.domains
      requires c.count == 0 && c.pending == null && !c.used && !c.attached && !c.retired
      modifies this`g, this`objs, objs
      ensures Valid() && g == ShimSpec.AddCq(old(g), c) && objs == old(objs) + {c} && cm == old(cm)
    {
      hide World.Linked, Closed, Staged, Listed, Borrowed, Logged;
      NewCq(g, c);
      AddCq(c);
    }

    method AddCq(c: Cq)
      requires Linked(g) && c !in g.stages && c !in g.lists && c.domain in g.domains
      requires c.count == 0 && c.pending == null && !c.used && !c.attached && !c.retired
      modifies this`g, this`objs, c.domain`children
      ensures Linked(g) && objs == old(objs) + {c} && cm == old(cm) && g == ShimSpec.AddCq(old(g), c)
    {
      hide World.FlagsLinked, World.ListsLinked, World.OpsLinked;
      c.domain.children := c.domain.children + 1;
      objs := objs + {c};
      g := ShimSpec.AddCq(g, c);
      CqJoined(c);
      ParentsMoved();
    }

    method InstallMr(m: Mr)
      requires Valid() && m !in objs && m.domain in g.domains && m.pending == 0
      modifies this`g, this`objs, objs
      ensures Valid() && g == ShimSpec.AddMr(old(g), m) && objs == old(objs) + {m} && cm == old(cm)
    {
      UnusedMr(g, m);
      AddMr(m);
    }

    method AddMr(m: Mr)
      requires Linked(g) && m !in g.mrs && m.domain in g.domains && m.pending == 0 && BorrowersOf(g.ops, m) == {}
      modifies this`g, this`objs, m.domain`children
      ensures Linked(g) && objs == old(objs) + {m} && cm == old(cm) && g == ShimSpec.AddMr(old(g), m)
    {
      m.domain.children := m.domain.children + 1;
      objs := objs + {m};
      g := ShimSpec.AddMr(g, m);
      MrJoined(m);
      ParentsMoved();
    }

    ghost method InstallOp(o: Op)
      requires Valid() && o !in objs && o.direction == Unset && o.len == 0 && o.cq == null && o.mr == null
      modifies this`g, this`objs
      ensures Valid() && g == ShimSpec.AddOp(old(g), o) && objs == old(objs) + {o} && cm == old(cm)
    {
      AddOpInv(g, o);
      AddOp(o);
    }

    ghost method AddOp(o: Op)
      requires Linked(g) && o !in g.ops && o.direction == Unset && o.len == 0 && o.cq == null && o.mr == null
      modifies this`g, this`objs
      ensures Linked(g) && objs == old(objs) + {o} && cm == old(cm) && g == ShimSpec.AddOp(old(g), o)
    {
      IdleOpJoins(g.ops, o, OpRec(Unset, 0, Idle));
      objs := objs + {o};
      g := ShimSpec.AddOp(g, o);
      ParentsKept();
      ListsSame();
    }

    method AddListener(l: Listener)
      requires Linked(g) && l !in g.listeners && l.eq in g.eqs && l.fabric in g.fabrics && !l.ready
      modifies this`g, this`objs, l.eq`users, l.fabric`children
      ensures Linked(g) && objs == old(objs) + {l} && cm == old(cm) && g == ShimSpec.AddListener(old(g), l)
    {
      hide World.FlagsLinked, World.ListsLinked, World.OpsLinked;
      l.fabric.children := l.fabric.children + 1;
      l.eq.users := l.eq.users + 1;
      objs := objs + {l};
      g := ShimSpec.AddListener(g, l);
      ListenerJoined(l);
      ParentsMoved();
    }

    method InstallListener(l: Listener)
      requires Valid() && l !in objs && l.eq in g.eqs && l.fabric in g.fabrics && l.eq.fabric == l.fabric && !l.ready
      modifies this`g, this`objs, objs
      ensures Valid() && g == ShimSpec.AddListener(old(g), l) && objs == old(objs) + {l} && cm == old(cm)
    {
      hide World.Linked, Closed, Staged, Listed, Borrowed, Logged;
      NewListener(g, l);
      OwnedGrows(g, ShimSpec.AddListener(g, l), objs, l);
      AddListener(l);
    }

    method Start(l: Listener)
      requires Linked(g) && l in g.listeners
      modifies this`g, l`ready
      ensures Linked(g) && objs == old(objs) && cm == old(cm) && g == StartListener(old(g), l)
    {
      l.ready := true;
      g := StartListener(g, l);
      assert g.listeners.Keys == old(g).listeners.Keys;
      ParentsKept();
      OpsKept();
      ListsSame();
    }

    method Started(l: Listener)
      requires Valid() && l in g.listeners
      modifies this`g, objs
      ensures Valid() && objs == old(objs) && cm == old(cm) && g == StartListener(old(g), l)
    {
      SetsInv(g, StartListener(g, l));
      Start(l);
    }

    /** Bind and listen on a listener that was just created, or close it again. */
    method ListenerSetup(l: Listener, fi: ListenerAnswers) returns (ret: int, out: Listener?)
      requires Valid() && l !in objs && l.eq in g.eqs && l.fabric in g.fabrics && l.eq.fabric == l.fabric && !l.ready
      modifies this`g, this`objs, objs, l
      ensures Valid() && cm == old(cm) && objs == old(objs) + {l} && ret == Then(fi.bind, fi.listen)
      ensures g == ShimSpec.ListenerSetup(old(g), l, fi) && out == if ret == 0 || fi.close != 0 then l else null
    {
      hide World.Valid;
      InstallListener(l);
      ret := fi.bind;
      if ret == 0 { ret := fi.listen; }
      if ret != 0 {
        var closed := ListenerClose(l, fi.close);
        return ret, if closed != 0 then l else null;
      }
      Started(l);
      return 0, l;
    }

    /** `made` is the listener the provider created, even if the rollback freed it again. */
    method ListenerOpen(fabric: Fabric?, info: Info?, eq: Eq?, alloc: bool, fi: ListenerAnswers)
      returns (ret: int, out: Listener?, ghost made: Listener?)
      requires Valid() && LiveFabric(g, fabric) && LiveEq(g, eq)
      modifies this`g, this`objs, objs
      ensures Valid() && fresh(objs - old(objs)) && cm == old(cm)
      ensures var gate := ListenerGate(fabric, info, eq);
        && ret == Opened(gate, alloc, Then(fi.pep, Then(fi.bind, fi.listen)))
        && (made != null <==> gate == 0 && alloc && fi.pep == 0)
      ensures made == null ==> out == null && g == old(g) && objs == old(objs)
      ensures made != null ==>
        && fresh(made) && made.fabric == fabric && made.eq == eq && objs == old(objs) + {made}
        && g == ShimSpec.ListenerSetup(old(g), made, fi)
        && out == if ret == 0 || fi.close != 0 then made else null
    {
      hide World.Valid;
      made := null;
      if fabric == null || info == null || eq == null || eq.fabric != fabric { return -EINVAL, null, null; }
      if !alloc { return -ENOMEM, null, null; }
      if fi.pep != 0 { return fi.pep, null, null; }
      var l := new Listener(fabric, eq);
      ret, out := ListenerSetup(l, fi);
      made := l;
    }

    /** The endpoint joins its domain and event queue. */
    method JoinEndpoint(e: Endpoint)
      requires Linked(g) && e !in g.eps && e.eq in g.eqs && e.domain in g.domains && !e.ready && !e.closing
      modifies this`g, this`objs, e.eq`users, e.domain`children
      ensures Linked(g) && objs == old(objs) + {e} && cm == old(cm)
      ensures g == old(g).(eps := old(g).eps[e := EpRec(false, false)])
    {
      hide World.FlagsLinked, World.ListsLinked, World.OpsLinked;
      e.domain.children := e.domain.children + 1;
      e.eq.users := e.eq.users + 1;
      objs := objs + {e};
      g := g.(eps := g.eps[e := EpRec(false, false)]);
      EndpointJoined(e);
      ParentsMoved();
    }

    twostate lemma EndpointJoined(e: Endpoint)
      requires old(ParentsLinked(g)) && e !in old(g).eps && e.eq in g.eqs && e.domain in g.domains
      requires g == old(g).(eps := old(g).eps[e := EpRec(false, false)])
      requires e.eq.users == old(e.eq.users) + 1 && e.domain.children == old(e.domain.children) + 1
      requires unchanged(old(g).fabrics) && unchanged(old(g).domains - {e.domain}) && unchanged(old(g).eqs - {e.eq})
      ensures ParentsLinked(g)
    {
      assert g.eps.Keys == old(g).eps.Keys + {e};
      EndpointJoins(old(g).eps.Keys, e);
      forall f | f in g.fabrics
        ensures f.children == FabricKids(g, f)
      {
        assert old(f.children) == FabricKids(old(g), f);
      }
      forall d | d in g.domains
        ensures d.children == DomainKids(g, d)
      {
        assert old(d.children) == DomainKids(old(g), d);
      }
      forall q | q in g.eqs ensures q.users == EqUsers(g, q) { assert old(q.users) == EqUsers(old(g), q); }
    }

    /** The queue now belongs to `e`, for good. */
    method Attach(cq: Cq, e: Endpoint)
      requires Linked(g) && cq in g.stages && !cq.retired
      modifies this`g, cq`used, cq`attached
      ensures Linked(g) && objs == old(objs) && cm == old(cm) && g == old(g).(stages := old(g).stages[cq := InUse(e)])
    {
      cq.used := true;
      cq.attached := true;
      g := g.(stages := g.stages[cq := InUse(e)]);
      hide World.Linked;
      StageMoved(cq);
    }

    method Bind(e: Endpoint)
      requires Linked(g) && e !in g.eps && Openable(g, e) && !e.ready && !e.closing
      modifies this`g, this`objs, e.eq`users, e.domain`children, e.tx`used, e.tx`attached, e.rx`used, e.rx`attached
      ensures Linked(g) && objs == old(objs) + {e} && cm == old(cm) && g == AddEndpoint(old(g), e)
    {
      JoinEndpoint(e);
      Attach(e.tx, e);
      Attach(e.rx, e);
    }

    method InstallEndpoint(e: Endpoint)
      requires Valid() && e !in objs && Openable(g, e) && !e.ready && !e.closing
      modifies this`g, this`objs, objs
      ensures Valid() && objs == old(objs) + {e} && cm == old(cm) && g == AddEndpoint(old(g), e)
    {
      hide World.Linked, Closed, Staged, Listed, Borrowed, Logged;
      AddEndpointInv(g, e);
      OwnedGrows(g, AddEndpoint(g, e), objs, e);
      Bind(e);
    }

    method MarkReady(ep: Endpoint)
      requires Linked(g) && ep in g.eps
      modifies this`g, ep`ready
      ensures Linked(g) && objs == old(objs) && cm == old(cm) && g == SetReady(old(g), ep)
    {
      ep.ready := true;
      g := SetReady(g, ep);
      assert g.eps.Keys == old(g).eps.Keys;
      ParentsKept();
      OpsKept();
      ListsSame();
    }

    method Readied(ep: Endpoint)
      requires Valid() && ep in g.eps
      modifies this`g, objs
      ensures Valid() && objs == old(objs) && cm == old(cm) && g == SetReady(old(g), ep)
    {
      EpFlagInv(g, SetReady(g, ep), ep);
      MarkReady(ep);
    }

    /** After a failed setup the endpoint of a connection request stays; any other is closed again. */
    method Undo(e: Endpoint, request: bool, fi: int) returns (out: Endpoint?)
      requires Valid() && e in g.eps
      modifies this`g, this`cm, objs
      ensures Valid() && objs == old(objs) && g == if request then old(g) else CloseEp(old(g), e, fi).g
      ensures out == (if request || fi != 0 then e else null)
      ensures cm == if request then old(cm) else old(cm) + [EpClosed(e)]
    {
      if request { return e; }
      var closed := EndpointClose(e, fi);
      return if closed != 0 then e else null;
    }

    /** What becomes of an endpoint whose binds and enable returned `code`. */
    method Conclude(e: Endpoint, code: int, request: bool, fi: int) returns (out: Endpoint?)
      requires Valid() && e in g.eps
      modifies this`g, this`cm, objs
      ensures Valid() && objs == old(objs)
      ensures g == Concluded(old(g), e, code, request, fi)
      ensures out == if code == 0 || request || fi != 0 then e else null
      ensures cm == if code != 0 && !request then old(cm) + [EpClosed(e)] else old(cm)
    {
      if code != 0 {
        out := Undo(e, request, fi);
        return;
      }
      Readied(e);
      return e;
    }

    /** The endpoint the provider created, bound to its queues. */
    method Create(domain: Domain, eq: Eq, tx: Cq, rx: Cq, maxMsg: U64) returns (e: Endpoint)
      requires Valid() && domain in g.domains && eq in g.eqs && eq.fabric == domain.fabric
      requires tx in g.stages && rx in g.stages && tx != rx && tx.domain == domain && rx.domain == domain
      requires g.stages[tx].Unused? && g.stages[rx].Unused?
      modifies this`g, this`objs, objs
      ensures Valid() && fresh(e) && fresh(objs - old(objs)) && objs == old(objs) + {e} && cm == old(cm)
        && g == AddEndpoint(old(g), e)
      ensures e.domain == domain && e.eq == eq && e.tx == tx && e.rx == rx && e.maxMsg == maxMsg
    {
      hide World.Valid;
      e := new Endpoint(domain, eq, tx, rx, maxMsg);
      InstallEndpoint(e);
    }

    /** Create an endpoint, bind the event queue, then both completion queues, then enable. */
    method EndpointSetup(domain: Domain, eq: Eq, tx: Cq, rx: Cq, maxMsg: U64, request: bool, fi: EpAnswers)
      returns (ret: int, out: Endpoint?, ghost made: Endpoint)
      requires Valid() && domain in g.domains && eq in g.eqs && eq.fabric == domain.fabric
      requires tx in g.stages && rx in g.stages && tx != rx && tx.domain == domain && rx.domain == domain
      requires g.stages[tx].Unused? && g.stages[rx].Unused?
      modifies this`g, this`objs, this`cm, objs
      ensures Valid() && fresh(made) && fresh(objs - old(objs)) && objs == old(objs) + {made} && ret == SetupCode(fi)
      ensures made.domain == domain && made.eq == eq && made.tx == tx && made.rx == rx && made.maxMsg == maxMsg
      ensures g == ShimSpec.EndpointSetup(old(g), made, request, fi)
      ensures out == if EndpointReturned(request, fi) then made else null
      ensures cm == if ret != 0 && !request then old(cm) + [EpClosed(made)] else old(cm)
    {
      hide World.Valid;
      var e := Create(domain, eq, tx, rx, maxMsg);
      ret := SetupCode(fi);
      out := Conclude(e, ret, request, fi.close);
      made := e;
    }

    /** `made` is the endpoint the provider created, even if the rollback freed it again. */
    method EndpointOpen(domain: Domain?, info: Info?, eq: Eq?, tx: Cq?, rx: Cq?, alloc: bool, fi: EpAnswers)
      returns (ret: int, out: Endpoint?, ghost made: Endpoint?)
      requires Valid() && LiveDomain(g, domain) && LiveEq(g, eq) && LiveCq(g, tx) && LiveCq(g, rx)
      modifies this`g, this`objs, this`cm, objs
      ensures Valid() && fresh(objs - old(objs))
      ensures var gate := EndpointGate(old(g), domain, info, eq, tx, rx);
        && ret == Opened(gate, alloc, if fi.endpoint != 0 then fi.endpoint else SetupCode(fi))
        && (made != null <==> gate == 0 && alloc && fi.endpoint == 0)
      ensures made == null ==> out == null && g == old(g) && objs == old(objs) && cm == old(cm)
      ensures made != null ==>
        && fresh(made) && made.domain == domain && made.eq == eq && made.tx == tx && made.rx == rx
        && made.maxMsg == info.maxMsg && objs == old(objs) + {made}
        && g == ShimSpec.EndpointSetup(old(g), made, old(info.handle), fi)
        && out == (if EndpointReturned(old(info.handle), fi) then made else null)
        && cm == if ret != 0 && !old(info.handle) then old(cm) + [EpClosed(made)] else old(cm)
    {
      made := null;
      if domain == null || info == null || eq == null || tx == null || rx == null
         || tx == rx || tx.domain != domain || rx.domain != domain
         || eq.fabric != domain.fabric || tx.used || rx.used {
        return -EINVAL, null, null;
      }
      if info.mode & !(MODE_CONTEXT | MODE_LOCAL_MR) != 0 || info.txFlags != 0 || info.rxFlags != 0 {
        return -ENOSYS, null, null;
      }
      if !alloc { return -ENOMEM, null, null; }
      if fi.endpoint != 0 { return fi.endpoint, null, null; }
      ret, out, made := EndpointSetup(domain, eq, tx, rx, info.maxMsg, info.handle, fi);
    }

    // ------------------------------------------------- connection management

    method Connect(ep: Endpoint?, info: Info?, fi: int) returns (ret: int)
      requires Valid() && LiveEp(g, ep)
      ensures ret == if ep == null || !g.eps[ep].ready || g.eps[ep].closing || info == null || !info.hasDest
                     then -EINVAL else fi
    {
      if ep == null || !ep.ready || ep.closing || info == null || !info.hasDest { return -EINVAL; }
      return fi;
    }

    method Accept(ep: Endpoint?, fi: int) returns (ret: int)
      requires Valid() && LiveEp(g, ep)
      modifies this`cm
      ensures Valid()
      ensures ret == if ep == null || !g.eps[ep].ready || g.eps[ep].closing then -EINVAL else fi
      ensures cm == if ret == 0 then old(cm) + [Accepted(ep)] else old(cm)
    {
      hide World.Valid;
      Consistent();
      if ep != null { Flagged(ep); }
      if ep == null || !ep.ready || ep.closing { return -EINVAL; }
      if fi == 0 { cm := cm + [Accepted(ep)]; }
      return fi;
    }

    /** The provider consumes the request handle even when its call reports failure. */
    method Reject(listener: Listener?, info: Info?, fi: int) returns (ret: int)
      requires Valid() && LiveListener(g, listener) && info !in objs
      modifies this`cm, info
      ensures Valid() && info !in objs
      ensures var asked := listener != null && g.listeners[listener] && info != null && old(info.handle);
        && ret == (if asked then fi else -EINVAL)
        && cm == (if asked then old(cm) + [Rejected(info)] else old(cm))
        && (info != null ==> info.handle == (old(info.handle) && !asked))
    {
      if listener == null || !listener.ready || info == null || !info.handle { return -EINVAL; }
      Refuse(info);
      return fi;
    }

    method Refuse(info: Info)
      requires Valid() && info !in objs
      modifies this`cm, info`handle
      ensures Valid() && cm == old(cm) + [Rejected(info)] && !info.handle
    {
      cm := cm + [Rejected(info)];
      info.Consume();
      Untouched();
    }
  }
}
