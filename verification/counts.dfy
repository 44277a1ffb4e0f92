/** How the number of dependants changes when one handle joins or leaves. */
module Counts {
  import opened Handles
  import opened ResourceGraph

  lemma DomainJoins(ds: set<Domain>, d: Domain)
    requires d !in ds
    ensures forall f :: |DomainsOf(ds + {d}, f)| == |DomainsOf(ds, f)| + if d.fabric == f then 1 else 0
  {
    forall f
      ensures |DomainsOf(ds + {d}, f)| == |DomainsOf(ds, f)| + if d.fabric == f then 1 else 0
    {
      assert DomainsOf(ds + {d}, f) == DomainsOf(ds, f) + if d.fabric == f then {d} else {};
    }
  }

  lemma EqJoins(qs: set<Eq>, q: Eq)
    requires q !in qs
    ensures forall f :: |EqsOf(qs + {q}, f)| == |EqsOf(qs, f)| + if q.fabric == f then 1 else 0
  {
    forall f
      ensures |EqsOf(qs + {q}, f)| == |EqsOf(qs, f)| + if q.fabric == f then 1 else 0
    {
      assert EqsOf(qs + {q}, f) == EqsOf(qs, f) + if q.fabric == f then {q} else {};
    }
  }

  lemma ListenersOfJoin(ls: set<Listener>, l: Listener)
    requires l !in ls
    ensures forall x :: |ListenersOf(ls + {l}, x)| == |ListenersOf(ls, x)| + if l.fabric == x then 1 else 0
  {
    forall x
      ensures |ListenersOf(ls + {l}, x)| == |ListenersOf(ls, x)| + if l.fabric == x then 1 else 0
    {
      assert ListenersOf(ls + {l}, x) == ListenersOf(ls, x) + if l.fabric == x then {l} else {};
    }
  }

  lemma ListenersOnJoin(ls: set<Listener>, l: Listener)
    requires l !in ls
    ensures forall x :: |ListenersOn(ls + {l}, x)| == |ListenersOn(ls, x)| + if l.eq == x then 1 else 0
  {
    forall x
      ensures |ListenersOn(ls + {l}, x)| == |ListenersOn(ls, x)| + if l.eq == x then 1 else 0
    {
      assert ListenersOn(ls + {l}, x) == ListenersOn(ls, x) + if l.eq == x then {l} else {};
    }
  }

  lemma ListenerJoins(ls: set<Listener>, l: Listener)
    requires l !in ls
    ensures forall x :: |ListenersOf(ls + {l}, x)| == |ListenersOf(ls, x)| + if l.fabric == x then 1 else 0
    ensures forall x :: |ListenersOn(ls + {l}, x)| == |ListenersOn(ls, x)| + if l.eq == x then 1 else 0
  {
    ListenersOfJoin(ls, l);
    ListenersOnJoin(ls, l);
  }

  lemma CqJoins(cs: set<Cq>, c: Cq)
    requires c !in cs
    ensures forall d :: |CqsOf(cs + {c}, d)| == |CqsOf(cs, d)| + if c.domain == d then 1 else 0
  {
    forall d
      ensures |CqsOf(cs + {c}, d)| == |CqsOf(cs, d)| + if c.domain == d then 1 else 0
    {
      assert CqsOf(cs + {c}, d) == CqsOf(cs, d) + if c.domain == d then {c} else {};
    }
  }

  lemma EpsOfJoin(es: set<Endpoint>, e: Endpoint)
    requires e !in es
    ensures forall x :: |EpsOf(es + {e}, x)| == |EpsOf(es, x)| + if e.domain == x then 1 else 0
  {
    forall x
      ensures |EpsOf(es + {e}, x)| == |EpsOf(es, x)| + if e.domain == x then 1 else 0
    {
      assert EpsOf(es + {e}, x) == EpsOf(es, x) + if e.domain == x then {e} else {};
    }
  }

  lemma EpsOnJoin(es: set<Endpoint>, e: Endpoint)
    requires e !in es
    ensures forall x :: |EpsOn(es + {e}, x)| == |EpsOn(es, x)| + if e.eq == x then 1 else 0
  {
    forall x
      ensures |EpsOn(es + {e}, x)| == |EpsOn(es, x)| + if e.eq == x then 1 else 0
    {
      assert EpsOn(es + {e}, x) == EpsOn(es, x) + if e.eq == x then {e} else {};
    }
  }

  lemma EndpointJoins(es: set<Endpoint>, e: Endpoint)
    requires e !in es
    ensures forall x :: |EpsOf(es + {e}, x)| == |EpsOf(es, x)| + if e.domain == x then 1 else 0
    ensures forall x :: |EpsOn(es + {e}, x)| == |EpsOn(es, x)| + if e.eq == x then 1 else 0
  {
    EpsOfJoin(es, e);
    EpsOnJoin(es, e);
  }

  lemma MrJoins(ms: set<Mr>, m: Mr)
    requires m !in ms
    ensures forall d :: |MrsOf(ms + {m}, d)| == |MrsOf(ms, d)| + if m.domain == d then 1 else 0
  {
    forall d
      ensures |MrsOf(ms + {m}, d)| == |MrsOf(ms, d)| + if m.domain == d then 1 else 0
    {
      assert MrsOf(ms + {m}, d) == MrsOf(ms, d) + if m.domain == d then {m} else {};
    }
  }

  /** The region one record borrows: none, or exactly one. */
  function Share(r: OpRec, m: Mr): nat { if Borrows(r, m) then 1 else 0 }

  lemma OpChanges(ops: map<Op, OpRec>, o: Op, r: OpRec)
    requires o in ops
    ensures forall m :: |BorrowersOf(ops[o := r], m)| + Share(ops[o], m) == |BorrowersOf(ops, m)| + Share(r, m)
  {
    forall m
      ensures |BorrowersOf(ops[o := r], m)| + Share(ops[o], m) == |BorrowersOf(ops, m)| + Share(r, m)
    {
      var rest := BorrowersOf(ops, m) - {o};
      assert BorrowersOf(ops, m) == rest + if Borrows(ops[o], m) then {o} else {};
      assert BorrowersOf(ops[o := r], m) == rest + if Borrows(r, m) then {o} else {};
    }
  }

  lemma IdleOpJoins(ops: map<Op, OpRec>, o: Op, r: OpRec)
    requires o !in ops && r.flight.Idle?
    ensures forall m :: BorrowersOf(ops[o := r], m) == BorrowersOf(ops, m)
  {
  }

  lemma IdleOpLeaves(ops: map<Op, OpRec>, o: Op)
    requires o in ops && ops[o].flight.Idle?
    ensures forall m :: BorrowersOf(ops - {o}, m) == BorrowersOf(ops, m)
  {
  }
}
