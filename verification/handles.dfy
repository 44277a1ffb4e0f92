/** The shim's handle structures, one class per C struct.

    A field the shim assigns once, before the handle is returned, is a `const`;
    a field it updates later is a `var`.  A freed handle is an object that no
    live set of the resource graph contains any more. */
module Handles {

  /** A value of the C types `size_t` and `uintptr_t`. */
  type U64 = x: int | 0 <= x < 0x1_0000_0000_0000_0000

  const EIO := 5
  const EAGAIN := 11
  const ENOMEM := 12
  const EACCES := 13
  const EBUSY := 16
  const EINVAL := 22
  const ENOSYS := 38
  const EOPBADSTATE := 258
  const EAVAIL := 259

  const ACCESS_SEND: bv32 := 1
  const ACCESS_RECV: bv32 := 2

  /** `SHIM_COMPLETION_*`; `Unset` is the zero of a fresh operation or record. */
  datatype Direction = Unset | Send | Recv

  /** `shim_completion_t` without its text. */
  datatype Completion = Completion(opId: nat, flags: Direction, len: U64, err: int, provErr: int)

  const Blank := Completion(0, Unset, 0, 0, 0)

  /** `FI_CONTEXT` and `FI_LOCAL_MR`, the mode bits the shim can meet. */
  const MODE_CONTEXT: bv64 := 0x0800_0000_0000_0000
  const MODE_LOCAL_MR: bv64 := 0x0080_0000_0000_0000

  /** A query result or a connection request; `handle` is the provider's request handle. */
  class Info {
    var handle: bool
    const hasDest: bool
    const mode: bv64
    const txFlags: bv64
    const rxFlags: bv64
    const maxMsg: U64

    /** No mode bit beyond the two, and every operation is reported without asking. */
    const supported: bool := mode & !(MODE_CONTEXT | MODE_LOCAL_MR) == 0 && txFlags == 0 && rxFlags == 0

    constructor (handle: bool, hasDest: bool, mode: bv64, txFlags: bv64, rxFlags: bv64, maxMsg: U64)
      ensures this.handle == handle && this.hasDest == hasDest && this.maxMsg == maxMsg
      ensures this.mode == mode && this.txFlags == txFlags && this.rxFlags == rxFlags
    {
      this.handle, this.hasDest, this.maxMsg := handle, hasDest, maxMsg;
      this.mode, this.txFlags, this.rxFlags := mode, txFlags, rxFlags;
    }

    /** The provider freed the request. */
    method Consume()
      modifies this`handle
      ensures !handle
    {
      handle := false;
    }
  }

  class Fabric {
    var children: nat

    constructor ()
      ensures children == 0
    {
      children := 0;
    }
  }

  class Domain {
    const fabric: Fabric
    var children: nat

    constructor (fabric: Fabric)
      ensures this.fabric == fabric && children == 0
    {
      this.fabric, children := fabric, 0;
    }
  }

  class Eq {
    const fabric: Fabric
    var users: nat

    constructor (fabric: Fabric)
      ensures this.fabric == fabric && users == 0
    {
      this.fabric, users := fabric, 0;
    }
  }

  class Cq {
    const domain: Domain
    const capacity: U64
    var pending: Op?
    var count: nat
    var used: bool
    var attached: bool
    var retired: bool

    constructor (domain: Domain, capacity: U64)
      ensures this.domain == domain && this.capacity == capacity
      ensures pending == null && count == 0 && !used && !attached && !retired
    {
      this.domain, this.capacity := domain, capacity;
      pending, count, used, attached, retired := null, 0, false, false, false;
    }

    /** Put `op` in front of the list. */
    method Push(op: Op)
      modifies this`pending, this`count, op`next
      ensures pending == op && count == old(count) + 1 && op.next == old(pending)
    {
      op.next := pending;
      pending := op;
      count := count + 1;
    }

    /** Drop the front; `next` takes its place. */
    method Pop(next: Op?)
      requires count > 0
      modifies this`pending, this`count
      ensures pending == next && count == old(count) - 1
    {
      pending := next;
      count := count - 1;
    }

    /** Drop the operation behind `prev`; `next` takes its place. */
    method Cut(prev: Op, next: Op?)
      requires count > 0
      modifies this`count, prev`next
      ensures prev.next == next && count == old(count) - 1
    {
      prev.next := next;
      count := count - 1;
    }

    method Retire()
      modifies this`attached, this`retired
      ensures !attached && retired
    {
      attached := false;
      retired := true;
    }
  }

  class Listener {
    const fabric: Fabric
    const eq: Eq
    var ready: bool

    constructor (fabric: Fabric, eq: Eq)
      ensures this.fabric == fabric && this.eq == eq && !ready
    {
      this.fabric, this.eq, ready := fabric, eq, false;
    }
  }

  class Endpoint {
    const domain: Domain
    const eq: Eq
    const tx: Cq
    const rx: Cq
    const maxMsg: U64
    var ready: bool
    var closing: bool

    constructor (domain: Domain, eq: Eq, tx: Cq, rx: Cq, maxMsg: U64)
      ensures this.domain == domain && this.eq == eq && this.tx == tx && this.rx == rx
      ensures this.maxMsg == maxMsg && !ready && !closing
    {
      this.domain, this.eq, this.tx, this.rx, this.maxMsg := domain, eq, tx, rx, maxMsg;
      ready, closing := false, false;
    }
  }

  class Mr {
    const domain: Domain
    const buffer: U64
    const capacity: U64
    const access: bv32
    var pending: nat

    constructor (domain: Domain, buffer: U64, capacity: U64, access: bv32)
      ensures this.domain == domain && this.buffer == buffer
      ensures this.capacity == capacity && this.access == access && pending == 0
    {
      this.domain, this.buffer, this.capacity, this.access := domain, buffer, capacity, access;
      pending := 0;
    }
  }

  class Op {
    const id: nat
    var direction: Direction
    var len: U64
    var cq: Cq?
    var mr: Mr?
    var next: Op?

    constructor (id: nat)
      ensures this.id == id && direction == Unset && len == 0
      ensures cq == null && mr == null && next == null
    {
      this.id, direction, len, cq, mr, next := id, Unset, 0, null, null, null;
    }

    /** The fields a successful submission sets, `next` apart. */
    method Fly(direction: Direction, len: U64, mr: Mr, cq: Cq)
      modifies this
      ensures this.direction == direction && this.len == len && this.mr == mr && this.cq == cq
      ensures next == old(next)
    {
      this.direction, this.len, this.mr, this.cq := direction, len, mr, cq;
    }
  }
}
