/** The counting message allocator. Messages are known by their addresses. */
module Allocation {
  import opened Words

  type Msg = nat

  /** `live` logs which addresses are allocated; the program itself keeps the count. */
  datatype Alloc = Alloc(count: nat, live: set<Msg>) {
    function Allocate(m: Msg): Alloc {
      Alloc(Wrap(count + 1), live + {m})
    }

    function Free(m: Msg): Alloc {
      Alloc(Wrap(count - 1), live - {m})
    }

    function FreeAll(ms: seq<Msg>): Alloc
      decreases |ms|
    {
      if |ms| == 0 then this else Free(ms[0]).FreeAll(ms[1..])
    }
  }

  const NO_MESSAGES := Alloc(0, {})

  class Allocator {
    var allocMsgCount: nat
    ghost var live: set<Msg>

    ghost function View(): Alloc
      reads this
    {
      Alloc(allocMsgCount, live)
    }

    constructor ()
      ensures View() == NO_MESSAGES
    {
      allocMsgCount, live := 0, {};
    }

    /** `addr` is the address operator new picked. */
    method Allocate(addr: Msg) returns (msg: Msg)
      requires addr !in live
      modifies this
      ensures msg == addr && View() == old(View()).Allocate(addr)
    {
      msg := addr;
      allocMsgCount := Wrap(allocMsgCount + 1);
      live := live + {msg};
    }

    method Deallocate(msg: Msg)
      modifies this
      ensures View() == old(View()).Free(msg)
    {
      allocMsgCount := Wrap(allocMsgCount - 1);
      live := live - {msg};
    }
  }
}
