// The GUI's end of the control protocol (internal/core/client.go): many
// goroutines share one connection, each request waiting on a channel of its own.
// A step of the machine is one region held under the client's lock, or one
// channel operation.

module ControlShared {
  import opened Wrappers

  /** Request ids are 64-bit and wrap. */
  const ID_SPACE := 0x1_0000_0000_0000_0000

  /** What the client's lock guards. A connection is a number; W is a waiter's channel. */
  datatype Shared<W> = Shared(conn: Option<nat>, encoder: Option<nat>, nextId: nat, pending: map<nat, W>)

  function NextId<W>(s: Shared<W>): nat { (s.nextId + 1) % ID_SPACE }

  function Registered<W>(s: Shared<W>, waiter: W): Shared<W> {
    s.(nextId := NextId(s), pending := s.pending[NextId(s) := waiter])
  }

  function Forgotten<W>(s: Shared<W>, id: nat): Shared<W> {
    s.(pending := map k | k in s.pending && k != id :: s.pending[k])
  }

  function Dropped<W>(s: Shared<W>): Shared<W> {
    Shared(None, None, s.nextId, map[])
  }

  function Adopted<W>(s: Shared<W>, conn: nat): Shared<W> {
    s.(conn := Some(conn), encoder := Some(conn))
  }

  datatype Reply = Reply(id: nat, body: string)

  /** A response channel with room for one reply. */
  class Waiter {
    var buffer: Option<Reply>
    var closed: bool

    constructor ()
      ensures buffer.None? && !closed
    {
      buffer, closed := None, false;
    }
  }

  /** The lock-held regions of the client, one method each. */
  class Client {
    var conn: Option<nat>
    var encoder: Option<nat>
    var nextId: nat
    var pending: map<nat, Waiter>

    function View(): Shared<Waiter>
      reads this
    {
      Shared(conn, encoder, nextId, pending)
    }

    constructor ()
      ensures View() == Shared(None, None, 0, map[])
    {
      conn, encoder, nextId, pending := None, None, 0, map[];
    }

    /** The first region of request: refused when nothing is connected. */
    method Register() returns (call: Option<(nat, Waiter)>)
      modifies this
      ensures call.None? <==> old(encoder).None?
      ensures call.None? ==> View() == old(View())
      ensures call.Some? ==>
        var (id, waiter) := call.value;
        && fresh(waiter) && waiter.buffer.None? && !waiter.closed
        && id == NextId(old(View())) && View() == Registered(old(View()), waiter)
    {
      if encoder.None? { return None; }
      nextId := (nextId + 1) % ID_SPACE;
      var waiter := new Waiter();
      pending := pending[nextId := waiter];
      call := Some((nextId, waiter));
    }

    /** The region of request that gives up: after a failed send, and after the timeout. */
    method Forget(id: nat)
      modifies this`pending
      ensures View() == Forgotten(old(View()), id)
    {
      pending := map k | k in pending && k != id :: pending[k];
    }

    /** readLoop's region: whoever waits for the reply, taken off the list. */
    method Take(id: nat) returns (waiter: Option<Waiter>)
      modifies this`pending
      ensures View() == Forgotten(old(View()), id)
      ensures waiter == if id in old(pending) then Some(old(pending)[id]) else None
    {
      waiter := if id in pending then Some(pending[id]) else None;
      Forget(id);
    }

    /** disconnect's region: the connection and everyone waiting, taken at once. */
    method TakeAll() returns (was: Option<nat>, waiters: map<nat, Waiter>)
      modifies this
      ensures View() == Dropped(old(View())) && was == old(conn) && waiters == old(pending)
    {
      was, waiters := conn, pending;
      conn, encoder, pending := None, None, map[];
    }

    /** connect's region. */
    method Adopt(dialed: nat)
      modifies this`conn, this`encoder
      ensures View() == Adopted(old(View()), dialed)
    {
      conn, encoder := Some(dialed), Some(dialed);
    }

    /** readLoop's last region: whether its connection is still the client's. */
    method StillCurrent(mine: nat) returns (still: bool)
      ensures still <==> View().conn == Some(mine)
    {
      still := conn == Some(mine);
    }
  }
}
