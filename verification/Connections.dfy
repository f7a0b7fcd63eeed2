/** Socket ownership of connections: which handles a connection retains, and which are closed. */
module Connections {
  type Handle = nat

  /** The state behind one `ConnectionLifecycle` lock. */
  datatype Conn = Conn(terminal: bool, sockets: seq<Handle>)
  {
    function TrackOrReject(sock: Handle): (Conn, bool) {
      if terminal then (this, false) else (this.(sockets := sockets + [sock]), true)
    }

    function TransferTo(old_: Handle, new_: Handle): (Conn, bool) {
      if terminal then (this, false)
      else
        var kept := if old_ in sockets then sockets else sockets + [old_];
        (this.(sockets := kept + [new_]), true)
    }

    function BeginTermination(): (Conn, seq<Handle>) {
      (this.(terminal := true), sockets)
    }
  }

  const NEW_CONN := Conn(false, [])

  /** All connections, the handles ever handed over, the rejected handles whose closing is still
      pending in the thread that was refused, and the closed handles. */
  datatype Net = Net(conns: map<string, Conn>, given: set<Handle>, pending: set<Handle>, closed: set<Handle>)
  {
    function Get(c: string): Conn {
      if c in conns then conns[c] else NEW_CONN
    }

    predicate Terminal(c: string) {
      Get(c).terminal
    }
  }
}
