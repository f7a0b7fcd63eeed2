/** The objects of `pep/lifecycle.py`, whose methods update their fields in place.

    `RunContext` is proved against `RunModel.Run`, `EffectPermit` and `EffectGate` against the run
    and the audit sink they write to, `ConnectionLifecycle` against `Connections.Conn`. */
module Lifecycle {
  import opened Records
  import opened RunModel
  import opened Connections
  import opened Protocol

  // ---------------------------------------------------------------- the sink as the others see it

  /** The append side of `AuditLog`: the durable records and the two latches.  How an append goes is
      the operating system's choice, handed in as `io`. */
  class AuditSink {
    var log: seq<Rec>
    var healthy: bool
    var isSealed: bool

    ghost function Value(): Sink reads this { Sink(log, healthy, isSealed) }

    constructor (boot: seq<Rec>)
      ensures Value() == Sink(boot, true, false)
    {
      log, healthy, isSealed := boot, true, false;
    }

    method Write(r: Rec, io: Io) returns (ok: bool)
      modifies this
      ensures Value() == old(Value()).Write(r, io)
      ensures ok <==> old(Value()).Accepts(io)
      ensures log == if ok then old(log) + [r] else old(log)
      ensures !ok ==> (healthy <==> old(healthy) && (old(isSealed) || io == OpenFails))
    {
      if isSealed || !healthy { return false; }
      match io
      case Durable =>
        log := log + [r];
        return true;
      case OpenFails =>
        return false;
      case WriteFails =>
        healthy := false;
        return false;
    }

    method SealWith(r: Rec, io: Io) returns (ok: bool)
      modifies this
      ensures r.RunClosed? && !old(isSealed) ==> Value() == old(Value()).SealWith(r, io)
      ensures !r.RunClosed? || old(isSealed) ==> !ok && Value() == old(Value())
      ensures ok <==> r.RunClosed? && old(Value()).Accepts(io)
      ensures ok ==> isSealed && log == old(log) + [r]
    {
      if !r.RunClosed? || isSealed { return false; }
      ok := Write(r, io);
      if ok { isSealed := true; }
    }
  }

  // ---------------------------------------------------------------- RunContext

  class RunContext {
    var epoch: nat
    var cancelled: bool
    var sequence: nat
    var inflight: map<string, Permit>
    var authorizations: map<string, Authorization>
    var permitted: set<string>
    var cancellation: Option<Cancellation>
    ghost var hist: seq<Event>
    ghost var pos: map<Event, nat>

    ghost function Value(): Run reads this {
      Run(epoch, cancelled, sequence, inflight, authorizations, permitted, cancellation, hist, pos)
    }

    ghost predicate Valid() reads this { RunInv(Value()) }

    constructor ()
      ensures Valid() && Value() == FRESH
    {
      epoch, cancelled, sequence := 0, false, 0;
      inflight, authorizations, permitted, cancellation := map[], map[], {}, None;
      hist, pos := [], map[];
      new;
      FreshInv();
    }

    method IsLive(e: nat) returns (live: bool)
      requires Valid()
      ensures live <==> !cancelled && e == 0
    {
      live := !cancelled && e == epoch;
    }

    method Authorize(aid: string, e: nat) returns (seqNo: Option<nat>)
      requires Valid()
      modifies this
      ensures Valid() && Value() == old(Value()).Authorize(aid, e).0
      ensures seqNo == old(Value()).Authorize(aid, e).1
      ensures seqNo.Some? <==> !old(cancelled) && e == 0 && aid !in old(authorizations)
      ensures seqNo.Some? ==> seqNo.value == old(sequence) + 1
    {
      AuthorizeInv(Value(), aid, e);
      if cancelled || e != epoch || aid in authorizations { return None; }
      sequence := sequence + 1;
      authorizations := authorizations[aid := Authorization(e, sequence)];
      hist, pos := hist + [AuthEv(aid)], pos[AuthEv(aid) := sequence];
      return Some(sequence);
    }

    method IssuePermit(aid: string, e: nat, conn: ConnectionLifecycle) returns (seqNo: Option<nat>)
      requires Valid()
      modifies this
      ensures Valid() && Value() == old(Value()).IssuePermit(aid, e, conn.terminal).0
      ensures seqNo == old(Value()).IssuePermit(aid, e, conn.terminal).1
      ensures seqNo.Some? <==> !old(cancelled) && e == 0 && !conn.terminal && aid in old(authorizations) && aid !in old(permitted)
      ensures seqNo.Some? ==> inflight == old(inflight)[aid := Permit(0, seqNo.value)]
    {
      IssuePermitInv(Value(), aid, e, conn.terminal);
      PermitGrantedIff(Value(), aid, e, conn.terminal);
      if cancelled || e != epoch { return None; }
      var terminal := conn.IsTerminal();
      if terminal { return None; }
      if aid !in authorizations || authorizations[aid].epoch != e || aid in permitted { return None; }
      sequence := sequence + 1;
      permitted := permitted + {aid};
      inflight := inflight[aid := Permit(e, sequence)];
      hist, pos := hist + [PermitEv(aid)], pos[PermitEv(aid) := sequence];
      return Some(sequence);
    }

    method DoRelease(aid: string) returns (transition: Option<Release>)
      requires Valid()
      modifies this
      ensures Valid() && Value() == old(Value()).DoRelease(aid).0
      ensures transition == old(Value()).DoRelease(aid).1
      ensures transition.Some? <==> aid in old(inflight)
      ensures inflight == old(inflight) - {aid}
    {
      ReleaseInv(Value(), aid);
      if aid !in inflight {
        assert inflight - {aid} == inflight;
        return None;
      }
      var permit := inflight[aid];
      inflight := inflight - {aid};
      sequence := sequence + 1;
      hist, pos := hist + [ReleaseEv(aid)], pos[ReleaseEv(aid) := sequence];
      return Some(Release(permit.epoch, permit.seqNo, sequence));
    }

    method Cancel() returns (transition: Cancellation, newly: bool)
      requires Valid()
      modifies this
      ensures Valid() && cancelled && Value() == old(Value()).Cancel().0
      ensures cancellation == Some(transition) && (newly <==> !old(cancelled))
      ensures newly ==> transition == Cancellation(0, 1, old(sequence) + 1, |old(inflight)|)
      ensures !newly ==> Value() == old(Value())
    {
      CancelInv(Value());
      if cancellation.Some? { return cancellation.value, false; }
      var cancelledEpoch := epoch;
      cancelled := true;
      epoch := epoch + 1;
      sequence := sequence + 1;
      transition := Cancellation(cancelledEpoch, epoch, sequence, |inflight|);
      cancellation := Some(transition);
      hist, pos := hist + [CancelEv], pos[CancelEv := sequence];
      newly := true;
    }

    method InflightCount() returns (n: nat)
      requires Valid()
      ensures n == |inflight|
      ensures n == 0 <==> forall a: string :: Num(Value(), PermitEv(a)) > 0 ==> Num(Value(), ReleaseEv(a)) > 0
    {
      n := |inflight|;
      forall a: string
        ensures a in inflight <==> Num(Value(), PermitEv(a)) > 0 && Num(Value(), ReleaseEv(a)) == 0
      {
        assert AttemptInv(Value(), a);
      }
      if n > 0 {
        var a :| a in inflight;
      }
    }
  }

  // ---------------------------------------------------------------- ConnectionLifecycle

  /** The operating system's side of the sockets: which handles are closed. */
  class Handles {
    var closed: set<Handle>

    constructor () ensures closed == {} { closed := {}; }

    /** `_shutdown_close`: whether shutdown found the handle live is up to the peer, but a closed
        handle is never live. */
    method ShutdownClose(h: Handle, live: bool) returns (torn: bool)
      modifies this
      ensures closed == old(closed) + {h}
      ensures torn <==> live && h !in old(closed)
    {
      torn := live && h !in closed;
      closed := closed + {h};
    }
  }

  /** The handles that a pass over `socks` finds live: those that can be, at their first visit. */
  predicate SomeLive(socks: seq<Handle>, closed: set<Handle>, live: set<Handle>) {
    exists h | h in socks :: h in live && h !in closed
  }

  function Elems(socks: seq<Handle>): set<Handle> { set h | h in socks }

  class ConnectionLifecycle {
    var terminal: bool
    var sockets: seq<Handle>
    const connId: string

    ghost function Value(): Conn reads this { Conn(terminal, sockets) }

    constructor (id: string)
      ensures Value() == NEW_CONN && connId == id
    {
      connId := id;
      terminal, sockets := false, [];
    }

    method IsTerminal() returns (t: bool)
      ensures t == terminal
    {
      t := terminal;
    }

    /** The handle is retained, or closed here because the connection is terminal. */
    method TrackOrReject(sock: Handle, os: Handles, live: bool) returns (ok: bool)
      modifies this, os
      ensures (Value(), ok) == old(Value()).TrackOrReject(sock)
      ensures ok <==> !old(terminal)
      ensures sock in sockets || sock in os.closed
      ensures os.closed == if ok then old(os.closed) else old(os.closed) + {sock}
    {
      if !terminal {
        sockets := sockets + [sock];
        return true;
      }
      var _ := os.ShutdownClose(sock, live);
      return false;
    }

    /** Both handles are retained, or the new one is closed here. */
    method Transfer(old_: Handle, new_: Handle, os: Handles, live: bool) returns (ok: bool)
      modifies this, os
      ensures (Value(), ok) == old(Value()).TransferTo(old_, new_)
      ensures ok ==> old_ in sockets && new_ in sockets && forall h | h in old(sockets) :: h in sockets
      ensures !ok ==> old(terminal) && new_ in os.closed && sockets == old(sockets)
      ensures os.closed == if ok then old(os.closed) else old(os.closed) + {new_}
    {
      if !terminal {
        if old_ !in sockets { sockets := sockets + [old_]; }
        sockets := sockets + [new_];
        return true;
      }
      var _ := os.ShutdownClose(new_, live);
      return false;
    }

    method BeginTermination() returns (socks: seq<Handle>)
      modifies this
      ensures terminal && sockets == old(sockets) && socks == sockets
    {
      terminal := true;
      socks := sockets;
    }

    /** Shuts every handle of the list down; torn if one of them was found live. */
    static method ShutdownRetained(socks: seq<Handle>, os: Handles, live: set<Handle>) returns (torn: bool)
      modifies os
      ensures os.closed == old(os.closed) + Elems(socks)
      ensures torn <==> SomeLive(socks, old(os.closed), live)
    {
      torn := false;
      for i := 0 to |socks|
        invariant os.closed == old(os.closed) + Elems(socks[..i])
        invariant torn <==> SomeLive(socks[..i], old(os.closed), live)
      {
        var found := os.ShutdownClose(socks[i], socks[i] in live);
        assert socks[..i + 1] == socks[..i] + [socks[i]];
        if found { torn := true; }
      }
      assert socks[..|socks|] == socks;
    }

    method Terminate(os: Handles, live: set<Handle>) returns (torn: bool)
      modifies this, os
      ensures terminal && sockets == old(sockets)
      ensures forall h | h in sockets :: h in os.closed
      ensures os.closed == old(os.closed) + Elems(sockets)
      ensures torn <==> SomeLive(sockets, old(os.closed), live)
    {
      var socks := BeginTermination();
      torn := ShutdownRetained(socks, os, live);
    }
  }
}
