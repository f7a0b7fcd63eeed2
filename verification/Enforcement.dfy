/** Socket ownership and the order of enforcement and evidence, over every run. */
module Enforcement {
  import opened Records
  import opened Connections
  import opened Protocol
  import opened Invariants

  // ---------------------------------------------------------------- what the sockets keep

  /** Every handle ever handed over is retained by a connection, closed, or about to be closed by
      the thread that was refused. */
  ghost predicate Accounted(net: Net) {
    && (forall x | x in net.given :: x in net.closed || x in net.pending || Retained(net, x))
    && (forall x | x in net.closed || x in net.pending || Retained(net, x) :: x in net.given)
  }

  ghost predicate Retained(net: Net, x: Handle) {
    exists c | c in net.conns :: x in net.conns[c].sockets
  }

  /** A terminal connection whose retained handles are all closed, but for those in `left`. */
  predicate ShutBut(net: Net, c: string, left: seq<Handle>) {
    && net.Terminal(c)
    && (forall x | x in net.Get(c).sockets :: x in net.closed || x in left)
    && (forall x | x in left :: x in net.Get(c).sockets)
  }

  /** What no step takes back: a terminal connection is frozen, a closed handle stays closed. */
  ghost predicate Grows(net: Net, w: Net) {
    && (forall c: string | net.Terminal(c) :: w.Get(c) == net.Get(c))
    && net.closed <= w.closed && net.given <= w.given
  }

  ghost predicate ClosersInv(s: State) {
    forall a | a in s.hs && s.hs[a].pc in {Closing, Removed} ::
      && ShutBut(s.net, s.hs[a].req.conn, s.hs[a].toShut)
      && (s.hs[a].pc == Removed ==> s.hs[a].toShut == [])
  }

  // ---------------------------------------------------------------- what the canceller keeps

  predicate FoundLive(found: set<(nat, nat)>, i: nat) {
    exists p | p in found :: p.0 == i
  }

  /** The victims, in snapshot order, of whom a handle was found live. */
  function TornOf(victims: seq<string>, found: set<(nat, nat)>, n: nat): seq<string>
    requires n <= |victims|
  {
    if n == 0 then []
    else TornOf(victims, found, n - 1) + if FoundLive(found, n - 1) then [victims[n - 1]] else []
  }

  predicate Started(pc: CPc) { !Before(pc) && pc != CMarking }

  predicate VictimMarked(net: Net, c: Canceller, i: nat)
    requires i < |c.retained| <= |c.victims|
  {
    net.Terminal(c.victims[i]) && net.Get(c.victims[i]).sockets == c.retained[i]
  }

  predicate VictimShut(net: Net, c: Canceller, i: nat)
    requires i < |c.retained|
  {
    forall j | 0 <= j < |c.retained[i]| && (i < c.done || (i == c.done && j < c.at)) ::
      c.retained[i][j] in net.closed
  }

  /** Positions in `found` lie behind the place where shutting down stands. */
  predicate FoundBehind(c: Canceller) {
    forall p | p in c.found :: p.0 < |c.retained| && p.1 < |c.retained[p.0]| &&
      (p.0 < c.done || (p.0 == c.done && p.1 < c.at))
  }

  predicate VictimsInv(net: Net, c: Canceller) {
    && Distinct(c.victims) && |c.retained| <= |c.victims| && c.done <= |c.retained|
    && (forall i: nat | i < |c.retained| :: VictimMarked(net, c, i) && VictimShut(net, c, i))
    && c.torn == TornOf(c.victims, c.found, c.done) && FoundBehind(c)
    && (c.sawLive <==> FoundLive(c.found, c.done))
    && (Before(c.pc) ==> c.victims == [])
    && (c.pc == CMarking || Before(c.pc) ==> c.done == 0 && c.at == 0)
    && (Started(c.pc) ==> |c.retained| == |c.victims|)
    && (Started(c.pc) && c.pc != CShutting ==> c.done == |c.victims|)
  }

  ghost predicate NetInv(s: State) {
    Accounted(s.net) && ClosersInv(s) && VictimsInv(s.net, s.can)
  }

  // ---------------------------------------------------------------- facts about growing

  lemma ShutStays(net: Net, w: Net, c: string, left: seq<Handle>)
    requires Grows(net, w) && ShutBut(net, c, left)
    ensures ShutBut(w, c, left)
  {
  }

  lemma VictimsStay(net: Net, w: Net, c: Canceller)
    requires Grows(net, w) && VictimsInv(net, c)
    ensures VictimsInv(w, c)
  {
    forall i: nat | i < |c.retained| ensures VictimMarked(w, c, i) && VictimShut(w, c, i) {
      assert VictimMarked(net, c, i) && VictimShut(net, c, i);
    }
  }

  lemma ClosersStay(s: State, w: State)
    requires ClosersInv(s) && Grows(s.net, w.net) && s.hs.Keys == w.hs.Keys
    requires forall a | a in w.hs && w.hs[a].pc in {Closing, Removed} ::
               w.hs[a].pc == s.hs[a].pc && w.hs[a].toShut == s.hs[a].toShut && w.hs[a].req == s.hs[a].req
    ensures ClosersInv(w)
  {
    forall a | a in w.hs && w.hs[a].pc in {Closing, Removed}
      ensures ShutBut(w.net, w.hs[a].req.conn, w.hs[a].toShut)
    {
      ShutStays(s.net, w.net, s.hs[a].req.conn, s.hs[a].toShut);
    }
  }

  // ---------------------------------------------------------------- handing handles over

  /** A connection takes a handle over, or the handle stays with the thread that was refused. */
  lemma ReceivesOk(net: Net, c: string, result: (Conn, bool), sock: Handle, extra: Handle)
    requires Accounted(net) && sock !in net.given && extra in net.given + {sock}
    requires result.1 <==> !net.Terminal(c)
    requires result.1 ==>
      && (forall x | x in result.0.sockets :: x in net.Get(c).sockets || x == extra || x == sock)
      && (forall x | x in net.Get(c).sockets :: x in result.0.sockets) && sock in result.0.sockets
    ensures Accounted(Receives(net, c, result, sock)) && Grows(net, Receives(net, c, result, sock))
  {
    var w := Receives(net, c, result, sock);
    if result.1 {
      assert w.conns[c] == result.0;
      forall x | x in w.given ensures x in w.closed || x in w.pending || Retained(w, x) {
        if x != sock && x !in net.closed && x !in net.pending {
          var d :| d in net.conns && x in net.conns[d].sockets;
          assert x in w.conns[d].sockets;
        }
      }
      forall x | Retained(w, x) ensures x in w.given {
        var d :| d in w.conns && x in w.conns[d].sockets;
        if d != c {
          assert x in net.conns[d].sockets && Retained(net, x);
        } else if x in net.Get(c).sockets {
          assert c in net.conns && Retained(net, x);
        }
      }
    } else {
      assert forall x :: Retained(w, x) <==> Retained(net, x);
    }
  }

  lemma TracksOk(net: Net, c: string, sock: Handle)
    requires Accounted(net) && sock !in net.given
    ensures var w := Receives(net, c, net.Get(c).TrackOrReject(sock), sock); Accounted(w) && Grows(net, w)
  {
    ReceivesOk(net, c, net.Get(c).TrackOrReject(sock), sock, sock);
  }

  lemma TransfersOk(net: Net, c: string, old_: Handle, new_: Handle)
    requires Accounted(net) && new_ !in net.given && old_ in net.given
    ensures var w := Receives(net, c, net.Get(c).TransferTo(old_, new_), new_); Accounted(w) && Grows(net, w)
  {
    ReceivesOk(net, c, net.Get(c).TransferTo(old_, new_), new_, old_);
  }

  /** Making a connection terminal loses no handle. */
  lemma TerminateOk(net: Net, c: string)
    requires Accounted(net)
    ensures var w := SetConn(net, c, net.Get(c).BeginTermination().0);
            && Accounted(w) && Grows(net, w) && w.Terminal(c) && w.Get(c).sockets == net.Get(c).sockets
  {
    var w := SetConn(net, c, net.Get(c).BeginTermination().0);
    forall x: Handle ensures Retained(w, x) <==> Retained(net, x) {
      if Retained(w, x) {
        var d :| d in w.conns && x in w.conns[d].sockets;
        assert d in net.conns && x in net.conns[d].sockets;
      }
      if Retained(net, x) {
        var d :| d in net.conns && x in net.conns[d].sockets;
        assert x in w.conns[d].sockets;
      }
    }
  }

  lemma CloseOk(net: Net, x: Handle)
    requires Accounted(net) && x in net.given
    ensures var w := net.(closed := net.closed + {x}); Accounted(w) && Grows(net, w)
    ensures var w := net.(pending := net.pending - {x}, closed := net.closed + {x}); Accounted(w) && Grows(net, w)
  {
    var w := net.(closed := net.closed + {x});
    var v := net.(pending := net.pending - {x}, closed := net.closed + {x});
    assert forall y: Handle :: (Retained(w, y) <==> Retained(net, y)) && (Retained(v, y) <==> Retained(net, y));
  }

  /** A retained handle has been handed over. */
  lemma RetainedGiven(net: Net, c: string, x: Handle)
    requires Accounted(net) && x in net.Get(c).sockets
    ensures x in net.given
  {
    assert c in net.conns && Retained(net, x);
  }

  // ---------------------------------------------------------------- steps

  lemma MoveNet(s: State, step: Step, a: string, m: Move)
    requires NetInv(s) && a in s.hs && HandlerMove(s, step, a, s.hs[a]) == Some(m)
    ensures NetInv(Apply(s, a, m)) && Apply(s, a, m).net == s.net
  {
    MoveCloses(s, step, a, s.hs[a], m);
    AppliedCloses(s, a, m);
    ClosersStay(s, Apply(s, a, m));
  }

  lemma AppliedCloses(s: State, a: string, m: Move)
    requires a in s.hs
    requires m.h.pc in {Closing, Removed} ==>
               m.h.pc == s.hs[a].pc && m.h.toShut == s.hs[a].toShut && m.h.req == s.hs[a].req
    ensures var w := Apply(s, a, m);
            && w.net == s.net && w.can == s.can && w.hs.Keys == s.hs.Keys
            && forall b | b in w.hs && w.hs[b].pc in {Closing, Removed} ::
                 w.hs[b].pc == s.hs[b].pc && w.hs[b].toShut == s.hs[b].toShut && w.hs[b].req == s.hs[b].req
  {
  }

  lemma MoveCloses(s: State, step: Step, a: string, h: Handler, m: Move)
    requires HandlerMove(s, step, a, h) == Some(m)
    ensures m.h.pc in {Closing, Removed} ==> m.h.pc == h.pc && m.h.toShut == h.toShut && m.h.req == h.req
  {
    if m.h.pc in {Closing, Removed} {
      OnlyDeniesThere(s, step, a, h, m);
    }
  }

  /** While it closes its connection a handler takes no other of these steps than a denial. */
  lemma OnlyDeniesThere(s: State, step: Step, a: string, h: Handler, m: Move)
    requires HandlerMove(s, step, a, h) == Some(m) && m.h.pc in {Closing, Removed}
    ensures step.Deny?
  {
    if m.rec.Some? {
      OnlyDeniesAppend(s, step, a, h, m);
    }
  }

  lemma OnlyDeniesAppend(s: State, step: Step, a: string, h: Handler, m: Move)
    requires HandlerMove(s, step, a, h) == Some(m) && m.rec.Some? && m.h.pc in {Closing, Removed}
    ensures step.Deny?
  {
  }

  /** The steps that hand a handle over. */
  predicate HandsOver(step: Step) { step.Track? || step.Transfer? || step.TrackUpstream? }

  lemma HandOverNet(s: State, step: Step, a: string, w: State)
    requires NetInv(s) && a in s.hs && HandsOver(step) && SocketStep(s, step, a, s.hs[a]) == Some(w)
    ensures Accounted(w.net) && Grows(s.net, w.net) && w.can == s.can
    ensures s.hs.Keys == w.hs.Keys && forall b | b in w.hs && w.hs[b].pc in {Closing, Removed} :: w.hs[b] == s.hs[b]
  {
    var c := s.hs[a].req.conn;
    match step
    case Track(_, sock) => TracksOk(s.net, c, sock);
    case TrackUpstream(_, sock) => TracksOk(s.net, c, sock);
    case Transfer(_, old_, new_) => TransfersOk(s.net, c, old_, new_);
  }

  lemma BeginCloseNet(s: State, a: string, w: State)
    requires NetInv(s) && a in s.hs && SocketStep(s, BeginClose(a), a, s.hs[a]) == Some(w)
    ensures NetInv(w) && Grows(s.net, w.net)
  {
    TerminateOk(s.net, s.hs[a].req.conn);
    VictimsStay(s.net, w.net, s.can);
    forall b | b in w.hs && w.hs[b].pc in {Closing, Removed}
      ensures ShutBut(w.net, w.hs[b].req.conn, w.hs[b].toShut)
    {
      if b != a {
        ShutStays(s.net, w.net, s.hs[b].req.conn, s.hs[b].toShut);
      }
    }
  }

  lemma CloseOneNet(s: State, a: string, w: State)
    requires NetInv(s) && a in s.hs && SocketStep(s, CloseOne(a), a, s.hs[a]) == Some(w)
    ensures NetInv(w) && Grows(s.net, w.net)
  {
    var h := s.hs[a];
    RetainedGiven(s.net, h.req.conn, h.toShut[0]);
    CloseOk(s.net, h.toShut[0]);
    VictimsStay(s.net, w.net, s.can);
    forall b | b in w.hs && w.hs[b].pc in {Closing, Removed}
      ensures ShutBut(w.net, w.hs[b].req.conn, w.hs[b].toShut)
    {
      if b == a {
        assert h.toShut == [h.toShut[0]] + h.toShut[1..];
      } else {
        ShutStays(s.net, w.net, s.hs[b].req.conn, s.hs[b].toShut);
      }
    }
  }

  lemma SocketNet(s: State, step: Step, a: string, w: State)
    requires NetInv(s) && a in s.hs && SocketStep(s, step, a, s.hs[a]) == Some(w)
    requires Actor(step) == Some(a)
    ensures NetInv(w) && Grows(s.net, w.net)
  {
    if HandsOver(step) {
      HandOverNet(s, step, a, w);
      VictimsStay(s.net, w.net, s.can);
      ClosersStay(s, w);
    } else if step.BeginClose? {
      BeginCloseNet(s, a, w);
    } else if step.CloseOne? {
      CloseOneNet(s, a, w);
    }
  }

  // ---------------------------------------------------------------- steps of the canceller

  lemma MarkVictimNet(s: State, w: State)
    requires NetInv(s) && EnforceStep(s, MarkVictim) == Some(w)
    ensures Accounted(w.net) && Grows(s.net, w.net) && VictimsInv(w.net, w.can)
  {
    var c, d, v := s.can, w.can, s.can.victims[|s.can.retained|];
    TerminateOk(s.net, v);
    VictimsStay(s.net, w.net, c);
    forall i: nat | i < |d.retained| ensures VictimMarked(w.net, d, i) && VictimShut(w.net, d, i) {
      if i < |c.retained| {
        assert VictimMarked(w.net, c, i) && VictimShut(w.net, c, i);
      } else {
        assert d.victims[i] == v;
      }
    }
  }

  lemma ShutOneNet(s: State, live: bool, w: State)
    requires NetInv(s) && EnforceStep(s, ShutOne(live)) == Some(w)
    ensures Accounted(w.net) && Grows(s.net, w.net) && VictimsInv(w.net, w.can)
  {
    var c, d := s.can, w.can;
    var x := c.retained[c.done][c.at];
    assert VictimMarked(s.net, c, c.done);
    RetainedGiven(s.net, c.victims[c.done], x);
    CloseOk(s.net, x);
    VictimsStay(s.net, w.net, c);
    forall i: nat | i < |d.retained| ensures VictimMarked(w.net, d, i) && VictimShut(w.net, d, i) {
      assert VictimMarked(w.net, c, i) && VictimShut(w.net, c, i);
    }
    if live {
      assert (c.done, c.at) in d.found;
      forall i: nat | i != c.done ensures FoundLive(d.found, i) <==> FoundLive(c.found, i) {
        assert forall p: (nat, nat) | p.0 == i :: p in d.found <==> p in c.found;
      }
    }
    TornSame(c.victims, c.found, d.found, c.done);
  }

  lemma {:induction false} TornSame(victims: seq<string>, found: set<(nat, nat)>, more: set<(nat, nat)>, n: nat)
    requires n <= |victims| && forall i: nat | i < n :: FoundLive(found, i) <==> FoundLive(more, i)
    ensures TornOf(victims, found, n) == TornOf(victims, more, n)
  {
    if n > 0 {
      TornSame(victims, found, more, n - 1);
    }
  }

  lemma NextVictimNet(s: State, w: State)
    requires NetInv(s) && EnforceStep(s, NextVictim) == Some(w)
    ensures w.net == s.net && VictimsInv(w.net, w.can)
  {
    var c, d := s.can, w.can;
    forall i: nat | i < |d.retained| ensures VictimMarked(w.net, d, i) && VictimShut(w.net, d, i) {
      assert VictimMarked(w.net, c, i) && VictimShut(w.net, c, i);
    }
    assert !FoundLive(d.found, d.done);
  }

  lemma EnforceNet(s: State, step: Step, w: State)
    requires NetInv(s) && EnforceStep(s, step) == Some(w)
    ensures NetInv(w) && Grows(s.net, w.net)
  {
    if step.MarkVictim? {
      MarkVictimNet(s, w);
    } else if step.ShutOne? {
      ShutOneNet(s, step.live, w);
    } else if step.NextVictim? {
      NextVictimNet(s, w);
    } else {
      QuietEnforceNet(s, step, w);
    }
    ClosersStay(s, w);
  }

  lemma QuietEnforceNet(s: State, step: Step, w: State)
    requires NetInv(s) && EnforceStep(s, step) == Some(w)
    requires !step.MarkVictim? && !step.ShutOne? && !step.NextVictim?
    ensures w.net == s.net && VictimsInv(w.net, w.can)
  {
    var c, d := s.can, w.can;
    forall i: nat | i < |d.retained| ensures VictimMarked(w.net, d, i) && VictimShut(w.net, d, i) {
      assert VictimMarked(s.net, c, i) && VictimShut(s.net, c, i);
    }
  }

  lemma EvidenceNet(s: State, step: Step, w: State)
    requires NetInv(s) && EvidenceStep(s, step) == Some(w)
    ensures NetInv(w) && w.net == s.net
  {
    VictimsLook(s.net, s.can, w.can);
    ClosersStay(s, w);
  }

  /** Looking and recording leave what was enforced alone. */
  lemma VictimsLook(net: Net, c: Canceller, d: Canceller)
    requires VictimsInv(net, c) && Started(c.pc) && c.pc != CShutting && Started(d.pc) && d.pc != CShutting
    requires d == c.(pc := d.pc, stopped := d.stopped, effects := d.effects, producers := d.producers)
    ensures VictimsInv(net, d)
  {
    forall i: nat | i < |d.retained| ensures VictimMarked(net, d, i) && VictimShut(net, d, i) {
      assert VictimMarked(net, c, i) && VictimShut(net, c, i);
    }
  }

  lemma NextNet(s: State, step: Step, w: State)
    requires NetInv(s) && Next(s, step) == Some(w)
    ensures NetInv(w) && Grows(s.net, w.net)
  {
    if Actor(step).Some? {
      var a := Actor(step).value;
      if IsSocketStep(step) {
        SocketNet(s, step, a, w);
      } else {
        MoveNet(s, step, a, HandlerMove(s, step, a, s.hs[a]).value);
      }
    } else if step.CloseRejected? {
      CloseOk(s.net, step.sock);
      VictimsStay(s.net, w.net, s.can);
      ClosersStay(s, w);
    } else if step.ListenerCloses? {
      ClosersStay(s, w);
    } else if IsEnforceStep(step) {
      EnforceNet(s, step, w);
    } else {
      EvidenceNet(s, step, w);
    }
  }

  lemma {:induction false} ReachableNet(init: State, steps: seq<Step>, s: State)
    requires Init(init) && Exec(init, steps) == Some(s)
    ensures NetInv(s)
  {
    if steps != [] {
      var before := Exec(init, steps[..|steps| - 1]).value;
      ReachableNet(init, steps[..|steps| - 1], before);
      NextNet(before, steps[|steps| - 1], s);
    }
  }
}
