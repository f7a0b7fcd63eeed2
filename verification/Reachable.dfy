/** The invariant holds in every reachable state. */
module Reachable {
  import opened Records
  import opened RunModel
  import opened History
  import opened Protocol
  import opened HandlerProofs
  import opened Invariants

  // ---------------------------------------------------------------- the start

  lemma BootProjections(log: seq<Rec>)
    requires BootLog(log)
    ensures Tail(log) == [] && forall a: string :: Story(log, a) == []
  {
    assert IsStartupRec(log[0]);
    if |log| == 2 {
      assert log == [log[0], log[1]];
      TailSnoc([log[0]], log[1]);
      forall a: string ensures Story(log, a) == [] { StorySnoc([log[0]], log[1], a); }
      TailSnoc([], log[0]);
      forall a: string ensures Story([log[0]], a) == [] { StorySnoc([], log[0], a); }
    }
  }

  lemma BootOthers(log: seq<Rec>, hs: map<string, Handler>)
    requires BootLog(log)
    ensures OthersOk(log, hs)
  {
    forall i: nat | i < |log| ensures OtherOk(log, i, hs) {
      assert SchemaOk(log[i]);
      assert i == 0 ==> log[..i] == [];
    }
  }

  lemma BootLogInv(s: State)
    requires Init(s)
    ensures LogInv(s)
  {
    var log := s.sink.log;
    BootProjections(log);
    BootOthers(log, s.hs);
    assert forall i | 0 <= i < |log| :: IsStartupRec(log[i]);
    forall i: nat | i < |log| ensures StandsEarly(log, i) {
      assert IsStartupRec(log[i]);
    }
  }

  lemma InitInv(s: State)
    requires Init(s)
    ensures Inv(s)
  {
    FreshInv();
    BootProjections(s.sink.log);
    BootLogInv(s);
    assert ProducingSet(s.hs) == {};
  }

  // ---------------------------------------------------------------- registry and socket steps

  /** One handler moved on without writing, numbering or losing anything. */
  predicate Relocated(s: State, w: State, a: string) {
    && a in s.hs && a in w.hs
    && w == s.(hs := s.hs[a := w.hs[a]], producers := w.producers, conns := w.conns, net := w.net)
    && RecsSame(a, s.hs[a], w.hs[a])
    && w.hs[a].story == s.hs[a].story && w.hs[a].effect == s.hs[a].effect
    && (s.killed ==> w.conns <= s.conns && (Producing(w.hs[a]) ==> Producing(s.hs[a])))
    && w.producers - s.producers
       == (if Producing(w.hs[a]) then 1 else 0) - (if Producing(s.hs[a]) then 1 else 0)
  }

  lemma SocketRelocates(s: State, step: Step, a: string, w: State)
    requires a in s.hs && SocketStep(s, step, a, s.hs[a]) == Some(w)
    ensures Relocated(s, w, a)
  {
    if step.Track? || step.Transfer? || step.TrackUpstream? {
      HandOverRelocates(s, step, a, w);
    } else {
      LifetimeRelocates(s, step, a, w);
    }
  }

  lemma HandOverRelocates(s: State, step: Step, a: string, w: State)
    requires a in s.hs && SocketStep(s, step, a, s.hs[a]) == Some(w)
    requires step.Track? || step.Transfer? || step.TrackUpstream?
    ensures Relocated(s, w, a)
  {
    assert s.hs[a := s.hs[a]] == s.hs;
  }

  lemma LifetimeRelocates(s: State, step: Step, a: string, w: State)
    requires a in s.hs && SocketStep(s, step, a, s.hs[a]) == Some(w)
    requires !step.Track? && !step.Transfer? && !step.TrackUpstream?
    ensures Relocated(s, w, a)
  {
  }

  /** The places a registry or socket step leads to: the story keeps its shape. */
  predicate Adjacent(pc: Pc, next: Pc) {
    || (Early(pc) && (Early(next) || Late(next))) || (Late(pc) && Late(next))
    || (pc == Pc.Authorized && next in {Tracked, Refused}) || pc == next
  }

  lemma AdjacentShape(h: Handler, g: Handler, broken: bool)
    requires PcShape(h, broken) && Adjacent(h.pc, g.pc) && RecsSame("", h, g) && g.story == h.story
    ensures PcShape(g, broken)
  {
  }

  lemma SocketAdjacent(s: State, step: Step, a: string, w: State)
    requires a in s.hs && SocketStep(s, step, a, s.hs[a]) == Some(w)
    ensures a in w.hs && Adjacent(s.hs[a].pc, w.hs[a].pc)
  {
  }

  lemma RelocatedHandlers(s: State, w: State, a: string)
    requires HandlersInv(s) && Relocated(s, w, a) && PcShape(w.hs[a], a in s.broken)
    ensures HandlersInv(w)
  {
    InvKept(s.run, a, s.hs[a], w.hs[a], a in s.broken, a in s.broken);
    assert w.broken == s.broken && w.run == s.run && w.hs.Keys == s.hs.Keys;
    forall b | b in w.hs ensures Sane(b, w.hs[b].req) && HandlerInv(w.run, b, w.hs[b], b in w.broken) {
      assert b != a ==> w.hs[b] == s.hs[b];
    }
  }

  lemma RelocatedLog(s: State, w: State, a: string)
    requires LogInv(s) && Relocated(s, w, a)
    ensures LogInv(w)
  {
    OthersKept(s.sink.log, s.hs, w.hs);
    forall b: string ensures Story(w.sink.log, b) == StoryOf(w.hs, b) {
      assert Story(s.sink.log, b) == StoryOf(s.hs, b);
    }
    assert AttemptsSeen(w);
  }

  lemma RelocatedCanceller(s: State, w: State, a: string)
    requires CancellerInv(s) && Relocated(s, w, a)
    ensures CancellerInv(w)
  {
  }

  lemma OneMoved(hs: map<string, Handler>, gs: map<string, Handler>, a: string)
    requires a in hs && a in gs && gs == hs[a := gs[a]]
    ensures ProducingSet(gs) == if Producing(gs[a]) then ProducingSet(hs) + {a} else ProducingSet(hs) - {a}
    ensures a in ProducingSet(hs) <==> Producing(hs[a])
  {
  }

  lemma RelocatedProducers(s: State, w: State, a: string)
    requires ProducersInv(s) && Relocated(s, w, a)
    ensures ProducersInv(w)
  {
    OneMoved(s.hs, w.hs, a);
  }

  lemma SocketInv(s: State, step: Step, a: string, w: State)
    requires Inv(s) && a in s.hs && SocketStep(s, step, a, s.hs[a]) == Some(w)
    ensures Inv(w)
  {
    SocketRelocates(s, step, a, w);
    SocketAdjacent(s, step, a, w);
    AdjacentShape(s.hs[a], w.hs[a], a in s.broken);
    RelocatedHandlers(s, w, a);
    RelocatedLog(s, w, a);
    RelocatedCanceller(s, w, a);
    RelocatedProducers(s, w, a);
  }

  // ---------------------------------------------------------------- enforcement steps

  lemma CancelHandlers(s: State)
    requires HandlersInv(s) && !s.run.cancelled
    ensures HandlersInv(s.(run := s.run.Cancel().0))
  {
    var run := s.run.Cancel().0;
    CancelInv(s.run);
    forall a: string
      ensures && Num(run, AuthEv(a)) == Num(s.run, AuthEv(a)) && Num(run, PermitEv(a)) == Num(s.run, PermitEv(a))
              && Num(run, ReleaseEv(a)) == Num(s.run, ReleaseEv(a))
    {
    }
  }

  lemma CancelLog(s: State)
    requires LogInv(s) && RunInv(s.run) && !s.run.cancelled
    ensures LogInv(s.(run := s.run.Cancel().0))
  {
    assert Num(s.run, CancelEv) == 0;
    assert AttemptsSeen(s.(run := s.run.Cancel().0));
  }

  lemma CancelRunInv(s: State, w: State)
    requires Inv(s) && EnforceStep(s, CancelRun) == Some(w)
    ensures Inv(w)
  {
    CancelInv(s.run);
    CancelHandlers(s);
    CancelLog(s);
  }

  /** The canceller and the sockets moved on, the evidence did not. */
  predicate Enforces(s: State, w: State) {
    && w == s.(killed := w.killed, conns := w.conns, net := w.net, can := w.can)
    && s.can.pc != CWatching && !(w.can.pc in {CWatching, CCancelled})
    && s.can.pc in {CCancelled, CMarking, CShutting, CStopping}
    && w.can.pc in {CMarking, CShutting, CStopping, CRequesting}
    && w.killed && w.conns <= (if s.killed then s.conns else {})
    && w.can.stopped == s.can.stopped
  }

  lemma EnforceMoves(s: State, step: Step, w: State)
    requires EnforceStep(s, step) == Some(w) && !step.CancelRun?
    requires s.killed <==> !Before(s.can.pc)
    ensures Enforces(s, w)
  {
  }

  lemma EnforcesInv(s: State, w: State)
    requires Inv(s) && Enforces(s, w)
    ensures Inv(w)
  {
    assert Tail(s.sink.log) == [];
    assert AttemptsSeen(w);
    assert LogInv(w);
  }

  // ---------------------------------------------------------------- evidence steps

  /** The canceller read something and moved on. */
  predicate Looks(s: State, w: State) {
    && w == s.(can := w.can)
    && w.can.victims == s.can.victims && w.can.torn == s.can.torn
    && s.can.pc in {CDraining, CListenerSeen, CEffectsSeen}
    && w.can.pc in {CListenerSeen, CEffectsSeen, CDeciding}
    && (w.can.stopped ==> s.listenerClosed || s.can.stopped)
    && (w.can.pc == CEffectsSeen ==> w.can.effects == |s.run.inflight|)
    && (w.can.pc == CDeciding ==>
      s.can.pc == CEffectsSeen && w.can.effects == s.can.effects && w.can.producers == s.producers)
  }

  predicate IsLook(step: Step) {
    step.SeeListener? || step.SeeEffects? || step.SeeProducers?
  }

  lemma LooksSo(s: State, step: Step, w: State)
    requires EvidenceStep(s, step) == Some(w) && IsLook(step)
    ensures Looks(s, w)
  {
  }

  lemma NobodyProduces(hs: map<string, Handler>)
    requires |ProducingSet(hs)| == 0
    ensures forall a | a in hs :: !Producing(hs[a])
  {
    forall a | a in hs ensures !Producing(hs[a]) {
      assert a !in ProducingSet(hs);
    }
  }

  lemma LooksTail(t: seq<Rec>, run: Run, c: Canceller, d: Canceller)
    requires TailIs(t, run, c) && Written(c.pc) == 2 && Written(d.pc) == 2 && c.pc != CFailed && d.pc != CFailed
    ensures TailIs(t, run, d)
  {
  }

  lemma LooksCounts(s: State, w: State)
    requires Looks(s, w) && CancellerLinks(s) && ProducersInv(s) && |Tail(s.sink.log)| == 2
    ensures CountsHold(w)
  {
    if w.producers == 0 {
      NobodyProduces(s.hs);
    }
  }

  lemma LooksLinks(s: State, w: State)
    requires Looks(s, w) && CancellerLinks(s)
    ensures CancellerLinks(w) && Written(s.can.pc) == Written(w.can.pc) == 2
  {
  }

  lemma CancellerLogKept(s: State, w: State)
    requires LogInv(s) && w == s.(can := w.can) && |Tail(s.sink.log)| <= 2
    ensures LogInv(w)
  {
    assert AttemptsSeen(w);
  }

  lemma LooksInv(s: State, w: State)
    requires Inv(s) && Looks(s, w)
    ensures Inv(w)
  {
    LooksLinks(s, w);
    LooksTail(Tail(s.sink.log), s.run, s.can, w.can);
    LooksCounts(s, w);
    CancellerLogKept(s, w);
  }

  /** The canceller tried to append r and went on to the given place. */
  predicate Wrote(s: State, w: State, r: Rec) {
    && w == s.(sink := w.sink, can := s.can.(pc := w.can.pc))
    && IsTailRec(r)
    && w.sink.log == (if w.can.pc != CFailed then s.sink.log + [r] else s.sink.log)
    && (w.can.pc == CFailed || w.sink.healthy)
    && (w.sink.isSealed <==> w.can.pc == CClosed || s.sink.isSealed)
  }

  function Owed(run: Run, c: Canceller): Rec
    requires run.cancellation.Some?
  {
    Script(run, c, Written(c.pc))
  }

  /** One append of the canceller, which the sink took or not. */
  predicate Recorded(s: State, w: State) {
    && s.run.cancellation.Some? && AtAppend(s.can.pc)
    && Wrote(s, w, Owed(s.run, s.can)) && w.can.pc in {Onward(s.can), CFailed}
  }

  lemma RecordsSo(s: State, step: Step, w: State)
    requires EvidenceStep(s, step) == Some(w) && step.AppendEvidence?
    ensures Recorded(s, w)
  {
  }

  lemma {:induction false} InTail(log: seq<Rec>, i: nat) returns (j: nat)
    requires i < |log| && IsTailRec(log[i])
    ensures j < |Tail(log)| && Tail(log)[j] == log[i]
  {
    var n := |log| - 1;
    if i == n {
      j := |Tail(log)| - 1;
    } else {
      j := InTail(log[..n], i);
    }
  }

  /** The cancellation's own sequence number is not in the log before LINEARIZED is. */
  lemma FreshCancel(s: State)
    requires RunInv(s.run) && OwnedTrue(s.sink.log, s.run) && s.run.cancellation.Some?
    requires Tail(s.sink.log) == [RequestRec(s.run)]
    ensures SeqOf(LinearizedRec(s.run)) == Num(s.run, CancelEv) > 0
    ensures Num(s.run, CancelEv) !in Owned(s.sink.log)
  {
    var log := s.sink.log;
    forall i | 0 <= i < |log| && OwnsSeq(log[i]) ensures SeqOf(log[i]) != Num(s.run, CancelEv) {
      if SeqOf(log[i]) == Num(s.run, CancelEv) {
        SameEvent(s.run, EventOf(log[i]), CancelEv);
        var j := InTail(log, i);
        assert false;
      }
    }
  }

  lemma RecordedOwned(s: State)
    requires RunInv(s.run) && OwnedTrue(s.sink.log, s.run) && SeqsDistinct(s.sink.log)
    requires s.run.cancellation.Some? && AtAppend(s.can.pc) && TailIs(Tail(s.sink.log), s.run, s.can)
    ensures OwnedTrue(s.sink.log + [Owed(s.run, s.can)], s.run)
    ensures SeqsDistinct(s.sink.log + [Owed(s.run, s.can)])
  {
    if s.can.pc == CLinearizing {
      FreshCancel(s);
    }
    OwnedAppended(s.sink.log, s.run, s.run, Some(Owed(s.run, s.can)));
  }

  /** A tail record leaves the stories, the late attempts and the other records as they are. */
  lemma TailRecordLog(s: State, r: Rec, w: State)
    requires LogInv(s) && IsTailRec(r) && OwnedTrue(s.sink.log + [r], s.run) && SeqsDistinct(s.sink.log + [r])
    requires w == s.(sink := w.sink, can := s.can.(pc := w.can.pc)) && w.sink.log == s.sink.log + [r]
    ensures LogInv(w)
  {
    var log := s.sink.log;
    forall a: string ensures Story(log + [r], a) == StoryOf(s.hs, a) {
      assert Story(log, a) == StoryOf(s.hs, a);
      StorySnoc(log, r, a);
    }
    LateSnoc(log, r);
    AttemptsAppended(log, r);
    TailSnoc(log, r);
    RecordedQuiet(s, r);
    assert OtherOk(log + [r], |log|, s.hs) by {
      assert (log + [r])[|log|] == r;
    }
    OthersAppended(log, s.hs, r);
  }

  lemma RecordedLog(s: State, w: State)
    requires RunInv(s.run) && LogInv(s) && Recorded(s, w) && TailIs(Tail(s.sink.log), s.run, s.can)
    ensures LogInv(w)
  {
    if w.can.pc != CFailed {
      RecordedOwned(s);
      TailRecordLog(s, Owed(s.run, s.can), w);
    } else {
      assert AttemptsSeen(w);
    }
  }

  lemma RecordedQuiet(s: State, r: Rec)
    requires QuietAfterKill(s) && IsTailRec(r)
    ensures |Tail(s.sink.log)| <= 2 || s.can.Quiescent() ==>
              forall i: nat | i < |s.sink.log + [r]| :: StandsEarly(s.sink.log + [r], i)
  {
    if |Tail(s.sink.log)| <= 2 || s.can.Quiescent() {
      EarlyAppended(s.sink.log, r);
    }
  }

  lemma ScriptSame(run: Run, c: Canceller, d: Canceller, i: nat)
    requires run.cancellation.Some? && c == d.(pc := c.pc)
    ensures Script(run, d, i) == Script(run, c, i)
  {
  }

  /** A longer or equal tail still follows the script wherever the canceller goes. */
  lemma ScriptFollows(t: seq<Rec>, run: Run, c: Canceller, pc: CPc)
    requires run.cancellation.Some? && forall i: nat | i < |t| :: t[i] == Script(run, c, i)
    ensures forall i: nat | i < |t| :: t[i] == Script(run, c.(pc := pc), i)
  {
    forall i: nat | i < |t| ensures t[i] == Script(run, c.(pc := pc), i) {
      ScriptSame(run, c.(pc := pc), c, i);
    }
  }

  lemma OwedTail(t: seq<Rec>, run: Run, c: Canceller)
    requires TailIs(t, run, c) && AtAppend(c.pc) && run.cancellation.Some?
    ensures TailIs(t + [Owed(run, c)], run, c.(pc := Onward(c)))
    ensures TailIs(t, run, c.(pc := CFailed))
  {
    ScriptFollows(t + [Owed(run, c)], run, c, Onward(c));
    ScriptFollows(t, run, c, CFailed);
  }

  lemma RecordedTail(s: State, w: State)
    requires Recorded(s, w) && TailIs(Tail(s.sink.log), s.run, s.can)
    ensures TailIs(Tail(w.sink.log), w.run, w.can)
    ensures |Tail(w.sink.log)| >= 3 ==> |Tail(s.sink.log)| >= 3 || s.can.pc == CDeciding
  {
    TailSnoc(s.sink.log, Owed(s.run, s.can));
    OwedTail(Tail(s.sink.log), s.run, s.can);
  }

  lemma RecordedCounts(s: State, w: State)
    requires CountsHold(s) && Recorded(s, w)
    requires |Tail(w.sink.log)| >= 3 ==> |Tail(s.sink.log)| >= 3 || s.can.pc == CDeciding
    ensures CountsHold(w)
  {
  }

  lemma RecordedLinks(s: State, w: State)
    requires CancellerLinks(s) && Recorded(s, w)
    ensures CancellerLinks(w)
  {
  }

  lemma RecordedCanceller(s: State, w: State)
    requires CancellerInv(s) && Recorded(s, w)
    ensures CancellerInv(w)
  {
    RecordedLinks(s, w);
    RecordedTail(s, w);
    RecordedCounts(s, w);
  }

  lemma EvidenceInv(s: State, step: Step, w: State)
    requires Inv(s) && EvidenceStep(s, step) == Some(w)
    ensures Inv(w)
  {
    if IsLook(step) {
      LooksSo(s, step, w);
      LooksInv(s, w);
    } else {
      RecordsSo(s, step, w);
      RecordedLog(s, w);
      RecordedCanceller(s, w);
    }
  }

  // ---------------------------------------------------------------- all steps

  lemma StepMoves(s: State, step: Step, a: string, m: Move)
    requires HandlersInv(s) && a in s.hs && Actor(step) == Some(a)
    requires HandlerMove(s, step, a, s.hs[a]) == Some(m)
    ensures Moves(s, a, m)
  {
    assert AttemptInv(s.run, a);
    HandlerStepOk(s, a, s.hs[a], a in s.broken, step, m);
    MoveRun(s, step, a, s.hs[a], m);
  }

  lemma NextInv(s: State, step: Step, w: State)
    requires Inv(s) && Next(s, step) == Some(w)
    ensures Inv(w)
  {
    if Actor(step).Some? {
      var a := Actor(step).value;
      if IsSocketStep(step) {
        SocketInv(s, step, a, w);
      } else {
        var m := HandlerMove(s, step, a, s.hs[a]).value;
        StepMoves(s, step, a, m);
        ApplyInv(s, a, m);
      }
    } else if step.CloseRejected? || step.ListenerCloses? {
      assert AttemptsSeen(w);
    } else if step.CancelRun? {
      CancelRunInv(s, w);
    } else if IsEnforceStep(step) {
      EnforceMoves(s, step, w);
      EnforcesInv(s, w);
    } else {
      EvidenceInv(s, step, w);
    }
  }

  lemma {:induction false} ReachableInv(init: State, steps: seq<Step>, s: State)
    requires Init(init) && Exec(init, steps) == Some(s)
    ensures Inv(s)
  {
    if steps == [] {
      InitInv(init);
    } else {
      var before := Exec(init, steps[..|steps| - 1]).value;
      ReachableInv(init, steps[..|steps| - 1], before);
      NextInv(before, steps[|steps| - 1], s);
    }
  }
}
