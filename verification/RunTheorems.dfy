/** Safety of every run of the gateway: closure, effects and enforcement. */
module RunTheorems {
  import opened Records
  import opened RunModel
  import opened History
  import opened Connections
  import opened Protocol
  import opened HandlerProofs
  import opened Invariants
  import opened Reachable
  import opened Enforcement
  import opened RunAcceptance
  import A = Acceptance
  import D = Soundness

  // ---------------------------------------------------------------- closure safety

  lemma ClosedIsSealed(s: State, i: nat)
    requires CancellerInv(s) && i < |s.sink.log| && s.sink.log[i].RunClosed?
    ensures s.sink.isSealed && |Tail(s.sink.log[..i])| == 4
  {
    A.TailAt(s.sink.log, i);
    ScriptedClosure(Tail(s.sink.log), s.run, s.can, |Tail(s.sink.log[..i])|);
  }

  /** RUN_CLOSED can only be the fifth record of the tail. */
  lemma ScriptedClosure(t: seq<Rec>, run: Run, c: Canceller, i: nat)
    requires TailIs(t, run, c) && i < |t| && t[i].RunClosed?
    ensures i == 4 && c.pc == CClosed
  {
    assert t[i] == Script(run, c, i);
  }

  /** No record of a sealed run stands behind all five records of the tail. */
  lemma NothingBehind(s: State, j: nat)
    requires SealedRun(s) && j < |s.sink.log|
    ensures |Tail(s.sink.log[..j])| < 5
  {
    var log := s.sink.log;
    SealedFacts(s);
    assert StandsEarly(log, j) && OtherOk(log, j, s.hs);
    if IsTailRec(log[j]) {
      A.TailAt(log, j);
    } else if IsStartupRec(log[j]) {
      D.DegradedHasNoTail(log[..j]);
    }
  }

  lemma ClosedIsLast(s: State, i: nat)
    requires SealedRun(s) && i < |s.sink.log| && s.sink.log[i].RunClosed?
    ensures i == |s.sink.log| - 1
  {
    ClosedIsSealed(s, i);
    if i + 1 < |s.sink.log| {
      A.TailGrows(s.sink.log, i);
      NothingBehind(s, i + 1);
    }
  }

  /** What a state with a durable RUN_CLOSED looks like. */
  ghost predicate Closed(s: State) {
    && s.sink.isSealed && s.sink.healthy && s.run.cancelled && s.killed && s.conns == {}
    && s.run.inflight == map[] && s.producers == 0 && s.listenerClosed
    && (forall a | a in s.hs :: s.hs[a].pc == Idle || s.hs[a].pc == Done)
    && (forall i | 0 <= i < |s.sink.log| :: !s.sink.log[i].DrainTimeout?)
    && (forall i | 0 <= i < |s.sink.log| - 1 :: !s.sink.log[i].RunClosed?)
    && (forall a | Told(s, a) ::
          Complete(Story(s.sink.log, a)) <==> a !in s.broken && !Doubled(Story(s.sink.log, a)))
    && (forall a | a in s.broken :: Told(s, a))
  }

  /** Closure safety: once RUN_CLOSED is durable it is the last record, the run is quiescent, and
      every attempt in the log is complete but for the broken ones and those settled twice. */
  lemma ClosureSafety(init: State, steps: seq<Step>, s: State, i: nat)
    requires Init(init) && Exec(init, steps) == Some(s) && i < |s.sink.log| && s.sink.log[i].RunClosed?
    ensures i == |s.sink.log| - 1 && Closed(s)
  {
    ReachableInv(init, steps, s);
    ReachableNet(init, steps, s);
    ClosedIsSealed(s, i);
    ClosedIsLast(s, i);
    SealedIsQuiet(s);
    SealedStories(s);
    forall k: nat | k < |s.sink.log| ensures !s.sink.log[k].DrainTimeout? && (s.sink.log[k].RunClosed? ==> k == i) {
      SealedRecord(s, k);
    }
  }

  lemma SealedIsQuiet(s: State)
    requires CancellerInv(s) && ProducersInv(s) && s.sink.isSealed
    ensures s.sink.healthy && s.run.cancelled && s.killed && s.conns == {} && s.run.inflight == map[]
    ensures s.producers == 0 && s.listenerClosed && forall a | a in s.hs :: !Producing(s.hs[a])
  {
    NobodyCounted(s);
    assert ProducingSet(s.hs) == {};
  }

  lemma NobodyCounted(s: State)
    requires CancellerInv(s) && s.sink.isSealed
    ensures s.can.pc == CClosed && s.run.inflight == map[] && forall a | a in s.hs :: !Producing(s.hs[a])
  {
  }

  lemma SealedRecord(s: State, k: nat)
    requires SealedRun(s) && k < |s.sink.log|
    ensures !s.sink.log[k].DrainTimeout?
    ensures s.sink.log[k].RunClosed? ==> k == |s.sink.log| - 1
  {
    if s.sink.log[k].DrainTimeout? {
      var j := InTail(s.sink.log, k);
      SealedFacts(s);
      ScriptIsLegal(s);
    }
    if s.sink.log[k].RunClosed? {
      ClosedIsLast(s, k);
    }
  }

  lemma SealedStories(s: State)
    requires SealedRun(s)
    ensures forall a | Told(s, a) ::
              Complete(Story(s.sink.log, a)) <==> a !in s.broken && !Doubled(Story(s.sink.log, a))
    ensures forall a | a in s.broken :: Told(s, a)
  {
    SealedFacts(s);
    forall a | Told(s, a)
      ensures Complete(Story(s.sink.log, a)) <==> a !in s.broken && !Doubled(Story(s.sink.log, a))
    {
      NamedIsTold(s, a);
      ToldLeft(s, a);
      LeftComplete(s.hs[a].story, a in s.broken);
    }
    forall a | a in s.broken ensures Told(s, a) {
      BrokenIsTold(s, a);
    }
  }

  // ---------------------------------------------------------------- the second settle

  /** A settle that follows a refused denial makes up for a lost outcome or repeats one that was not:
      if it is durable the attempt lacks nothing, and its story is doubled exactly if it lacked nothing
      before. */
  lemma SecondSettle(init: State, steps: seq<Step>, s: State, a: string, reason: string, io: Io, w: State)
    requires Init(init) && Exec(init, steps) == Some(s) && a in s.hs && s.hs[a].pc == ResettleOwed
    requires Next(s, SettleAgain(a, reason, io)) == Some(w)
    ensures var h := s.hs[a];
            if s.sink.Accepts(io) then
              && w.hs[a].story == h.story + [UnknownRec(a, h, reason, None)] && w.broken == s.broken - {a}
              && (Doubled(w.hs[a].story) <==> a !in s.broken)
            else w.hs[a].story == h.story && w.broken == s.broken
  {
    ReachableInv(init, steps, s);
    assert HandlerInv(s.run, a, s.hs[a], a in s.broken);
    SettledAgain(s, a, reason, io, w);
    DoubledIff(s.hs[a].story, a in s.broken, UnknownRec(a, s.hs[a], reason, None));
  }

  lemma SettledAgain(s: State, a: string, reason: string, io: Io, w: State)
    requires a in s.hs && s.hs[a].pc == ResettleOwed && Next(s, SettleAgain(a, reason, io)) == Some(w)
    ensures var h := s.hs[a];
            if s.sink.Accepts(io) then
              w.hs[a].story == h.story + [UnknownRec(a, h, reason, None)] && w.broken == s.broken - {a}
            else w.hs[a].story == h.story && w.broken == s.broken
  {
    assert !s.sink.Accepts(io) ==> if a in s.broken then s.broken + {a} == s.broken else s.broken - {a} == s.broken;
  }

  lemma DoubledIff(story: seq<Rec>, broken: bool, r: Rec)
    requires StoryShape(ResettleOwed, story, broken) && r.EffectUnknown?
    ensures Doubled(story + [r]) <==> !broken
  {
  }

  // ---------------------------------------------------------------- when nothing is lost

  predicate IoOf(step: Step, io: Io) {
    match step
    case AppendAuth(_, x) => x == io case RecheckFails(_, _, x) => x == io
    case SettleRefused(_, _, x) => x == io case AppendPermit(_, x) => x == io
    case SettleDoomed(_, _, x) => x == io case AppendAttempted(_, x) => x == io
    case SettleTerminal(_, x) => x == io case DenyTerminal(_, _, x) => x == io case SettleAgain(_, _, x) => x == io
    case SettleUnknown(_, _, x) => x == io case SettleStreamLost(_, _, _, x) => x == io
    case AppendTorn(_, _, x) => x == io case SettleCompleted(_, _, _, _, x) => x == io
    case AppendAllow(_, x) => x == io case AppendRelease(_, x) => x == io
    case Deny(_, _, _, x) => x == io
    case _ => false
  }

  /** The two ways in which a handler can lose an essential record unnoticed by the sink: the file
      could not be opened, or an exception left `_inside` where nothing settles the attempt. */
  predicate Unnoticed(step: Step) {
    IoOf(step, OpenFails) || step.Escape?
  }

  /** Nothing is missing, and no outcome is settled twice or about to be. */
  predicate Spotless(s: State) {
    s.broken == {} && forall a | a in s.hs :: Clear(s.hs[a])
  }

  predicate Clear(h: Handler) { h.pc != ResettleOwed && !Doubled(h.story) }

  lemma BreaksMeans(s: State, step: Step, a: string, h: Handler, m: Move)
    requires HandlerMove(s, step, a, h) == Some(m) && m.fault.Breaks?
    ensures Producing(h) && (step.Escape? || (m.rec.Some? && !s.sink.Accepts(m.io)))
  {
  }

  lemma AppendedIo(s: State, step: Step, a: string, h: Handler, m: Move)
    requires HandlerMove(s, step, a, h) == Some(m) && m.rec.Some?
    ensures IoOf(step, m.io)
  {
  }

  lemma OwesResettle(s: State, step: Step, a: string, h: Handler, m: Move)
    requires HandlerMove(s, step, a, h) == Some(m) && m.h.pc == ResettleOwed != h.pc
    ensures step.DenyTerminal?
  {
  }

  /** A move that breaks an attempt or leads to a second settle had its append refused. */
  lemma FaultMeans(s: State, step: Step, a: string, h: Handler, m: Move)
    requires HandlerMove(s, step, a, h) == Some(m) && !Unnoticed(step)
    requires m.fault.Breaks? || m.h.pc == ResettleOwed != h.pc
    ensures Producing(h) && m.rec.Some? && m.io != OpenFails && !s.sink.Accepts(m.io)
  {
    if m.fault.Breaks? {
      BreaksMeans(s, step, a, h, m);
      AppendedIo(s, step, a, h, m);
    } else {
      OwesResettle(s, step, a, h, m);
    }
  }

  lemma UnknownMove(s: State, step: Step, a: string, h: Handler, m: Move)
    requires HandlerMove(s, step, a, h) == Some(m) && m.rec.Some? && m.rec.value.EffectUnknown?
    ensures h.pc == Connected || h.pc == ResettleOwed
  {
  }

  lemma MoveTellsNothing(s: State, step: Step, a: string, h: Handler, m: Move)
    requires HandlerMove(s, step, a, h) == Some(m)
    ensures m.h.story == h.story
  {
  }

  /** Only a second settle doubles a story. */
  lemma StillClear(s: State, m: Move, h: Handler, broken: bool)
    requires StoryShape(h.pc, h.story, broken) && Clear(h) && m.h.story == h.story
    requires m.rec.Some? && m.rec.value.EffectUnknown? ==> h.pc == Connected
    ensures !Doubled(StoryAfter(s, m))
  {
  }

  lemma FaultNoticed(s: State, step: Step, a: string, m: Move)
    requires s.sink.isSealed ==> forall b | b in s.hs :: !Producing(s.hs[b])
    requires a in s.hs && !Unnoticed(step) && HandlerMove(s, step, a, s.hs[a]) == Some(m)
    requires m.fault.Breaks? || m.h.pc == ResettleOwed != s.hs[a].pc
    ensures !Apply(s, a, m).sink.healthy
  {
    FaultMeans(s, step, a, s.hs[a], m);
  }

  lemma {:induction false} LostOnlyWhenUnhealthy(init: State, steps: seq<Step>, s: State)
    requires Init(init) && Exec(init, steps) == Some(s)
    requires forall k | 0 <= k < |steps| :: !Unnoticed(steps[k])
    ensures Spotless(s) || !s.sink.healthy
  {
    if steps != [] {
      var n := |steps| - 1;
      var before := Exec(init, steps[..n]).value;
      LostOnlyWhenUnhealthy(init, steps[..n], before);
      ReachableInv(init, steps[..n], before);
      if before.sink.isSealed {
        NobodyCounted(before);
      }
      StepNoticed(before, steps[n], s);
    }
  }

  lemma AppliedClear(s: State, a: string, m: Move)
    requires a in s.hs && Spotless(s) && !m.fault.Breaks? && m.h.pc != ResettleOwed && !Doubled(StoryAfter(s, m))
    ensures Spotless(Apply(s, a, m))
  {
  }

  lemma MoveNoticed(s: State, step: Step, a: string, m: Move)
    requires s.sink.isSealed ==> forall b | b in s.hs :: !Producing(s.hs[b])
    requires a in s.hs && !Unnoticed(step) && HandlerMove(s, step, a, s.hs[a]) == Some(m)
    requires StoryShape(s.hs[a].pc, s.hs[a].story, a in s.broken) && Spotless(s) && s.sink.healthy
    ensures var w := Apply(s, a, m); Spotless(w) || !w.sink.healthy
  {
    assert Clear(s.hs[a]);
    if m.fault.Breaks? || m.h.pc == ResettleOwed {
      FaultNoticed(s, step, a, m);
    } else {
      MoveTellsNothing(s, step, a, s.hs[a], m);
      if m.rec.Some? && m.rec.value.EffectUnknown? {
        UnknownMove(s, step, a, s.hs[a], m);
      }
      StillClear(s, m, s.hs[a], a in s.broken);
      AppliedClear(s, a, m);
    }
  }

  lemma SocketSpotless(s: State, step: Step, a: string, w: State)
    requires a in s.hs && SocketStep(s, step, a, s.hs[a]) == Some(w) && Spotless(s)
    ensures Spotless(w)
  {
    SocketFrame(s, step, a, w);
    SocketAdjacent(s, step, a, w);
  }

  lemma StepNoticed(s: State, step: Step, w: State)
    requires s.sink.isSealed ==> forall a | a in s.hs :: !Producing(s.hs[a])
    requires HandlersInv(s) && Next(s, step) == Some(w) && !Unnoticed(step) && (Spotless(s) || !s.sink.healthy)
    ensures Spotless(w) || !w.sink.healthy
  {
    if Actor(step).None? {
      CancellerFrame(s, step, w);
    } else if IsSocketStep(step) {
      SocketFrame(s, step, Actor(step).value, w);
      if Spotless(s) {
        SocketSpotless(s, step, Actor(step).value, w);
      }
    } else {
      var a := Actor(step).value;
      var m := HandlerMove(s, step, a, s.hs[a]).value;
      ApplySink(s, a, m);
      if s.sink.healthy {
        assert HandlerInv(s.run, a, s.hs[a], a in s.broken);
        MoveNoticed(s, step, a, m);
      }
    }
  }

  // ---------------------------------------------------------------- what steps leave alone

  /** The canceller and the listener touch no handler and no count. */
  lemma CancellerFrame(s: State, step: Step, w: State)
    requires Next(s, step) == Some(w) && Actor(step).None?
    ensures w.hs == s.hs && w.broken == s.broken && w.producers == s.producers && w.conns <= s.conns
    ensures (w.sink.healthy ==> s.sink.healthy) && (s.killed ==> w.killed)
    ensures s.run.cancellation.Some? ==> w.run == s.run
  {
    if IsEnforceStep(step) {
      EnforceFrame(s, step, w);
    }
  }

  lemma EnforceFrame(s: State, step: Step, w: State)
    requires EnforceStep(s, step) == Some(w)
    ensures w.hs == s.hs && w.broken == s.broken && w.producers == s.producers && w.conns <= s.conns
    ensures w.sink == s.sink && (s.killed ==> w.killed)
    ensures s.run.cancellation.Some? ==> w.run == s.run
  {
  }

  lemma SocketFrame(s: State, step: Step, a: string, w: State)
    requires a in s.hs && SocketStep(s, step, a, s.hs[a]) == Some(w)
    ensures w.run == s.run && w.sink == s.sink && w.broken == s.broken && w.killed == s.killed
    ensures s.killed ==> w.conns <= s.conns && w.producers <= s.producers
    ensures a in w.hs && w.hs == s.hs[a := w.hs[a]] && w.hs[a].effect == s.hs[a].effect
  {
  }

  /** A run that seals although no append failed to open its file and no handler left early has
      lost no record of any attempt: a failed write would have latched the sink and kept it from
      sealing. */
  lemma SealedLosesNothing(init: State, steps: seq<Step>, s: State)
    requires Init(init) && Exec(init, steps) == Some(s) && s.sink.isSealed
    requires forall k | 0 <= k < |steps| :: !Unnoticed(steps[k])
    ensures s.broken == {} && forall a | Told(s, a) :: Complete(Story(s.sink.log, a))
  {
    LostOnlyWhenUnhealthy(init, steps, s);
    ReachableInv(init, steps, s);
    ReachableNet(init, steps, s);
    assert Spotless(s);
    forall a | Told(s, a) ensures Complete(Story(s.sink.log, a)) {
      assert Clear(s.hs[a]);
      WholeStory(s, a);
    }
  }

  // ---------------------------------------------------------------- effect precedence

  /** Effect precedence: before connect is called for an attempt, its AUTH, PERMIT and ATTEMPTED
      are durable in this order and bound to each other. */
  lemma EffectPrecedence(init: State, steps: seq<Step>, s: State, a: string) returns (i: nat, j: nat, k: nat)
    requires Init(init) && Exec(init, steps) == Some(s) && a in s.hs && s.hs[a].effect
    ensures i < j < k < |s.sink.log|
    ensures var auth, permit, attempt := s.sink.log[i], s.sink.log[j], s.sink.log[k];
            && auth.AuthCommitted? && permit.PermitGranted? && attempt.EffectAttempted?
            && auth.aid == permit.aid == attempt.aid == a
            && auth.conn == permit.conn == attempt.conn && auth.epoch == permit.epoch == attempt.epoch == 0
            && auth.generation == permit.generation && auth.budget == permit.budget
            && attempt.permitSeq == permit.seqNo && auth.seqNo < permit.seqNo
            && attempt.pinIp == auth.pin.ip && attempt.pinPort == auth.pin.port
            && (s.run.cancelled ==> permit.seqNo < Num(s.run, CancelEv))
  {
    ReachableInv(init, steps, s);
    var log, h := s.sink.log, s.hs[a];
    assert Story(log, a) == h.story && HandlerInv(s.run, a, h, a in s.broken) && AttemptInv(s.run, a);
    i, j, k := Place(log, a, 0), Place(log, a, 1), Place(log, a, 2);
    PlacesIncrease(log, a, 0, 1);
    PlacesIncrease(log, a, 1, 2);
    assert RecOk(a, h, h.story[0]) && RecOk(a, h, h.story[1]) && RecOk(a, h, h.story[2]);
  }

  /** Past the point of connecting without having done so. */
  predicate NeverConnects(h: Handler) {
    && !h.effect
    && (Late(h.pc) || h.pc == PermitLost || h.pc == Unwinding || h.pc == ReleaseOwed)
  }

  /** Only the acting handler changes. */
  lemma NextHandlers(s: State, step: Step, w: State, b: string)
    requires Next(s, step) == Some(w) && Actor(step) == Some(b)
    ensures b in s.hs && b in w.hs && w.hs == s.hs[b := w.hs[b]]
    ensures !IsSocketStep(step) ==> HandlerMove(s, step, b, s.hs[b]).Some?
    ensures !IsSocketStep(step) ==> w.hs[b].pc == HandlerMove(s, step, b, s.hs[b]).value.h.pc
    ensures !IsSocketStep(step) ==> w.hs[b].effect == HandlerMove(s, step, b, s.hs[b]).value.h.effect
  {
    if IsSocketStep(step) {
      SocketFrame(s, step, b, w);
    }
  }

  lemma NeverConnectsStep(s: State, step: Step, w: State, a: string)
    requires Next(s, step) == Some(w) && a in s.hs && NeverConnects(s.hs[a])
    ensures a in w.hs && NeverConnects(w.hs[a])
  {
    match Actor(step)
    case None => CancellerFrame(s, step, w);
    case Some(b) =>
      NextHandlers(s, step, w, b);
      if b == a {
        NeverConnectsOwn(s, step, w, a);
      }
  }

  lemma NeverConnectsOwn(s: State, step: Step, w: State, a: string)
    requires Next(s, step) == Some(w) && Actor(step) == Some(a) && a in s.hs && NeverConnects(s.hs[a])
    ensures a in w.hs && NeverConnects(w.hs[a])
  {
    NextHandlers(s, step, w, a);
    if IsSocketStep(step) {
      SocketFrame(s, step, a, w);
      SocketAdjacent(s, step, a, w);
      NeverConnectsSocket(s, step, a, w);
    } else {
      NeverConnectsMove(s, step, a, s.hs[a]);
    }
  }

  lemma NeverConnectsSocket(s: State, step: Step, a: string, w: State)
    requires a in s.hs && a in w.hs && NeverConnects(s.hs[a]) && w.hs[a].effect == s.hs[a].effect
    requires Adjacent(s.hs[a].pc, w.hs[a].pc)
    ensures NeverConnects(w.hs[a])
  {
  }

  lemma NeverConnectsMove(s: State, step: Step, a: string, h: Handler)
    requires HandlerMove(s, step, a, h).Some? && NeverConnects(h)
    ensures NeverConnects(HandlerMove(s, step, a, h).value.h)
  {
    if Late(h.pc) {
      LateStays(s, step, a, h);
    }
  }

  lemma LateStays(s: State, step: Step, a: string, h: Handler)
    requires HandlerMove(s, step, a, h).Some? && Late(h.pc) && !h.effect
    ensures NeverConnects(HandlerMove(s, step, a, h).value.h)
  {
  }

  lemma {:induction false} NeverConnectsLater(s: State, steps: seq<Step>, w: State, a: string)
    requires Exec(s, steps) == Some(w) && a in s.hs && NeverConnects(s.hs[a])
    ensures a in w.hs && !w.hs[a].effect && NeverConnects(w.hs[a])
  {
    if steps != [] {
      var n := |steps| - 1;
      var before := Exec(s, steps[..n]).value;
      NeverConnectsLater(s, steps[..n], before, a);
      NeverConnectsStep(before, steps[n], w, a);
    }
  }

  lemma FailedAppend(s: State, step: Step, a: string, h: Handler, broken: bool, io: Io)
    requires step in {AppendAuth(a, io), AppendPermit(a, io), AppendAttempted(a, io)} && !s.sink.Accepts(io)
    requires HandlerMove(s, step, a, h).Some? && (h.effect ==> StartsAPX(h.story)) && PcShape(h, broken)
    ensures NeverConnects(HandlerMove(s, step, a, h).value.h)
  {
  }

  /** A failed append of AUTH, PERMIT or ATTEMPTED means that the attempt never connects. */
  lemma FailedAppendNeverConnects(init: State, steps: seq<Step>, s: State, step: Step, w: State, later: seq<Step>,
                                  x: State, a: string, io: Io)
    requires Init(init) && Exec(init, steps) == Some(s)
    requires step in {AppendAuth(a, io), AppendPermit(a, io), AppendAttempted(a, io)} && !s.sink.Accepts(io)
    requires Next(s, step) == Some(w) && Exec(w, later) == Some(x)
    ensures a in x.hs && !x.hs[a].effect
  {
    ReachableInv(init, steps, s);
    FailedNeverConnects(s, step, w, later, x, a, io);
  }

  lemma FailedNeverConnects(s: State, step: Step, w: State, later: seq<Step>, x: State, a: string, io: Io)
    requires step in {AppendAuth(a, io), AppendPermit(a, io), AppendAttempted(a, io)} && !s.sink.Accepts(io)
    requires HandlersInv(s) && Next(s, step) == Some(w) && Exec(w, later) == Some(x)
    ensures a in x.hs && !x.hs[a].effect
  {
    assert HandlerInv(s.run, a, s.hs[a], a in s.broken);
    FailedAppend(s, step, a, s.hs[a], a in s.broken, io);
    NeverConnectsLater(w, later, x, a);
  }

  // ---------------------------------------------------------------- enforcement

  /** Everything the kill switch promises to have done. */
  ghost predicate Enforced(s: State) {
    && s.run.cancelled && s.killed && s.conns == {} && |s.can.retained| == |s.can.victims|
    && forall i: nat | i < |s.can.victims| ::
         && s.net.Terminal(s.can.victims[i]) && s.net.Get(s.can.victims[i]).sockets == s.can.retained[i]
         && forall x | x in s.can.retained[i] :: x in s.net.closed
  }

  predicate Enforcing(pc: CPc) { pc in {CWatching, CCancelled, CMarking, CShutting} }

  /** Enforcement before evidence: when the canceller turns to its records, whether or not they
      become durable, enforcement is complete. */
  lemma EnforcedBeforeEvidence(init: State, steps: seq<Step>, s: State)
    requires Init(init) && Exec(init, steps) == Some(s)
    ensures !Enforcing(s.can.pc) ==> Enforced(s)
    ensures Tail(s.sink.log) != [] ==> !Enforcing(s.can.pc)
  {
    ReachableInv(init, steps, s);
    ReachableNet(init, steps, s);
    if !Enforcing(s.can.pc) {
      forall i: nat | i < |s.can.victims|
        ensures s.net.Terminal(s.can.victims[i]) && s.net.Get(s.can.victims[i]).sockets == s.can.retained[i]
        ensures forall x | x in s.can.retained[i] :: x in s.net.closed
      {
        assert VictimMarked(s.net, s.can, i) && VictimShut(s.net, s.can, i);
      }
    }
  }

  /** What cancellation takes away for good: no authorization, no permit, no producer and no
      registered connection is ever added, and terminal connections stay as they are. */
  ghost predicate Revoked(s: State, w: State) {
    && w.killed && w.conns <= s.conns && w.producers <= s.producers
    && w.run.auths == s.run.auths && w.run.permitted == s.run.permitted
    && w.run.inflight.Keys <= s.run.inflight.Keys && w.run.cancellation == s.run.cancellation
    && Grows(s.net, w.net)
  }

  lemma CancelledMove(s: State, step: Step, a: string, h: Handler, m: Move)
    requires s.run.cancelled && HandlerMove(s, step, a, h) == Some(m)
    ensures m.run.auths == s.run.auths && m.run.permitted == s.run.permitted
    ensures m.run.inflight.Keys <= s.run.inflight.Keys && m.run.cancellation == s.run.cancellation
  {
    MoveRunIs(s, step, a, h, m);
    CancelledRun(s.run, a, h.epoch, s.net.Terminal(h.req.conn));
  }

  lemma CancelledRun(run: Run, a: string, e: nat, terminal: bool)
    requires run.cancelled
    ensures forall w | w in {run.Authorize(a, e).0, run.DoRelease(a).0, run.IssuePermit(a, e, terminal).0} ::
              && w.auths == run.auths && w.permitted == run.permitted
              && w.inflight.Keys <= run.inflight.Keys && w.cancellation == run.cancellation
  {
  }

  lemma RevokedStep(s: State, step: Step, w: State)
    requires NetInv(s) && s.killed && s.run.cancelled && s.run.cancellation.Some? && Next(s, step) == Some(w)
    ensures Revoked(s, w)
  {
    NextNet(s, step, w);
    if Actor(step).None? {
      CancellerFrame(s, step, w);
    } else if IsSocketStep(step) {
      SocketFrame(s, step, Actor(step).value, w);
    } else {
      var a := Actor(step).value;
      CancelledMove(s, step, a, s.hs[a], HandlerMove(s, step, a, s.hs[a]).value);
    }
  }

  lemma KilledIsCancelled(s: State)
    requires CancellerLinks(s) && s.killed
    ensures s.run.cancelled && s.run.cancellation.Some?
  {
  }

  lemma RevokedTrans(s: State, t: State, w: State)
    requires Revoked(s, t) && Revoked(t, w)
    ensures Revoked(s, w)
  {
  }

  lemma {:induction false} NothingAdmitted(s: State, steps: seq<Step>, w: State)
    requires Inv(s) && NetInv(s) && s.killed && Exec(s, steps) == Some(w)
    ensures Revoked(s, w) && Inv(w) && NetInv(w)
  {
    if steps != [] {
      var n := |steps| - 1;
      var before := Exec(s, steps[..n]).value;
      NothingAdmitted(s, steps[..n], before);
      KilledIsCancelled(before);
      RevokedStep(before, steps[n], w);
      RevokedTrans(s, before, w);
      NextInv(before, steps[n], w);
      NextNet(before, steps[n], w);
    }
  }

  /** From the kill on, whatever happens, nothing is admitted any more. */
  lemma NothingAdmittedAfterKill(init: State, steps: seq<Step>, s: State, later: seq<Step>, w: State)
    requires Init(init) && Exec(init, steps) == Some(s) && s.killed && Exec(s, later) == Some(w)
    ensures Revoked(s, w) && s.conns == {} && s.run.cancelled
  {
    ReachableInv(init, steps, s);
    ReachableNet(init, steps, s);
    NothingAdmitted(s, later, w);
  }

  /** KILL_SWITCH names as torn exactly the victims of whom its own shutdown found a handle live,
      in snapshot order and without repetition. */
  lemma TornAreVictims(init: State, steps: seq<Step>, s: State, i: nat)
    requires Init(init) && Exec(init, steps) == Some(s) && i < |s.sink.log| && s.sink.log[i].KillSwitch?
    ensures var kill := s.sink.log[i];
            && kill.torn == |kill.tornIds| && Distinct(kill.tornIds) && kill.registered == s.can.victims
            && kill.tornIds == TornOf(s.can.victims, s.can.found, |s.can.victims|)
            && forall id | id in kill.tornIds :: id in kill.registered
  {
    ReachableInv(init, steps, s);
    ReachableNet(init, steps, s);
    var j := InTail(s.sink.log, i);
    assert s.sink.log[i] == Script(s.run, s.can, j);
    TornIsDistinct(s.can.victims, s.can.found, |s.can.victims|);
  }

  /** Socket ownership: in every reachable state each handle ever handed over is retained by a
      connection, closed, or held by the one thread that was refused; and a connection whose
      termination ran to its end has all its handles closed, then and ever after. */
  lemma SocketOwnership(init: State, steps: seq<Step>, s: State, a: string, later: seq<Step>, w: State)
    requires Init(init) && Exec(init, steps) == Some(s) && Exec(s, later) == Some(w)
    ensures Accounted(s.net)
    ensures a in s.hs && (s.hs[a].pc == Removed || (s.hs[a].pc == Closing && s.hs[a].toShut == [])) ==>
              ShutBut(w.net, s.hs[a].req.conn, [])
  {
    ReachableNet(init, steps, s);
    GrowsOverRun(s, later, w);
    if a in s.hs && (s.hs[a].pc == Removed || (s.hs[a].pc == Closing && s.hs[a].toShut == [])) {
      ShutStays(s.net, w.net, s.hs[a].req.conn, []);
    }
  }

  lemma {:induction false} GrowsOverRun(s: State, steps: seq<Step>, w: State)
    requires NetInv(s) && Exec(s, steps) == Some(w)
    ensures NetInv(w) && Grows(s.net, w.net)
  {
    if steps != [] {
      var n := |steps| - 1;
      var before := Exec(s, steps[..n]).value;
      GrowsOverRun(s, steps[..n], before);
      NextNet(before, steps[n], w);
    }
  }
}
