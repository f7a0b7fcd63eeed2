/** The invariant of the whole step system. */
module Invariants {
  import opened Records
  import opened RunModel
  import opened History
  import opened Protocol
  import opened HandlerProofs
  import S = Soundness

  // ---------------------------------------------------------------- handlers and the log

  function StoryOf(hs: map<string, Handler>, a: string): seq<Rec> {
    if a in hs then hs[a].story else []
  }

  ghost predicate HandlersInv(s: State) {
    && RunInv(s.run)
    && (forall a | a in s.hs :: Sane(a, s.hs[a].req) && HandlerInv(s.run, a, s.hs[a], a in s.broken))
    && (forall a | a in s.broken :: a in s.hs)
    && (forall a: string | a !in s.hs :: Num(s.run, AuthEv(a)) == 0)
  }

  /** The log is the stories of the handlers, interleaved. */
  ghost predicate StoriesTold(log: seq<Rec>, hs: map<string, Handler>) {
    forall a: string :: Story(log, a) == StoryOf(hs, a)
  }

  /** Every sequence number in the log is the one its event was given. */
  ghost predicate OwnedTrue(log: seq<Rec>, run: Run) {
    forall i | 0 <= i < |log| && OwnsSeq(log[i]) :: Num(run, EventOf(log[i])) == SeqOf(log[i]) > 0
  }

  /** An authorization that was appended late belongs to a cancelled run and got no permit. */
  ghost predicate LateOk(log: seq<Rec>, run: Run) {
    forall a | a in LateAids(log) :: run.cancelled && Num(run, PermitEv(a)) == 0
  }

  predicate LateAttemptAt(log: seq<Rec>, i: nat)
    requires i < |log|
  {
    log[i].EffectAttempted? && Tail(log[..i]) != []
  }

  ghost predicate AttemptsSeen(s: State) {
    s.lateAttempt <==> exists i: nat | i < |s.sink.log| :: LateAttemptAt(s.sink.log, i)
  }

  predicate StandsEarly(log: seq<Rec>, i: nat)
    requires i < |log|
  {
    IsStoryRec(log[i]) || log[i].Blocked? ==> |Tail(log[..i])| <= 2
  }

  /** No handler writes after KILL_SWITCH, unless the run was not quiescent then. */
  ghost predicate QuietAfterKill(s: State) {
    |Tail(s.sink.log)| <= 2 || s.can.Quiescent() ==>
      forall i: nat | i < |s.sink.log| :: StandsEarly(s.sink.log, i)
  }

  /** A record that belongs to no story and no tail: boot records at the front, and denials. */
  predicate OtherOk(log: seq<Rec>, i: nat, hs: map<string, Handler>)
    requires i < |log|
  {
    && (!IsStoryRec(log[i]) && !IsTailRec(log[i]) ==> log[i].Startup? || log[i].StartupDegraded? || log[i].Blocked?)
    && (IsStartupRec(log[i]) ==> SchemaOk(log[i]) && ContextOk(log[i]) && OnlyDegraded(log[..i]))
    && (log[i].Blocked? ==>
      && log[i].reason != ""
      && (log[i].blockedPin.Some? ==>
        exists a | a in hs :: hs[a].story != [] && log[i].blockedPin.value == hs[a].req.pin))
  }

  ghost predicate OthersOk(log: seq<Rec>, hs: map<string, Handler>) {
    forall i: nat | i < |log| :: OtherOk(log, i, hs)
  }

  ghost predicate LogInv(s: State) {
    && StoriesTold(s.sink.log, s.hs) && OwnedTrue(s.sink.log, s.run) && SeqsDistinct(s.sink.log)
    && LateOk(s.sink.log, s.run) && AttemptsSeen(s) && QuietAfterKill(s) && OthersOk(s.sink.log, s.hs)
  }

  // ---------------------------------------------------------------- the canceller

  predicate Before(pc: CPc) { pc in {CWatching, CCancelled} }

  /** What the canceller has durably appended by the time it stands at a program point. */
  predicate TailIs(t: seq<Rec>, run: Run, c: Canceller) {
    && (if c.pc == CFailed then |t| <= 4 else |t| == Written(c.pc))
    && (t != [] ==> run.cancellation.Some? && forall i: nat | i < |t| :: t[i] == Script(run, c, i))
  }

  /** Once the canceller has counted nobody, there is nobody, and there never will be. */
  ghost predicate CountsHold(s: State) {
    s.can.pc == CDeciding || |Tail(s.sink.log)| >= 3 ==>
      && (s.can.producers == 0 ==> forall a | a in s.hs :: !Producing(s.hs[a]))
      && (s.can.effects == 0 ==> s.run.inflight == map[])
  }

  /** Where the canceller stands says what the run, the registry and the sink are. */
  predicate CancellerLinks(s: State) {
    && (s.run.cancelled <==> s.can.pc != CWatching)
    && (s.run.cancellation.Some? <==> s.run.cancelled)
    && (s.killed <==> !Before(s.can.pc))
    && (s.killed ==> s.conns == {})
    && (s.sink.isSealed <==> s.can.pc == CClosed)
    && (s.sink.isSealed ==> s.sink.healthy)
    && (s.can.pc in {CAcked, CClosed} ==> s.can.Quiescent())
    && (s.can.pc == CEffectsSeen && s.can.effects == 0 ==> s.run.inflight == map[])
    && (s.can.stopped ==> s.listenerClosed)
  }

  ghost predicate CancellerInv(s: State) {
    CancellerLinks(s) && TailIs(Tail(s.sink.log), s.run, s.can) && CountsHold(s)
  }

  // ---------------------------------------------------------------- producers

  function ProducingSet(hs: map<string, Handler>): set<string> {
    set a | a in hs && Producing(hs[a])
  }

  /** The registry counts exactly the handlers that may append. */
  predicate ProducersInv(s: State) {
    s.producers == |ProducingSet(s.hs)|
  }

  ghost predicate Inv(s: State) {
    HandlersInv(s) && LogInv(s) && CancellerInv(s) && ProducersInv(s)
  }

  // ---------------------------------------------------------------- appending to the log

  lemma {:induction false} InStory(log: seq<Rec>, i: nat) returns (j: nat)
    requires i < |log| && IsStoryRec(log[i])
    ensures j < |Story(log, AidOf(log[i]))| && Story(log, AidOf(log[i]))[j] == log[i]
  {
    var n := |log| - 1;
    if i == n {
      j := |Story(log, AidOf(log[i]))| - 1;
    } else {
      j := InStory(log[..n], i);
    }
  }

  lemma SameEvent(run: Run, e: Event, f: Event)
    requires Numbered(run) && Num(run, e) == Num(run, f) > 0
    ensures e == f
  {
  }

  /** A freshly numbered record does not repeat a sequence number of the log. */
  lemma FreshSeq(s: State, a: string, r: Rec)
    requires HandlersInv(s) && StoriesTold(s.sink.log, s.hs) && OwnedTrue(s.sink.log, s.run)
    requires FreshlyOwned(s.run, a, StoryOf(s.hs, a), r) && OwnsSeq(r)
    ensures SeqOf(r) !in Owned(s.sink.log)
  {
    var log := s.sink.log;
    forall i | 0 <= i < |log| && OwnsSeq(log[i]) ensures SeqOf(log[i]) != SeqOf(r) {
      if IsStoryRec(log[i]) && AidOf(log[i]) == a {
        var j := InStory(log, i);
      }
      if SeqOf(log[i]) == SeqOf(r) {
        SameEvent(s.run, EventOf(log[i]), EventOf(r));
        assert false;
      }
    }
  }

  // ---------------------------------------------------------------- a handler's move, globally

  /** A legal move of handler a from state s. */
  ghost predicate Moves(s: State, a: string, m: Move) {
    && a in s.hs
    && MoveOk(s, a, s.hs[a], a in s.broken, m) && OnlyAbout(s.run, m.run, a)
  }

  lemma ApplyHandlers(s: State, a: string, m: Move)
    requires HandlersInv(s) && Moves(s, a, m)
    ensures HandlersInv(Apply(s, a, m))
  {
    var w := Apply(s, a, m);
    forall b | b in w.hs ensures Sane(b, w.hs[b].req) && HandlerInv(w.run, b, w.hs[b], b in w.broken) {
      if b != a {
        assert SameAttempt(s.run, w.run, b);
      }
    }
    forall b: string | b !in w.hs ensures Num(w.run, AuthEv(b)) == 0 {
      assert SameAttempt(s.run, w.run, b);
    }
  }

  lemma ApplyProducers(s: State, a: string, m: Move)
    requires a in s.hs && ProducersInv(s) && (Producing(m.h) <==> Producing(s.hs[a]))
    ensures ProducersInv(Apply(s, a, m))
  {
    assert ProducingSet(Apply(s, a, m).hs) == ProducingSet(s.hs);
  }

  /** What a move appends, if anything. */
  function Added(s: State, m: Move): Option<Rec> {
    if m.rec.Some? && s.sink.Accepts(m.io) then m.rec else None
  }

  function Appended(log: seq<Rec>, r: Option<Rec>): seq<Rec> {
    if r.Some? then log + [r.value] else log
  }

  lemma ApplySink(s: State, a: string, m: Move)
    ensures Apply(s, a, m).sink.log == Appended(s.sink.log, Added(s, m))
    ensures s.sink.isSealed == Apply(s, a, m).sink.isSealed
    ensures Apply(s, a, m).sink.healthy ==> s.sink.healthy
    ensures s.sink.isSealed ==> Apply(s, a, m).sink == s.sink
  {
  }

  lemma StoriesAppended(log: seq<Rec>, hs: map<string, Handler>, a: string, g: Handler, r: Option<Rec>)
    requires StoriesTold(log, hs) && a in hs
    requires r.Some? && IsStoryRec(r.value) ==> AidOf(r.value) == a && g.story == hs[a].story + [r.value]
    requires r.None? || !IsStoryRec(r.value) ==> g.story == hs[a].story
    ensures StoriesTold(Appended(log, r), hs[a := g])
  {
    forall b: string ensures Story(Appended(log, r), b) == StoryOf(hs[a := g], b) {
      assert Story(log, b) == StoryOf(hs, b);
      if r.Some? {
        StorySnoc(log, r.value, b);
      }
    }
  }

  lemma OwnedAppended(log: seq<Rec>, run: Run, w: Run, r: Option<Rec>)
    requires OwnedTrue(log, run) && NumbersStay(run, w) && SeqsDistinct(log)
    requires r.Some? && OwnsSeq(r.value) ==>
               Num(w, EventOf(r.value)) == SeqOf(r.value) > 0 && SeqOf(r.value) !in Owned(log)
    ensures OwnedTrue(Appended(log, r), w) && SeqsDistinct(Appended(log, r))
  {
    if r.Some? {
      S.SeqsSnoc(log, r.value);
    }
  }

  lemma LateAppended(log: seq<Rec>, run: Run, w: Run, r: Option<Rec>)
    requires LateOk(log, run) && (run.cancelled ==> w.cancelled)
    requires run.cancelled ==> forall b: string :: Num(w, PermitEv(b)) == Num(run, PermitEv(b))
    requires r.Some? && r.value.AuthCommitted? && Tail(log) != [] ==>
               w.cancelled && Num(w, PermitEv(r.value.aid)) == 0
    ensures LateOk(Appended(log, r), w)
  {
    if r.Some? {
      LateSnoc(log, r.value);
    }
  }

  lemma AttemptsAppended(log: seq<Rec>, r: Rec)
    ensures (exists i: nat | i < |log + [r]| :: LateAttemptAt(log + [r], i)) <==>
            (exists i: nat | i < |log| :: LateAttemptAt(log, i)) || (r.EffectAttempted? && Tail(log) != [])
  {
    var longer := log + [r];
    assert longer[..|log|] == log && longer[|log|] == r;
    forall i: nat | i < |log| ensures LateAttemptAt(longer, i) <==> LateAttemptAt(log, i) {
      assert longer[..i] == log[..i];
    }
    if r.EffectAttempted? && Tail(log) != [] {
      assert LateAttemptAt(longer, |log|);
    }
    if exists i: nat | i < |log| :: LateAttemptAt(log, i) {
      var i: nat :| i < |log| && LateAttemptAt(log, i);
      assert LateAttemptAt(longer, i);
    }
  }

  lemma EarlyAppended(log: seq<Rec>, r: Rec)
    requires forall i: nat | i < |log| :: StandsEarly(log, i)
    requires IsStoryRec(r) || r.Blocked? ==> |Tail(log)| <= 2
    ensures forall i: nat | i < |log + [r]| :: StandsEarly(log + [r], i)
  {
    var longer := log + [r];
    assert longer[..|log|] == log && longer[|log|] == r;
    forall i: nat | i < |longer| ensures StandsEarly(longer, i) {
      if i < |log| {
        assert longer[..i] == log[..i] && StandsEarly(log, i);
      }
    }
  }

  lemma OthersKept(log: seq<Rec>, hs: map<string, Handler>, gs: map<string, Handler>)
    requires OthersOk(log, hs) && hs.Keys == gs.Keys
    requires forall a | a in hs :: gs[a].req == hs[a].req && (hs[a].story != [] ==> gs[a].story != [])
    ensures OthersOk(log, gs)
  {
    forall i: nat | i < |log| ensures OtherOk(log, i, gs) {
      assert OtherOk(log, i, hs);
      if log[i].Blocked? && log[i].blockedPin.Some? {
        var a :| a in hs && hs[a].story != [] && log[i].blockedPin.value == hs[a].req.pin;
        assert a in gs && gs[a].story != [];
      }
    }
  }

  lemma OthersAppended(log: seq<Rec>, hs: map<string, Handler>, r: Rec)
    requires OthersOk(log, hs) && OtherOk(log + [r], |log|, hs)
    ensures OthersOk(log + [r], hs)
  {
    var longer := log + [r];
    forall i: nat | i < |log| ensures OtherOk(longer, i, hs) {
      assert longer[..i] == log[..i] && OtherOk(log, i, hs);
    }
  }

  lemma ApplyStories(s: State, a: string, m: Move)
    requires a in s.hs && StoriesTold(s.sink.log, s.hs) && MoveOk(s, a, s.hs[a], a in s.broken, m)
    ensures StoriesTold(Apply(s, a, m).sink.log, Apply(s, a, m).hs)
  {
    ApplySink(s, a, m);
    StoriesAppended(s.sink.log, s.hs, a, Apply(s, a, m).hs[a], Added(s, m));
  }

  lemma ApplyOwned(s: State, a: string, m: Move)
    requires a in s.hs && HandlersInv(s) && StoriesTold(s.sink.log, s.hs) && OwnedTrue(s.sink.log, s.run)
    requires SeqsDistinct(s.sink.log) && MoveOk(s, a, s.hs[a], a in s.broken, m) && NumbersStay(s.run, m.run)
    ensures OwnedTrue(Apply(s, a, m).sink.log, m.run) && SeqsDistinct(Apply(s, a, m).sink.log)
  {
    ApplySink(s, a, m);
    if Added(s, m).Some? && OwnsSeq(Added(s, m).value) {
      FreshSeq(s, a, Added(s, m).value);
    }
    OwnedAppended(s.sink.log, s.run, m.run, Added(s, m));
  }

  lemma ApplyLate(s: State, a: string, m: Move)
    requires a in s.hs && LateOk(s.sink.log, s.run) && MoveOk(s, a, s.hs[a], a in s.broken, m)
    requires OnlyAbout(s.run, m.run, a) && (Tail(s.sink.log) != [] ==> s.run.cancelled)
    ensures LateOk(Apply(s, a, m).sink.log, m.run)
  {
    ApplySink(s, a, m);
    if s.run.cancelled {
      forall b: string ensures Num(m.run, PermitEv(b)) == Num(s.run, PermitEv(b)) {
        assert b != a ==> SameAttempt(s.run, m.run, b);
      }
    }
    LateAppended(s.sink.log, s.run, m.run, Added(s, m));
  }

  lemma ApplyAttempts(s: State, a: string, m: Move)
    requires AttemptsSeen(s)
    ensures AttemptsSeen(Apply(s, a, m))
  {
    ApplySink(s, a, m);
    if Added(s, m).Some? {
      AttemptsAppended(s.sink.log, Added(s, m).value);
    }
  }

  /** While a handler still produces, the canceller has not found the run quiescent. */
  lemma ApplyQuiet(s: State, a: string, m: Move)
    requires a in s.hs && QuietAfterKill(s) && CountsHold(s) && MoveOk(s, a, s.hs[a], a in s.broken, m)
    ensures QuietAfterKill(Apply(s, a, m))
  {
    ApplySink(s, a, m);
    if Added(s, m).Some? {
      var r := Added(s, m).value;
      TailSnoc(s.sink.log, r);
      if |Tail(s.sink.log)| <= 2 {
        EarlyAppended(s.sink.log, r);
      }
    }
  }

  lemma ApplyOthers(s: State, a: string, m: Move)
    requires a in s.hs && OthersOk(s.sink.log, s.hs) && MoveOk(s, a, s.hs[a], a in s.broken, m)
    ensures OthersOk(Apply(s, a, m).sink.log, Apply(s, a, m).hs)
  {
    var w := Apply(s, a, m);
    ApplySink(s, a, m);
    OthersKept(s.sink.log, s.hs, w.hs);
    if Added(s, m).Some? {
      OthersAppended(s.sink.log, w.hs, Added(s, m).value);
    }
  }

  /** The canceller's records are the same in a run with the same cancellation. */
  lemma TailKept(t: seq<Rec>, run: Run, w: Run, c: Canceller)
    requires TailIs(t, run, c) && SameRest(run, w)
    ensures TailIs(t, w, c)
  {
    if t != [] {
      forall i: nat | i < |t| ensures t[i] == Script(w, c, i) {
        assert t[i] == Script(run, c, i);
      }
    }
  }

  lemma ApplyTail(s: State, a: string, m: Move)
    requires a in s.hs && MoveOk(s, a, s.hs[a], a in s.broken, m)
    ensures Tail(Apply(s, a, m).sink.log) == Tail(s.sink.log)
  {
    ApplySink(s, a, m);
    if Added(s, m).Some? {
      TailSnoc(s.sink.log, Added(s, m).value);
    }
  }

  lemma ApplyLinks(s: State, a: string, m: Move)
    requires a in s.hs && CancellerLinks(s) && SameRest(s.run, m.run)
    requires s.run.cancelled && s.run.inflight == map[] ==> m.run.inflight == map[]
    ensures CancellerLinks(Apply(s, a, m))
  {
    ApplySink(s, a, m);
  }

  lemma ApplyCounts(s: State, a: string, m: Move)
    requires a in s.hs && CountsHold(s) && (Producing(m.h) <==> Producing(s.hs[a]))
    requires Tail(Apply(s, a, m).sink.log) == Tail(s.sink.log)
    requires s.can.pc == CDeciding || |Tail(s.sink.log)| >= 3 ==> s.run.cancelled
    requires s.run.cancelled && s.run.inflight == map[] ==> m.run.inflight == map[]
    ensures CountsHold(Apply(s, a, m))
  {
  }

  lemma ApplyCanceller(s: State, a: string, m: Move)
    requires a in s.hs && MoveOk(s, a, s.hs[a], a in s.broken, m)
    requires OnlyAbout(s.run, m.run, a) && RunInv(s.run) && CancellerInv(s)
    ensures CancellerInv(Apply(s, a, m))
  {
    ApplyTail(s, a, m);
    if s.run.cancelled && s.run.inflight == map[] {
      NothingReenters(s, a, m);
    }
    ApplyLinks(s, a, m);
    TailKept(Tail(s.sink.log), s.run, m.run, s.can);
    ApplyCounts(s, a, m);
  }

  lemma NothingReenters(s: State, a: string, m: Move)
    requires RunInv(s.run) && OnlyAbout(s.run, m.run, a) && s.run.cancelled && s.run.inflight == map[]
    requires Num(m.run, PermitEv(a)) == Num(s.run, PermitEv(a))
    ensures m.run.inflight == map[]
  {
    forall b: string ensures b !in m.run.inflight {
      assert AttemptInv(s.run, b) && AttemptInv(m.run, b);
      if b != a {
        assert SameAttempt(s.run, m.run, b);
      }
    }
  }

  lemma ApplyInv(s: State, a: string, m: Move)
    requires Inv(s) && Moves(s, a, m)
    ensures Inv(Apply(s, a, m))
  {
    ApplyHandlers(s, a, m);
    ApplyProducers(s, a, m);
    ApplyStories(s, a, m);
    ApplyOwned(s, a, m);
    ApplyLate(s, a, m);
    ApplyAttempts(s, a, m);
    ApplyQuiet(s, a, m);
    ApplyOthers(s, a, m);
    ApplyCanceller(s, a, m);
  }
}
