/** One run of one attempt, in all its ways: the target times out, breaks the stream or answers, or the
    outcome is settled twice or not at all; the attempt is appended before or after the request; the
    release is durable or lost. */
module Scenario {
  import opened Records
  import opened RunModel
  import opened History
  import opened Connections
  import opened Protocol

  /** A run with one handler, whose sink has not failed and is not sealed. */
  function World(a: string, h: Handler, run: Run, log: seq<Rec>, net: Net, can: Canceller): State {
    State(run, false, 1, {h.req.conn}, net, Sink(log, true, false), map[a := h], can, false, false, {})
  }

  const BOOT := [Startup("SERVING", 64)]
  const NO_NET := Net(map[], {}, {}, {})

  function Start(a: string, q: Request): State {
    World(a, Fresh(q), FRESH, BOOT, NO_NET, WATCHING).(producers := 0, conns := {})
  }

  ghost predicate Leads(init: State, steps: seq<Step>, s: State) {
    Exec(init, steps) == Some(s)
  }

  lemma Then(init: State, steps: seq<Step>, s: State, step: Step, w: State) returns (longer: seq<Step>)
    requires Leads(init, steps, s) && Next(s, step) == Some(w)
    ensures longer == steps + [step] && Leads(init, longer, w)
  {
    longer := steps + [step];
    assert longer[..|steps|] == steps;
  }

  lemma ThenSocket(init: State, steps: seq<Step>, s: State, step: Step, a: string, w: State) returns (longer: seq<Step>)
    requires Leads(init, steps, s) && a in s.hs && Actor(step) == Some(a) && IsSocketStep(step)
    requires SocketStep(s, step, a, s.hs[a]) == Some(w)
    ensures longer == steps + [step] && Leads(init, longer, w)
  {
    longer := Then(init, steps, s, step, w);
  }

  lemma ThenEnforce(init: State, steps: seq<Step>, s: State, step: Step, w: State) returns (longer: seq<Step>)
    requires Leads(init, steps, s) && IsEnforceStep(step) && EnforceStep(s, step) == Some(w)
    ensures longer == steps + [step] && Leads(init, longer, w)
  {
    longer := Then(init, steps, s, step, w);
  }

  lemma ThenEvidence(init: State, steps: seq<Step>, s: State, step: Step, w: State) returns (longer: seq<Step>)
    requires Leads(init, steps, s) && EvidenceStep(s, step) == Some(w)
    requires step.AppendEvidence? || step.SeeListener? || step.SeeEffects? || step.SeeProducers?
    ensures longer == steps + [step] && Leads(init, longer, w)
  {
    longer := Then(init, steps, s, step, w);
  }

  lemma ThenMove(init: State, steps: seq<Step>, s: State, step: Step, a: string, m: Move)
    returns (longer: seq<Step>)
    requires Leads(init, steps, s) && a in s.hs && Actor(step) == Some(a) && !IsSocketStep(step)
    requires HandlerMove(s, step, a, s.hs[a]) == Some(m)
    ensures longer == steps + [step] && Leads(init, longer, Apply(s, a, m))
  {
    longer := Then(init, steps, s, step, Apply(s, a, m));
  }

  /** A step of the handler that appends nothing. */
  lemma Silently(init: State, before: seq<Step>, s: State, step: Step, a: string, h: Handler, run: Run, g: Handler)
    returns (steps: seq<Step>, w: State)
    requires Leads(init, before, s) && s.hs == map[a := h] && Actor(step) == Some(a) && !IsSocketStep(step)
    requires HandlerMove(s, step, a, h) == Some(Move(run, g, None, Durable, NoFault))
    ensures w == s.(run := run, hs := map[a := g]) && Leads(init, steps, w)
  {
    var m := Move(run, g, None, Durable, NoFault);
    w := s.(run := run, hs := map[a := g]);
    assert s.hs[a := g] == map[a := g] && g.(story := g.story) == g;
    assert Apply(s, a, m) == w;
    steps := ThenMove(init, before, s, step, a, m);
  }

  /** A step of the handler whose append goes through. */
  lemma Durably(init: State, before: seq<Step>, s: State, step: Step, a: string, h: Handler, g: Handler, r: Rec,
                fault: Fault := NoFault)
    returns (steps: seq<Step>, w: State)
    requires Leads(init, before, s) && s.hs == map[a := h] && Actor(step) == Some(a) && !IsSocketStep(step)
    requires HandlerMove(s, step, a, h) == Some(Move(s.run, g, Some(r), Durable, fault)) && fault != Breaks
    requires s.sink.healthy && !s.sink.isSealed && IsStoryRec(r)
    ensures w == s.(sink := s.sink.(log := s.sink.log + [r]), hs := map[a := g.(story := g.story + [r])],
                    lateAttempt := s.lateAttempt || (r.EffectAttempted? && Tail(s.sink.log) != []),
                    broken := if fault.Mends? then s.broken - {a} else s.broken)
    ensures Leads(init, steps, w)
  {
    var m := Move(s.run, g, Some(r), Durable, fault);
    w := Apply(s, a, m);
    assert s.hs[a := g.(story := g.story + [r])] == map[a := g.(story := g.story + [r])];
    steps := ThenMove(init, before, s, step, a, m);
  }

  lemma InVain(s: State, a: string, m: Move)
    requires m.io == OpenFails && !m.fault.Mends? && m.run == s.run
    ensures Apply(s, a, m) == s.(hs := s.hs[a := m.h], broken := if m.fault.Breaks? then s.broken + {a} else s.broken)
  {
    assert m.h.(story := m.h.story) == m.h;
    assert a !in s.broken ==> s.broken - {a} == s.broken;
    assert a in s.broken ==> s.broken + {a} == s.broken;
  }

  /** A step of the handler whose append cannot open the file. */
  lemma Vainly(init: State, before: seq<Step>, s: State, step: Step, a: string, h: Handler, g: Handler, r: Rec,
               fault: Fault)
    returns (steps: seq<Step>, w: State)
    requires Leads(init, before, s) && s.hs == map[a := h] && Actor(step) == Some(a) && !IsSocketStep(step)
    requires HandlerMove(s, step, a, h) == Some(Move(s.run, g, Some(r), OpenFails, fault)) && !fault.Mends?
    ensures w == s.(hs := map[a := g], broken := if fault == Breaks then s.broken + {a} else s.broken)
    ensures Leads(init, steps, w)
  {
    var m := Move(s.run, g, Some(r), OpenFails, fault);
    w := s.(hs := map[a := g], broken := if fault == Breaks then s.broken + {a} else s.broken);
    InVain(s, a, m);
    assert s.hs[a := g] == map[a := g];
    steps := ThenMove(init, before, s, step, a, m);
  }

  // ---------------------------------------------------------------- the request is admitted

  lemma Admitted(a: string, q: Request) returns (steps: seq<Step>)
    ensures Leads(Start(a, q), steps, World(a, Fresh(q).(pc := Registered), FRESH, BOOT, NO_NET, WATCHING))
  {
    var s, h := Start(a, q), Fresh(q);
    var t := World(a, h.(pc := Working), FRESH, BOOT, NO_NET, WATCHING).(conns := {});
    var w := World(a, h.(pc := Registered), FRESH, BOOT, NO_NET, WATCHING);
    assert s.hs[a := h.(pc := Working)] == t.hs && t.hs[a := h.(pc := Registered)] == w.hs;
    assert {} + {q.conn} == {q.conn};
    steps := ThenSocket(s, [], s, BeginProducer(a), a, t);
    steps := ThenSocket(s, steps, t, AddConnection(a), a, w);
  }

  function R1(a: string): Run { FRESH.Authorize(a, 0).0 }
  function H1(q: Request): Handler { Fresh(q).(pc := AuthOwed, a := 1) }

  lemma SeesHealth(init: State, before: seq<Step>, s: State, a: string, h: Handler)
    returns (steps: seq<Step>, w: State)
    requires Leads(init, before, s) && s.hs == map[a := h] && h.pc == Registered && s.run.epoch == 0 && h.epoch == 0
    requires s.sink.healthy
    ensures w == s.(hs := map[a := h.(pc := HealthSeen)]) && Leads(init, steps, w)
  {
    var g := h.(pc := EpochRead);
    steps, w := Silently(init, before, s, ReadEpoch(a), a, h, s.run, g);
    steps, w := Silently(init, steps, w, CheckHealth(a), a, g, s.run, g.(pc := HealthSeen));
  }

  lemma GetsAuthorized(init: State, before: seq<Step>, s: State, a: string, h: Handler)
    returns (steps: seq<Step>, w: State)
    requires Leads(init, before, s) && s.hs == map[a := h] && h.pc == HealthSeen && h.epoch == 0 && s.run == FRESH
    ensures w == s.(run := R1(a), hs := map[a := h.(pc := AuthOwed, a := 1)]) && Leads(init, steps, w)
  {
    steps, w := Silently(init, before, s, Step.Authorize(a), a, h, R1(a), h.(pc := AuthOwed, a := 1));
  }

  lemma AuthorizedNext(a: string, q: Request) returns (steps: seq<Step>)
    ensures Leads(Start(a, q), steps, World(a, H1(q), R1(a), BOOT, NO_NET, WATCHING))
  {
    var init, h := Start(a, q), Fresh(q).(pc := Registered);
    steps := Admitted(a, q);
    var s := World(a, h, FRESH, BOOT, NO_NET, WATCHING);
    steps, s := SeesHealth(init, steps, s, a, h);
    steps, s := GetsAuthorized(init, steps, s, a, h.(pc := HealthSeen));
  }

  // ---------------------------------------------------------------- AUTH and PERMIT

  function H2(a: string, q: Request): Handler { H1(q).(pc := Pc.Authorized, story := [AuthRec(a, H1(q))]) }
  function H3(a: string, q: Request): Handler { H2(a, q).(pc := PermitOwed, p := 2) }
  function H4(a: string, q: Request): Handler {
    H3(a, q).(pc := Cleared, story := H2(a, q).story + [PermitRec(a, H3(a, q))])
  }
  function R2(a: string): Run { R1(a).IssuePermit(a, 0, false).0 }
  function Net1(q: Request): Net { Net(map[q.conn := Conn(false, [0])], {0}, {}, {}) }

  lemma TracksUpstream(init: State, before: seq<Step>, s: State, a: string, h: Handler)
    returns (steps: seq<Step>, w: State)
    requires Leads(init, before, s) && s.hs == map[a := h] && h.pc == Pc.Authorized && s.net == NO_NET
    ensures w == s.(net := Net1(h.req), hs := map[a := h.(pc := Tracked)]) && Leads(init, steps, w)
  {
    w := s.(net := Net1(h.req), hs := map[a := h.(pc := Tracked)]);
    assert s.hs[a := h.(pc := Tracked)] == w.hs;
    assert {} + {0 as Handle} == {0};
    assert [] + [0 as Handle] == [0];
    steps := ThenSocket(init, before, s, TrackUpstream(a, 0), a, w);
  }

  lemma Tracks(a: string, q: Request) returns (steps: seq<Step>)
    ensures Leads(Start(a, q), steps,
                  World(a, H2(a, q).(pc := Tracked), R1(a), BOOT + H2(a, q).story, Net1(q), WATCHING))
  {
    var init, h := Start(a, q), H1(q);
    steps := AuthorizedNext(a, q);
    var s := World(a, h, R1(a), BOOT, NO_NET, WATCHING);
    steps, s := Durably(init, steps, s, AppendAuth(a, Durable), a, h, h.(pc := Pc.Authorized), AuthRec(a, h));
    assert h.story + [AuthRec(a, h)] == H2(a, q).story;
    steps, s := TracksUpstream(init, steps, s, a, H2(a, q));
  }

  lemma GetsPermit(init: State, before: seq<Step>, s: State, a: string, h: Handler)
    returns (steps: seq<Step>, w: State)
    requires Leads(init, before, s) && s.hs == map[a := h] && h.pc == Tracked && h.epoch == 0 && s.run == R1(a)
    requires h.req.generation != "" && h.req.budget != "" && !s.net.Terminal(h.req.conn)
    ensures w == s.(run := R2(a), hs := map[a := h.(pc := PermitOwed, p := 2)]) && Leads(init, steps, w)
  {
    steps, w := Silently(init, before, s, Step.IssuePermit(a), a, h, R2(a), h.(pc := PermitOwed, p := 2));
  }

  lemma RecordsPermit(init: State, before: seq<Step>, s: State, a: string, h: Handler)
    returns (steps: seq<Step>, w: State)
    requires Leads(init, before, s) && s.hs == map[a := h] && h.pc == PermitOwed && s.sink.healthy && !s.sink.isSealed
    ensures w == s.(sink := s.sink.(log := s.sink.log + [PermitRec(a, h)]),
                    hs := map[a := h.(pc := Pc.Permitted, story := h.story + [PermitRec(a, h)])])
    ensures Leads(init, steps, w)
  {
    steps, w := Durably(init, before, s, AppendPermit(a, Durable), a, h, h.(pc := Pc.Permitted), PermitRec(a, h));
  }

  lemma SeesLive(init: State, before: seq<Step>, s: State, a: string, h: Handler)
    returns (steps: seq<Step>, w: State)
    requires Leads(init, before, s) && s.hs == map[a := h] && h.pc == Pc.Permitted && !s.net.Terminal(h.req.conn)
    ensures w == s.(hs := map[a := h.(pc := Cleared)]) && Leads(init, steps, w)
  {
    steps, w := Silently(init, before, s, CheckTerminal(a), a, h, s.run, h.(pc := Cleared));
  }

  lemma Clears(a: string, q: Request) returns (steps: seq<Step>)
    requires q.generation != "" && q.budget != ""
    ensures Leads(Start(a, q), steps, World(a, H4(a, q), R2(a), BOOT + H4(a, q).story, Net1(q), WATCHING))
  {
    var init, h := Start(a, q), H2(a, q).(pc := Tracked);
    steps := Tracks(a, q);
    var s := World(a, h, R1(a), BOOT + h.story, Net1(q), WATCHING);
    steps, s := GetsPermit(init, steps, s, a, h);
    steps, s := RecordsPermit(init, steps, s, a, H3(a, q));
    steps, s := SeesLive(init, steps, s, a, H4(a, q).(pc := Pc.Permitted));
    assert s.sink.log == BOOT + H4(a, q).story;
  }

  // ---------------------------------------------------------------- the run is cancelled

  function Net2(c: string): Net { Net(map[c := Conn(true, [0])], {0}, {}, {0}) }
  function C1(c: string): Canceller {
    Canceller(CMarking, [c], [[0]], 0, 0, false, [], {}, false, false, 0, 0)
  }
  function C2(c: string): Canceller {
    Canceller(CRequesting, [c], [[0]], 1, 0, false, [c], {(0, 0)}, true, false, 0, 0)
  }

  lemma Marks(init: State, before: seq<Step>, s: State, c: string) returns (steps: seq<Step>, w: State)
    requires Leads(init, before, s) && s.can == WATCHING && s.conns == {c}
    requires s.net == Net(map[c := Conn(false, [0])], {0}, {}, {})
    ensures w == s.(run := s.run.Cancel().0, conns := {}, killed := true, net := Net2(c).(closed := {}), can := C1(c))
    ensures Leads(init, steps, w)
  {
    w := s.(run := s.run.Cancel().0, can := WATCHING.(pc := CCancelled));
    steps := ThenEnforce(init, before, s, CancelRun, w);
    steps, w := ClosesAdmission(init, steps, w, c);
    steps, w := MarksVictim(init, steps, w, c);
  }

  lemma ClosesAdmission(init: State, before: seq<Step>, s: State, c: string) returns (steps: seq<Step>, w: State)
    requires Leads(init, before, s) && s.can == WATCHING.(pc := CCancelled) && s.conns == {c}
    ensures w == s.(conns := {}, killed := true, can := C1(c).(retained := [])) && Leads(init, steps, w)
  {
    w := s.(conns := {}, killed := true, can := C1(c).(retained := []));
    assert (set id | id in [c]) == {c};
    steps := ThenEnforce(init, before, s, CloseAdmission([c]), w);
  }

  lemma MarksVictim(init: State, before: seq<Step>, s: State, c: string) returns (steps: seq<Step>, w: State)
    requires Leads(init, before, s) && s.can == C1(c).(retained := [])
    requires s.net == Net(map[c := Conn(false, [0])], {0}, {}, {})
    ensures w == s.(net := Net2(c).(closed := {}), can := C1(c)) && Leads(init, steps, w)
  {
    w := s.(net := Net2(c).(closed := {}), can := C1(c));
    assert s.net.conns[c := Conn(true, [0])] == w.net.conns && s.can.retained + [[0]] == w.can.retained;
    steps := ThenEnforce(init, before, s, MarkVictim, w);
  }

  lemma ShutsOne(init: State, before: seq<Step>, s: State, c: string) returns (steps: seq<Step>, w: State)
    requires Leads(init, before, s) && s.can == C1(c).(pc := CShutting) && s.net == Net2(c).(closed := {})
    ensures w == s.(net := Net2(c), can := C1(c).(pc := CShutting, at := 1, sawLive := true, found := {(0, 0)}))
    ensures Leads(init, steps, w)
  {
    w := s.(net := Net2(c), can := C1(c).(pc := CShutting, at := 1, sawLive := true, found := {(0, 0)}));
    assert s.net.closed + {0} == w.net.closed;
    assert s.can.found + {(0, 0)} == w.can.found;
    assert s.can.retained[0][0] == 0 && EnforceStep(s, ShutOne(true)) == Some(w);
    steps := ThenEnforce(init, before, s, ShutOne(true), w);
  }

  lemma ShutsDown(init: State, before: seq<Step>, s: State, c: string) returns (steps: seq<Step>, w: State)
    requires Leads(init, before, s) && s.can == C1(c) && s.net == Net2(c).(closed := {})
    ensures w == s.(net := Net2(c), can := C2(c).(pc := CShutting, stopStarted := false)) && Leads(init, steps, w)
  {
    w := s.(can := C1(c).(pc := CShutting));
    steps := ThenEnforce(init, before, s, EndMarking, w);
    steps, w := ShutsOne(init, steps, w, c);
    steps, w := NotesTorn(init, steps, w, c);
  }

  lemma NotesTorn(init: State, before: seq<Step>, s: State, c: string) returns (steps: seq<Step>, w: State)
    requires Leads(init, before, s)
    requires s.can == C1(c).(pc := CShutting, at := 1, sawLive := true, found := {(0, 0)})
    ensures w == s.(can := C2(c).(pc := CShutting, stopStarted := false)) && Leads(init, steps, w)
  {
    w := s.(can := s.can.(torn := [] + [c], done := 1, at := 0, sawLive := false));
    steps := ThenEnforce(init, before, s, NextVictim, w);
    assert [] + [c] == [c];
  }

  lemma StopsListening(init: State, before: seq<Step>, s: State, c: string) returns (steps: seq<Step>, w: State)
    requires Leads(init, before, s) && s.can == C2(c).(pc := CShutting, stopStarted := false)
    ensures w == s.(can := C2(c)) && Leads(init, steps, w)
  {
    var t := s.(can := C2(c).(pc := CStopping, stopStarted := false));
    steps := ThenEnforce(init, before, s, EndShutting, t);
    w := t.(can := C2(c));
    steps := ThenEnforce(init, steps, t, StopListener(true), w);
  }

  // ---------------------------------------------------------------- records, effect and release

  /** An append of the canceller that goes through. */
  lemma Evidence(init: State, before: seq<Step>, s: State) returns (steps: seq<Step>, w: State)
    requires Leads(init, before, s) && s.run.cancellation.Some? && AtAppend(s.can.pc) && s.can.pc != CAcked
    requires s.sink.healthy && !s.sink.isSealed
    ensures w == s.(sink := s.sink.(log := s.sink.log + [Script(s.run, s.can, Written(s.can.pc))]),
                    can := s.can.(pc := Onward(s.can)))
    ensures Leads(init, steps, w)
  {
    w := s.(sink := s.sink.(log := s.sink.log + [Script(s.run, s.can, Written(s.can.pc))]),
            can := s.can.(pc := Onward(s.can)));
    steps := ThenEvidence(init, before, s, AppendEvidence(Durable), w);
  }

  lemma Seals(init: State, before: seq<Step>, s: State) returns (steps: seq<Step>, w: State)
    requires Leads(init, before, s) && s.run.cancellation.Some? && s.can.pc == CAcked
    requires s.sink.healthy && !s.sink.isSealed
    ensures w == s.(sink := Sink(s.sink.log + [ClosedRec(s.run)], true, true), can := s.can.(pc := CClosed))
    ensures Leads(init, steps, w)
  {
    w := s.(sink := Sink(s.sink.log + [ClosedRec(s.run)], true, true), can := s.can.(pc := CClosed));
    steps := ThenEvidence(init, before, s, AppendEvidence(Durable), w);
  }

  /** EFFECT_ATTEMPTED goes through, before or after the request. */
  lemma Attempts(init: State, before: seq<Step>, s: State, a: string, h: Handler)
    returns (steps: seq<Step>, w: State)
    requires Leads(init, before, s) && s.hs == map[a := h] && h.pc == Cleared && s.sink.healthy && !s.sink.isSealed
    ensures w == s.(sink := s.sink.(log := s.sink.log + [AttemptRec(a, h)]),
                    hs := map[a := h.(pc := Pc.Attempted, story := h.story + [AttemptRec(a, h)])],
                    lateAttempt := s.lateAttempt || Tail(s.sink.log) != [])
    ensures Leads(init, steps, w)
  {
    steps, w := Durably(init, before, s, AppendAttempted(a, Durable), a, h, h.(pc := Pc.Attempted), AttemptRec(a, h));
  }

  lemma Connects(init: State, before: seq<Step>, s: State, a: string, h: Handler)
    returns (steps: seq<Step>, w: State)
    requires Leads(init, before, s) && s.hs == map[a := h] && h.pc == Pc.Attempted
    ensures w == s.(hs := map[a := h.(pc := Connected, effect := true)]) && Leads(init, steps, w)
  {
    steps, w := Silently(init, before, s, Connect(a), a, h, s.run, h.(pc := Connected, effect := true));
  }

  lemma LosesUpstream(init: State, before: seq<Step>, s: State, a: string, h: Handler)
    returns (steps: seq<Step>, w: State)
    requires Leads(init, before, s) && s.hs == map[a := h] && h.pc == Connected
    requires s.sink.healthy && !s.sink.isSealed
    ensures var r := UnknownRec(a, h, "TimeoutError", None);
            w == s.(sink := s.sink.(log := s.sink.log + [r]), hs := map[a := h.(pc := Unwinding, story := h.story + [r])])
    ensures Leads(init, steps, w)
  {
    var r := UnknownRec(a, h, "TimeoutError", None);
    steps, w := Durably(init, before, s, SettleUnknown(a, "TimeoutError", Durable), a, h, h.(pc := Unwinding), r);
  }

  lemma LosesStream(init: State, before: seq<Step>, s: State, a: string, h: Handler, bytes: nat)
    returns (steps: seq<Step>, w: State)
    requires Leads(init, before, s) && s.hs == map[a := h] && h.pc == Connected
    requires s.sink.healthy && !s.sink.isSealed
    ensures var r := UnknownRec(a, h, "TimeoutError", Some(bytes));
            w == s.(sink := s.sink.(log := s.sink.log + [r]),
                    hs := map[a := h.(streamed := bytes, pc := TornOwed, story := h.story + [r])])
    ensures Leads(init, steps, w)
  {
    var r := UnknownRec(a, h, "TimeoutError", Some(bytes));
    steps, w := Durably(init, before, s, SettleStreamLost(a, "TimeoutError", bytes, Durable), a, h,
                        h.(streamed := bytes, pc := TornOwed), r);
  }

  lemma RecordsTorn(init: State, before: seq<Step>, s: State, a: string, h: Handler)
    returns (steps: seq<Step>, w: State)
    requires Leads(init, before, s) && s.hs == map[a := h] && h.pc == TornOwed
    requires s.sink.healthy && !s.sink.isSealed
    ensures var r := TornRec(a, h, "TimeoutError");
            w == s.(sink := s.sink.(log := s.sink.log + [r]), hs := map[a := h.(pc := Unwinding, story := h.story + [r])])
    ensures Leads(init, steps, w)
  {
    steps, w := Durably(init, before, s, AppendTorn(a, "TimeoutError", Durable), a, h, h.(pc := Unwinding),
                        TornRec(a, h, "TimeoutError"));
  }

  lemma IsAnswered(init: State, before: seq<Step>, s: State, a: string, h: Handler, status: int, hash: string, bytes: nat)
    returns (steps: seq<Step>, w: State)
    requires Leads(init, before, s) && s.hs == map[a := h] && h.pc == Connected && IsHex64(hash)
    requires s.sink.healthy && !s.sink.isSealed
    ensures var g := h.(status := status, responseHash := hash, streamed := bytes);
            w == s.(sink := s.sink.(log := s.sink.log + [CompletedRec(a, g)]),
                    hs := map[a := g.(pc := AllowOwed, story := h.story + [CompletedRec(a, g)])])
    ensures Leads(init, steps, w)
  {
    var g := h.(status := status, responseHash := hash, streamed := bytes);
    steps, w := Durably(init, before, s, SettleCompleted(a, status, hash, bytes, Durable), a, h, g.(pc := AllowOwed),
                        CompletedRec(a, g));
  }

  lemma RecordsAllow(init: State, before: seq<Step>, s: State, a: string, h: Handler)
    returns (steps: seq<Step>, w: State)
    requires Leads(init, before, s) && s.hs == map[a := h] && h.pc == AllowOwed
    requires s.sink.healthy && !s.sink.isSealed
    ensures w == s.(sink := s.sink.(log := s.sink.log + [AllowRec(a, h)]),
                    hs := map[a := h.(pc := Unwinding, story := h.story + [AllowRec(a, h)])])
    ensures Leads(init, steps, w)
  {
    steps, w := Durably(init, before, s, AppendAllow(a, Durable), a, h, h.(pc := Unwinding), AllowRec(a, h));
  }

  function Firstly(a: string, h: Handler, first: bool): seq<Rec> {
    if first then [UnknownRec(a, h, "TERMINAL_DURING_TLS", None)] else []
  }

  lemma SettlesFirst(init: State, before: seq<Step>, s: State, a: string, h: Handler, first: bool)
    returns (steps: seq<Step>, w: State)
    requires Leads(init, before, s) && s.hs == map[a := h] && h.pc == Connected && s.net.Terminal(h.req.conn)
    requires s.sink.healthy && !s.sink.isSealed
    ensures w == s.(sink := s.sink.(log := s.sink.log + Firstly(a, h, first)),
                    hs := map[a := h.(pc := DenialOwed, story := h.story + Firstly(a, h, first))],
                    broken := if first then s.broken else s.broken + {a})
    ensures Leads(init, steps, w)
  {
    var r := UnknownRec(a, h, "TERMINAL_DURING_TLS", None);
    if first {
      steps, w := Durably(init, before, s, SettleTerminal(a, Durable), a, h, h.(pc := DenialOwed), r);
    } else {
      steps, w := Vainly(init, before, s, SettleTerminal(a, OpenFails), a, h, h.(pc := DenialOwed), r, Breaks);
      assert s.sink.log + [] == s.sink.log && h.story + [] == h.story;
    }
  }

  /** Cancelled during TLS: the outcome is settled, if its append goes through, the denial cannot be
      opened, and the outcome is settled again. */
  lemma SettlesTwice(init: State, before: seq<Step>, s: State, a: string, h: Handler, first: bool)
    returns (steps: seq<Step>, w: State)
    requires Leads(init, before, s) && s.hs == map[a := h] && h.pc == Connected && s.net.Terminal(h.req.conn)
    requires s.sink.healthy && !s.sink.isSealed && s.broken == {}
    ensures var more := Firstly(a, h, first) + [UnknownRec(a, h, "UPSTREAM_ERROR:OSError", None)];
            w == s.(sink := s.sink.(log := s.sink.log + more), hs := map[a := h.(pc := Unwinding, story := h.story + more)])
    ensures Leads(init, steps, w)
  {
    var g := h.(pc := DenialOwed, story := h.story + Firstly(a, h, first));
    var r := UnknownRec(a, h, "UPSTREAM_ERROR:OSError", None);
    Regroup(s.sink.log, Firstly(a, h, first), [r]);
    Regroup(h.story, Firstly(a, h, first), [r]);
    steps, w := SettlesFirst(init, before, s, a, h, first);
    steps, w := DeniesInVain(init, steps, w, a, g);
    steps, w := SettlesAgain(init, steps, w, a, g.(pc := ResettleOwed));
    assert w.broken == {} && UnknownRec(a, g, "UPSTREAM_ERROR:OSError", None) == r;
  }

  lemma Regroup(x: seq<Rec>, y: seq<Rec>, z: seq<Rec>)
    ensures (x + y) + z == x + (y + z)
  {
  }

  lemma DeniesInVain(init: State, before: seq<Step>, s: State, a: string, h: Handler)
    returns (steps: seq<Step>, w: State)
    requires Leads(init, before, s) && s.hs == map[a := h] && h.pc == DenialOwed
    ensures w == s.(hs := map[a := h.(pc := ResettleOwed)]) && Leads(init, steps, w)
  {
    steps, w := Vainly(init, before, s, DenyTerminal(a, "CANCELLED_DURING_TLS", OpenFails), a, h,
                       h.(pc := ResettleOwed), Blocked("CANCELLED_DURING_TLS", None), NoFault);
  }

  lemma SettlesAgain(init: State, before: seq<Step>, s: State, a: string, h: Handler)
    returns (steps: seq<Step>, w: State)
    requires Leads(init, before, s) && s.hs == map[a := h] && h.pc == ResettleOwed
    requires s.sink.healthy && !s.sink.isSealed
    ensures var r := UnknownRec(a, h, "UPSTREAM_ERROR:OSError", None);
            w == s.(sink := s.sink.(log := s.sink.log + [r]), broken := s.broken - {a},
                    hs := map[a := h.(pc := Unwinding, story := h.story + [r])])
    ensures Leads(init, steps, w)
  {
    var r := UnknownRec(a, h, "UPSTREAM_ERROR:OSError", None);
    steps, w := Durably(init, before, s, SettleAgain(a, "UPSTREAM_ERROR:OSError", Durable), a, h,
                        h.(pc := Unwinding), r, Mends);
  }

  /** Building the request raises, and nothing settles the attempt. */
  lemma Escapes(init: State, before: seq<Step>, s: State, a: string, h: Handler)
    returns (steps: seq<Step>, w: State)
    requires Leads(init, before, s) && s.hs == map[a := h] && h.pc == Connected
    ensures w == s.(hs := map[a := h.(pc := Unwinding)], broken := s.broken + {a}) && Leads(init, steps, w)
  {
    var m := Move(s.run, h.(pc := Unwinding), None, Durable, Breaks);
    w := Apply(s, a, m);
    assert s.hs[a := m.h.(story := m.h.story)] == map[a := m.h];
    steps := ThenMove(init, before, s, Escape(a), a, m);
  }

  /** The record of the release goes through, or the file cannot be opened for it. */
  lemma RecordsRelease(init: State, before: seq<Step>, s: State, a: string, g: Handler, lost: bool)
    returns (steps: seq<Step>, w: State)
    requires Leads(init, before, s) && s.hs == map[a := g] && g.pc == ReleaseOwed
    requires s.sink.healthy && !s.sink.isSealed
    ensures var k := g.(pc := Leaving);
            w == s.(sink := if lost then s.sink else s.sink.(log := s.sink.log + [ReleaseRec(a, g)]),
                    hs := map[a := if lost then k else k.(story := g.story + [ReleaseRec(a, g)])],
                    broken := if lost then s.broken + {a} else s.broken)
    ensures Leads(init, steps, w)
  {
    var k := g.(pc := Leaving);
    if lost {
      steps, w := Vainly(init, before, s, AppendRelease(a, OpenFails), a, g, k, ReleaseRec(a, g), Breaks);
    } else {
      steps, w := Durably(init, before, s, AppendRelease(a, Durable), a, g, k, ReleaseRec(a, g));
    }
  }

  lemma ReleasesPermit(init: State, before: seq<Step>, s: State, a: string, h: Handler)
    returns (steps: seq<Step>, w: State)
    requires Leads(init, before, s) && s.hs == map[a := h] && h.pc == Unwinding && a in s.run.inflight
    ensures w == s.(run := s.run.DoRelease(a).0, hs := map[a := h.(pc := ReleaseOwed, r := s.run.seqNo + 1)])
    ensures Leads(init, steps, w)
  {
    var g := h.(pc := ReleaseOwed, r := s.run.seqNo + 1);
    steps, w := Silently(init, before, s, ReleasePermit(a), a, h, s.run.DoRelease(a).0, g);
  }

  // ---------------------------------------------------------------- the connection goes, the run closes

  lemma BeginsClosing(init: State, before: seq<Step>, s: State, a: string, h: Handler)
    returns (steps: seq<Step>, w: State)
    requires Leads(init, before, s) && s.hs == map[a := h] && h.pc == Leaving && s.net == Net2(h.req.conn)
    ensures w == s.(hs := map[a := h.(pc := Closing, toShut := [0])]) && Leads(init, steps, w)
  {
    w := s.(hs := map[a := h.(pc := Closing, toShut := [0])]);
    assert s.hs[a := h.(pc := Closing, toShut := [0])] == w.hs;
    assert s.net.conns[h.req.conn := Conn(true, [0])] == s.net.conns;
    steps := ThenSocket(init, before, s, BeginClose(a), a, w);
  }

  lemma ClosesConnection(init: State, before: seq<Step>, s: State, a: string, h: Handler)
    returns (steps: seq<Step>, w: State)
    requires Leads(init, before, s) && s.hs == map[a := h] && h.pc == Closing && h.toShut == [0]
    requires s.net == Net2(h.req.conn)
    ensures w == s.(hs := map[a := h.(toShut := [])]) && Leads(init, steps, w)
  {
    w := s.(hs := map[a := h.(toShut := [])]);
    assert s.hs[a := h.(toShut := [])] == w.hs && s.net.closed + {0} == s.net.closed && h.toShut[1..] == [];
    steps := ThenSocket(init, before, s, CloseOne(a), a, w);
  }

  lemma Removes(init: State, before: seq<Step>, s: State, a: string, h: Handler)
    returns (steps: seq<Step>, w: State)
    requires Leads(init, before, s) && s.hs == map[a := h] && h.pc == Closing && h.toShut == [] && s.conns == {}
    ensures w == s.(hs := map[a := h.(pc := Removed)]) && Leads(init, steps, w)
  {
    w := s.(hs := map[a := h.(pc := Removed)]);
    assert s.hs[a := h.(pc := Removed)] == w.hs && s.conns - {h.req.conn} == w.conns;
    steps := ThenSocket(init, before, s, RemoveConnection(a), a, w);
  }

  lemma EndsProducing(init: State, before: seq<Step>, s: State, a: string, h: Handler)
    returns (steps: seq<Step>, w: State)
    requires Leads(init, before, s) && s.hs == map[a := h] && h.pc == Removed && s.producers == 1
    ensures w == s.(hs := map[a := h.(pc := Done)], producers := 0) && Leads(init, steps, w)
  {
    w := s.(hs := map[a := h.(pc := Done)], producers := 0);
    assert s.hs[a := h.(pc := Done)] == w.hs;
    steps := ThenSocket(init, before, s, EndProducer(a), a, w);
  }

  lemma SeesListener(init: State, before: seq<Step>, s: State) returns (steps: seq<Step>, w: State)
    requires Leads(init, before, s) && s.can.pc == CDraining
    ensures w == s.(listenerClosed := true, can := s.can.(pc := CListenerSeen, stopped := true))
    ensures Leads(init, steps, w)
  {
    var t := s.(listenerClosed := true);
    steps := Then(init, before, s, ListenerCloses, t);
    w := t.(can := t.can.(pc := CListenerSeen, stopped := true));
    steps := ThenEvidence(init, steps, t, SeeListener(true), w);
  }

  lemma SeesQuiescence(init: State, before: seq<Step>, s: State) returns (steps: seq<Step>, w: State)
    requires Leads(init, before, s) && s.can.pc == CListenerSeen && s.producers == 0 && s.run.inflight == map[]
    ensures w == s.(can := s.can.(pc := CDeciding, effects := 0, producers := 0)) && Leads(init, steps, w)
  {
    var t := s.(can := s.can.(pc := CEffectsSeen, effects := 0));
    steps := ThenEvidence(init, before, s, SeeEffects, t);
    w := t.(can := t.can.(pc := CDeciding, producers := 0));
    steps := ThenEvidence(init, steps, t, SeeProducers, w);
  }

  // ---------------------------------------------------------------- the whole run

  /** A single attempt holds the permit in a cancelled run whose canceller turns to its records. */
  ghost predicate Cancelled(s: State, a: string, h: Handler) {
    && s.hs == map[a := h] && h.pc == Cleared
    && s.run.cancellation.Some? && a in s.run.inflight && s.run.inflight - {a} == map[]
    && s.sink.healthy && !s.sink.isSealed && Tail(s.sink.log) == []
    && s.net == Net2(h.req.conn) && s.can == C2(h.req.conn) && s.conns == {} && s.producers == 1
    && !s.lateAttempt && s.broken == {}
  }

  lemma NoTailYet(a: string, q: Request)
    ensures Tail(BOOT + H4(a, q).story) == []
  {
    var auth, permit := H4(a, q).story[0], H4(a, q).story[1];
    assert BOOT + H4(a, q).story == (BOOT + [auth]) + [permit];
    TailSnoc(BOOT + [auth], permit);
    TailSnoc(BOOT, auth);
    TailSnoc([], BOOT[0]);
  }

  lemma Cancels(a: string, q: Request) returns (steps: seq<Step>, s: State)
    requires q.generation != "" && q.budget != ""
    ensures Leads(Start(a, q), steps, s) && Cancelled(s, a, H4(a, q))
  {
    steps := Clears(a, q);
    s := World(a, H4(a, q), R2(a), BOOT + H4(a, q).story, Net1(q), WATCHING);
    steps, s := Marks(Start(a, q), steps, s, q.conn);
    steps, s := ShutsDown(Start(a, q), steps, s, q.conn);
    steps, s := StopsListening(Start(a, q), steps, s, q.conn);
    NoTailYet(a, q);
    assert s.run.inflight - {a} == map[];
  }

  /** The request and the attempt are appended, in one order or the other. */
  ghost predicate Requested(s: State, a: string, h: Handler, late: bool) {
    && s.hs == map[a := h] && h.pc == Pc.Attempted
    && s.run.cancellation.Some? && a in s.run.inflight && s.run.inflight - {a} == map[]
    && s.sink.healthy && !s.sink.isSealed
    && s.net == Net2(h.req.conn) && s.can == C2(h.req.conn).(pc := CLinearizing) && s.conns == {} && s.producers == 1
    && s.lateAttempt == late && s.broken == {}
  }

  lemma Races(init: State, before: seq<Step>, s: State, a: string, h: Handler, late: bool)
    returns (steps: seq<Step>, w: State)
    requires Leads(init, before, s) && Cancelled(s, a, h)
    ensures Leads(init, steps, w)
    ensures Requested(w, a, h.(pc := Pc.Attempted, story := h.story + [AttemptRec(a, h)]), late)
  {
    if late {
      steps, w := Evidence(init, before, s);
      TailSnoc(s.sink.log, RequestRec(s.run));
      steps, w := Attempts(init, steps, w, a, h);
    } else {
      steps, w := Attempts(init, before, s, a, h);
      steps, w := Evidence(init, steps, w);
    }
  }

  ghost predicate Gone(s: State, a: string, h: Handler, late: bool, lost: bool) {
    && s.hs == map[a := h] && s.producers == 0 && s.run.cancellation.Some? && s.run.inflight == map[]
    && s.sink.healthy && !s.sink.isSealed && s.can.pc == CDraining && s.can.stopStarted
    && s.lateAttempt == late && s.broken == if lost then {a} else {}
  }

  /** The handler has left, the permit is released, the connection is still to be closed. */
  ghost predicate Left(s: State, a: string, h: Handler, late: bool, lost: bool) {
    && s.hs == map[a := h] && h.pc == Leaving && s.run.cancellation.Some? && s.run.inflight == map[]
    && s.sink.healthy && !s.sink.isSealed && s.can.pc == CDraining && s.can.stopStarted
    && s.net == Net2(h.req.conn) && s.conns == {} && s.producers == 1
    && s.lateAttempt == late && s.broken == if lost then {a} else {}
  }

  /** The permit is held, and LINEARIZED is durable. */
  ghost predicate Held(s: State, a: string, h: Handler, late: bool, lost: bool) {
    && s.hs == map[a := h]
    && s.run.cancellation.Some? && a in s.run.inflight && s.run.inflight - {a} == map[]
    && s.sink.healthy && !s.sink.isSealed && s.can.pc == CDraining && s.can.stopStarted
    && s.net == Net2(h.req.conn) && s.conns == {} && s.producers == 1
    && s.lateAttempt == late && s.broken == if lost then {a} else {}
  }

  ghost predicate Unwound(s: State, a: string, h: Handler, late: bool, lost: bool) {
    Held(s, a, h, late, lost) && h.pc == Unwinding
  }

  /** How the attempt ends: connecting times out, the stream breaks after some bytes, the target
      answers; cancelled during TLS, the outcome is settled twice, or a lost one is made up for; or
      building the request raises and no outcome is settled. */
  datatype Ending =
    | TimesOut | StreamBreaks(bytes: nat) | Answers(status: int, hash: string, bytes: nat)
    | SettledTwice | MadeUpFor | Unsettled

  ghost predicate Open(s: State, a: string, h: Handler, late: bool) {
    Held(s, a, h, late, false) && h.pc == Connected
  }

  /** A durable append that is no attempt changes only the log and the handler. */
  lemma StillHeld(s: State, w: State, a: string, h: Handler, g: Handler, late: bool)
    requires Held(s, a, h, late, false) && g.req == h.req
    requires w == s.(sink := s.sink.(log := w.sink.log), hs := map[a := g])
    ensures Held(w, a, g, late, false)
  {
  }

  lemma Opens(init: State, before: seq<Step>, s: State, a: string, h: Handler, late: bool)
    returns (steps: seq<Step>, w: State)
    requires Leads(init, before, s) && Requested(s, a, h, late)
    ensures Leads(init, steps, w) && Open(w, a, h.(pc := Connected, effect := true), late)
  {
    steps, w := Evidence(init, before, s);
    steps, w := Connects(init, steps, w, a, h);
  }

  /** What the handler has told when the attempt has ended this way. */
  predicate Ended(h: Handler, q: Request, ending: Ending) {
    && h.req == q && |h.story| >= 3 && h.story[0].AuthCommitted? && h.story[1].PermitGranted? && h.story[2].EffectAttempted?
    && (forall i | 0 <= i < |h.story| :: !h.story[i].PermitReleased?)
    && match ending
       case TimesOut => |h.story| == 4 && h.story[3].EffectUnknown?
       case StreamBreaks(_) => |h.story| == 5 && h.story[3].EffectUnknown? && h.story[4].ConnectionTerminated?
       case Answers(status, _, _) =>
         |h.story| == 5 && h.story[3].EffectCompleted? && h.story[4].Allow? && h.status == status
       case SettledTwice => |h.story| == 5 && h.story[3].EffectUnknown? && h.story[4].EffectUnknown?
       case MadeUpFor => |h.story| == 4 && h.story[3].EffectUnknown?
       case Unsettled => |h.story| == 3
  }

  /** AUTH, PERMIT and ATTEMPTED are told. */
  predicate ToldThree(h: Handler, q: Request) {
    h.req == q && |h.story| == 3 && h.story[0].AuthCommitted? && h.story[1].PermitGranted? && h.story[2].EffectAttempted?
  }

  /** One more record after the three, or two. */
  lemma OneMore(h: Handler, g: Handler, q: Request, r: Rec)
    requires ToldThree(h, q) && r.EffectUnknown? && g.req == h.req && g.story == h.story + [r]
    ensures Ended(g, q, TimesOut) && Ended(g, q, MadeUpFor)
  {
  }

  lemma TwoMore(h: Handler, g: Handler, q: Request, r: Rec, t: Rec, ending: Ending)
    requires ToldThree(h, q) && g.req == h.req && g.story == h.story + [r] + [t]
    requires || (r.EffectUnknown? && t.ConnectionTerminated? && ending.StreamBreaks?)
             || (r.EffectCompleted? && t.Allow? && ending.Answers? && g.status == ending.status)
             || (r.EffectUnknown? && t.EffectUnknown? && ending.SettledTwice?)
    ensures Ended(g, q, ending)
  {
  }

  lemma UnwindsTimedOut(init: State, before: seq<Step>, s: State, a: string, h: Handler, q: Request, late: bool)
    returns (steps: seq<Step>, w: State, g: Handler)
    requires Leads(init, before, s) && Open(s, a, h, late) && ToldThree(h, q)
    ensures Leads(init, steps, w) && Unwound(w, a, g, late, false) && Ended(g, q, TimesOut)
  {
    steps, w := LosesUpstream(init, before, s, a, h);
    var r := UnknownRec(a, h, "TimeoutError", None);
    g := h.(pc := Unwinding, story := h.story + [r]);
    StillHeld(s, w, a, h, g, late);
    OneMore(h, g, q, r);
  }

  lemma UnwindsBroken(init: State, before: seq<Step>, s: State, a: string, h: Handler, q: Request, bytes: nat, late: bool)
    returns (steps: seq<Step>, w: State, g: Handler)
    requires Leads(init, before, s) && Open(s, a, h, late) && ToldThree(h, q)
    ensures Leads(init, steps, w) && Unwound(w, a, g, late, false) && Ended(g, q, StreamBreaks(bytes))
  {
    var r := UnknownRec(a, h, "TimeoutError", Some(bytes));
    var k := h.(streamed := bytes, pc := TornOwed, story := h.story + [r]);
    steps, w := LosesStream(init, before, s, a, h, bytes);
    StillHeld(s, w, a, h, k, late);
    var t := w;
    steps, w := RecordsTorn(init, steps, t, a, k);
    g := k.(pc := Unwinding, story := k.story + [TornRec(a, k, "TimeoutError")]);
    StillHeld(t, w, a, k, g, late);
    TwoMore(h, g, q, r, TornRec(a, k, "TimeoutError"), StreamBreaks(bytes));
  }

  lemma UnwindsAnswered(init: State, before: seq<Step>, s: State, a: string, h: Handler, q: Request, status: int,
                        hash: string, bytes: nat, late: bool)
    returns (steps: seq<Step>, w: State, g: Handler)
    requires Leads(init, before, s) && Open(s, a, h, late) && ToldThree(h, q) && IsHex64(hash)
    ensures Leads(init, steps, w) && Unwound(w, a, g, late, false) && Ended(g, q, Answers(status, hash, bytes))
  {
    var f := h.(status := status, responseHash := hash, streamed := bytes);
    var k := f.(pc := AllowOwed, story := h.story + [CompletedRec(a, f)]);
    steps, w := IsAnswered(init, before, s, a, h, status, hash, bytes);
    StillHeld(s, w, a, h, k, late);
    var t := w;
    steps, w := RecordsAllow(init, steps, t, a, k);
    g := k.(pc := Unwinding, story := k.story + [AllowRec(a, k)]);
    StillHeld(t, w, a, k, g, late);
    TwoMore(h, g, q, CompletedRec(a, f), AllowRec(a, k), Answers(status, hash, bytes));
  }

  lemma UnwindsSettledTwice(init: State, before: seq<Step>, s: State, a: string, h: Handler, q: Request, first: bool,
                            late: bool)
    returns (steps: seq<Step>, w: State, g: Handler)
    requires Leads(init, before, s) && Open(s, a, h, late) && ToldThree(h, q)
    ensures Leads(init, steps, w) && Unwound(w, a, g, late, false)
    ensures Ended(g, q, if first then SettledTwice else MadeUpFor)
  {
    var r := UnknownRec(a, h, "TERMINAL_DURING_TLS", None);
    var t := UnknownRec(a, h, "UPSTREAM_ERROR:OSError", None);
    steps, w := SettlesTwice(init, before, s, a, h, first);
    g := w.hs[a];
    StillHeld(s, w, a, h, g, late);
    if first {
      assert g.story == h.story + [r] + [t];
      TwoMore(h, g, q, r, t, SettledTwice);
    } else {
      assert g.story == h.story + [t];
      OneMore(h, g, q, t);
    }
  }

  lemma UnwindsUnsettled(init: State, before: seq<Step>, s: State, a: string, h: Handler, q: Request, late: bool)
    returns (steps: seq<Step>, w: State, g: Handler)
    requires Leads(init, before, s) && Open(s, a, h, late) && ToldThree(h, q)
    ensures Leads(init, steps, w) && Unwound(w, a, g, late, true) && Ended(g, q, Unsettled)
  {
    g := h.(pc := Unwinding);
    steps, w := Escapes(init, before, s, a, h);
    EscapedHeld(s, a, h, late);
    NoneMore(h, g, q);
  }

  lemma NoneMore(h: Handler, g: Handler, q: Request)
    requires ToldThree(h, q) && g.req == h.req && g.story == h.story
    ensures Ended(g, q, Unsettled)
  {
  }

  lemma EscapedHeld(s: State, a: string, h: Handler, late: bool)
    requires Open(s, a, h, late)
    ensures var g := h.(pc := Unwinding); Unwound(s.(hs := map[a := g], broken := s.broken + {a}), a, g, late, true)
  {
    assert s.broken + {a} == {a};
  }

  lemma Unwinds(init: State, before: seq<Step>, s: State, a: string, h: Handler, q: Request, ending: Ending, late: bool)
    returns (steps: seq<Step>, w: State, g: Handler)
    requires Leads(init, before, s) && Open(s, a, h, late) && ToldThree(h, q)
    requires ending.Answers? ==> IsHex64(ending.hash)
    ensures Leads(init, steps, w) && Unwound(w, a, g, late, ending.Unsettled?) && Ended(g, q, ending)
  {
    match ending
    case TimesOut =>
      steps, w, g := UnwindsTimedOut(init, before, s, a, h, q, late);
    case StreamBreaks(bytes) =>
      steps, w, g := UnwindsBroken(init, before, s, a, h, q, bytes, late);
    case Answers(status, hash, bytes) =>
      steps, w, g := UnwindsAnswered(init, before, s, a, h, q, status, hash, bytes, late);
    case SettledTwice =>
      steps, w, g := UnwindsSettledTwice(init, before, s, a, h, q, true, late);
    case MadeUpFor =>
      steps, w, g := UnwindsSettledTwice(init, before, s, a, h, q, false, late);
    case Unsettled =>
      steps, w, g := UnwindsUnsettled(init, before, s, a, h, q, late);
  }

  lemma Settles(init: State, before: seq<Step>, s: State, a: string, h: Handler, late: bool, broken: bool, lost: bool)
    returns (steps: seq<Step>, w: State, g: Handler)
    requires Leads(init, before, s) && Unwound(s, a, h, late, broken)
    ensures Leads(init, steps, w) && Left(w, a, g, late, broken || lost)
    ensures g.req == h.req && g.status == h.status
    ensures g.story == h.story + if lost then [] else [ReleaseRec(a, h.(r := s.run.seqNo + 1))]
  {
    steps, w := ReleasesPermit(init, before, s, a, h);
    steps, w := RecordsRelease(init, steps, w, a, w.hs[a], lost);
    g := w.hs[a];
  }

  lemma Finishes(init: State, before: seq<Step>, s: State, a: string, h: Handler, late: bool, lost: bool)
    returns (steps: seq<Step>, w: State, g: Handler)
    requires Leads(init, before, s) && Left(s, a, h, late, lost)
    ensures Leads(init, steps, w) && Gone(w, a, g, late, lost)
    ensures g.req == h.req && g.story == h.story && g.status == h.status
  {
    steps, w := BeginsClosing(init, before, s, a, h);
    steps, w := ClosesConnection(init, steps, w, a, w.hs[a]);
    steps, w := Removes(init, steps, w, a, w.hs[a]);
    steps, w := EndsProducing(init, steps, w, a, w.hs[a]);
    g := w.hs[a];
  }

  lemma Closes(init: State, before: seq<Step>, s: State, a: string, h: Handler, late: bool, lost: bool)
    returns (steps: seq<Step>, w: State)
    requires Leads(init, before, s) && Gone(s, a, h, late, lost)
    ensures Leads(init, steps, w) && w.sink.isSealed && w.hs == map[a := h]
    ensures w.lateAttempt == late && w.broken == if lost then {a} else {}
  {
    steps, w := SeesListener(init, before, s);
    steps, w := SeesQuiescence(init, steps, w);
    steps, w := Evidence(init, steps, w);
    steps, w := Evidence(init, steps, w);
    steps, w := Seals(init, steps, w);
  }

  lemma Runs(a: string, q: Request, ending: Ending, late: bool) returns (steps: seq<Step>, s: State, g: Handler)
    requires q.generation != "" && q.budget != "" && (ending.Answers? ==> IsHex64(ending.hash))
    ensures Leads(Start(a, q), steps, s) && Unwound(s, a, g, late, ending.Unsettled?) && Ended(g, q, ending)
  {
    var init, h := Start(a, q), H4(a, q);
    var k := h.(pc := Pc.Attempted, story := h.story + [AttemptRec(a, h)]);
    steps, s := Cancels(a, q);
    steps, s := Races(init, steps, s, a, h, late);
    steps, s := Opens(init, steps, s, a, k, late);
    steps, s, g := Unwinds(init, steps, s, a, k.(pc := Connected, effect := true), q, ending, late);
  }

  /** From the end of the attempt to the seal. */
  lemma Rests(init: State, before: seq<Step>, s: State, a: string, h: Handler, late: bool, broken: bool, lost: bool)
    returns (steps: seq<Step>, w: State)
    requires Leads(init, before, s) && Unwound(s, a, h, late, broken)
    ensures Leads(init, steps, w) && w.sink.isSealed && w.hs.Keys == {a} && w.hs[a].req == h.req && w.hs[a].status == h.status
    ensures w.lateAttempt == late && w.broken == if broken || lost then {a} else {}
    ensures h.story <= w.hs[a].story && |w.hs[a].story| == |h.story| + if lost then 0 else 1
    ensures !lost ==> w.hs[a].story[|h.story|].PermitReleased?
  {
    var g;
    steps, w, g := Settles(init, before, s, a, h, late, broken, lost);
    steps, w, g := Finishes(init, steps, w, a, g, late, broken || lost);
    steps, w := Closes(init, steps, w, a, g, late, broken || lost);
  }

  /** A run of one attempt that is cancelled while its permit is in flight and then seals: the attempt
      ends in the given way, its EFFECT_ATTEMPTED is appended before or after CANCELLATION_REQUESTED,
      and its PERMIT_RELEASED is durable or lost.  `told` is what it had told before the release. */
  lemma RunOf(a: string, q: Request, ending: Ending, late: bool, lost: bool)
    returns (steps: seq<Step>, s: State, told: Handler)
    requires q.generation != "" && q.budget != "" && (ending.Answers? ==> IsHex64(ending.hash))
    ensures Exec(Start(a, q), steps) == Some(s) && s.sink.isSealed && s.hs.Keys == {a}
    ensures s.lateAttempt == late && s.broken == if lost || ending.Unsettled? then {a} else {}
    ensures Ended(told, q, ending) && s.hs[a].req == q && s.hs[a].status == told.status
    ensures told.story <= s.hs[a].story && |s.hs[a].story| == |told.story| + if lost then 0 else 1
    ensures !lost ==> s.hs[a].story[|told.story|].PermitReleased?
  {
    var init := Start(a, q);
    steps, s, told := Runs(a, q, ending, late);
    steps, s := Rests(init, steps, s, a, told, late, ending.Unsettled?, lost);
  }
}
