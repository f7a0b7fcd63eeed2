/** `EffectPermit`, `EffectGate` and `Registry`: the objects that combine the run, the connections and
    the audit sink. */
module Gate {
  import opened Records
  import opened RunModel
  import opened Connections
  import opened Protocol
  import opened Lifecycle

  // ---------------------------------------------------------------- EffectPermit

  /** What `release` hands back: the stored transition, or the stored error. */
  datatype ReleaseResult = Returned(transition: Option<Release>) | Raised

  class EffectPermit {
    const run: RunContext
    const aid: string
    const epoch: nat
    const seqNo: nat
    var released: bool
    var transition: Option<Release>
    var failed: bool
    var audit: Option<AuditSink>
    var connId: string

    constructor (r: RunContext, a: string, e: nat, n: nat)
      ensures run == r && aid == a && epoch == e && seqNo == n
      ensures !released && !failed && audit.None? && Stored() == Returned(None)
    {
      run, aid, epoch, seqNo := r, a, e, n;
      released, transition, failed, audit, connId := false, None, false, None, "";
    }

    function Stored(): ReleaseResult reads this { if failed then Raised else Returned(transition) }

    function Sinks(): set<object> reads this { if audit.Some? then {audit.value} else {} }

    method BindDurableRelease(sink: AuditSink, conn: string) returns (ok: bool)
      modifies this
      ensures ok <==> !old(released) && old(audit).None?
      ensures ok ==> audit == Some(sink) && connId == conn && !released
      ensures !ok ==> audit == old(audit) && connId == old(connId)
      ensures released == old(released) && failed == old(failed) && Stored() == old(Stored())
    {
      if released || audit.Some? { return false; }
      audit, connId := Some(sink), conn;
      return true;
    }

    /** The first call takes the permit out of the in-flight dictionary and, if PERMIT was durable,
        appends its one record; every later call hands back what the first one did. */
    method DoRelease(io: Io) returns (result: ReleaseResult)
      requires run.Valid()
      modifies this, run, Sinks()
      ensures run.Valid() && released && audit == old(audit) && result == Stored()
      ensures old(released) ==> result == old(Stored()) && run.Value() == old(run.Value())
      ensures !old(released) ==> run.Value() == old(run.Value()).DoRelease(aid).0
      ensures !old(released) ==> transition == old(run.Value()).DoRelease(aid).1
      ensures audit.Some? ==>
                var sink := audit.value;
                if old(released) || transition.None? then sink.Value() == old(sink.Value())
                else
                  && sink.Value() == old(sink.Value()).Write(
                       PermitReleased(aid, old(connId), epoch, seqNo, transition.value.seqNo), io)
                  && (result.Raised? <==> !old(sink.Value()).Accepts(io) || old(failed))
    {
      if released { return Stored(); }
      released := true;
      var t := run.DoRelease(aid);
      transition := t;
      if t.None? || audit.None? { return Stored(); }
      var ok := audit.value.Write(PermitReleased(aid, connId, epoch, seqNo, t.value.seqNo), io);
      if !ok { failed := true; }
      return Stored();
    }

    method AbandonUndurable()
      requires run.Valid()
      modifies this, run
      ensures run.Valid() && released && audit == old(audit) && failed == old(failed)
      ensures run.Value() == if old(released) then old(run.Value()) else old(run.Value()).DoRelease(aid).0
      ensures old(released) ==> transition == old(transition)
      ensures !old(released) ==> transition == old(run.Value()).DoRelease(aid).1 && aid !in run.inflight
    {
      if released { return; }
      released := true;
      transition := run.DoRelease(aid);
    }
  }

  // ---------------------------------------------------------------- EffectGate

  /** The intent with the sequence number AUTH got. */
  function Sequenced(intent: Rec, n: nat): (r: Rec)
    requires intent.AuthCommitted?
    ensures r.AuthCommitted? && r.aid == intent.aid && r.seqNo == n && r.conn == intent.conn
    ensures r.epoch == intent.epoch && r.generation == intent.generation && r.budget == intent.budget
  {
    match intent
    case AuthCommitted(aid, conn, epoch, _, version, program, generation, budget, verb, host, pin, credential, digest) =>
      AuthCommitted(aid, conn, epoch, n, version, program, generation, budget, verb, host, pin, credential, digest)
  }

  predicate Bindable(intent: Rec, conn: string, generation: string, budget: string)
    requires intent.AuthCommitted?
  {
    generation != "" && budget != "" && intent.generation == generation && intent.budget == budget && intent.conn == conn
  }

  predicate Authorizes(s: Sink, run: Run, intent: Rec)
    requires intent.AuthCommitted?
  {
    s.healthy && !run.cancelled && intent.epoch == 0 && intent.aid !in run.auths
  }

  datatype Commit = Committed | AuditRefused | EpochRefused

  datatype Acquired = Granted(permit: EffectPermit) | NotGranted | PermitUndurable

  class EffectGate {
    const sink: AuditSink
    const run: RunContext
    var intents: map<string, Rec>

    constructor (s: AuditSink, r: RunContext)
      ensures sink == s && run == r && intents == map[]
    {
      sink, run, intents := s, r, map[];
    }

    ghost predicate Valid() reads this, run {
      run.Valid() && forall a | a in intents :: intents[a].AuthCommitted?
    }

    /** AUTH gets its sequence number and is appended, in this order; only a durable AUTH is an
        intent. */
    method CommitIntent(intent: Rec, io: Io) returns (result: Commit)
      requires Valid() && intent.AuthCommitted? && 0 <= intent.epoch
      modifies this, run, sink
      ensures Valid()
      ensures result.Committed? <==>
                && old(sink.Value()).Accepts(io) && !old(run.cancelled) && intent.epoch == 0
                && intent.aid !in old(run.authorizations)
      ensures result.EpochRefused? <==> old(sink.healthy) && !old(Authorizes(sink.Value(), run.Value(), intent))
      ensures result.Committed? ==>
                && sink.log == old(sink.log) + [Sequenced(intent, old(run.sequence) + 1)]
                && intents == old(intents)[intent.aid := Sequenced(intent, old(run.sequence) + 1)]
      ensures !result.Committed? ==> sink.log == old(sink.log) && intents == old(intents)
      ensures run.Value() == if old(sink.healthy) then old(run.Value()).Authorize(intent.aid, intent.epoch).0
                             else old(run.Value())
      ensures run.inflight == old(run.inflight) && run.permitted == old(run.permitted)
      ensures result.Committed? ==> run.sequence == old(run.sequence) + 1 && intent.aid in run.authorizations && !run.cancelled
      ensures sink.Value() == if old(Authorizes(sink.Value(), run.Value(), intent))
                              then old(sink.Value()).Write(Sequenced(intent, old(run.sequence) + 1), io)
                              else old(sink.Value())
    {
      if !sink.healthy { return AuditRefused; }
      var seqNo := run.Authorize(intent.aid, intent.epoch);
      if seqNo.None? { return EpochRefused; }
      var rec := Sequenced(intent, seqNo.value);
      var ok := sink.Write(rec, io);
      if !ok { return AuditRefused; }
      intents := intents[intent.aid := rec];
      return Committed;
    }

    /** A permit is granted only for a durable intent with the same bindings, counted in flight, and
        handed out only when PERMIT is durable; if that append fails it is not in flight. */
    method AcquirePermit(aid: string, e: nat, conn: ConnectionLifecycle, generation: string, budget: string, io: Io)
      returns (result: Acquired)
      requires Valid()
      modifies run, sink
      ensures Valid() && intents == old(intents)
      ensures !result.NotGranted? <==>
                && aid in intents && intents[aid].epoch == e && Bindable(intents[aid], conn.connId, generation, budget)
                && !old(run.cancelled) && e == 0 && !conn.terminal && aid in old(run.authorizations) && aid !in old(run.permitted)
      ensures result.NotGranted? ==> run.Value() == old(run.Value()) && sink.Value() == old(sink.Value())
      ensures !result.NotGranted? ==>
                && (result.Granted? <==> old(sink.Value()).Accepts(io)) && aid in run.permitted
                && sink.Value() == old(sink.Value()).Write(
                     PermitGranted(aid, conn.connId, e, old(run.sequence) + 1, generation, budget), io)
      ensures result.Granted? ==>
                && fresh(result.permit) && result.permit.run == run && result.permit.aid == aid && result.permit.epoch == e
                && result.permit.audit == Some(sink) && result.permit.connId == conn.connId
                && !result.permit.released && !result.permit.failed
                && result.permit.seqNo == old(run.sequence) + 1 == run.sequence && aid in run.inflight
      ensures result.PermitUndurable? ==> aid !in run.inflight
    {
      if aid !in intents { return NotGranted; }
      var intent := intents[aid];
      if generation == "" || budget == "" || intent.generation != generation || intent.budget != budget
         || intent.epoch != e || intent.conn != conn.connId
      { return NotGranted; }
      var seqNo := run.IssuePermit(aid, e, conn);
      if seqNo.None? { return NotGranted; }
      var permit := new EffectPermit(run, aid, e, seqNo.value);
      var ok := sink.Write(PermitGranted(aid, conn.connId, e, seqNo.value, generation, budget), io);
      if !ok {
        permit.AbandonUndurable();
        return PermitUndurable;
      }
      var _ := permit.BindDurableRelease(sink, conn.connId);
      return Granted(permit);
    }

    method MarkAttempted(permit: EffectPermit, conn: string, ip: string, port: int, io: Io) returns (ok: bool)
      modifies sink
      ensures ok <==> old(sink.Value()).Accepts(io)
      ensures sink.Value() == old(sink.Value()).Write(
                EffectAttempted(permit.aid, conn, permit.epoch, permit.seqNo, ip, port), io)
      ensures ok ==> sink.log == old(sink.log) + [EffectAttempted(permit.aid, conn, permit.epoch, permit.seqNo, ip, port)]
    {
      ok := sink.Write(EffectAttempted(permit.aid, conn, permit.epoch, permit.seqNo, ip, port), io);
    }
  }

  // ---------------------------------------------------------------- the effect section of a handler

  /** What becomes of an attempt that connects: it is cancelled during TLS, its certificate is refused,
      connecting or sending fails, building the request raises, the stream breaks after some bytes, or
      it ends.  `fault` and `denial` are the reasons put into the records. */
  datatype Answer =
    | CutInTls(fault: string) | BadCertificate(pin: Pin) | Failed(reason: string, denial: string) | NotSent
    | Broke(reason: string, bytes: nat, torn: Rec)
    | Ended(status: int, responseHash: string, streamed: int, allow: Rec)

  /** The policy is read again: it agrees, it does not, or an exception leaves the handler. */
  datatype Recheck = Agrees | Differs(reason: string, denial: string) | Leaves

  /** How the appends at each place go. */
  datatype Ios = Ios(auth: Io, permit: Io, attempt: Io, outcome: Io, second: Io, denial: Io, again: Io, last: Io,
                     release: Io)

  /** What the handler meets on its way; `socketFault` is what creating the socket raises, if it does. */
  datatype Course = Course(recheck: Recheck, socketFault: Option<string>, sock: Handle, live: bool, ip: string,
                           port: int, answer: Answer, io: Ios)

  /** The sink after appends tried one after the other. */
  function Tell(s: Sink, trace: seq<(Rec, Io)>): Sink {
    if trace == [] then s
    else Tell(s, trace[..|trace| - 1]).Write(trace[|trace| - 1].0, trace[|trace| - 1].1)
  }

  lemma TellSnoc(s: Sink, trace: seq<(Rec, Io)>, r: Rec, io: Io)
    ensures Tell(s, trace + [(r, io)]) == Tell(s, trace).Write(r, io)
  {
    assert (trace + [(r, io)])[..|trace|] == trace;
  }

  lemma {:induction false} TellJoins(s: Sink, xs: seq<(Rec, Io)>, ys: seq<(Rec, Io)>)
    ensures Tell(s, xs + ys) == Tell(Tell(s, xs), ys)
  {
    if ys == [] {
      assert xs + ys == xs;
    } else {
      var n := |ys| - 1;
      TellJoins(s, xs, ys[..n]);
      TellSnoc(s, xs + ys[..n], ys[n].0, ys[n].1);
      assert xs + ys == (xs + ys[..n]) + [(ys[n].0, ys[n].1)];
    }
  }

  /** Who a handler appends for. */
  datatype Effect = Effect(aid: string, conn: string, epoch: nat, permitSeq: nat)

  function Denial(reason: string): Rec { Blocked(reason, None) }

  const AUDIT_FAULT := "AUDIT_UNHEALTHY:AuditUnhealthy"

  /** What is tried after connect.  A denial that is refused while the connect block is still open is
      caught by that block, which settles and denies again. */
  function AnswerTrace(e: Effect, answer: Answer, io: Ios): seq<(Rec, Io)> {
    match answer
    case CutInTls(fault) =>
      [(UnknownOf(e, "TERMINAL_DURING_TLS", None), io.outcome), (Denial("CANCELLED_DURING_TLS"), io.denial)]
      + if io.outcome != WriteFails && io.denial == Durable then []
        else [(UnknownOf(e, fault, None), io.again), (Denial(fault), io.last)]
    case BadCertificate(pin) =>
      [(UnknownOf(e, "UPSTREAM_CERT_INVALID", None), io.outcome),
       (Blocked("UPSTREAM_CERT_INVALID", Some(pin)), io.second)]
      + if io.outcome != WriteFails && io.second == Durable then [(Denial("UPSTREAM_CERT_INVALID"), io.denial)] else []
    case Failed(reason, denial) => [(UnknownOf(e, reason, None), io.outcome), (Denial(denial), io.denial)]
    case NotSent => []
    case Broke(reason, bytes, torn) => [(UnknownOf(e, reason, Some(bytes)), io.outcome), (torn, io.second)]
    case Ended(status, hash, streamed, allow) =>
      [(EffectCompleted(e.aid, e.conn, e.epoch, e.permitSeq, status, hash, streamed), io.outcome), (allow, io.second)]
  }

  function UnknownOf(e: Effect, reason: string, bytes: Option<int>): Rec {
    EffectUnknown(e.aid, e.conn, e.epoch, e.permitSeq, reason, bytes)
  }

  /** An outcome and the denial behind it. */
  function Turned(outcome: Rec, denial: string, io: Ios): seq<(Rec, Io)> {
    [(outcome, io.outcome), (Denial(denial), io.denial)]
  }

  function AttemptTrace(e: Effect, took: bool, course: Course): seq<(Rec, Io)> {
    [(EffectAttempted(e.aid, e.conn, e.epoch, e.permitSeq, course.ip, course.port), course.io.attempt)]
    + if took then AnswerTrace(e, course.answer, course.io) else [(Denial(AUDIT_FAULT), course.io.denial)]
  }

  /** What is tried while a permit is held, and its release: CANCELLED on a terminal connection,
      otherwise ATTEMPTED and, if that is durable, what follows connect. */
  function UseTrace(e: Effect, terminal: bool, took: bool, course: Course, release: nat): seq<(Rec, Io)> {
    (if terminal
     then Turned(EffectCancelled(e.aid, e.conn, e.epoch, Some(e.permitSeq), "TERMINAL_BEFORE_ATTEMPT"),
                 "CANCELLED_BEFORE_ATTEMPT", course.io)
     else AttemptTrace(e, took, course))
    + [(PermitReleased(e.aid, e.conn, e.epoch, e.permitSeq, release), course.io.release)]
  }

  /** What is tried behind a durable AUTH with number n. */
  function RestTrace(intent: Rec, n: nat, conn: string, terminal: bool, generation: string, budget: string,
                     course: Course): seq<(Rec, Io)>
    requires intent.AuthCommitted? && 0 <= intent.epoch
  {
    var a, c, io := intent.aid, intent.conn, course.io;
    var permit := [(PermitGranted(a, conn, intent.epoch, n + 1, generation, budget), io.permit)];
    if course.recheck.Leaves? then []
    else if course.recheck.Differs? then
      Turned(EffectFailed(a, c, intent.epoch, None, course.recheck.reason), course.recheck.denial, io)
    else if course.socketFault.Some? then
      Turned(EffectFailed(a, c, intent.epoch, None, "SOCKET_CREATE:" + course.socketFault.value),
             "UPSTREAM_ERROR:" + course.socketFault.value, io)
    else if terminal then
      Turned(EffectCancelled(a, c, intent.epoch, None, "TERMINAL_BEFORE_CONNECT"), "KILL_SWITCH_ACTIVE", io)
    else if !Bindable(intent, conn, generation, budget) then
      Turned(EffectCancelled(a, c, intent.epoch, None, "EPOCH_TERMINAL_OR_BINDING_AT_PERMIT"), "CANCELLED_AT_PERMIT", io)
    else if io.permit != Durable then permit + [(Denial(AUDIT_FAULT), io.denial)]
    else
      permit + UseTrace(Effect(a, conn, intent.epoch, n + 1), false, io.attempt == Durable, course, n + 2)
  }

  /** What is tried when AUTH does not become durable. */
  function DeniedTrace(s: Sink, run: Run, intent: Rec, io: Ios): seq<(Rec, Io)>
    requires intent.AuthCommitted? && 0 <= intent.epoch
  {
    if !s.healthy then [(Denial(AUDIT_FAULT), io.denial)]
    else if !Authorizes(s, run, intent) then [(Denial("AUDIT_UNHEALTHY:Cancelled"), io.denial)]
    else [(Sequenced(intent, run.seqNo + 1), io.auth)] + [(Denial(AUDIT_FAULT), io.denial)]
  }

  /** All that one handler tries to append, from its sanitized intent to its release. */
  function EffectTrace(s: Sink, run: Run, intent: Rec, conn: string, terminal: bool, generation: string, budget: string,
                       course: Course): seq<(Rec, Io)>
    requires intent.AuthCommitted? && 0 <= intent.epoch
  {
    if !Authorizes(s, run, intent) || !s.Accepts(course.io.auth) then DeniedTrace(s, run, intent, course.io)
    else
      [(Sequenced(intent, run.seqNo + 1), course.io.auth)]
      + RestTrace(intent, run.seqNo + 1, conn, terminal, generation, budget, course)
  }

  /** Connect is called. */
  predicate Reaches(s: Sink, run: Run, intent: Rec, conn: string, terminal: bool, generation: string, budget: string,
                    course: Course)
    requires intent.AuthCommitted?
  {
    && Authorizes(s, run, intent) && s.Accepts(course.io.auth) && course.recheck.Agrees? && course.socketFault.None?
    && !terminal && Bindable(intent, conn, generation, budget)
    && course.io.permit == Durable && course.io.attempt == Durable
  }

  /** The target is only touched behind a durable AUTH, PERMIT and ATTEMPTED. */
  lemma ReachedBehindThree(s: Sink, run: Run, intent: Rec, conn: string, terminal: bool, generation: string,
                           budget: string, course: Course)
    requires intent.AuthCommitted? && 0 <= intent.epoch
    requires Reaches(s, run, intent, conn, terminal, generation, budget, course)
    ensures (s.log + [Sequenced(intent, run.seqNo + 1),
                      PermitGranted(intent.aid, conn, intent.epoch, run.seqNo + 2, generation, budget),
                      EffectAttempted(intent.aid, conn, intent.epoch, run.seqNo + 2, course.ip, course.port)])
            <= Tell(s, EffectTrace(s, run, intent, conn, terminal, generation, budget, course)).log
  {
    var trace := EffectTrace(s, run, intent, conn, terminal, generation, budget, course);
    assert trace == trace[..3] + trace[3..] && trace[..3] == [trace[0], trace[1], trace[2]];
    ThreeDurable(s, trace[0].0, trace[1].0, trace[2].0);
    TellJoins(s, trace[..3], trace[3..]);
    TellGrows(Tell(s, trace[..3]), trace[3..]);
  }

  /** Cancelled during TLS, an attempt is settled twice in the log exactly if the file could not be
      opened for the denial between two durable outcomes. */
  lemma SettledTwiceIff(s: Sink, e: Effect, fault: string, io: Ios)
    requires s.healthy && !s.isSealed
    ensures s.log + [UnknownOf(e, "TERMINAL_DURING_TLS", None), UnknownOf(e, fault, None)]
            <= Tell(s, AnswerTrace(e, CutInTls(fault), io)).log
            <==> io.outcome == Durable && io.denial == OpenFails && io.again == Durable
  {
    var x, y := UnknownOf(e, "TERMINAL_DURING_TLS", None), UnknownOf(e, fault, None);
    var t0 := [(x, io.outcome)];
    var t1 := t0 + [(Denial("CANCELLED_DURING_TLS"), io.denial)];
    var t2 := t1 + [(y, io.again)];
    assert [] + t0 == t0;
    TellSnoc(s, [], x, io.outcome);
    TellSnoc(s, t0, Denial("CANCELLED_DURING_TLS"), io.denial);
    TellSnoc(s, t1, y, io.again);
    TellSnoc(s, t2, Denial(fault), io.last);
    var trace := AnswerTrace(e, CutInTls(fault), io);
    assert trace == if io.outcome != WriteFails && io.denial == Durable then t1 else t2 + [(Denial(fault), io.last)];
    TwoAtEnd(s.log, Tell(s, trace).log[|s.log|..], x, y);
  }

  lemma TwoAtEnd(log: seq<Rec>, more: seq<Rec>, x: Rec, y: Rec)
    ensures log + [x, y] <= log + more <==> |more| >= 2 && more[0] == x && more[1] == y
  {
    if log + [x, y] <= log + more {
      assert (log + more)[|log|] == (log + [x, y])[|log|] && (log + more)[|log| + 1] == (log + [x, y])[|log| + 1];
    }
    if |more| >= 2 && more[0] == x && more[1] == y {
      assert more == [x, y] + more[2..] && log + more == (log + [x, y]) + more[2..];
    }
  }

  lemma ThreeDurable(s: Sink, x: Rec, y: Rec, z: Rec)
    requires s.healthy && !s.isSealed
    ensures Tell(s, [(x, Durable), (y, Durable), (z, Durable)]) == s.(log := s.log + [x, y, z])
  {
    TellSnoc(s, [], x, Durable);
    TellSnoc(s, [(x, Durable)], y, Durable);
    TellSnoc(s, [(x, Durable), (y, Durable)], z, Durable);
    assert [] + [(x, Durable)] == [(x, Durable)];
    assert [(x, Durable)] + [(y, Durable)] == [(x, Durable), (y, Durable)];
    assert [(x, Durable), (y, Durable)] + [(z, Durable)] == [(x, Durable), (y, Durable), (z, Durable)];
    assert s.log + [x] + [y] + [z] == s.log + [x, y, z];
  }

  lemma {:induction false} TellGrows(s: Sink, trace: seq<(Rec, Io)>)
    ensures s.log <= Tell(s, trace).log
  {
    if trace != [] {
      TellGrows(s, trace[..|trace| - 1]);
    }
  }

  /** An append that is tried behind others. */
  method TryNext(sink: AuditSink, r: Rec, io: Io, ghost was: Sink, ghost trace: seq<(Rec, Io)>) returns (ok: bool)
    requires sink.Value() == Tell(was, trace)
    modifies sink
    ensures sink.Value() == Tell(was, trace + [(r, io)]) == old(sink.Value()).Write(r, io)
    ensures ok <==> old(sink.Value()).Accepts(io)
  {
    TellSnoc(was, trace, r, io);
    ok := sink.Write(r, io);
  }

  /** `settle`: the outcome of an attempt; a failed append is swallowed. */
  method Settle(sink: AuditSink, outcome: Rec, io: Io)
    modifies sink
    ensures sink.Value() == old(sink.Value()).Write(outcome, io) == Tell(old(sink.Value()), [(outcome, io)])
  {
    assert [] + [(outcome, io)] == [(outcome, io)];
    var _ := TryNext(sink, outcome, io, sink.Value(), []);
  }

  /** `settle` and the denial behind it. */
  method SettleDenied(sink: AuditSink, outcome: Rec, denial: string, io: Ios) returns (ok: bool)
    modifies sink
    ensures sink.Value() == Tell(old(sink.Value()), Turned(outcome, denial, io))
    ensures ok <==> old(sink.Value()).Write(outcome, io.outcome).Accepts(io.denial)
  {
    ghost var was := sink.Value();
    Settle(sink, outcome, io.outcome);
    assert [(outcome, io.outcome)] + [(Denial(denial), io.denial)] == Turned(outcome, denial, io);
    ok := TryNext(sink, Denial(denial), io.denial, was, [(outcome, io.outcome)]);
  }

  /** Cancelled during TLS: the denial of the first settle is caught where it was raised. */
  method SettleCut(sink: AuditSink, e: Effect, fault: string, io: Ios)
    requires sink.healthy && !sink.isSealed
    modifies sink
    ensures sink.Value() == Tell(old(sink.Value()), AnswerTrace(e, CutInTls(fault), io))
  {
    ghost var was, trace := sink.Value(), Turned(UnknownOf(e, "TERMINAL_DURING_TLS", None), "CANCELLED_DURING_TLS", io);
    var denied := SettleDenied(sink, UnknownOf(e, "TERMINAL_DURING_TLS", None), "CANCELLED_DURING_TLS", io);
    if !denied {
      var _ := TryNext(sink, UnknownOf(e, fault, None), io.again, was, trace);
      var _ := TryNext(sink, Denial(fault), io.last, was, trace + [(UnknownOf(e, fault, None), io.again)]);
      assert trace + [(UnknownOf(e, fault, None), io.again)] + [(Denial(fault), io.last)]
          == AnswerTrace(e, CutInTls(fault), io);
    } else {
      assert trace == AnswerTrace(e, CutInTls(fault), io);
    }
  }

  /** The certificate is refused: a record that names the pin stands before the denial. */
  method SettleBadCertificate(sink: AuditSink, e: Effect, pin: Pin, io: Ios)
    requires sink.healthy && !sink.isSealed
    modifies sink
    ensures sink.Value() == Tell(old(sink.Value()), AnswerTrace(e, BadCertificate(pin), io))
  {
    ghost var was := sink.Value();
    var unknown := UnknownOf(e, "UPSTREAM_CERT_INVALID", None);
    ghost var first := [(unknown, io.outcome)];
    ghost var both := [(unknown, io.outcome), (Blocked("UPSTREAM_CERT_INVALID", Some(pin)), io.second)];
    Settle(sink, unknown, io.outcome);
    assert first + [(Blocked("UPSTREAM_CERT_INVALID", Some(pin)), io.second)] == both;
    var ok := TryNext(sink, Blocked("UPSTREAM_CERT_INVALID", Some(pin)), io.second, was, first);
    if ok {
      var _ := TryNext(sink, Denial("UPSTREAM_CERT_INVALID"), io.denial, was, both);
    } else {
      assert both + [] == both;
    }
  }

  method SettleAnswer(sink: AuditSink, e: Effect, answer: Answer, io: Ios)
    requires sink.healthy && !sink.isSealed
    modifies sink
    ensures sink.Value() == Tell(old(sink.Value()), AnswerTrace(e, answer, io))
  {
    ghost var was := sink.Value();
    match answer
    case CutInTls(fault) => SettleCut(sink, e, fault, io);
    case BadCertificate(pin) => SettleBadCertificate(sink, e, pin, io);
    case Failed(reason, denial) => var _ := SettleDenied(sink, UnknownOf(e, reason, None), denial, io);
    case NotSent =>
    case Broke(reason, bytes, torn) =>
      var unknown := UnknownOf(e, reason, Some(bytes));
      Settle(sink, unknown, io.outcome);
      assert [(unknown, io.outcome)] + [(torn, io.second)] == AnswerTrace(e, answer, io);
      var _ := TryNext(sink, torn, io.second, was, [(unknown, io.outcome)]);
    case Ended(status, hash, streamed, allow) =>
      var completed := EffectCompleted(e.aid, e.conn, e.epoch, e.permitSeq, status, hash, streamed);
      Settle(sink, completed, io.outcome);
      assert [(completed, io.outcome)] + [(allow, io.second)] == AnswerTrace(e, answer, io);
      var _ := TryNext(sink, allow, io.second, was, [(completed, io.outcome)]);
  }

  /** What a permit's holder appends for. */
  function EffectOf(permit: EffectPermit, conn: string): Effect { Effect(permit.aid, conn, permit.epoch, permit.seqNo) }

  /** The attempt is recorded and, if that is durable, made. */
  method Attempt(gate: EffectGate, permit: EffectPermit, conn: ConnectionLifecycle, course: Course)
    returns (effect: bool)
    requires permit.connId == conn.connId
    modifies gate.sink
    ensures effect <==> old(gate.sink.Value()).Accepts(course.io.attempt)
    ensures gate.sink.Value() == Tell(old(gate.sink.Value()),
              AttemptTrace(EffectOf(permit, conn.connId), effect, course))
  {
    var e := EffectOf(permit, conn.connId);
    ghost var was := gate.sink.Value();
    ghost var attempted := EffectAttempted(permit.aid, conn.connId, permit.epoch, permit.seqNo, course.ip, course.port);
    ghost var trace := [(attempted, course.io.attempt)];
    TellSnoc(was, [], attempted, course.io.attempt);
    assert [] + trace == trace;
    effect := gate.MarkAttempted(permit, conn.connId, course.ip, course.port, course.io.attempt);
    if effect {
      SettleAnswer(gate.sink, e, course.answer, course.io);
      TellJoins(was, trace, AnswerTrace(e, course.answer, course.io));
    } else {
      var _ := TryNext(gate.sink, Denial(AUDIT_FAULT), course.io.denial, was, trace);
    }
  }

  /** The part of the effect section that holds a permit, up to its `finally`. */
  method UsePermit(gate: EffectGate, permit: EffectPermit, conn: ConnectionLifecycle, course: Course)
    returns (effect: bool)
    requires gate.Valid() && permit.run == gate.run && permit.audit == Some(gate.sink) && !permit.released
    requires permit.connId == conn.connId && permit.aid in gate.run.inflight
    requires !permit.failed
    modifies gate.run, gate.sink, permit
    ensures gate.Valid() && permit.released && gate.intents == old(gate.intents)
    ensures gate.run.Value() == old(gate.run.Value()).DoRelease(permit.aid).0 && permit.aid !in gate.run.inflight
    ensures effect <==> !conn.terminal && old(gate.sink.Value()).Accepts(course.io.attempt)
    ensures gate.sink.Value() == Tell(old(gate.sink.Value()),
              UseTrace(EffectOf(permit, conn.connId), conn.terminal, effect, course, old(gate.run.sequence) + 1))
  {
    effect := false;
    ghost var was, trace := gate.sink.Value(), [];
    var e := EffectOf(permit, conn.connId);
    var terminal := conn.IsTerminal();
    if terminal {
      var cancelled := EffectCancelled(permit.aid, conn.connId, permit.epoch, Some(permit.seqNo), "TERMINAL_BEFORE_ATTEMPT");
      var _ := SettleDenied(gate.sink, cancelled, "CANCELLED_BEFORE_ATTEMPT", course.io);
      trace := Turned(cancelled, "CANCELLED_BEFORE_ATTEMPT", course.io);
    } else {
      effect := Attempt(gate, permit, conn, course);
      trace := AttemptTrace(e, effect, course);
    }
    ghost var released := PermitReleased(permit.aid, conn.connId, permit.epoch, permit.seqNo, gate.run.sequence + 1);
    TellSnoc(was, trace, released, course.io.release);
    var _ := permit.DoRelease(course.io.release);
    assert trace + [(released, course.io.release)]
        == UseTrace(e, terminal, effect, course, old(gate.run.sequence) + 1);
  }

  /** The effect section behind a durable AUTH. */
  method UseIntent(gate: EffectGate, intent: Rec, conn: ConnectionLifecycle, generation: string, budget: string,
                   os: Handles, course: Course)
    returns (effect: bool)
    requires gate.Valid() && intent.AuthCommitted? && intent.epoch == 0
    requires intent.aid in gate.intents && gate.intents[intent.aid] == Sequenced(intent, gate.run.sequence)
    requires intent.aid in gate.run.authorizations && intent.aid !in gate.run.permitted && !gate.run.cancelled
    requires gate.sink.healthy && !gate.sink.isSealed && intent.aid !in gate.run.inflight
    modifies gate.run, gate.sink, conn, os
    ensures gate.Valid() && intent.aid !in gate.run.inflight && gate.intents == old(gate.intents)
    ensures effect <==> course.recheck.Agrees? && course.socketFault.None? && !old(conn.terminal)
                        && Bindable(intent, conn.connId, generation, budget)
                        && course.io.permit == Durable && course.io.attempt == Durable
    ensures gate.sink.Value() == Tell(old(gate.sink.Value()),
              RestTrace(intent, old(gate.run.sequence), conn.connId, old(conn.terminal), generation, budget, course))
  {
    effect := false;
    match course.recheck
    case Leaves => return;
    case Differs(reason, denial) =>
      var _ := SettleDenied(gate.sink, EffectFailed(intent.aid, intent.conn, intent.epoch, None, reason), denial, course.io);
      return;
    case Agrees =>
    if course.socketFault.Some? {
      var failed := EffectFailed(intent.aid, intent.conn, intent.epoch, None, "SOCKET_CREATE:" + course.socketFault.value);
      var _ := SettleDenied(gate.sink, failed, "UPSTREAM_ERROR:" + course.socketFault.value, course.io);
      return;
    }
    var tracked := conn.TrackOrReject(course.sock, os, course.live);
    if !tracked {
      var cancelled := EffectCancelled(intent.aid, intent.conn, intent.epoch, None, "TERMINAL_BEFORE_CONNECT");
      var _ := SettleDenied(gate.sink, cancelled, "KILL_SWITCH_ACTIVE", course.io);
      return;
    }
    effect := AskPermit(gate, intent, conn, generation, budget, course);
  }

  /** The effect section once the upstream socket is tracked. */
  method AskPermit(gate: EffectGate, intent: Rec, conn: ConnectionLifecycle, generation: string, budget: string,
                   course: Course)
    returns (effect: bool)
    requires gate.Valid() && intent.AuthCommitted? && intent.epoch == 0
    requires intent.aid in gate.intents && gate.intents[intent.aid] == Sequenced(intent, gate.run.sequence)
    requires intent.aid in gate.run.authorizations && intent.aid !in gate.run.permitted && !gate.run.cancelled
    requires gate.sink.healthy && !gate.sink.isSealed && intent.aid !in gate.run.inflight
    requires course.recheck.Agrees? && course.socketFault.None? && !conn.terminal
    modifies gate.run, gate.sink
    ensures gate.Valid() && intent.aid !in gate.run.inflight && gate.intents == old(gate.intents)
    ensures effect <==> Bindable(intent, conn.connId, generation, budget)
                        && course.io.permit == Durable && course.io.attempt == Durable
    ensures gate.sink.Value() == Tell(old(gate.sink.Value()),
              RestTrace(intent, old(gate.run.sequence), conn.connId, false, generation, budget, course))
  {
    effect := false;
    var aid, io := intent.aid, course.io;
    ghost var was, n := gate.sink.Value(), gate.run.sequence;
    ghost var granted := PermitGranted(aid, conn.connId, intent.epoch, n + 1, generation, budget);
    TellSnoc(was, [], granted, io.permit);
    assert [] + [(granted, io.permit)] == [(granted, io.permit)];
    var acquired := gate.AcquirePermit(aid, intent.epoch, conn, generation, budget, io.permit);
    match acquired
    case PermitUndurable =>
      var _ := TryNext(gate.sink, Denial(AUDIT_FAULT), io.denial, was, [(granted, io.permit)]);
    case NotGranted =>
      var cancelled := EffectCancelled(aid, intent.conn, intent.epoch, None, "EPOCH_TERMINAL_OR_BINDING_AT_PERMIT");
      var _ := SettleDenied(gate.sink, cancelled, "CANCELLED_AT_PERMIT", io);
    case Granted(permit) =>
      effect := UsePermit(gate, permit, conn, course);
      TellJoins(was, [(granted, io.permit)],
                UseTrace(Effect(aid, conn.connId, intent.epoch, n + 1), false, effect, course, n + 2));
  }

  /** The effect section of `_inside`: what it appends is `EffectTrace`, the target is touched exactly if
      `Reaches` says so, and whatever happens nothing stays in flight. */
  method RunEffect(gate: EffectGate, intent: Rec, conn: ConnectionLifecycle, generation: string, budget: string,
                   os: Handles, course: Course)
    returns (effect: bool)
    requires gate.Valid() && intent.AuthCommitted? && 0 <= intent.epoch
    requires intent.aid !in gate.run.authorizations
    modifies gate, gate.run, gate.sink, conn, os
    ensures gate.Valid() && intent.aid !in gate.run.inflight
    ensures effect <==> Reaches(old(gate.sink.Value()), old(gate.run.Value()), intent, conn.connId, old(conn.terminal),
                                generation, budget, course)
    ensures gate.sink.Value() == Tell(old(gate.sink.Value()),
              EffectTrace(old(gate.sink.Value()), old(gate.run.Value()), intent, conn.connId, old(conn.terminal),
                          generation, budget, course))
  {
    effect := false;
    ghost var was, n := gate.sink.Value(), gate.run.sequence + 1;
    NeverPermitted(gate.run.Value(), intent.aid);
    var committed := CommitOrDeny(gate, intent, course.io);
    if committed {
      effect := UseIntent(gate, intent, conn, generation, budget, os, course);
      TellJoins(was, [(Sequenced(intent, n), course.io.auth)],
                RestTrace(intent, n, conn.connId, old(conn.terminal), generation, budget, course));
    }
  }

  /** AUTH is durable, or the request is denied. */
  method CommitOrDeny(gate: EffectGate, intent: Rec, io: Ios) returns (committed: bool)
    requires gate.Valid() && intent.AuthCommitted? && 0 <= intent.epoch
    modifies gate, gate.run, gate.sink
    ensures gate.Valid() && gate.run.inflight == old(gate.run.inflight) && gate.run.permitted == old(gate.run.permitted)
    ensures committed <==> old(Authorizes(gate.sink.Value(), gate.run.Value(), intent)) && old(gate.sink.Value()).Accepts(io.auth)
    ensures committed ==>
              && intent.epoch == 0 && gate.run.sequence == old(gate.run.sequence) + 1 && !gate.run.cancelled
              && intent.aid in gate.run.authorizations && intent.aid in gate.intents
              && gate.intents[intent.aid] == Sequenced(intent, gate.run.sequence)
              && gate.sink.healthy && !gate.sink.isSealed
    ensures gate.sink.Value() == Tell(old(gate.sink.Value()),
              if committed then [(Sequenced(intent, old(gate.run.sequence) + 1), io.auth)]
              else DeniedTrace(old(gate.sink.Value()), old(gate.run.Value()), intent, io))
  {
    ghost var was, n := gate.sink.Value(), gate.run.sequence + 1;
    ghost var auth := [(Sequenced(intent, n), io.auth)];
    ghost var owed := Authorizes(gate.sink.Value(), gate.run.Value(), intent);
    TellSnoc(was, [], Sequenced(intent, n), io.auth);
    assert [] + auth == auth;
    var result := gate.CommitIntent(intent, io.auth);
    committed := result.Committed?;
    if !committed {
      var denial := Denial(if result.EpochRefused? then "AUDIT_UNHEALTHY:Cancelled" else AUDIT_FAULT);
      assert [] + [(denial, io.denial)] == [(denial, io.denial)];
      var _ := TryNext(gate.sink, denial, io.denial, was, if owed then auth else []);
    }
  }

  /** A new attempt has no permit. */
  lemma NeverPermitted(run: Run, a: string)
    requires RunInv(run) && a !in run.auths
    ensures a !in run.permitted && a !in run.inflight
  {
    assert AttemptInv(run, a);
  }

  // ---------------------------------------------------------------- Registry

  /** Which handles are closed once the lists have been shut down one after the other. */
  function ClosedAfter(socks: seq<seq<Handle>>, closed: set<Handle>): set<Handle> {
    if socks == [] then closed
    else ClosedAfter(socks[..|socks| - 1], closed) + Elems(socks[|socks| - 1])
  }

  /** The connections, in order, of whom the shutdown found a handle live when it came to them. */
  function TornIds(ids: seq<string>, socks: seq<seq<Handle>>, closed: set<Handle>, live: set<Handle>): seq<string>
    requires |ids| == |socks|
  {
    if ids == [] then []
    else
      var n := |ids| - 1;
      TornIds(ids[..n], socks[..n], closed, live)
      + if SomeLive(socks[n], ClosedAfter(socks[..n], closed), live) then [ids[n]] else []
  }

  lemma {:induction false} ClosedAfterHas(socks: seq<seq<Handle>>, closed: set<Handle>, i: nat, h: Handle)
    requires i < |socks| && h in socks[i]
    ensures h in ClosedAfter(socks, closed)
  {
    var n := |socks| - 1;
    if i < n {
      ClosedAfterHas(socks[..n], closed, i, h);
    }
  }

  lemma {:induction false} TornIdsTrue(ids: seq<string>, socks: seq<seq<Handle>>, closed: set<Handle>, live: set<Handle>, i: nat)
    requires |ids| == |socks| && i < |TornIds(ids, socks, closed, live)|
    ensures exists j: nat ::
              && j < |ids| && ids[j] == TornIds(ids, socks, closed, live)[i]
              && SomeLive(socks[j], ClosedAfter(socks[..j], closed), live)
  {
    var n := |ids| - 1;
    var front := TornIds(ids[..n], socks[..n], closed, live);
    if i < |front| {
      TornIdsTrue(ids[..n], socks[..n], closed, live, i);
      var j: nat :| && j < n && ids[..n][j] == front[i]
                    && SomeLive(socks[..n][j], ClosedAfter(socks[..n][..j], closed), live);
      assert socks[..n][..j] == socks[..j];
    }
  }

  class Registry {
    const run: RunContext
    var conns: set<ConnectionLifecycle>
    var killed: bool
    var producerAdmission: bool
    var activeProducers: nat

    ghost predicate Valid() reads this, run {
      run.Valid() && (producerAdmission <==> !killed) && (killed ==> run.cancelled)
    }

    constructor (r: RunContext)
      requires r.Valid()
      ensures Valid() && run == r && conns == {} && !killed && activeProducers == 0
    {
      run, conns, killed, producerAdmission, activeProducers := r, {}, false, true, 0;
    }

    method Add(c: ConnectionLifecycle) returns (ok: bool)
      requires Valid()
      modifies this
      ensures Valid() && ok == !old(killed) && killed == old(killed) && activeProducers == old(activeProducers)
      ensures conns == if ok then old(conns) + {c} else old(conns)
    {
      if killed { return false; }
      conns := conns + {c};
      return true;
    }

    method Remove(c: ConnectionLifecycle)
      requires Valid()
      modifies this
      ensures Valid() && conns == old(conns) - {c} && killed == old(killed) && activeProducers == old(activeProducers)
    {
      conns := conns - {c};
    }

    method BeginProducer() returns (ok: bool)
      requires Valid()
      modifies this
      ensures Valid() && ok == !old(killed) && killed == old(killed) && conns == old(conns)
      ensures activeProducers == old(activeProducers) + if ok then 1 else 0
    {
      if killed || !producerAdmission { return false; }
      activeProducers := activeProducers + 1;
      return true;
    }

    /** A producer that was never begun cannot end. */
    method EndProducer() returns (ok: bool)
      requires Valid()
      modifies this
      ensures Valid() && ok == (old(activeProducers) > 0) && killed == old(killed) && conns == old(conns)
      ensures activeProducers == if ok then old(activeProducers) - 1 else 0
    {
      if activeProducers <= 0 { return false; }
      activeProducers := activeProducers - 1;
      return true;
    }

    /** The elements of a set, in any order. */
    static method ListOf(rest0: set<ConnectionLifecycle>) returns (list: seq<ConnectionLifecycle>)
      ensures (set c | c in list) == rest0
      ensures forall i, j | 0 <= i < j < |list| :: list[i] != list[j]
    {
      list := [];
      var rest := rest0;
      while rest != {}
        invariant (set c | c in list) + rest == rest0
        invariant forall c | c in list :: c !in rest
        invariant forall i, j | 0 <= i < j < |list| :: list[i] != list[j]
        decreases |rest|
      {
        var c :| c in rest;
        list := list + [c];
        rest := rest - {c};
      }
    }

    /** Cancels the run, closes admission and empties the registry, in this order. */
    method CloseAdmission() returns (transition: Cancellation, victims: seq<ConnectionLifecycle>)
      requires Valid()
      modifies this, run
      ensures Valid() && killed && conns == {} && activeProducers == old(activeProducers)
      ensures run.Value() == old(run.Value()).Cancel().0 && run.cancellation == Some(transition)
      ensures (set c | c in victims) == old(conns)
      ensures forall i, j | 0 <= i < j < |victims| :: victims[i] != victims[j]
    {
      var newly;
      transition, newly := run.Cancel();
      killed := true;
      producerAdmission := false;
      victims := ListOf(conns);
      conns := {};
    }

    /** Marks every victim terminal before any socket is touched. */
    static method MarkAll(victims: seq<ConnectionLifecycle>) returns (retained: seq<seq<Handle>>)
      modifies set c | c in victims
      ensures |retained| == |victims|
      ensures forall i | 0 <= i < |victims| :: victims[i].terminal && victims[i].sockets == retained[i]
      ensures forall i | 0 <= i < |victims| :: victims[i].sockets == old(victims[i].sockets)
    {
      retained := [];
      for k := 0 to |victims|
        invariant |retained| == k
        invariant forall i | 0 <= i < |victims| :: victims[i].sockets == old(victims[i].sockets)
        invariant forall i | 0 <= i < k :: victims[i].terminal && victims[i].sockets == retained[i]
      {
        var socks := victims[k].BeginTermination();
        retained := retained + [socks];
      }
    }

    /** Shuts down every list of retained handles. */
    static method ShutAll(ids: seq<string>, retained: seq<seq<Handle>>, os: Handles, live: set<Handle>) returns (torn: seq<string>)
      requires |ids| == |retained|
      modifies os
      ensures torn == TornIds(ids, retained, old(os.closed), live)
      ensures os.closed == ClosedAfter(retained, old(os.closed))
    {
      torn := [];
      for k := 0 to |ids|
        invariant torn == TornIds(ids[..k], retained[..k], old(os.closed), live)
        invariant os.closed == ClosedAfter(retained[..k], old(os.closed))
      {
        assert ids[..k + 1][..k] == ids[..k] && retained[..k + 1][..k] == retained[..k];
        var found := ConnectionLifecycle.ShutdownRetained(retained[k], os, live);
        if found { torn := torn + [ids[k]]; }
      }
      assert ids[..|ids|] == ids && retained[..|ids|] == retained;
    }

    /** Enforcement: every connection of the registry is terminal, and all its handles are closed. */
    method Enforce(os: Handles, live: set<Handle>)
      returns (transition: Cancellation, torn: seq<string>, victims: seq<ConnectionLifecycle>, retained: seq<seq<Handle>>)
      requires Valid()
      modifies this, run, conns, os
      ensures Valid() && killed && conns == {} && (set c | c in victims) == old(conns)
      ensures run.Value() == old(run.Value()).Cancel().0 && run.cancellation == Some(transition)
      ensures forall c | c in old(conns) :: Shut(c, os) && c.sockets == old(c.sockets)
      ensures Retains(victims, retained) && torn == TornIds(IdsOf(victims), retained, old(os.closed), live)
    {
      transition, victims := CloseAdmission();
      assert forall c | c in old(conns) :: c in victims;
      torn, retained := ShutVictims(victims, os, live);
    }

    static method ShutVictims(victims: seq<ConnectionLifecycle>, os: Handles, live: set<Handle>)
      returns (torn: seq<string>, retained: seq<seq<Handle>>)
      modifies set c | c in victims
      modifies os
      ensures forall c | c in victims :: Shut(c, os) && c.sockets == old(c.sockets)
      ensures Retains(victims, retained) && torn == TornIds(IdsOf(victims), retained, old(os.closed), live)
    {
      retained := MarkAll(victims);
      torn := ShutAll(IdsOf(victims), retained, os, live);
      forall i | 0 <= i < |victims| ensures Elems(victims[i].sockets) <= os.closed {
        forall h | h in victims[i].sockets ensures h in os.closed {
          ClosedAfterHas(retained, old(os.closed), i, h);
        }
      }
    }

    /** `record_linearization`: the second record is only tried when the first is durable. */
    static method Record(sink: AuditSink, t: Cancellation, requestIo: Io, linearizedIo: Io) returns (durable: bool)
      modifies sink
      ensures durable <==> old(sink.Value()).Accepts(requestIo) && old(sink.Value()).Accepts(linearizedIo)
      ensures sink.isSealed == old(sink.isSealed)
      ensures durable ==> sink.log == old(sink.log) + [CancelRequested("STOP_ALL_PRESENT", t.newEpoch, t.seqNo),
                                                       CancelLinearized(t.cancelledEpoch, t.newEpoch, t.seqNo, t.inflight)]
      ensures !durable ==> sink.log == old(sink.log) + if old(sink.Value()).Accepts(requestIo)
                                                       then [CancelRequested("STOP_ALL_PRESENT", t.newEpoch, t.seqNo)] else []
    {
      durable := sink.Write(CancelRequested("STOP_ALL_PRESENT", t.newEpoch, t.seqNo), requestIo);
      if durable {
        durable := sink.Write(CancelLinearized(t.cancelledEpoch, t.newEpoch, t.seqNo, t.inflight), linearizedIo);
      }
    }

    /** Cancellation: the run, the registry and every victim are dealt with before the first record
        is appended, whether or not the two records go through. */
    method TerminateAll(sink: AuditSink, requestIo: Io, linearizedIo: Io, os: Handles, live: set<Handle>)
      returns (torn: seq<string>, victims: seq<ConnectionLifecycle>, durable: bool)
      requires Valid()
      modifies this, run, conns, sink, os
      ensures Valid() && killed && conns == {} && (set c | c in victims) == old(conns)
      ensures run.Value() == old(run.Value()).Cancel().0
      ensures forall c | c in old(conns) :: Shut(c, os) && c.sockets == old(c.sockets)
      ensures exists retained :: Retains(victims, retained) && torn == TornIds(IdsOf(victims), retained, old(os.closed), live)
      ensures durable <==> old(sink.Value()).Accepts(requestIo) && old(sink.Value()).Accepts(linearizedIo)
      ensures durable ==> sink.log == old(sink.log) + [RequestRec(run.Value()), LinearizedRec(run.Value())]
    {
      var transition, retained;
      transition, torn, victims, retained := Enforce(os, live);
      durable := Record(sink, transition, requestIo, linearizedIo);
      assert Retains(victims, retained);
    }
  }

  function IdsOf(victims: seq<ConnectionLifecycle>): seq<string> {
    seq(|victims|, i requires 0 <= i < |victims| => victims[i].connId)
  }

  ghost predicate Shut(c: ConnectionLifecycle, os: Handles)
    reads c, os
  {
    c.terminal && Elems(c.sockets) <= os.closed
  }

  /** The lists are what the connections retain. */
  ghost predicate Retains(victims: seq<ConnectionLifecycle>, retained: seq<seq<Handle>>)
    reads set c | c in victims
  {
    |retained| == |victims| && forall i | 0 <= i < |victims| :: victims[i].sockets == retained[i]
  }
}
