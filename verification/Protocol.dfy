/** The gateway run as a step system: any number of handler threads, one canceller and the
    listener, over one `RunContext`, one registry and one audit sink.

    Every step is one lock region of the source, or one audit append, or one wait that returned;
    appends may succeed, fail before the file was opened, or fail inside the write. */
module Protocol {
  import opened Records
  import opened RunModel
  import opened History
  import opened Connections

  // ---------------------------------------------------------------- the audit sink

  /** How one append went.  `OpenFails` raises before the guarded region, so it does not latch;
      `WriteFails` is a short write or a failed fsync and latches the sink for good. */
  datatype Io = Durable | OpenFails | WriteFails

  datatype Sink = Sink(log: seq<Rec>, healthy: bool, isSealed: bool)
  {
    predicate Accepts(io: Io) { healthy && !isSealed && io == Durable }

    function Write(r: Rec, io: Io): Sink {
      if isSealed || !healthy then this
      else match io
        case Durable => this.(log := log + [r])
        case OpenFails => this
        case WriteFails => this.(healthy := false)
    }

    function SealWith(r: Rec, io: Io): Sink {
      if Accepts(io) then Write(r, io).(isSealed := true) else Write(r, io)
    }
  }

  // ---------------------------------------------------------------- handlers

  /** What one tunnelled request brings along: its connection, the policy decision and the wire
      fields that end up in audit records.  `path` is the rest of the URL, from the port on;
      `credential` is the client's credential id, empty if none; `injects` says whether the policy supplied a secret for it. */
  datatype Request = Request(conn: string, program: string, generation: string, budget: string,
                             verb: string, host: string, path: string, pin: Pin,
                             credential: string, injects: bool, digest: string,
                             sni: Option<string>)

  /** Where a handler stands between two steps. */
  datatype Pc =
    | Idle          // not admitted as a producer
    | Working       // admitted, connection not registered
    | Registered    // connection registered
    | EpochRead     // cancellation epoch read
    | HealthSeen    // the sink said it was healthy
    | AuthOwed      // A allocated, AUTH not yet appended
    | Authorized    // AUTH durable
    | Refused       // no permit will be asked for or was granted
    | Tracked       // upstream socket registered
    | PermitOwed    // P allocated, PERMIT not yet appended
    | PermitLost    // PERMIT append raised
    | Permitted     // PERMIT durable, release bound
    | Doomed        // connection seen terminal after the permit
    | Cleared       // connection seen live after the permit
    | Attempted     // ATTEMPTED durable
    | Connected     // connect was called: the target effect
    | DenialOwed    // cancelled during TLS: UNKNOWN settled, the denial not yet appended
    | ResettleOwed  // that denial raised, inside the try whose handler settles again
    | TornOwed      // UNKNOWN settled, CONNECTION_TERMINATED not yet appended
    | AllowOwed     // COMPLETED settled, ALLOW not yet appended
    | Unwinding     // in the finally block, permit not yet released
    | ReleaseOwed   // R allocated, RELEASED not yet appended
    | Leaving       // only the connection is left to close
    | Closing       // shutting the retained handles down
    | Removed       // out of the registry
    | Done          // no longer a producer

  /** `story` records, for the proofs, what this attempt has durably appended; `effect` whether
      connect was called. */
  datatype Handler = Handler(req: Request, pc: Pc, epoch: nat, a: nat, p: nat, r: nat,
                             status: int, responseHash: string, streamed: nat,
                             toShut: seq<Handle>, story: seq<Rec>, effect: bool)

  function CredentialRef(q: Request): string {
    if q.credential == "" then "none" else q.credential
  }

  function UrlOf(q: Request): string {
    "https://" + q.host + q.path
  }

  function AuthRec(aid: string, h: Handler): Rec {
    AuthCommitted(aid, h.req.conn, h.epoch, h.a, PROFILE, h.req.program, h.req.generation,
                  h.req.budget, Upper(h.req.verb), h.req.host, h.req.pin, CredentialRef(h.req),
                  h.req.digest)
  }

  function PermitRec(aid: string, h: Handler): Rec {
    PermitGranted(aid, h.req.conn, h.epoch, h.p, h.req.generation, h.req.budget)
  }

  function AttemptRec(aid: string, h: Handler): Rec {
    EffectAttempted(aid, h.req.conn, h.epoch, h.p, h.req.pin.ip, h.req.pin.port)
  }

  function PermitRef(h: Handler): Option<int> {
    if h.p > 0 then Some(h.p) else None
  }

  function FailedRec(aid: string, h: Handler, reason: string): Rec {
    EffectFailed(aid, h.req.conn, h.epoch, PermitRef(h), reason)
  }

  function CancelledRec(aid: string, h: Handler, reason: string): Rec {
    EffectCancelled(aid, h.req.conn, h.epoch, PermitRef(h), reason)
  }

  function UnknownRec(aid: string, h: Handler, reason: string, bytes: Option<int>): Rec {
    EffectUnknown(aid, h.req.conn, h.epoch, h.p, reason, bytes)
  }

  function CompletedRec(aid: string, h: Handler): Rec {
    EffectCompleted(aid, h.req.conn, h.epoch, h.p, h.status, h.responseHash, h.streamed)
  }

  function AllowRec(aid: string, h: Handler): Rec {
    Allow(aid, h.req.conn, h.req.program, h.req.verb, h.req.host, h.req.pin, DigestHex(h.req),
          SANITIZED, h.responseHash, h.status, h.streamed, "ALLOW", true, false, h.req.injects,
          UrlOf(h.req), h.req.sni)
  }

  function DigestHex(q: Request): string {
    if |q.digest| >= 7 then q.digest[7..] else ""
  }

  function ReleaseRec(aid: string, h: Handler): Rec {
    PermitReleased(aid, h.req.conn, h.epoch, h.p, h.r)
  }

  function TornRec(aid: string, h: Handler, reason: string): Rec {
    ConnectionTerminated(aid, h.req.conn, h.req.verb, h.req.pin, h.streamed, UrlOf(h.req), reason)
  }

  /** A handler counted as an audit producer. */
  predicate Producing(h: Handler) {
    h.pc != Idle && h.pc != Done
  }

  // ---------------------------------------------------------------- the canceller

  datatype CPc =
    | CWatching | CCancelled | CMarking | CShutting | CStopping | CRequesting | CLinearizing
    | CDraining | CListenerSeen | CEffectsSeen | CDeciding | CKilled | CAcked
    | CClosed | CTimedOut | CFailed

  /** `victims` is the registry snapshot, `retained` the handle lists of the victims marked so
      far, `done` how many victims are shut down and `at` the position in the current list; `found`
      records, for the theorems, the positions whose shutdown found a live handle. */
  datatype Canceller = Canceller(pc: CPc, victims: seq<string>, retained: seq<seq<Handle>>,
                                 done: nat, at: nat, sawLive: bool, torn: seq<string>, found: set<(nat, nat)>,
                                 stopStarted: bool, stopped: bool, effects: nat, producers: nat)
  {
    predicate ListenerDown() { stopped && stopStarted }
    predicate Quiescent() { effects == 0 && producers == 0 && ListenerDown() }
  }

  const WATCHING := Canceller(CWatching, [], [], 0, 0, false, [], {}, false, false, 0, 0)

  function KillFacts(run: Run, c: Canceller): Facts
    requires run.cancellation.Some?
  {
    Facts(run.epoch, run.cancellation.value.seqNo, c.Quiescent(), c.effects + c.producers, c.effects,
          c.producers, if c.ListenerDown() then STOPPED else NOT_STOPPED, NO_EXTERNAL)
  }

  function RequestRec(run: Run): Rec
    requires run.cancellation.Some?
  {
    CancelRequested("STOP_ALL_PRESENT", run.cancellation.value.newEpoch, run.cancellation.value.seqNo)
  }

  function LinearizedRec(run: Run): Rec
    requires run.cancellation.Some?
  {
    var c := run.cancellation.value;
    CancelLinearized(c.cancelledEpoch, c.newEpoch, c.seqNo, c.inflight)
  }

  function KillRec(run: Run, c: Canceller): Rec
    requires run.cancellation.Some?
  {
    KillSwitch("STOP_ALL_TORE_DOWN_LIVE_CONNECTIONS", |c.torn|, c.torn, c.victims, KillFacts(run, c))
  }

  function AckRec(run: Run, c: Canceller): Rec
    requires run.cancellation.Some?
  {
    CancelAck(ACK_SCOPE, KillFacts(run, c))
  }

  function Blockers(c: Canceller): seq<string> {
    (if c.effects > 0 then ["EFFECT_PERMITS_REMAIN"] else [])
    + (if c.producers > 0 then ["AUDIT_PRODUCERS_REMAIN"] else [])
    + (if !c.ListenerDown() then ["LISTENER_NOT_STOPPED"] else [])
  }

  function TimeoutRec(run: Run, c: Canceller): Rec
    requires run.cancellation.Some?
  {
    DrainTimeout(NO_ACK_SCOPE, Some(Blockers(c)), KillFacts(run, c))
  }

  function ClosedRec(run: Run): Rec
    requires run.cancellation.Some?
  {
    RunClosed(RUN_CLOSE_SCHEMA, run.cancellation.value.seqNo, "CLOSED", "TERMINAL", 0, 0, 0, STOPPED,
              SEAL_ACTION, ACK_DECISION)
  }

  // ---------------------------------------------------------------- the whole system

  /** `broken` and `lateAttempt` record, for the theorems, the attempts that lack an essential record
      because an append of their handler failed or it left early, and whether an ATTEMPTED was appended after REQUESTED. */
  datatype State = State(run: Run, killed: bool, producers: nat, conns: set<string>, net: Net,
                         sink: Sink, hs: map<string, Handler>, can: Canceller,
                         listenerClosed: bool, lateAttempt: bool, broken: set<string>)

  datatype Step =
    | BeginProducer(aid: string) | AddConnection(aid: string) | GiveUp(aid: string)
    | ReadEpoch(aid: string) | CheckHealth(aid: string) | Authorize(aid: string)
    | AppendAuth(aid: string, io: Io) | RecheckFails(aid: string, reason: string, io: Io)
    | Escape(aid: string) | TrackUpstream(aid: string, sock: Handle)
    | IssuePermit(aid: string) | SettleRefused(aid: string, reason: string, io: Io)
    | AppendPermit(aid: string, io: Io) | Abandon(aid: string) | CheckTerminal(aid: string)
    | SettleDoomed(aid: string, reason: string, io: Io) | AppendAttempted(aid: string, io: Io)
    | Connect(aid: string)
    | SettleTerminal(aid: string, io: Io) | DenyTerminal(aid: string, reason: string, io: Io)
    | SettleAgain(aid: string, reason: string, io: Io)
    | SettleUnknown(aid: string, reason: string, io: Io)
    | SettleStreamLost(aid: string, reason: string, bytes: nat, io: Io)
    | AppendTorn(aid: string, reason: string, io: Io)
    | SettleCompleted(aid: string, status: int, responseHash: string, bytes: nat, io: Io)
    | AppendAllow(aid: string, io: Io) | ReleasePermit(aid: string) | AppendRelease(aid: string, io: Io)
    | Deny(aid: string, reason: string, withPin: bool, io: Io)
    | Track(aid: string, sock: Handle) | Transfer(aid: string, old_: Handle, new_: Handle)
    | CloseRejected(sock: Handle)
    | BeginClose(aid: string) | CloseOne(aid: string) | RemoveConnection(aid: string)
    | EndProducer(aid: string)
    | CancelRun | CloseAdmission(order: seq<string>) | MarkVictim | EndMarking
    | ShutOne(live: bool) | NextVictim | EndShutting | StopListener(started: bool)
    | AppendEvidence(io: Io) | SeeListener(stopped: bool) | SeeEffects | SeeProducers
    | ListenerCloses

  // ---------------------------------------------------------------- handler steps

  /** What a step does to the attempt's essential records: nothing, loses one, or makes up for one. */
  datatype Fault = NoFault | Breaks | Mends

  /** What one step does to its handler and to `RunContext`, and the record it appends, if any. */
  datatype Move = Move(run: Run, h: Handler, rec: Option<Rec>, io: Io, fault: Fault)
  {
    /** Whether the attempt lacks an essential record after the step. */
    predicate After(broken: bool) { fault == Breaks || (broken && fault != Mends) }
  }

  function Goes(s: State, h: Handler, pc: Pc): Option<Move> {
    Some(Move(s.run, h.(pc := pc), None, Durable, NoFault))
  }

  /** An append whose failure the handler notices: it continues at `good` or at `bad`. */
  function Appends(s: State, h: Handler, r: Rec, io: Io, good: Pc, bad: Pc, essential: bool): Option<Move> {
    var ok := s.sink.Accepts(io);
    Some(Move(s.run, h.(pc := if ok then good else bad), Some(r), io, if essential && !ok then Breaks else NoFault))
  }

  /** `settle` swallows the failure of its append: the handler continues at `next` either way. */
  function Settles(s: State, h: Handler, r: Rec, io: Io, next: Pc): Option<Move> {
    Appends(s, h, r, io, next, next, true)
  }

  /** The steps of `_inside` that touch only the handler, the run and the sink; None when the step
      is not the handler's next one. */
  function HandlerMove(s: State, step: Step, a: string, h: Handler): Option<Move> {
    match step
    case GiveUp(_) =>
      if h.pc in {Working, Registered, EpochRead, HealthSeen} then Goes(s, h, Leaving) else None
    case ReadEpoch(_) =>
      if h.pc == Registered then Goes(s, h.(epoch := s.run.epoch), EpochRead) else None
    case CheckHealth(_) =>
      if h.pc == EpochRead then Goes(s, h, if s.sink.healthy then HealthSeen else Leaving) else None
    case Authorize(_) =>
      if h.pc != HealthSeen then None
      else
        var (run, seqNo) := s.run.Authorize(a, h.epoch);
        if seqNo.None? then Goes(s, h, Leaving)
        else Some(Move(run, h.(pc := AuthOwed, a := seqNo.value), None, Durable, NoFault))
    case AppendAuth(_, io) =>
      if h.pc == AuthOwed then Appends(s, h, AuthRec(a, h), io, Authorized, Leaving, false) else None
    case RecheckFails(_, reason, io) =>
      if h.pc == Authorized && reason != "" then Settles(s, h, FailedRec(a, h, reason), io, Leaving) else None
    case Escape(_) =>
      if h.pc == Authorized then Some(Move(s.run, h.(pc := Leaving), None, Durable, Breaks))
      else if h.pc == Connected then Some(Move(s.run, h.(pc := Unwinding), None, Durable, Breaks))
      else None
    case IssuePermit(_) =>
      if h.pc != Tracked then None
      else if h.req.generation == "" || h.req.budget == "" then Goes(s, h, Refused)
      else
        var (run, seqNo) := s.run.IssuePermit(a, h.epoch, s.net.Terminal(h.req.conn));
        if seqNo.None? then Goes(s, h, Refused)
        else Some(Move(run, h.(pc := PermitOwed, p := seqNo.value), None, Durable, NoFault))
    case SettleRefused(_, reason, io) =>
      if h.pc == Refused && reason != "" then Settles(s, h, CancelledRec(a, h, reason), io, Leaving) else None
    case AppendPermit(_, io) =>
      if h.pc == PermitOwed then Appends(s, h, PermitRec(a, h), io, Permitted, PermitLost, true) else None
    case Abandon(_) =>
      if h.pc == PermitLost then Some(Releases(s, a, h, Leaving)) else None
    case CheckTerminal(_) =>
      if h.pc == Permitted then Goes(s, h, if s.net.Terminal(h.req.conn) then Doomed else Cleared) else None
    case SettleDoomed(_, reason, io) =>
      if h.pc == Doomed && reason != "" then Settles(s, h, CancelledRec(a, h, reason), io, Unwinding) else None
    case AppendAttempted(_, io) =>
      if h.pc == Cleared then Appends(s, h, AttemptRec(a, h), io, Attempted, Unwinding, true) else None
    case Connect(_) =>
      if h.pc == Attempted then Goes(s, h.(effect := true), Connected) else None
    case SettleTerminal(_, io) =>
      if h.pc == Connected && s.net.Terminal(h.req.conn)
      then Settles(s, h, UnknownRec(a, h, "TERMINAL_DURING_TLS", None), io, DenialOwed) else None
    case DenyTerminal(_, reason, io) =>
      if h.pc == DenialOwed && reason != ""
      then Appends(s, h, Blocked(reason, None), io, Unwinding, ResettleOwed, false) else None
    case SettleAgain(_, reason, io) =>
      if h.pc == ResettleOwed && reason != "" then
        Some(Move(s.run, h.(pc := Unwinding), Some(UnknownRec(a, h, reason, None)), io,
                  if s.sink.Accepts(io) then Mends else NoFault))
      else None
    case SettleUnknown(_, reason, io) =>
      if h.pc == Connected && reason != "" then Settles(s, h, UnknownRec(a, h, reason, None), io, Unwinding) else None
    case SettleStreamLost(_, reason, bytes, io) =>
      if h.pc == Connected && reason != ""
      then Settles(s, h.(streamed := bytes), UnknownRec(a, h, reason, Some(bytes)), io, TornOwed) else None
    case AppendTorn(_, reason, io) =>
      if h.pc == TornOwed && reason != "" then Appends(s, h, TornRec(a, h, reason), io, Unwinding, Unwinding, false)
      else None
    case SettleCompleted(_, status, responseHash, bytes, io) =>
      if h.pc == Connected && IsHex64(responseHash)
      then
        var g := h.(status := status, responseHash := responseHash, streamed := bytes);
        Settles(s, g, CompletedRec(a, g), io, AllowOwed)
      else None
    case AppendAllow(_, io) =>
      if h.pc == AllowOwed then Appends(s, h, AllowRec(a, h), io, Unwinding, Unwinding, true) else None
    case ReleasePermit(_) =>
      if h.pc == Unwinding then Some(Releases(s, a, h, ReleaseOwed)) else None
    case AppendRelease(_, io) =>
      if h.pc == ReleaseOwed then Appends(s, h, ReleaseRec(a, h), io, Leaving, Leaving, true) else None
    case Deny(_, reason, withPin, io) =>
      if Producing(h) && h.pc != DenialOwed && h.pc != ResettleOwed && reason != "" && (withPin ==> h.pc == Unwinding && h.story != [])
      then Appends(s, h, Blocked(reason, if withPin then Some(h.req.pin) else None), io, h.pc, h.pc, false)
      else None
    case _ => None
  }

  /** `permit.release()` or `abandon_undurable()` under the run's lock. */
  function Releases(s: State, a: string, h: Handler, next: Pc): Move {
    var (run, release) := s.run.DoRelease(a);
    Move(run, h.(pc := next, r := if release.Some? then release.value.seqNo else h.r), None, Durable, NoFault)
  }

  function Apply(s: State, a: string, m: Move): State {
    var ok := m.rec.Some? && s.sink.Accepts(m.io);
    var told := ok && IsStoryRec(m.rec.value);
    s.(run := m.run,
       hs := s.hs[a := m.h.(story := if told then m.h.story + [m.rec.value] else m.h.story)],
       sink := if m.rec.Some? then s.sink.Write(m.rec.value, m.io) else s.sink,
       lateAttempt := s.lateAttempt || (ok && m.rec.value.EffectAttempted? && Tail(s.sink.log) != []),
       broken := if m.After(a in s.broken) then s.broken + {a} else s.broken - {a})
  }

  // ---------------------------------------------------------------- registry and sockets

  function WithPc(s: State, a: string, pc: Pc): State
    requires a in s.hs
  {
    s.(hs := s.hs[a := s.hs[a].(pc := pc)])
  }

  function SetConn(net: Net, c: string, conn: Conn): Net {
    net.(conns := net.conns[c := conn])
  }

  /** A handle nobody has handed over before reaches a connection. */
  function Receives(net: Net, c: string, result: (Conn, bool), sock: Handle): Net {
    var given := net.given + {sock};
    if result.1 then SetConn(net, c, result.0).(given := given)
    else net.(given := given, pending := net.pending + {sock})
  }

  /** The steps of `handle`, `do_CONNECT` and the connection locks. */
  function SocketStep(s: State, step: Step, a: string, h: Handler): Option<State>
    requires a in s.hs && s.hs[a] == h
  {
    var c := h.req.conn;
    match step
    case BeginProducer(_) =>
      if h.pc != Idle then None
      else if s.killed then Some(WithPc(s, a, Done))
      else Some(WithPc(s, a, Working).(producers := s.producers + 1))
    case AddConnection(_) =>
      if h.pc != Working then None
      else if s.killed then Some(WithPc(s, a, Leaving))
      else Some(WithPc(s, a, Registered).(conns := s.conns + {c}))
    case Track(_, sock) =>
      if h.pc != Registered || sock in s.net.given then None
      else Some(s.(net := Receives(s.net, c, s.net.Get(c).TrackOrReject(sock), sock)))
    case Transfer(_, old_, new_) =>
      if h.pc !in {Registered, Connected} || new_ in s.net.given || old_ !in s.net.given then None
      else Some(s.(net := Receives(s.net, c, s.net.Get(c).TransferTo(old_, new_), new_)))
    case TrackUpstream(_, sock) =>
      if h.pc != Authorized || sock in s.net.given then None
      else
        var result := s.net.Get(c).TrackOrReject(sock);
        Some(WithPc(s, a, if result.1 then Tracked else Refused).(net := Receives(s.net, c, result, sock)))
    case BeginClose(_) =>
      if h.pc != Leaving then None
      else
        var (conn, socks) := s.net.Get(c).BeginTermination();
        Some(s.(net := SetConn(s.net, c, conn), hs := s.hs[a := h.(pc := Closing, toShut := socks)]))
    case CloseOne(_) =>
      if h.pc != Closing || h.toShut == [] then None
      else Some(s.(net := s.net.(closed := s.net.closed + {h.toShut[0]}),
                   hs := s.hs[a := h.(toShut := h.toShut[1..])]))
    case RemoveConnection(_) =>
      if h.pc != Closing || h.toShut != [] then None
      else Some(WithPc(s, a, Removed).(conns := s.conns - {c}))
    case EndProducer(_) =>
      if h.pc != Removed || s.producers == 0 then None
      else Some(WithPc(s, a, Done).(producers := s.producers - 1))
    case _ => None
  }

  // ---------------------------------------------------------------- the canceller's steps

  function ToPc(s: State, pc: CPc): State {
    s.(can := s.can.(pc := pc))
  }

  function EnforceStep(s: State, step: Step): Option<State> {
    var c := s.can;
    match step
    case CancelRun =>
      if c.pc == CWatching then Some(ToPc(s, CCancelled).(run := s.run.Cancel().0)) else None
    case CloseAdmission(order) =>
      if c.pc == CCancelled && Distinct(order) && (set id | id in order) == s.conns
      then Some(s.(killed := true, conns := {}, can := c.(pc := CMarking, victims := order)))
      else None
    case MarkVictim =>
      if c.pc != CMarking || |c.retained| >= |c.victims| then None
      else
        var v := c.victims[|c.retained|];
        var (conn, socks) := s.net.Get(v).BeginTermination();
        Some(s.(net := SetConn(s.net, v, conn), can := c.(retained := c.retained + [socks])))
    case EndMarking =>
      if c.pc == CMarking && |c.retained| == |c.victims| then Some(ToPc(s, CShutting)) else None
    case ShutOne(live) =>
      if c.pc != CShutting || c.done >= |c.retained| || c.at >= |c.retained[c.done]| then None
      else if live && c.retained[c.done][c.at] in s.net.closed then None
      else Some(s.(net := s.net.(closed := s.net.closed + {c.retained[c.done][c.at]}),
                   can := c.(at := c.at + 1, sawLive := c.sawLive || live,
                             found := if live then c.found + {(c.done, c.at)} else c.found)))
    case NextVictim =>
      if c.pc != CShutting || c.done >= |c.retained| || c.done >= |c.victims| || c.at != |c.retained[c.done]|
      then None
      else Some(s.(can := c.(torn := if c.sawLive then c.torn + [c.victims[c.done]] else c.torn,
                             done := c.done + 1, at := 0, sawLive := false)))
    case EndShutting =>
      if c.pc == CShutting && c.done == |c.victims| then Some(ToPc(s, CStopping)) else None
    case StopListener(started) =>
      if c.pc == CStopping then Some(s.(can := c.(pc := CRequesting, stopStarted := started))) else None
    case _ => None
  }

  /** The records of `record_linearization` and `cancel_and_quiesce`, in their order. */
  function Script(run: Run, c: Canceller, i: nat): (r: Rec)
    requires run.cancellation.Some?
    ensures IsTailRec(r)
  {
    if i == 0 then RequestRec(run)
    else if i == 1 then LinearizedRec(run)
    else if i == 2 then KillRec(run, c)
    else if i == 3 then if c.Quiescent() then AckRec(run, c) else TimeoutRec(run, c)
    else ClosedRec(run)
  }

  /** How many of them are durable when the canceller stands at a program point. */
  function Written(pc: CPc): nat {
    if pc in {CWatching, CCancelled, CMarking, CShutting, CStopping, CRequesting} then 0
    else if pc == CLinearizing then 1
    else if pc in {CDraining, CListenerSeen, CEffectsSeen, CDeciding} then 2
    else if pc == CKilled then 3
    else if pc == CClosed then 5
    else 4
  }

  predicate AtAppend(pc: CPc) { pc in {CRequesting, CLinearizing, CDeciding, CKilled, CAcked} }

  /** Where the canceller goes when its append is durable. */
  function Onward(c: Canceller): CPc
    requires AtAppend(c.pc)
  {
    match c.pc
    case CRequesting => CLinearizing
    case CLinearizing => CDraining
    case CDeciding => CKilled
    case CAcked => CClosed
    case CKilled => if c.Quiescent() then CAcked else CTimedOut
  }

  /** RUN_CLOSED is appended with the seal, the others without. */
  function CancellerAppends(sink: Sink, r: Rec, io: Io): Sink {
    if r.RunClosed? then sink.SealWith(r, io) else sink.Write(r, io)
  }

  function EvidenceStep(s: State, step: Step): Option<State> {
    var c := s.can;
    match step
    case AppendEvidence(io) =>
      if s.run.cancellation.None? || !AtAppend(c.pc) then None
      else Some(s.(sink := CancellerAppends(s.sink, Script(s.run, c, Written(c.pc)), io),
                   can := c.(pc := if s.sink.Accepts(io) then Onward(c) else CFailed)))
    case SeeListener(stopped) =>
      if c.pc == CDraining && (stopped ==> s.listenerClosed)
      then Some(s.(can := c.(pc := CListenerSeen, stopped := stopped))) else None
    case SeeEffects =>
      if c.pc == CListenerSeen then Some(s.(can := c.(pc := CEffectsSeen, effects := |s.run.inflight|))) else None
    case SeeProducers =>
      if c.pc == CEffectsSeen then Some(s.(can := c.(pc := CDeciding, producers := s.producers))) else None
    case _ => None
  }

  // ---------------------------------------------------------------- steps and runs

  function Actor(step: Step): Option<string> {
    match step
    case BeginProducer(a) => Some(a) case AddConnection(a) => Some(a) case GiveUp(a) => Some(a)
    case ReadEpoch(a) => Some(a) case CheckHealth(a) => Some(a) case Authorize(a) => Some(a)
    case AppendAuth(a, _) => Some(a) case RecheckFails(a, _, _) => Some(a) case Escape(a) => Some(a)
    case TrackUpstream(a, _) => Some(a) case IssuePermit(a) => Some(a) case SettleRefused(a, _, _) => Some(a)
    case AppendPermit(a, _) => Some(a) case Abandon(a) => Some(a) case CheckTerminal(a) => Some(a)
    case SettleDoomed(a, _, _) => Some(a) case AppendAttempted(a, _) => Some(a) case Connect(a) => Some(a)
    case SettleTerminal(a, _) => Some(a) case DenyTerminal(a, _, _) => Some(a) case SettleAgain(a, _, _) => Some(a)
    case SettleUnknown(a, _, _) => Some(a) case SettleStreamLost(a, _, _, _) => Some(a)
    case AppendTorn(a, _, _) => Some(a) case SettleCompleted(a, _, _, _, _) => Some(a)
    case AppendAllow(a, _) => Some(a) case ReleasePermit(a) => Some(a) case AppendRelease(a, _) => Some(a)
    case Deny(a, _, _, _) => Some(a) case Track(a, _) => Some(a) case Transfer(a, _, _) => Some(a)
    case BeginClose(a) => Some(a) case CloseOne(a) => Some(a) case RemoveConnection(a) => Some(a)
    case EndProducer(a) => Some(a)
    case _ => None
  }

  predicate IsSocketStep(step: Step) {
    || step.BeginProducer? || step.AddConnection? || step.Track? || step.Transfer? || step.TrackUpstream?
    || step.BeginClose? || step.CloseOne? || step.RemoveConnection? || step.EndProducer?
  }

  predicate IsEnforceStep(step: Step) {
    || step.CancelRun? || step.CloseAdmission? || step.MarkVictim? || step.EndMarking? || step.ShutOne?
    || step.NextVictim? || step.EndShutting? || step.StopListener?
  }

  /** The successor of a state under one step; None when the step is not enabled. */
  function Next(s: State, step: Step): Option<State> {
    if Actor(step).Some? then
      var a := Actor(step).value;
      if a !in s.hs then None
      else if IsSocketStep(step) then SocketStep(s, step, a, s.hs[a])
      else
        var m := HandlerMove(s, step, a, s.hs[a]);
        if m.None? then None else Some(Apply(s, a, m.value))
    else if step.CloseRejected? then
      if step.sock in s.net.pending
      then Some(s.(net := s.net.(pending := s.net.pending - {step.sock}, closed := s.net.closed + {step.sock})))
      else None
    else if step.ListenerCloses? then Some(s.(listenerClosed := true))
    else if IsEnforceStep(step) then EnforceStep(s, step)
    else EvidenceStep(s, step)
  }

  /** What the gateway has written before it accepts connections. */
  predicate BootLog(log: seq<Rec>) {
    && 1 <= |log| <= 2
    && (forall i | 0 <= i < |log| :: SchemaOk(log[i]))
    && (|log| == 2 ==> log[0].StartupDegraded?)
    && log[|log| - 1].Startup? && log[|log| - 1].maxConnections > 0
  }

  function Fresh(q: Request): Handler {
    Handler(q, Idle, 0, 0, 0, 0, 0, "", 0, [], [], false)
  }

  /** A request as its surroundings guarantee it: generated identifiers are not empty, the digest is
      a SHA-256 digest, and a pin's family is one of the two. */
  predicate Sane(a: string, q: Request) {
    && a != "" && q.conn != "" && IsDigest(q.digest)
    && (q.pin.family == "ipv4" || q.pin.family == "ipv6")
  }

  /** Serving starts: STARTUP is durable, nothing has happened, any set of requests may arrive. */
  ghost predicate Init(s: State) {
    && s.run == FRESH && !s.killed && s.producers == 0 && s.conns == {}
    && s.net == Net(map[], {}, {}, {})
    && BootLog(s.sink.log) && s.sink.healthy && !s.sink.isSealed
    && (forall a | a in s.hs :: s.hs[a] == Fresh(s.hs[a].req) && Sane(a, s.hs[a].req))
    && s.can == WATCHING && !s.lateAttempt && s.broken == {}
  }

  /** The state after a sequence of steps, if every one of them was enabled. */
  function Exec(s: State, steps: seq<Step>): Option<State> {
    if steps == [] then Some(s)
    else
      var before := Exec(s, steps[..|steps| - 1]);
      if before.None? then None else Next(before.value, steps[|steps| - 1])
  }
}
