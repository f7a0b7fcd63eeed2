/** The run and attempt state machines of `_validate_history`.

    `Step` is one iteration of the record loop, `Fold` is the whole loop as a function, and
    `ValidateHistory` is the loop itself, proved to compute `Verdict`. */
module Verifier {
  import opened Records

  datatype Status =
    | LocalHistoryValid
    | ExpectedRunIdRequired | NoLifecycleRecords | WrongRunId | UnknownDecision
    | MalformedRecordSchema | RecordAfterRunClosure | IllegalRunTransition
    | ContextBindingMismatch | IllegalAttemptTransition | CredentialLeak
    | ReplayedLifecycleSequence | AuthSequenceNotBeforeCancellation | PermitWithoutIntent
    | BindingMismatch | LifecycleSequenceOrder | PermitSequenceNotBeforeCancellation
    | PostCancellationEffect | EffectWithoutIntent | AllowWithoutCompletion | DuplicateAllow
    | ReleaseWithoutPermit | ReleaseBeforeTerminal | ReleaseBeforeAllow
    | DuplicatePermitRelease | ReleaseBindingMismatch | ReleaseSequenceOrder
    | CancellationRequestBindingMismatch | KillSwitchCardinalityOrder | IncompleteAttempt
    | MissingRequiredAllow | MissingPermitRelease | QuiescenceCountMismatch
    | InflightLinearizationMismatch | KillSwitchBindingMismatch
    | FalseCancellationDisposition | InvalidRunClosure | OrphanConnectionTerminated
    | DuplicateConnectionTerminated | ConnectionTerminatedBindingMismatch
    | MissingKillSwitch | RunNotClosed | MissingCancellationLinearization
    | MissingCancellationDisposition
    | KeyErrorRaised  // not a returned status: the loop raised on a missing optional field

  datatype RunState =
    Running | Requested | Linearized | Acknowledged | TimedOut | StartFailed | Closed

  datatype AttemptState = Authorized | Permitted | Attempted | Settled

  /** One entry of the `attempts` dictionary. */
  datatype Attempt = Attempt(state: AttemptState, auth: Rec, permit: Option<Rec>,
                             attempted: Option<Rec>, terminal: Option<Rec>, allow: Option<Rec>,
                             release: Option<Rec>, torn: Option<Rec>, late: bool)
  {
    predicate Wf() {
      && auth.AuthCommitted?
      && (permit.Some? ==> permit.value.PermitGranted?)
      && (terminal.Some? ==> IsTerminal(terminal.value))
      && (release.Some? ==> release.value.PermitReleased?)
      && (state == Permitted || state == Attempted ==> permit.Some?)
      && (state != Settled ==> terminal.None?)
    }

    predicate Incomplete() { terminal.None? }

    predicate MissingRelease() { permit.Some? && release.None? }

    predicate MissingAllow() { terminal.Some? && terminal.value.EffectCompleted? && allow.None? }

    /** P < C < R, the permit was held when cancellation linearized. */
    predicate InFlightAt(c: int)
      requires Wf() && !MissingRelease()
    {
      permit.Some? && permit.value.seqNo < c < release.value.seqNo
    }
  }

  /** The loop's variables.  `order` is the insertion order of the `attempts` dictionary. */
  datatype VState = VState(attempts: map<string, Attempt>, order: seq<string>, sequences: set<int>,
                           run: RunState, startupSeen: bool, activeSeen: bool,
                           request: Option<Rec>, cancel: Option<Rec>, kill: Option<Rec>)
  {
    /** What makes every dereference in the loop body safe. */
    ghost predicate Wf() {
      && (forall a | a in attempts :: attempts[a].Wf())
      && (forall a | a in order :: a in attempts)
      && (forall a | a in attempts :: a in order)
      && (request.Some? ==> request.value.CancelRequested?)
      && (cancel.Some? ==> cancel.value.CancelLinearized?)
      && (kill.Some? ==> kill.value.KillSwitch?)
      && (run == Requested ==> request.Some?)
      && (run in {Linearized, Acknowledged, TimedOut, Closed} ==> cancel.Some?)
      && (run in {Acknowledged, TimedOut, Closed} ==> kill.Some?)
      && (!activeSeen || run == StartFailed ==> attempts == map[])
    }

    /** Active or draining, with no KILL_SWITCH yet. */
    predicate Open() {
      run in {Running, Requested, Linearized} && kill.None?
    }
  }

  const INITIAL := VState(map[], [], {}, Running, false, false, None, None, None)

  datatype StepResult = Next(v: VState) | Stop(status: Status)

  // ---------------------------------------------------------------- attempt records

  function StepAuth(v: VState, r: Rec): (result: StepResult)
    requires v.Wf() && v.activeSeen && r.AuthCommitted?
    ensures result.Next? ==> result.v.Wf()
    ensures result.Stop? ==> result.status != LocalHistoryValid
    ensures result != Stop(KeyErrorRaised)
  {
    var late := v.run != Running;
    if !v.Open() then Stop(IllegalRunTransition)
    else if r.aid in v.attempts then Stop(IllegalAttemptTransition)
    else if LooksSecret(r.credential) then Stop(CredentialLeak)
    else if r.seqNo in v.sequences then Stop(ReplayedLifecycleSequence)
    else if late && v.cancel.Some? &&
            (r.seqNo >= v.cancel.value.seqNo || r.epoch != v.cancel.value.cancelledEpoch)
    then Stop(AuthSequenceNotBeforeCancellation)
    else Next(v.(attempts := v.attempts[r.aid := Attempt(Authorized, r, None, None, None, None, None, None, late)],
                 order := v.order + [r.aid],
                 sequences := v.sequences + {r.seqNo}))
  }

  predicate PermitBinds(auth: Rec, r: Rec)
    requires auth.AuthCommitted? && r.PermitGranted?
  {
    && r.conn == auth.conn && r.epoch == auth.epoch
    && r.generation == auth.generation && r.budget == auth.budget
  }

  function StepPermit(v: VState, r: Rec): (result: StepResult)
    requires v.Wf() && r.PermitGranted?
    ensures result.Next? ==> result.v.Wf()
    ensures result.Stop? ==> result.status != LocalHistoryValid
    ensures result != Stop(KeyErrorRaised)
  {
    if !v.Open() then Stop(IllegalRunTransition)
    else if r.aid !in v.attempts then Stop(PermitWithoutIntent)
    else
      var t := v.attempts[r.aid];
      if t.state != Authorized || t.late then Stop(IllegalAttemptTransition)
      else if !PermitBinds(t.auth, r) then Stop(BindingMismatch)
      else if t.auth.seqNo >= r.seqNo then Stop(LifecycleSequenceOrder)
      else if r.seqNo in v.sequences then Stop(ReplayedLifecycleSequence)
      else if v.cancel.Some? &&
              (r.seqNo >= v.cancel.value.seqNo || r.epoch != v.cancel.value.cancelledEpoch)
      then Stop(PermitSequenceNotBeforeCancellation)
      else Next(v.(attempts := v.attempts[r.aid := t.(state := Permitted, permit := Some(r))],
                   sequences := v.sequences + {r.seqNo}))
  }

  predicate AttemptBinds(auth: Rec, permit: Rec, r: Rec)
    requires auth.AuthCommitted? && permit.PermitGranted? && r.EffectAttempted?
  {
    && r.permitSeq == permit.seqNo && r.conn == permit.conn && r.epoch == permit.epoch
    && r.pinIp == auth.pin.ip && r.pinPort == auth.pin.port
  }

  function StepAttempted(v: VState, r: Rec): (result: StepResult)
    requires v.Wf() && r.EffectAttempted?
    ensures result.Next? ==> result.v.Wf()
    ensures result.Stop? ==> result.status != LocalHistoryValid
    ensures result != Stop(KeyErrorRaised)
  {
    if v.run != Running then Stop(PostCancellationEffect)
    else if r.aid !in v.attempts || v.attempts[r.aid].state != Permitted then Stop(IllegalAttemptTransition)
    else
      var t := v.attempts[r.aid];
      if !AttemptBinds(t.auth, t.permit.value, r) then Stop(BindingMismatch)
      else Next(v.(attempts := v.attempts[r.aid := t.(state := Attempted, attempted := Some(r))]))
  }

  predicate LegalOutcome(state: AttemptState, r: Rec)
    requires IsTerminal(r)
  {
    || (state == Authorized && Soft(r))
    || (state == Permitted && Soft(r))
    || state == Attempted
  }

  predicate TerminalBinds(auth: Rec, permit: Option<Rec>, r: Rec)
    requires auth.AuthCommitted? && IsTerminal(r) && (permit.Some? ==> permit.value.PermitGranted?)
  {
    && r.conn == auth.conn && r.epoch == auth.epoch
    && PermitRefOf(r) == (if permit.Some? then Some(permit.value.seqNo) else None)
  }

  function StepTerminal(v: VState, r: Rec): (result: StepResult)
    requires v.Wf() && IsTerminal(r)
    ensures result.Next? ==> result.v.Wf()
    ensures result.Stop? ==> result.status != LocalHistoryValid
    ensures result != Stop(KeyErrorRaised)
  {
    if !v.Open() then Stop(IllegalRunTransition)
    else if r.aid !in v.attempts then Stop(EffectWithoutIntent)
    else
      var t := v.attempts[r.aid];
      if !LegalOutcome(t.state, r) then Stop(IllegalAttemptTransition)
      else if !TerminalBinds(t.auth, t.permit, r) then Stop(BindingMismatch)
      else Next(v.(attempts := v.attempts[r.aid := t.(state := Settled, terminal := Some(r))]))
  }

  predicate AllowBinds(auth: Rec, done: Rec, r: Rec)
    requires auth.AuthCommitted? && done.EffectCompleted? && r.Allow?
  {
    && r.conn == auth.conn && r.program == auth.program && r.verb == auth.verb
    && r.host == auth.host && r.pin == auth.pin
    && |auth.digest| >= 7 && r.requestHash == auth.digest[7..]
    && r.responseHash == done.responseHash && r.status == done.status && r.streamed == done.streamed
    && r.reason == "ALLOW" && r.tlsIntercepted && !r.redirected
    && r.injected == (auth.credential != "none")
    && UrlUnder(r.url, auth.host)
    && (r.sni.None? || r.sni.value == auth.host)
  }

  function StepAllow(v: VState, r: Rec): (result: StepResult)
    requires v.Wf() && r.Allow?
    ensures result.Next? ==> result.v.Wf()
    ensures result.Stop? ==> result.status != LocalHistoryValid
    ensures result != Stop(KeyErrorRaised)
  {
    if !v.Open() then Stop(IllegalRunTransition)
    else if r.aid !in v.attempts || v.attempts[r.aid].terminal.None? ||
            !v.attempts[r.aid].terminal.value.EffectCompleted?
    then Stop(AllowWithoutCompletion)
    else
      var t := v.attempts[r.aid];
      if t.allow.Some? then Stop(DuplicateAllow)
      else if t.attempted.None? || !AllowBinds(t.auth, t.terminal.value, r) then Stop(BindingMismatch)
      else Next(v.(attempts := v.attempts[r.aid := t.(allow := Some(r))]))
  }

  predicate ReleaseBinds(permit: Rec, r: Rec)
    requires permit.PermitGranted? && r.PermitReleased?
  {
    r.conn == permit.conn && r.epoch == permit.epoch && r.permitSeq == permit.seqNo
  }

  function StepRelease(v: VState, r: Rec): (result: StepResult)
    requires v.Wf() && r.PermitReleased?
    ensures result.Next? ==> result.v.Wf()
    ensures result.Stop? ==> result.status != LocalHistoryValid
    ensures result != Stop(KeyErrorRaised)
  {
    if !v.Open() then Stop(IllegalRunTransition)
    else if r.aid !in v.attempts || v.attempts[r.aid].permit.None? then Stop(ReleaseWithoutPermit)
    else
      var t := v.attempts[r.aid];
      if t.Incomplete() then Stop(ReleaseBeforeTerminal)
      else if t.MissingAllow() then Stop(ReleaseBeforeAllow)
      else if t.release.Some? then Stop(DuplicatePermitRelease)
      else if !ReleaseBinds(t.permit.value, r) then Stop(ReleaseBindingMismatch)
      else if t.permit.value.seqNo >= r.seqNo then Stop(ReleaseSequenceOrder)
      else if r.seqNo in v.sequences then Stop(ReplayedLifecycleSequence)
      else Next(v.(attempts := v.attempts[r.aid := t.(release := Some(r))],
                   sequences := v.sequences + {r.seqNo}))
  }

  predicate TornBinds(auth: Rec, done: Rec, r: Rec)
    requires auth.AuthCommitted? && done.EffectUnknown? && r.ConnectionTerminated?
  {
    && r.conn == auth.conn && r.verb == auth.verb && r.pin == auth.pin
    && done.bytes == Some(r.streamed) && UrlUnder(r.url, auth.host)
  }

  function StepTorn(v: VState, r: Rec): (result: StepResult)
    requires v.Wf() && r.ConnectionTerminated?
    ensures result.Next? ==> result.v.Wf()
    ensures result.Stop? ==> result.status != LocalHistoryValid
    ensures result != Stop(KeyErrorRaised)
  {
    if !v.Open() then Stop(IllegalRunTransition)
    else if r.aid !in v.attempts || v.attempts[r.aid].attempted.None? ||
            v.attempts[r.aid].terminal.None? || !v.attempts[r.aid].terminal.value.EffectUnknown?
    then Stop(OrphanConnectionTerminated)
    else
      var t := v.attempts[r.aid];
      if t.torn.Some? then Stop(DuplicateConnectionTerminated)
      else if !TornBinds(t.auth, t.terminal.value, r) then Stop(ConnectionTerminatedBindingMismatch)
      else Next(v.(attempts := v.attempts[r.aid := t.(torn := Some(r))]))
  }

  // ---------------------------------------------------------------- cancellation and closure

  /** The first complaint, in dictionary order, that linearization has about an earlier attempt. */
  function LinearizationComplaint(v: VState, order: seq<string>, r: Rec): (complaint: Option<Status>)
    requires v.Wf() && r.CancelLinearized? && forall a | a in order :: a in v.attempts
    ensures complaint != Some(LocalHistoryValid) && complaint != Some(KeyErrorRaised)
  {
    if order == [] then None
    else
      var t := v.attempts[order[0]];
      if t.auth.epoch != r.cancelledEpoch then Some(BindingMismatch)
      else if t.auth.seqNo >= r.seqNo then Some(AuthSequenceNotBeforeCancellation)
      else if t.permit.Some? && t.permit.value.seqNo >= r.seqNo then Some(PermitSequenceNotBeforeCancellation)
      else LinearizationComplaint(v, order[1..], r)
  }

  function StepRequested(v: VState, r: Rec): (result: StepResult)
    requires v.Wf() && r.CancelRequested?
    ensures result.Next? ==> result.v.Wf()
    ensures result.Stop? ==> result.status != LocalHistoryValid
    ensures result != Stop(KeyErrorRaised)
  {
    if v.run != Running then Stop(IllegalRunTransition)
    else Next(v.(request := Some(r), run := Requested))
  }

  function StepLinearized(v: VState, r: Rec): (result: StepResult)
    requires v.Wf() && r.CancelLinearized?
    ensures result.Next? ==> result.v.Wf()
    ensures result.Stop? ==> result.status != LocalHistoryValid
    ensures result != Stop(KeyErrorRaised)
  {
    if v.run != Requested then Stop(IllegalRunTransition)
    else if r.newEpoch != r.cancelledEpoch + 1 then Stop(IllegalRunTransition)
    else if v.request.value.seqNo != r.seqNo || v.request.value.cancellationEpoch != r.newEpoch
    then Stop(CancellationRequestBindingMismatch)
    else if r.seqNo in v.sequences then Stop(ReplayedLifecycleSequence)
    else
      var complaint := LinearizationComplaint(v, v.order, r);
      if complaint.Some? then Stop(complaint.value)
      else Next(v.(cancel := Some(r), run := Linearized, sequences := v.sequences + {r.seqNo}))
  }

  predicate CountsAdd(f: Facts) {
    f.inflight == f.permits + f.producers
  }

  predicate KillBinds(cancel: Rec, r: Rec)
    requires cancel.CancelLinearized? && r.KillSwitch?
  {
    && r.facts.seqNo == cancel.seqNo && r.facts.cancellationEpoch == cancel.newEpoch
    && r.facts.permits == 0
    && r.torn == |r.tornIds| && Distinct(r.tornIds) && Distinct(r.registered)
    && (forall id | id in r.tornIds :: id in r.registered)
    && r.facts.external == NO_EXTERNAL
  }

  predicate DrainFactHolds(f: Facts) {
    f.drained == (f.inflight == 0 && f.listener == STOPPED)
  }

  /** The attempts whose permit was in flight at cancellation, from sequence numbers alone. */
  function InFlight(v: VState): set<string>
    requires v.Wf() && v.cancel.Some?
    requires forall a | a in v.attempts :: !v.attempts[a].MissingRelease()
  {
    set a | a in v.attempts && v.attempts[a].InFlightAt(v.cancel.value.seqNo)
  }

  function StepKill(v: VState, r: Rec): (result: StepResult)
    requires v.Wf() && r.KillSwitch?
    ensures result.Next? ==> result.v.Wf()
    ensures result.Stop? ==> result.status != LocalHistoryValid
    ensures result != Stop(KeyErrorRaised)
  {
    if v.run != Linearized || v.kill.Some? then Stop(KillSwitchCardinalityOrder)
    else if exists a | a in v.attempts :: v.attempts[a].Incomplete() then Stop(IncompleteAttempt)
    else if exists a | a in v.attempts :: v.attempts[a].MissingAllow() then Stop(MissingRequiredAllow)
    else if exists a | a in v.attempts :: v.attempts[a].MissingRelease() then Stop(MissingPermitRelease)
    else if !CountsAdd(r.facts) then Stop(QuiescenceCountMismatch)
    else if |InFlight(v)| != v.cancel.value.inflight then Stop(InflightLinearizationMismatch)
    else if !KillBinds(v.cancel.value, r) then Stop(KillSwitchBindingMismatch)
    else if !DrainFactHolds(r.facts) then Stop(KillSwitchBindingMismatch)
    else Next(v.(kill := Some(r)))
  }

  predicate AckFacts(r: Rec)
    requires r.CancelAck?
  {
    && r.facts.drained && r.facts.inflight == 0 && r.facts.permits == 0 && r.facts.producers == 0
    && r.facts.listener == STOPPED && r.facts.external == NO_EXTERNAL && r.scope == ACK_SCOPE
  }

  function StepAck(v: VState, r: Rec): (result: StepResult)
    requires v.Wf() && r.CancelAck?
    ensures result.Next? ==> result.v.Wf()
    ensures result.Stop? ==> result.status != LocalHistoryValid
    ensures result != Stop(KeyErrorRaised)
  {
    if v.run != Linearized || v.kill.None? then Stop(IllegalRunTransition)
    else if !CountsAdd(r.facts) then Stop(QuiescenceCountMismatch)
    else if r.facts != v.kill.value.facts then Stop(FalseCancellationDisposition)
    else if !AckFacts(r) then Stop(FalseCancellationDisposition)
    else Next(v.(run := Acknowledged))
  }

  function StepTimeout(v: VState, r: Rec): (result: StepResult)
    requires v.Wf() && r.DrainTimeout?
    ensures result.Next? ==> result.v.Wf()
    ensures result.Stop? ==> result.status != LocalHistoryValid
    ensures result == Stop(KeyErrorRaised) ==> r.DrainTimeout?
  {
    if v.run != Linearized || v.kill.None? then Stop(IllegalRunTransition)
    else if !CountsAdd(r.facts) then Stop(QuiescenceCountMismatch)
    else if r.facts != v.kill.value.facts then Stop(FalseCancellationDisposition)
    else if r.blockers.None? then Stop(KeyErrorRaised)
    else if !(!r.facts.drained && r.scope == NO_ACK_SCOPE && r.blockers.value != [] &&
              (r.facts.inflight > 0 || r.facts.listener != STOPPED))
    then Stop(FalseCancellationDisposition)
    else Next(v.(run := TimedOut))
  }

  predicate ClosureFacts(cancel: Rec, r: Rec)
    requires cancel.CancelLinearized? && r.RunClosed?
  {
    && r.schema == RUN_CLOSE_SCHEMA && r.closureSeq == cancel.seqNo && r.closureState == "CLOSED"
    && r.admission == "TERMINAL" && r.inflight == 0 && r.permits == 0 && r.producers == 0
    && r.listener == STOPPED && r.sealAction == SEAL_ACTION && r.disposition == ACK_DECISION
  }

  function StepClosed(v: VState, r: Rec): (result: StepResult)
    requires v.Wf() && r.RunClosed?
    ensures result.Next? ==> result.v.Wf()
    ensures result.Stop? ==> result.status != LocalHistoryValid
    ensures result != Stop(KeyErrorRaised)
  {
    if v.run != Acknowledged then Stop(IllegalRunTransition)
    else if !ClosureFacts(v.cancel.value, r) then Stop(InvalidRunClosure)
    else if r.inflight != r.permits + r.producers then Stop(QuiescenceCountMismatch)
    else Next(v.(run := Closed))
  }

  // ---------------------------------------------------------------- startup and denials

  function StepStartup(v: VState, r: Rec): (result: StepResult)
    requires v.Wf() && IsStartupRec(r)
    ensures result.Next? ==> result.v.Wf()
    ensures result.Stop? ==> result.status != LocalHistoryValid
    ensures result != Stop(KeyErrorRaised)
  {
    if v.startupSeen || v.activeSeen || v.run != Running then Stop(IllegalRunTransition)
    else match r
      case StartupDegraded(_) => Next(v)
      case StartupFailed(_) => Next(v.(run := StartFailed))
      case Startup(_, maxConnections) =>
        if maxConnections <= 0 then Stop(ContextBindingMismatch)
        else Next(v.(startupSeen := true, run := Running))
  }

  predicate BlockedPinOk(r: Rec)
    requires r.Blocked?
  {
    r.blockedPin.Some? ==> r.blockedPin.value.family in {"ipv4", "ipv6"}
  }

  function StepBlocked(v: VState, r: Rec): (result: StepResult)
    requires v.Wf() && r.Blocked?
    ensures result.Next? ==> result.v.Wf()
    ensures result.Stop? ==> result.status != LocalHistoryValid
    ensures result != Stop(KeyErrorRaised)
  {
    if !v.Open() then Stop(IllegalRunTransition)
    else if !BlockedPinOk(r) then Stop(ContextBindingMismatch)
    else Next(v)
  }

  // ---------------------------------------------------------------- the loop

  function StepActive(v: VState, r: Rec): (result: StepResult)
    requires v.Wf() && v.activeSeen && SchemaOk(r) && !IsStartupRec(r)
    ensures result.Next? ==> result.v.Wf()
    ensures result.Stop? ==> result.status != LocalHistoryValid
    ensures result == Stop(KeyErrorRaised) ==> r.DrainTimeout?
  {
    if r.AuthCommitted? then StepAuth(v, r)
    else if r.PermitGranted? then StepPermit(v, r)
    else if r.EffectAttempted? then StepAttempted(v, r)
    else if IsTerminal(r) then StepTerminal(v, r)
    else if r.Allow? then StepAllow(v, r)
    else if r.PermitReleased? then StepRelease(v, r)
    else if r.CancelRequested? then StepRequested(v, r)
    else if r.CancelLinearized? then StepLinearized(v, r)
    else if r.KillSwitch? then StepKill(v, r)
    else if r.CancelAck? then StepAck(v, r)
    else if r.DrainTimeout? then StepTimeout(v, r)
    else if r.RunClosed? then StepClosed(v, r)
    else if r.ConnectionTerminated? then StepTorn(v, r)
    else StepBlocked(v, r)
  }

  /** One iteration of the record loop. */
  function Step(v: VState, r: Rec): (result: StepResult)
    requires v.Wf() && SchemaOk(r)
    ensures result.Next? ==> result.v.Wf()
    ensures result.Stop? ==> result.status != LocalHistoryValid
    ensures result == Stop(KeyErrorRaised) ==> r.DrainTimeout?
  {
    if v.run == Closed then Stop(RecordAfterRunClosure)
    else if v.run in {Acknowledged, TimedOut, StartFailed} && !(v.run == Acknowledged && r.RunClosed?)
    then Stop(IllegalRunTransition)
    else if IsStartupRec(r) then StepStartup(v, r)
    else StepActive(v.(activeSeen := true), r)
  }

  predicate SchemaAt(log: seq<Rec>, i: nat)
    requires i < |log|
  {
    SchemaOk(log[i])
  }

  predicate AllSchemaOk(log: seq<Rec>) {
    forall i: nat | i < |log| :: SchemaAt(log, i)
  }

  lemma SchemaSnoc(before: seq<Rec>, r: Rec)
    ensures AllSchemaOk(before + [r]) <==> AllSchemaOk(before) && SchemaOk(r)
  {
    var log := before + [r];
    assert log[|before|] == r;
    assert forall i: nat | i < |before| :: SchemaAt(log, i) <==> SchemaAt(before, i);
    if AllSchemaOk(log) {
      assert SchemaAt(log, |before|);
      assert forall i: nat | i < |before| :: SchemaAt(log, i);
    }
  }

  lemma SchemaInit(log: seq<Rec>)
    requires log != []
    ensures AllSchemaOk(log) <==> AllSchemaOk(log[..|log| - 1]) && SchemaOk(log[|log| - 1])
  {
    assert log == log[..|log| - 1] + [log[|log| - 1]];
    SchemaSnoc(log[..|log| - 1], log[|log| - 1]);
  }

  /** The loop over a whole log: the state after it, or the status it stopped with. */
  function Fold(log: seq<Rec>): (result: StepResult)
    requires AllSchemaOk(log)
    ensures result.Next? ==> result.v.Wf()
    ensures result.Stop? ==> result.status != LocalHistoryValid
  {
    if log == [] then Next(INITIAL)
    else
      SchemaInit(log);
      var before := Fold(log[..|log| - 1]);
      if before.Stop? then before else Step(before.v, log[|log| - 1])
  }

  /** The checks after the loop. */
  function Finish(v: VState): (status: Status)
    ensures status != KeyErrorRaised
  {
    if v.attempts == map[] then NoLifecycleRecords
    else if exists a | a in v.attempts :: v.attempts[a].Incomplete() then IncompleteAttempt
    else if exists a | a in v.attempts :: v.attempts[a].MissingAllow() then MissingRequiredAllow
    else if exists a | a in v.attempts :: v.attempts[a].MissingRelease() then MissingPermitRelease
    else if v.kill.None? && v.cancel.Some? then MissingKillSwitch
    else if v.run == Running then RunNotClosed
    else if v.run == Requested then MissingCancellationLinearization
    else if v.run == Linearized then MissingCancellationDisposition
    else if v.run == TimedOut || v.run == Acknowledged then RunNotClosed
    else LocalHistoryValid
  }

  function SchemaStatus(r: Rec): Status
    requires !SchemaOk(r)
  {
    if r.Unrecognized? then UnknownDecision else MalformedRecordSchema
  }

  /** The first complaint of the pass over run ids and schemas that precedes the loop. */
  function SchemaComplaint(entries: seq<Entry>, expected: string): (s: Option<Status>)
    ensures s.None? <==> forall i | 0 <= i < |entries| :: entries[i].runId == expected && SchemaOk(entries[i].rec)
    ensures s.Some? ==> s.value in {WrongRunId, UnknownDecision, MalformedRecordSchema}
  {
    if entries == [] then None
    else if entries[0].runId != expected then Some(WrongRunId)
    else if !SchemaOk(entries[0].rec) then Some(SchemaStatus(entries[0].rec))
    else SchemaComplaint(entries[1..], expected)
  }

  function Recs(entries: seq<Entry>): (log: seq<Rec>)
    ensures |log| == |entries| && forall i | 0 <= i < |log| :: log[i] == entries[i].rec
  {
    seq(|entries|, i requires 0 <= i < |entries| => entries[i].rec)
  }

  /** The status `_validate_history` reports for a log and an expected run id. */
  function Verdict(entries: seq<Entry>, expected: string): Status
  {
    if expected == "" then ExpectedRunIdRequired
    else if entries == [] then NoLifecycleRecords
    else
      var complaint := SchemaComplaint(entries, expected);
      if complaint.Some? then complaint.value
      else
        var end := Fold(Recs(entries));
        if end.Stop? then end.status else Finish(end.v)
  }

  /** The pass over run ids and schemas that comes before any state. */
  method CheckSchemas(entries: seq<Entry>, expected: string) returns (complaint: Option<Status>)
    ensures complaint == SchemaComplaint(entries, expected)
  {
    for i := 0 to |entries|
      invariant SchemaComplaint(entries, expected) == SchemaComplaint(entries[i..], expected)
    {
      if entries[i].runId != expected { return Some(WrongRunId); }
      if !SchemaOk(entries[i].rec) { return Some(SchemaStatus(entries[i].rec)); }
      assert entries[i..][1..] == entries[i + 1..];
    }
    return None;
  }

  /** The verifier itself: a pass over schemas, then the record loop, then the final checks. */
  method ValidateHistory(entries: seq<Entry>, expected: string) returns (status: Status)
    ensures status == Verdict(entries, expected)
  {
    if expected == "" { return ExpectedRunIdRequired; }
    if entries == [] { return NoLifecycleRecords; }
    var complaint := CheckSchemas(entries, expected);
    if complaint.Some? { return complaint.value; }
    ghost var log := Recs(entries);
    assert AllSchemaOk(log) by {
      forall i: nat | i < |log| ensures SchemaAt(log, i) {
      }
    }
    var v := INITIAL;
    for i := 0 to |entries|
      invariant AllSchemaOk(log[..i]) && Fold(log[..i]) == Next(v)
    {
      var rec := entries[i].rec;
      assert log[..i + 1] == log[..i] + [rec] && log[..i + 1][..i] == log[..i];
      SchemaSnoc(log[..i], rec);
      var step := Step(v, rec);
      if step.Stop? {
        FoldStops(log, i + 1);
        return step.status;
      }
      v := step.v;
    }
    assert log[..|entries|] == log;
    status := Finish(v);
  }

  /** Once a prefix has stopped the loop, the whole log stops it with the same status. */
  lemma {:induction false} FoldStops(log: seq<Rec>, n: nat)
    requires AllSchemaOk(log) && n <= |log| && AllSchemaOk(log[..n]) && Fold(log[..n]).Stop?
    ensures Fold(log) == Fold(log[..n])
  {
    if n == |log| {
      assert log[..n] == log;
    } else {
      SchemaInit(log);
      assert log[..|log| - 1][..n] == log[..n];
      FoldStops(log[..|log| - 1], n);
    }
  }
}
