/** Where the gateway's runs and the verifier meet and part: concrete sealed runs, and a log on which
    the verifier raises. */
module Findings {
  import opened Records
  import opened RunModel
  import opened History
  import opened Protocol
  import opened HandlerProofs
  import opened Invariants
  import opened Reachable
  import opened Enforcement
  import opened RunAcceptance
  import opened Verdicts
  import S = Scenario
  import V = Verifier
  import A = Acceptance
  import D = Soundness

  lemma StartIsInit(a: string, q: Request)
    requires Sane(a, q)
    ensures Init(S.Start(a, q))
  {
  }

  lemma RunIsSealed(a: string, q: Request, steps: seq<Step>, s: State)
    requires Sane(a, q) && Exec(S.Start(a, q), steps) == Some(s) && s.sink.isSealed
    ensures SealedRun(s)
  {
    StartIsInit(a, q);
    ReachableInv(S.Start(a, q), steps, s);
    ReachableNet(S.Start(a, q), steps, s);
  }

  // ---------------------------------------------------------------- each ending, accepted or rejected

  /** What an ending asks of the request beyond `AuthFit`; an outcome settled twice, or not at all,
      suits none. */
  predicate EndingFits(q: Request, ending: S.Ending) {
    match ending
    case TimesOut => true
    case StreamBreaks(_) => q.verb == Upper(q.verb)
    case Answers(status, _, _) =>
      && 0 <= status && q.verb == Upper(q.verb) && (q.injects <==> CredentialRef(q) != "none")
      && (q.sni.None? || q.sni.value == q.host)
    case SettledTwice => false
    case MadeUpFor => true
    case Unsettled => false
  }

  /** A request that reaches its target: it gets a permit, and the answer has a digest. */
  predicate Reaching(a: string, q: Request, ending: S.Ending) {
    Sane(a, q) && q.generation != "" && q.budget != "" && (ending.Answers? ==> IsHex64(ending.hash))
  }

  /** For every request and every way it can end there is a run that is cancelled while the permit is in
      flight, loses nothing unless the ending does, and seals; and it is accepted exactly if the request
      is fit for its ending. */
  lemma EveryEndingSeals(a: string, q: Request, ending: S.Ending, runId: string)
    returns (steps: seq<Step>, s: State)
    requires Reaching(a, q, ending) && runId != ""
    ensures Exec(S.Start(a, q), steps) == Some(s) && s.sink.isSealed && !s.lateAttempt
    ensures s.broken == if ending.Unsettled? then {a} else {}
    ensures V.Verdict(Stamped(s.sink.log, runId), runId) == V.LocalHistoryValid <==> AuthFit(q) && EndingFits(q, ending)
  {
    var told;
    steps, s, told := S.RunOf(a, q, ending, false, false);
    StartIsInit(a, q);
    SealedRunAcceptedIff(S.Start(a, q), steps, s, runId);
    EndedFitIff(s.hs[a], told, q, ending);
    OnlyTold(s, a);
  }

  lemma OnlyTold(s: State, a: string)
    requires s.hs.Keys == {a} && s.hs[a].story != [] && !s.lateAttempt
    ensures RunFits(s) <==> s.broken == {} && !Doubled(s.hs[a].story) && Fit(s.hs[a])
  {
    assert Told(s, a);
    assert forall b | Told(s, b) :: b == a;
  }

  lemma EndedFitIff(h: Handler, told: Handler, q: Request, ending: S.Ending)
    requires S.Ended(told, q, ending) && h.req == q && h.status == told.status
    requires told.story <= h.story && |h.story| == |told.story| + 1 && h.story[|told.story|].PermitReleased?
    ensures Doubled(h.story) <==> ending.SettledTwice?
    ensures Fit(h) <==> AuthFit(q) && (EndingFits(q, ending) || ending.SettledTwice? || ending.Unsettled?)
  {
    assert forall i | 0 <= i < |told.story| :: h.story[i] == told.story[i];
  }

  /** A run that completes a canonical request is accepted. */
  lemma SomeSealedRunIsAccepted(a: string, q: Request, hash: string, runId: string) returns (steps: seq<Step>, s: State)
    requires Sane(a, q) && AuthFit(q) && EndingFits(q, S.Answers(200, hash, 0)) && IsHex64(hash) && runId != ""
    ensures Exec(S.Start(a, q), steps) == Some(s) && s.sink.isSealed
    ensures V.Verdict(Stamped(s.sink.log, runId), runId) == V.LocalHistoryValid
  {
    steps, s := EveryEndingSeals(a, q, S.Answers(200, hash, 0), runId);
  }

  /** A completed request whose method is not in upper case closes its run and is rejected. */
  lemma RawMethodIsRejected(a: string, q: Request, status: int, hash: string, bytes: nat, runId: string)
    returns (steps: seq<Step>, s: State)
    requires Reaching(a, q, S.Answers(status, hash, bytes)) && q.verb != Upper(q.verb) && runId != ""
    ensures Exec(S.Start(a, q), steps) == Some(s) && s.sink.isSealed && s.broken == {} && !s.lateAttempt
    ensures V.Verdict(Stamped(s.sink.log, runId), runId) != V.LocalHistoryValid
  {
    steps, s := EveryEndingSeals(a, q, S.Answers(status, hash, bytes), runId);
  }

  /** So is one whose SNI is not the canonical host, */
  lemma RawSniIsRejected(a: string, q: Request, status: int, hash: string, bytes: nat, runId: string)
    returns (steps: seq<Step>, s: State)
    requires Reaching(a, q, S.Answers(status, hash, bytes)) && q.sni.Some? && q.sni.value != q.host && runId != ""
    ensures Exec(S.Start(a, q), steps) == Some(s) && s.sink.isSealed && s.broken == {} && !s.lateAttempt
    ensures V.Verdict(Stamped(s.sink.log, runId), runId) != V.LocalHistoryValid
  {
    steps, s := EveryEndingSeals(a, q, S.Answers(status, hash, bytes), runId);
  }

  /** one that names a credential whose secret is empty, */
  lemma EmptySecretIsRejected(a: string, q: Request, status: int, hash: string, bytes: nat, runId: string)
    returns (steps: seq<Step>, s: State)
    requires Reaching(a, q, S.Answers(status, hash, bytes)) && CredentialRef(q) != "none" && !q.injects && runId != ""
    ensures Exec(S.Start(a, q), steps) == Some(s) && s.sink.isSealed && s.broken == {} && !s.lateAttempt
    ensures V.Verdict(Stamped(s.sink.log, runId), runId) != V.LocalHistoryValid
  {
    steps, s := EveryEndingSeals(a, q, S.Answers(status, hash, bytes), runId);
  }

  /** one whose upstream status is negative, */
  lemma NegativeStatusIsRejected(a: string, q: Request, status: int, hash: string, bytes: nat, runId: string)
    returns (steps: seq<Step>, s: State)
    requires Reaching(a, q, S.Answers(status, hash, bytes)) && status < 0 && runId != ""
    ensures Exec(S.Start(a, q), steps) == Some(s) && s.sink.isSealed && s.broken == {} && !s.lateAttempt
    ensures V.Verdict(Stamped(s.sink.log, runId), runId) != V.LocalHistoryValid
  {
    steps, s := EveryEndingSeals(a, q, S.Answers(status, hash, bytes), runId);
  }

  /** and, whatever the ending, one whose credential id looks like a secret. */
  lemma SecretLookingIdIsRejected(a: string, q: Request, ending: S.Ending, runId: string)
    returns (steps: seq<Step>, s: State)
    requires Reaching(a, q, ending) && LooksSecret(CredentialRef(q)) && runId != ""
    ensures Exec(S.Start(a, q), steps) == Some(s) && s.sink.isSealed && !s.lateAttempt
    ensures s.broken == if ending.Unsettled? then {a} else {}
    ensures V.Verdict(Stamped(s.sink.log, runId), runId) != V.LocalHistoryValid
  {
    steps, s := EveryEndingSeals(a, q, ending, runId);
  }

  // ---------------------------------------------------------------- settled twice, or never

  /** Cancelled during TLS, an attempt whose denial cannot be opened settles EFFECT_UNKNOWN twice: the
      run loses nothing, seals, and is rejected for the second. */
  lemma SettledTwiceIsRejected(a: string, q: Request, runId: string) returns (steps: seq<Step>, s: State)
    requires Sane(a, q) && AuthFit(q) && runId != ""
    ensures Exec(S.Start(a, q), steps) == Some(s) && s.sink.isSealed && s.broken == {} && !s.lateAttempt
    ensures Told(s, a) && Fit(s.hs[a]) && Doubled(s.hs[a].story)
    ensures V.Verdict(Stamped(s.sink.log, runId), runId) == V.IllegalAttemptTransition
  {
    var told;
    steps, s, told := S.RunOf(a, q, S.SettledTwice, false, false);
    RunIsSealed(a, q, steps, s);
    EndedFitIff(s.hs[a], told, q, S.SettledTwice);
    assert forall b | Told(s, b) :: b == a;
    DoubledVerdict(s, a, runId);
  }

  /** If the first of the two is lost, the second makes up for it and the run is accepted, */
  lemma MadeUpForIsAccepted(a: string, q: Request, runId: string) returns (steps: seq<Step>, s: State)
    requires Sane(a, q) && AuthFit(q) && runId != ""
    ensures Exec(S.Start(a, q), steps) == Some(s) && s.sink.isSealed && s.broken == {}
    ensures V.Verdict(Stamped(s.sink.log, runId), runId) == V.LocalHistoryValid
  {
    steps, s := EveryEndingSeals(a, q, S.MadeUpFor, runId);
  }

  lemma OnlyUnsettled(s: State, a: string)
    requires SealedRun(s) && s.hs.Keys == {a} && !s.lateAttempt && Fit(s.hs[a]) && Unsettled(s.hs[a].story)
    ensures OnlySettledAmiss(s) && Told(s, a) && forall b | Told(s, b) :: !Doubled(s.hs[b].story)
  {
    assert forall b | Told(s, b) :: b == a;
  }

  /** and if building the request raises, no outcome is settled and the run is rejected at the release. */
  lemma UnsettledIsRejected(a: string, q: Request, runId: string) returns (steps: seq<Step>, s: State)
    requires Sane(a, q) && AuthFit(q) && runId != ""
    ensures Exec(S.Start(a, q), steps) == Some(s) && s.sink.isSealed && !s.lateAttempt
    ensures V.Verdict(Stamped(s.sink.log, runId), runId) == V.ReleaseBeforeTerminal
  {
    var told;
    steps, s, told := S.RunOf(a, q, S.Unsettled, false, false);
    RunIsSealed(a, q, steps, s);
    EndedFitIff(s.hs[a], told, q, S.Unsettled);
    OnlyUnsettled(s, a);
    UnsettledVerdict(s, a, runId);
  }

  // ---------------------------------------------------------------- the late attempt

  /** The gateway checks the connection and appends EFFECT_ATTEMPTED in two steps, so the request can be
      appended in between: the run closes regularly and is then rejected for the effect. */
  lemma LateAttemptIsRejected(a: string, q: Request, ending: S.Ending, runId: string)
    returns (steps: seq<Step>, s: State)
    requires Reaching(a, q, ending) && AuthFit(q) && EndingFits(q, ending) && runId != ""
    ensures Exec(S.Start(a, q), steps) == Some(s) && s.sink.isSealed && s.broken == {}
    ensures V.Verdict(Stamped(s.sink.log, runId), runId) == V.PostCancellationEffect
  {
    var told;
    steps, s, told := S.RunOf(a, q, ending, true, false);
    RunIsSealed(a, q, steps, s);
    EndedFitIff(s.hs[a], told, q, ending);
    assert forall b | Told(s, b) :: b == a;
    LateAttemptVerdict(s, runId);
  }

  // ---------------------------------------------------------------- the lost release

  /** A timed-out attempt whose release is missing is bound, and lacks nothing else. */
  lemma TimedOutStory(run: Run, a: string, h: Handler, broken: bool)
    requires HandlerInv(run, a, h, broken) && AttemptInv(run, a) && Sane(a, h.req) && AuthFit(h.req)
    requires |h.story| == 4 && StartsAPX(h.story) && h.story[3].EffectUnknown?
    ensures LacksRelease(h.story) && Bound(h.story) && StoryRecsFit(h.story)
  {
    BeginningBound(run, a, h, broken, h.story);
    ReachedRecs(run, a, h, broken);
  }

  lemma OnlyThisStory(s: State, a: string)
    requires StoriesTold(s.sink.log, s.hs) && s.hs.Keys == {a} && Viable(s.hs[a].story) && Bound(s.hs[a].story)
    ensures StoriesOk(s.sink.log)
  {
    forall b | b in Named(s.sink.log) ensures Viable(Story(s.sink.log, b)) && Bound(Story(s.sink.log, b)) {
      NamedIsTold(s, b);
    }
  }

  lemma OnlyThisRelease(s: State, a: string)
    requires SealedRun(s) && s.hs.Keys == {a} && AuthFit(s.hs[a].req)
    requires LacksRelease(s.hs[a].story) && Bound(s.hs[a].story) && StoryRecsFit(s.hs[a].story)
    ensures OnlyReleasesLost(s) && Told(s, a)
  {
    assert Sane(a, s.hs[a].req);
    OnlyThisStory(s, a);
    assert forall b | Told(s, b) :: b == a;
  }

  /** A failure to open the file is raised before the write is guarded and does not latch the sink: a
      run can close with a durable PERMIT_GRANTED and no PERMIT_RELEASED, and is rejected for it. */
  lemma ReleaseCanBeMissing(a: string, q: Request, runId: string) returns (steps: seq<Step>, s: State)
    requires Sane(a, q) && AuthFit(q) && runId != ""
    ensures Exec(S.Start(a, q), steps) == Some(s) && s.sink.isSealed && s.hs.Keys == {a}
    ensures HasPermit(s.hs[a].story) && forall r | r in s.hs[a].story :: !r.PermitReleased?
    ensures V.Verdict(Stamped(s.sink.log, runId), runId) == V.MissingPermitRelease
  {
    var told;
    steps, s, told := S.RunOf(a, q, S.TimesOut, false, true);
    RunIsSealed(a, q, steps, s);
    assert s.hs[a].story == told.story;
    assert AttemptInv(s.run, a) && Sane(a, s.hs[a].req) && HandlerInv(s.run, a, s.hs[a], a in s.broken);
    TimedOutStory(s.run, a, s.hs[a], a in s.broken);
    OnlyThisRelease(s, a);
    LostReleaseVerdict(s, a, runId);
  }

  // ---------------------------------------------------------------- where the verifier raises

  /** A cancellation with a producer left, and a DRAIN_TIMEOUT that names no blockers. */
  function Raising(why: string, scope: string, listener: string): seq<Rec> {
    var facts := Facts(1, 1, false, 1, 0, 1, listener, NO_EXTERNAL);
    [CancelRequested(why, 1, 1), CancelLinearized(0, 1, 1, 0), KillSwitch(why, 0, [], [], facts),
     DrainTimeout(scope, None, facts)]
  }

  lemma RequestStep(r: Rec)
    requires r.CancelRequested? && SchemaOk(r)
    ensures V.Step(V.INITIAL, r) == V.Next(V.INITIAL.(activeSeen := true, request := Some(r), run := V.Requested))
  {
  }

  lemma LinearizedStep(v: V.VState, r: Rec)
    requires v.Wf() && SchemaOk(r) && v.run == V.Requested && v.order == [] && v.sequences == {} && v.activeSeen
    requires r.CancelLinearized? && r.newEpoch == r.cancelledEpoch + 1
    requires v.request.value.seqNo == r.seqNo && v.request.value.cancellationEpoch == r.newEpoch
    ensures V.Step(v, r) == V.Next(v.(cancel := Some(r), run := V.Linearized, sequences := {r.seqNo}))
  {
    D.StepLinearizedShape(v, r);
    assert {} + {r.seqNo} == {r.seqNo};
  }

  lemma KillStep(v: V.VState, r: Rec)
    requires v.Wf() && SchemaOk(r) && v.attempts == map[] && v.run == V.Linearized && v.kill.None? && v.activeSeen
    requires v.cancel.value.inflight == 0 && r.KillSwitch? && V.CountsAdd(r.facts)
    requires V.KillBinds(v.cancel.value, r) && V.DrainFactHolds(r.facts)
    ensures V.Step(v, r) == V.Next(v.(kill := Some(r)))
  {
    assert V.InFlight(v) == {};
    D.StepKillShape(v, r);
  }

  lemma RaisingRecs(why: string, scope: string, listener: string)
    requires why != ""
    ensures var r := Raising(why, scope, listener);
            && |r| == 4 && SchemaOk(r[0]) && SchemaOk(r[1]) && SchemaOk(r[2]) && SchemaOk(r[3])
            && V.KillBinds(r[1], r[2]) && V.CountsAdd(r[2].facts) && V.DrainFactHolds(r[2].facts)
            && r[3].facts == r[2].facts && r[3].blockers == None
  {
  }

  /** After the three records of the cancellation. */
  lemma BeforeRaising(why: string, scope: string, listener: string) returns (v: V.VState)
    requires why != ""
    ensures V.AllSchemaOk(Raising(why, scope, listener)[..3])
    ensures V.Fold(Raising(why, scope, listener)[..3]) == V.Next(v) && v.run == V.Linearized
    ensures v.Wf() && v.kill == Some(Raising(why, scope, listener)[2])
  {
    var r := Raising(why, scope, listener);
    RaisingRecs(why, scope, listener);
    var v1 := V.INITIAL.(activeSeen := true, request := Some(r[0]), run := V.Requested);
    var v2 := v1.(cancel := Some(r[1]), run := V.Linearized, sequences := {1});
    v := v2.(kill := Some(r[2]));
    RequestStep(r[0]);
    FoldNext([], r[0]);
    LinearizedStep(v1, r[1]);
    FoldNext([] + [r[0]], r[1]);
    KillStep(v2, r[2]);
    FoldNext([] + [r[0]] + [r[1]], r[2]);
    assert [] + [r[0]] + [r[1]] + [r[2]] == r[..3];
  }

  /** On these logs the verifier raises instead of returning a status. */
  lemma RaisesSomewhere(why: string, scope: string, listener: string, runId: string)
    requires why != "" && runId != ""
    ensures V.Verdict(Stamped(Raising(why, scope, listener), runId), runId) == V.KeyErrorRaised
  {
    var r := Raising(why, scope, listener);
    RaisingRecs(why, scope, listener);
    var v := BeforeRaising(why, scope, listener);
    A.RaisingStep(v, r[3]);
    FoldNext(r[..3], r[3]);
    assert r[..3] + [r[3]] == r;
    A.SchemaPass(Stamped(r, runId), runId);
  }
}
