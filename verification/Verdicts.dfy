/** Which status the verifier gives to the sealed runs it rejects for a lost race, a lost release, an
    outcome settled twice or one that is missing. */
module Verdicts {
  import opened Records
  import opened RunModel
  import opened History
  import opened Protocol
  import opened HandlerProofs
  import opened Invariants
  import opened RunAcceptance
  import opened Soundness
  import V = Verifier
  import A = Acceptance

  // ---------------------------------------------------------------- safe prefixes

  lemma SafeTail(s: State, n: nat)
    requires SealedRun(s) && n <= |s.sink.log|
    ensures TailOk(Tail(s.sink.log[..n]))
  {
    ScriptIsLegal(s);
    A.TailMonotone(s.sink.log, n);
  }

  lemma SafePlaces(s: State, n: nat)
    requires SealedRun(s) && RecsFit(s) && n <= |s.sink.log|
    requires forall i: nat | i < n :: !LateAttemptAt(s.sink.log, i)
    ensures PlacesOk(s.sink.log[..n])
  {
    var log := s.sink.log;
    forall i: nat | i < n ensures PlacedAt(log[..n], i) {
      SealedRec(s, i);
      SealedPlace(s, i);
      assert log[..n][..i] == log[..i];
    }
  }

  /** Up to KILL_SWITCH, to the first late attempt and to the first record that is out of order in its
      story, the log of a sealed run is safe. */
  lemma SafePrefix(s: State, n: nat)
    requires SealedRun(s) && RecsFit(s) && n <= |s.sink.log| && StoriesOk(s.sink.log[..n])
    requires |Tail(s.sink.log[..n])| <= 2 && forall i: nat | i < n :: !LateAttemptAt(s.sink.log, i)
    ensures Safe(s.sink.log[..n])
  {
    SafeTail(s, n);
    SafePlaces(s, n);
    SealedNoLatePermit(s, n);
    SealedCancelBounds(s, n);
    assert SeqsDistinct(s.sink.log);
  }

  lemma StoriesPrefix(log: seq<Rec>, n: nat)
    requires StoriesOk(log) && n <= |log|
    ensures StoriesOk(log[..n])
    decreases |log|
  {
    if n == |log| {
      assert log[..n] == log;
    } else {
      var m := |log| - 1;
      assert log[..m] + [log[m]] == log && log[..m][..n] == log[..n];
      StoriesBack(log[..m], log[m]);
      StoriesPrefix(log[..m], n);
    }
  }

  lemma StoriesBack(before: seq<Rec>, r: Rec)
    requires StoriesOk(before + [r])
    ensures StoriesOk(before)
  {
    NamedSnoc(before, r);
    forall a | a in Named(before) ensures Viable(Story(before, a)) && Bound(Story(before, a)) {
      StorySnoc(before, r, a);
      NamedIffStory(before, a);
      if Tells(r, a) {
        ViablePrefix(Story(before, a), r);
      }
    }
  }

  lemma AllSchema(s: State)
    requires SealedRun(s) && RecsFit(s)
    ensures V.AllSchemaOk(s.sink.log)
  {
    forall i: nat | i < |s.sink.log| ensures V.SchemaAt(s.sink.log, i) {
      SealedRec(s, i);
    }
  }

  lemma {:induction false} SchemaPrefix(log: seq<Rec>, n: nat)
    requires V.AllSchemaOk(log) && n <= |log|
    ensures V.AllSchemaOk(log[..n])
  {
    forall i: nat | i < n ensures V.SchemaAt(log[..n], i) {
      assert V.SchemaAt(log, i);
    }
  }

  lemma FoldNext(before: seq<Rec>, r: Rec)
    requires V.AllSchemaOk(before) && SchemaOk(r) && V.Fold(before).Next?
    ensures V.AllSchemaOk(before + [r]) && V.Fold(before + [r]) == V.Step(V.Fold(before).v, r)
  {
    V.SchemaSnoc(before, r);
    assert (before + [r])[..|before|] == before;
  }

  /** The loop stops with a status at record n. */
  ghost predicate StopsAt(log: seq<Rec>, n: nat, status: V.Status) {
    n < |log| && V.AllSchemaOk(log[..n + 1]) && V.Fold(log[..n + 1]) == V.Stop(status)
  }

  /** The loop stops with a status at the record after a prefix. */
  ghost predicate StopsAfter(before: seq<Rec>, r: Rec, status: V.Status) {
    V.AllSchemaOk(before + [r]) && V.Fold(before + [r]) == V.Stop(status)
  }

  lemma AfterIsAt(log: seq<Rec>, n: nat, status: V.Status)
    requires n < |log| && StopsAfter(log[..n], log[n], status)
    ensures StopsAt(log, n, status)
  {
    assert log[..n] + [log[n]] == log[..n + 1];
  }

  /** If the loop stops within a log, that is the verdict. */
  lemma StopsThere(log: seq<Rec>, n: nat, runId: string, status: V.Status)
    requires V.AllSchemaOk(log) && runId != "" && StopsAt(log, n, status)
    ensures V.Verdict(Stamped(log, runId), runId) == status
  {
    V.FoldStops(log, n + 1);
    A.SchemaPass(Stamped(log, runId), runId);
  }

  // ---------------------------------------------------------------- the late attempt

  lemma {:induction false} FirstLate(log: seq<Rec>, n: nat) returns (i: nat)
    requires n < |log| && LateAttemptAt(log, n)
    ensures i <= n && LateAttemptAt(log, i) && forall j: nat | j < i :: !LateAttemptAt(log, j)
  {
    if exists j: nat :: j < n && LateAttemptAt(log, j) {
      var j: nat :| j < n && LateAttemptAt(log, j);
      i := FirstLate(log, j);
    } else {
      i := n;
    }
  }

  lemma LateAttemptStops(v: V.VState, before: seq<Rec>, r: Rec)
    requires v.Wf() && Safe(before) && Describes(v, before) && SchemaOk(r) && r.EffectAttempted?
    requires 1 <= |Tail(before)| <= 2
    ensures V.Step(v, r) == V.Stop(V.PostCancellationEffect)
  {
  }

  lemma FoldsToLate(before: seq<Rec>, r: Rec)
    requires Safe(before) && V.AllSchemaOk(before) && SchemaOk(r) && r.EffectAttempted? && 1 <= |Tail(before)| <= 2
    ensures StopsAfter(before, r, V.PostCancellationEffect)
  {
    FoldIff(before);
    LateAttemptStops(V.Fold(before).v, before, r);
    FoldNext(before, r);
  }

  lemma FoldsToThisAttempt(s: State, i: nat)
    requires FitWhole(s) && i < |s.sink.log| && LateAttemptAt(s.sink.log, i)
    requires forall j: nat | j < i :: !LateAttemptAt(s.sink.log, j)
    ensures StopsAfter(s.sink.log[..i], s.sink.log[i], V.PostCancellationEffect)
  {
    var log := s.sink.log;
    FitRecs(s);
    FitStories(s);
    AllSchema(s);
    SealedFacts(s);
    assert StandsEarly(log, i) && V.SchemaAt(log, i);
    StoriesPrefix(log, i);
    SafePrefix(s, i);
    SchemaPrefix(log, i);
    FoldsToLate(log[..i], log[i]);
  }

  /** A sealed run whose only defect are attempts appended after the request is rejected for the first
      of them. */
  lemma LateAttemptVerdict(s: State, runId: string)
    requires FitWhole(s) && s.lateAttempt && runId != ""
    ensures V.Verdict(Stamped(s.sink.log, runId), runId) == V.PostCancellationEffect
  {
    assert AttemptsSeen(s);
    var n: nat :| n < |s.sink.log| && LateAttemptAt(s.sink.log, n);
    var i := FirstLate(s.sink.log, n);
    FoldsToThisAttempt(s, i);
    AfterIsAt(s.sink.log, i, V.PostCancellationEffect);
    FitRecs(s);
    AllSchema(s);
    StopsThere(s.sink.log, i, runId, V.PostCancellationEffect);
  }

  // ---------------------------------------------------------------- the record out of order

  /** The first record that is out of order in its story. */
  ghost predicate OutOfOrder(log: seq<Rec>, n: nat) {
    && n < |log| && IsStoryRec(log[n]) && StoriesOk(log[..n])
    && var t := Story(log[..n], AidOf(log[n])); !(Viable(t + [log[n]]) && Bound(t + [log[n]]))
  }

  lemma {:induction false} FirstOutOfOrder(log: seq<Rec>) returns (n: nat)
    requires !StoriesOk(log)
    ensures OutOfOrder(log, n) && Story(log[..n], AidOf(log[n])) + [log[n]] <= Story(log, AidOf(log[n]))
  {
    var m := |log| - 1;
    var before, r := log[..m], log[m];
    assert before + [r] == log;
    if StoriesOk(before) {
      n := m;
      LastOutOfOrder(before, r);
    } else {
      n := FirstOutOfOrder(before);
      assert before[..n] == log[..n];
      StoryPrefix(log, m, AidOf(log[n]));
    }
  }

  lemma LastOutOfOrder(before: seq<Rec>, r: Rec)
    requires StoriesOk(before) && !StoriesOk(before + [r])
    ensures IsStoryRec(r)
    ensures var t := Story(before, AidOf(r)) + [r]; !(Viable(t) && Bound(t)) && t == Story(before + [r], AidOf(r))
  {
    NamedSnoc(before, r);
    var a :| a in Named(before + [r])
             && !(Viable(Story(before + [r], a)) && Bound(Story(before + [r], a)));
    StorySnoc(before, r, a);
  }

  lemma OutOfOrderVerdict(s: State, n: nat, runId: string, status: V.Status)
    requires SealedRun(s) && RecsFit(s) && runId != "" && n < |s.sink.log|
    requires StopsAfter(s.sink.log[..n], s.sink.log[n], status)
    ensures V.Verdict(Stamped(s.sink.log, runId), runId) == status
  {
    AllSchema(s);
    AfterIsAt(s.sink.log, n, status);
    StopsThere(s.sink.log, n, runId, status);
  }

  lemma SafeToHere(s: State, n: nat)
    requires SealedRun(s) && RecsFit(s) && !s.lateAttempt && OutOfOrder(s.sink.log, n)
    ensures var before, r := s.sink.log[..n], s.sink.log[n];
            Safe(before) && |Tail(before)| <= 2 && V.AllSchemaOk(before) && SchemaOk(r)
  {
    SealedFacts(s);
    AllSchema(s);
    SchemaPrefix(s.sink.log, n);
    assert V.SchemaAt(s.sink.log, n);
    assert StandsEarly(s.sink.log, n);
    assert forall i: nat | i < n :: !LateAttemptAt(s.sink.log, i);
    SafePrefix(s, n);
  }

  // ---------------------------------------------------------------- settled twice, or never

  /** AUTH, PERMIT, ATTEMPTED, and then nothing that depends on an answer. */
  predicate Reached(story: seq<Rec>) {
    && StartsAPX(story)
    && forall i | 3 <= i < |story| :: story[i].EffectUnknown? || story[i].PermitReleased?
  }

  /** The attempt was released without an outcome. */
  predicate Unsettled(story: seq<Rec>) { |story| == 4 && StartsAPX(story) && story[3].PermitReleased? }

  /** Such an attempt is bound as far as its first outcome, */
  lemma ReachedBound(run: Run, a: string, h: Handler, broken: bool, t: seq<Rec>)
    requires HandlerInv(run, a, h, broken) && AttemptInv(run, a)
    requires t <= h.story && t != [] && Viable(t) && forall i | 0 <= i < |t| :: !t[i].Allow? && !t[i].PermitReleased?
    requires !t[|t| - 1].ConnectionTerminated? && (HasPermit(t) <==> |t| > 1)
    ensures Bound(t)
  {
    assert t[0] == h.story[0] && RecOk(a, h, h.story[0]);
    assert |t| > 1 ==> t[1] == h.story[1] && RecOk(a, h, h.story[1]);
    forall i: nat | 0 < i < |t| ensures BoundAt(t, i) {
      assert t[i] == h.story[i] && RecOk(a, h, h.story[i]);
      OthersBound(a, h, t[i]);
    }
  }

  lemma BeginningBound(run: Run, a: string, h: Handler, broken: bool, t: seq<Rec>)
    requires HandlerInv(run, a, h, broken) && AttemptInv(run, a) && Reached(h.story)
    requires t <= h.story && (|t| <= 3 || (|t| == 4 && t[3].EffectUnknown?))
    ensures Viable(t) && Bound(t)
  {
    assert forall i | 0 <= i < |t| :: t[i] == h.story[i];
    if t != [] {
      BeginningViable(t);
      ReachedBound(run, a, h, broken, t);
    }
  }

  lemma BeginningViable(t: seq<Rec>)
    requires 1 <= |t| <= 4 && t[0].AuthCommitted? && (|t| > 1 ==> t[1].PermitGranted?)
    requires (|t| > 2 ==> t[2].EffectAttempted?) && (|t| > 3 ==> t[3].EffectUnknown?)
    ensures Viable(t) && (HasPermit(t) <==> |t| > 1) && forall i | 0 <= i < |t| :: !t[i].Allow? && !t[i].PermitReleased?
  {
  }

  /** and all its records are taken by themselves. */
  lemma ReachedRecs(run: Run, a: string, h: Handler, broken: bool)
    requires HandlerInv(run, a, h, broken) && Sane(a, h.req) && AuthFit(h.req) && Reached(h.story)
    ensures StoryRecsFit(h.story) && PinFits(h.req)
  {
    assert RecOk(a, h, h.story[0]) && RecOk(a, h, h.story[1]);
    AuthSchema(a, h);
    forall i | 0 < i < |h.story| ensures SchemaOk(h.story[i]) && ContextOk(h.story[i]) {
      assert RecOk(a, h, h.story[i]);
      LaterSchema(a, h, h.story[i]);
    }
  }

  lemma {:induction false} BoundPrefix(story: seq<Rec>, t: seq<Rec>)
    requires Viable(story) && Bound(story) && t <= story
    ensures Viable(t) && Bound(t)
  {
    if |t| < |story| {
      var before := story[..|story| - 1];
      assert before + [story[|story| - 1]] == story;
      ViablePrefix(before, story[|story| - 1]);
      BoundPrefix(before, t);
    } else {
      assert t == story;
    }
  }

  /** Every told attempt is fit, and finished or settled twice or never settled. */
  ghost predicate OnlySettledAmiss(s: State) {
    && SealedRun(s) && !s.lateAttempt
    && forall a | Told(s, a) :: Fit(s.hs[a]) && (a in s.broken ==> Unsettled(s.hs[a].story))
  }

  /** Whether a told attempt has no outcome, or two. */
  predicate Amiss(s: State, a: string)
    requires Told(s, a)
  {
    a in s.broken || Doubled(s.hs[a].story)
  }

  lemma AmissReached(s: State, a: string)
    requires OnlySettledAmiss(s) && Told(s, a) && Amiss(s, a)
    ensures var t := s.hs[a].story;
            Reached(t) && !Viable(t) && if a in s.broken then Unsettled(t) else DoubledEnd(t)
  {
    ToldLeft(s, a);
    LeftAmiss(s.hs[a].story, a in s.broken);
  }

  lemma LeftAmiss(t: seq<Rec>, broken: bool)
    requires t != [] && LeftBehind(t, broken) && if broken then Unsettled(t) else Doubled(t)
    ensures Reached(t) && !Viable(t) && (!broken ==> DoubledEnd(t))
  {
    if !broken {
      LeftComplete(t, broken);
    }
  }

  lemma RightStory(s: State, a: string)
    requires OnlySettledAmiss(s) && Told(s, a) && !Amiss(s, a)
    ensures Viable(s.hs[a].story) && Bound(s.hs[a].story) && StoryRecsFit(s.hs[a].story) && PinFits(s.hs[a].req)
  {
    FinishedAt(s, a);
    FinishedFitIff(s.run, a, s.hs[a]);
    AcceptedRecsFit(s.hs[a].story);
  }

  lemma AmissRecs(s: State)
    requires OnlySettledAmiss(s)
    ensures RecsFit(s)
  {
    forall a | Told(s, a) ensures PinFits(s.hs[a].req) && StoryRecsFit(s.hs[a].story) {
      if Amiss(s, a) {
        AmissReached(s, a);
        ReachedRecs(s.run, a, s.hs[a], a in s.broken);
      } else {
        RightStory(s, a);
      }
    }
  }

  /** The first record out of order is a second outcome, or a release without one. */
  lemma FirstAmiss(s: State, n: nat)
    requires OnlySettledAmiss(s) && OutOfOrder(s.sink.log, n)
    requires Story(s.sink.log[..n], AidOf(s.sink.log[n])) + [s.sink.log[n]] <= Story(s.sink.log, AidOf(s.sink.log[n]))
    ensures var a, t := AidOf(s.sink.log[n]), Story(s.sink.log[..n], AidOf(s.sink.log[n]));
            && Told(s, a) && Amiss(s, a) && StartsAPX(t)
            && if a in s.broken then |t| == 3 && s.sink.log[n].PermitReleased?
               else |t| == 4 && t[3].EffectUnknown? && s.sink.log[n].EffectUnknown?
  {
    var a, r := AidOf(s.sink.log[n]), s.sink.log[n];
    var t := Story(s.sink.log[..n], a);
    NamedIffStory(s.sink.log, a);
    NamedIffStory(s.sink.log[..n], a);
    NamedIsTold(s, a);
    var story := s.hs[a].story;
    if Amiss(s, a) {
      AmissReached(s, a);
      if |t| + 1 <= 3 || (|t| + 1 == 4 && r.EffectUnknown?) {
        BeginningBound(s.run, a, s.hs[a], a in s.broken, t + [r]);
      }
      WhereAmiss(story, t, r);
    } else {
      RightStory(s, a);
      BoundPrefix(story, t + [r]);
    }
  }

  lemma WhereAmiss(story: seq<Rec>, t: seq<Rec>, r: Rec)
    requires (Unsettled(story) || DoubledEnd(story)) && t + [r] <= story && Viable(t)
    requires !(|t| + 1 <= 3 || (|t| + 1 == 4 && r.EffectUnknown?))
    ensures StartsAPX(t) && r == story[|t|]
    ensures if Unsettled(story) then |t| == 3 else |t| == 4
  {
    assert r == (t + [r])[|t|] && forall i | 0 <= i < |t| :: t[i] == (t + [r])[i] == story[i];
  }

  lemma SecondSettleStops(v: V.VState, r: Rec, t: seq<Rec>, late: bool)
    requires v.Wf() && v.Open() && SchemaOk(r) && r.EffectUnknown?
    requires |t| == 4 && StartsAPX(t) && t[3].EffectUnknown? && r.aid in v.attempts && v.attempts[r.aid] == AttemptFor(t, late)
    ensures V.Step(v, r) == V.Stop(V.IllegalAttemptTransition)
  {
  }

  lemma EarlyReleaseStops(v: V.VState, r: Rec, t: seq<Rec>, late: bool)
    requires v.Wf() && v.Open() && SchemaOk(r) && r.PermitReleased?
    requires |t| == 3 && StartsAPX(t) && r.aid in v.attempts && v.attempts[r.aid] == AttemptFor(t, late)
    ensures V.Step(v, r) == V.Stop(V.ReleaseBeforeTerminal)
  {
  }

  lemma FoldsToAmiss(before: seq<Rec>, r: Rec)
    requires Safe(before) && |Tail(before)| <= 2 && V.AllSchemaOk(before) && SchemaOk(r) && IsStoryRec(r)
    requires StartsAPX(Story(before, AidOf(r)))
    ensures var t := Story(before, AidOf(r));
            && (|t| == 3 && r.PermitReleased? ==> StopsAfter(before, r, V.ReleaseBeforeTerminal))
            && (|t| == 4 && t[3].EffectUnknown? && r.EffectUnknown? ==> StopsAfter(before, r, V.IllegalAttemptTransition))
  {
    var a := AidOf(r);
    var t := Story(before, a);
    FoldIff(before);
    NamedIffStory(before, a);
    FoldNext(before, r);
    if |t| == 3 && r.PermitReleased? {
      EarlyReleaseStops(V.Fold(before).v, r, t, a in LateAids(before));
    }
    if |t| == 4 && t[3].EffectUnknown? && r.EffectUnknown? {
      SecondSettleStops(V.Fold(before).v, r, t, a in LateAids(before));
    }
  }

  lemma VerdictAtAmiss(s: State, n: nat, runId: string)
    requires SealedRun(s) && RecsFit(s) && !s.lateAttempt && OutOfOrder(s.sink.log, n) && runId != ""
    requires var a, t := AidOf(s.sink.log[n]), Story(s.sink.log[..n], AidOf(s.sink.log[n]));
             && StartsAPX(t)
             && if a in s.broken then |t| == 3 && s.sink.log[n].PermitReleased?
                else |t| == 4 && t[3].EffectUnknown? && s.sink.log[n].EffectUnknown?
    ensures V.Verdict(Stamped(s.sink.log, runId), runId) == AmissStatus(s, AidOf(s.sink.log[n]))
  {
    StopsAtAmiss(s, n);
    OutOfOrderVerdict(s, n, runId, AmissStatus(s, AidOf(s.sink.log[n])));
  }

  /** The verdict falls at the first such record. */
  lemma AmissVerdict(s: State, a: string, runId: string) returns (culprit: string)
    requires OnlySettledAmiss(s) && Told(s, a) && Amiss(s, a) && runId != ""
    ensures Told(s, culprit) && Amiss(s, culprit)
    ensures V.Verdict(Stamped(s.sink.log, runId), runId) ==
            AmissStatus(s, culprit)
  {
    AmissNotOk(s, a);
    AmissRecs(s);
    var n := FirstOutOfOrder(s.sink.log);
    FirstAmiss(s, n);
    culprit := AidOf(s.sink.log[n]);
    VerdictAtAmiss(s, n, runId);
  }

  function AmissStatus(s: State, a: string): V.Status {
    if a in s.broken then V.ReleaseBeforeTerminal else V.IllegalAttemptTransition
  }

  lemma AmissNotOk(s: State, a: string)
    requires OnlySettledAmiss(s) && Told(s, a) && Amiss(s, a)
    ensures !StoriesOk(s.sink.log)
  {
    AmissReached(s, a);
    NamedIsTold(s, a);
  }

  lemma StopsAtAmiss(s: State, n: nat)
    requires SealedRun(s) && RecsFit(s) && !s.lateAttempt && OutOfOrder(s.sink.log, n)
    requires var a, t := AidOf(s.sink.log[n]), Story(s.sink.log[..n], AidOf(s.sink.log[n]));
             && StartsAPX(t)
             && if a in s.broken then |t| == 3 && s.sink.log[n].PermitReleased?
                else |t| == 4 && t[3].EffectUnknown? && s.sink.log[n].EffectUnknown?
    ensures StopsAfter(s.sink.log[..n], s.sink.log[n], AmissStatus(s, AidOf(s.sink.log[n])))
  {
    SafeToHere(s, n);
    FoldsToAmiss(s.sink.log[..n], s.sink.log[n]);
  }

  /** A sealed run whose only defect are outcomes settled twice is rejected for the first of them. */
  lemma DoubledVerdict(s: State, a: string, runId: string)
    requires WholeRun(s) && !s.lateAttempt && (forall b | Told(s, b) :: Fit(s.hs[b])) && runId != ""
    requires Told(s, a) && Doubled(s.hs[a].story)
    ensures V.Verdict(Stamped(s.sink.log, runId), runId) == V.IllegalAttemptTransition
  {
    var _ := AmissVerdict(s, a, runId);
  }

  /** One whose only defect are attempts released without an outcome is rejected for the first of them. */
  lemma UnsettledVerdict(s: State, a: string, runId: string)
    requires OnlySettledAmiss(s) && (forall b | Told(s, b) :: !Doubled(s.hs[b].story)) && runId != ""
    requires Told(s, a) && a in s.broken
    ensures V.Verdict(Stamped(s.sink.log, runId), runId) == V.ReleaseBeforeTerminal
  {
    var culprit := AmissVerdict(s, a, runId);
  }

  // ---------------------------------------------------------------- the lost release

  /** A story that is complete but for its release. */
  predicate LacksRelease(story: seq<Rec>) {
    && Viable(story) && TerminalIx(story) < |story| && HasPermit(story) && ReleaseIx(story) == |story|
    && (story[TerminalIx(story)].EffectCompleted? ==> |story| > 4)
  }

  lemma LacksOfEntry(story: seq<Rec>, late: bool)
    requires story != [] && Viable(story)
    ensures LacksRelease(story) ==> AttemptFor(story, late).MissingRelease()
    ensures LacksRelease(story) || Complete(story) ==>
              !AttemptFor(story, late).Incomplete() && !AttemptFor(story, late).MissingAllow()
  {
    CompleteAttempt(story, late);
  }

  /** No story goes on behind KILL_SWITCH. */
  lemma {:induction false} StoryBefore(log: seq<Rec>, k: nat, a: string)
    requires k <= |log| && |Tail(log[..k])| == 2 && (k < |log| ==> IsTailRec(log[k]))
    requires forall i: nat | i < |log| :: StandsEarly(log, i)
    ensures Story(log[..k], a) == Story(log, a)
    decreases |log|
  {
    if k == |log| {
      assert log[..k] == log;
    } else {
      var m := |log| - 1;
      assert log[..m][..k] == log[..k];
      if k < m {
        A.Ordered(log, k, m);
        assert log[..m][k] == log[k];
      }
      assert StandsEarly(log, m);
      forall i: nat | i < m ensures StandsEarly(log[..m], i) {
        assert StandsEarly(log, i) && log[..m][..i] == log[..i];
      }
      StoryBefore(log[..m], k, a);
    }
  }

  lemma KillBranch(v: V.VState, r: Rec, a: string)
    requires v.Wf() && SchemaOk(r) && r.KillSwitch? && v.run == V.Linearized && v.kill.None?
    requires forall b | b in v.attempts :: !v.attempts[b].Incomplete() && !v.attempts[b].MissingAllow()
    requires a in v.attempts && v.attempts[a].MissingRelease()
    ensures V.Step(v, r) == V.Stop(V.MissingPermitRelease)
  {
  }

  lemma KillStops(v: V.VState, before: seq<Rec>, r: Rec, a: string)
    requires v.Wf() && DescribesRun(v, before) && StoriesOk(before) && DescribesAttempts(v, before)
    requires SchemaOk(r) && r.KillSwitch? && |Tail(before)| == 2
    requires forall b | b in Named(before) :: LacksRelease(Story(before, b)) || Complete(Story(before, b))
    requires a in Named(before) && LacksRelease(Story(before, a))
    ensures V.Step(v, r) == V.Stop(V.MissingPermitRelease)
  {
    forall b | b in v.attempts ensures !v.attempts[b].Incomplete() && !v.attempts[b].MissingAllow() {
      LacksOfEntry(Story(before, b), b in LateAids(before));
    }
    LacksOfEntry(Story(before, a), a in LateAids(before));
    KillBranch(v, r, a);
  }

  /** Every told attempt is complete but perhaps for its release, and bound. */
  ghost predicate OnlyReleasesLost(s: State) {
    && SealedRun(s) && RecsFit(s) && StoriesOk(s.sink.log)
    && forall a | Told(s, a) :: LacksRelease(s.hs[a].story) || Complete(s.hs[a].story)
  }

  lemma FoldsToKill(before: seq<Rec>, r: Rec, a: string)
    requires Safe(before) && V.AllSchemaOk(before) && SchemaOk(r) && r.KillSwitch? && |Tail(before)| == 2
    requires forall b | b in Named(before) :: LacksRelease(Story(before, b)) || Complete(Story(before, b))
    requires a in Named(before) && LacksRelease(Story(before, a))
    ensures StopsAfter(before, r, V.MissingPermitRelease)
  {
    FoldIff(before);
    KillStops(V.Fold(before).v, before, r, a);
    FoldNext(before, r);
  }

  lemma FoldsToThisKill(s: State, k: nat, a: string)
    requires OnlyReleasesLost(s) && !s.lateAttempt && Told(s, a) && LacksRelease(s.hs[a].story)
    requires k < |s.sink.log| && |Tail(s.sink.log[..k])| == 2 && s.sink.log[k].KillSwitch?
    ensures StopsAfter(s.sink.log[..k], s.sink.log[k], V.MissingPermitRelease)
  {
    var log := s.sink.log;
    AllSchema(s);
    assert forall i: nat | i < k :: !LateAttemptAt(log, i);
    StoriesPrefix(log, k);
    SafePrefix(s, k);
    SchemaPrefix(log, k);
    StoriesAtKill(s, k, a);
    assert V.SchemaAt(log, k);
    FoldsToKill(log[..k], log[k], a);
  }

  /** A sealed run whose only defect is a lost release is rejected for it at KILL_SWITCH. */
  lemma LostReleaseVerdict(s: State, a: string, runId: string)
    requires OnlyReleasesLost(s) && !s.lateAttempt && Told(s, a) && LacksRelease(s.hs[a].story) && runId != ""
    ensures V.Verdict(Stamped(s.sink.log, runId), runId) == V.MissingPermitRelease
  {
    var k := KillAt(s);
    FoldsToThisKill(s, k, a);
    AfterIsAt(s.sink.log, k, V.MissingPermitRelease);
    AllSchema(s);
    StopsThere(s.sink.log, k, runId, V.MissingPermitRelease);
  }

  lemma KillAt(s: State) returns (k: nat)
    requires SealedRun(s)
    ensures k < |s.sink.log| && |Tail(s.sink.log[..k])| == 2 && s.sink.log[k].KillSwitch?
  {
    SealedFacts(s);
    k := A.TailPosition(s.sink.log, 2);
    assert s.sink.log[k] == Script(s.run, s.can, 2);
  }

  lemma StoriesAtKill(s: State, k: nat, a: string)
    requires OnlyReleasesLost(s) && Told(s, a) && LacksRelease(s.hs[a].story)
    requires k < |s.sink.log| && |Tail(s.sink.log[..k])| == 2 && IsTailRec(s.sink.log[k])
    ensures forall b | b in Named(s.sink.log[..k]) ::
              LacksRelease(Story(s.sink.log[..k], b)) || Complete(Story(s.sink.log[..k], b))
    ensures a in Named(s.sink.log[..k]) && LacksRelease(Story(s.sink.log[..k], a))
  {
    SealedFacts(s);
    forall b: string
      ensures && Story(s.sink.log[..k], b) == StoryOf(s.hs, b) && (b in Named(s.sink.log[..k]) <==> Told(s, b))
    {
      StoryAtKill(s.sink.log, s.hs, k, b);
    }
  }

  lemma StoryAtKill(log: seq<Rec>, hs: map<string, Handler>, k: nat, b: string)
    requires k < |log| && |Tail(log[..k])| == 2 && IsTailRec(log[k]) && StoriesTold(log, hs)
    requires forall i: nat | i < |log| :: StandsEarly(log, i)
    ensures Story(log[..k], b) == StoryOf(hs, b) && (b in Named(log[..k]) <==> b in hs && hs[b].story != [])
  {
    StoryBefore(log, k, b);
    NamedIffStory(log[..k], b);
    assert Story(log, b) == StoryOf(hs, b);
  }
}
