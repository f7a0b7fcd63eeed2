/** What a legal E10-v2 history is, said about a whole log and without a state machine.

    A log is read through three projections: the story of each attempt, the tail of
    cancellation and closure records, and the set of owned sequence numbers.  `History` is the
    declarative specification that the verifier is measured against. */
module History {
  import opened Records
  import opened Verifier

  // ---------------------------------------------------------------- projections

  predicate Tells(r: Rec, a: string) {
    IsStoryRec(r) && AidOf(r) == a
  }

  /** The records of one attempt, in append order. */
  function Story(log: seq<Rec>, a: string): seq<Rec> {
    if log == [] then []
    else
      var before := Story(log[..|log| - 1], a);
      if Tells(log[|log| - 1], a) then before + [log[|log| - 1]] else before
  }

  /** The cancellation and closure records, in append order. */
  function Tail(log: seq<Rec>): seq<Rec> {
    if log == [] then []
    else
      var before := Tail(log[..|log| - 1]);
      if IsTailRec(log[|log| - 1]) then before + [log[|log| - 1]] else before
  }

  /** The attempts a log names. */
  function Named(log: seq<Rec>): set<string> {
    set i | 0 <= i < |log| && IsStoryRec(log[i]) :: AidOf(log[i])
  }

  function SeqOf(r: Rec): int
    requires OwnsSeq(r)
  {
    r.seqNo
  }

  /** The sequence numbers a log uses up. */
  function Owned(log: seq<Rec>): set<int> {
    set i | 0 <= i < |log| && OwnsSeq(log[i]) :: SeqOf(log[i])
  }

  /** Attempts whose AUTH was appended after cancellation had been requested. */
  function LateAids(log: seq<Rec>): set<string> {
    set i | 0 <= i < |log| && log[i].AuthCommitted? && Tail(log[..i]) != [] :: log[i].aid
  }

  // ---------------------------------------------------------------- the story of one attempt

  /** The stories a live run may show so far:
      AUTH; AUTH soft; AUTH PERMIT; AUTH PERMIT soft [RELEASE];
      AUTH PERMIT ATTEMPTED; and after ATTEMPTED one of
      soft [RELEASE], COMPLETED [ALLOW [RELEASE]], UNKNOWN with RELEASE and TERMINATED
      in either order. */
  predicate Viable(s: seq<Rec>) {
    s != [] ==>
      && s[0].AuthCommitted?
      && (|s| > 1 ==>
        || (Soft(s[1]) && |s| == 2)
        || (s[1].PermitGranted? && (|s| > 2 ==>
          || (Soft(s[2]) && ReleaseEnds(s, 3))
          || (s[2].EffectAttempted? && (|s| > 3 ==>
            || (Soft(s[3]) && ReleaseEnds(s, 4))
            || (s[3].EffectCompleted? && AllowThenRelease(s))
            || (s[3].EffectUnknown? && ReleaseAndTorn(s)))))))
  }

  predicate ReleaseEnds(s: seq<Rec>, i: nat)
    requires i <= |s|
  {
    |s| == i || (|s| == i + 1 && s[i].PermitReleased?)
  }

  predicate AllowThenRelease(s: seq<Rec>)
    requires 4 <= |s|
  {
    |s| == 4 || (s[4].Allow? && ReleaseEnds(s, 5))
  }

  predicate ReleaseAndTorn(s: seq<Rec>)
    requires 4 <= |s|
  {
    || |s| == 4
    || (s[4].PermitReleased? && (|s| == 5 || (|s| == 6 && s[5].ConnectionTerminated?)))
    || (s[4].ConnectionTerminated? && ReleaseEnds(s, 5))
  }

  /** Where the terminal record sits, or |s| when there is none yet. */
  function TerminalIx(s: seq<Rec>): nat {
    if |s| > 1 && IsTerminal(s[1]) then 1
    else if |s| > 2 && IsTerminal(s[2]) then 2
    else if |s| > 3 && IsTerminal(s[3]) then 3
    else |s|
  }

  predicate HasPermit(s: seq<Rec>) {
    |s| > 1 && s[1].PermitGranted?
  }

  predicate HasAttempted(s: seq<Rec>) {
    |s| > 2 && s[2].EffectAttempted?
  }

  /** Where the release record sits, or |s| when there is none yet. */
  function ReleaseIx(s: seq<Rec>): nat {
    if |s| > 3 && s[3].PermitReleased? then 3
    else if |s| > 4 && s[4].PermitReleased? then 4
    else if |s| > 5 && s[5].PermitReleased? then 5
    else |s|
  }

  /** A story that owes nothing: one terminal record, ALLOW exactly after COMPLETED and
      RELEASE exactly after PERMIT. */
  predicate Complete(s: seq<Rec>) {
    && Viable(s)
    && TerminalIx(s) < |s|
    && (s[TerminalIx(s)].EffectCompleted? ==> |s| > 4)
    && (HasPermit(s) ==> ReleaseIx(s) < |s|)
  }

  /** Every record of a story agrees with the records before it that it refers to. */
  predicate BoundAt(s: seq<Rec>, i: nat)
    requires Viable(s) && 0 < i < |s|
  {
    var auth, r := s[0], s[i];
    if r.PermitGranted? then PermitBinds(auth, r) && auth.seqNo < r.seqNo
    else if r.EffectAttempted? then AttemptBinds(auth, s[1], r)
    else if IsTerminal(r) then TerminalBinds(auth, if HasPermit(s) then Some(s[1]) else None, r)
    else if r.Allow? then AllowBinds(auth, s[3], r)
    else if r.PermitReleased? then ReleaseBinds(s[1], r) && s[1].seqNo < r.seqNo
    else TornBinds(auth, s[3], r)
  }

  predicate Bound(s: seq<Rec>)
    requires Viable(s)
  {
    forall i: nat | 0 < i < |s| :: BoundAt(s, i)
  }

  /** A story says its permit was held when sequence c was handed out: P < c < R. */
  predicate HeldAt(s: seq<Rec>, c: int) {
    HasPermit(s) && s[1].seqNo < c && ReleaseIx(s) < |s| && c < s[ReleaseIx(s)].seqNo
  }

  // ---------------------------------------------------------------- the tail of the run

  /** A prefix of REQUESTED, LINEARIZED, KILL, ACK, RUN_CLOSED whose facts agree. */
  predicate TailOk(t: seq<Rec>) {
    && |t| <= 5
    && (|t| > 0 ==> t[0].CancelRequested?)
    && (|t| > 1 ==>
      && t[1].CancelLinearized? && t[1].newEpoch == t[1].cancelledEpoch + 1
      && t[0].seqNo == t[1].seqNo && t[0].cancellationEpoch == t[1].newEpoch)
    && (|t| > 2 ==>
      t[2].KillSwitch? && CountsAdd(t[2].facts) && KillBinds(t[1], t[2]) && DrainFactHolds(t[2].facts))
    && (|t| > 3 ==> t[3].CancelAck? && t[3].facts == t[2].facts && AckFacts(t[3]))
    && (|t| > 4 ==> t[4].RunClosed? && ClosureFacts(t[1], t[4]))
  }

  // ---------------------------------------------------------------- the whole log

  predicate OnlyDegraded(log: seq<Rec>) {
    forall i | 0 <= i < |log| :: log[i].StartupDegraded?
  }

  /** Where a record may stand: startup records only behind STARTUP_DEGRADED records, attempts
      of effects only before cancellation is requested, and every story record and denial
      before the KILL_SWITCH. */
  predicate PlaceOk(before: seq<Rec>, r: Rec) {
    && (IsStoryRec(r) || r.Blocked? ==> |Tail(before)| <= 2)
    && (r.EffectAttempted? ==> Tail(before) == [])
    && (IsStartupRec(r) ==> OnlyDegraded(before))
  }

  /** Facts of single records that the schema does not cover. */
  predicate ContextOk(r: Rec) {
    && !r.StartupFailed? && !r.DrainTimeout?
    && (r.Startup? ==> r.maxConnections > 0)
    && (r.Blocked? ==> BlockedPinOk(r))
    && (r.AuthCommitted? ==> !LooksSecret(r.credential))
  }

  predicate SeqsDistinct(log: seq<Rec>) {
    forall i, j | 0 <= i < j < |log| && OwnsSeq(log[i]) && OwnsSeq(log[j]) ::
      SeqOf(log[i]) != SeqOf(log[j])
  }

  /** A permit never follows an authorization that was itself appended late. */
  predicate NoLatePermit(log: seq<Rec>) {
    forall a | a in LateAids(log) :: !HasPermit(Story(log, a))
  }

  /** A < C and P < C, and every attempt belongs to the cancelled epoch. */
  predicate BeforeCancel(s: seq<Rec>, cancel: Rec)
    requires cancel.CancelLinearized? && Viable(s)
  {
    s != [] ==>
      && s[0].epoch == cancel.cancelledEpoch && s[0].seqNo < cancel.seqNo
      && (HasPermit(s) ==> s[1].seqNo < cancel.seqNo)
  }

  /** The permits in flight at sequence c, as the stories tell it. */
  function HeldSet(log: seq<Rec>, c: int): set<string> {
    set a | a in Named(log) && HeldAt(Story(log, a), c)
  }

  predicate PlacedAt(log: seq<Rec>, i: nat)
    requires i < |log|
  {
    PlaceOk(log[..i], log[i]) && ContextOk(log[i])
  }

  ghost predicate PlacesOk(log: seq<Rec>) {
    forall i: nat | i < |log| :: PlacedAt(log, i)
  }

  ghost predicate StoriesOk(log: seq<Rec>) {
    forall a | a in Named(log) :: Viable(Story(log, a)) && Bound(Story(log, a))
  }

  /** Once cancellation is linearized, every story lies before it. */
  ghost predicate CancelBounds(log: seq<Rec>)
    requires TailOk(Tail(log)) && StoriesOk(log)
  {
    |Tail(log)| >= 2 ==> forall a | a in Named(log) :: BeforeCancel(Story(log, a), Tail(log)[1])
  }

  /** Once KILL_SWITCH is in the log, every story is complete and the in-flight count that
      cancellation recorded is the one the sequence numbers give. */
  ghost predicate Drained(log: seq<Rec>)
    requires TailOk(Tail(log))
  {
    |Tail(log)| >= 3 ==>
      && (forall a | a in Named(log) :: Complete(Story(log, a)))
      && |HeldSet(log, Tail(log)[1].seqNo)| == Tail(log)[1].inflight
  }

  /** The rules that every prefix of a legal history keeps. */
  ghost predicate Safe(log: seq<Rec>) {
    && TailOk(Tail(log)) && PlacesOk(log) && StoriesOk(log) && SeqsDistinct(log)
    && NoLatePermit(log) && CancelBounds(log) && Drained(log)
  }

  /** A legal, closed E10-v2 history. */
  ghost predicate LegalHistory(log: seq<Rec>) {
    && AllSchemaOk(log)
    && Safe(log)
    && |Tail(log)| == 5
    && Named(log) != {}
  }

  // ---------------------------------------------------------------- facts about projections

  lemma StorySnoc(before: seq<Rec>, r: Rec, a: string)
    ensures Story(before + [r], a) == if Tells(r, a) then Story(before, a) + [r] else Story(before, a)
  {
    assert (before + [r])[..|before|] == before;
  }

  lemma TailSnoc(before: seq<Rec>, r: Rec)
    ensures Tail(before + [r]) == if IsTailRec(r) then Tail(before) + [r] else Tail(before)
  {
    assert (before + [r])[..|before|] == before;
  }

  lemma NamedSnoc(before: seq<Rec>, r: Rec)
    ensures Named(before + [r]) == if IsStoryRec(r) then Named(before) + {AidOf(r)} else Named(before)
  {
    var log := before + [r];
    forall a ensures a in Named(log) <==> a in Named(before) || Tells(r, a) {
      if a in Named(before) {
        var i :| 0 <= i < |before| && IsStoryRec(before[i]) && AidOf(before[i]) == a;
        assert log[i] == before[i];
      }
      if Tells(r, a) {
        assert log[|before|] == r;
      }
      if a in Named(log) {
        var i :| 0 <= i < |log| && IsStoryRec(log[i]) && AidOf(log[i]) == a;
        assert i < |before| ==> log[i] == before[i];
      }
    }
  }

  lemma OwnedSnoc(before: seq<Rec>, r: Rec)
    ensures Owned(before + [r]) == if OwnsSeq(r) then Owned(before) + {SeqOf(r)} else Owned(before)
  {
    var log := before + [r];
    forall n ensures n in Owned(log) <==> n in Owned(before) || (OwnsSeq(r) && SeqOf(r) == n) {
      if n in Owned(before) {
        var i :| 0 <= i < |before| && OwnsSeq(before[i]) && SeqOf(before[i]) == n;
        assert log[i] == before[i];
      }
      if OwnsSeq(r) && SeqOf(r) == n {
        assert log[|before|] == r;
      }
      if n in Owned(log) {
        var i :| 0 <= i < |log| && OwnsSeq(log[i]) && SeqOf(log[i]) == n;
        assert i < |before| ==> log[i] == before[i];
      }
    }
  }

  lemma LateSnoc(before: seq<Rec>, r: Rec)
    ensures LateAids(before + [r]) ==
            if r.AuthCommitted? && Tail(before) != [] then LateAids(before) + {r.aid} else LateAids(before)
  {
    var log := before + [r];
    assert log[..|before|] == before && log[|before|] == r;
    assert forall i | 0 <= i < |before| :: log[..i] == before[..i] && log[i] == before[i];
    forall a ensures a in LateAids(log) <==>
                     a in LateAids(before) || (r.AuthCommitted? && Tail(before) != [] && r.aid == a) {
      if a in LateAids(before) {
        var i :| 0 <= i < |before| && before[i].AuthCommitted? && Tail(before[..i]) != [] && before[i].aid == a;
        assert log[i].AuthCommitted? && Tail(log[..i]) != [];
      }
      if a in LateAids(log) {
        var i :| 0 <= i < |log| && log[i].AuthCommitted? && Tail(log[..i]) != [] && log[i].aid == a;
      }
    }
  }

  /** An attempt is named exactly when it has a story. */
  lemma {:induction false} NamedIffStory(log: seq<Rec>, a: string)
    ensures a in Named(log) <==> Story(log, a) != []
  {
    if log != [] {
      var n := |log| - 1;
      assert log == log[..n] + [log[n]];
      NamedIffStory(log[..n], a);
      NamedSnoc(log[..n], log[n]);
    }
  }

  lemma LateAreNamed(log: seq<Rec>)
    ensures LateAids(log) <= Named(log)
  {
    forall a | a in LateAids(log) ensures a in Named(log) {
      var i :| 0 <= i < |log| && log[i].AuthCommitted? && Tail(log[..i]) != [] && log[i].aid == a;
      assert IsStoryRec(log[i]) && AidOf(log[i]) == a;
    }
  }
}
