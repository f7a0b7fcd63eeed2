/** The verifier accepts exactly the legal histories.

    `Describes` says what the loop's variables mean in terms of the projections of the log read
    so far; `FoldIff` carries it through the loop together with `Safe`. */
module Soundness {
  import opened Records
  import opened Verifier
  import opened History

  // ---------------------------------------------------------------- meaning of the loop state

  /** The dictionary entry that a story amounts to. */
  function AttemptFor(s: seq<Rec>, late: bool): Attempt
    requires s != [] && Viable(s)
  {
    var t := TerminalIx(s);
    var r := ReleaseIx(s);
    Attempt(if t < |s| then Settled else if HasAttempted(s) then Attempted
            else if HasPermit(s) then Permitted else Authorized,
            s[0],
            if HasPermit(s) then Some(s[1]) else None,
            if HasAttempted(s) then Some(s[2]) else None,
            if t < |s| then Some(s[t]) else None,
            if |s| > 4 && s[4].Allow? then Some(s[4]) else None,
            if r < |s| then Some(s[r]) else None,
            if |s| > 4 && s[4].ConnectionTerminated? then Some(s[4])
            else if |s| > 5 && s[5].ConnectionTerminated? then Some(s[5]) else None,
            late)
  }

  function RunFor(n: nat): RunState {
    if n == 0 then Running else if n == 1 then Requested else if n <= 3 then Linearized
    else if n == 4 then Acknowledged else Closed
  }

  function Nth(t: seq<Rec>, i: nat): Option<Rec> {
    if i < |t| then Some(t[i]) else None
  }

  ghost predicate DescribesAttempts(v: VState, log: seq<Rec>)
    requires StoriesOk(log)
  {
    && v.attempts.Keys == Named(log)
    && forall a | a in Named(log) ::
         Story(log, a) != [] && v.attempts[a] == AttemptFor(Story(log, a), a in LateAids(log))
  }

  ghost predicate DescribesRun(v: VState, log: seq<Rec>) {
    && v.run == RunFor(|Tail(log)|)
    && v.request == Nth(Tail(log), 0) && v.cancel == Nth(Tail(log), 1) && v.kill == Nth(Tail(log), 2)
    && ((v.startupSeen || v.activeSeen) <==> !OnlyDegraded(log))
  }

  ghost predicate Describes(v: VState, log: seq<Rec>)
    requires Safe(log)
  {
    DescribesAttempts(v, log) && v.sequences == Owned(log) && DescribesRun(v, log)
  }

  /** The loop has not stopped, and not entered a state that no record can leave. */
  predicate Live(result: StepResult) {
    result.Next? && result.v.run !in {TimedOut, StartFailed}
  }

  // ---------------------------------------------------------------- what one record adds

  ghost predicate AddsStory(before: seq<Rec>, r: Rec)
    requires Safe(before) && IsStoryRec(r)
  {
    var a := AidOf(r);
    var s := Story(before, a) + [r];
    && PlaceOk(before, r) && ContextOk(r)
    && Viable(s) && (|s| > 1 ==> BoundAt(s, |s| - 1))
    && (OwnsSeq(r) ==> SeqOf(r) !in Owned(before))
    && (r.PermitGranted? ==> a !in LateAids(before))
    && (|Tail(before)| == 2 ==> BeforeCancel(s, Tail(before)[1]))
  }

  ghost predicate AddsTail(before: seq<Rec>, r: Rec)
    requires Safe(before) && IsTailRec(r)
  {
    var t := Tail(before) + [r];
    && ContextOk(r) && TailOk(t)
    && (OwnsSeq(r) ==> SeqOf(r) !in Owned(before))
    && (|t| == 2 ==> forall a | a in Named(before) :: BeforeCancel(Story(before, a), r))
    && (|t| == 3 ==>
      && (forall a | a in Named(before) :: Complete(Story(before, a)))
      && |HeldSet(before, t[1].seqNo)| == t[1].inflight)
  }

  /** What appending r to a safe log must satisfy for the longer log to be safe. */
  ghost predicate Adds(before: seq<Rec>, r: Rec)
    requires Safe(before)
  {
    if IsStoryRec(r) then AddsStory(before, r)
    else if IsTailRec(r) then AddsTail(before, r)
    else PlaceOk(before, r) && ContextOk(r)
  }

  lemma PlacesSnoc(before: seq<Rec>, r: Rec)
    ensures PlacesOk(before + [r]) <==> PlacesOk(before) && PlaceOk(before, r) && ContextOk(r)
  {
    var log := before + [r];
    assert log[..|before|] == before && log[|before|] == r;
    forall i: nat | i < |before| ensures PlacedAt(log, i) <==> PlacedAt(before, i) {
      assert log[..i] == before[..i] && log[i] == before[i];
    }
    if PlacesOk(log) {
      assert PlacedAt(log, |before|);
      assert forall i: nat | i < |before| :: PlacedAt(log, i);
    }
  }

  lemma SeqsSnoc(before: seq<Rec>, r: Rec)
    ensures SeqsDistinct(before + [r]) <==>
            SeqsDistinct(before) && (OwnsSeq(r) ==> SeqOf(r) !in Owned(before))
  {
    var log := before + [r];
    assert forall i | 0 <= i < |before| :: log[i] == before[i];
    assert log[|before|] == r;
    if SeqsDistinct(log) {
      assert SeqsDistinct(before) by {
        forall i, j | 0 <= i < j < |before| && OwnsSeq(before[i]) && OwnsSeq(before[j])
          ensures SeqOf(before[i]) != SeqOf(before[j])
        {
          assert OwnsSeq(log[i]) && OwnsSeq(log[j]);
        }
      }
      forall i | 0 <= i < |before| && OwnsSeq(before[i]) && OwnsSeq(r)
        ensures SeqOf(before[i]) != SeqOf(r)
      {
        assert OwnsSeq(log[i]) && OwnsSeq(log[|before|]);
      }
    }
    if SeqsDistinct(before) && (OwnsSeq(r) ==> SeqOf(r) !in Owned(before)) {
      forall i, j | 0 <= i < j < |log| && OwnsSeq(log[i]) && OwnsSeq(log[j])
        ensures SeqOf(log[i]) != SeqOf(log[j])
      {
        assert OwnsSeq(before[i]) && SeqOf(before[i]) in Owned(before);
      }
    }
  }

  lemma ViablePrefix(s: seq<Rec>, r: Rec)
    requires Viable(s + [r])
    ensures Viable(s)
    ensures |s| > 0 ==> (Bound(s + [r]) <==> Bound(s) && BoundAt(s + [r], |s|))
    ensures |s| > 0 ==> (HasPermit(s + [r]) <==> HasPermit(s) || r.PermitGranted?)
  {
    if |s| > 0 {
      var s' := s + [r];
      assert forall i | 0 <= i < |s| :: s'[i] == s[i];
      assert Viable(s) by { ViableInit(s, r); }
      forall i: nat | 0 < i < |s| ensures BoundAt(s', i) <==> BoundAt(s, i) {
        BoundAtInit(s, r, i);
      }
    }
  }

  lemma ViableInit(s: seq<Rec>, r: Rec)
    requires |s| > 0 && Viable(s + [r])
    ensures Viable(s)
  {
    var s' := s + [r];
    assert forall i | 0 <= i < |s| :: s'[i] == s[i];
  }

  lemma BoundAtInit(s: seq<Rec>, r: Rec, i: nat)
    requires Viable(s) && Viable(s + [r]) && 0 < i < |s|
    ensures BoundAt(s + [r], i) <==> BoundAt(s, i)
  {
    var s' := s + [r];
    assert s'[i] == s[i] && s'[0] == s[0] && s'[1] == s[1];
    assert |s| > 3 ==> s'[3] == s[3];
  }

  lemma OtherStories(before: seq<Rec>, r: Rec, a: string)
    requires !Tells(r, a)
    ensures Story(before + [r], a) == Story(before, a)
    ensures a in Named(before + [r]) <==> a in Named(before)
  {
    StorySnoc(before, r, a);
    NamedSnoc(before, r);
  }

  lemma StoriesSnoc(before: seq<Rec>, r: Rec)
    requires IsStoryRec(r)
    ensures var s := Story(before, AidOf(r)) + [r];
            StoriesOk(before + [r]) <==>
            StoriesOk(before) && Viable(s) && (|s| > 1 ==> BoundAt(s, |s| - 1))
  {
    var log := before + [r];
    var a := AidOf(r);
    var s := Story(before, a);
    NamedSnoc(before, r);
    StorySnoc(before, r, a);
    NamedIffStory(before, a);
    forall b | b != a ensures Story(log, b) == Story(before, b) && (b in Named(log) <==> b in Named(before)) {
      OtherStories(before, r, b);
    }
    if Viable(s + [r]) {
      ViablePrefix(s, r);
    }
    if StoriesOk(log) {
      forall b | b in Named(before) ensures Viable(Story(before, b)) && Bound(Story(before, b)) {
        assert b in Named(log) && Viable(Story(log, b)) && Bound(Story(log, b));
      }
    }
  }

  /** The permit of the record's own story, if any, is old or the record itself. */
  lemma OwnPermit(before: seq<Rec>, r: Rec)
    requires IsStoryRec(r) && Viable(Story(before, AidOf(r)) + [r])
    ensures var s := Story(before, AidOf(r));
            && Story(before + [r], AidOf(r)) == s + [r]
            && (HasPermit(s + [r]) <==> HasPermit(s) || r.PermitGranted?)
            && (r.AuthCommitted? ==> s == [])
  {
    var s := Story(before, AidOf(r));
    StorySnoc(before, r, AidOf(r));
    ViablePrefix(s, r);
    ViableSuffixes(s, r);
  }

  lemma LatePermitSnoc(before: seq<Rec>, r: Rec)
    requires IsStoryRec(r) && Viable(Story(before, AidOf(r)) + [r])
    ensures NoLatePermit(before + [r]) <==>
            NoLatePermit(before) && (r.PermitGranted? ==> AidOf(r) !in LateAids(before))
  {
    var log, a := before + [r], AidOf(r);
    LateSnoc(before, r);
    LateAreNamed(before);
    NamedIffStory(before, a);
    OwnPermit(before, r);
    forall b | b != a ensures Story(log, b) == Story(before, b) {
      OtherStories(before, r, b);
    }
    forall b | b in LateAids(before)
      ensures HasPermit(Story(log, b)) <==> HasPermit(Story(before, b)) || (b == a && r.PermitGranted?)
    {
    }
  }

  lemma CancelBoundsSnoc(before: seq<Rec>, r: Rec)
    requires IsStoryRec(r) && TailOk(Tail(before)) && TailOk(Tail(before + [r]))
    requires StoriesOk(before) && StoriesOk(before + [r]) && |Tail(before)| <= 2
    ensures CancelBounds(before + [r]) <==>
            CancelBounds(before) &&
            (|Tail(before)| == 2 ==> BeforeCancel(Story(before + [r], AidOf(r)), Tail(before)[1]))
  {
    var log := before + [r];
    var a := AidOf(r);
    TailSnoc(before, r);
    NamedSnoc(before, r);
    StorySnoc(before, r, a);
    assert Viable(Story(before, a) + [r]);
    ViablePrefix(Story(before, a), r);
    forall b | b != a ensures Story(log, b) == Story(before, b) {
      OtherStories(before, r, b);
    }
    if CancelBounds(log) && |Tail(before)| == 2 {
      forall b | b in Named(before) ensures BeforeCancel(Story(before, b), Tail(before)[1]) {
        assert BeforeCancel(Story(log, b), Tail(log)[1]);
      }
    }
  }

  lemma SafeStoryBack(before: seq<Rec>, r: Rec)
    requires IsStoryRec(r) && Safe(before + [r])
    ensures Safe(before) && AddsStory(before, r)
  {
    TailSnoc(before, r);
    PlacesSnoc(before, r);
    SeqsSnoc(before, r);
    StoriesSnoc(before, r);
    StorySnoc(before, r, AidOf(r));
    assert Viable(Story(before, AidOf(r)) + [r]);
    LatePermitSnoc(before, r);
    CancelBoundsSnoc(before, r);
  }

  lemma SafeStoryOn(before: seq<Rec>, r: Rec)
    requires IsStoryRec(r) && Safe(before) && AddsStory(before, r)
    ensures Safe(before + [r])
  {
    TailSnoc(before, r);
    PlacesSnoc(before, r);
    SeqsSnoc(before, r);
    StoriesSnoc(before, r);
    StorySnoc(before, r, AidOf(r));
    LatePermitSnoc(before, r);
    CancelBoundsSnoc(before, r);
  }

  lemma SameStories(before: seq<Rec>, r: Rec)
    requires !IsStoryRec(r)
    ensures Named(before + [r]) == Named(before) && LateAids(before + [r]) == LateAids(before)
    ensures forall a :: Story(before + [r], a) == Story(before, a)
    ensures StoriesOk(before + [r]) <==> StoriesOk(before)
    ensures NoLatePermit(before + [r]) <==> NoLatePermit(before)
    ensures forall c :: HeldSet(before + [r], c) == HeldSet(before, c)
  {
    var log := before + [r];
    NamedSnoc(before, r);
    LateSnoc(before, r);
    forall a ensures Story(log, a) == Story(before, a) {
      StorySnoc(before, r, a);
    }
  }

  lemma TailOkInit(t: seq<Rec>, r: Rec)
    requires TailOk(t + [r])
    ensures TailOk(t)
  {
    assert forall i | 0 <= i < |t| :: (t + [r])[i] == t[i];
  }

  lemma SafeTailBack(before: seq<Rec>, r: Rec)
    requires IsTailRec(r) && !IsStoryRec(r) && Safe(before + [r])
    ensures Safe(before) && AddsTail(before, r)
  {
    SameStories(before, r);
    TailSnoc(before, r);
    TailOkInit(Tail(before), r);
    PlacesSnoc(before, r);
    SeqsSnoc(before, r);
  }

  lemma SafeTailOn(before: seq<Rec>, r: Rec)
    requires IsTailRec(r) && Safe(before) && AddsTail(before, r)
    ensures Safe(before + [r])
  {
    TailSnoc(before, r);
    PlacesSnoc(before, r);
    SeqsSnoc(before, r);
    SameStories(before, r);
  }

  lemma SafeOther(before: seq<Rec>, r: Rec)
    requires !IsTailRec(r) && !IsStoryRec(r)
    ensures Safe(before + [r]) <==> Safe(before) && PlaceOk(before, r) && ContextOk(r)
  {
    TailSnoc(before, r);
    PlacesSnoc(before, r);
    SeqsSnoc(before, r);
    SameStories(before, r);
  }

  /** Safety of a longer log is safety of the shorter one plus what the new record adds. */
  lemma SafeSnoc(before: seq<Rec>, r: Rec)
    ensures Safe(before + [r]) <==> Safe(before) && Adds(before, r)
  {
    if IsStoryRec(r) {
      if Safe(before + [r]) {
        SafeStoryBack(before, r);
      } else if Safe(before) && AddsStory(before, r) {
        SafeStoryOn(before, r);
      }
    } else if IsTailRec(r) {
      if Safe(before + [r]) {
        SafeTailBack(before, r);
      } else if Safe(before) && AddsTail(before, r) {
        SafeTailOn(before, r);
      }
    } else {
      SafeOther(before, r);
    }
  }

  // ---------------------------------------------------------------- one record of one story

  lemma LocalPermit(s: seq<Rec>, late: bool, r: Rec)
    requires s != [] && Viable(s) && r.PermitGranted?
    ensures Viable(s + [r]) <==> AttemptFor(s, late).state == Authorized
    ensures Viable(s + [r]) ==>
              && (BoundAt(s + [r], |s|) <==> PermitBinds(s[0], r) && s[0].seqNo < r.seqNo)
              && AttemptFor(s + [r], late) == AttemptFor(s, late).(state := Permitted, permit := Some(r))
  {
    ViableSuffixes(s, r);
  }

  lemma LocalAttempted(s: seq<Rec>, late: bool, r: Rec)
    requires s != [] && Viable(s) && r.EffectAttempted?
    ensures Viable(s + [r]) <==> AttemptFor(s, late).state == Permitted
    ensures Viable(s + [r]) ==>
              && (BoundAt(s + [r], |s|) <==> AttemptBinds(s[0], s[1], r))
              && AttemptFor(s, late).permit == Some(s[1])
              && AttemptFor(s + [r], late) == AttemptFor(s, late).(state := Attempted, attempted := Some(r))
  {
    ViableSuffixes(s, r);
  }

  lemma LocalTerminal(s: seq<Rec>, late: bool, r: Rec)
    requires s != [] && Viable(s) && IsTerminal(r)
    ensures Viable(s + [r]) <==> LegalOutcome(AttemptFor(s, late).state, r)
    ensures Viable(s + [r]) ==>
              && (BoundAt(s + [r], |s|) <==> TerminalBinds(s[0], AttemptFor(s, late).permit, r))
              && AttemptFor(s + [r], late) == AttemptFor(s, late).(state := Settled, terminal := Some(r))
  {
    ViableSuffixes(s, r);
  }

  lemma LocalAllow(s: seq<Rec>, late: bool, r: Rec)
    requires s != [] && Viable(s) && r.Allow?
    ensures var t := AttemptFor(s, late);
            Viable(s + [r]) <==>
            t.attempted.Some? && t.terminal.Some? && t.terminal.value.EffectCompleted? && t.allow.None?
    ensures AttemptFor(s, late).terminal.Some? && AttemptFor(s, late).terminal.value.EffectCompleted?
            ==> AttemptFor(s, late).attempted.Some?
    ensures Viable(s + [r]) ==>
              && |s| == 4 && AttemptFor(s, late).terminal == Some(s[3])
              && (BoundAt(s + [r], |s|) <==> AllowBinds(s[0], s[3], r))
              && AttemptFor(s + [r], late) == AttemptFor(s, late).(allow := Some(r))
  {
    ViableSuffixes(s, r);
  }

  lemma LocalRelease(s: seq<Rec>, late: bool, r: Rec)
    requires s != [] && Viable(s) && r.PermitReleased?
    ensures var t := AttemptFor(s, late);
            Viable(s + [r]) <==>
            t.permit.Some? && !t.Incomplete() && !t.MissingAllow() && t.release.None?
    ensures Viable(s + [r]) ==>
              && AttemptFor(s, late).permit == Some(s[1])
              && (BoundAt(s + [r], |s|) <==> ReleaseBinds(s[1], r) && s[1].seqNo < r.seqNo)
              && AttemptFor(s + [r], late) == AttemptFor(s, late).(release := Some(r))
  {
    ViableSuffixes(s, r);
  }

  lemma LocalTorn(s: seq<Rec>, late: bool, r: Rec)
    requires s != [] && Viable(s) && r.ConnectionTerminated?
    ensures var t := AttemptFor(s, late);
            Viable(s + [r]) <==>
            t.attempted.Some? && t.terminal.Some? && t.terminal.value.EffectUnknown? && t.torn.None?
    ensures Viable(s + [r]) ==>
              && |s| > 3 && AttemptFor(s, late).terminal == Some(s[3])
              && (BoundAt(s + [r], |s|) <==> TornBinds(s[0], s[3], r))
              && AttemptFor(s + [r], late) == AttemptFor(s, late).(torn := Some(r))
  {
    ViableSuffixes(s, r);
  }

  lemma ViableSuffixes(s: seq<Rec>, r: Rec)
    ensures forall i | 0 <= i < |s| :: (s + [r])[i] == s[i]
    ensures (s + [r])[|s|] == r
  {
  }

  lemma CompleteAttempt(s: seq<Rec>, late: bool)
    requires s != [] && Viable(s)
    ensures var t := AttemptFor(s, late);
            Complete(s) <==> !t.Incomplete() && !t.MissingAllow() && !t.MissingRelease()
  {
  }

  // ---------------------------------------------------------------- one iteration of the loop

  /** The loop variables stand for the log read so far, and the next record has a valid schema. */
  ghost predicate Ready(v: VState, before: seq<Rec>, r: Rec) {
    v.Wf() && Safe(before) && Describes(v, before) && SchemaOk(r)
  }

  ghost predicate StepAgrees(v: VState, before: seq<Rec>, r: Rec)
    requires Ready(v, before, r)
  {
    && (Live(Step(v, r)) <==> Adds(before, r))
    && (Live(Step(v, r)) ==> Safe(before + [r]) && Describes(Step(v, r).v, before + [r]))
  }

  lemma OpenIffEarly(v: VState, before: seq<Rec>)
    requires Safe(before) && Describes(v, before)
    ensures v.Open() <==> |Tail(before)| <= 2
    ensures v.run == Running <==> Tail(before) == []
    ensures v.run !in {TimedOut, StartFailed}
  {
  }

  lemma DescribeExtended(v: VState, w: VState, before: seq<Rec>, r: Rec)
    requires IsStoryRec(r) && StoriesOk(before) && StoriesOk(before + [r]) && DescribesAttempts(v, before)
    requires Viable(Story(before, AidOf(r)) + [r])
    requires w.attempts == v.attempts[AidOf(r) := AttemptFor(Story(before, AidOf(r)) + [r],
                                                             AidOf(r) in LateAids(before + [r]))]
    ensures DescribesAttempts(w, before + [r])
  {
    var log := before + [r];
    var a := AidOf(r);
    StorySnoc(before, r, a);
    NamedSnoc(before, r);
    LateSnoc(before, r);
    forall b | b in Named(log)
      ensures Story(log, b) != [] && w.attempts[b] == AttemptFor(Story(log, b), b in LateAids(log))
    {
      if b != a {
        OtherStories(before, r, b);
        assert b in LateAids(log) <==> b in LateAids(before);
      }
    }
  }

  /** An attempt record that extends the story of one attempt leaves the other stories alone. */
  lemma DescribeStory(v: VState, w: VState, before: seq<Rec>, r: Rec)
    requires v.Wf() && Safe(before) && Describes(v, before) && IsStoryRec(r) && AddsStory(before, r)
    requires var a := AidOf(r);
             var late := if r.AuthCommitted? then Tail(before) != [] else a in LateAids(before);
             && w.attempts == v.attempts[a := AttemptFor(Story(before, a) + [r], late)]
             && w.sequences == (if OwnsSeq(r) then v.sequences + {SeqOf(r)} else v.sequences)
             && w == v.(attempts := w.attempts, order := w.order, sequences := w.sequences, activeSeen := true)
    ensures Safe(before + [r]) && Describes(w, before + [r])
  {
    var log := before + [r];
    var a := AidOf(r);
    var s := Story(before, a);
    SafeStoryOn(before, r);
    LateSnoc(before, r);
    LateAreNamed(before);
    NamedIffStory(before, a);
    ViableSuffixes(s, r);
    assert r.AuthCommitted? ==> s == [] by { if r.AuthCommitted? { ViableFresh(s, r); } }
    DescribeExtended(v, w, before, r);
    OwnedSnoc(before, r);
    DescribeQuietRun(v, w, before, r);
  }

  /** Story records and denials do not move the run, but end the startup phase. */
  lemma DescribeQuietRun(v: VState, w: VState, before: seq<Rec>, r: Rec)
    requires DescribesRun(v, before) && !IsTailRec(r) && !IsStartupRec(r) && w.activeSeen
    requires w.run == v.run && w.request == v.request && w.cancel == v.cancel && w.kill == v.kill
    ensures DescribesRun(w, before + [r])
  {
    TailSnoc(before, r);
    assert (before + [r])[|before|] == r;
  }

  /** The dictionary entry of the record's attempt, if any, is the one its story s amounts to. */
  ghost predicate EntryIs(v: VState, s: seq<Rec>, late: bool, r: Rec)
  {
    && v.Wf() && SchemaOk(r) && IsStoryRec(r)
    && v.run !in {TimedOut, StartFailed} && (v.cancel.Some? ==> v.run != Running)
    && Viable(s)
    && (v.cancel.Some? ==> BeforeCancel(s, v.cancel.value))
    && (AidOf(r) in v.attempts <==> s != [])
    && (s != [] ==> v.attempts[AidOf(r)] == AttemptFor(s, late))
  }

  /** `Adds`, said with the loop variables. */
  ghost predicate Admits(v: VState, s: seq<Rec>, late: bool, r: Rec)
    requires EntryIs(v, s, late, r)
  {
    && v.Open() && (r.EffectAttempted? ==> v.run == Running) && ContextOk(r)
    && Viable(s + [r]) && (s != [] ==> BoundAt(s + [r], |s|))
    && (OwnsSeq(r) ==> SeqOf(r) !in v.sequences)
    && (r.PermitGranted? ==> !late)
    && (v.cancel.Some? ==> BeforeCancel(s + [r], v.cancel.value))
  }

  /** What one story record does to the loop variables. */
  ghost predicate Extends(v: VState, w: VState, s: seq<Rec>, late: bool, r: Rec)
    requires EntryIs(v, s, late, r) && Viable(s + [r])
  {
    && w.attempts == v.attempts[AidOf(r) := AttemptFor(s + [r], if r.AuthCommitted? then v.run != Running else late)]
    && w.sequences == (if OwnsSeq(r) then v.sequences + {SeqOf(r)} else v.sequences)
    && w == v.(attempts := w.attempts, order := w.order, sequences := w.sequences, activeSeen := true)
  }

  ghost predicate StoryStepOk(v: VState, s: seq<Rec>, late: bool, r: Rec)
    requires EntryIs(v, s, late, r)
  {
    && (Live(Step(v, r)) <==> Admits(v, s, late, r))
    && (Live(Step(v, r)) ==> Extends(v, Step(v, r).v, s, late, r))
  }

  lemma ViableFresh(s: seq<Rec>, r: Rec)
    requires r.AuthCommitted?
    ensures Viable(s + [r]) <==> s == []
  {
    ViableSuffixes(s, r);
  }

  lemma BeforeCancelKept(s: seq<Rec>, r: Rec, cancel: Option<Rec>)
    requires s != [] && Viable(s) && !r.PermitGranted? && (cancel.Some? ==> cancel.value.CancelLinearized?)
    ensures Viable(s + [r]) && cancel.Some? ==>
              (BeforeCancel(s + [r], cancel.value) <==> BeforeCancel(s, cancel.value))
  {
    ViableSuffixes(s, r);
  }

  lemma StepAuthOk(v: VState, s: seq<Rec>, late: bool, r: Rec)
    requires EntryIs(v, s, late, r) && r.AuthCommitted?
    ensures StoryStepOk(v, s, late, r)
  {
    ViableFresh(s, r);
    assert s == [] ==> s + [r] == [r];
  }

  lemma StepPermitShape(v: VState, r: Rec)
    requires v.Wf() && SchemaOk(r) && r.PermitGranted? && v.run !in {TimedOut, StartFailed}
    ensures var a := r.aid;
            if && v.Open() && a in v.attempts && v.attempts[a].state == Authorized && !v.attempts[a].late
               && PermitBinds(v.attempts[a].auth, r) && v.attempts[a].auth.seqNo < r.seqNo && r.seqNo !in v.sequences
               && (v.cancel.Some? ==> r.seqNo < v.cancel.value.seqNo && r.epoch == v.cancel.value.cancelledEpoch)
            then Step(v, r) == Next(v.(activeSeen := true, sequences := v.sequences + {r.seqNo},
                   attempts := v.attempts[a := v.attempts[a].(state := Permitted, permit := Some(r))]))
            else Step(v, r).Stop?
  {
  }

  lemma AdmitsPermit(v: VState, s: seq<Rec>, late: bool, r: Rec)
    requires EntryIs(v, s, late, r) && r.PermitGranted?
    ensures Admits(v, s, late, r) <==>
            && v.Open() && s != [] && AttemptFor(s, late).state == Authorized && !late
            && PermitBinds(s[0], r) && s[0].seqNo < r.seqNo && r.seqNo !in v.sequences
            && (v.cancel.Some? ==> r.seqNo < v.cancel.value.seqNo && r.epoch == v.cancel.value.cancelledEpoch)
  {
    if s != [] {
      LocalPermit(s, late, r);
      ViableSuffixes(s, r);
    }
  }

  lemma StepPermitOk(v: VState, s: seq<Rec>, late: bool, r: Rec)
    requires EntryIs(v, s, late, r) && r.PermitGranted?
    ensures StoryStepOk(v, s, late, r)
  {
    StepPermitShape(v, r);
    AdmitsPermit(v, s, late, r);
    if Live(Step(v, r)) {
      LocalPermit(s, late, r);
    }
  }

  lemma StepAttemptedShape(v: VState, r: Rec)
    requires v.Wf() && SchemaOk(r) && r.EffectAttempted? && v.run !in {TimedOut, StartFailed}
    ensures var a := r.aid;
            if && v.run == Running && a in v.attempts && v.attempts[a].state == Permitted
               && AttemptBinds(v.attempts[a].auth, v.attempts[a].permit.value, r)
            then Step(v, r) == Next(v.(activeSeen := true,
                   attempts := v.attempts[a := v.attempts[a].(state := Attempted, attempted := Some(r))]))
            else Step(v, r).Stop?
  {
  }

  lemma AdmitsAttempted(v: VState, s: seq<Rec>, late: bool, r: Rec)
    requires EntryIs(v, s, late, r) && r.EffectAttempted? && (v.run == Running ==> v.kill.None?)
    ensures Admits(v, s, late, r) <==>
            v.run == Running && s != [] && AttemptFor(s, late).state == Permitted && AttemptBinds(s[0], s[1], r)
  {
    if s != [] {
      LocalAttempted(s, late, r);
      BeforeCancelKept(s, r, v.cancel);
    }
  }

  lemma StepAttemptedOk(v: VState, s: seq<Rec>, late: bool, r: Rec)
    requires EntryIs(v, s, late, r) && r.EffectAttempted?
    requires v.run == Running ==> v.kill.None?
    ensures StoryStepOk(v, s, late, r)
  {
    StepAttemptedShape(v, r);
    AdmitsAttempted(v, s, late, r);
    if s != [] && AttemptFor(s, late).state == Permitted {
      LocalAttempted(s, late, r);
    }
  }

  lemma StepTerminalShape(v: VState, r: Rec)
    requires v.Wf() && SchemaOk(r) && IsTerminal(r) && v.run !in {TimedOut, StartFailed}
    ensures var a := AidOf(r);
            if v.Open() && a in v.attempts && LegalOutcome(v.attempts[a].state, r)
               && TerminalBinds(v.attempts[a].auth, v.attempts[a].permit, r)
            then Step(v, r) == Next(v.(activeSeen := true,
                   attempts := v.attempts[a := v.attempts[a].(state := Settled, terminal := Some(r))]))
            else Step(v, r).Stop?
  {
  }

  lemma AdmitsTerminal(v: VState, s: seq<Rec>, late: bool, r: Rec)
    requires EntryIs(v, s, late, r) && IsTerminal(r)
    ensures Admits(v, s, late, r) <==>
            && v.Open() && s != []
            && LegalOutcome(AttemptFor(s, late).state, r)
            && TerminalBinds(s[0], AttemptFor(s, late).permit, r)
  {
    if s != [] {
      LocalTerminal(s, late, r);
      BeforeCancelKept(s, r, v.cancel);
    }
  }

  lemma StepTerminalOk(v: VState, s: seq<Rec>, late: bool, r: Rec)
    requires EntryIs(v, s, late, r) && IsTerminal(r)
    ensures StoryStepOk(v, s, late, r)
  {
    StepTerminalShape(v, r);
    AdmitsTerminal(v, s, late, r);
    if Live(Step(v, r)) {
      LocalTerminal(s, late, r);
    }
  }

  lemma StepAllowShape(v: VState, r: Rec)
    requires v.Wf() && SchemaOk(r) && r.Allow? && v.run !in {TimedOut, StartFailed}
    ensures var a := r.aid;
            if && v.Open() && a in v.attempts && v.attempts[a].terminal.Some?
               && v.attempts[a].terminal.value.EffectCompleted? && v.attempts[a].allow.None?
               && v.attempts[a].attempted.Some? && AllowBinds(v.attempts[a].auth, v.attempts[a].terminal.value, r)
            then Step(v, r) == Next(v.(activeSeen := true, attempts := v.attempts[a := v.attempts[a].(allow := Some(r))]))
            else Step(v, r).Stop?
  {
  }

  lemma AdmitsAllow(v: VState, s: seq<Rec>, late: bool, r: Rec)
    requires EntryIs(v, s, late, r) && r.Allow?
    ensures Admits(v, s, late, r) <==>
            && v.Open() && s != [] && AttemptFor(s, late).terminal.Some?
            && AttemptFor(s, late).terminal.value.EffectCompleted? && AttemptFor(s, late).allow.None?
            && AllowBinds(s[0], AttemptFor(s, late).terminal.value, r)
  {
    if s != [] {
      LocalAllow(s, late, r);
      BeforeCancelKept(s, r, v.cancel);
    }
  }

  lemma StepAllowOk(v: VState, s: seq<Rec>, late: bool, r: Rec)
    requires EntryIs(v, s, late, r) && r.Allow?
    ensures StoryStepOk(v, s, late, r)
  {
    StepAllowShape(v, r);
    AdmitsAllow(v, s, late, r);
    if s != [] {
      LocalAllow(s, late, r);
    }
  }

  lemma StepReleaseShape(v: VState, r: Rec)
    requires v.Wf() && SchemaOk(r) && r.PermitReleased? && v.run !in {TimedOut, StartFailed}
    ensures var a := r.aid;
            if && v.Open() && a in v.attempts && v.attempts[a].permit.Some? && !v.attempts[a].Incomplete()
               && !v.attempts[a].MissingAllow() && v.attempts[a].release.None?
               && ReleaseBinds(v.attempts[a].permit.value, r) && v.attempts[a].permit.value.seqNo < r.seqNo
               && r.seqNo !in v.sequences
            then Step(v, r) == Next(v.(activeSeen := true, sequences := v.sequences + {r.seqNo},
                   attempts := v.attempts[a := v.attempts[a].(release := Some(r))]))
            else Step(v, r).Stop?
  {
  }

  lemma AdmitsRelease(v: VState, s: seq<Rec>, late: bool, r: Rec)
    requires EntryIs(v, s, late, r) && r.PermitReleased?
    ensures Admits(v, s, late, r) <==>
            && v.Open() && s != [] && AttemptFor(s, late).permit.Some? && !AttemptFor(s, late).Incomplete()
            && !AttemptFor(s, late).MissingAllow() && AttemptFor(s, late).release.None?
            && ReleaseBinds(AttemptFor(s, late).permit.value, r)
            && AttemptFor(s, late).permit.value.seqNo < r.seqNo && r.seqNo !in v.sequences
  {
    if s != [] {
      LocalRelease(s, late, r);
      BeforeCancelKept(s, r, v.cancel);
    }
  }

  lemma StepReleaseOk(v: VState, s: seq<Rec>, late: bool, r: Rec)
    requires EntryIs(v, s, late, r) && r.PermitReleased?
    ensures StoryStepOk(v, s, late, r)
  {
    StepReleaseShape(v, r);
    AdmitsRelease(v, s, late, r);
    if s != [] {
      LocalRelease(s, late, r);
    }
  }

  lemma StepTornShape(v: VState, r: Rec)
    requires v.Wf() && SchemaOk(r) && r.ConnectionTerminated? && v.run !in {TimedOut, StartFailed}
    ensures var a := r.aid;
            if && v.Open() && a in v.attempts && v.attempts[a].attempted.Some? && v.attempts[a].terminal.Some?
               && v.attempts[a].terminal.value.EffectUnknown? && v.attempts[a].torn.None?
               && TornBinds(v.attempts[a].auth, v.attempts[a].terminal.value, r)
            then Step(v, r) == Next(v.(activeSeen := true, attempts := v.attempts[a := v.attempts[a].(torn := Some(r))]))
            else Step(v, r).Stop?
  {
  }

  lemma AdmitsTorn(v: VState, s: seq<Rec>, late: bool, r: Rec)
    requires EntryIs(v, s, late, r) && r.ConnectionTerminated?
    ensures Admits(v, s, late, r) <==>
            && v.Open() && s != [] && AttemptFor(s, late).attempted.Some? && AttemptFor(s, late).terminal.Some?
            && AttemptFor(s, late).terminal.value.EffectUnknown? && AttemptFor(s, late).torn.None?
            && TornBinds(s[0], AttemptFor(s, late).terminal.value, r)
  {
    if s != [] {
      LocalTorn(s, late, r);
      BeforeCancelKept(s, r, v.cancel);
    }
  }

  lemma StepTornOk(v: VState, s: seq<Rec>, late: bool, r: Rec)
    requires EntryIs(v, s, late, r) && r.ConnectionTerminated?
    ensures StoryStepOk(v, s, late, r)
  {
    StepTornShape(v, r);
    AdmitsTorn(v, s, late, r);
    if s != [] {
      LocalTorn(s, late, r);
    }
  }

  lemma StoryStep(v: VState, s: seq<Rec>, late: bool, r: Rec)
    requires EntryIs(v, s, late, r) && (v.run == Running ==> v.kill.None?)
    ensures StoryStepOk(v, s, late, r)
  {
    if r.AuthCommitted? {
      StepAuthOk(v, s, late, r);
    } else if r.PermitGranted? {
      StepPermitOk(v, s, late, r);
    } else if r.EffectAttempted? {
      StepAttemptedOk(v, s, late, r);
    } else if r.Allow? {
      StepAllowOk(v, s, late, r);
    } else if r.PermitReleased? {
      StepReleaseOk(v, s, late, r);
    } else if r.ConnectionTerminated? {
      StepTornOk(v, s, late, r);
    } else {
      StepTerminalOk(v, s, late, r);
    }
  }

  lemma EntryOfStory(v: VState, before: seq<Rec>, r: Rec)
    requires Ready(v, before, r) && IsStoryRec(r)
    ensures EntryIs(v, Story(before, AidOf(r)), AidOf(r) in LateAids(before), r)
  {
    NamedIffStory(before, AidOf(r));
  }

  lemma AdmitsIffAdds(v: VState, before: seq<Rec>, r: Rec)
    requires Ready(v, before, r) && IsStoryRec(r)
    requires EntryIs(v, Story(before, AidOf(r)), AidOf(r) in LateAids(before), r)
    ensures Admits(v, Story(before, AidOf(r)), AidOf(r) in LateAids(before), r) <==> AddsStory(before, r)
  {
    OpenIffEarly(v, before);
  }

  lemma StoryRecIff(v: VState, before: seq<Rec>, r: Rec)
    requires Ready(v, before, r) && IsStoryRec(r)
    ensures StepAgrees(v, before, r)
  {
    var s, late := Story(before, AidOf(r)), AidOf(r) in LateAids(before);
    EntryOfStory(v, before, r);
    OpenIffEarly(v, before);
    StoryStep(v, s, late, r);
    AdmitsIffAdds(v, before, r);
    if Live(Step(v, r)) {
      DescribeStory(v, Step(v, r).v, before, r);
    }
  }

  lemma {:induction false} DegradedHasNoTail(log: seq<Rec>)
    requires OnlyDegraded(log)
    ensures Tail(log) == []
  {
    if log != [] {
      DegradedHasNoTail(log[..|log| - 1]);
    }
  }

  lemma OtherRecIff(v: VState, before: seq<Rec>, r: Rec)
    requires Ready(v, before, r) && (IsStartupRec(r) || r.Blocked?)
    ensures StepAgrees(v, before, r)
  {
    OpenIffEarly(v, before);
    if OnlyDegraded(before) {
      DegradedHasNoTail(before);
    }
    SafeOther(before, r);
    SameStories(before, r);
    OwnedSnoc(before, r);
    TailSnoc(before, r);
    assert (before + [r])[|before|] == r;
    assert forall i | 0 <= i < |before| :: (before + [r])[i] == before[i];
  }

  // ---------------------------------------------------------------- cancellation and closure

  lemma TailSteps(t: seq<Rec>, r: Rec)
    requires TailOk(t)
    ensures r.CancelRequested? ==> (TailOk(t + [r]) <==> t == [])
    ensures r.CancelLinearized? ==>
              (TailOk(t + [r]) <==> |t| == 1 && r.newEpoch == r.cancelledEpoch + 1
                                    && t[0].seqNo == r.seqNo && t[0].cancellationEpoch == r.newEpoch)
    ensures r.KillSwitch? ==>
              (TailOk(t + [r]) <==> |t| == 2 && CountsAdd(r.facts) && KillBinds(t[1], r) && DrainFactHolds(r.facts))
    ensures r.CancelAck? ==>
              (TailOk(t + [r]) <==> |t| == 3 && r.facts == t[2].facts && AckFacts(r))
    ensures r.RunClosed? ==>
              (TailOk(t + [r]) <==> |t| == 4 && ClosureFacts(t[1], r))
  {
    assert forall i | 0 <= i < |t| :: (t + [r])[i] == t[i];
    assert (t + [r])[|t|] == r;
  }

  lemma {:induction false} ComplaintIff(v: VState, order: seq<string>, r: Rec)
    requires v.Wf() && r.CancelLinearized? && forall a | a in order :: a in v.attempts
    ensures LinearizationComplaint(v, order, r).None? <==>
            forall a | a in order ::
              && v.attempts[a].auth.epoch == r.cancelledEpoch && v.attempts[a].auth.seqNo < r.seqNo
              && (v.attempts[a].permit.Some? ==> v.attempts[a].permit.value.seqNo < r.seqNo)
  {
    if order != [] {
      ComplaintIff(v, order[1..], r);
      assert forall a :: a in order <==> a == order[0] || a in order[1..];
    }
  }

  lemma StepLinearizedShape(v: VState, r: Rec)
    requires v.Wf() && SchemaOk(r) && r.CancelLinearized? && v.run !in {TimedOut, StartFailed}
    ensures Live(Step(v, r)) <==>
            && v.run == Requested && r.newEpoch == r.cancelledEpoch + 1
            && v.request.value.seqNo == r.seqNo && v.request.value.cancellationEpoch == r.newEpoch
            && r.seqNo !in v.sequences && LinearizationComplaint(v, v.order, r).None?
    ensures Live(Step(v, r)) ==>
              Step(v, r).v == v.(activeSeen := true, cancel := Some(r), run := Linearized,
                                 sequences := v.sequences + {r.seqNo})
  {
    var w := v.(activeSeen := true);
    SameComplaint(v, w, v.order, r);
  }

  lemma {:induction false} SameComplaint(v: VState, w: VState, order: seq<string>, r: Rec)
    requires v.Wf() && w.Wf() && r.CancelLinearized? && v.attempts == w.attempts
    requires forall a | a in order :: a in v.attempts
    ensures LinearizationComplaint(v, order, r) == LinearizationComplaint(w, order, r)
  {
    if order != [] {
      SameComplaint(v, w, order[1..], r);
    }
  }

  lemma BoundsIff(v: VState, before: seq<Rec>, r: Rec)
    requires v.Wf() && Safe(before) && DescribesAttempts(v, before) && r.CancelLinearized?
    ensures (forall a | a in Named(before) :: BeforeCancel(Story(before, a), r)) <==>
            LinearizationComplaint(v, v.order, r).None?
  {
    ComplaintIff(v, v.order, r);
    forall a | a in Named(before)
      ensures BeforeCancel(Story(before, a), r) <==>
              && v.attempts[a].auth.epoch == r.cancelledEpoch && v.attempts[a].auth.seqNo < r.seqNo
              && (v.attempts[a].permit.Some? ==> v.attempts[a].permit.value.seqNo < r.seqNo)
    {
      BoundsOfEntry(Story(before, a), a in LateAids(before), r);
    }
  }

  lemma LinearizedRecIff(v: VState, before: seq<Rec>, r: Rec)
    requires Ready(v, before, r) && r.CancelLinearized?
    ensures Live(Step(v, r)) <==> AddsTail(before, r)
  {
    OpenIffEarly(v, before);
    TailSteps(Tail(before), r);
    StepLinearizedShape(v, r);
    BoundsIff(v, before, r);
  }

  lemma BoundsOfEntry(s: seq<Rec>, late: bool, r: Rec)
    requires s != [] && Viable(s) && r.CancelLinearized?
    ensures var t := AttemptFor(s, late);
            BeforeCancel(s, r) <==>
            && t.auth.epoch == r.cancelledEpoch && t.auth.seqNo < r.seqNo
            && (t.permit.Some? ==> t.permit.value.seqNo < r.seqNo)
  {
  }

  /** The in-flight set the verifier counts is the one the stories tell. */
  lemma InFlightIsHeld(v: VState, log: seq<Rec>)
    requires v.Wf() && Safe(log) && Describes(v, log) && v.cancel.Some?
    requires forall a | a in v.attempts :: !v.attempts[a].MissingRelease()
    ensures InFlight(v) == HeldSet(log, v.cancel.value.seqNo)
  {
    var c := v.cancel.value.seqNo;
    forall a | a in Named(log) ensures v.attempts[a].InFlightAt(c) <==> HeldAt(Story(log, a), c) {
      HeldOfEntry(Story(log, a), a in LateAids(log), c);
    }
  }

  lemma HeldOfEntry(s: seq<Rec>, late: bool, c: int)
    requires s != [] && Viable(s) && AttemptFor(s, late).Wf() && !AttemptFor(s, late).MissingRelease()
    ensures AttemptFor(s, late).InFlightAt(c) <==> HeldAt(s, c)
  {
  }

  lemma AllCompleteIff(v: VState, before: seq<Rec>)
    requires v.Wf() && Safe(before) && DescribesAttempts(v, before)
    ensures (forall a | a in Named(before) :: Complete(Story(before, a))) <==>
            forall a | a in v.attempts ::
              !v.attempts[a].Incomplete() && !v.attempts[a].MissingAllow() && !v.attempts[a].MissingRelease()
  {
    forall a | a in Named(before)
      ensures Complete(Story(before, a)) <==>
              !v.attempts[a].Incomplete() && !v.attempts[a].MissingAllow() && !v.attempts[a].MissingRelease()
    {
      CompleteAttempt(Story(before, a), a in LateAids(before));
    }
  }

  lemma StepKillShape(v: VState, r: Rec)
    requires v.Wf() && SchemaOk(r) && r.KillSwitch? && v.run !in {TimedOut, StartFailed}
    ensures Live(Step(v, r)) <==>
            && v.run == Linearized && v.kill.None?
            && (forall a | a in v.attempts ::
                  !v.attempts[a].Incomplete() && !v.attempts[a].MissingAllow() && !v.attempts[a].MissingRelease())
            && CountsAdd(r.facts) && |InFlight(v)| == v.cancel.value.inflight
            && KillBinds(v.cancel.value, r) && DrainFactHolds(r.facts)
    ensures Live(Step(v, r)) ==> Step(v, r).v == v.(activeSeen := true, kill := Some(r))
  {
    if v.cancel.Some? && forall a | a in v.attempts :: !v.attempts[a].MissingRelease() {
      SameInFlight(v, v.(activeSeen := true));
    }
  }

  lemma SameInFlight(v: VState, w: VState)
    requires v.Wf() && w.Wf() && v.cancel.Some? && w.cancel == v.cancel && w.attempts == v.attempts
    requires forall a | a in v.attempts :: !v.attempts[a].MissingRelease()
    ensures InFlight(w) == InFlight(v)
  {
  }

  lemma KillRecIff(v: VState, before: seq<Rec>, r: Rec)
    requires Ready(v, before, r) && r.KillSwitch?
    ensures Live(Step(v, r)) <==> AddsTail(before, r)
  {
    OpenIffEarly(v, before);
    TailSteps(Tail(before), r);
    StepKillShape(v, r);
    AllCompleteIff(v, before);
    if |Tail(before)| == 2 {
      assert (Tail(before) + [r])[1] == Tail(before)[1];
      if forall a | a in v.attempts :: !v.attempts[a].MissingRelease() {
        InFlightIsHeld(v, before);
      }
    }
  }

  lemma StepCloseShape(v: VState, r: Rec)
    requires v.Wf() && SchemaOk(r) && v.run !in {TimedOut, StartFailed}
    ensures r.CancelRequested? ==>
              && (Live(Step(v, r)) <==> v.run == Running)
              && (Live(Step(v, r)) ==> Step(v, r).v == v.(activeSeen := true, request := Some(r), run := Requested))
    ensures r.CancelAck? ==>
              && (Live(Step(v, r)) <==>
                  v.run == Linearized && v.kill.Some? && CountsAdd(r.facts)
                  && r.facts == v.kill.value.facts && AckFacts(r))
              && (Live(Step(v, r)) ==> Step(v, r).v == v.(activeSeen := true, run := Acknowledged))
    ensures r.RunClosed? ==>
              && (Live(Step(v, r)) <==> v.run == Acknowledged && ClosureFacts(v.cancel.value, r))
              && (Live(Step(v, r)) ==> Step(v, r).v == v.(activeSeen := true, run := Closed))
    ensures r.DrainTimeout? ==> !Live(Step(v, r))
  {
  }

  lemma CloseRecIff(v: VState, before: seq<Rec>, r: Rec)
    requires Ready(v, before, r) && IsTailRec(r) && !r.CancelLinearized? && !r.KillSwitch?
    ensures Live(Step(v, r)) <==> AddsTail(before, r)
  {
    OpenIffEarly(v, before);
    TailSteps(Tail(before), r);
    StepCloseShape(v, r);
  }

  lemma DescribeTail(v: VState, w: VState, before: seq<Rec>, r: Rec)
    requires Safe(before) && Safe(before + [r]) && Describes(v, before) && IsTailRec(r)
    requires w.attempts == v.attempts && w.activeSeen && w.run == RunFor(|Tail(before)| + 1)
    requires w.sequences == (if OwnsSeq(r) then v.sequences + {SeqOf(r)} else v.sequences)
    requires w.request == Nth(Tail(before) + [r], 0) && w.cancel == Nth(Tail(before) + [r], 1)
    requires w.kill == Nth(Tail(before) + [r], 2)
    ensures Describes(w, before + [r])
  {
    SameStories(before, r);
    OwnedSnoc(before, r);
    TailSnoc(before, r);
    assert (before + [r])[|before|] == r;
  }

  lemma TailRecIff(v: VState, before: seq<Rec>, r: Rec)
    requires Ready(v, before, r) && IsTailRec(r)
    ensures StepAgrees(v, before, r)
  {
    if r.CancelLinearized? {
      LinearizedRecIff(v, before, r);
      StepLinearizedShape(v, r);
    } else if r.KillSwitch? {
      KillRecIff(v, before, r);
      StepKillShape(v, r);
    } else {
      CloseRecIff(v, before, r);
      StepCloseShape(v, r);
    }
    if Live(Step(v, r)) {
      SafeTailOn(before, r);
      DescribeTail(v, Step(v, r).v, before, r);
    }
  }

  // ---------------------------------------------------------------- the whole loop

  lemma StepIff(v: VState, before: seq<Rec>, r: Rec)
    requires Ready(v, before, r)
    ensures StepAgrees(v, before, r)
  {
    if IsStoryRec(r) {
      StoryRecIff(v, before, r);
    } else if IsTailRec(r) {
      TailRecIff(v, before, r);
    } else {
      OtherRecIff(v, before, r);
    }
  }

  lemma StuckStaysStuck(v: VState, r: Rec)
    requires v.Wf() && SchemaOk(r) && v.run in {TimedOut, StartFailed}
    ensures Step(v, r) == Stop(IllegalRunTransition)
  {
  }

  /** The loop gets through a log alive exactly when the log is safe, and then its variables
      mean what `Describes` says. */
  lemma {:induction false} FoldIff(log: seq<Rec>)
    requires AllSchemaOk(log)
    ensures Live(Fold(log)) <==> Safe(log)
    ensures Live(Fold(log)) ==> Describes(Fold(log).v, log)
  {
    if log == [] {
      assert Tail(log) == [] && Named(log) == {} && Owned(log) == {};
    } else {
      var n := |log| - 1;
      var before, r := log[..n], log[n];
      assert log == before + [r];
      SchemaInit(log);
      FoldIff(before);
      SafeSnoc(before, r);
      if Live(Fold(before)) {
        StepIff(Fold(before).v, before, r);
      } else if Fold(before).Next? {
        StuckStaysStuck(Fold(before).v, r);
      }
    }
  }
}
