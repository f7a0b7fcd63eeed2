/** What acceptance by the verifier means. */
module Acceptance {
  import opened Records
  import opened Verifier
  import opened History
  import opened Soundness

  ghost predicate OneRun(entries: seq<Entry>, expected: string) {
    forall i | 0 <= i < |entries| :: entries[i].runId == expected
  }

  /** The verifier accepts a log if and only if it is a legal, closed history of the expected run. */
  lemma AcceptsExactlyLegal(entries: seq<Entry>, expected: string)
    ensures Verdict(entries, expected) == LocalHistoryValid <==>
            expected != "" && OneRun(entries, expected) && LegalHistory(Recs(entries))
  {
    var log := Recs(entries);
    SchemaPass(entries, expected);
    NothingIsIllegal();
    if AllSchemaOk(log) {
      FoldVerdict(log);
    }
  }

  lemma SchemaPass(entries: seq<Entry>, expected: string)
    ensures SchemaComplaint(entries, expected).None? <==> OneRun(entries, expected) && AllSchemaOk(Recs(entries))
  {
    var log := Recs(entries);
    assert forall i: nat | i < |entries| :: SchemaAt(log, i) <==> SchemaOk(entries[i].rec);
  }

  lemma NothingIsIllegal()
    ensures !LegalHistory([])
  {
  }

  lemma FoldVerdict(log: seq<Rec>)
    requires AllSchemaOk(log)
    ensures Fold(log).Next? && Finish(Fold(log).v) == LocalHistoryValid <==> LegalHistory(log)
  {
    FoldIff(log);
    if Fold(log).Next? {
      FinishShape(Fold(log).v);
      if Safe(log) {
        OpenIffEarly(Fold(log).v, log);
        AllCompleteIff(Fold(log).v, log);
      }
    }
  }

  lemma FinishShape(v: VState)
    requires (v.run == Closed ==> v.kill.Some?) && (v.run == StartFailed ==> v.attempts == map[])
    ensures Finish(v) == LocalHistoryValid <==>
            && v.attempts != map[] && v.run == Closed
            && forall a | a in v.attempts ::
                 !v.attempts[a].Incomplete() && !v.attempts[a].MissingAllow() && !v.attempts[a].MissingRelease()
  {
  }

  // ---------------------------------------------------------------- reading a legal history

  function Letter(r: Rec): char
    requires IsStoryRec(r)
  {
    if r.AuthCommitted? then 'A' else if r.PermitGranted? then 'P' else if r.EffectAttempted? then 'X'
    else if Soft(r) then 'F' else if r.EffectCompleted? then 'C' else if r.EffectUnknown? then 'U'
    else if r.Allow? then 'Y' else if r.PermitReleased? then 'R' else 'Z'
  }

  function Letters(s: seq<Rec>): string
    requires forall i | 0 <= i < |s| :: IsStoryRec(s[i])
  {
    seq(|s|, i requires 0 <= i < |s| => Letter(s[i]))
  }

  /** The seven complete stories: A authorized, P permitted, X attempted, F failed or cancelled,
      C completed, U unknown, Y allowed, R released, Z connection terminated. */
  predicate IsWord(w: string) {
    || w == "AF" || w == "APFR" || w == "APXFR" || w == "APXCYR" || w == "APXUR"
    || w == "APXUZR" || w == "APXURZ"
  }

  lemma LettersAt(s: seq<Rec>)
    requires forall i | 0 <= i < |s| :: IsStoryRec(s[i])
    ensures |Letters(s)| == |s| && forall i | 0 <= i < |s| :: Letters(s)[i] == Letter(s[i])
  {
  }

  lemma CompleteIsWord(s: seq<Rec>)
    requires (forall i | 0 <= i < |s| :: IsStoryRec(s[i])) && s != [] && Complete(s)
    ensures IsWord(Letters(s))
  {
    LettersAt(s);
    var w := Letters(s);
    if |s| == 2 {
      assert w == "AF";
    } else if |s| == 4 {
      assert w == "APFR";
    } else if |s| == 5 {
      assert w == if Soft(s[3]) then "APXFR" else "APXUR";
    } else {
      assert w == if s[3].EffectCompleted? then "APXCYR"
                  else if s[4].ConnectionTerminated? then "APXUZR" else "APXURZ";
    }
  }

  lemma WordIsComplete(s: seq<Rec>)
    requires (forall i | 0 <= i < |s| :: IsStoryRec(s[i])) && IsWord(Letters(s))
    ensures s != [] && Complete(s)
  {
    LettersAt(s);
    var w := Letters(s);
    assert w[0] == 'A' && Letter(s[0]) == 'A' && Letter(s[1]) == w[1];
    if |w| == 4 {
      assert Letter(s[2]) == 'F' && Letter(s[3]) == 'R';
    } else if |w| == 5 {
      assert Letter(s[2]) == 'X' && Letter(s[3]) == w[3] && Letter(s[4]) == 'R';
    } else if |w| == 6 {
      assert Letter(s[2]) == 'X' && Letter(s[3]) == w[3] && Letter(s[4]) == w[4] && Letter(s[5]) == w[5];
    }
  }

  /** The complete stories are exactly the seven words of the attempt grammar. */
  lemma CompleteIffWord(s: seq<Rec>)
    requires forall i | 0 <= i < |s| :: IsStoryRec(s[i])
    ensures s != [] && Complete(s) <==> IsWord(Letters(s))
  {
    if s != [] && Complete(s) {
      CompleteIsWord(s);
    }
    if IsWord(Letters(s)) {
      WordIsComplete(s);
    }
  }

  lemma {:induction false} TailMonotone(log: seq<Rec>, i: nat)
    requires i <= |log|
    ensures |Tail(log[..i])| <= |Tail(log)|
    ensures Tail(log[..i]) == Tail(log)[..|Tail(log[..i])|]
  {
    if i < |log| {
      var n := |log| - 1;
      assert log[..n][..i] == log[..i];
      TailMonotone(log[..n], i);
    } else {
      assert log[..i] == log;
    }
  }

  /** Where the k-th record of the tail stands in the log. */
  lemma {:induction false} TailPosition(log: seq<Rec>, k: nat) returns (i: nat)
    requires k < |Tail(log)|
    ensures i < |log| && log[i] == Tail(log)[k] && |Tail(log[..i])| == k && IsTailRec(log[i])
  {
    var n := |log| - 1;
    if IsTailRec(log[n]) && k == |Tail(log[..n])| {
      i := n;
    } else {
      i := TailPosition(log[..n], k);
      assert log[..n][..i] == log[..i];
    }
  }

  lemma TailGrows(log: seq<Rec>, i: nat)
    requires i < |log|
    ensures |Tail(log[..i + 1])| == |Tail(log[..i])| + if IsTailRec(log[i]) then 1 else 0
  {
    assert log[..i + 1] == log[..i] + [log[i]];
    TailSnoc(log[..i], log[i]);
  }

  /** Nothing but closure records follows KILL_SWITCH. */
  lemma OnlyTailAfterKill(log: seq<Rec>, i: nat)
    requires AllSchemaOk(log) && PlacesOk(log) && i < |log| && |Tail(log[..i])| >= 3
    ensures IsTailRec(log[i])
  {
    assert PlacedAt(log, i) && SchemaAt(log, i);
    if OnlyDegraded(log[..i]) {
      DegradedHasNoTail(log[..i]);
    }
  }

  /** The k-th tail record is the one with k tail records before it. */
  lemma TailAt(log: seq<Rec>, i: nat)
    requires i < |log| && IsTailRec(log[i])
    ensures |Tail(log[..i])| < |Tail(log)| && log[i] == Tail(log)[|Tail(log[..i])|]
  {
    assert log[..i + 1] == log[..i] + [log[i]];
    TailSnoc(log[..i], log[i]);
    TailMonotone(log, i + 1);
  }

  lemma Ordered(log: seq<Rec>, i: nat, j: nat)
    requires i < j < |log|
    ensures |Tail(log[..i])| <= |Tail(log[..j])|
    ensures IsTailRec(log[i]) ==> |Tail(log[..i])| < |Tail(log[..j])|
  {
    assert log[..j][..i + 1] == log[..i + 1] && log[..j][..i] == log[..i];
    TailMonotone(log[..j], i + 1);
    TailMonotone(log[..j], i);
    TailGrows(log, i);
  }

  /** A closed log: schema, placement and a whole tail. */
  ghost predicate ClosedLog(log: seq<Rec>) {
    AllSchemaOk(log) && PlacesOk(log) && TailOk(Tail(log)) && |Tail(log)| == 5
  }

  lemma ClosureIsLast(log: seq<Rec>, k: nat)
    requires ClosedLog(log) && k < |log| && |Tail(log[..k])| == 2 && IsTailRec(log[k])
    ensures k == |log| - 3
    ensures IsTailRec(log[k + 1]) && |Tail(log[..k + 1])| == 3
    ensures IsTailRec(log[k + 2]) && |Tail(log[..k + 2])| == 4
  {
    assert log[..|log|] == log;
    TailGrows(log, k);
    OnlyTailAfterKill(log, k + 1);
    TailGrows(log, k + 1);
    OnlyTailAfterKill(log, k + 2);
    TailGrows(log, k + 2);
    if k + 3 < |log| {
      OnlyTailAfterKill(log, k + 3);
      TailAt(log, k + 3);
    }
  }

  /** The request stands at q, the linearization at l, and KILL_SWITCH, ACK and RUN_CLOSED are the
      last three records; there is no other closure record, no attempt record after KILL_SWITCH and
      no effect attempt after the request. */
  ghost predicate Shaped(log: seq<Rec>, q: nat, l: nat) {
    && q < l < |log| - 3
    && log[q].CancelRequested? && log[l].CancelLinearized?
    && log[|log| - 3].KillSwitch? && log[|log| - 2].CancelAck? && log[|log| - 1].RunClosed?
    && (forall i | 0 <= i < |log| && IsTailRec(log[i]) :: i == q || i == l || i >= |log| - 3)
    && (forall i | 0 <= i < |log| && IsStoryRec(log[i]) :: i < |log| - 3)
    && (forall i | 0 <= i < |log| && log[i].EffectAttempted? :: i < q)
  }

  lemma ShapeAt(log: seq<Rec>, q: nat, l: nat, i: nat)
    requires q < |log| && l < |log| && i < |log| && |log| >= 3 && PlaceOk(log[..i], log[i])
    requires IsTailRec(log[q]) && |Tail(log[..q])| == 0
    requires IsTailRec(log[l]) && |Tail(log[..l])| == 1
    requires IsTailRec(log[|log| - 3]) && |Tail(log[..|log| - 3])| == 2
    ensures IsTailRec(log[i]) ==> i == q || i == l || i >= |log| - 3
    ensures IsStoryRec(log[i]) ==> i < |log| - 3
    ensures log[i].EffectAttempted? ==> i < q
  {
    var k := |log| - 3;
    if i < q { Ordered(log, i, q); } else if i > q { Ordered(log, q, i); }
    if i < l { Ordered(log, i, l); } else if i > l { Ordered(log, l, i); }
    if i < k { Ordered(log, i, k); } else if i > k { Ordered(log, k, i); }
  }

  /** Where the five closure records of a closed log stand. */
  ghost predicate TailStands(log: seq<Rec>, q: nat, l: nat) {
    && q < l < |log| - 3
    && log[q].CancelRequested? && |Tail(log[..q])| == 0
    && log[l].CancelLinearized? && |Tail(log[..l])| == 1
    && log[|log| - 3].KillSwitch? && |Tail(log[..|log| - 3])| == 2
    && log[|log| - 2].CancelAck? && log[|log| - 1].RunClosed?
  }

  lemma TailKinds(t: seq<Rec>)
    requires TailOk(t) && |t| == 5
    ensures t[0].CancelRequested? && t[1].CancelLinearized? && t[2].KillSwitch? && t[3].CancelAck? && t[4].RunClosed?
  {
  }

  lemma FindThree(log: seq<Rec>) returns (q: nat, l: nat, k: nat)
    requires |Tail(log)| >= 3
    ensures q < l < k < |log| && IsTailRec(log[k])
    ensures log[q] == Tail(log)[0] && log[l] == Tail(log)[1] && log[k] == Tail(log)[2]
    ensures |Tail(log[..q])| == 0 && |Tail(log[..l])| == 1 && |Tail(log[..k])| == 2
  {
    q := TailPosition(log, 0);
    l := TailPosition(log, 1);
    k := TailPosition(log, 2);
    TailOrder(log, q, l, k);
  }

  lemma FindTail(log: seq<Rec>) returns (q: nat, l: nat)
    requires ClosedLog(log)
    ensures TailStands(log, q, l)
  {
    TailKinds(Tail(log));
    var k;
    q, l, k := FindThree(log);
    ClosureIsLast(log, k);
    LastThree(log, k);
  }

  lemma ClosedShape(log: seq<Rec>)
    requires ClosedLog(log)
    ensures exists q: nat, l: nat :: Shaped(log, q, l)
  {
    var q, l := FindTail(log);
    AllShaped(log, q, l);
    assert Shaped(log, q, l);
  }

  lemma LastThree(log: seq<Rec>, k: nat)
    requires ClosedLog(log) && k == |log| - 3 && IsTailRec(log[k]) && |Tail(log[..k])| == 2
    requires IsTailRec(log[k + 1]) && |Tail(log[..k + 1])| == 3
    requires IsTailRec(log[k + 2]) && |Tail(log[..k + 2])| == 4
    ensures log[k].KillSwitch? && log[k + 1].CancelAck? && log[k + 2].RunClosed? && log[k + 2] == Tail(log)[4]
  {
    TailAt(log, k);
    TailAt(log, k + 1);
    TailAt(log, k + 2);
  }

  lemma TailOrder(log: seq<Rec>, q: nat, l: nat, k: nat)
    requires q < |log| && l < |log| && k < |log| && IsTailRec(log[q]) && IsTailRec(log[l]) && IsTailRec(log[k])
    requires |Tail(log[..q])| == 0 && |Tail(log[..l])| == 1 && |Tail(log[..k])| == 2
    ensures q < l < k
  {
    if l < q { Ordered(log, l, q); }
    if k < l { Ordered(log, k, l); }
  }

  lemma AllShaped(log: seq<Rec>, q: nat, l: nat)
    requires PlacesOk(log) && q < |log| && l < |log| && |log| >= 3
    requires IsTailRec(log[q]) && |Tail(log[..q])| == 0
    requires IsTailRec(log[l]) && |Tail(log[..l])| == 1
    requires IsTailRec(log[|log| - 3]) && |Tail(log[..|log| - 3])| == 2
    ensures forall i | 0 <= i < |log| && IsTailRec(log[i]) :: i == q || i == l || i >= |log| - 3
    ensures forall i | 0 <= i < |log| && IsStoryRec(log[i]) :: i < |log| - 3
    ensures forall i | 0 <= i < |log| && log[i].EffectAttempted? :: i < q
  {
    forall i | 0 <= i < |log|
      ensures IsTailRec(log[i]) ==> i == q || i == l || i >= |log| - 3
      ensures IsStoryRec(log[i]) ==> i < |log| - 3
      ensures log[i].EffectAttempted? ==> i < q
    {
      assert PlacedAt(log, i);
      ShapeAt(log, q, l, i);
    }
  }

  /** Every legal history has the shape of the run grammar. */
  lemma LegalShape(log: seq<Rec>)
    requires LegalHistory(log)
    ensures exists q: nat, l: nat :: Shaped(log, q, l)
  {
    ClosedShape(log);
  }

  predicate IsClosure(r: Rec) { r.RunClosed? && r.schema == RUN_CLOSE_SCHEMA }

  lemma ClosedEnds(log: seq<Rec>)
    requires ClosedLog(log)
    ensures log != [] && log[|log| - 1] == Tail(log)[4]
  {
    var k := TailPosition(log, 2);
    ClosureIsLast(log, k);
    LastThree(log, k);
  }

  /** The last record of a legal history is its closure. */
  lemma AcceptedEnds(log: seq<Rec>)
    requires LegalHistory(log)
    ensures log != [] && IsClosure(log[|log| - 1])
  {
    assert TailOk(Tail(log)) && |Tail(log)| == 5;
    ClosedEnds(log);
  }

  lemma AcceptedRecs(entries: seq<Entry>, expected: string)
    requires Verdict(entries, expected) == LocalHistoryValid
    ensures expected != "" && OneRun(entries, expected) && LegalHistory(Recs(entries))
  {
    AcceptsExactlyLegal(entries, expected);
  }

  lemma AcceptedLast(entries: seq<Entry>, expected: string)
    requires Verdict(entries, expected) == LocalHistoryValid
    ensures entries != [] && expected != "" && entries[|entries| - 1].runId == expected
    ensures IsClosure(entries[|entries| - 1].rec)
  {
    var log := Recs(entries);
    assert OneRun(entries, expected) && expected != "" && log != [] && IsClosure(log[|log| - 1]) by {
      AcceptedRecs(entries, expected);
      AcceptedEnds(log);
    }
  }

  lemma {:induction false} StoryTells(log: seq<Rec>, a: string)
    ensures forall i | 0 <= i < |Story(log, a)| :: IsStoryRec(Story(log, a)[i]) && AidOf(Story(log, a)[i]) == a
  {
    if log != [] {
      StoryTells(log[..|log| - 1], a);
    }
  }

  /** What a legal history says of one attempt: a word of the grammar, A < P < R, A < C and P < C. */
  lemma LegalAttempt(log: seq<Rec>, a: string)
    requires LegalHistory(log) && a in Named(log)
    ensures var s := Story(log, a);
            && s != [] && Complete(s) && TailOk(Tail(log)) && |Tail(log)| == 5
            && s[0].seqNo < Tail(log)[1].seqNo
            && (HasPermit(s) ==>
              && s[0].seqNo < s[1].seqNo < Tail(log)[1].seqNo
              && s[ReleaseIx(s)].PermitReleased? && s[1].seqNo < s[ReleaseIx(s)].seqNo)
  {
    var s := Story(log, a);
    NamedIffStory(log, a);
    assert BeforeCancel(s, Tail(log)[1]) && Bound(s) && Complete(s);
    if HasPermit(s) {
      assert BoundAt(s, 1) && BoundAt(s, ReleaseIx(s));
    }
  }

  /** Soundness, attempt by attempt: in an accepted log every attempt tells one of the seven words. */
  lemma AcceptedAttempt(entries: seq<Entry>, expected: string, a: string)
    requires Verdict(entries, expected) == LocalHistoryValid && a in Named(Recs(entries))
    ensures var s := Story(Recs(entries), a);
            (forall i | 0 <= i < |s| :: IsStoryRec(s[i])) && IsWord(Letters(s))
  {
    var log := Recs(entries);
    assert LegalHistory(log) by {
      AcceptedRecs(entries, expected);
    }
    StoryTells(log, a);
    LegalAttempt(log, a);
    CompleteIffWord(Story(log, a));
  }

  // ---------------------------------------------------------------- prefixes and exceptions

  lemma ClosedRun(log: seq<Rec>)
    requires LegalHistory(log)
    ensures Fold(log).Next? && Fold(log).v.run == Closed
  {
    FoldIff(log);
    OpenIffEarly(Fold(log).v, log);
  }

  lemma ClosedStep(v: VState, r: Rec)
    requires v.Wf() && SchemaOk(r) && v.run == Closed
    ensures Step(v, r) == Stop(RecordAfterRunClosure)
  {
  }

  lemma ClosedFold(log: seq<Rec>, more: seq<Rec>)
    requires AllSchemaOk(log) && AllSchemaOk(log + more) && more != []
    requires Fold(log).Next? && Fold(log).v.run == Closed
    ensures Fold(log + more) == Stop(RecordAfterRunClosure)
  {
    var longer, n := log + more, |log|;
    var next := longer[..n + 1];
    assert next == log + [more[0]] && next[..n] == log && next[n] == longer[n];
    assert SchemaAt(longer, n);
    SchemaSnoc(log, more[0]);
    ClosedStep(Fold(log).v, more[0]);
    assert Fold(next) == Step(Fold(log).v, more[0]);
    FoldStops(longer, n + 1);
  }

  /** Any record with a valid schema after RUN_CLOSED is rejected, with its own status. */
  lemma NothingFollowsClosure(entries: seq<Entry>, more: seq<Entry>, expected: string)
    requires Verdict(entries, expected) == LocalHistoryValid && more != []
    requires OneRun(more, expected) && AllSchemaOk(Recs(more))
    ensures Verdict(entries + more, expected) == RecordAfterRunClosure
  {
    AcceptedRuns(entries, expected);
    RecsConcat(entries, more);
    SchemaJoins(entries, more, expected);
    ClosedFold(Recs(entries), Recs(more));
  }

  lemma AcceptedRuns(entries: seq<Entry>, expected: string)
    requires Verdict(entries, expected) == LocalHistoryValid
    ensures expected != "" && OneRun(entries, expected) && AllSchemaOk(Recs(entries))
    ensures Fold(Recs(entries)).Next? && Fold(Recs(entries)).v.run == Closed
  {
    AcceptsExactlyLegal(entries, expected);
    ClosedRun(Recs(entries));
  }

  lemma SchemaJoins(entries: seq<Entry>, more: seq<Entry>, expected: string)
    requires OneRun(entries, expected) && AllSchemaOk(Recs(entries))
    requires OneRun(more, expected) && AllSchemaOk(Recs(more))
    ensures SchemaComplaint(entries + more, expected).None? && AllSchemaOk(Recs(entries + more))
  {
    var both := entries + more;
    forall i: nat | i < |both| ensures both[i].runId == expected && SchemaAt(Recs(both), i) {
      assert i < |entries| ==> SchemaAt(Recs(entries), i);
      assert i >= |entries| ==> SchemaAt(Recs(more), i - |entries|);
    }
    SchemaPass(both, expected);
  }

  lemma RecsConcat(entries: seq<Entry>, more: seq<Entry>)
    ensures Recs(entries + more) == Recs(entries) + Recs(more)
  {
  }

  /** Acceptance is prefix-free: no proper prefix and no proper extension of an accepted log is
      accepted. */
  lemma PrefixFree(entries: seq<Entry>, more: seq<Entry>, expected: string)
    requires Verdict(entries, expected) == LocalHistoryValid
    requires Verdict(entries + more, expected) == LocalHistoryValid
    ensures more == []
  {
    if more != [] {
      AcceptedSuffix(entries, more, expected);
      NothingFollowsClosure(entries, more, expected);
    }
  }

  lemma AcceptedSuffix(entries: seq<Entry>, more: seq<Entry>, expected: string)
    requires Verdict(entries + more, expected) == LocalHistoryValid
    ensures OneRun(more, expected) && AllSchemaOk(Recs(more))
  {
    RecsConcat(entries, more);
    SchemaPass(entries + more, expected);
    SuffixOk(entries, more, expected);
  }

  lemma SuffixOk(entries: seq<Entry>, more: seq<Entry>, expected: string)
    requires OneRun(entries + more, expected) && AllSchemaOk(Recs(entries) + Recs(more))
    ensures OneRun(more, expected) && AllSchemaOk(Recs(more))
  {
    forall i: nat | i < |more| ensures more[i].runId == expected && SchemaAt(Recs(more), i) {
      assert (entries + more)[|entries| + i] == more[i];
      assert SchemaAt(Recs(entries) + Recs(more), |entries| + i);
    }
  }

  /** The loop reads a field that the schema lets a record omit in one case only: a DRAIN_TIMEOUT
      without `closure_blockers`, right after the KILL_SWITCH whose facts it repeats.  There the
      verifier raises instead of returning a status; on every other log it returns one. */
  ghost predicate RaisesAt(log: seq<Rec>, n: nat) {
    && n < |log| && Safe(log[..n]) && |Tail(log[..n])| == 3
    && log[n].DrainTimeout? && log[n].blockers.None? && log[n].facts == Tail(log[..n])[2].facts
  }

  lemma RaisingStep(v: VState, r: Rec)
    requires v.Wf() && SchemaOk(r)
    ensures Step(v, r) == Stop(KeyErrorRaised) <==>
            && r.DrainTimeout? && v.run == Linearized && v.kill.Some? && CountsAdd(r.facts)
            && r.facts == v.kill.value.facts && r.blockers.None?
  {
  }

  lemma RaisesHere(before: seq<Rec>, r: Rec)
    requires SchemaOk(r) && AllSchemaOk(before)
    ensures RaisesAt(before + [r], |before|) <==>
            Fold(before).Next? && Step(Fold(before).v, r) == Stop(KeyErrorRaised)
  {
    assert (before + [r])[..|before|] == before && (before + [r])[|before|] == r;
    FoldIff(before);
    if Fold(before).Next? {
      RaisingStep(Fold(before).v, r);
      if Safe(before) {
        OpenIffEarly(Fold(before).v, before);
      }
    }
  }

  lemma RaisedBefore(before: seq<Rec>, r: Rec, n: nat)
    requires n < |before|
    ensures RaisesAt(before + [r], n) <==> RaisesAt(before, n)
  {
    assert (before + [r])[..n] == before[..n];
  }

  lemma RaisesSnoc(before: seq<Rec>, r: Rec)
    ensures (exists n: nat :: RaisesAt(before + [r], n)) <==>
            (exists n: nat :: RaisesAt(before, n)) || RaisesAt(before + [r], |before|)
  {
    if exists n: nat :: RaisesAt(before + [r], n) {
      var n: nat :| RaisesAt(before + [r], n);
      if n < |before| {
        RaisedBefore(before, r, n);
      }
    }
    if exists n: nat :: RaisesAt(before, n) {
      var n: nat :| RaisesAt(before, n);
      RaisedBefore(before, r, n);
    }
  }

  lemma {:induction false} FoldRaisesIff(log: seq<Rec>)
    requires AllSchemaOk(log)
    ensures Fold(log) == Stop(KeyErrorRaised) <==> exists n: nat :: RaisesAt(log, n)
  {
    if log != [] {
      var m := |log| - 1;
      var before, r := log[..m], log[m];
      assert log == before + [r];
      SchemaInit(log);
      FoldRaisesIff(before);
      RaisesHere(before, r);
      RaisesSnoc(before, r);
    }
  }

  lemma VerdictRaises(entries: seq<Entry>, expected: string)
    ensures Verdict(entries, expected) == KeyErrorRaised <==>
            && expected != "" && SchemaComplaint(entries, expected).None?
            && (AllSchemaOk(Recs(entries)) ==> Fold(Recs(entries)) == Stop(KeyErrorRaised))
  {
    SchemaPass(entries, expected);
  }

  lemma RaisesExactly(entries: seq<Entry>, expected: string)
    ensures Verdict(entries, expected) == KeyErrorRaised <==>
            && expected != "" && OneRun(entries, expected) && AllSchemaOk(Recs(entries))
            && exists n: nat :: RaisesAt(Recs(entries), n)
  {
    VerdictRaises(entries, expected);
    SchemaPass(entries, expected);
    if AllSchemaOk(Recs(entries)) {
      FoldRaisesIff(Recs(entries));
    }
  }
}
