/** Which sealed runs the verifier accepts: the meeting point of producer and verifier. */
module RunAcceptance {
  import opened Records
  import opened RunModel
  import opened History
  import opened Protocol
  import opened HandlerProofs
  import opened Invariants
  import opened Reachable
  import opened Enforcement
  import V = Verifier
  import A = Acceptance

  /** The log as the writer stamps it with its run id. */
  function Stamped(log: seq<Rec>, runId: string): (entries: seq<Entry>)
    ensures V.Recs(entries) == log
  {
    seq(|log|, i requires 0 <= i < |log| => Entry(runId, log[i]))
  }

  // ---------------------------------------------------------------- what a request must be like

  /** The fields of AUTH that the gateway copies without looking. */
  predicate AuthFit(q: Request) {
    && q.program != "" && q.generation != "" && q.budget != "" && q.verb != "" && q.host != ""
    && q.pin.ip != "" && PinInRange(q.pin) && !LooksSecret(CredentialRef(q))
  }

  predicate Answered(story: seq<Rec>) { |story| > 4 && story[4].Allow? }

  predicate Cut(story: seq<Rec>) { |story| > 4 && story[4].ConnectionTerminated? }

  /** AUTH stores the canonical method and host, ALLOW the raw method and the SNI. */
  predicate AllowFits(h: Handler) {
    && h.req.verb == Upper(h.req.verb) && (h.req.injects <==> CredentialRef(h.req) != "none")
    && (h.req.sni.None? || h.req.sni.value == h.req.host)
  }

  /** What a finished attempt must be like to be accepted. */
  predicate Fit(h: Handler) {
    && AuthFit(h.req)
    && (Answered(h.story) ==> 0 <= h.status && AllowFits(h))
    && (Cut(h.story) ==> h.req.verb == Upper(h.req.verb))
  }

  /** The attempts that the log knows of. */
  predicate Told(s: State, a: string) {
    a in s.hs && s.hs[a].story != []
  }

  /** What decides acceptance of a sealed run. */
  ghost predicate RunFits(s: State) {
    && (exists a :: Told(s, a))
    && s.broken == {} && !s.lateAttempt
    && forall a | Told(s, a) :: !Doubled(s.hs[a].story) && Fit(s.hs[a])
  }

  // ---------------------------------------------------------------- one finished attempt

  /** A handler whose story is told to the end and lacks nothing. */
  ghost predicate Over(run: Run, a: string, h: Handler) {
    && Sane(a, h.req) && HandlerInv(run, a, h, false) && AttemptInv(run, a) && h.pc == Done
    && h.story != [] && run.cancelled && Ordered(run)
  }

  /** And tells one outcome. */
  ghost predicate Finished(run: Run, a: string, h: Handler) { Over(run, a, h) && !Doubled(h.story) }

  lemma FinishedComplete(run: Run, a: string, h: Handler)
    requires Finished(run, a, h)
    ensures Complete(h.story) && h.story[0] == AuthRec(a, h) && h.a > 0 && h.epoch == 0
    ensures (h.p > 0 <==> HasPermit(h.story)) && (h.p > 0 <==> h.r > 0)
    ensures HasPermit(h.story) ==> h.story[1] == PermitRec(a, h)
  {
    assert RecOk(a, h, h.story[0]);
    if HasPermit(h.story) {
      assert RecOk(a, h, h.story[1]);
    }
  }

  lemma AuthSchema(a: string, h: Handler)
    requires Sane(a, h.req) && h.a > 0
    ensures SchemaOk(AuthRec(a, h)) && !LooksSecret(AuthRec(a, h).credential) <==> AuthFit(h.req)
  {
    assert |Upper(h.req.verb)| == |h.req.verb|;
  }

  lemma DigestIsHex(q: Request)
    requires IsDigest(q.digest)
    ensures IsHex64(DigestHex(q)) && DigestHex(q) == q.digest[7..]
  {
  }

  /** Where the permit-bound records of a complete story stand. */
  lemma PermitNumbered(story: seq<Rec>, i: nat)
    requires Complete(story) && story != [] && i < |story|
    ensures HasPermit(story) || i == 0 || Soft(story[i])
  {
  }

  lemma AllowedWhenCompleted(story: seq<Rec>, i: nat)
    requires Complete(story) && story != [] && i < |story|
    ensures story[i].EffectCompleted? || story[i].Allow? ==> Answered(story)
    ensures story[i].Allow? ==> i == 4 && story[3].EffectCompleted?
    ensures story[i].AuthCommitted? ==> i == 0
  {
  }

  lemma AllowBound(a: string, h: Handler)
    requires IsDigest(h.req.digest)
    ensures V.AllowBinds(AuthRec(a, h), CompletedRec(a, h), AllowRec(a, h)) <==> AllowFits(h)
  {
    UrlFits(h.req);
  }

  lemma TornBound(a: string, h: Handler, reason: string, why: string)
    ensures V.TornBinds(AuthRec(a, h), UnknownRec(a, h, reason, Some(h.streamed)), TornRec(a, h, why)) <==>
            h.req.verb == Upper(h.req.verb)
  {
    UrlFits(h.req);
  }

  /** The records that repeat what AUTH and PERMIT bound do so truly, whatever the request. */
  lemma OthersBound(a: string, h: Handler, r: Rec)
    requires RecOk(a, h, r) && h.epoch == 0
    ensures r.PermitGranted? ==> V.PermitBinds(AuthRec(a, h), r)
    ensures r.EffectAttempted? ==> V.AttemptBinds(AuthRec(a, h), PermitRec(a, h), r)
    ensures IsTerminal(r) && (h.p > 0 || Soft(r)) ==>
              V.TerminalBinds(AuthRec(a, h), if h.p > 0 then Some(PermitRec(a, h)) else None, r)
    ensures r.PermitReleased? ==> V.ReleaseBinds(PermitRec(a, h), r)
  {
  }

  /** A finished attempt is bound throughout exactly when its request is canonical. */
  lemma StoryBoundAt(run: Run, a: string, h: Handler, i: nat)
    requires Finished(run, a, h) && 0 < i < |h.story|
    ensures Viable(h.story)
    ensures BoundAt(h.story, i) <==>
            && (h.story[i].Allow? ==> AllowFits(h))
            && (h.story[i].ConnectionTerminated? ==> h.req.verb == Upper(h.req.verb))
  {
    var s, r := h.story, h.story[i];
    FinishedComplete(run, a, h);
    assert RecOk(a, h, r);
    OthersBound(a, h, r);
    PermitNumbered(s, i);
    AllowedWhenCompleted(s, i);
    if r.Allow? {
      assert RecOk(a, h, s[3]);
      AllowBound(a, h);
    } else if r.ConnectionTerminated? {
      assert RecOk(a, h, s[3]);
      TornBound(a, h, s[3].reason, r.reason);
    }
  }

  lemma UrlFits(q: Request)
    ensures UrlUnder(UrlOf(q), q.host)
  {
    assert UrlOf(q) == ("https://" + q.host) + q.path;
  }

  lemma LaterSchema(a: string, h: Handler, r: Rec)
    requires RecOk(a, h, r) && !r.AuthCommitted? && Sane(a, h.req) && PinInRange(h.req.pin)
    requires h.p > 0 || Soft(r)
    ensures SchemaOk(r) <==> (r.EffectCompleted? || r.Allow? ==> 0 <= h.status)
  {
    DigestIsHex(h.req);
  }

  /** Every record of a finished attempt satisfies the schema exactly when AUTH is fit and, if
      the attempt completed, the upstream status is not negative. */
  lemma StorySchema(run: Run, a: string, h: Handler, i: nat)
    requires Finished(run, a, h) && i < |h.story|
    ensures i == 0 ==> h.story[i] == AuthRec(a, h) && (SchemaOk(h.story[i]) && !LooksSecret(h.story[i].credential) <==> AuthFit(h.req))
    ensures i > 0 && PinInRange(h.req.pin) ==>
              (SchemaOk(h.story[i]) <==> (h.story[i].EffectCompleted? || h.story[i].Allow? ==> 0 <= h.status))
  {
    FinishedComplete(run, a, h);
    AuthSchema(a, h);
    assert RecOk(a, h, h.story[i]);
    PermitNumbered(h.story, i);
    AllowedWhenCompleted(h.story, i);
    if i > 0 && PinInRange(h.req.pin) {
      LaterSchema(a, h, h.story[i]);
    }
  }

  /** The verifier's rules for one story. */
  predicate StoryAccepted(story: seq<Rec>)
    requires story != [] && Viable(story)
  {
    && (forall i | 0 <= i < |story| :: SchemaOk(story[i]))
    && !LooksSecret(story[0].credential) && Bound(story)
  }

  /** What one record asks of the request. */
  predicate RecFits(h: Handler, r: Rec) {
    && (r.EffectCompleted? ==> 0 <= h.status)
    && (r.Allow? ==> 0 <= h.status && AllowFits(h))
    && (r.ConnectionTerminated? ==> h.req.verb == Upper(h.req.verb))
  }

  lemma RecFitsIff(run: Run, a: string, h: Handler, i: nat)
    requires Finished(run, a, h) && 0 < i < |h.story| && PinInRange(h.req.pin)
    ensures Viable(h.story)
    ensures SchemaOk(h.story[i]) && BoundAt(h.story, i) <==> RecFits(h, h.story[i])
  {
    StorySchema(run, a, h, i);
    StoryBoundAt(run, a, h, i);
  }

  lemma AllRecsFit(story: seq<Rec>, h: Handler)
    requires Complete(story) && story != [] && TornFits(story)
    ensures (forall i: nat | 0 < i < |story| :: RecFits(h, story[i])) <==>
            (Answered(story) ==> 0 <= h.status && AllowFits(h)) && (Cut(story) ==> h.req.verb == Upper(h.req.verb))
  {
    if forall i: nat | 0 < i < |story| :: RecFits(h, story[i]) {
      assert |story| > 4 ==> RecFits(h, story[4]);
    } else {
      var i: nat :| 0 < i < |story| && !RecFits(h, story[i]);
      AllowedWhenCompleted(story, i);
    }
  }

  /** A finished attempt keeps the verifier's rules exactly when it is fit. */
  lemma FinishedFitIff(run: Run, a: string, h: Handler)
    requires Finished(run, a, h)
    ensures Complete(h.story)
    ensures StoryAccepted(h.story) <==> Fit(h)
  {
    FinishedComplete(run, a, h);
    StorySchema(run, a, h, 0);
    AllRecsFit(h.story, h);
    if AuthFit(h.req) {
      forall i: nat | 0 < i < |h.story|
        ensures SchemaOk(h.story[i]) && BoundAt(h.story, i) <==> RecFits(h, h.story[i])
      {
        RecFitsIff(run, a, h, i);
      }
    }
  }

  lemma CompleteIsOnce(story: seq<Rec>)
    requires story != [] && Complete(story)
    ensures !Doubled(story)
  {
  }

  /** An attempt that lacks nothing keeps the verifier's rules exactly when its outcome is settled once and
      its request is fit. */
  lemma StoryFitIff(run: Run, a: string, h: Handler)
    requires Over(run, a, h)
    ensures Complete(h.story) && StoryAccepted(h.story) <==> !Doubled(h.story) && Fit(h)
  {
    if Doubled(h.story) {
      if Complete(h.story) {
        CompleteIsOnce(h.story);
      }
    } else {
      FinishedFitIff(run, a, h);
    }
  }

  // ---------------------------------------------------------------- the sealed run

  ghost predicate SealedRun(s: State) {
    Inv(s) && NetInv(s) && s.sink.isSealed
  }

  /** The tail of a run that was quiescent when it was sealed. */
  ghost predicate Scripted(t: seq<Rec>, run: Run, c: Canceller) {
    && run.cancelled && run.cancellation.Some? && c.Quiescent()
    && |t| == 5 && forall i: nat | i < 5 :: t[i] == Script(run, c, i)
  }

  lemma SealedFacts(s: State)
    requires SealedRun(s)
    ensures s.can.pc == CClosed && Scripted(Tail(s.sink.log), s.run, s.can)
    ensures s.run.inflight == map[] && forall a | a in s.hs :: !Producing(s.hs[a])
  {
  }

  lemma FinishedAt(s: State, a: string)
    requires SealedRun(s) && Told(s, a) && a !in s.broken && !Doubled(s.hs[a].story)
    ensures Finished(s.run, a, s.hs[a])
  {
    SealedFacts(s);
    assert HandlerInv(s.run, a, s.hs[a], false);
    assert AttemptInv(s.run, a);
  }

  lemma {:induction false} TornIsDistinct(victims: seq<string>, found: set<(nat, nat)>, n: nat)
    requires n <= |victims| && Distinct(victims)
    ensures Distinct(TornOf(victims, found, n))
    ensures forall id | id in TornOf(victims, found, n) :: id in victims[..n]
  {
    if n > 0 {
      TornIsDistinct(victims, found, n - 1);
      assert victims[..n] == victims[..n - 1] + [victims[n - 1]];
      assert victims[n - 1] !in victims[..n - 1];
      var torn := TornOf(victims, found, n - 1);
      assert forall i | 0 <= i < |torn| :: torn[i] in torn;
    }
  }

  /** The records the canceller wrote are the tail of a legal history. */
  lemma ScriptIsLegal(s: State)
    requires SealedRun(s)
    ensures TailOk(Tail(s.sink.log))
    ensures forall i: nat | i < 5 :: SchemaOk(Script(s.run, s.can, i)) && !Script(s.run, s.can, i).DrainTimeout?
  {
    SealedFacts(s);
    var c := s.can;
    TornIsDistinct(c.victims, c.found, c.done);
    assert forall id | id in c.torn :: id in c.victims;
    assert CancelExact(s.run);
    ScriptTail(Tail(s.sink.log), s.run, c);
  }

  lemma ScriptTail(t: seq<Rec>, run: Run, c: Canceller)
    requires Scripted(t, run, c) && CancelExact(run)
    requires Distinct(c.torn) && Distinct(c.victims) && forall id | id in c.torn :: id in c.victims
    ensures TailOk(t)
    ensures forall i: nat | i < 5 :: SchemaOk(Script(run, c, i)) && !Script(run, c, i).DrainTimeout?
  {
    assert t[0] == RequestRec(run) && t[1] == LinearizedRec(run) && t[2] == KillRec(run, c);
    assert t[3] == AckRec(run, c) && t[4] == ClosedRec(run);
  }

  /** What the log tells of an attempt is what its handler wrote. */
  lemma NamedIsTold(s: State, a: string)
    requires StoriesTold(s.sink.log, s.hs)
    ensures a in Named(s.sink.log) <==> Told(s, a)
    ensures Told(s, a) ==> Story(s.sink.log, a) == s.hs[a].story
  {
    NamedIffStory(s.sink.log, a);
    assert Story(s.sink.log, a) == StoryOf(s.hs, a);
  }

  // ---------------------------------------------------------------- fit runs are legal

  /** The records of the told attempts are ones the verifier takes by themselves. */
  ghost predicate RecsFit(s: State) {
    forall a | Told(s, a) :: PinFits(s.hs[a].req) && StoryRecsFit(s.hs[a].story)
  }

  predicate StoryRecsFit(story: seq<Rec>) {
    forall j | 0 <= j < |story| :: SchemaOk(story[j]) && ContextOk(story[j])
  }

  predicate PinFits(q: Request) { PinInRange(q.pin) && (q.pin.family == "ipv4" || q.pin.family == "ipv6") }

  /** Nothing essential is lost, no outcome is settled twice and every told request is fit. */
  ghost predicate FitWhole(s: State) {
    WholeRun(s) && forall a | Told(s, a) :: !Doubled(s.hs[a].story) && Fit(s.hs[a])
  }

  ghost predicate FitRun(s: State) {
    SealedRun(s) && RunFits(s)
  }

  /** No handler lost an essential record. */
  ghost predicate WholeRun(s: State) {
    SealedRun(s) && s.broken == {}
  }

  lemma WholeStory(s: State, a: string)
    requires WholeRun(s) && Told(s, a) && !Doubled(s.hs[a].story)
    ensures Story(s.sink.log, a) == s.hs[a].story && Finished(s.run, a, s.hs[a]) && Complete(s.hs[a].story)
  {
    NamedIsTold(s, a);
    FinishedAt(s, a);
    FinishedComplete(s.run, a, s.hs[a]);
  }

  lemma FitStory(s: State, a: string)
    requires FitWhole(s) && Told(s, a)
    ensures Finished(s.run, a, s.hs[a]) && Complete(s.hs[a].story) && StoryAccepted(s.hs[a].story)
  {
    FinishedAt(s, a);
    FinishedFitIff(s.run, a, s.hs[a]);
  }

  lemma FitRecs(s: State)
    requires FitWhole(s)
    ensures RecsFit(s)
  {
    forall a | Told(s, a) ensures PinFits(s.hs[a].req) && StoryRecsFit(s.hs[a].story) {
      FitStory(s, a);
      assert Sane(a, s.hs[a].req) && Fit(s.hs[a]);
      AcceptedRecsFit(s.hs[a].story);
    }
  }

  lemma AcceptedRecsFit(story: seq<Rec>)
    requires story != [] && Complete(story) && StoryAccepted(story)
    ensures StoryRecsFit(story)
  {
    forall j | 0 <= j < |story| ensures ContextOk(story[j]) {
      AllowedWhenCompleted(story, j);
    }
  }

  lemma ToldRec(s: State, i: nat) returns (j: nat)
    requires StoriesTold(s.sink.log, s.hs) && i < |s.sink.log| && IsStoryRec(s.sink.log[i])
    ensures var a := AidOf(s.sink.log[i]); Told(s, a) && j < |s.hs[a].story| && s.hs[a].story[j] == s.sink.log[i]
  {
    j := InStory(s.sink.log, i);
    assert Story(s.sink.log, AidOf(s.sink.log[i])) == StoryOf(s.hs, AidOf(s.sink.log[i]));
  }

  /** Then the verifier takes every record of the log by itself. */
  lemma SealedRec(s: State, i: nat)
    requires SealedRun(s) && RecsFit(s) && i < |s.sink.log|
    ensures SchemaOk(s.sink.log[i]) && ContextOk(s.sink.log[i])
  {
    if IsStoryRec(s.sink.log[i]) {
      var j := ToldRec(s, i);
      assert StoryRecsFit(s.hs[AidOf(s.sink.log[i])].story);
    } else if IsTailRec(s.sink.log[i]) {
      SealedTailRec(s, i);
    } else {
      assert OtherOk(s.sink.log, i, s.hs);
      assert forall a | a in s.hs && s.hs[a].story != [] :: Told(s, a) && PinFits(s.hs[a].req);
      OtherFits(s.sink.log, i, s.hs);
    }
  }

  lemma SealedTailRec(s: State, i: nat)
    requires SealedRun(s) && i < |s.sink.log| && IsTailRec(s.sink.log[i])
    ensures SchemaOk(s.sink.log[i]) && ContextOk(s.sink.log[i])
  {
    var j := InTail(s.sink.log, i);
    SealedFacts(s);
    ScriptIsLegal(s);
    assert s.sink.log[i] == Script(s.run, s.can, j);
  }

  lemma OtherFits(log: seq<Rec>, i: nat, hs: map<string, Handler>)
    requires i < |log| && !IsStoryRec(log[i]) && !IsTailRec(log[i]) && OtherOk(log, i, hs)
    requires forall a | a in hs && hs[a].story != [] :: PinFits(hs[a].req)
    ensures SchemaOk(log[i]) && ContextOk(log[i])
  {
    if log[i].Blocked? && log[i].blockedPin.Some? {
      var a :| a in hs && hs[a].story != [] && log[i].blockedPin.value == hs[a].req.pin;
      assert PinFits(hs[a].req);
    }
  }

  /** Every record of a sealed run that is no late attempt stands where it may. */
  lemma SealedPlace(s: State, i: nat)
    requires SealedRun(s) && i < |s.sink.log| && !LateAttemptAt(s.sink.log, i)
    ensures PlaceOk(s.sink.log[..i], s.sink.log[i])
  {
    SealedFacts(s);
    assert StandsEarly(s.sink.log, i);
    assert OtherOk(s.sink.log, i, s.hs);
  }

  lemma FitStories(s: State)
    requires FitWhole(s)
    ensures StoriesOk(s.sink.log) && forall a | a in Named(s.sink.log) :: Complete(Story(s.sink.log, a))
  {
    forall a | a in Named(s.sink.log)
      ensures var t := Story(s.sink.log, a); Viable(t) && Bound(t) && Complete(t)
    {
      NamedIsTold(s, a);
      FitStory(s, a);
    }
  }

  /** What the stories of a sealed run say of numbers is true, as far as they are told. */
  lemma ToldNumbers(s: State, a: string, t: seq<Rec>)
    requires SealedRun(s) && t != [] && t <= Story(s.sink.log, a) && Viable(t)
    ensures t[0].epoch == 0 && t[0].seqNo == Num(s.run, AuthEv(a))
    ensures HasPermit(t) ==> t[1].seqNo == Num(s.run, PermitEv(a)) > 0
  {
    NamedIffStory(s.sink.log, a);
    NamedIsTold(s, a);
    var h := s.hs[a];
    assert HandlerInv(s.run, a, h, a in s.broken);
    assert t[0] == h.story[0] && RecOk(a, h, h.story[0]);
    if HasPermit(t) {
      assert t[1] == h.story[1] && RecOk(a, h, h.story[1]);
    }
  }

  /** The story so far is the beginning of the story. */
  lemma {:induction false} StoryPrefix(log: seq<Rec>, n: nat, a: string)
    requires n <= |log|
    ensures Story(log[..n], a) <= Story(log, a)
    decreases |log|
  {
    if n == |log| {
      assert log[..n] == log;
    } else {
      var m := |log| - 1;
      assert log[..m][..n] == log[..n];
      StoryPrefix(log[..m], n, a);
    }
  }

  lemma LatePrefix(log: seq<Rec>, n: nat)
    requires n <= |log|
    ensures LateAids(log[..n]) <= LateAids(log)
  {
    forall a | a in LateAids(log[..n]) ensures a in LateAids(log) {
      var i :| 0 <= i < n && log[..n][i].AuthCommitted? && Tail(log[..n][..i]) != [] && log[..n][i].aid == a;
      assert log[..n][..i] == log[..i] && log[i].AuthCommitted? && Tail(log[..i]) != [];
    }
  }

  lemma SealedNoLatePermit(s: State, n: nat)
    requires SealedRun(s) && n <= |s.sink.log| && StoriesOk(s.sink.log[..n])
    ensures NoLatePermit(s.sink.log[..n])
  {
    var log := s.sink.log;
    LateAreNamed(log[..n]);
    LatePrefix(log, n);
    forall a | a in LateAids(log[..n]) ensures !HasPermit(Story(log[..n], a)) {
      NamedIffStory(log[..n], a);
      StoryPrefix(log, n, a);
      ToldNumbers(s, a, Story(log[..n], a));
    }
  }

  lemma SealedCancelBounds(s: State, n: nat)
    requires SealedRun(s) && n <= |s.sink.log| && StoriesOk(s.sink.log[..n]) && TailOk(Tail(s.sink.log[..n]))
    ensures CancelBounds(s.sink.log[..n])
  {
    var log := s.sink.log;
    if |Tail(log[..n])| >= 2 {
      SealedFacts(s);
      A.TailMonotone(log, n);
      assert Tail(log[..n])[1] == LinearizedRec(s.run) && CancelExact(s.run);
      forall a | a in Named(log[..n]) ensures BeforeCancel(Story(log[..n], a), Tail(log[..n])[1]) {
        NamedIffStory(log[..n], a);
        StoryPrefix(log, n, a);
        ToldNumbers(s, a, Story(log[..n], a));
        assert AttemptInv(s.run, a);
      }
    }
  }

  /** A story with nothing missing tells the permit's number and that of its release. */
  lemma ReleaseStands(story: seq<Rec>, a: string, h: Handler)
    requires story != [] && LeftBehind(story, false) && HasPermit(story)
    requires forall i | 0 <= i < |story| :: RecOk(a, h, story[i])
    ensures story[1] == PermitRec(a, h)
    ensures ReleaseIx(story) < |story| && story[ReleaseIx(story)] == ReleaseRec(a, h)
  {
    assert RecOk(a, h, story[1]) && RecOk(a, h, story[ReleaseIx(story)]);
  }

  lemma ToldEnds(s: State, a: string)
    requires SealedRun(s) && Told(s, a) && a !in s.broken
    ensures var h := s.hs[a];
            && (h.p > 0 <==> HasPermit(h.story)) && (h.p > 0 <==> h.r > 0)
            && LeftBehind(h.story, false) && forall i | 0 <= i < |h.story| :: RecOk(a, h, h.story[i])
  {
    ToldLeft(s, a);
    assert HandlerInv(s.run, a, s.hs[a], false);
    DoneNumbers(s.hs[a]);
  }

  lemma DoneNumbers(h: Handler)
    requires PcShape(h, false) && h.pc == Done
    ensures (h.p > 0 <==> HasPermit(h.story)) && (h.p > 0 <==> h.r > 0)
  {
  }

  /** In a sealed run the handler of every told attempt is done. */
  lemma ToldLeft(s: State, a: string)
    requires SealedRun(s) && Told(s, a)
    ensures s.hs[a].pc == Done && LeftBehind(s.hs[a].story, a in s.broken)
  {
    SealedFacts(s);
    assert HandlerInv(s.run, a, s.hs[a], a in s.broken);
  }

  /** In a sealed run the stories show as held exactly the permits that were. */
  lemma HeldAgree(s: State, a: string)
    requires WholeRun(s)
    ensures a in HeldSet(s.sink.log, Num(s.run, CancelEv)) <==> a in Held(s.run)
  {
    NamedIsTold(s, a);
    SealedFacts(s);
    assert AttemptInv(s.run, a);
    if Told(s, a) {
      ToldEnds(s, a);
      assert HandlerInv(s.run, a, s.hs[a], false);
      if HasPermit(s.hs[a].story) {
        ReleaseStands(s.hs[a].story, a, s.hs[a]);
      }
    } else {
      UntoldHoldsNothing(s, a);
    }
  }

  lemma UntoldHoldsNothing(s: State, a: string)
    requires WholeRun(s) && !Told(s, a)
    ensures Num(s.run, PermitEv(a)) == 0 && a !in s.run.permitted
  {
    SealedFacts(s);
    assert AttemptInv(s.run, a);
    if a in s.hs {
      assert HandlerInv(s.run, a, s.hs[a], false);
    }
  }

  lemma HeldCounted(s: State)
    requires WholeRun(s)
    ensures s.run.cancellation.Some? && s.run.cancellation.value.seqNo == Num(s.run, CancelEv)
    ensures HeldSet(s.sink.log, Num(s.run, CancelEv)) == Held(s.run)
    ensures s.run.cancellation.value.inflight == |Held(s.run)|
  {
    forall a: string ensures a in HeldSet(s.sink.log, Num(s.run, CancelEv)) <==> a in Held(s.run) {
      HeldAgree(s, a);
    }
    SealedFacts(s);
    assert CancelExact(s.run);
  }

  lemma FitIsLegal(s: State)
    requires FitRun(s)
    ensures LegalHistory(s.sink.log)
  {
    var log := s.sink.log;
    FitRecs(s);
    forall i: nat | i < |log| ensures V.SchemaAt(log, i) && PlacedAt(log, i) {
      SealedRec(s, i);
      assert !LateAttemptAt(log, i);
      SealedPlace(s, i);
    }
    FitStories(s);
    ScriptIsLegal(s);
    assert log[..|log|] == log;
    SealedNoLatePermit(s, |log|);
    SealedCancelBounds(s, |log|);
    FitDrained(s);
    SomeoneNamed(s);
  }

  lemma FitDrained(s: State)
    requires FitWhole(s) && TailOk(Tail(s.sink.log))
    ensures |Tail(s.sink.log)| == 5 && Drained(s.sink.log)
  {
    SealedFacts(s);
    FitStories(s);
    HeldCounted(s);
    assert Tail(s.sink.log)[1] == LinearizedRec(s.run);
  }

  lemma SomeoneNamed(s: State)
    requires StoriesTold(s.sink.log, s.hs) && exists a :: Told(s, a)
    ensures Named(s.sink.log) != {}
  {
    var a :| Told(s, a);
    NamedIsTold(s, a);
  }

  // ---------------------------------------------------------------- legal runs are fit

  /** Where the j-th record of a story stands in the log. */
  function Place(log: seq<Rec>, a: string, j: nat): (i: nat)
    requires j < |Story(log, a)|
    ensures i < |log| && log[i] == Story(log, a)[j] && Tells(log[i], a)
  {
    var n := |log| - 1;
    if j < |Story(log[..n], a)| then Place(log[..n], a, j) else n
  }

  /** A story is told in log order. */
  lemma {:induction false} PlacesIncrease(log: seq<Rec>, a: string, j: nat, k: nat)
    requires j < k < |Story(log, a)|
    ensures Place(log, a, j) < Place(log, a, k)
  {
    var n := |log| - 1;
    if k < |Story(log[..n], a)| {
      PlacesIncrease(log[..n], a, j, k);
    }
  }

  lemma LeftComplete(story: seq<Rec>, broken: bool)
    requires story != [] && LeftBehind(story, broken)
    ensures Complete(story) <==> !broken && !Doubled(story)
  {
  }

  lemma CompleteFinished(s: State, a: string)
    requires SealedRun(s) && Told(s, a) && Complete(s.hs[a].story)
    ensures a !in s.broken && !Doubled(s.hs[a].story) && Finished(s.run, a, s.hs[a])
  {
    ToldLeft(s, a);
    LeftComplete(s.hs[a].story, a in s.broken);
    FinishedAt(s, a);
  }

  /** A story of a legal log is bound, and each of its records is taken. */
  lemma LegalStory(s: State, a: string)
    requires SealedRun(s) && LegalHistory(s.sink.log) && Told(s, a)
    ensures a !in s.broken && !Doubled(s.hs[a].story) && Fit(s.hs[a])
  {
    var log, story := s.sink.log, s.hs[a].story;
    NamedIsTold(s, a);
    CompleteFinished(s, a);
    forall j | 0 <= j < |story| ensures SchemaOk(story[j]) && ContextOk(story[j]) {
      var i := Place(log, a, j);
      assert V.SchemaAt(log, i) && PlacedAt(log, i);
    }
    FinishedFitIff(s.run, a, s.hs[a]);
  }

  lemma LegalIsFit(s: State)
    requires SealedRun(s) && LegalHistory(s.sink.log)
    ensures RunFits(s)
  {
    var log := s.sink.log;
    var a :| a in Named(log);
    NamedIsTold(s, a);
    forall b | Told(s, b) ensures !Doubled(s.hs[b].story) && Fit(s.hs[b]) {
      LegalStory(s, b);
    }
    forall b | b in s.broken ensures false {
      BrokenIsTold(s, b);
      LegalStory(s, b);
    }
    forall i: nat | i < |log| ensures !LateAttemptAt(log, i) {
      assert PlacedAt(log, i);
    }
  }

  lemma BrokenIsTold(s: State, a: string)
    requires SealedRun(s) && a in s.broken
    ensures Told(s, a)
  {
    SealedFacts(s);
    assert HandlerInv(s.run, a, s.hs[a], true);
  }

  // ---------------------------------------------------------------- the theorem

  lemma FitIffLegal(s: State)
    requires SealedRun(s)
    ensures RunFits(s) <==> LegalHistory(s.sink.log)
  {
    if RunFits(s) {
      FitIsLegal(s);
    }
    if LegalHistory(s.sink.log) {
      LegalIsFit(s);
    }
  }

  lemma AcceptedIffLegal(log: seq<Rec>, runId: string)
    requires runId != ""
    ensures V.Verdict(Stamped(log, runId), runId) == V.LocalHistoryValid <==> LegalHistory(log)
  {
    A.AcceptsExactlyLegal(Stamped(log, runId), runId);
    assert A.OneRun(Stamped(log, runId), runId);
  }

  /** A sealed run is accepted by the verifier if and only if it has a durable AUTH, no handler
      lost an essential record for good or left early, none settled its outcome twice, no
      EFFECT_ATTEMPTED was appended after CANCELLATION_REQUESTED, and every attempt it tells of is
      fit. */
  lemma SealedRunAcceptedIff(init: State, steps: seq<Step>, s: State, runId: string)
    requires Init(init) && Exec(init, steps) == Some(s) && s.sink.isSealed && runId != ""
    ensures V.Verdict(Stamped(s.sink.log, runId), runId) == V.LocalHistoryValid <==> RunFits(s)
  {
    ReachableInv(init, steps, s);
    ReachableNet(init, steps, s);
    AcceptedIffLegal(s.sink.log, runId);
    FitIffLegal(s);
  }

  /** In-flight agreement: in a sealed run that lost no essential record, the permits with
      P < C < R in the log are those held when `cancel` took its sequence number, and their count
      is the one it recorded, whatever order the records were appended in. */
  lemma InFlightAgreement(init: State, steps: seq<Step>, s: State)
    requires Init(init) && Exec(init, steps) == Some(s) && s.sink.isSealed && s.broken == {}
    ensures s.run.cancellation.Some?
    ensures HeldSet(s.sink.log, s.run.cancellation.value.seqNo) == Held(s.run)
    ensures s.run.cancellation.value.inflight == |HeldSet(s.sink.log, s.run.cancellation.value.seqNo)|
  {
    ReachableInv(init, steps, s);
    ReachableNet(init, steps, s);
    HeldCounted(s);
  }
}
