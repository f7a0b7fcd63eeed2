/** What every step keeps about one handler: its durable story matches where it stands. */
module HandlerProofs {
  import opened Records
  import opened RunModel
  import opened History
  import opened Connections
  import opened Protocol

  /** A record of the story is the one this handler writes. */
  predicate RecOk(a: string, h: Handler, r: Rec) {
    match r
    case AuthCommitted(_, _, _, _, _, _, _, _, _, _, _, _, _) => r == AuthRec(a, h) && h.a > 0
    case PermitGranted(_, _, _, _, _, _) => r == PermitRec(a, h) && h.p > 0
    case EffectAttempted(_, _, _, _, _, _) => r == AttemptRec(a, h)
    case EffectCompleted(_, _, _, _, _, _, _) => r == CompletedRec(a, h) && IsHex64(h.responseHash)
    case EffectFailed(_, _, _, _, reason) => r == FailedRec(a, h, reason) && reason != ""
    case EffectCancelled(_, _, _, _, reason) => r == CancelledRec(a, h, reason) && reason != ""
    case EffectUnknown(_, _, _, _, reason, bytes) =>
      && r == UnknownRec(a, h, reason, bytes) && reason != ""
      && (bytes.Some? ==> bytes.value == h.streamed)
    case Allow(_, _, _, _, _, _, _, _, _, _, _, _, _, _, _, _, _) =>
      r == AllowRec(a, h) && IsHex64(h.responseHash)
    case PermitReleased(_, _, _, _, _) => r == ReleaseRec(a, h) && h.r > 0
    case ConnectionTerminated(_, _, _, _, _, _, reason) => r == TornRec(a, h, reason) && reason != ""
    case _ => false
  }

  // ---------------------------------------------------------------- shapes of stories

  predicate IsA(s: seq<Rec>) { |s| == 1 && s[0].AuthCommitted? }

  predicate StartsAP(s: seq<Rec>) { |s| >= 2 && s[0].AuthCommitted? && s[1].PermitGranted? }

  predicate IsAP(s: seq<Rec>) { |s| == 2 && StartsAP(s) }

  predicate StartsAPX(s: seq<Rec>) { |s| >= 3 && StartsAP(s) && s[2].EffectAttempted? }

  predicate IsAPX(s: seq<Rec>) { |s| == 3 && StartsAPX(s) }

  /** Everything is in the log but the release. */
  predicate Releasable(s: seq<Rec>) {
    StartsAP(s) &&
    (|| (|s| == 3 && Soft(s[2]))
     || (|s| == 4 && s[2].EffectAttempted? && s[3].EffectUnknown?)
     || (|s| == 5 && s[2].EffectAttempted? && Doubled(s))
     || (|s| == 5 && s[2].EffectAttempted? && s[3].EffectUnknown? && s[4].ConnectionTerminated? && TornFits(s))
     || (|s| == 5 && s[2].EffectAttempted? && s[3].EffectCompleted? && s[4].Allow?))
  }

  /** Something essential is missing, and the handler is past the point where it writes it. */
  predicate CutShort(s: seq<Rec>) {
    || IsAP(s) || IsAPX(s)
    || (|s| == 4 && StartsAPX(s) && (s[3].EffectCompleted? || s[3].Allow? || s[3].ConnectionTerminated?))
  }

  /** CONNECTION_TERMINATED only follows an UNKNOWN that says how many bytes were streamed. */
  predicate TornFits(s: seq<Rec>) {
    && (|s| > 4 && s[4].ConnectionTerminated? ==> s[3].EffectUnknown? && s[3].bytes.Some?)
    && (|s| > 5 ==> s[5].PermitReleased?)
  }

  /** The outcome was settled twice: the denial of the first settle raised where it is caught. */
  predicate Doubled(s: seq<Rec>) { |s| > 4 && s[3].EffectUnknown? && s[4].EffectUnknown? }

  predicate DoubledEnd(s: seq<Rec>) { |s| == 6 && StartsAPX(s) && Doubled(s) && s[5].PermitReleased? }

  /** What a handler that has released its permit, or never had one, leaves behind. */
  predicate LeftBehind(s: seq<Rec>, broken: bool) {
    if s == [] then !broken else if broken then !Complete(s) else (Complete(s) && TornFits(s)) || DoubledEnd(s)
  }

  /** Before AUTH has a sequence number. */
  predicate Early(pc: Pc) { pc in {Idle, Working, Registered, EpochRead, HealthSeen} }

  /** The connection is all that is left. */
  predicate Late(pc: Pc) { pc in {Leaving, Closing, Removed, Done} }

  /** Holding a permit in memory. */
  predicate Holding(pc: Pc) {
    pc in {PermitOwed, PermitLost, Pc.Permitted, Doomed, Cleared, Pc.Attempted, Connected, DenialOwed, ResettleOwed,
           TornOwed, AllowOwed, Unwinding}
  }

  predicate StoryShape(pc: Pc, s: seq<Rec>, broken: bool) {
    if Early(pc) || pc == AuthOwed then s == [] && !broken
    else if Late(pc) then LeftBehind(s, broken)
    else if pc == PermitLost then IsA(s) && broken
    else if pc in {Unwinding, ReleaseOwed} then if broken then CutShort(s) else Releasable(s)
    else if pc in {DenialOwed, ResettleOwed} then
      if broken then IsAPX(s) else |s| == 4 && StartsAPX(s) && s[3].EffectUnknown?
    else if pc == TornOwed then
      if broken then IsAPX(s) else |s| == 4 && StartsAPX(s) && s[3].EffectUnknown? && s[3].bytes.Some?
    else if pc == AllowOwed then
      if broken then IsAPX(s) else |s| == 4 && StartsAPX(s) && s[3].EffectCompleted?
    else if broken then false
    else if pc in {Pc.Authorized, Refused, Tracked, PermitOwed} then IsA(s)
    else if pc in {Pc.Permitted, Doomed, Cleared} then IsAP(s)
    else IsAPX(s)
  }

  predicate PcShape(h: Handler, broken: bool) {
    && (Early(h.pc) ==> h.a == 0) && (!Early(h.pc) && !Late(h.pc) ==> h.a > 0)
    && (Holding(h.pc) ==> h.p > 0 && h.r == 0)
    && (h.pc == ReleaseOwed ==> h.p > 0 && h.r > 0)
    && (!Holding(h.pc) && h.pc != ReleaseOwed ==> (h.p > 0 <==> h.r > 0))
    && (h.pc in {AuthOwed, Pc.Authorized, Refused, Tracked} || Early(h.pc) ==> h.p == 0)
    && (Late(h.pc) && !broken ==> (h.p > 0 <==> HasPermit(h.story)))
    && (h.pc == AllowOwed ==> IsHex64(h.responseHash))
    && StoryShape(h.pc, h.story, broken)
  }

  /** The invariant of one handler. */
  predicate HandlerInv(run: Run, a: string, h: Handler, broken: bool) {
    && h.a == Num(run, AuthEv(a)) && h.p == Num(run, PermitEv(a)) && h.r == Num(run, ReleaseEv(a))
    && (forall i | 0 <= i < |h.story| :: RecOk(a, h, h.story[i]))
    && PcShape(h, broken)
    && (h.a > 0 ==> h.epoch == 0)
    && (h.effect ==> StartsAPX(h.story))
  }

  /** A run changed at most in what concerns attempt a. */
  ghost predicate OnlyAbout(run: Run, w: Run, a: string) {
    && RunInv(w) && SameRest(run, w) && NumbersStay(run, w)
    && (forall b: string | b != a :: SameAttempt(run, w, b))
  }

  predicate SameAttempt(run: Run, w: Run, b: string) {
    && Num(w, AuthEv(b)) == Num(run, AuthEv(b)) && Num(w, PermitEv(b)) == Num(run, PermitEv(b))
    && Num(w, ReleaseEv(b)) == Num(run, ReleaseEv(b))
    && (b in w.inflight <==> b in run.inflight) && (b in w.permitted <==> b in run.permitted)
  }

  function EventOf(r: Rec): Event
    requires OwnsSeq(r)
  {
    if r.AuthCommitted? then AuthEv(r.aid) else if r.PermitGranted? then PermitEv(r.aid)
    else if r.PermitReleased? then ReleaseEv(r.aid) else CancelEv
  }

  /** The story with the record of this move, if the append went through. */
  function StoryAfter(s: State, m: Move): seq<Rec> {
    if m.rec.Some? && s.sink.Accepts(m.io) && IsStoryRec(m.rec.value) then m.h.story + [m.rec.value] else m.h.story
  }

  /** A record that takes a sequence number has not been told before, and carries the number of
      its own event. */
  predicate FreshlyOwned(run: Run, a: string, story: seq<Rec>, r: Rec) {
    && IsStoryRec(r) && AidOf(r) == a
    && (OwnsSeq(r) ==>
      && SeqOf(r) == Num(run, EventOf(r)) > 0
      && forall i | 0 <= i < |story| && OwnsSeq(story[i]) :: EventOf(story[i]) != EventOf(r))
  }

  predicate DenialOk(h: Handler, r: Rec) {
    && r.Blocked? && r.reason != ""
    && (r.blockedPin.Some? ==> h.story != [] && r.blockedPin.value == h.req.pin)
  }

  predicate MoveOk(s: State, a: string, h: Handler, broken: bool, m: Move) {
    && m.h.req == h.req && m.h.story == h.story
    && HandlerInv(m.run, a, m.h.(story := StoryAfter(s, m)), m.After(broken))
    && (m.rec.Some? ==> Producing(h) && m.run == s.run)
    && (m.rec.Some? && IsStoryRec(m.rec.value) ==> FreshlyOwned(m.run, a, h.story, m.rec.value))
    && (m.rec.Some? && m.rec.value.AuthCommitted? ==> Num(s.run, PermitEv(a)) == 0)
    && (m.rec.Some? && !IsStoryRec(m.rec.value) ==> DenialOk(h, m.rec.value))
    && (s.run.cancelled ==> Num(m.run, PermitEv(a)) == Num(s.run, PermitEv(a)))
    && (Producing(m.h) <==> Producing(h))
  }

  /** What a handler step starts from. */
  predicate Holds(s: State, a: string, h: Handler, broken: bool) {
    Ordered(s.run) && AttemptInv(s.run, a) && HandlerInv(s.run, a, h, broken)
  }

  // ---------------------------------------------------------------- the run side of a step

  /** Numbers, once given, stay. */
  ghost predicate NumbersStay(run: Run, w: Run) {
    forall e: Event | Num(run, e) > 0 :: Num(w, e) == Num(run, e)
  }

  predicate SameRest(run: Run, w: Run) {
    && w.cancelled == run.cancelled && w.cancellation == run.cancellation && w.epoch == run.epoch
    && Num(w, CancelEv) == Num(run, CancelEv)
  }

  lemma AboutAuthorize(run: Run, a: string, e: nat)
    requires AttemptInv(run, a)
    ensures var w := run.Authorize(a, e).0;
            && SameRest(run, w) && NumbersStay(run, w)
            && forall b: string | b != a :: SameAttempt(run, w, b)
  {
  }

  lemma AboutPermit(run: Run, a: string, e: nat, terminal: bool)
    requires AttemptInv(run, a)
    ensures var w := run.IssuePermit(a, e, terminal).0;
            && SameRest(run, w) && NumbersStay(run, w)
            && forall b: string | b != a :: SameAttempt(run, w, b)
  {
  }

  lemma AboutRelease(run: Run, a: string)
    requires AttemptInv(run, a)
    ensures var w := run.DoRelease(a).0;
            && SameRest(run, w) && NumbersStay(run, w)
            && forall b: string | b != a :: SameAttempt(run, w, b)
  {
  }

  /** The steps that take the run's lock. */
  predicate TakesRun(step: Step) { step.Authorize? || step.IssuePermit? || step.Abandon? || step.ReleasePermit? }

  lemma QuietRun(s: State, step: Step, a: string, h: Handler, m: Move)
    requires HandlerMove(s, step, a, h) == Some(m) && !TakesRun(step)
    ensures m.run == s.run
  {
  }

  lemma MoveRunIs(s: State, step: Step, a: string, h: Handler, m: Move)
    requires HandlerMove(s, step, a, h) == Some(m)
    ensures || m.run == s.run || m.run == s.run.Authorize(a, h.epoch).0 || m.run == s.run.DoRelease(a).0
            || m.run == s.run.IssuePermit(a, h.epoch, s.net.Terminal(h.req.conn)).0
  {
    if !TakesRun(step) {
      QuietRun(s, step, a, h, m);
    }
  }

  lemma MoveRun(s: State, step: Step, a: string, h: Handler, m: Move)
    requires RunInv(s.run) && HandlerMove(s, step, a, h) == Some(m)
    ensures OnlyAbout(s.run, m.run, a)
  {
    var terminal := s.net.Terminal(h.req.conn);
    MoveRunIs(s, step, a, h, m);
    assert AttemptInv(s.run, a);
    if m.run == s.run.Authorize(a, h.epoch).0 {
      AuthorizeInv(s.run, a, h.epoch);
      AboutAuthorize(s.run, a, h.epoch);
    } else if m.run == s.run.DoRelease(a).0 {
      ReleaseInv(s.run, a);
      AboutRelease(s.run, a);
    } else if m.run == s.run.IssuePermit(a, h.epoch, terminal).0 {
      IssuePermitInv(s.run, a, h.epoch, terminal);
      AboutPermit(s.run, a, h.epoch, terminal);
    }
  }

  // ---------------------------------------------------------------- steps that number an event

  lemma AuthorizeMove(s: State, a: string, h: Handler, broken: bool, m: Move)
    requires Holds(s, a, h, broken) && HandlerMove(s, Step.Authorize(a), a, h) == Some(m)
    ensures MoveOk(s, a, h, broken, m)
  {
    assert forall i | 0 <= i < |h.story| :: RecOk(a, h, h.story[i]);
  }

  /** A permit that is granted leaves AUTH's number and the missing release as they are. */
  lemma PermitNumbers(run: Run, a: string, e: nat, terminal: bool)
    requires Ordered(run) && AttemptInv(run, a) && run.IssuePermit(a, e, terminal).1.Some?
    ensures var w := run.IssuePermit(a, e, terminal).0;
            && Num(w, AuthEv(a)) == Num(run, AuthEv(a)) && Num(w, ReleaseEv(a)) == Num(run, ReleaseEv(a)) == 0
            && Num(w, PermitEv(a)) == run.IssuePermit(a, e, terminal).1.value == run.seqNo + 1
            && Num(run, PermitEv(a)) == 0 && !run.cancelled
  {
  }

  /** A move that appends nothing is in order if it keeps the invariant of its handler. */
  lemma SilentMove(s: State, a: string, h: Handler, broken: bool, m: Move)
    requires m.rec == None && m.h.req == h.req && m.h.story == h.story && (Producing(m.h) <==> Producing(h))
    requires HandlerInv(m.run, a, m.h, m.After(broken))
    requires s.run.cancelled ==> Num(m.run, PermitEv(a)) == Num(s.run, PermitEv(a))
    ensures MoveOk(s, a, h, broken, m)
  {
  }

  lemma PermitOwedInv(run: Run, w: Run, a: string, h: Handler, broken: bool, n: nat)
    requires HandlerInv(run, a, h, broken) && h.pc == Tracked && n > 0
    requires Num(w, AuthEv(a)) == Num(run, AuthEv(a)) && Num(w, ReleaseEv(a)) == 0 && Num(w, PermitEv(a)) == n
    ensures HandlerInv(w, a, h.(pc := PermitOwed, p := n), broken)
  {
    assert IsA(h.story) && RecOk(a, h, h.story[0]);
  }

  lemma PermitKeeps(s: State, a: string, h: Handler, broken: bool, m: Move)
    requires Holds(s, a, h, broken) && HandlerMove(s, Step.IssuePermit(a), a, h) == Some(m)
    ensures HandlerInv(m.run, a, m.h, broken)
    ensures s.run.cancelled ==> Num(m.run, PermitEv(a)) == Num(s.run, PermitEv(a))
  {
    if m.h.pc == PermitOwed {
      PermitNumbers(s.run, a, h.epoch, s.net.Terminal(h.req.conn));
      PermitOwedInv(s.run, m.run, a, h, broken, m.h.p);
    } else {
      PermitRefused(s, a, h, m);
      InvKept(m.run, a, h, m.h, broken, broken);
    }
  }

  lemma IssuePermitMove(s: State, a: string, h: Handler, broken: bool, m: Move)
    requires Holds(s, a, h, broken) && HandlerMove(s, Step.IssuePermit(a), a, h) == Some(m)
    ensures MoveOk(s, a, h, broken, m)
  {
    PermitKeeps(s, a, h, broken, m);
    SilentMove(s, a, h, broken, m);
  }

  lemma PermitRefused(s: State, a: string, h: Handler, m: Move)
    requires HandlerMove(s, Step.IssuePermit(a), a, h) == Some(m) && m.h.pc != PermitOwed
    ensures m == Move(s.run, h.(pc := Refused), None, Durable, NoFault)
  {
  }

  lemma RecsAfterRelease(a: string, h: Handler, g: Handler, story: seq<Rec>)
    requires forall i | 0 <= i < |story| :: RecOk(a, h, story[i])
    requires h.r == 0 && g.req == h.req && g.epoch == h.epoch && g.a == h.a && g.p == h.p
    requires g.status == h.status && g.responseHash == h.responseHash && g.streamed == h.streamed
    ensures forall i | 0 <= i < |story| :: RecOk(a, g, story[i])
  {
  }

  lemma ReleaseNumbers(run: Run, a: string)
    requires Ordered(run) && AttemptInv(run, a) && Num(run, PermitEv(a)) > 0 && Num(run, ReleaseEv(a)) == 0
    ensures run.DoRelease(a).1.Some?
    ensures var w := run.DoRelease(a).0;
            && Num(w, AuthEv(a)) == Num(run, AuthEv(a)) && Num(w, PermitEv(a)) == Num(run, PermitEv(a))
            && Num(w, ReleaseEv(a)) == run.DoRelease(a).1.value.seqNo > 0
  {
  }

  lemma ReleasedInv(run: Run, w: Run, a: string, h: Handler, g: Handler, broken: bool)
    requires HandlerInv(run, a, h, broken) && h.r == 0 && g == h.(pc := g.pc, r := g.r) && g.r > 0
    requires Num(w, AuthEv(a)) == h.a && Num(w, PermitEv(a)) == h.p && Num(w, ReleaseEv(a)) == g.r
    requires (h.pc == PermitLost && g.pc == Leaving) || (h.pc == Unwinding && g.pc == ReleaseOwed)
    ensures HandlerInv(w, a, g, broken)
  {
    RecsAfterRelease(a, h, g, h.story);
    assert IsA(h.story) ==> !Complete(h.story);
  }

  lemma ReleasesOk(s: State, a: string, h: Handler, broken: bool, next: Pc)
    requires Holds(s, a, h, broken) && h.p > 0 && h.r == 0
    requires (h.pc == PermitLost && next == Leaving) || (h.pc == Unwinding && next == ReleaseOwed)
    ensures MoveOk(s, a, h, broken, Releases(s, a, h, next))
  {
    var m := Releases(s, a, h, next);
    ReleaseNumbers(s.run, a);
    ReleasedInv(s.run, m.run, a, h, m.h, broken);
    SilentMove(s, a, h, broken, m);
  }

  lemma ReleaseMove(s: State, a: string, h: Handler, broken: bool, step: Step, m: Move)
    requires Holds(s, a, h, broken) && HandlerMove(s, step, a, h) == Some(m)
    requires step.Abandon? || step.ReleasePermit?
    ensures MoveOk(s, a, h, broken, m)
  {
    ReleasesOk(s, a, h, broken, if step.Abandon? then Leaving else ReleaseOwed);
  }

  // ---------------------------------------------------------------- steps that only move on

  /** A handler that moved on without writing keeps its invariant if it keeps its shape. */
  lemma InvKept(run: Run, a: string, h: Handler, g: Handler, broken: bool, broken': bool)
    requires HandlerInv(run, a, h, broken) && RecsSame(a, h, g) && g.story == h.story
    requires (g.effect ==> StartsAPX(g.story)) && PcShape(g, broken')
    ensures HandlerInv(run, a, g, broken')
  {
    RecsKept(a, h, g, h.story);
  }

  lemma EarlyMove(s: State, a: string, h: Handler, broken: bool, step: Step, m: Move)
    requires Holds(s, a, h, broken) && HandlerMove(s, step, a, h) == Some(m)
    requires step.GiveUp? || step.ReadEpoch? || step.CheckHealth?
    ensures MoveOk(s, a, h, broken, m)
  {
  }

  lemma EscapeShape(h: Handler, broken: bool)
    requires PcShape(h, broken)
    ensures h.pc == Pc.Authorized ==> PcShape(h.(pc := Leaving), true)
    ensures h.pc == Connected ==> PcShape(h.(pc := Unwinding), true)
  {
    assert IsA(h.story) ==> !Complete(h.story);
  }

  lemma EscapeMove(s: State, a: string, h: Handler, broken: bool, step: Step, m: Move)
    requires Holds(s, a, h, broken) && HandlerMove(s, step, a, h) == Some(m) && step.Escape?
    ensures MoveOk(s, a, h, broken, m)
  {
    EscapeShape(h, broken);
    InvKept(s.run, a, h, m.h, broken, true);
    SilentMove(s, a, h, broken, m);
  }

  lemma CheckMove(s: State, a: string, h: Handler, broken: bool, step: Step, m: Move)
    requires Holds(s, a, h, broken) && HandlerMove(s, step, a, h) == Some(m) && step.CheckTerminal?
    ensures MoveOk(s, a, h, broken, m)
  {
    InvKept(m.run, a, h, m.h, broken, broken);
  }

  lemma ConnectMove(s: State, a: string, h: Handler, broken: bool, step: Step, m: Move)
    requires Holds(s, a, h, broken) && HandlerMove(s, step, a, h) == Some(m) && step.Connect?
    ensures MoveOk(s, a, h, broken, m)
  {
    assert m == Move(s.run, h.(effect := true, pc := Connected), None, Durable, NoFault);
    InvKept(m.run, a, h, m.h, broken, broken);
    SilentMove(s, a, h, broken, m);
  }

  predicate RecsSame(a: string, h: Handler, g: Handler) {
    && g.req == h.req && g.epoch == h.epoch && g.a == h.a && g.p == h.p && g.r == h.r
    && g.status == h.status && g.responseHash == h.responseHash && g.streamed == h.streamed
  }

  // ---------------------------------------------------------------- appends

  /** A handler whose log-relevant fields stay as they are keeps telling the truth. */
  lemma RecsKept(a: string, h: Handler, g: Handler, story: seq<Rec>)
    requires (forall i | 0 <= i < |story| :: RecOk(a, h, story[i])) && RecsSame(a, h, g)
    ensures forall i | 0 <= i < |story| :: RecOk(a, g, story[i])
  {
  }

  lemma DenyMove(s: State, a: string, h: Handler, broken: bool, step: Step, m: Move)
    requires Holds(s, a, h, broken) && step.Deny? && HandlerMove(s, step, a, h) == Some(m)
    ensures MoveOk(s, a, h, broken, m)
  {
    DenyIs(s, a, h, step, m);
    DeniedMove(s, a, h, broken, m);
  }

  /** Everything the invariant says of a handler but its shape. */
  predicate Truthful(run: Run, a: string, g: Handler) {
    && g.a == Num(run, AuthEv(a)) && g.p == Num(run, PermitEv(a)) && g.r == Num(run, ReleaseEv(a))
    && (forall i | 0 <= i < |g.story| :: RecOk(a, g, g.story[i]))
    && (g.a > 0 ==> g.epoch == 0) && (g.effect ==> StartsAPX(g.story))
  }

  /** A handler may append a true record of its own. */
  predicate MayAppend(s: State, a: string, h: Handler, g: Handler, r: Rec) {
    && Producing(h) && g.req == h.req && g.story == h.story && Truthful(s.run, a, g)
    && RecOk(a, g, r) && FreshlyOwned(s.run, a, g.story, r) && (r.AuthCommitted? ==> g.p == 0)
    && (s.run.cancelled ==> Num(s.run, PermitEv(a)) == g.p)
  }

  lemma InvTold(run: Run, a: string, g: Handler, r: Rec, broken: bool, pc: Pc)
    requires Truthful(run, a, g) && RecOk(a, g, r) && PcShape(g.(pc := pc, story := g.story + [r]), broken)
    ensures HandlerInv(run, a, g.(pc := pc, story := g.story + [r]), broken)
  {
    var told := g.(pc := pc, story := g.story + [r]);
    assert forall i | 0 <= i < |told.story| :: RecOk(a, g, told.story[i]);
    RecsKept(a, g, told, told.story);
  }

  lemma InvLost(run: Run, a: string, g: Handler, broken: bool, pc: Pc)
    requires Truthful(run, a, g) && PcShape(g.(pc := pc), broken)
    ensures HandlerInv(run, a, g.(pc := pc), broken)
  {
    RecsKept(a, g, g.(pc := pc), g.story);
  }

  lemma AppendedMove(s: State, a: string, h: Handler, g: Handler, broken: bool, r: Rec, m: Move)
    requires MayAppend(s, a, h, g, r) && m.rec == Some(r) && m.run == s.run
    requires m.h == g.(pc := m.h.pc) && m.h.pc != Done && m.h.pc != Idle
    requires HandlerInv(m.run, a, m.h.(story := StoryAfter(s, m)), m.After(broken))
    ensures MoveOk(s, a, h, broken, m)
  {
  }

  /** An append of a true record is in order if both continuations have the right shape. */
  lemma AppendOk(s: State, a: string, h: Handler, g: Handler, broken: bool, r: Rec, io: Io, good: Pc,
                 bad: Pc, essential: bool)
    requires MayAppend(s, a, h, g, r)
    requires PcShape(g.(pc := good, story := g.story + [r]), broken)
    requires PcShape(g.(pc := bad), broken || essential)
    requires good != Done && bad != Done && good != Idle && bad != Idle
    ensures MoveOk(s, a, h, broken, Appends(s, g, r, io, good, bad, essential).value)
  {
    if s.sink.Accepts(io) {
      InvTold(s.run, a, g, r, broken, good);
    } else {
      InvLost(s.run, a, g, broken || essential, bad);
    }
    AppendedMove(s, a, h, g, broken, r, Appends(s, g, r, io, good, bad, essential).value);
  }

  lemma AuthAppend(s: State, a: string, h: Handler, broken: bool, io: Io)
    requires Holds(s, a, h, broken) && h.pc == AuthOwed
    ensures MoveOk(s, a, h, broken, Appends(s, h, AuthRec(a, h), io, Pc.Authorized, Leaving, false).value)
  {
    AppendOk(s, a, h, h, broken, AuthRec(a, h), io, Pc.Authorized, Leaving, false);
  }

  lemma BareSettle(s: State, a: string, h: Handler, broken: bool, r: Rec, io: Io)
    requires Holds(s, a, h, broken) && h.pc in {Pc.Authorized, Refused}
    requires Soft(r) && r.aid == a && RecOk(a, h, r)
    ensures MoveOk(s, a, h, broken, Settles(s, h, r, io, Leaving).value)
  {
    assert Complete(h.story + [r]) && !Complete(h.story);
    AppendOk(s, a, h, h, broken, r, io, Leaving, Leaving, true);
  }

  lemma PermitAppend(s: State, a: string, h: Handler, broken: bool, io: Io)
    requires Holds(s, a, h, broken) && h.pc == PermitOwed
    ensures MoveOk(s, a, h, broken, Appends(s, h, PermitRec(a, h), io, Pc.Permitted, PermitLost, true).value)
  {
    AppendOk(s, a, h, h, broken, PermitRec(a, h), io, Pc.Permitted, PermitLost, true);
  }

  lemma DoomedSettle(s: State, a: string, h: Handler, broken: bool, reason: string, io: Io)
    requires Holds(s, a, h, broken) && h.pc == Doomed && reason != ""
    ensures MoveOk(s, a, h, broken, Settles(s, h, CancelledRec(a, h, reason), io, Unwinding).value)
  {
    AppendOk(s, a, h, h, broken, CancelledRec(a, h, reason), io, Unwinding, Unwinding, true);
  }

  lemma AttemptAppend(s: State, a: string, h: Handler, broken: bool, io: Io)
    requires Holds(s, a, h, broken) && h.pc == Cleared
    ensures MoveOk(s, a, h, broken, Appends(s, h, AttemptRec(a, h), io, Pc.Attempted, Unwinding, true).value)
  {
    AttemptShapes(h, broken, AttemptRec(a, h));
    AppendOk(s, a, h, h, broken, AttemptRec(a, h), io, Pc.Attempted, Unwinding, true);
  }

  lemma AttemptShapes(h: Handler, broken: bool, r: Rec)
    requires PcShape(h, broken) && h.pc == Cleared && r.EffectAttempted?
    ensures PcShape(h.(pc := Pc.Attempted, story := h.story + [r]), broken) && PcShape(h.(pc := Unwinding), true)
  {
  }

  lemma RecsAPX(a: string, h: Handler, g: Handler)
    requires IsAPX(h.story) && forall i | 0 <= i < |h.story| :: RecOk(a, h, h.story[i])
    requires g.req == h.req && g.epoch == h.epoch && g.a == h.a && g.p == h.p && g.r == h.r
    ensures forall i | 0 <= i < |h.story| :: RecOk(a, g, h.story[i])
  {
    assert RecOk(a, h, h.story[0]) && RecOk(a, h, h.story[1]) && RecOk(a, h, h.story[2]);
  }

  predicate OutcomeFits(r: Rec, next: Pc) {
    || ((next == Unwinding || next == DenialOwed) && r.EffectUnknown?)
    || (next == TornOwed && r.EffectUnknown? && r.bytes.Some?)
    || (next == AllowOwed && r.EffectCompleted?)
  }

  lemma OutcomeShapes(s: seq<Rec>, r: Rec, next: Pc)
    requires IsAPX(s) && OutcomeFits(r, next)
    ensures StoryShape(next, s + [r], false) && StoryShape(next, s, true)
  {
  }

  lemma MaySettle(s: State, a: string, h: Handler, g: Handler, broken: bool, r: Rec)
    requires Holds(s, a, h, broken) && h.pc == Connected && RecOk(a, g, r)
    requires g == h.(status := g.status, responseHash := g.responseHash, streamed := g.streamed)
    requires r.EffectUnknown? || r.EffectCompleted?
    ensures MayAppend(s, a, h, g, r) && IsAPX(g.story)
  {
    RecsAPX(a, h, g);
  }

  lemma OutcomeSettle(s: State, a: string, h: Handler, g: Handler, broken: bool, r: Rec, io: Io, next: Pc)
    requires Holds(s, a, h, broken) && h.pc == Connected
    requires g == h.(status := g.status, responseHash := g.responseHash, streamed := g.streamed)
    requires OutcomeFits(r, next) && r.aid == a && RecOk(a, g, r)
    ensures MoveOk(s, a, h, broken, Settles(s, g, r, io, next).value)
  {
    MaySettle(s, a, h, g, broken, r);
    OutcomeShapes(h.story, r, next);
    AppendOk(s, a, h, g, broken, r, io, next, next, true);
  }

  lemma TornAppend(s: State, a: string, h: Handler, broken: bool, reason: string, io: Io)
    requires Holds(s, a, h, broken) && h.pc == TornOwed && reason != ""
    ensures MoveOk(s, a, h, broken, Appends(s, h, TornRec(a, h, reason), io, Unwinding, Unwinding, false).value)
  {
    TornShapes(h, broken, TornRec(a, h, reason));
    AppendOk(s, a, h, h, broken, TornRec(a, h, reason), io, Unwinding, Unwinding, false);
  }

  lemma TornShapes(h: Handler, broken: bool, r: Rec)
    requires PcShape(h, broken) && h.pc == TornOwed && r.ConnectionTerminated?
    ensures PcShape(h.(pc := Unwinding, story := h.story + [r]), broken) && PcShape(h.(pc := Unwinding), broken)
  {
  }

  lemma AllowAppend(s: State, a: string, h: Handler, broken: bool, io: Io)
    requires Holds(s, a, h, broken) && h.pc == AllowOwed
    ensures MoveOk(s, a, h, broken, Appends(s, h, AllowRec(a, h), io, Unwinding, Unwinding, true).value)
  {
    AppendOk(s, a, h, h, broken, AllowRec(a, h), io, Unwinding, Unwinding, true);
  }

  lemma ReleasedStory(story: seq<Rec>, r: Rec, broken: bool)
    requires r.PermitReleased? && if broken then CutShort(story) else Releasable(story)
    ensures LeftBehind(story + [r], broken)
    ensures !Complete(story)
    ensures forall i | 0 <= i < |story| :: !story[i].PermitReleased?
  {
    ViableAppend(story, r);
  }

  lemma ViableAppend(s: seq<Rec>, r: Rec)
    ensures forall i | 0 <= i < |s| :: (s + [r])[i] == s[i]
    ensures (s + [r])[|s|] == r
  {
  }

  lemma ReleaseAppend(s: State, a: string, h: Handler, broken: bool, io: Io)
    requires Holds(s, a, h, broken) && h.pc == ReleaseOwed
    ensures MoveOk(s, a, h, broken, Appends(s, h, ReleaseRec(a, h), io, Leaving, Leaving, true).value)
  {
    ReleasedStory(h.story, ReleaseRec(a, h), broken);
    AppendOk(s, a, h, h, broken, ReleaseRec(a, h), io, Leaving, Leaving, true);
  }

  // ---------------------------------------------------------------- every handler step

  lemma AuthMove(s: State, a: string, h: Handler, broken: bool, step: Step, m: Move)
    requires Holds(s, a, h, broken) && step.AppendAuth? && HandlerMove(s, step, a, h) == Some(m)
    ensures MoveOk(s, a, h, broken, m)
  {
    AuthAppend(s, a, h, broken, step.io);
  }

  lemma RecheckMove(s: State, a: string, h: Handler, broken: bool, step: Step, m: Move)
    requires Holds(s, a, h, broken) && step.RecheckFails? && HandlerMove(s, step, a, h) == Some(m)
    ensures MoveOk(s, a, h, broken, m)
  {
    BareSettle(s, a, h, broken, FailedRec(a, h, step.reason), step.io);
  }

  lemma RefusedMove(s: State, a: string, h: Handler, broken: bool, step: Step, m: Move)
    requires Holds(s, a, h, broken) && step.SettleRefused? && HandlerMove(s, step, a, h) == Some(m)
    ensures MoveOk(s, a, h, broken, m)
  {
    BareSettle(s, a, h, broken, CancelledRec(a, h, step.reason), step.io);
  }

  lemma PermitMove(s: State, a: string, h: Handler, broken: bool, step: Step, m: Move)
    requires Holds(s, a, h, broken) && step.AppendPermit? && HandlerMove(s, step, a, h) == Some(m)
    ensures MoveOk(s, a, h, broken, m)
  {
    PermitAppend(s, a, h, broken, step.io);
  }

  lemma DoomedMove(s: State, a: string, h: Handler, broken: bool, step: Step, m: Move)
    requires Holds(s, a, h, broken) && step.SettleDoomed? && HandlerMove(s, step, a, h) == Some(m)
    ensures MoveOk(s, a, h, broken, m)
  {
    DoomedSettle(s, a, h, broken, step.reason, step.io);
  }

  lemma AttemptedMove(s: State, a: string, h: Handler, broken: bool, step: Step, m: Move)
    requires Holds(s, a, h, broken) && step.AppendAttempted? && HandlerMove(s, step, a, h) == Some(m)
    ensures MoveOk(s, a, h, broken, m)
  {
    AttemptAppend(s, a, h, broken, step.io);
  }

  lemma TerminalMove(s: State, a: string, h: Handler, broken: bool, step: Step, m: Move)
    requires Holds(s, a, h, broken) && step.SettleTerminal? && HandlerMove(s, step, a, h) == Some(m)
    ensures MoveOk(s, a, h, broken, m)
  {
    OutcomeSettle(s, a, h, h, broken, UnknownRec(a, h, "TERMINAL_DURING_TLS", None), step.io, DenialOwed);
  }

  lemma DenialShapes(h: Handler, broken: bool)
    requires PcShape(h, broken) && h.pc == DenialOwed
    ensures PcShape(h.(pc := Unwinding), broken) && PcShape(h.(pc := ResettleOwed), broken)
  {
  }

  /** What the two kinds of denial do. */
  lemma DenyTerminalIs(s: State, a: string, h: Handler, step: Step, m: Move)
    requires step.DenyTerminal? && HandlerMove(s, step, a, h) == Some(m)
    ensures h.pc == DenialOwed && m.rec.Some? && DenialOk(h, m.rec.value) && m.run == s.run && m.fault == NoFault
    ensures m.h == h.(pc := m.h.pc) && (m.h.pc == Unwinding || m.h.pc == ResettleOwed)
  {
  }

  lemma DenyIs(s: State, a: string, h: Handler, step: Step, m: Move)
    requires step.Deny? && HandlerMove(s, step, a, h) == Some(m)
    ensures Producing(h) && m.rec.Some? && DenialOk(h, m.rec.value) && m.run == s.run && m.fault == NoFault && m.h == h
  {
  }

  lemma DeniedMove(s: State, a: string, h: Handler, broken: bool, m: Move)
    requires m.rec.Some? && DenialOk(h, m.rec.value) && m.run == s.run && m.fault == NoFault
    requires m.h == h.(pc := m.h.pc) && Producing(h) && Producing(m.h) && HandlerInv(s.run, a, m.h, broken)
    ensures MoveOk(s, a, h, broken, m)
  {
  }

  /** The denial leads on to the release, or back to a second settle. */
  lemma DenyTerminalMove(s: State, a: string, h: Handler, broken: bool, step: Step, m: Move)
    requires Holds(s, a, h, broken) && step.DenyTerminal? && HandlerMove(s, step, a, h) == Some(m)
    ensures MoveOk(s, a, h, broken, m)
  {
    DenyTerminalIs(s, a, h, step, m);
    DenialShapes(h, broken);
    InvKept(s.run, a, h, m.h, broken, broken);
    DeniedMove(s, a, h, broken, m);
  }

  lemma MayResettle(s: State, a: string, h: Handler, broken: bool, reason: string)
    requires Holds(s, a, h, broken) && h.pc == ResettleOwed && reason != ""
    ensures MayAppend(s, a, h, h, UnknownRec(a, h, reason, None))
  {
  }

  /** Whatever the first settle did, the second leaves something to release. */
  lemma ResettleShapes(h: Handler, r: Rec, broken: bool)
    requires PcShape(h, broken) && h.pc == ResettleOwed && r.EffectUnknown?
    ensures PcShape(h.(pc := Unwinding, story := h.story + [r]), false)
    ensures PcShape(h.(pc := Unwinding), broken)
  {
  }

  lemma SettleAgainMove(s: State, a: string, h: Handler, broken: bool, step: Step, m: Move)
    requires Holds(s, a, h, broken) && step.SettleAgain? && HandlerMove(s, step, a, h) == Some(m)
    ensures MoveOk(s, a, h, broken, m)
  {
    var r := UnknownRec(a, h, step.reason, None);
    MayResettle(s, a, h, broken, step.reason);
    ResettleShapes(h, r, broken);
    if s.sink.Accepts(step.io) {
      InvTold(s.run, a, h, r, false, Unwinding);
    } else {
      InvLost(s.run, a, h, broken, Unwinding);
    }
    AppendedMove(s, a, h, h, broken, r, m);
  }

  lemma UnknownMove(s: State, a: string, h: Handler, broken: bool, step: Step, m: Move)
    requires Holds(s, a, h, broken) && step.SettleUnknown? && HandlerMove(s, step, a, h) == Some(m)
    ensures MoveOk(s, a, h, broken, m)
  {
    OutcomeSettle(s, a, h, h, broken, UnknownRec(a, h, step.reason, None), step.io, Unwinding);
  }

  lemma StreamLostMove(s: State, a: string, h: Handler, broken: bool, step: Step, m: Move)
    requires Holds(s, a, h, broken) && step.SettleStreamLost? && HandlerMove(s, step, a, h) == Some(m)
    ensures MoveOk(s, a, h, broken, m)
  {
    OutcomeSettle(s, a, h, h.(streamed := step.bytes), broken, UnknownRec(a, h, step.reason, Some(step.bytes)), step.io, TornOwed);
  }

  lemma CompletedMove(s: State, a: string, h: Handler, broken: bool, step: Step, m: Move)
    requires Holds(s, a, h, broken) && step.SettleCompleted? && HandlerMove(s, step, a, h) == Some(m)
    ensures MoveOk(s, a, h, broken, m)
  {
    var g := h.(status := step.status, responseHash := step.responseHash, streamed := step.bytes);
    OutcomeSettle(s, a, h, g, broken, CompletedRec(a, g), step.io, AllowOwed);
  }

  lemma TornMove(s: State, a: string, h: Handler, broken: bool, step: Step, m: Move)
    requires Holds(s, a, h, broken) && step.AppendTorn? && HandlerMove(s, step, a, h) == Some(m)
    ensures MoveOk(s, a, h, broken, m)
  {
    TornAppend(s, a, h, broken, step.reason, step.io);
  }

  lemma AllowMove(s: State, a: string, h: Handler, broken: bool, step: Step, m: Move)
    requires Holds(s, a, h, broken) && step.AppendAllow? && HandlerMove(s, step, a, h) == Some(m)
    ensures MoveOk(s, a, h, broken, m)
  {
    AllowAppend(s, a, h, broken, step.io);
  }

  lemma ReleasedMove(s: State, a: string, h: Handler, broken: bool, step: Step, m: Move)
    requires Holds(s, a, h, broken) && step.AppendRelease? && HandlerMove(s, step, a, h) == Some(m)
    ensures MoveOk(s, a, h, broken, m)
  {
    ReleaseAppend(s, a, h, broken, step.io);
  }

  /** Every step of a handler keeps its invariant. */
  lemma HandlerStepOk(s: State, a: string, h: Handler, broken: bool, step: Step, m: Move)
    requires Holds(s, a, h, broken) && Actor(step) == Some(a) && HandlerMove(s, step, a, h) == Some(m)
    ensures MoveOk(s, a, h, broken, m)
  {
    if step.Authorize? {
      AuthorizeMove(s, a, h, broken, m);
    } else if step.IssuePermit? {
      IssuePermitMove(s, a, h, broken, m);
    } else if step.Abandon? || step.ReleasePermit? {
      ReleaseMove(s, a, h, broken, step, m);
    } else if step.Deny? {
      DenyMove(s, a, h, broken, step, m);
    } else if step.AppendAuth? {
      AuthMove(s, a, h, broken, step, m);
    } else if step.RecheckFails? {
      RecheckMove(s, a, h, broken, step, m);
    } else if step.SettleRefused? {
      RefusedMove(s, a, h, broken, step, m);
    } else if step.AppendPermit? {
      PermitMove(s, a, h, broken, step, m);
    } else if step.SettleDoomed? {
      DoomedMove(s, a, h, broken, step, m);
    } else if step.AppendAttempted? {
      AttemptedMove(s, a, h, broken, step, m);
    } else if step.SettleTerminal? {
      TerminalMove(s, a, h, broken, step, m);
    } else if step.DenyTerminal? {
      DenyTerminalMove(s, a, h, broken, step, m);
    } else if step.SettleAgain? {
      SettleAgainMove(s, a, h, broken, step, m);
    } else if step.SettleUnknown? {
      UnknownMove(s, a, h, broken, step, m);
    } else if step.SettleStreamLost? {
      StreamLostMove(s, a, h, broken, step, m);
    } else if step.SettleCompleted? {
      CompletedMove(s, a, h, broken, step, m);
    } else if step.AppendTorn? {
      TornMove(s, a, h, broken, step, m);
    } else if step.AppendAllow? {
      AllowMove(s, a, h, broken, step, m);
    } else if step.AppendRelease? {
      ReleasedMove(s, a, h, broken, step, m);
    } else if step.GiveUp? || step.ReadEpoch? || step.CheckHealth? {
      EarlyMove(s, a, h, broken, step, m);
    } else if step.Escape? {
      EscapeMove(s, a, h, broken, step, m);
    } else if step.CheckTerminal? {
      CheckMove(s, a, h, broken, step, m);
    } else {
      ConnectMove(s, a, h, broken, step, m);
    }
  }
}
