/** The permit and cancellation authority of a run, as a value.

    `Run` is the state behind `RunContext`'s condition lock, together with the history of the
    events the shared sequence has numbered; each function is one lock region.  `RunInv` is the
    linearization invariant. */
module RunModel {
  import opened Records

  datatype Event = AuthEv(aid: string) | PermitEv(aid: string) | ReleaseEv(aid: string) | CancelEv

  /** What an `EffectPermit` in the in-flight dictionary was issued with. */
  datatype Permit = Permit(epoch: nat, seqNo: nat)

  datatype Authorization = Authorization(epoch: nat, seqNo: nat)

  datatype Cancellation = Cancellation(cancelledEpoch: nat, newEpoch: nat, seqNo: nat, inflight: nat)

  datatype Release = Release(epoch: nat, permitSeq: nat, seqNo: nat)

  datatype Run = Run(epoch: nat, cancelled: bool, seqNo: nat, inflight: map<string, Permit>,
                     auths: map<string, Authorization>, permitted: set<string>,
                     cancellation: Option<Cancellation>, hist: seq<Event>, pos: map<Event, nat>)
  {
    /** Allocates AUTH's sequence, once per attempt and only in the live epoch. */
    function Authorize(aid: string, e: nat): (Run, Option<nat>) {
      if cancelled || e != epoch || aid in auths then (this, None)
      else
        (this.(seqNo := seqNo + 1, auths := auths[aid := Authorization(e, seqNo + 1)],
               hist := hist + [AuthEv(aid)], pos := pos[AuthEv(aid) := seqNo + 1]), Some(seqNo + 1))
    }

    /** Admits one effect: the permit enters the in-flight dictionary here. */
    function IssuePermit(aid: string, e: nat, terminal: bool): (Run, Option<nat>) {
      if cancelled || e != epoch || terminal || aid !in auths || auths[aid].epoch != e || aid in permitted
      then (this, None)
      else
        (this.(seqNo := seqNo + 1, permitted := permitted + {aid},
               inflight := inflight[aid := Permit(e, seqNo + 1)],
               hist := hist + [PermitEv(aid)], pos := pos[PermitEv(aid) := seqNo + 1]), Some(seqNo + 1))
    }

    /** Takes a permit out of the in-flight dictionary and numbers its release. */
    function DoRelease(aid: string): (Run, Option<Release>) {
      if aid !in inflight then (this, None)
      else
        (this.(seqNo := seqNo + 1, inflight := inflight - {aid},
               hist := hist + [ReleaseEv(aid)], pos := pos[ReleaseEv(aid) := seqNo + 1]),
         Some(Release(inflight[aid].epoch, inflight[aid].seqNo, seqNo + 1)))
    }

    /** The one cancellation; a later call only reports it. */
    function Cancel(): (Run, Cancellation, bool) {
      if cancellation.Some? then (this, cancellation.value, false)
      else
        var c := Cancellation(epoch, epoch + 1, seqNo + 1, |inflight|);
        (this.(cancelled := true, epoch := epoch + 1, seqNo := seqNo + 1, cancellation := Some(c),
               hist := hist + [CancelEv], pos := pos[CancelEv := seqNo + 1]), c, true)
    }
  }

  const FRESH := Run(0, false, 0, map[], map[], {}, None, [], map[])

  /** The sequence number of an event, or 0 if it has not happened. */
  function Num(r: Run, e: Event): nat {
    if e in r.pos then r.pos[e] else 0
  }

  /** The permits held when cancellation took its sequence number. */
  function Held(r: Run): set<string> {
    set a | a in r.permitted && 0 < Num(r, PermitEv(a)) < Num(r, CancelEv)
            && (Num(r, ReleaseEv(a)) == 0 || Num(r, CancelEv) < Num(r, ReleaseEv(a)))
  }

  predicate NumberedAt(r: Run, i: nat)
    requires i < |r.hist|
  {
    Num(r, r.hist[i]) == i + 1
  }

  /** The sequence numbers are exactly 1.._sequence, one event each. */
  ghost predicate Numbered(r: Run) {
    && r.seqNo == |r.hist|
    && (forall i: nat | i < |r.hist| :: NumberedAt(r, i))
    && (forall e | e in r.pos :: 0 < r.pos[e] <= |r.hist| && r.hist[r.pos[e] - 1] == e)
  }

  /** One attempt: authorized, permitted and released at most once, in this order, with A and P
      below C; in flight means permitted and not released. */
  predicate AttemptInv(r: Run, a: string) {
    var auth, permit, release := Num(r, AuthEv(a)), Num(r, PermitEv(a)), Num(r, ReleaseEv(a));
    var c := Num(r, CancelEv);
    && (a in r.auths <==> auth > 0)
    && (a in r.auths ==> r.auths[a] == Authorization(0, auth))
    && (a in r.permitted <==> permit > 0)
    && (permit > 0 ==> 0 < auth < permit)
    && (release > 0 ==> 0 < permit < release)
    && (a in r.inflight <==> permit > 0 && release == 0)
    && (a in r.inflight ==> r.inflight[a] == Permit(0, permit))
    && (c > 0 ==> auth < c && permit < c)
  }

  /** Cancellation happens once, moves the epoch from 0 to 1, and records how many permits were
      held at its own sequence number. */
  ghost predicate CancelExact(r: Run) {
    var c := Num(r, CancelEv);
    && (r.cancelled <==> c > 0)
    && r.epoch == (if r.cancelled then 1 else 0)
    && r.cancellation == if r.cancelled then Some(Cancellation(0, 1, c, |Held(r)|)) else None
  }

  /** The linearization invariant of `RunContext`. */
  ghost predicate RunInv(r: Run) {
    Numbered(r) && CancelExact(r) && forall a: string :: AttemptInv(r, a)
  }

  /** Handing out the next sequence number to an event that has none. */
  ghost predicate Numbers(r: Run, w: Run, e: Event) {
    && Num(r, e) == 0
    && w.hist == r.hist + [e] && w.seqNo == r.seqNo + 1 && w.pos == r.pos[e := r.seqNo + 1]
  }

  lemma NumberedSnoc(r: Run, w: Run, e: Event)
    requires Numbered(r) && Numbers(r, w, e)
    ensures Numbered(w)
  {
    forall i: nat | i < |w.hist| ensures NumberedAt(w, i) {
      if i < |r.hist| {
        assert w.hist[i] == r.hist[i] && NumberedAt(r, i);
      }
    }
    forall f | f in w.pos ensures 0 < w.pos[f] <= |w.hist| && w.hist[w.pos[f] - 1] == f {
      if f != e {
        assert f in r.pos && w.pos[f] == r.pos[f] && w.hist[r.pos[f] - 1] == r.hist[r.pos[f] - 1];
      }
    }
  }

  lemma FreshInv()
    ensures RunInv(FRESH)
  {
    assert Held(FRESH) == {};
  }

  /** What one attempt needs to know of the rest of the run. */
  predicate Ordered(r: Run) {
    && r.seqNo == |r.hist|
    && (forall e | e in r.pos :: 0 < r.pos[e] <= r.seqNo)
    && (r.cancelled <==> Num(r, CancelEv) > 0)
    && r.epoch == (if r.cancelled then 1 else 0)
  }

  lemma AuthorizeAttempt(r: Run, a: string, e: nat, b: string)
    requires Ordered(r) && AttemptInv(r, b)
    ensures AttemptInv(r.Authorize(a, e).0, b)
  {
  }

  lemma PermitAttempt(r: Run, a: string, e: nat, terminal: bool, b: string)
    requires Ordered(r) && AttemptInv(r, b)
    ensures AttemptInv(r.IssuePermit(a, e, terminal).0, b)
  {
  }

  lemma ReleaseAttempt(r: Run, a: string, b: string)
    requires Ordered(r) && AttemptInv(r, b)
    ensures AttemptInv(r.DoRelease(a).0, b)
  {
  }

  lemma CancelAttempt(r: Run, b: string)
    requires Ordered(r) && (r.cancelled ==> r.cancellation.Some?) && AttemptInv(r, b)
    ensures AttemptInv(r.Cancel().0, b)
  {
  }

  lemma AuthorizeKeepsHeld(r: Run, a: string, e: nat)
    ensures Held(r.Authorize(a, e).0) == Held(r)
  {
  }

  lemma AuthorizeInv(r: Run, a: string, e: nat)
    requires RunInv(r)
    ensures RunInv(r.Authorize(a, e).0)
    ensures r.Authorize(a, e).1.Some? <==> !r.cancelled && e == r.epoch && a !in r.auths
    ensures r.Authorize(a, e).1.Some? ==>
              r.Authorize(a, e).1.value == Num(r.Authorize(a, e).0, AuthEv(a)) == r.seqNo + 1
  {
    var w := r.Authorize(a, e).0;
    forall b: string ensures AttemptInv(w, b) { AuthorizeAttempt(r, a, e, b); }
    if w != r {
      assert AttemptInv(r, a);
      NumberedSnoc(r, w, AuthEv(a));
      AuthorizeKeepsHeld(r, a, e);
    }
  }

  /** A permit is granted exactly to an authorized attempt of a live run and connection that has
      not had one. */
  lemma PermitGrantedIff(r: Run, a: string, e: nat, terminal: bool)
    requires RunInv(r)
    ensures r.IssuePermit(a, e, terminal).1.Some? <==>
            !r.cancelled && e == 0 && !terminal && a in r.auths && a !in r.permitted
  {
    assert AttemptInv(r, a);
  }

  lemma IssuePermitInv(r: Run, a: string, e: nat, terminal: bool)
    requires RunInv(r)
    ensures RunInv(r.IssuePermit(a, e, terminal).0)
    ensures r.IssuePermit(a, e, terminal).1.Some? ==>
              r.IssuePermit(a, e, terminal).1.value == Num(r.IssuePermit(a, e, terminal).0, PermitEv(a)) == r.seqNo + 1
  {
    var w := r.IssuePermit(a, e, terminal).0;
    forall b: string ensures AttemptInv(w, b) { PermitAttempt(r, a, e, terminal, b); }
    if w != r {
      assert AttemptInv(r, a);
      NumberedSnoc(r, w, PermitEv(a));
    }
  }

  /** A release numbered after the cancellation does not change who was held at it. */
  lemma ReleaseKeepsHeld(r: Run, a: string)
    requires Ordered(r) && AttemptInv(r, a)
    ensures Held(r.DoRelease(a).0) == Held(r)
  {
  }

  lemma HeldAtCancel(r: Run)
    requires RunInv(r) && !r.cancelled
    ensures Held(r.Cancel().0) == r.inflight.Keys
  {
    forall b: string ensures b in Held(r.Cancel().0) <==> b in r.inflight {
      assert AttemptInv(r, b);
    }
  }

  lemma ReleaseInv(r: Run, a: string)
    requires RunInv(r)
    ensures RunInv(r.DoRelease(a).0)
    ensures r.DoRelease(a).1.Some? <==> a in r.inflight
    ensures a in r.inflight ==>
              r.DoRelease(a).1.value ==
              Release(0, Num(r, PermitEv(a)), Num(r.DoRelease(a).0, ReleaseEv(a)))
  {
    var w := r.DoRelease(a).0;
    forall b: string ensures AttemptInv(w, b) { ReleaseAttempt(r, a, b); }
    assert AttemptInv(r, a);
    if a in r.inflight {
      NumberedSnoc(r, w, ReleaseEv(a));
      ReleaseKeepsHeld(r, a);
    }
  }

  lemma CancelInv(r: Run)
    requires RunInv(r)
    ensures RunInv(r.Cancel().0) && r.Cancel().0.cancelled
    ensures r.Cancel().0.cancellation == Some(r.Cancel().1)
    ensures r.Cancel().2 <==> !r.cancelled
  {
    var w := r.Cancel().0;
    forall b: string ensures AttemptInv(w, b) { CancelAttempt(r, b); }
    if !r.cancelled {
      NumberedSnoc(r, w, CancelEv);
      HeldAtCancel(r);
    }
  }

  // ---------------------------------------------------------------- whole runs

  /** The calls that any number of threads may make, in any order. */
  datatype Call =
    | CallAuthorize(aid: string, epoch: nat)
    | CallPermit(aid: string, epoch: nat, terminal: bool)
    | CallRelease(aid: string)
    | CallCancel

  function Do(r: Run, call: Call): Run {
    match call
    case CallAuthorize(a, e) => r.Authorize(a, e).0
    case CallPermit(a, e, terminal) => r.IssuePermit(a, e, terminal).0
    case CallRelease(a) => r.DoRelease(a).0
    case CallCancel => r.Cancel().0
  }

  function DoAll(r: Run, calls: seq<Call>): Run {
    if calls == [] then r else Do(DoAll(r, calls[..|calls| - 1]), calls[|calls| - 1])
  }

  lemma DoInv(r: Run, call: Call)
    requires RunInv(r)
    ensures RunInv(Do(r, call))
  {
    match call
    case CallAuthorize(a, e) => AuthorizeInv(r, a, e);
    case CallPermit(a, e, terminal) => IssuePermitInv(r, a, e, terminal);
    case CallRelease(a) => ReleaseInv(r, a);
    case CallCancel => CancelInv(r);
  }

  /** Every run of lock regions keeps the linearization invariant. */
  lemma {:induction false} EveryRunLinearizes(r: Run, calls: seq<Call>)
    requires RunInv(r)
    ensures RunInv(DoAll(r, calls))
  {
    if calls != [] {
      EveryRunLinearizes(r, calls[..|calls| - 1]);
      DoInv(DoAll(r, calls[..|calls| - 1]), calls[|calls| - 1]);
    }
  }

  /** After cancellation no call admits anything: the in-flight set only shrinks, the
      cancellation record is frozen, and a drained run stays drained. */
  lemma {:induction false} CancelledOnlyDrains(r: Run, calls: seq<Call>)
    requires RunInv(r) && r.cancelled
    ensures var w := DoAll(r, calls);
            && w.cancelled && w.cancellation == r.cancellation
            && w.inflight.Keys <= r.inflight.Keys && w.permitted == r.permitted && w.auths == r.auths
            && (r.inflight == map[] ==> w.inflight == map[])
  {
    if calls != [] {
      CancelledOnlyDrains(r, calls[..|calls| - 1]);
      EveryRunLinearizes(r, calls[..|calls| - 1]);
    }
  }

  /** Once every permit is released, the count cancellation recorded is the number of permits
      with P < C < R. */
  lemma DrainedCountAgrees(r: Run)
    requires RunInv(r) && r.cancelled && r.inflight == map[]
    ensures r.cancellation.value.inflight ==
            |set a | a in r.permitted
                  && Num(r, PermitEv(a)) < Num(r, CancelEv) < Num(r, ReleaseEv(a))|
  {
    var between := set a | a in r.permitted
                         && Num(r, PermitEv(a)) < Num(r, CancelEv) < Num(r, ReleaseEv(a));
    forall a: string ensures a in Held(r) <==> a in between {
      assert AttemptInv(r, a);
    }
    assert Held(r) == between;
  }
}
