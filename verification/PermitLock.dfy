/** One permit, any number of threads: `release`, `abandon_undurable` and `bind_durable_release`
    under the permit's lock, one step per line that takes another lock or appends. */
module PermitLock {
  import opened Records
  import opened RunModel
  import opened Gate

  /** What the thread inside the permit's lock does next. */
  datatype Stage =
    | Releasing   // about to look at the released flag
    | Taking      // flag set, about to call `RunContext._release`
    | Recording   // transition stored, about to append PERMIT_RELEASED
    | Abandoning  // about to look at the released flag
    | Dropping    // flag set, about to call `RunContext._release`
    | Binding     // about to bind the sink

  /** `durable` says whether PERMIT_GRANTED was fsynced, `inflight` whether the run counts the permit;
      `takes` and `appended` count how often it left the dictionary and how many PERMIT_RELEASED
      were appended; `results` lists what finished `release` calls handed back. */
  datatype PermitState = PermitState(holder: Option<(nat, Stage)>, released: bool, transition: Option<Release>, failed: bool,
                           bound: bool, durable: bool, inflight: bool, takes: nat, appended: nat,
                           results: seq<ReleaseResult>)
  {
    function Stored(): ReleaseResult { if failed then Raised else Returned(transition) }
  }

  datatype Act =
    | Enter(thread: nat, stage: Stage)       // a call takes the permit's lock
    | Go(thread: nat, seqNo: nat, ok: bool)  // the holder's next line: a number from the run, an append

  function Fresh(durable: bool): PermitState {
    PermitState(None, false, None, false, false, durable, true, 0, 0, [])
  }

  /** A `release` hands back what is stored, and leaves the lock. */
  function Returns(p: PermitState): PermitState {
    p.(holder := None, results := p.results + [p.Stored()])
  }

  /** `RunContext._release` as this permit sees it. */
  function Take(p: PermitState, seqNo: nat): PermitState {
    if p.inflight then p.(inflight := false, takes := p.takes + 1, transition := Some(Release(0, 0, seqNo)))
    else p.(transition := None)
  }

  /** One step; a step that is not enabled changes nothing.  `acquire_permit` binds only a permit
      whose PERMIT_GRANTED is durable, and abandons only one whose is not. */
  function Step(p: PermitState, act: Act): PermitState {
    match act
    case Enter(t, stage) =>
      if p.holder.None? && stage in {Releasing, Abandoning, Binding} &&
         (stage == Binding ==> p.durable) && (stage == Abandoning ==> !p.durable)
      then p.(holder := Some((t, stage))) else p
    case Go(t, seqNo, ok) =>
      if p.holder.None? || p.holder.value.0 != t then p
      else match p.holder.value.1
        case Releasing => if p.released then Returns(p) else p.(released := true, holder := Some((t, Taking)))
        case Taking =>
          var q := Take(p, seqNo);
          if q.transition.None? || !q.bound then Returns(q) else q.(holder := Some((t, Recording)))
        case Recording => Returns(if ok then p.(appended := p.appended + 1) else p.(failed := true))
        case Abandoning => if p.released then p.(holder := None) else p.(released := true, holder := Some((t, Dropping)))
        case Dropping => Take(p, seqNo).(holder := None)
        case Binding => if p.released || p.bound then p.(holder := None) else p.(holder := None, bound := true)
  }

  function Run(p: PermitState, acts: seq<Act>): PermitState {
    if acts == [] then p else Step(Run(p, acts[..|acts| - 1]), acts[|acts| - 1])
  }

  predicate At(p: PermitState, stage: Stage) { p.holder.Some? && p.holder.value.1 == stage }

  /** The first call is between the flag and its end. */
  predicate Busy(p: PermitState) { At(p, Taking) || At(p, Recording) || At(p, Dropping) }

  ghost predicate Inv(p: PermitState) {
    && p.takes == (if p.inflight then 0 else 1)
    && (p.inflight <==> !p.released || At(p, Taking) || At(p, Dropping))
    && (p.inflight ==> p.transition.None? && !p.failed && p.results == [])
    && (!p.inflight ==> p.transition.Some?)
    && (Busy(p) ==> p.released && p.results == [] && !p.failed && p.appended == 0)
    && (At(p, Recording) ==> !p.inflight && p.bound)
    && p.appended <= 1 && (p.appended == 1 ==> p.bound && p.released && !p.failed)
    && (p.bound || At(p, Binding) ==> p.durable) && (At(p, Dropping) || At(p, Abandoning) ==> !p.durable)
    && (forall r | r in p.results :: r == p.Stored())
    && (p.released && !Busy(p) && p.bound ==> (p.failed <==> p.appended == 0))
    && (p.failed ==> p.bound)
  }

  lemma StepInv(p: PermitState, act: Act)
    requires Inv(p)
    ensures Inv(Step(p, act))
  {
    if act.Go? && p.holder.Some? && p.holder.value.0 == act.thread {
      match p.holder.value.1
      case Taking =>
        assert Take(p, act.seqNo).results == [];
      case _ =>
    }
  }

  /** What a permit that has been released keeps through every further call. */
  predicate Settled(p: PermitState) { p.released && !Busy(p) }

  lemma SettledStep(p: PermitState, act: Act)
    requires Inv(p) && Settled(p)
    ensures Settled(Step(p, act)) && Step(p, act).Stored() == p.Stored() && Step(p, act).appended == p.appended
    ensures Step(p, act).takes == p.takes && Step(p, act).bound == p.bound
  {
  }

  lemma {:induction false} RunInv(durable: bool, acts: seq<Act>)
    ensures Inv(Run(Fresh(durable), acts))
  {
    if acts != [] {
      RunInv(durable, acts[..|acts| - 1]);
      StepInv(Run(Fresh(durable), acts[..|acts| - 1]), acts[|acts| - 1]);
    }
  }

  /** Exactly-once release: however many threads call, the permit leaves the in-flight dictionary at
      most once, at most one PERMIT_RELEASED is appended and only if PERMIT_GRANTED is durable, and
      all `release` calls hand back the same transition or the same error. */
  lemma ExactlyOnceRelease(durable: bool, acts: seq<Act>)
    ensures var p := Run(Fresh(durable), acts);
            && p.takes <= 1 && (p.takes == 1 <==> !p.inflight)
            && p.appended <= p.takes && (p.appended == 1 ==> durable)
            && (Settled(p) ==> p.takes == 1)
            && (forall r, q | r in p.results && q in p.results :: r == q)
            && (forall r | r in p.results :: r.Raised? <==> p.failed)
            && (forall r | r in p.results && p.bound :: r.Raised? <==> p.appended == 0)
  {
    RunInv(durable, acts);
    DurableKept(durable, acts);
  }

  lemma {:induction false} DurableKept(durable: bool, acts: seq<Act>)
    ensures Run(Fresh(durable), acts).durable == durable
  {
    if acts != [] {
      DurableKept(durable, acts[..|acts| - 1]);
      StepDurable(Run(Fresh(durable), acts[..|acts| - 1]), acts[|acts| - 1]);
    }
  }

  lemma StepDurable(p: PermitState, act: Act)
    ensures Step(p, act).durable == p.durable
  {
  }

  /** Once one call is through, no further call changes anything a caller can see. */
  lemma {:induction false} SettledForGood(p: PermitState, acts: seq<Act>)
    requires Inv(p) && Settled(p)
    ensures Settled(Run(p, acts)) && Inv(Run(p, acts))
    ensures Run(p, acts).Stored() == p.Stored() && Run(p, acts).appended == p.appended && Run(p, acts).takes == 1
  {
    if acts != [] {
      var before := Run(p, acts[..|acts| - 1]);
      SettledForGood(p, acts[..|acts| - 1]);
      SettledStep(before, acts[|acts| - 1]);
      StepInv(before, acts[|acts| - 1]);
    }
  }
}
