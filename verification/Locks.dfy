/** The locks of the gateway, step by step: no reachable state has threads waiting in a cycle, and as
    long as a thread has something left to do, some thread can do it. */
module Locks {
  import opened Records

  datatype Lock = PermitL(id: nat) | RunL | ConnL(id: nat) | AuditL | RegistryL | BudgetL | CertificateL

  datatype Op = Acq(lock: Lock) | Rel(lock: Lock)

  /** The calls that take locks, with the paths through them that differ in the locks they take. */
  datatype Call =
    | RunRegion                        // epoch, live, authorize, _release, cancel, counts
    | DrainWait(wakes: nat)            // a condition wait gives the lock up and takes it again
    | IssuePermit(conn: nat)           // the connection is asked under the run's lock
    | ReleaseRecorded(permit: nat)     // release of a bound permit: run, then audit
    | ReleaseBare(permit: nat)         // abandon, or release of an unbound permit
    | PermitRegion(permit: nat)        // bind, or a repeated release
    | ConnRegion(conn: nat)            // is_terminal, track, transfer, begin_termination
    | RegistryRegion                   // add, remove, begin_producer, end_producer, counts
    | ProducerWait(wakes: nat)
    | AuditRegion                      // write, healthy, add_secret
    | AuditSeal                        // seal_with calls write while it holds the re-entrant lock
    | BudgetRegion
    | CertificateRegion                // the certificate cache

  function Region(l: Lock): seq<Op> { [Acq(l), Rel(l)] }

  function Wait(l: Lock, wakes: nat): seq<Op> {
    if wakes == 0 then Region(l) else Region(l) + Wait(l, wakes - 1)
  }

  function Script(call: Call): seq<Op> {
    match call
    case RunRegion => Region(RunL)
    case DrainWait(n) => Wait(RunL, n)
    case IssuePermit(c) => [Acq(RunL), Acq(ConnL(c)), Rel(ConnL(c)), Rel(RunL)]
    case ReleaseRecorded(p) => [Acq(PermitL(p)), Acq(RunL), Rel(RunL), Acq(AuditL), Rel(AuditL), Rel(PermitL(p))]
    case ReleaseBare(p) => [Acq(PermitL(p)), Acq(RunL), Rel(RunL), Rel(PermitL(p))]
    case PermitRegion(p) => Region(PermitL(p))
    case ConnRegion(c) => Region(ConnL(c))
    case RegistryRegion => Region(RegistryL)
    case ProducerWait(n) => Wait(RegistryL, n)
    case AuditRegion => Region(AuditL)
    case AuditSeal => [Acq(AuditL), Acq(AuditL), Rel(AuditL), Rel(AuditL)]
    case BudgetRegion => Region(BudgetL)
    case CertificateRegion => Region(CertificateL)
  }

  function Program(calls: seq<Call>): seq<Op> {
    if calls == [] then [] else Script(calls[0]) + Program(calls[1..])
  }

  function Rank(l: Lock): nat {
    match l
    case PermitL(_) => 0
    case RunL => 1
    case ConnL(_) => 2
    case AuditL => 3
    case RegistryL => 4
    case BudgetL => 5
    case CertificateL => 6
  }

  // ---------------------------------------------------------------- threads

  /** A thread holds locks, with multiplicity, and has operations left. */
  datatype Thread = Thread(held: multiset<Lock>, rest: seq<Op>)

  type System = map<nat, Thread>

  predicate FreeFor(s: System, t: nat, l: Lock) {
    forall u | u in s && u != t :: l !in s[u].held
  }

  predicate CanStep(s: System, t: nat) {
    && t in s && s[t].rest != []
    && (s[t].rest[0].Acq? ==> FreeFor(s, t, s[t].rest[0].lock))
  }

  function StepOf(s: System, t: nat): System
    requires CanStep(s, t)
  {
    var th := s[t];
    var op := th.rest[0];
    s[t := Thread(if op.Acq? then th.held + multiset{op.lock} else th.held - multiset{op.lock}, th.rest[1..])]
  }

  /** The state after the given threads stepped in turn, if each could. */
  function Exec(s: System, turns: seq<nat>): Option<System> {
    if turns == [] then Some(s)
    else
      var before := Exec(s, turns[..|turns| - 1]);
      var t := turns[|turns| - 1];
      if before.None? || !CanStep(before.value, t) then None else Some(StepOf(before.value, t))
  }

  /** Threads that are about to make any calls, in any number. */
  ghost predicate Init(s: System) {
    forall t | t in s :: s[t].held == multiset{} && exists calls :: s[t].rest == Program(calls)
  }

  // ---------------------------------------------------------------- the order of acquisition

  /** Every acquisition left is of a lock above all those held then, or of one held already; every
      release is of a lock held; nothing is held at the end. */
  predicate InOrder(held: multiset<Lock>, rest: seq<Op>)
    decreases |rest|
  {
    if rest == [] then held == multiset{}
    else match rest[0]
      case Acq(l) => (l in held || Above(held, l)) && InOrder(held + multiset{l}, rest[1..])
      case Rel(l) => l in held && InOrder(held - multiset{l}, rest[1..])
  }

  predicate Above(held: multiset<Lock>, l: Lock) {
    forall m | m in held :: Rank(m) < Rank(l)
  }

  lemma {:induction false} InOrderConcat(held: multiset<Lock>, xs: seq<Op>, ys: seq<Op>)
    requires InOrder(held, xs) && InOrder(multiset{}, ys)
    ensures InOrder(held, xs + ys)
    decreases |xs|
  {
    if xs == [] {
      assert xs + ys == ys;
    } else {
      assert (xs + ys)[1..] == xs[1..] + ys;
      match xs[0]
      case Acq(l) => InOrderConcat(held + multiset{l}, xs[1..], ys);
      case Rel(l) => InOrderConcat(held - multiset{l}, xs[1..], ys);
    }
  }

  lemma RegionInOrder(held: multiset<Lock>, l: Lock, rest: seq<Op>)
    requires Above(held, l) && InOrder(held, rest)
    ensures InOrder(held, Region(l) + rest)
  {
    var ops := Region(l) + rest;
    assert ops[1..] == [Rel(l)] + rest && ops[1..][1..] == rest;
    assert held + multiset{l} - multiset{l} == held;
  }

  lemma {:induction false} WaitInOrder(l: Lock, wakes: nat)
    ensures InOrder(multiset{}, Wait(l, wakes))
  {
    if wakes == 0 {
      assert Region(l) == Region(l) + [];
      RegionInOrder(multiset{}, l, []);
    } else {
      WaitInOrder(l, wakes - 1);
      RegionInOrder(multiset{}, l, Wait(l, wakes - 1));
    }
  }

  /** A region nested in another. */
  lemma NestedInOrder(outer: Lock, ops: seq<Op>)
    requires InOrder(multiset{outer}, ops + [Rel(outer)])
    ensures InOrder(multiset{}, [Acq(outer)] + ops + [Rel(outer)])
  {
    var all := [Acq(outer)] + ops + [Rel(outer)];
    assert all[1..] == ops + [Rel(outer)];
    assert multiset{} + multiset{outer} == multiset{outer};
  }

  lemma LastRelease(l: Lock)
    ensures InOrder(multiset{l}, [Rel(l)])
  {
    assert [Rel(l)][1..] == [] && multiset{l} - multiset{l} == multiset{};
  }

  lemma OneInside(outer: Lock, inner: Lock)
    requires Rank(outer) < Rank(inner)
    ensures InOrder(multiset{}, [Acq(outer), Acq(inner), Rel(inner), Rel(outer)])
  {
    LastRelease(outer);
    RegionInOrder(multiset{outer}, inner, [Rel(outer)]);
    NestedInOrder(outer, Region(inner));
    assert [Acq(outer), Acq(inner), Rel(inner), Rel(outer)] == [Acq(outer)] + Region(inner) + [Rel(outer)];
  }

  lemma ScriptInOrder(call: Call)
    ensures InOrder(multiset{}, Script(call))
  {
    match call
    case RunRegion => WaitInOrder(RunL, 0);
    case DrainWait(n) => WaitInOrder(RunL, n);
    case IssuePermit(c) => OneInside(RunL, ConnL(c));
    case ReleaseRecorded(p) => ReleaseInOrder(p);
    case ReleaseBare(p) => OneInside(PermitL(p), RunL);
    case PermitRegion(p) => WaitInOrder(PermitL(p), 0);
    case ConnRegion(c) => WaitInOrder(ConnL(c), 0);
    case RegistryRegion => WaitInOrder(RegistryL, 0);
    case ProducerWait(n) => WaitInOrder(RegistryL, n);
    case AuditRegion => WaitInOrder(AuditL, 0);
    case AuditSeal => SealInOrder();
    case BudgetRegion => WaitInOrder(BudgetL, 0);
    case CertificateRegion => WaitInOrder(CertificateL, 0);
  }

  /** Two regions, one after the other, inside the permit's. */
  lemma ReleaseInOrder(p: nat)
    ensures InOrder(multiset{}, Script(ReleaseRecorded(p)))
  {
    var l := PermitL(p);
    LastRelease(l);
    RegionInOrder(multiset{l}, AuditL, [Rel(l)]);
    RegionInOrder(multiset{l}, RunL, Region(AuditL) + [Rel(l)]);
    assert Region(RunL) + (Region(AuditL) + [Rel(l)]) == Region(RunL) + Region(AuditL) + [Rel(l)];
    NestedInOrder(l, Region(RunL) + Region(AuditL));
    assert Script(ReleaseRecorded(p)) == [Acq(l)] + (Region(RunL) + Region(AuditL)) + [Rel(l)];
  }

  /** `seal_with` takes the audit lock a second time inside `write`: the lock is re-entrant. */
  lemma SealInOrder()
    ensures InOrder(multiset{}, Script(AuditSeal))
  {
    var one, two := multiset{AuditL}, multiset{AuditL, AuditL};
    LastRelease(AuditL);
    assert [Rel(AuditL), Rel(AuditL)][1..] == [Rel(AuditL)] && two - one == one;
    assert InOrder(two, [Rel(AuditL), Rel(AuditL)]);
    var inner := [Acq(AuditL), Rel(AuditL), Rel(AuditL)];
    assert inner[1..] == [Rel(AuditL), Rel(AuditL)] && one + one == two;
    assert Script(AuditSeal)[1..] == inner && multiset{} + one == one;
  }

  lemma {:induction false} ProgramInOrder(calls: seq<Call>)
    ensures InOrder(multiset{}, Program(calls))
  {
    if calls != [] {
      ScriptInOrder(calls[0]);
      ProgramInOrder(calls[1..]);
      InOrderConcat(multiset{}, Script(calls[0]), Program(calls[1..]));
    }
  }

  // ---------------------------------------------------------------- every reachable state

  predicate Apart(mine: multiset<Lock>, yours: multiset<Lock>) {
    forall l | l in mine :: l !in yours
  }

  ghost predicate Inv(s: System) {
    && (forall t | t in s :: InOrder(s[t].held, s[t].rest))
    && (forall t, u | t in s && u in s && t != u :: Apart(s[t].held, s[u].held))
  }

  lemma InitInv(s: System)
    requires Init(s)
    ensures Inv(s)
  {
    forall t | t in s ensures InOrder(s[t].held, s[t].rest) {
      var calls :| s[t].rest == Program(calls);
      ProgramInOrder(calls);
    }
  }

  lemma ApartKept(s: System, t: nat, u: nat, v: nat)
    requires CanStep(s, t) && u in s && v in s && u != v && Apart(s[u].held, s[v].held) && Apart(s[v].held, s[u].held)
    ensures Apart(StepOf(s, t)[u].held, StepOf(s, t)[v].held)
  {
    var w := StepOf(s, t);
    assert t != u ==> w[u] == s[u];
    assert t != v ==> w[v] == s[v];
  }

  lemma StepInv(s: System, t: nat)
    requires Inv(s) && CanStep(s, t)
    ensures Inv(StepOf(s, t))
  {
    var w := StepOf(s, t);
    assert InOrder(s[t].held, s[t].rest);
    forall u, v | u in w && v in w && u != v ensures Apart(w[u].held, w[v].held) {
      ApartKept(s, t, u, v);
    }
  }

  lemma {:induction false} ReachableInv(init: System, turns: seq<nat>, s: System)
    requires Init(init) && Exec(init, turns) == Some(s)
    ensures Inv(s)
  {
    if turns == [] {
      InitInv(s);
    } else {
      var n := |turns| - 1;
      ReachableInv(init, turns[..n], Exec(init, turns[..n]).value);
      StepInv(Exec(init, turns[..n]).value, turns[n]);
    }
  }

  /** Thread t waits for a lock that u holds. */
  predicate WaitsFor(s: System, t: nat, u: nat) {
    && t in s && u in s && t != u && s[t].rest != [] && s[t].rest[0].Acq?
    && s[t].rest[0].lock in s[u].held
  }

  /** The rank of the lock that a waiting thread wants. */
  function Wanted(s: System, t: nat): nat {
    if t in s && s[t].rest != [] then Rank(s[t].rest[0].lock) else 0
  }

  /** Along a wait the wanted lock rises in rank: whoever holds the lock another thread wants has
      something left to do, and if it waits itself, then for a lock of higher rank. */
  lemma WaitRises(s: System, t: nat, u: nat)
    requires Inv(s) && WaitsFor(s, t, u)
    ensures s[u].rest != []
    ensures forall v | WaitsFor(s, u, v) :: Wanted(s, t) < Wanted(s, u)
  {
    assert InOrder(s[u].held, s[u].rest);
    forall v | WaitsFor(s, u, v) ensures Wanted(s, t) < Wanted(s, u) {
      assert s[u].rest[0].lock !in s[u].held;
    }
  }

  lemma {:induction false} RankRises(s: System, chain: seq<nat>, n: nat)
    requires Inv(s) && 0 < n < |chain| - 1
    requires forall i | 0 <= i < |chain| - 1 :: WaitsFor(s, chain[i], chain[i + 1])
    ensures Wanted(s, chain[0]) < Wanted(s, chain[n])
  {
    assert WaitsFor(s, chain[n - 1], chain[n - 1 + 1]) && WaitsFor(s, chain[n], chain[n + 1]);
    WaitRises(s, chain[n - 1], chain[n]);
    if n > 1 {
      RankRises(s, chain, n - 1);
    }
  }

  /** No reachable state has threads waiting in a cycle. */
  lemma NoWaitCycle(init: System, turns: seq<nat>, s: System, cycle: seq<nat>)
    requires Init(init) && Exec(init, turns) == Some(s) && |cycle| >= 2
    requires forall i | 0 <= i < |cycle| - 1 :: WaitsFor(s, cycle[i], cycle[i + 1])
    ensures cycle[|cycle| - 1] != cycle[0]
  {
    ReachableInv(init, turns, s);
    var n := |cycle| - 1;
    if cycle[n] == cycle[0] {
      var longer := cycle + [cycle[1]];
      assert WaitsFor(s, cycle[0], cycle[0 + 1]);
      forall i | 0 <= i < |longer| - 1 ensures WaitsFor(s, longer[i], longer[i + 1]) {
        if i < n {
          assert WaitsFor(s, cycle[i], cycle[i + 1]);
        }
      }
      RankRises(s, longer, n);
    }
  }

  lemma Waits(s: System, t: nat) returns (u: nat)
    requires t in s && s[t].rest != [] && !CanStep(s, t)
    ensures WaitsFor(s, t, u)
  {
    u :| u in s && u != t && s[t].rest[0].lock in s[u].held;
  }

  /** Behind a blocked thread stands one that can step or wants a lock of higher rank. */
  lemma Behind(s: System, t: nat) returns (u: nat)
    requires Inv(s) && t in s && s[t].rest != [] && !CanStep(s, t)
    ensures u in s && s[u].rest != [] && (CanStep(s, u) || Wanted(s, t) < Wanted(s, u) <= 6)
  {
    u := Waits(s, t);
    WaitRises(s, t, u);
    if !CanStep(s, u) {
      var v := Waits(s, u);
    }
  }

  lemma {:induction false} SomeoneSteps(s: System, t: nat) returns (u: nat)
    requires Inv(s) && t in s && s[t].rest != []
    ensures CanStep(s, u)
    decreases 7 - Wanted(s, t)
  {
    if CanStep(s, t) {
      u := t;
    } else {
      u := Behind(s, t);
      if !CanStep(s, u) {
        u := SomeoneSteps(s, u);
      }
    }
  }

  /** Deadlock freedom: in every reachable state in which some thread is not through with its calls,
      some thread can take its next step. */
  lemma DeadlockFree(init: System, turns: seq<nat>, s: System, t: nat) returns (u: nat)
    requires Init(init) && Exec(init, turns) == Some(s) && t in s && s[t].rest != []
    ensures CanStep(s, u)
  {
    ReachableInv(init, turns, s);
    u := SomeoneSteps(s, t);
  }
}
