/** Hierarchical request budgets: `Budgets.reserve`, and how `PDP.decide` charges a connection once. */
module Budgets {
  import opened Records

  /** A counter to charge, with its cap if it has one. */
  datatype Spec = Spec(key: string, cap: Option<int>)

  type Counters = map<string, nat>

  function Get(n: Counters, key: string): nat {
    if key in n then n[key] else 0
  }

  predicate Full(n: Counters, s: Spec) {
    s.cap.Some? && Get(n, s.key) >= s.cap.value
  }

  /** The first spec, in order, without room. */
  function FirstFull(n: Counters, specs: seq<Spec>): Option<string> {
    if specs == [] then None
    else if Full(n, specs[0]) then Some(specs[0].key)
    else FirstFull(n, specs[1..])
  }

  function Charged(n: Counters, specs: seq<Spec>): Counters {
    if specs == [] then n
    else
      var m := Charged(n, specs[..|specs| - 1]);
      var key := specs[|specs| - 1].key;
      m[key := Get(m, key) + 1]
  }

  /** All caps are checked before any counter moves. */
  function Reserve(n: Counters, specs: seq<Spec>): (Counters, Option<string>) {
    if FirstFull(n, specs).Some? then (n, FirstFull(n, specs)) else (Charged(n, specs), None)
  }

  class BudgetTable {
    var n: Counters

    constructor () ensures n == map[] { n := map[]; }

    /** Checks every cap and moves every counter, or does neither. */
    method DoReserve(specs: seq<Spec>) returns (exceeded: Option<string>)
      modifies this
      ensures (n, exceeded) == Reserve(old(n), specs)
      ensures exceeded.Some? ==> n == old(n) && exists s | s in specs :: s.key == exceeded.value && Full(old(n), s)
      ensures exceeded.None? <==> forall s | s in specs :: !Full(old(n), s)
    {
      for i := 0 to |specs|
        invariant n == old(n) && FirstFull(n, specs) == FirstFull(n, specs[i..])
        invariant forall s | s in specs[..i] :: !Full(n, s)
      {
        if Full(n, specs[i]) { return Some(specs[i].key); }
        assert specs[i..][1..] == specs[i + 1..] && specs[..i + 1] == specs[..i] + [specs[i]];
      }
      assert specs[..|specs|] == specs;
      for i := 0 to |specs|
        invariant n == Charged(old(n), specs[..i])
      {
        assert specs[..i + 1][..i] == specs[..i];
        n := n[specs[i].key := Get(n, specs[i].key) + 1];
      }
      return None;
    }

    method Peek(key: string) returns (count: nat)
      ensures count == Get(n, key)
    {
      count := if key in n then n[key] else 0;
    }
  }

  lemma {:induction false} FirstFullIff(n: Counters, specs: seq<Spec>)
    ensures FirstFull(n, specs).None? <==> forall s | s in specs :: !Full(n, s)
  {
    if specs != [] {
      FirstFullIff(n, specs[1..]);
      assert specs == [specs[0]] + specs[1..];
    }
  }

  // ---------------------------------------------------------------- any interleaving of reserve calls

  /** The counters after any sequence of calls, and the calls that were not refused. */
  function Reserves(calls: seq<seq<Spec>>): (Counters, seq<seq<Spec>>) {
    if calls == [] then (map[], [])
    else
      var (n, made) := Reserves(calls[..|calls| - 1]);
      var call := calls[|calls| - 1];
      var (m, exceeded) := Reserve(n, call);
      (m, if exceeded.None? then made + [call] else made)
  }

  predicate Names(call: seq<Spec>, key: string) { exists s | s in call :: s.key == key }

  predicate DistinctKeys(call: seq<Spec>) {
    forall i, j | 0 <= i < j < |call| :: call[i].key != call[j].key
  }

  /** The number of calls that name a key. */
  function CountCalls(made: seq<seq<Spec>>, key: string): nat {
    if made == [] then 0
    else CountCalls(made[..|made| - 1], key) + if Names(made[|made| - 1], key) then 1 else 0
  }

  /** Every call names a key once, and with the cap that is fixed for the key. */
  predicate FixedCaps(calls: seq<seq<Spec>>, capOf: string -> Option<int>) {
    forall i | 0 <= i < |calls| :: DistinctKeys(calls[i]) && CapsAre(calls[i], capOf)
  }

  predicate CapsAre(call: seq<Spec>, capOf: string -> Option<int>) {
    forall s | s in call :: s.cap == capOf(s.key)
  }

  lemma {:induction false} ChargedOnce(n: Counters, call: seq<Spec>, key: string)
    requires DistinctKeys(call)
    ensures Get(Charged(n, call), key) == Get(n, key) + if Names(call, key) then 1 else 0
  {
    if call != [] {
      var k := |call| - 1;
      assert call == call[..k] + [call[k]];
      ChargedOnce(n, call[..k], key);
      assert Names(call, key) <==> Names(call[..k], key) || call[k].key == key;
    }
  }

  /** `reserve`, over any interleaving of calls: a counter is the number of unrefused calls that name
      its key, and with fixed non-negative caps and distinct keys in a call none is above its cap. */
  lemma {:induction false} ReservesWithinCaps(calls: seq<seq<Spec>>, capOf: string -> Option<int>, key: string)
    requires FixedCaps(calls, capOf)
    ensures var (n, made) := Reserves(calls);
            && Get(n, key) == CountCalls(made, key)
            && (capOf(key).Some? && capOf(key).value >= 0 ==> Get(n, key) <= capOf(key).value)
  {
    if calls != [] {
      var k := |calls| - 1;
      ReservesWithinCaps(calls[..k], capOf, key);
      var (n, made) := Reserves(calls[..k]);
      FirstFullIff(n, calls[k]);
      ChargedOnce(n, calls[k], key);
      assert (made + [calls[k]])[..|made|] == made;
      assert DistinctKeys(calls[k]) && CapsAre(calls[k], capOf);
    }
  }

  /** A key named twice in one call is checked once and charged twice. */
  lemma RepeatedKeyExceeds()
    ensures var call := [Spec("k", Some(1)), Spec("k", Some(1))];
            Reserve(map[], call).1 == None && Get(Reserve(map[], call).0, "k") == 2
  {
    var call := [Spec("k", Some(1)), Spec("k", Some(1))];
    FirstFullIff(map[], call);
    assert call[..1] == [call[0]] && [call[0]][..0] == [];
    assert Charged(map[], [call[0]]) == map["k" := 1];
  }

  // ---------------------------------------------------------------- decisions

  /** What a counter is for: a program, or an asset of one; the asset of a program's own scope is "". */
  datatype Scope = Scope(program: string, asset: string)

  /** One `decide` call: what it is for, whether it carries the pin of a connection already decided,
      and whether every other control agreed. */
  datatype Ask = Ask(scope: Scope, pinned: bool, otherwiseFine: bool)

  type Caps = Scope -> Option<int>

  function AssetKey(program: string, asset: string): string { program + "/" + asset }

  function KeyOf(s: Scope): string { if s.asset == "" then s.program else AssetKey(s.program, s.asset) }

  function Own(s: Scope): Scope { Scope(s.program, "") }

  function SpecOf(caps: Caps, s: Scope): Spec { Spec(KeyOf(s), caps(s)) }

  function SpecsOf(caps: Caps, s: Scope): seq<Spec> {
    [SpecOf(caps, Own(s))] + if s.asset == "" then [] else [SpecOf(caps, s)]
  }

  /** The part of `decide` that touches the counters: allowed or not, and the counters after it. */
  function Decide(caps: Caps, n: Counters, ask: Ask): (Counters, bool) {
    if !ask.otherwiseFine then (n, false)
    else if ask.pinned then (n, true)
    else
      var (m, exceeded) := Reserve(n, SpecsOf(caps, ask.scope));
      (m, exceeded.None?)
  }

  /** The counters after any interleaving of decisions, and what the unpinned ALLOW decisions were for. */
  function Run(caps: Caps, asks: seq<Ask>): (Counters, seq<Scope>) {
    if asks == [] then (map[], [])
    else
      var (n, charged) := Run(caps, asks[..|asks| - 1]);
      var ask := asks[|asks| - 1];
      var (m, allowed) := Decide(caps, n, ask);
      (m, if allowed && !ask.pinned then charged + [ask.scope] else charged)
  }

  /** An ALLOW decision for t is charged to its program and to its asset. */
  predicate ChargedTo(t: Scope, s: Scope) { s == t || s == Own(t) }

  /** The unpinned ALLOW decisions that are charged to a scope. */
  function CountScope(charged: seq<Scope>, s: Scope): nat {
    if charged == [] then 0
    else CountScope(charged[..|charged| - 1], s) + if ChargedTo(charged[|charged| - 1], s) then 1 else 0
  }

  // ---------------------------------------------------------------- when keys collide

  /** All that is charged when decisions are about these scopes. */
  function Scopes(about: set<Scope>): set<Scope> { about + set s | s in about :: Own(s) }

  /** No two scopes share a counter. */
  predicate Apart(about: set<Scope>) {
    forall s, t | s in Scopes(about) && t in Scopes(about) && KeyOf(s) == KeyOf(t) :: s == t
  }

  predicate About(asks: seq<Ask>, about: set<Scope>) {
    forall i | 0 <= i < |asks| :: asks[i].scope in about
  }

  /** Every counter is the number of unpinned ALLOW decisions for its scope. */
  predicate Tallies(n: Counters, charged: seq<Scope>, about: set<Scope>) {
    forall s | s in Scopes(about) :: Get(n, KeyOf(s)) == CountScope(charged, s)
  }

  /** No counter is above a non-negative cap of its scope. */
  predicate WithinCaps(caps: Caps, n: Counters, about: set<Scope>) {
    forall s | s in Scopes(about) && caps(s).Some? && caps(s).value >= 0 :: Get(n, KeyOf(s)) <= caps(s).value
  }

  predicate AlwaysTallies(about: set<Scope>, caps: Caps, asks: seq<Ask>) {
    About(asks, about) ==> Tallies(Run(caps, asks).0, Run(caps, asks).1, about)
  }

  predicate AlwaysWithin(about: set<Scope>, caps: Caps, asks: seq<Ask>) {
    About(asks, about) ==> WithinCaps(caps, Run(caps, asks).0, about)
  }

  lemma SpecKeys(caps: Caps, t: Scope)
    ensures DistinctKeys(SpecsOf(caps, t))
    ensures forall key :: Names(SpecsOf(caps, t), key) <==> key == KeyOf(t) || key == KeyOf(Own(t))
  {
    var specs := SpecsOf(caps, t);
    assert |AssetKey(t.program, t.asset)| > |t.program|;
    assert specs[0] in specs && (t.asset != "" ==> specs[1] in specs);
    forall key ensures Names(specs, key) <==> key == KeyOf(t) || key == KeyOf(Own(t)) {
      if key == KeyOf(t) || key == KeyOf(Own(t)) {
        assert specs[if key == KeyOf(Own(t)) then 0 else 1].key == key;
      }
    }
  }

  /** With keys apart, one charge moves exactly the counters of the scopes it is charged to. */
  lemma ChargedApart(caps: Caps, n: Counters, about: set<Scope>, t: Scope, s: Scope)
    requires Apart(about) && t in about && s in Scopes(about)
    ensures Get(Charged(n, SpecsOf(caps, t)), KeyOf(s)) == Get(n, KeyOf(s)) + if ChargedTo(t, s) then 1 else 0
  {
    SpecKeys(caps, t);
    ChargedOnce(n, SpecsOf(caps, t), KeyOf(s));
    assert t in Scopes(about) && Own(t) in Scopes(about);
  }

  lemma {:induction false} CountersTally(caps: Caps, asks: seq<Ask>, about: set<Scope>)
    requires Apart(about) && About(asks, about)
    ensures Tallies(Run(caps, asks).0, Run(caps, asks).1, about)
  {
    if asks != [] {
      var k := |asks| - 1;
      CountersTally(caps, asks[..k], about);
      var (n, charged) := Run(caps, asks[..k]);
      var t := asks[k].scope;
      assert (charged + [t])[..|charged|] == charged;
      forall s | s in Scopes(about)
        ensures Get(Charged(n, SpecsOf(caps, t)), KeyOf(s)) == Get(n, KeyOf(s)) + if ChargedTo(t, s) then 1 else 0
      {
        ChargedApart(caps, n, about, t, s);
      }
    }
  }

  // ---------------------------------------------------------------- decisions as reserve calls

  /** The reserve calls that the decisions make. */
  function Calls(caps: Caps, asks: seq<Ask>): seq<seq<Spec>> {
    if asks == [] then []
    else
      var ask := asks[|asks| - 1];
      Calls(caps, asks[..|asks| - 1]) + if ask.otherwiseFine && !ask.pinned then [SpecsOf(caps, ask.scope)] else []
  }

  lemma ReservesSnoc(calls: seq<seq<Spec>>, call: seq<Spec>)
    ensures Reserves(calls + [call]).0 == Reserve(Reserves(calls).0, call).0
  {
    assert (calls + [call])[..|calls|] == calls;
  }

  lemma {:induction false} RunIsReserves(caps: Caps, asks: seq<Ask>)
    ensures Run(caps, asks).0 == Reserves(Calls(caps, asks)).0
  {
    if asks != [] {
      var k := |asks| - 1;
      var calls, ask := Calls(caps, asks[..k]), asks[k];
      RunIsReserves(caps, asks[..k]);
      if ask.otherwiseFine && !ask.pinned {
        ReservesSnoc(calls, SpecsOf(caps, ask.scope));
      } else {
        assert Calls(caps, asks) == calls;
      }
    }
  }

  /** The cap of a key: that of the scope which has it. */
  ghost function CapOf(caps: Caps, about: set<Scope>, key: string): Option<int> {
    if exists s :: s in Scopes(about) && KeyOf(s) == key
    then var s :| s in Scopes(about) && KeyOf(s) == key; caps(s)
    else None
  }

  lemma {:induction false} CallsFixed(caps: Caps, asks: seq<Ask>, about: set<Scope>, i: nat)
    requires Apart(about) && About(asks, about) && i < |Calls(caps, asks)|
    ensures DistinctKeys(Calls(caps, asks)[i]) && CapsAre(Calls(caps, asks)[i], key => CapOf(caps, about, key))
  {
    var k := |asks| - 1;
    var before, t := Calls(caps, asks[..k]), asks[k].scope;
    if i < |before| {
      CallsFixed(caps, asks[..k], about, i);
      assert Calls(caps, asks)[i] == before[i];
    } else {
      SpecKeys(caps, t);
      assert t in Scopes(about) && Own(t) in Scopes(about);
    }
  }

  lemma NoCapExceeded(caps: Caps, asks: seq<Ask>, about: set<Scope>)
    requires Apart(about) && About(asks, about)
    ensures WithinCaps(caps, Run(caps, asks).0, about)
  {
    var calls, capOf := Calls(caps, asks), (key: string) => CapOf(caps, about, key);
    forall i | 0 <= i < |calls| ensures DistinctKeys(calls[i]) && CapsAre(calls[i], capOf) {
      CallsFixed(caps, asks, about, i);
    }
    RunIsReserves(caps, asks);
    forall s | s in Scopes(about) && caps(s).Some? && caps(s).value >= 0
      ensures Get(Run(caps, asks).0, KeyOf(s)) <= caps(s).value
    {
      ReservesWithinCaps(calls, capOf, KeyOf(s));
    }
  }

  // ---------------------------------------------------------------- exactly when

  /** One allowed decision about t, when t has no cap and neither has its program. */
  lemma OneCharge(caps: Caps, t: Scope)
    requires caps(t) == None && caps(Own(t)) == None
    ensures var (n, charged) := Run(caps, [Ask(t, false, true)]);
            charged == [t] && Get(n, KeyOf(t)) == 1 && Get(n, KeyOf(Own(t))) == 1
  {
    var asks, specs := [Ask(t, false, true)], SpecsOf(caps, t);
    assert asks[..0] == [];
    FirstFullIff(map[], specs);
    SpecKeys(caps, t);
    ChargedOnce(map[], specs, KeyOf(t));
    ChargedOnce(map[], specs, KeyOf(Own(t)));
    assert [] + [t] == [t];
  }

  /** Of two scopes with one key, a decision that is charged to the first is not charged to the
      second. */
  lemma ChargedToOne(t: Scope, s: Scope, other: Scope)
    requires ChargedTo(t, s) && s != other && KeyOf(s) == KeyOf(other)
    ensures !ChargedTo(t, other)
  {
    assert |AssetKey(t.program, t.asset)| > |t.program|;
  }

  lemma Asker(about: set<Scope>, s: Scope) returns (t: Scope)
    requires s in Scopes(about)
    ensures t in about && ChargedTo(t, s)
  {
    if s in about {
      t := s;
    } else {
      t :| t in about && Own(t) == s;
    }
  }

  /** Where two scopes share a key, one decision makes the counter of one of them wrong. */
  lemma CollisionMiscounts(about: set<Scope>, s: Scope, other: Scope) returns (t: Scope)
    requires s in Scopes(about) && other in Scopes(about) && s != other && KeyOf(s) == KeyOf(other)
    ensures t in about && !AlwaysTallies(about, (x: Scope) => None, [Ask(t, false, true)])
  {
    t := Asker(about, s);
    var caps := (x: Scope) => None;
    ChargedToOne(t, s, other);
    OneCharge(caps, t);
    assert [t][..0] == [];
    assert CountScope([t], other) == 0 && Get(Run(caps, [Ask(t, false, true)]).0, KeyOf(other)) == 1;
  }

  /** Where two scopes share a key and only one has a cap, one decision about the other exceeds it. */
  lemma CollisionExceeds(about: set<Scope>, s: Scope, other: Scope) returns (t: Scope)
    requires s in Scopes(about) && other in Scopes(about) && s != other && KeyOf(s) == KeyOf(other)
    ensures t in about
    ensures !AlwaysWithin(about, (x: Scope) => if x == other then Some(0) else None, [Ask(t, false, true)])
  {
    t := Asker(about, s);
    var caps := (x: Scope) => if x == other then Some(0) else None;
    ChargedToOne(t, s, other);
    OneCharge(caps, t);
    assert caps(other) == Some(0) && Get(Run(caps, [Ask(t, false, true)]).0, KeyOf(other)) == 1;
  }

  /** Over any interleaving of decisions about given scopes, under any caps, every counter is the number
      of unpinned ALLOW decisions for its scope exactly if no two of the scopes share a key. */
  lemma TallyIffApart(about: set<Scope>)
    ensures (forall caps: Caps, asks: seq<Ask> :: AlwaysTallies(about, caps, asks)) <==> Apart(about)
  {
    if Apart(about) {
      forall caps: Caps, asks: seq<Ask> ensures AlwaysTallies(about, caps, asks) {
        if About(asks, about) {
          CountersTally(caps, asks, about);
        }
      }
    } else {
      var s, other :| s in Scopes(about) && other in Scopes(about) && KeyOf(s) == KeyOf(other) && s != other;
      var t := CollisionMiscounts(about, s, other);
      assert !AlwaysTallies(about, (x: Scope) => None, [Ask(t, false, true)]);
    }
  }

  /** No interleaving of decisions about given scopes exceeds a cap, whatever the caps are, exactly if no
      two of the scopes share a key. */
  lemma CapsIffApart(about: set<Scope>)
    ensures (forall caps: Caps, asks: seq<Ask> :: AlwaysWithin(about, caps, asks)) <==> Apart(about)
  {
    if Apart(about) {
      forall caps: Caps, asks: seq<Ask> ensures AlwaysWithin(about, caps, asks) {
        if About(asks, about) {
          NoCapExceeded(caps, asks, about);
        }
      }
    } else {
      var s, other :| s in Scopes(about) && other in Scopes(about) && KeyOf(s) == KeyOf(other) && s != other;
      var t := CollisionExceeds(about, s, other);
      assert !AlwaysWithin(about, (x: Scope) => if x == other then Some(0) else None, [Ask(t, false, true)]);
    }
  }

  /** Program ids without a slash keep all keys apart. */
  lemma PlainProgramsApart(about: set<Scope>)
    requires forall s | s in about :: '/' !in s.program
    ensures Apart(about)
  {
    forall s, t | s in Scopes(about) && t in Scopes(about) && KeyOf(s) == KeyOf(t) ensures s == t {
      PlainKeysApart(s, t);
    }
  }

  lemma PlainKeysApart(s: Scope, t: Scope)
    requires '/' !in s.program && '/' !in t.program && KeyOf(s) == KeyOf(t)
    ensures s == t
  {
    var key, p, q := KeyOf(s), s.program, t.program;
    assert forall i | 0 <= i < |p| :: key[i] == p[i] && p[i] in p;
    assert forall i | 0 <= i < |q| :: key[i] == q[i] && q[i] in q;
    assert s.asset != "" ==> key[|p|] == '/';
    assert t.asset != "" ==> key[|q|] == '/';
    assert |p| == |q|;
    assert p == key[..|p|] && q == key[..|q|];
    assert s.asset != "" && t.asset != "" ==> s.asset == key[|p| + 1..] && t.asset == key[|q| + 1..];
  }

  /** A slash can make two keys one. */
  lemma SlashCollides()
    ensures !Apart({Scope("p", "a"), Scope("p/a", "")})
  {
    var about := {Scope("p", "a"), Scope("p/a", "")};
    assert Scope("p", "a") in Scopes(about) && Scope("p/a", "") in Scopes(about);
    assert KeyOf(Scope("p", "a")) == KeyOf(Scope("p/a", ""));
  }

  // ---------------------------------------------------------------- conservation

  function SumAssets(n: Counters, p: string, assets: seq<string>): nat {
    if assets == [] then 0
    else SumAssets(n, p, assets[..|assets| - 1]) + Get(n, KeyOf(Scope(p, assets[|assets| - 1])))
  }

  function CountLabelled(charged: seq<Scope>, p: string, assets: seq<string>): nat {
    if assets == [] then 0
    else CountLabelled(charged, p, assets[..|assets| - 1]) + CountScope(charged, Scope(p, assets[|assets| - 1]))
  }

  /** The decisions of a program that named no asset. */
  function Unlabelled(charged: seq<Scope>, p: string): nat {
    if charged == [] then 0
    else Unlabelled(charged[..|charged| - 1], p) + if charged[|charged| - 1] == Scope(p, "") then 1 else 0
  }

  lemma {:induction false} LabelledSnoc(charged: seq<Scope>, t: Scope, p: string, assets: seq<string>)
    requires Distinct(assets) && "" !in assets
    ensures CountLabelled(charged + [t], p, assets) ==
            CountLabelled(charged, p, assets) + if t.program == p && t.asset in assets then 1 else 0
  {
    assert (charged + [t])[..|charged|] == charged;
    if assets != [] {
      var k := |assets| - 1;
      assert assets == assets[..k] + [assets[k]];
      LabelledSnoc(charged, t, p, assets[..k]);
    }
  }

  lemma {:induction false} NoneLabelled(p: string, assets: seq<string>)
    ensures CountLabelled([], p, assets) == 0
  {
    if assets != [] {
      NoneLabelled(p, assets[..|assets| - 1]);
    }
  }

  lemma {:induction false} ProgramIsSum(charged: seq<Scope>, p: string, assets: seq<string>)
    requires Distinct(assets) && "" !in assets
    requires forall i | 0 <= i < |charged| && charged[i].program == p && charged[i].asset != "" ::
               charged[i].asset in assets
    ensures CountScope(charged, Scope(p, "")) == Unlabelled(charged, p) + CountLabelled(charged, p, assets)
  {
    if charged == [] {
      NoneLabelled(p, assets);
    } else {
      var k := |charged| - 1;
      ProgramIsSum(charged[..k], p, assets);
      LabelledSnoc(charged[..k], charged[k], p, assets);
      assert charged[..k] + [charged[k]] == charged;
    }
  }

  lemma {:induction false} SumIsLabelled(n: Counters, charged: seq<Scope>, about: set<Scope>, p: string, assets: seq<string>)
    requires Tallies(n, charged, about) && forall a | a in assets :: Scope(p, a) in about
    ensures SumAssets(n, p, assets) == CountLabelled(charged, p, assets)
  {
    if assets != [] {
      var k := |assets| - 1;
      assert assets[k] in assets && forall a | a in assets[..k] :: a in assets;
      SumIsLabelled(n, charged, about, p, assets[..k]);
      assert Scope(p, assets[k]) in Scopes(about);
    }
  }

  lemma {:induction false} ChargedAreAbout(caps: Caps, asks: seq<Ask>, about: set<Scope>, i: nat)
    requires About(asks, about) && i < |Run(caps, asks).1|
    ensures Run(caps, asks).1[i] in about
  {
    var k := |asks| - 1;
    if i < |Run(caps, asks[..k]).1| {
      ChargedAreAbout(caps, asks[..k], about, i);
    }
  }

  /** Conservation: with keys apart, a program's counter is the sum of its assets' counters and of its
      unlabelled decisions, over any interleaving. */
  lemma BudgetsConserved(caps: Caps, asks: seq<Ask>, about: set<Scope>, p: string, assets: seq<string>)
    requires Apart(about) && About(asks, about) && Scope(p, "") in Scopes(about)
    requires Distinct(assets) && forall a :: a in assets <==> a != "" && Scope(p, a) in about
    ensures var (n, charged) := Run(caps, asks);
            Get(n, p) == Unlabelled(charged, p) + SumAssets(n, p, assets)
  {
    CountersTally(caps, asks, about);
    var (n, charged) := Run(caps, asks);
    forall i | 0 <= i < |charged| ensures charged[i] in about {
      ChargedAreAbout(caps, asks, about, i);
    }
    ProgramIsSum(charged, p, assets);
    SumIsLabelled(n, charged, about, p, assets);
    assert KeyOf(Scope(p, "")) == p;
  }

  /** A decision with the pin of its connection, and a refused one, charge nothing. */
  lemma PinnedChargesNothing(caps: Caps, n: Counters, ask: Ask)
    ensures ask.pinned ==> Decide(caps, n, ask) == (n, ask.otherwiseFine)
    ensures !Decide(caps, n, ask).1 ==> Decide(caps, n, ask).0 == n
  {
  }
}
