/** Redaction before writing: what `_scrub` leaves of the secrets. */
module Redaction {
  const WORD := "REDACTED"
  const OPEN: char := '\U{00AB}'
  const CLOSE: char := '\U{00BB}'
  const MARK := [OPEN] + WORD + [CLOSE]

  /** s occurs in t at position i. */
  predicate At(t: string, s: string, i: nat) {
    i + |s| <= |t| && t[i..i + |s|] == s
  }

  predicate Contains(t: string, s: string) {
    exists i: nat | i <= |t| :: At(t, s, i)
  }

  /** `str.replace`: from left to right, without overlaps, never looking into what it put in. */
  function Replace(t: string, s: string): string
    requires s != ""
    decreases |t|
  {
    if t == "" then ""
    else if s <= t then MARK + Replace(t[|s|..], s)
    else [t[0]] + Replace(t[1..], s)
  }

  function ScrubString(t: string, secrets: seq<string>): string {
    if secrets == [] then t
    else
      var out := ScrubString(t, secrets[..|secrets| - 1]);
      var s := secrets[|secrets| - 1];
      if s != "" && Contains(out, s) then Replace(out, s) else out
  }

  /** A Python value that becomes JSON; keys are no values.  A tuple becomes a JSON list. */
  datatype Value =
    | Str(text: string) | Dict(fields: seq<(string, Value)>) | List(items: seq<Value>) | Tuple(parts: seq<Value>)
    | Other(n: int)

  function Scrub(v: Value, secrets: seq<string>): Value
    decreases v
  {
    match v
    case Str(t) => Str(ScrubString(t, secrets))
    case Dict(fields) =>
      Dict(seq(|fields|, i requires 0 <= i < |fields| => (fields[i].0, Scrub(fields[i].1, secrets))))
    case List(items) => List(seq(|items|, i requires 0 <= i < |items| => Scrub(items[i], secrets)))
    case Tuple(_) => v
    case Other(_) => v
  }

  /** No string value, at any depth, contains the secret. */
  predicate Clean(v: Value, s: string)
    decreases v
  {
    match v
    case Str(t) => !Contains(t, s)
    case Dict(fields) => forall i | 0 <= i < |fields| :: Clean(fields[i].1, s)
    case List(items) => forall i | 0 <= i < |items| :: Clean(items[i], s)
    case Tuple(parts) => forall i | 0 <= i < |parts| :: Clean(parts[i], s)
    case Other(_) => true
  }

  /** No string value inside a tuple contains the secret. */
  predicate TuplesClean(v: Value, s: string)
    decreases v
  {
    match v
    case Str(_) => true
    case Dict(fields) => forall i | 0 <= i < |fields| :: TuplesClean(fields[i].1, s)
    case List(items) => forall i | 0 <= i < |items| :: TuplesClean(items[i], s)
    case Tuple(_) => Clean(v, s)
    case Other(_) => true
  }

  /** The marker laid over r at offset d (which may be negative) agrees with it where they meet. */
  predicate AgreesAt(r: string, d: int) {
    forall k | 0 <= k < |r| && d <= k < d + |MARK| :: r[k] == MARK[k - d]
  }

  /** r and the marker can share a part of a text: one contains the other, or an end of one is a start
      of the other. */
  predicate Overlaps(r: string) {
    exists d: int :: -|MARK| < d < |r| && AgreesAt(r, d)
  }

  /** A secret that the marker cannot bring back. */
  predicate Safe(s: string) { s != "" && !Overlaps(s) }

  // ---------------------------------------------------------------- occurrences

  lemma Shift(t: string, s: string, k: nat, i: nat)
    requires k <= |t| && At(t[k..], s, i)
    ensures At(t, s, k + i) && Contains(t, s)
  {
    assert t[k..][i..i + |s|] == t[k + i..k + i + |s|];
    assert At(t, s, k + i);
  }

  lemma Unshift(t: string, s: string, k: nat, i: nat)
    requires k <= i && At(t, s, i)
    ensures k <= |t| && At(t[k..], s, i - k) && Contains(t[k..], s)
  {
    assert t[k..][i - k..i - k + |s|] == t[i..i + |s|];
    assert At(t[k..], s, i - k);
  }

  /** A secret that occurs over a marker in a text overlaps the marker. */
  lemma MetMark(t: string, r: string, i: nat, j: nat)
    requires At(t, r, i) && At(t, MARK, j) && i < j + |MARK| && j < i + |r|
    ensures Overlaps(r)
  {
    var d := j - i;
    forall k | 0 <= k < |r| && d <= k < d + |MARK| ensures r[k] == MARK[k - d] {
      assert t[i..i + |r|][k] == t[i + k] && t[j..j + |MARK|][k - d] == t[i + k];
    }
    assert AgreesAt(r, d);
  }

  /** How many characters stand before the first match. */
  function FirstMatch(t: string, s: string): (j: nat)
    requires s != ""
    ensures j <= |t|
    decreases |t|
  {
    if t == "" || s <= t then 0 else 1 + FirstMatch(t[1..], s)
  }

  /** Up to there the text stays, and there the marker stands. */
  lemma {:induction false} PlainRun(t: string, s: string)
    requires s != ""
    ensures var j, out := FirstMatch(t, s), Replace(t, s);
            && j <= |out| && out[..j] == t[..j]
            && (if j == |t| then out == t else At(out, MARK, j))
    decreases |t|
  {
    if t != "" && s <= t {
      assert Replace(t, s)[0..|MARK|] == MARK;
    } else if t != "" {
      PlainRun(t[1..], s);
      OneMore(t, t[1..], Replace(t[1..], s), FirstMatch(t[1..], s));
    }
  }

  lemma OneMore(t: string, tail: string, rest: string, j: nat)
    requires t != "" && t == [t[0]] + tail && j <= |tail| && j <= |rest| && rest[..j] == tail[..j]
    requires if j == |tail| then rest == tail else At(rest, MARK, j)
    ensures ([t[0]] + rest)[..j + 1] == t[..j + 1]
    ensures if j + 1 == |t| then [t[0]] + rest == t else At([t[0]] + rest, MARK, j + 1)
  {
    var out := [t[0]] + rest;
    assert out[..j + 1] == [t[0]] + rest[..j] && t[..j + 1] == [t[0]] + tail[..j];
    if j < |tail| {
      assert out[j + 1..j + 1 + |MARK|] == rest[j..j + |MARK|];
    }
  }

  /** A safe secret at the start of the result is at the start of the text. */
  lemma StartsPlain(t: string, s: string, r: string)
    requires s != "" && Safe(r) && At(Replace(t, s), r, 0)
    ensures At(t, r, 0) && Contains(t, r)
  {
    var j, out := FirstMatch(t, s), Replace(t, s);
    PlainRun(t, s);
    if j < |t| && j < |r| {
      MetMark(out, r, 0, j);
    }
    assert r == out[..|r|];
    assert |r| <= j ==> out[..|r|] == out[..j][..|r|] && t[..|r|] == t[..j][..|r|];
    assert At(t, r, 0);
  }

  /** A replacement leaves no occurrence of its own secret and recreates none of another. */
  lemma {:induction false} ReplaceCleans(t: string, s: string, r: string, i: nat)
    requires s != "" && Safe(r) && (r == s || !Contains(t, r))
    ensures !At(Replace(t, s), r, i)
    decreases |t|
  {
    var out := Replace(t, s);
    if t != "" && At(out, r, i) {
      var k := if s <= t then |s| else 1;
      var m := if s <= t then |MARK| else 1;
      if i >= m {
        assert out[m..] == Replace(t[k..], s);
        Unshift(out, r, m, i);
        Absent(t, r, k);
        ReplaceCleans(t[k..], s, r, i - m);
      } else if s <= t {
        assert out[0..|MARK|] == MARK;
        MetMark(out, r, i, 0);
      } else {
        StartsPlain(t, s, r);
      }
    }
  }

  lemma Absent(t: string, r: string, k: nat)
    requires k <= |t|
    ensures !Contains(t, r) ==> !Contains(t[k..], r)
  {
    if Contains(t[k..], r) {
      var i: nat :| i <= |t[k..]| && At(t[k..], r, i);
      Shift(t, r, k, i);
    }
  }

  lemma OneReplaced(t: string, s: string, r: string)
    requires s != "" && Safe(r) && (r == s || !Contains(t, r))
    ensures !Contains(Replace(t, s), r)
  {
    forall i: nat | i <= |Replace(t, s)| ensures !At(Replace(t, s), r, i) {
      ReplaceCleans(t, s, r, i);
    }
  }

  /** In whatever order the secrets are taken, none that is safe is left. */
  lemma {:induction false} ScrubCleans(t: string, secrets: seq<string>, r: string)
    requires Safe(r) && r in secrets
    ensures !Contains(ScrubString(t, secrets), r)
  {
    var n := |secrets| - 1;
    var s := secrets[n];
    var out := ScrubString(t, secrets[..n]);
    if r in secrets[..n] {
      ScrubCleans(t, secrets[..n], r);
    }
    if s != "" && Contains(out, s) {
      OneReplaced(out, s, r);
    }
  }

  /** Redaction: a secret that cannot be confused with the marker is in a string value of a record
      after scrubbing, at any depth and in any iteration order of the secrets, exactly if it was inside
      a tuple. */
  lemma {:induction false} ScrubbedCleanIff(v: Value, secrets: seq<string>, r: string)
    requires Safe(r) && r in secrets
    ensures Clean(Scrub(v, secrets), r) <==> TuplesClean(v, r)
    decreases v
  {
    match v
    case Str(t) => ScrubCleans(t, secrets, r);
    case Dict(fields) =>
      var out := Scrub(v, secrets);
      forall i | 0 <= i < |fields| ensures Clean(out.fields[i].1, r) <==> TuplesClean(fields[i].1, r) {
        ScrubbedCleanIff(fields[i].1, secrets, r);
      }
    case List(items) =>
      var out := Scrub(v, secrets);
      forall i | 0 <= i < |items| ensures Clean(out.items[i], r) <==> TuplesClean(items[i], r) {
        ScrubbedCleanIff(items[i], secrets, r);
      }
    case Tuple(_) =>
    case Other(_) =>
  }

  /** A pin as records carry it. */
  function PinTuple(family: string, ip: string, port: int): Value {
    Tuple([Str(family), Str(ip), Other(port)])
  }

  /** What is a part of a pinned address survives in every record that names the pin. */
  lemma PinSurvives(fields: seq<(string, Value)>, i: nat, family: string, ip: string, port: int,
                    secrets: seq<string>, r: string)
    requires i < |fields| && fields[i].1 == PinTuple(family, ip, port) && Contains(ip, r)
    ensures !Clean(Scrub(Dict(fields), secrets), r)
  {
    assert !Clean(fields[i].1.parts[1], r);
    assert Scrub(Dict(fields), secrets).fields[i].1 == fields[i].1;
  }

  // ---------------------------------------------------------------- the stamps of the writer

  function Without(fields: seq<(string, Value)>, keys: set<string>): seq<(string, Value)> {
    if fields == [] then []
    else
      var n := |fields| - 1;
      Without(fields[..n], keys) + if fields[n].0 in keys then [] else [fields[n]]
  }

  const STAMPS := {"ts", "run_id", "prev"}

  /** The record as `write` renders it: the scrubbed entry, and time, run id and previous hash put in
      their places afterwards. */
  function StampedRec(fields: seq<(string, Value)>, secrets: seq<string>, ts: int, runId: string, prev: string): Value {
    Dict(Without(Scrub(Dict(fields), secrets).fields, STAMPS)
         + [("ts", Other(ts)), ("run_id", Str(runId)), ("prev", Str(prev))])
  }

  lemma {:induction false} WithoutClean(fields: seq<(string, Value)>, keys: set<string>, r: string)
    ensures Clean(Dict(Without(fields, keys)), r) <==>
            forall i | 0 <= i < |fields| && fields[i].0 !in keys :: Clean(fields[i].1, r)
  {
    if fields != [] {
      var n := |fields| - 1;
      WithoutClean(fields[..n], keys, r);
      assert forall i | 0 <= i < n :: fields[..n][i] == fields[i];
      var more := if fields[n].0 in keys then [] else [fields[n]];
      DictJoins(Without(fields[..n], keys), more, r);
      assert fields[n].0 in keys || more[0] == fields[n];
    }
  }

  lemma DictJoins(xs: seq<(string, Value)>, ys: seq<(string, Value)>, r: string)
    ensures Clean(Dict(xs + ys), r) <==> Clean(Dict(xs), r) && Clean(Dict(ys), r)
  {
    if Clean(Dict(xs + ys), r) {
      assert forall i | 0 <= i < |xs + ys| :: Clean((xs + ys)[i].1, r);
      assert forall i | 0 <= i < |xs| :: xs[i] == (xs + ys)[i];
      assert forall i | 0 <= i < |ys| :: ys[i] == (xs + ys)[|xs| + i];
    }
  }

  /** A safe secret is in the record that is written exactly if it was inside a tuple of the entry, or is
      in the run id or in the previous hash. */
  lemma StampedCleanIff(fields: seq<(string, Value)>, secrets: seq<string>, ts: int, runId: string, prev: string, r: string)
    requires Safe(r) && r in secrets
    ensures Clean(StampedRec(fields, secrets, ts, runId, prev), r) <==>
            && (forall i | 0 <= i < |fields| && fields[i].0 !in STAMPS :: TuplesClean(fields[i].1, r))
            && !Contains(runId, r) && !Contains(prev, r)
  {
    var out := Scrub(Dict(fields), secrets).fields;
    var stamps := [("ts", Other(ts)), ("run_id", Str(runId)), ("prev", Str(prev))];
    forall i | 0 <= i < |fields| ensures Clean(out[i].1, r) <==> TuplesClean(fields[i].1, r) {
      ScrubbedCleanIff(fields[i].1, secrets, r);
    }
    WithoutClean(out, STAMPS, r);
    DictJoins(Without(out, STAMPS), stamps, r);
    assert Clean(Dict(stamps), r) <==> Clean(stamps[0].1, r) && Clean(stamps[1].1, r) && Clean(stamps[2].1, r);
  }

  // ---------------------------------------------------------------- exactly when

  /** One a and then n b: a text that does not overlap itself. */
  function Key(n: nat): (q: string)
    ensures |q| == n + 1 && q[0] == 'a' && forall k | 0 < k <= n :: q[k] == 'b'
  {
    seq(n + 1, k => if k == 0 then 'a' else 'b')
  }

  lemma KeyOnlyThere(x: string, y: string, n: nat)
    requires |x| + |y| <= n
    ensures forall p: nat | p < |x| :: !At(x + Key(n) + y, Key(n), p)
    ensures !Contains(y, Key(n))
  {
    var q := Key(n);
    var t := x + q + y;
    forall p: nat | p < |x| ensures !At(t, q, p) {
      assert q[|x| - p] == 'b' && t[|x|] == q[0];
      if p + |q| <= |t| {
        assert t[p..p + |q|][|x| - p] == t[|x|];
      }
    }
  }

  lemma {:induction false} ReplaceAbsent(t: string, s: string)
    requires s != "" && !Contains(t, s)
    ensures Replace(t, s) == t
    decreases |t|
  {
    if t != "" {
      assert s <= t ==> At(t, s, 0);
      Absent(t, s, 1);
      ReplaceAbsent(t[1..], s);
    }
  }

  lemma PrefixIsAt(t: string, q: string)
    ensures q <= t <==> At(t, q, 0)
  {
    assert |q| <= |t| ==> t[0..|q|] == t[..|q|];
  }

  lemma NotInTail(t: string, q: string, n: nat)
    requires t != "" && n > 0 && forall p: nat | p < n :: !At(t, q, p)
    ensures forall p: nat | p < n - 1 :: !At(t[1..], q, p)
  {
    forall p: nat | p < n - 1 ensures !At(t[1..], q, p) {
      assert !At(t, q, 1 + p);
      assert p + |q| <= |t[1..]| ==> t[1..][p..p + |q|] == t[1 + p..1 + p + |q|];
    }
  }

  /** The key is replaced where it stands, and nothing else is. */
  lemma {:induction false} ReplaceKey(x: string, q: string, y: string)
    requires q != "" && !Contains(y, q) && forall p: nat | p < |x| :: !At(x + q + y, q, p)
    ensures Replace(x + q + y, q) == x + MARK + y
    decreases |x|
  {
    var t := x + q + y;
    if x == "" {
      assert t == q + y && q <= t && t[|q|..] == y;
      ReplaceAbsent(y, q);
      assert x + MARK + y == MARK + y;
    } else {
      assert !At(t, q, 0);
      PrefixIsAt(t, q);
      assert t[1..] == x[1..] + q + y;
      NotInTail(t, q, |x|);
      ReplaceKey(x[1..], q, y);
      PutFront(x, y);
    }
  }

  lemma PutFront(x: string, y: string)
    requires x != ""
    ensures [x[0]] + (x[1..] + MARK + y) == x + MARK + y
  {
  }

  /** What of r is left of a marker laid over it at offset d, and what is right of it. */
  function LeftOf(r: string, d: int): (x: string)
    requires d < |r|
    ensures |x| == if d > 0 then d else 0
  {
    if d > 0 then r[..d] else ""
  }

  function RightOf(r: string, d: int): (y: string)
    requires -|MARK| < d
    ensures |y| == if d + |MARK| < |r| then |r| - d - |MARK| else 0
  {
    if d + |MARK| < |r| then r[d + |MARK|..] else ""
  }

  lemma CutHolds(r: string, d: int)
    requires -|MARK| < d < |r| && AgreesAt(r, d)
    ensures Contains(LeftOf(r, d) + MARK + RightOf(r, d), r)
  {
    var x, y := LeftOf(r, d), RightOf(r, d);
    var out, i: nat := x + MARK + y, if d > 0 then 0 else -d;
    forall k | 0 <= k < |r| ensures i + k < |out| && out[i + k] == r[k] {
      if k < d {
        assert out[k] == x[k];
      } else if k < d + |MARK| {
        assert out[|x| + (i + k - |x|)] == MARK[k - d];
      } else {
        assert out[|x| + |MARK| + (k - d - |MARK|)] == y[k - d - |MARK|];
      }
    }
    assert i + |r| <= |out|;
    assert out[i..i + |r|] == r;
    assert At(out, r, i);
  }

  lemma CutMeets(r: string, d: int)
    requires r != "" && -|MARK| < d < |r| && AgreesAt(r, d)
    ensures |LeftOf(r, d)| + |RightOf(r, d)| < |r| && r[|LeftOf(r, d)|] in MARK
  {
    var k := |LeftOf(r, d)|;
    assert r[k] == MARK[k - d];
  }

  /** A text of a long key between x and y does not contain r. */
  lemma KeyHides(x: string, y: string, r: string)
    requires |x| + |y| < |r| && r[|x|] in MARK
    ensures !Contains(x + Key(|r|) + y, r)
  {
    var q := Key(|r|);
    var t := x + q + y;
    assert 'a' !in MARK && 'b' !in MARK;
    forall p: nat | p <= |t| ensures !At(t, r, p) {
      if p + |r| <= |t| {
        var k := p + |x|;
        assert t[p..p + |r|][|x|] == t[k] && t[k] == q[k - |x|];
      }
    }
  }

  predicate Removes(t: string, secrets: seq<string>, r: string) {
    r in secrets ==> !Contains(ScrubString(t, secrets), r)
  }

  /** A secret that overlaps the marker survives in some text, beside some other secret. */
  lemma OverlapSurvives(r: string)
    requires r != "" && Overlaps(r)
    ensures exists t: string, secrets: seq<string> :: !Removes(t, secrets, r)
  {
    var d: int :| -|MARK| < d < |r| && AgreesAt(r, d);
    var x, y := LeftOf(r, d), RightOf(r, d);
    CutHolds(r, d);
    CutMeets(r, d);
    var q := Key(|r|);
    var t, secrets := x + q + y, [r, q];
    KeyHides(x, y, r);
    KeyOnlyThere(x, y, |r|);
    ReplaceKey(x, q, y);
    assert secrets[..1] == [r] && [r][..0] == [];
    assert ScrubString(t, [r]) == t;
    assert t[|x|..|x| + |q|] == q;
    assert At(t, q, |x|) && Contains(t, q);
    assert ScrubString(t, secrets) == Replace(t, q);
    assert !Removes(t, secrets, r);
  }

  /** Redaction removes a secret from every text, beside any other secrets and in any order, exactly if
      it is not empty and does not overlap the marker. */
  lemma RemovedIffSafe(r: string)
    ensures (forall t: string, secrets: seq<string> :: Removes(t, secrets, r)) <==> Safe(r)
  {
    if r == "" {
      assert At(ScrubString("", [""]), "", 0) && "" in [""];
      assert !Removes("", [""], r);
    } else if Overlaps(r) {
      OverlapSurvives(r);
    } else {
      forall t: string, secrets: seq<string> ensures Removes(t, secrets, r) {
        if r in secrets {
          ScrubCleans(t, secrets, r);
        }
      }
    }
  }

  /** A bracket alone does no harm: this one has one and overlaps nothing. */
  lemma BracketCanBeSafe()
    ensures Safe(['a', CLOSE, 'b'])
  {
    var r := ['a', CLOSE, 'b'];
    forall d: int | -|MARK| < d < |r| ensures !AgreesAt(r, d) {
      assert MARK[0] == OPEN && MARK[|MARK| - 1] == CLOSE;
      if d >= 0 {
        assert r[d] != MARK[d - d];
      } else if d + |MARK| > 2 {
        assert r[2] != MARK[2 - d];
      } else {
        assert r[0] != MARK[0 - d];
      }
    }
  }

  // ---------------------------------------------------------------- records without secrets

  /** Scrubbing changes nothing where no secret occurs. */
  lemma {:induction false} ScrubKeepsText(t: string, secrets: seq<string>)
    requires forall s | s in secrets && s != "" :: !Contains(t, s)
    ensures ScrubString(t, secrets) == t
  {
    if secrets != [] {
      ScrubKeepsText(t, secrets[..|secrets| - 1]);
    }
  }

  lemma {:induction false} ScrubKeeps(v: Value, secrets: seq<string>)
    requires forall s | s in secrets && s != "" :: Clean(v, s)
    ensures Scrub(v, secrets) == v
    decreases v
  {
    match v
    case Str(t) => ScrubKeepsText(t, secrets);
    case Dict(fields) =>
      forall i | 0 <= i < |fields| ensures Scrub(fields[i].1, secrets) == fields[i].1 {
        assert forall s | s in secrets && s != "" :: Clean(fields[i].1, s);
        ScrubKeeps(fields[i].1, secrets);
      }
    case List(items) =>
      forall i | 0 <= i < |items| ensures Scrub(items[i], secrets) == items[i] {
        assert forall s | s in secrets && s != "" :: Clean(items[i], s);
        ScrubKeeps(items[i], secrets);
      }
    case Tuple(_) =>
    case Other(_) =>
  }

  /** The replacement loop of `_scrub` on a string, for one order of the set of secrets. */
  method ScrubLoop(t: string, secrets: seq<string>) returns (out: string)
    ensures out == ScrubString(t, secrets)
    ensures forall r | r in secrets && Safe(r) :: !Contains(out, r)
  {
    out := t;
    for i := 0 to |secrets|
      invariant out == ScrubString(t, secrets[..i])
    {
      assert secrets[..i + 1][..i] == secrets[..i];
      if secrets[i] != "" && Contains(out, secrets[i]) { out := Replace(out, secrets[i]); }
    }
    assert secrets[..|secrets|] == secrets;
    forall r | r in secrets && Safe(r) ensures !Contains(out, r) {
      ScrubCleans(t, secrets, r);
    }
  }
}
