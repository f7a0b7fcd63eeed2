/** The audit file, byte by byte: how records get into it, and the four ways it is read back. */
module AuditFile {
  import opened Records
  import opened Chain

  const LF: Byte := 10
  const CR: Byte := 13

  predicate IsBlank(b: Byte) { b == 32 || 9 <= b <= 13 }

  function StripLeft(s: Bytes): Bytes {
    if s != [] && IsBlank(s[0]) then StripLeft(s[1..]) else s
  }

  function StripRight(s: Bytes): Bytes {
    if s != [] && IsBlank(s[|s| - 1]) then StripRight(s[..|s| - 1]) else s
  }

  function Strip(s: Bytes): Bytes { StripRight(StripLeft(s)) }

  /** Complete raw lines, and what stands behind the last terminator. */
  datatype Lines = Lines(done: seq<Bytes>, open_: Bytes)

  /** Iterating over a binary file splits at LF only. */
  function Split(file: Bytes): Lines {
    if file == [] then Lines([], [])
    else
      var before := Split(file[..|file| - 1]);
      var b := file[|file| - 1];
      if b == LF then Lines(before.done + [before.open_], []) else Lines(before.done, before.open_ + [b])
  }

  /** `bytes.splitlines` also splits at CR; CR LF counts as one terminator. */
  function SplitUniversal(file: Bytes): Lines {
    if file == [] then Lines([], [])
    else
      var n := |file| - 1;
      var before := SplitUniversal(file[..n]);
      var b := file[n];
      if b == LF && n > 0 && file[n - 1] == CR then before
      else if b == LF || b == CR then Lines(before.done + [before.open_], [])
      else Lines(before.done, before.open_ + [b])
  }

  function Raws(ls: Lines): seq<Bytes> {
    if ls.open_ == [] then ls.done else ls.done + [ls.open_]
  }

  /** The stripped lines that are not blank. */
  function Content(raws: seq<Bytes>): seq<Bytes> {
    if raws == [] then []
    else
      var before := Content(raws[..|raws| - 1]);
      var line := Strip(raws[|raws| - 1]);
      if line == [] then before else before + [line]
  }

  /** No proper prefix of an object is an object. */
  ghost predicate Unsplittable(c: Codec) {
    forall line: Bytes, k: nat | 0 < k < |line| && c.parse(line).Some? :: c.parse(Strip(line[..k])) == None
  }

  function FileLines(file: Bytes): seq<Bytes> { Content(Raws(Split(file))) }

  function FileWalk(c: Codec, file: Bytes): Option<ChainFacts> { Walk(c, FileLines(file)) }

  // ---------------------------------------------------------------- the four readers

  /** `AuditLog.verify`. */
  method Verify(c: Codec, file: Bytes) returns (intact: bool)
    ensures intact <==> FileWalk(c, file).Some?
  {
    var raws := Raws(Split(file));
    var tail, n := GENESIS, 0;
    ghost var lines := [];
    for i := 0 to |raws|
      invariant lines == Content(raws[..i]) && Walk(c, lines).Some?
      invariant Walk(c, lines).value.tail == tail && Walk(c, lines).value.count == n
    {
      ContentSnoc(raws, i);
      var line := Strip(raws[i]);
      if line == [] { continue; }
      WalkSnoc(c, lines, line);
      var rec := c.parse(line);
      if rec.None? || rec.value.prev != Some(tail) {
        BreakStays(c, raws, i + 1);
        return false;
      }
      tail, n, lines := c.hash(line), n + 1, lines + [line];
    }
    assert raws[..|raws|] == raws;
    return true;
  }

  /** `e10_anchor.audit_facts`, which splits the file its own way. */
  method AuditFacts(c: Codec, file: Bytes) returns (facts: Option<ChainFacts>)
    ensures facts == Walk(c, Content(Raws(SplitUniversal(file))))
  {
    var raws := Raws(SplitUniversal(file));
    var count, tail, last := 0, GENESIS, None;
    ghost var lines := [];
    for i := 0 to |raws|
      invariant lines == Content(raws[..i]) && Walk(c, lines) == Some(ChainFacts(count, tail, last))
    {
      ContentSnoc(raws, i);
      var line := Strip(raws[i]);
      if line == [] { continue; }
      WalkSnoc(c, lines, line);
      var rec := c.parse(line);
      if rec.None? || rec.value.prev != Some(tail) {
        BreakStays(c, raws, i + 1);
        return None;
      }
      tail, count, last, lines := c.hash(line), count + 1, rec, lines + [line];
    }
    assert raws[..|raws|] == raws;
    return Some(ChainFacts(count, tail, last));
  }

  predicate NoBlankBefore(raws: seq<Bytes>, n: nat)
    requires n <= |raws|
  {
    forall i | 0 <= i < n :: Strip(raws[i]) != []
  }

  predicate NoBlankLine(raws: seq<Bytes>) { NoBlankBefore(raws, |raws|) }

  /** `verify_e10._load_and_verify`, which forbids blank lines. */
  method LoadAndVerify(c: Codec, file: Bytes) returns (records: Option<seq<Entry>>)
    ensures records.Some? <==> NoBlankLine(Raws(Split(file))) && FileWalk(c, file).Some?
    ensures records.Some? ==> records.value == Entries(c, FileLines(file))
  {
    var raws := Raws(Split(file));
    var prev, entries := GENESIS, [];
    for i := 0 to |raws|
      invariant LoadedTo(c, raws, i, prev, entries)
    {
      var line := Strip(raws[i]);
      LoadStep(c, raws, i, prev, entries);
      if line == [] { return None; }
      var rec := c.parse(line);
      if rec.None? || rec.value.prev != Some(prev) { return None; }
      prev, entries := c.hash(line), entries + [rec.value.entry];
    }
    LoadDone(c, raws, prev, entries);
    return Some(entries);
  }

  /** The loop has read the first i raw lines. */
  predicate LoadedTo(c: Codec, raws: seq<Bytes>, i: nat, prev: string, entries: seq<Entry>)
    requires i <= |raws|
  {
    NoBlankBefore(raws, i) && Loaded(c, Content(raws[..i]), prev, entries)
  }

  lemma LoadStep(c: Codec, raws: seq<Bytes>, i: nat, prev: string, entries: seq<Entry>)
    requires i < |raws| && LoadedTo(c, raws, i, prev, entries)
    ensures var line := Strip(raws[i]);
            if line == [] then !NoBlankLine(raws)
            else if c.parse(line).None? || c.parse(line).value.prev != Some(prev) then Walk(c, Content(raws)).None?
            else LoadedTo(c, raws, i + 1, c.hash(line), entries + [c.parse(line).value.entry])
  {
    var line := Strip(raws[i]);
    ContentSnoc(raws, i);
    LoadedSnoc(c, Content(raws[..i]), prev, entries, line);
    if line != [] && (c.parse(line).None? || c.parse(line).value.prev != Some(prev)) {
      BreakStays(c, raws, i + 1);
    }
  }

  lemma LoadDone(c: Codec, raws: seq<Bytes>, prev: string, entries: seq<Entry>)
    requires LoadedTo(c, raws, |raws|, prev, entries)
    ensures NoBlankLine(raws) && Loaded(c, Content(raws), prev, entries)
  {
    assert raws[..|raws|] == raws;
  }

  /** The loop has read these lines of an intact chain. */
  predicate Loaded(c: Codec, lines: seq<Bytes>, prev: string, entries: seq<Entry>) {
    Walk(c, lines).Some? && Walk(c, lines).value.tail == prev && entries == Entries(c, lines)
  }

  lemma LoadedSnoc(c: Codec, lines: seq<Bytes>, prev: string, entries: seq<Entry>, line: Bytes)
    requires Loaded(c, lines, prev, entries)
    ensures c.parse(line).None? || c.parse(line).value.prev != Some(prev) ==> Walk(c, lines + [line]).None?
    ensures c.parse(line).Some? && c.parse(line).value.prev == Some(prev) ==>
              Loaded(c, lines + [line], c.hash(line), entries + [c.parse(line).value.entry])
  {
    WalkSnoc(c, lines, line);
    if Walk(c, lines + [line]).Some? {
      EntriesSnoc(c, lines, line);
    }
  }

  /** `AuditLog._recover_tail`, which skips what does not parse and checks no link; on an intact
      file it finds what the chain walk finds. */
  method RecoverTail(c: Codec, file: Bytes) returns (tail: string, last: Option<Parsed>)
    ensures FileWalk(c, file).Some? ==> FileWalk(c, file).value.tail == tail && FileWalk(c, file).value.last == last
  {
    var raws := Raws(Split(file));
    tail, last := GENESIS, None;
    ghost var lines := [];
    for i := 0 to |raws|
      invariant lines == Content(raws[..i])
      invariant Found(c, lines, tail, last)
    {
      ContentSnoc(raws, i);
      var line := Strip(raws[i]);
      if line != [] {
        FoundSnoc(c, lines, tail, last, line);
        lines := lines + [line];
        var rec := c.parse(line);
        if rec.Some? { tail, last := c.hash(line), rec; }
      }
    }
    assert raws[..|raws|] == raws;
  }

  /** What a chain walk finds, if the chain is intact. */
  predicate Found(c: Codec, lines: seq<Bytes>, tail: string, last: Option<Parsed>) {
    Walk(c, lines).Some? ==> Walk(c, lines).value.tail == tail && Walk(c, lines).value.last == last
  }

  lemma FoundSnoc(c: Codec, lines: seq<Bytes>, tail: string, last: Option<Parsed>, line: Bytes)
    requires Found(c, lines, tail, last)
    ensures Found(c, lines + [line], if c.parse(line).Some? then c.hash(line) else tail,
                  if c.parse(line).Some? then c.parse(line) else last)
  {
    WalkSnoc(c, lines, line);
  }

  lemma ContentSnoc(raws: seq<Bytes>, i: nat)
    requires i < |raws|
    ensures Content(raws[..i + 1]) ==
            if Strip(raws[i]) == [] then Content(raws[..i]) else Content(raws[..i]) + [Strip(raws[i])]
  {
    assert raws[..i + 1][..i] == raws[..i];
  }

  lemma EntriesSnoc(c: Codec, lines: seq<Bytes>, line: Bytes)
    requires Walk(c, lines).Some? && Walk(c, lines + [line]).Some?
    ensures Entries(c, lines + [line]) == Entries(c, lines) + [c.parse(line).value.entry]
  {
    assert (lines + [line])[..|lines|] == lines;
  }

  /** A chain that is broken at a prefix is broken. */
  lemma {:induction false} BreakStays(c: Codec, raws: seq<Bytes>, n: nat)
    requires n <= |raws| && Walk(c, Content(raws[..n])).None?
    ensures Walk(c, Content(raws)).None?
    decreases |raws| - n
  {
    if n == |raws| {
      assert raws[..n] == raws;
    } else {
      ContentSnoc(raws, n);
      if Strip(raws[n]) != [] {
        WalkSnoc(c, Content(raws[..n]), Strip(raws[n]));
      }
      BreakStays(c, raws, n + 1);
    }
  }
}
