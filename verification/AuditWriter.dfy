/** The append side of the audit file: short writes, failures, latches and reopening. */
module AuditWriter {
  import opened Records
  import opened Chain
  import opened AuditFile
  import opened LineEnds

  // ---------------------------------------------------------------- what is assumed of JSON

  /** A line as `json.dumps` of an object gives it: on one line, with nothing blank at its ends. */
  predicate Plain(line: Bytes) {
    && line != [] && LF !in line && CR !in line
    && !IsBlank(line[0]) && !IsBlank(line[|line| - 1])
  }

  /** Encoding an entry with its `prev` gives a line that can be parsed back, and no proper prefix of an
      object is an object. */
  ghost predicate GoodCodec(c: Codec) {
    && (forall e: Entry, p: string :: Plain(c.encode(e, p)))
    && (forall e: Entry, p: string :: c.parse(c.encode(e, p)) == Some(Parsed(Some(p), e)))
    && Unsplittable(c)
  }

  /** A rendering of entries in lower-case letters. */
  ghost predicate Renders(render: (Entry, string) -> Bytes) {
    && (forall e: Entry, p: string, i | 0 <= i < |render(e, p)| :: 97 <= render(e, p)[i] <= 122)
    && (forall e: Entry, p: string, f: Entry, q: string | render(e, p) == render(f, q) :: e == f && p == q)
  }

  ghost predicate IsObject(render: (Entry, string) -> Bytes, line: Bytes, e: Entry, p: string) {
    line == [123] + render(e, p) + [125]
  }

  ghost function ParseOf(render: (Entry, string) -> Bytes, line: Bytes): Option<Parsed> {
    if exists e: Entry, p: string :: IsObject(render, line, e, p)
    then var e: Entry, p: string :| IsObject(render, line, e, p); Some(Parsed(Some(p), e))
    else None
  }

  function HashOf(line: Bytes): string { seq(|line|, i requires 0 <= i < |line| => line[i] as char) + "#" }

  /** What is assumed of codecs can be had: braces around any such rendering, and the line itself for a
      hash. */
  lemma GoodCodecExists(render: (Entry, string) -> Bytes)
    requires Renders(render)
    ensures exists c: Codec :: GoodCodec(c) && GoodHash(c)
  {
    var c := Codec((line: Bytes) => ParseOf(render, line), HashOf,
                   (e: Entry, p: string) => [123] + render(e, p) + [125]);
    forall e: Entry, p: string ensures Plain(c.encode(e, p)) && c.parse(c.encode(e, p)) == Some(Parsed(Some(p), e)) {
      BracedParses(render, e, p);
    }
    forall line: Bytes, k: nat | 0 < k < |line| && c.parse(line).Some? ensures c.parse(Strip(line[..k])) == None {
      assert c.parse(line) == ParseOf(render, line);
      BracedUnsplit(render, line, k);
      assert c.parse(Strip(line[..k])) == ParseOf(render, Strip(line[..k]));
    }
    forall x: Bytes, y: Bytes | HashOf(x) == HashOf(y) ensures x == y {
      HashTells(x, y);
    }
    forall x: Bytes ensures HashOf(x) != GENESIS {
      assert HashOf(x)[|x|] == '#' && GENESIS[|GENESIS| - 1] == '0';
    }
    assert GoodCodec(c) && GoodHash(c);
  }

  lemma BracedParses(render: (Entry, string) -> Bytes, e: Entry, p: string)
    requires Renders(render)
    ensures var line := [123] + render(e, p) + [125]; Plain(line) && ParseOf(render, line) == Some(Parsed(Some(p), e))
  {
    var line := [123] + render(e, p) + [125];
    assert forall b | b in line :: b == 123 || b == 125 || b in render(e, p);
    assert forall b | b in render(e, p) :: 97 <= b <= 122;
    assert line[0] == 123 && line[|line| - 1] == 125;
    assert IsObject(render, line, e, p);
    forall f: Entry, q: string | IsObject(render, line, f, q) ensures f == e && q == p {
      assert line[1..|line| - 1] == render(e, p) && line[1..|line| - 1] == render(f, q);
    }
  }

  lemma BracedUnsplit(render: (Entry, string) -> Bytes, line: Bytes, k: nat)
    requires Renders(render) && 0 < k < |line| && ParseOf(render, line).Some?
    ensures ParseOf(render, Strip(line[..k])) == None
  {
    var e: Entry, p: string :| IsObject(render, line, e, p);
    StripPart(line[..k]);
    assert forall i | 0 < i < |line| - 1 :: line[i] == render(e, p)[i - 1];
    assert 125 !in line[..k];
    forall f: Entry, q: string ensures !IsObject(render, Strip(line[..k]), f, q) {
      assert 125 in [123] + render(f, q) + [125];
    }
  }

  lemma HashTells(x: Bytes, y: Bytes)
    requires HashOf(x) == HashOf(y)
    ensures x == y
  {
    assert |x| == |HashOf(x)| - 1 && |y| == |HashOf(y)| - 1;
    forall i | 0 <= i < |x| ensures x[i] == y[i] {
      assert HashOf(x)[i] == x[i] as char && HashOf(y)[i] == y[i] as char;
    }
  }

  // ---------------------------------------------------------------- the write loop

  /** How many of n bytes `os.write` takes before it fails, its successive results being `counts`; a
      result of zero or less is a failure, and when the list ends the rest is taken at once. */
  function Taken(n: nat, counts: seq<int>): (k: nat)
    ensures k <= n
  {
    if n == 0 || counts == [] then n
    else if counts[0] <= 0 then 0
    else if counts[0] >= n then n
    else counts[0] + Taken(n - counts[0], counts[1..])
  }

  lemma SliceOn(data: Bytes, at: nat, n: nat)
    requires at + n <= |data|
    ensures data[..at] + data[at..][..n] == data[..at + n]
    ensures data[at..][n..] == data[at + n..]
  {
  }

  class OsFile {
    var bytes: Bytes

    constructor (b: Bytes) ensures bytes == b { bytes := b; }

    /** One `os.write`: at most the whole buffer, at least nothing. */
    method OsWrite(data: Bytes, count: int) returns (n: int)
      modifies this
      ensures count <= 0 ==> n == count && bytes == old(bytes)
      ensures count > 0 ==> n == (if count < |data| then count else |data|) && bytes == old(bytes) + data[..n]
    {
      if count <= 0 { return count; }
      n := if count < |data| then count else |data|;
      bytes := bytes + data[..n];
    }

    /** `_write_all`: appends every byte, or a proper prefix and fails; no earlier byte changes. */
    method WriteAll(data: Bytes, counts: seq<int>) returns (ok: bool)
      modifies this
      ensures bytes == old(bytes) + data[..Taken(|data|, counts)]
      ensures ok <==> Taken(|data|, counts) == |data|
    {
      var view := data;
      var i := 0;
      ghost var at := 0;
      while view != []
        invariant 0 <= at <= |data| && view == data[at..] && 0 <= i <= |counts|
        invariant bytes == old(bytes) + data[..at]
        invariant Taken(|data|, counts) == at + Taken(|view|, counts[i..])
        decreases |view|
      {
        var n;
        if i < |counts| {
          n := OsWrite(view, counts[i]);
          i := i + 1;
        } else {
          n := OsWrite(view, |view|);
        }
        if n <= 0 { return false; }
        SliceOn(data, at, n);
        view, at := view[n..], at + n;
      }
      assert data[..|data|] == data;
      return true;
    }
  }

  // ---------------------------------------------------------------- the log as a value

  datatype LogState = LogState(file: Bytes, prev: string, healthy: bool, isSealed: bool)

  /** How one append goes: the file cannot be opened, or `os.write` returns these counts, and fsync and
      the final close succeed or fail. */
  datatype Outcome = NotOpened | Opened(counts: seq<int>, synced: bool, closed: bool)

  const PERFECT := Opened([], true, true)

  predicate Closes(e: Entry) { e.rec.RunClosed? || e.rec == Malformed("RUN_CLOSED") }

  predicate LastCloses(c: Codec, file: Bytes) {
    var w := FileWalk(c, file);
    w.Some? && w.value.last.Some? && Closes(w.value.last.value.entry)
  }

  function LineOf(c: Codec, s: LogState, e: Entry): Bytes { c.encode(e, s.prev) + [LF] }

  /** `write`, of an entry that is scrubbed already: refused when sealed or unhealthy; a failure after the
      file was opened latches, unless it is that of the close alone, which raises over a durable record
      and leaves both the latch and the previous hash as they were. */
  function Append(c: Codec, s: LogState, e: Entry, o: Outcome): (LogState, bool) {
    if s.isSealed || !s.healthy || o.NotOpened? then (s, false)
    else
      var data := LineOf(c, s, e);
      var k := Taken(|data|, o.counts);
      var file := s.file + data[..k];
      if k < |data| || !o.synced then (s.(file := file, healthy := false), false)
      else if !o.closed then (s.(file := file), false)
      else (s.(file := file, prev := c.hash(c.encode(e, s.prev))), true)
  }

  /** `seal_with`: the decision is checked before scrubbing, and `scrubbed` is what gets written. */
  function Seal(c: Codec, s: LogState, e: Entry, scrubbed: Entry, o: Outcome): (LogState, bool) {
    if !Closes(e) || s.isSealed then (s, false)
    else
      var (w, ok) := Append(c, s, scrubbed, o);
      (if ok then w.(isSealed := true) else w, ok)
  }

  /** A new writer on an existing file: corrupt bytes stay and latch it, an intact chain is resumed. */
  function Reopen(c: Codec, file: Bytes, parentSynced: bool): LogState {
    var w := FileWalk(c, file);
    if w.None? then LogState(file, GENESIS, false, false)
    else LogState(file, w.value.tail, parentSynced, LastCloses(c, file))
  }

  class AuditLog {
    const c: Codec
    var file: OsFile
    var prev: string
    var healthy: bool
    var isSealed: bool
    var scrub: Entry -> Entry

    ghost function Value(): LogState reads this, file { LogState(file.bytes, prev, healthy, isSealed) }

    constructor (codec: Codec, f: OsFile, parentSynced: bool, redact: Entry -> Entry)
      ensures c == codec && file == f && scrub == redact && Value() == Reopen(codec, old(f.bytes), parentSynced)
    {
      c, file, prev, healthy, isSealed, scrub := codec, f, GENESIS, true, false, redact;
      new;
      var intact := Verify(c, f.bytes);
      if !intact {
        healthy := false;
      } else {
        var tail, last := RecoverTail(c, f.bytes);
        prev := tail;
        isSealed := last.Some? && Closes(last.value.entry);
        healthy := parentSynced;
      }
    }

    /** From now on entries are scrubbed this way. */
    method AddSecret(redact: Entry -> Entry)
      modifies this`scrub
      ensures scrub == redact && Value() == old(Value())
    {
      scrub := redact;
    }

    /** What is appended is the scrubbed entry. */
    method Write(e: Entry, o: Outcome) returns (ok: bool)
      modifies this, file
      ensures file == old(file) && scrub == old(scrub)
      ensures (Value(), ok) == Append(c, old(Value()), old(scrub(e)), o)
      ensures ok ==> file.bytes == old(file.bytes) + c.encode(old(scrub(e)), old(prev)) + [LF] && healthy
      ensures old(file.bytes) <= file.bytes
      ensures !ok && file.bytes != old(file.bytes) ==>
                if o.Opened? && o.synced && !o.closed && healthy
                then file.bytes == old(file.bytes) + (c.encode(old(scrub(e)), old(prev)) + [LF]) && prev == old(prev)
                else !healthy
    {
      if isSealed || !healthy { return false; }
      var line := c.encode(scrub(e), prev);
      if o.NotOpened? { return false; }
      var written := file.WriteAll(line + [LF], o.counts);
      assert (line + [LF])[..|line| + 1] == line + [LF];
      if !written || !o.synced {
        healthy := false;
        return false;
      }
      if !o.closed { return false; }
      prev := c.hash(line);
      return true;
    }

    method SealWith(e: Entry, o: Outcome) returns (ok: bool)
      modifies this, file
      ensures file == old(file) && scrub == old(scrub)
      ensures (Value(), ok) == Seal(c, old(Value()), e, old(scrub(e)), o)
      ensures ok ==> isSealed && Closes(e)
    {
      if !Closes(e) || isSealed { return false; }
      ok := Write(e, o);
      if ok { isSealed := true; }
    }
  }

  // ---------------------------------------------------------------- lines of a growing file

  lemma {:induction false} SplitText(file: Bytes, xs: Bytes)
    requires LF !in xs
    ensures Split(file + xs) == Lines(Split(file).done, Split(file).open_ + xs)
  {
    if xs == [] {
      assert file + xs == file;
    } else {
      var n := |xs| - 1;
      assert (file + xs)[..|file + xs| - 1] == file + xs[..n];
      SplitText(file, xs[..n]);
      assert Split(file).open_ + xs[..n] + [xs[n]] == Split(file).open_ + xs;
    }
  }

  lemma SplitLine(file: Bytes, xs: Bytes)
    requires LF !in xs
    ensures Split(file + xs + [LF]) == Lines(Split(file).done + [Split(file).open_ + xs], [])
  {
    SplitText(file, xs);
    assert (file + xs + [LF])[..|file + xs|] == file + xs;
  }

  lemma ContentAppend(raws: seq<Bytes>, raw: Bytes)
    ensures Content(raws + [raw]) == if Strip(raw) == [] then Content(raws) else Content(raws) + [Strip(raw)]
  {
    assert (raws + [raw])[..|raws|] == raws;
  }

  /** A file that is empty or ends in a newline, with an intact chain. */
  ghost predicate Tidy(c: Codec, file: Bytes) {
    Split(file).open_ == [] && FileWalk(c, file).Some?
  }

  /** What a file reads as when text is appended behind its last newline. */
  lemma TextAppended(c: Codec, file: Bytes, xs: Bytes)
    requires Split(file).open_ == [] && LF !in xs && Strip(xs) != []
    ensures FileLines(file + xs) == FileLines(file) + [Strip(xs)]
    ensures FileLines(file + xs + [LF]) == FileLines(file) + [Strip(xs)]
    ensures Split(file + xs).open_ == xs && Split(file + xs + [LF]).open_ == []
  {
    SplitText(file, xs);
    SplitLine(file, xs);
    assert [] + xs == xs;
    ContentAppend(Split(file).done, xs);
  }

  lemma PlainStrips(line: Bytes)
    requires Plain(line)
    ensures Strip(line) == line
  {
  }

  /** The chain after a whole record, with or without its newline. */
  lemma RecordAppended(c: Codec, file: Bytes, e: Entry, p: string)
    requires GoodCodec(c) && Tidy(c, file) && p == FileWalk(c, file).value.tail
    ensures var line := c.encode(e, p);
            && Tidy(c, file + line + [LF]) && FileWalk(c, file + line) == FileWalk(c, file + line + [LF])
            && FileWalk(c, file + line).Some? && FileWalk(c, file + line).value.tail == c.hash(line)
            && FileWalk(c, file + line).value.last == Some(Parsed(Some(p), e))
            && Split(file + line).open_ == line
  {
    var line := c.encode(e, p);
    PlainStrips(line);
    TextAppended(c, file, line);
    WalkSnoc(c, FileLines(file), line);
  }

  lemma StripNonEmpty(s: Bytes)
    requires s != [] && !IsBlank(s[0])
    ensures Strip(s) != []
  {
    StripRightKeeps(s);
  }

  lemma {:induction false} StripRightKeeps(s: Bytes)
    requires s != [] && !IsBlank(s[0])
    ensures StripRight(s) != []
  {
    if IsBlank(s[|s| - 1]) {
      StripRightKeeps(s[..|s| - 1]);
    }
  }

  /** A torn record breaks the chain. */
  lemma TornBreaks(c: Codec, file: Bytes, e: Entry, p: string, k: nat)
    requires GoodCodec(c) && Tidy(c, file) && 0 < k < |c.encode(e, p)|
    ensures FileWalk(c, file + c.encode(e, p)[..k]).None?
  {
    var part := c.encode(e, p)[..k];
    assert part[0] == c.encode(e, p)[0];
    StripNonEmpty(part);
    TextAppended(c, file, part);
    WalkSnoc(c, FileLines(file), Strip(part));
  }

  // ---------------------------------------------------------------- restarts

  /** Someone's record was cut short at the end of a tidy file. */
  ghost predicate Torn(c: Codec, file: Bytes) {
    exists good: Bytes, e: Entry, p: string, k: nat ::
      Tidy(c, good) && 0 < k < |c.encode(e, p)| && file == good + c.encode(e, p)[..k]
  }

  lemma TornIsCorrupt(c: Codec, file: Bytes)
    requires GoodCodec(c) && Torn(c, file)
    ensures FileWalk(c, file).None?
  {
    var good: Bytes, e: Entry, p: string, k: nat :|
      Tidy(c, good) && 0 < k < |c.encode(e, p)| && file == good + c.encode(e, p)[..k];
    TornBreaks(c, good, e, p, k);
  }

  /** An intact chain whose last record has lost its newline. */
  ghost predicate Unterminated(c: Codec, file: Bytes) {
    Split(file).open_ != [] && FileWalk(c, file).Some?
  }

  /** A writer in order: its file is tidy, or it is unhealthy for good, over a file that ends in a part
      of a record or in one without its newline. */
  ghost predicate InOrder(c: Codec, s: LogState) {
    Tidy(c, s.file) || (!s.healthy && (Torn(c, s.file) || Unterminated(c, s.file)))
  }

  /** A healthy writer knows the tail of its file. */
  ghost predicate Current(c: Codec, s: LogState) {
    s.healthy ==> FileWalk(c, s.file).Some? && s.prev == FileWalk(c, s.file).value.tail
  }

  /** The append gets as far as the file. */
  predicate Reaches(s: LogState, o: Outcome) { s.healthy && !s.isSealed && o.Opened? }

  /** The record is durable, but closing the file raises. */
  predicate LosesClose(c: Codec, s: LogState, e: Entry, o: Outcome) {
    Reaches(s, o) && Taken(|LineOf(c, s, e)|, o.counts) == |LineOf(c, s, e)| && o.synced && !o.closed
  }

  /** What a file is after k bytes of a record and its newline. */
  lemma FileAfter(c: Codec, file: Bytes, e: Entry, p: string, k: nat)
    requires GoodCodec(c) && Tidy(c, file) && p == FileWalk(c, file).value.tail
    requires k <= |c.encode(e, p)| + 1
    ensures var line := c.encode(e, p);
            var after := file + (line + [LF])[..k];
            && (k == 0 ==> after == file) && (0 < k < |line| ==> Torn(c, after)) && (k == |line| ==> Unterminated(c, after))
            && (k == |line| + 1 ==>
                 && Tidy(c, after) && FileWalk(c, after).value.tail == c.hash(line)
                 && FileWalk(c, after).value.last == Some(Parsed(Some(p), e)))
  {
    var line := c.encode(e, p);
    if k == |line| + 1 {
      RecordAppended(c, file, e, p);
      assert file + line + [LF] == file + (line + [LF])[..k];
    } else {
      assert (line + [LF])[..k] == line[..k];
      if k == |line| {
        RecordAppended(c, file, e, p);
        assert line[..k] == line;
      }
    }
  }

  lemma AppendInOrder(c: Codec, s: LogState, e: Entry, o: Outcome)
    requires GoodCodec(c) && InOrder(c, s) && (Reaches(s, o) ==> Current(c, s))
    ensures var (w, ok) := Append(c, s, e, o);
            && s.file <= w.file && InOrder(c, w) && w.isSealed == s.isSealed
            && (!ok ==> w == s || !w.healthy || LosesClose(c, s, e, o))
            && (ok ==> Tidy(c, w.file) && w.healthy && Current(c, w) && (LastCloses(c, w.file) <==> Closes(e)))
  {
    if Reaches(s, o) {
      FileAfter(c, s.file, e, s.prev, Taken(|LineOf(c, s, e)|, o.counts));
    }
  }

  /** The tail moves with every record. */
  lemma RecordMovesTail(c: Codec, file: Bytes, line: Bytes, e: Entry, p: string)
    requires GoodHash(c) && Plain(line) && c.parse(line) == Some(Parsed(Some(p), e)) && Tidy(c, file)
    requires p == FileWalk(c, file).value.tail
    ensures c.hash(line) != p
  {
    WalkSnoc(c, FileLines(file), line);
    TailMoves(c, FileLines(file), line);
  }

  lemma CurrentAfter(c: Codec, s: LogState, e: Entry, k: nat)
    requires GoodCodec(c) && Tidy(c, s.file) && s.prev == FileWalk(c, s.file).value.tail && k == |LineOf(c, s, e)|
    ensures var after := FileWalk(c, s.file + LineOf(c, s, e)[..k]); after.Some? && after.value.tail == c.hash(c.encode(e, s.prev))
  {
    FileAfter(c, s.file, e, s.prev, k);
  }

  /** A writer loses sight of its file's tail exactly when the close fails behind a durable record. */
  lemma CurrentUnlessCloseFails(c: Codec, s: LogState, e: Entry, o: Outcome)
    requires GoodCodec(c) && GoodHash(c) && InOrder(c, s) && Current(c, s)
    ensures Current(c, Append(c, s, e, o).0) <==> !LosesClose(c, s, e, o)
  {
    if Reaches(s, o) {
      var k := Taken(|LineOf(c, s, e)|, o.counts);
      if k == |LineOf(c, s, e)| {
        CurrentAfter(c, s, e, k);
        RecordMovesTail(c, s.file, c.encode(e, s.prev), e, s.prev);
      }
    }
  }

  /** A whole record continues an intact chain exactly if it names the tail. */
  lemma WholeRecordIff(c: Codec, file: Bytes, e: Entry, p: string)
    requires GoodCodec(c) && Tidy(c, file)
    ensures var after := file + c.encode(e, p) + [LF];
            Split(after).open_ == [] && (FileWalk(c, after).Some? <==> p == FileWalk(c, file).value.tail)
  {
    LineContinuesIff(c, file, c.encode(e, p), e, p);
  }

  lemma LineContinuesIff(c: Codec, file: Bytes, line: Bytes, e: Entry, p: string)
    requires Plain(line) && c.parse(line) == Some(Parsed(Some(p), e)) && Tidy(c, file)
    ensures Split(file + line + [LF]).open_ == []
    ensures FileWalk(c, file + line + [LF]).Some? <==> p == FileWalk(c, file).value.tail
  {
    PlainStrips(line);
    TextAppended(c, file, line);
    WalkSnoc(c, FileLines(file), line);
  }

  /** The next whole record of a healthy writer keeps its file readable exactly if the writer knows the
      tail; otherwise no reader accepts the file again, whatever is appended. */
  lemma NextRecordIff(c: Codec, s: LogState, e: Entry, more: Bytes)
    requires GoodCodec(c) && Tidy(c, s.file) && s.healthy
    ensures Tidy(c, s.file + LineOf(c, s, e)) <==> Current(c, s)
    ensures !Current(c, s) ==> FileWalk(c, s.file + LineOf(c, s, e) + more).None?
  {
    WholeRecordIff(c, s.file, e, s.prev);
    WholeAppend(s.file, c.encode(e, s.prev));
    assert s.file + LineOf(c, s, e) == s.file + c.encode(e, s.prev) + [LF];
    if !Current(c, s) {
      BrokenForGood(c, s.file + LineOf(c, s, e), more);
    }
  }

  lemma {:induction false} LinesStay(file: Bytes, more: Bytes)
    requires Split(file).open_ == []
    ensures Split(file).done <= Split(file + more).done
  {
    if more == [] {
      assert file + more == file;
    } else {
      var n := |more| - 1;
      assert (file + more)[..|file + more| - 1] == file + more[..n];
      LinesStay(file, more[..n]);
    }
  }

  /** What is broken before its last newline stays broken. */
  lemma BrokenForGood(c: Codec, file: Bytes, more: Bytes)
    requires Split(file).open_ == [] && FileWalk(c, file).None?
    ensures FileWalk(c, file + more).None?
  {
    LinesStay(file, more);
    var raws := Raws(Split(file + more));
    assert raws[..|Split(file).done|] == Split(file).done;
    BreakStays(c, raws, |Split(file).done|);
  }

  /** Reopening an orderly file that does not end in a record without its newline either resumes its
      exact tail, whether or not the old writer knew it, and its seal flag as the last record tells it,
      or refuses every append. */
  lemma ReopenResumesOrRefuses(c: Codec, s: LogState, parentSynced: bool)
    requires GoodCodec(c) && InOrder(c, s) && !Unterminated(c, s.file)
    ensures var r := Reopen(c, s.file, parentSynced);
            && r.file == s.file && InOrder(c, r) && Current(c, r)
            && (r.healthy <==> parentSynced && !Torn(c, s.file))
            && (r.healthy ==> r.isSealed == LastCloses(c, s.file))
            && (s.healthy && Current(c, s) ==> r.prev == s.prev)
  {
    if Torn(c, s.file) {
      TornIsCorrupt(c, s.file);
    }
  }

  datatype Op =
    | DoWrite(scrubbed: Entry, outcome: Outcome)
    | DoSeal(entry: Entry, scrubbed: Entry, outcome: Outcome)
    | DoReopen(parentSynced: bool)

  function Apply(c: Codec, s: LogState, op: Op): LogState {
    match op
    case DoWrite(e, o) => Append(c, s, e, o).0
    case DoSeal(e, r, o) => Seal(c, s, e, r, o).0
    case DoReopen(synced) => Reopen(c, s.file, synced)
  }

  function ApplyAll(c: Codec, s: LogState, ops: seq<Op>): LogState {
    if ops == [] then s else Apply(c, ApplyAll(c, s, ops[..|ops| - 1]), ops[|ops| - 1])
  }

  /** What an operation asks of the state it finds: a file that is reopened does not end in a record
      without its newline, and a writer that gets to its file knows the tail. */
  ghost predicate Guarded(c: Codec, s: LogState, op: Op) {
    match op
    case DoWrite(_, o) => Reaches(s, o) ==> Current(c, s)
    case DoSeal(_, _, o) => Reaches(s, o) ==> Current(c, s)
    case DoReopen(_) => !Unterminated(c, s.file)
  }

  lemma OpInOrder(c: Codec, s: LogState, op: Op)
    requires GoodCodec(c) && InOrder(c, s) && Guarded(c, s, op)
    ensures InOrder(c, Apply(c, s, op)) && s.file <= Apply(c, s, op).file
  {
    match op
    case DoWrite(e, o) => AppendInOrder(c, s, e, o);
    case DoSeal(e, r, o) => AppendInOrder(c, s, r, o);
    case DoReopen(synced) => ReopenResumesOrRefuses(c, s, synced);
  }

  ghost predicate AllGuarded(c: Codec, s: LogState, ops: seq<Op>) {
    forall i | 0 <= i < |ops| :: Guarded(c, ApplyAll(c, s, ops[..i]), ops[i])
  }

  lemma GuardedPrefix(c: Codec, s: LogState, ops: seq<Op>, n: nat)
    requires AllGuarded(c, s, ops) && n < |ops|
    ensures AllGuarded(c, s, ops[..n]) && Guarded(c, ApplyAll(c, s, ops[..n]), ops[n])
  {
    forall i | 0 <= i < n ensures Guarded(c, ApplyAll(c, s, ops[..n][..i]), ops[..n][i]) {
      assert ops[..n][..i] == ops[..i];
    }
  }

  /** Restart and torn writes: through any sequence of writes, short writes, failures and reopenings no
      byte is ever rewritten and the writer stays in order, as long as no file is reopened that ends in
      a record without its newline and no write follows a failed close before a reopening. */
  lemma {:induction false} RestartsInOrder(c: Codec, s: LogState, ops: seq<Op>)
    requires GoodCodec(c) && InOrder(c, s) && AllGuarded(c, s, ops)
    ensures InOrder(c, ApplyAll(c, s, ops)) && s.file <= ApplyAll(c, s, ops).file
  {
    if ops != [] {
      var n := |ops| - 1;
      GuardedPrefix(c, s, ops, n);
      RestartsInOrder(c, s, ops[..n]);
      OpInOrder(c, ApplyAll(c, s, ops[..n]), ops[n]);
    }
  }

  /** RUN_CLOSED is written by `seal_with` only, and no secret hides its decision. */
  predicate SealsOnly(op: Op) {
    && (op.DoWrite? ==> !Closes(op.scrubbed))
    && (op.DoSeal? ==> (Closes(op.scrubbed) <==> Closes(op.entry)))
  }

  ghost predicate SealTrue(c: Codec, s: LogState) {
    s.healthy && Current(c, s) ==> (s.isSealed <==> LastCloses(c, s.file))
  }

  /** Then a healthy writer that knows its tail is sealed exactly if the last record of its file closes
      the run, so a reopening resumes the seal as well. */
  lemma {:induction false} SealsAreTrue(c: Codec, s: LogState, ops: seq<Op>)
    requires GoodCodec(c) && GoodHash(c) && InOrder(c, s) && SealTrue(c, s) && AllGuarded(c, s, ops)
    requires forall i | 0 <= i < |ops| :: SealsOnly(ops[i])
    ensures SealTrue(c, ApplyAll(c, s, ops))
  {
    if ops != [] {
      var n := |ops| - 1;
      GuardedPrefix(c, s, ops, n);
      SealsAreTrue(c, s, ops[..n]);
      RestartsInOrder(c, s, ops[..n]);
      OpSealTrue(c, ApplyAll(c, s, ops[..n]), ops[n]);
    }
  }

  lemma OpSealTrue(c: Codec, s: LogState, op: Op)
    requires GoodCodec(c) && GoodHash(c) && InOrder(c, s) && SealTrue(c, s) && SealsOnly(op) && Guarded(c, s, op)
    ensures SealTrue(c, Apply(c, s, op))
  {
    match op
    case DoWrite(e, o) => AppendSealTrue(c, s, e, o);
    case DoSeal(e, r, o) => AppendSealTrue(c, s, r, o);
    case DoReopen(synced) =>
  }

  /** A close that fails leaves a writer that does not know its tail. */
  lemma AppendSealTrue(c: Codec, s: LogState, e: Entry, o: Outcome)
    requires GoodCodec(c) && GoodHash(c) && InOrder(c, s) && (Reaches(s, o) ==> Current(c, s))
    ensures var (w, ok) := Append(c, s, e, o);
            && (ok ==> (LastCloses(c, w.file) <==> Closes(e)))
            && (!ok ==> w == s || !w.healthy || !Current(c, w))
  {
    AppendInOrder(c, s, e, o);
    if LosesClose(c, s, e, o) {
      CurrentUnlessCloseFails(c, s, e, o);
    }
  }

  /** A failed write of k bytes, a restart, and one more durable record. */
  function AfterRestart(c: Codec, s: LogState, e: Entry, k: nat, f: Entry): LogState
    requires k <= |LineOf(c, s, e)|
  {
    Append(c, Reopen(c, s.file + LineOf(c, s, e)[..k], true), f, PERFECT).0
  }

  /** The restarted log is intact or refuses, unless the failed write lost exactly its newline: then
      the restarted writer takes the file for whole, joins its first record to the last line, and no
      reader accepts the file again. */
  lemma RestartSafeIff(c: Codec, s: LogState, e: Entry, k: nat, f: Entry)
    requires GoodCodec(c) && Tidy(c, s.file) && s.prev == FileWalk(c, s.file).value.tail
    requires k <= |LineOf(c, s, e)| && !LastCloses(c, s.file) && !Closes(e)
    ensures var w := AfterRestart(c, s, e, k, f);
            Tidy(c, w.file) || !w.healthy <==> k != |c.encode(e, s.prev)|
  {
    var line := c.encode(e, s.prev);
    var r := Reopen(c, s.file + LineOf(c, s, e)[..k], true);
    TakesAll(|LineOf(c, r, f)|);
    assert LineOf(c, r, f)[..|LineOf(c, r, f)|] == LineOf(c, r, f);
    if k == |line| {
      RestartJoins(c, s, e, f);
    } else {
      FileAfter(c, s.file, e, s.prev, k);
      if 0 < k < |line| {
        TornIsCorrupt(c, r.file);
      } else {
        RestartGoesOn(c, r, f);
      }
    }
  }

  lemma RestartGoesOn(c: Codec, r: LogState, f: Entry)
    requires GoodCodec(c) && Tidy(c, r.file) && r.prev == FileWalk(c, r.file).value.tail
    ensures Tidy(c, r.file + LineOf(c, r, f))
  {
    RecordAppended(c, r.file, f, r.prev);
    assert r.file + LineOf(c, r, f) == r.file + c.encode(f, r.prev) + [LF];
  }

  lemma ReopensWhole(c: Codec, s: LogState, e: Entry)
    requires GoodCodec(c) && Tidy(c, s.file) && s.prev == FileWalk(c, s.file).value.tail && !Closes(e)
    ensures var line := c.encode(e, s.prev);
            Reopen(c, s.file + line, true) == LogState(s.file + line, c.hash(line), true, false)
  {
    RecordAppended(c, s.file, e, s.prev);
  }

  lemma Regroup(a: Bytes, b: Bytes, d: Bytes)
    ensures a + b + (d + [LF]) == a + (b + d) + [LF]
  {
  }

  lemma RestartJoins(c: Codec, s: LogState, e: Entry, f: Entry)
    requires GoodCodec(c) && Tidy(c, s.file) && s.prev == FileWalk(c, s.file).value.tail && !Closes(e)
    ensures var line := c.encode(e, s.prev);
            var r := Reopen(c, s.file + LineOf(c, s, e)[..|line|], true);
            r.healthy && !r.isSealed && FileWalk(c, r.file + LineOf(c, r, f)).None?
  {
    var line := c.encode(e, s.prev);
    var q := c.hash(line);
    var next := c.encode(f, q);
    assert LineOf(c, s, e)[..|line|] == line;
    ReopensWhole(c, s, e);
    JoinedBreaks(c, s.file, e, s.prev, f, q);
    Regroup(s.file, line, next);
  }

  lemma TakesAll(n: nat)
    ensures Taken(n, []) == n
  {
  }

  lemma JoinedBreaks(c: Codec, file: Bytes, e: Entry, p: string, f: Entry, q: string)
    requires GoodCodec(c) && Tidy(c, file)
    ensures FileWalk(c, file + (c.encode(e, p) + c.encode(f, q)) + [LF]).None?
  {
    var joined, k := c.encode(e, p) + c.encode(f, q), |c.encode(e, p)|;
    assert Plain(joined);
    var front := joined[..k];
    assert front == c.encode(e, p);
    PlainStrips(front);
    assert c.parse(joined).Some? ==> c.parse(Strip(front)) == None;
    PlainStrips(joined);
    TextAppended(c, file, joined);
    WalkSnoc(c, FileLines(file), joined);
  }

  // ---------------------------------------------------------------- reading back what was written

  /** A file that every reader reads as these entries. */
  ghost predicate Holds(c: Codec, file: Bytes, entries: seq<Entry>) {
    && Tidy(c, file) && CR !in file && NoBlankLine(Raws(Split(file)))
    && Entries(c, FileLines(file)) == entries
  }

  lemma EmptyHolds(c: Codec)
    ensures Holds(c, [], [])
  {
  }

  lemma LineHolds(c: Codec, file: Bytes, entries: seq<Entry>, e: Entry, p: string)
    requires GoodCodec(c) && Holds(c, file, entries) && p == FileWalk(c, file).value.tail
    ensures Holds(c, file + c.encode(e, p) + [LF], entries + [e])
  {
    var line := c.encode(e, p);
    RecordAppended(c, file, e, p);
    PlainStrips(line);
    TextAppended(c, file, line);
    RawsAppended(file, line);
    EntriesSnoc(c, FileLines(file), line);
  }

  lemma RawsAppended(file: Bytes, line: Bytes)
    requires Split(file).open_ == [] && CR !in file && Plain(line) && NoBlankLine(Raws(Split(file)))
    ensures CR !in file + line + [LF] && NoBlankLine(Raws(Split(file + line + [LF])))
  {
    SplitLine(file, line);
    PlainStrips(line);
    assert [] + line == line;
  }

  /** A durable append adds exactly its entry to what the file is read as. */
  lemma AppendReadsBack(c: Codec, s: LogState, entries: seq<Entry>, e: Entry, o: Outcome)
    requires GoodCodec(c) && Holds(c, s.file, entries) && Append(c, s, e, o).1
    requires s.prev == FileWalk(c, s.file).value.tail
    ensures Holds(c, Append(c, s, e, o).0.file, entries + [e])
  {
    var line := c.encode(e, s.prev);
    LineHolds(c, s.file, entries, e, s.prev);
    WholeAppend(s.file, line);
  }

  lemma WholeAppend(file: Bytes, line: Bytes)
    ensures file + (line + [LF])[..|line| + 1] == file + line + [LF]
  {
    assert (line + [LF])[..|line| + 1] == line + [LF];
  }
}
