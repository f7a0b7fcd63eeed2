/** When the reader that also splits at CR reads the same lines as the others. */
module LineEnds {
  import opened Records
  import opened Chain
  import opened AuditFile

  // ---------------------------------------------------------------- the pieces of one raw line

  /** A raw line, split at CR. */
  function Pieces(raw: Bytes): Lines {
    if raw == [] then Lines([], [])
    else
      var before := Pieces(raw[..|raw| - 1]);
      var b := raw[|raw| - 1];
      if b == CR then Lines(before.done + [before.open_], []) else Lines(before.done, before.open_ + [b])
  }

  function PieceLines(raw: Bytes): seq<Bytes> { Content(Pieces(raw).done + [Pieces(raw).open_]) }

  /** All raw lines, each split at CR. */
  function Refined(raws: seq<Bytes>): seq<Bytes> {
    if raws == [] then [] else Refined(raws[..|raws| - 1]) + PieceLines(raws[|raws| - 1])
  }

  lemma RefinedSnoc(raws: seq<Bytes>, raw: Bytes)
    ensures Refined(raws + [raw]) == Refined(raws) + PieceLines(raw)
  {
    assert (raws + [raw])[..|raws|] == raws;
  }

  lemma PiecesSnoc(raw: Bytes, b: Byte)
    ensures Pieces(raw + [b]) == if b == CR then Lines(Pieces(raw).done + [Pieces(raw).open_], [])
                                 else Lines(Pieces(raw).done, Pieces(raw).open_ + [b])
  {
    assert (raw + [b])[..|raw|] == raw;
  }

  lemma ContentSnocRaw(raws: seq<Bytes>, raw: Bytes)
    ensures Content(raws + [raw]) == Content(raws) + if Strip(raw) == [] then [] else [Strip(raw)]
  {
    assert (raws + [raw])[..|raws|] == raws;
    assert Content(raws) + [] == Content(raws);
  }

  // ---------------------------------------------------------------- the universal split refines the other

  /** After any part of the file: the finished lines and the open one, refined, are what the universal
      split has. */
  predicate Refines(ls: Lines, us: Lines) {
    && Content(us.done) == Refined(ls.done) + Content(Pieces(ls.open_).done)
    && us.open_ == Pieces(ls.open_).open_
  }

  lemma RefinesByte(ls: Lines, us: Lines, b: Byte)
    requires Refines(ls, us) && b != LF && b != CR
    ensures Refines(Lines(ls.done, ls.open_ + [b]), Lines(us.done, us.open_ + [b]))
  {
    PiecesSnoc(ls.open_, b);
  }

  lemma RefinesCR(ls: Lines, us: Lines)
    requires Refines(ls, us)
    ensures Refines(Lines(ls.done, ls.open_ + [CR]), Lines(us.done + [us.open_], []))
  {
    PiecesSnoc(ls.open_, CR);
    ContentSnocRaw(us.done, us.open_);
    ContentSnocRaw(Pieces(ls.open_).done, us.open_);
  }

  lemma RefinesLF(ls: Lines, us: Lines)
    requires Refines(ls, us)
    ensures Refines(Lines(ls.done + [ls.open_], []), Lines(us.done + [us.open_], []))
  {
    RefinedSnoc(ls.done, ls.open_);
    ContentSnocRaw(us.done, us.open_);
    ContentSnocRaw(Pieces(ls.open_).done, us.open_);
  }

  /** The LF of a CR LF ends a line of which nothing is open any more. */
  lemma RefinesCRLF(ls: Lines, us: Lines)
    requires Refines(ls, us) && us.open_ == []
    ensures Refines(Lines(ls.done + [ls.open_], []), us)
  {
    RefinedSnoc(ls.done, ls.open_);
    ContentSnocRaw(Pieces(ls.open_).done, []);
  }

  lemma EndsOpen(file: Bytes)
    requires file != [] && file[|file| - 1] == CR
    ensures SplitUniversal(file).open_ == []
  {
  }

  lemma {:induction false} UniversalRefines(file: Bytes)
    ensures Refines(Split(file), SplitUniversal(file))
  {
    if file != [] {
      var n := |file| - 1;
      var b, ls, us := file[n], Split(file[..n]), SplitUniversal(file[..n]);
      UniversalRefines(file[..n]);
      if b == LF && n > 0 && file[n - 1] == CR {
        EndsOpen(file[..n]);
        RefinesCRLF(ls, us);
      } else if b == LF {
        RefinesLF(ls, us);
      } else if b == CR {
        RefinesCR(ls, us);
      } else {
        RefinesByte(ls, us, b);
      }
    }
  }

  function Whole(raw: Bytes): seq<Bytes> { if Strip(raw) == [] then [] else [Strip(raw)] }

  lemma PieceLinesAre(raw: Bytes)
    ensures PieceLines(raw) == Content(Pieces(raw).done) + Whole(Pieces(raw).open_)
  {
    ContentSnocRaw(Pieces(raw).done, Pieces(raw).open_);
  }

  lemma RawsContent(ls: Lines)
    ensures Content(Raws(ls)) == Content(ls.done) + Whole(ls.open_)
  {
    ContentSnocRaw(ls.done, ls.open_);
    assert Content(ls.done) + [] == Content(ls.done);
  }

  lemma RawsRefined(ls: Lines)
    ensures Refined(Raws(ls)) == Refined(ls.done) + PieceLines(ls.open_)
  {
    RefinedSnoc(ls.done, ls.open_);
    PieceLinesAre([]);
    assert Refined(ls.done) + [] == Refined(ls.done);
  }

  /** What the universal reader reads are the raw lines, refined. */
  lemma UniversalIsRefined(file: Bytes)
    ensures Content(Raws(SplitUniversal(file))) == Refined(Raws(Split(file)))
  {
    var ls, us := Split(file), SplitUniversal(file);
    UniversalRefines(file);
    RawsContent(us);
    RawsRefined(ls);
    PieceLinesAre(ls.open_);
  }

  // ---------------------------------------------------------------- stripping

  predicate AllBlank(s: Bytes) { forall i | 0 <= i < |s| :: IsBlank(s[i]) }

  lemma {:induction false} StripLeftSnoc(s: Bytes, b: Byte)
    ensures AllBlank(s) ==> StripLeft(s + [b]) == StripLeft([b]) && StripLeft(s) == []
    ensures !AllBlank(s) ==> StripLeft(s + [b]) == StripLeft(s) + [b]
    decreases |s|
  {
    if s == [] {
      assert s + [b] == [b];
    } else if IsBlank(s[0]) {
      assert (s + [b])[1..] == s[1..] + [b];
      StripLeftSnoc(s[1..], b);
      assert AllBlank(s) <==> AllBlank(s[1..]);
    }
  }

  lemma StripBlankEnd(s: Bytes, b: Byte)
    requires IsBlank(b)
    ensures Strip(s + [b]) == Strip(s)
  {
    StripLeftSnoc(s, b);
    assert [b][1..] == [];
    var left := StripLeft(s);
    assert (left + [b])[..|left|] == left;
  }

  lemma StripFullEnd(s: Bytes, b: Byte)
    requires !IsBlank(b)
    ensures Strip(s + [b]) == StripLeft(s) + [b]
  {
    StripLeftSnoc(s, b);
  }

  lemma {:induction false} SplitMargin(s: Bytes) returns (margin: Bytes)
    ensures AllBlank(margin) && s == margin + StripLeft(s)
    ensures StripLeft(s) != [] ==> !IsBlank(StripLeft(s)[0])
    decreases |s|
  {
    if s != [] && IsBlank(s[0]) {
      var rest := SplitMargin(s[1..]);
      margin := [s[0]] + rest;
      assert s == [s[0]] + s[1..];
    } else {
      margin := [];
    }
  }

  lemma {:induction false} StripBlankFront(margin: Bytes, t: Bytes)
    requires AllBlank(margin)
    ensures Strip(margin + t) == Strip(t)
    decreases |margin|
  {
    if margin == [] {
      assert margin + t == t;
    } else {
      assert (margin + t)[1..] == margin[1..] + t;
      StripBlankFront(margin[1..], t);
    }
  }

  // ---------------------------------------------------------------- the pieces of a line

  lemma {:induction false} BlankPieces(margin: Bytes)
    requires AllBlank(margin)
    ensures Content(Pieces(margin).done) == [] && AllBlank(Pieces(margin).open_)
  {
    if margin != [] {
      var n := |margin| - 1;
      var before := Pieces(margin[..n]);
      BlankPieces(margin[..n]);
      ContentSnocRaw(before.done, before.open_);
      StripBlankFront(before.open_, []);
      assert before.open_ + [] == before.open_;
    }
  }

  lemma {:induction false} PiecesText(raw: Bytes, t: Bytes)
    requires CR !in t
    ensures Pieces(raw + t) == Lines(Pieces(raw).done, Pieces(raw).open_ + t)
    decreases |t|
  {
    if t == [] {
      assert raw + t == raw;
    } else {
      var n := |t| - 1;
      assert raw + t == (raw + t[..n]) + [t[n]];
      PiecesText(raw, t[..n]);
      PiecesSnoc(raw + t[..n], t[n]);
      assert Pieces(raw).open_ + t[..n] + [t[n]] == Pieces(raw).open_ + t;
    }
  }

  /** A line without a CR between its margins is one piece, and its other pieces are blank. */
  lemma {:induction false} WholePiece(raw: Bytes)
    requires CR !in Strip(raw)
    ensures PieceLines(raw) == Whole(raw)
  {
    if raw == [] {
      ContentSnocRaw([], []);
    } else {
      var n := |raw| - 1;
      var head, b := raw[..n], raw[n];
      assert raw == head + [b];
      if IsBlank(b) {
        StripBlankEnd(head, b);
        WholePiece(head);
        BlankEndPieces(head, b);
      } else {
        FullEndPieces(head, b);
        StripFullEnd(head, b);
      }
    }
  }

  lemma BlankEndPieces(raw: Bytes, b: Byte)
    requires IsBlank(b)
    ensures PieceLines(raw + [b]) == PieceLines(raw)
  {
    var p := Pieces(raw);
    PiecesSnoc(raw, b);
    ContentSnocRaw(p.done, p.open_);
    ContentSnocRaw(p.done + [p.open_], []);
    ContentSnocRaw(p.done, p.open_ + [b]);
    StripBlankEnd(p.open_, b);
  }

  lemma FullEndPieces(raw: Bytes, b: Byte)
    requires !IsBlank(b) && CR !in Strip(raw + [b])
    ensures PieceLines(raw + [b]) == [Strip(raw + [b])]
  {
    StripFullEnd(raw, b);
    var t := StripLeft(raw) + [b];
    var margin := SplitMargin(raw);
    assert raw + [b] == margin + t;
    PiecesText(margin, t);
    BlankPieces(margin);
    var p := Pieces(margin);
    ContentSnocRaw(p.done, p.open_ + t);
    StripBlankFront(p.open_, t);
    StripBlankFront(margin, t);
  }

  lemma {:induction false} WholeLines(raws: seq<Bytes>)
    requires forall l | l in Content(raws) :: CR !in l
    ensures Refined(raws) == Content(raws)
  {
    if raws != [] {
      var n := |raws| - 1;
      assert raws == raws[..n] + [raws[n]];
      ContentSnocRaw(raws[..n], raws[n]);
      assert forall l | l in Content(raws[..n]) :: l in Content(raws);
      assert Strip(raws[n]) != [] ==> Strip(raws[n]) in Content(raws);
      WholeLines(raws[..n]);
      WholePiece(raws[n]);
    }
  }

  // ---------------------------------------------------------------- no piece holds a CR

  predicate Free(ls: seq<Bytes>) { forall i | 0 <= i < |ls| :: CR !in ls[i] }

  lemma {:induction false} StripPart(s: Bytes)
    ensures forall b | b in Strip(s) :: b in s
  {
    var margin := SplitMargin(s);
    StripRightPart(StripLeft(s));
  }

  lemma {:induction false} StripRightPart(s: Bytes)
    ensures forall b | b in StripRight(s) :: b in s
    decreases |s|
  {
    if s != [] && IsBlank(s[|s| - 1]) {
      StripRightPart(s[..|s| - 1]);
    }
  }

  lemma {:induction false} ContentFree(raws: seq<Bytes>)
    requires Free(raws)
    ensures Free(Content(raws))
  {
    if raws != [] {
      var n := |raws| - 1;
      ContentFree(raws[..n]);
      StripPart(raws[n]);
    }
  }

  lemma {:induction false} UniversalFree(file: Bytes)
    ensures Free(SplitUniversal(file).done) && CR !in SplitUniversal(file).open_
  {
    if file != [] {
      UniversalFree(file[..|file| - 1]);
    }
  }

  /** The reader that splits at CR too reads the same lines as the others exactly if no line has a CR
      between its first and its last byte that is not blank. */
  lemma ReadersAgreeIff(file: Bytes)
    ensures Content(Raws(SplitUniversal(file))) == FileLines(file) <==> Free(FileLines(file))
  {
    UniversalFree(file);
    ContentFree(Raws(SplitUniversal(file)));
    if Free(FileLines(file)) {
      UniversalIsRefined(file);
      WholeLines(Raws(Split(file)));
    }
  }

  // ---------------------------------------------------------------- a CR breaks the chain for that reader

  lemma {:induction false} StripRightPrefix(s: Bytes)
    ensures StripRight(s) <= s
    decreases |s|
  {
    if s != [] && IsBlank(s[|s| - 1]) {
      StripRightPrefix(s[..|s| - 1]);
    }
  }

  lemma {:induction false} PiecesGrow(raw: Bytes, t: Bytes)
    ensures Pieces(raw).done <= Pieces(raw + t).done
    decreases |t|
  {
    if t == [] {
      assert raw + t == raw;
    } else {
      var n := |t| - 1;
      assert raw + t == (raw + t[..n]) + [t[n]];
      PiecesGrow(raw, t[..n]);
      PiecesSnoc(raw + t[..n], t[n]);
    }
  }

  lemma {:induction false} ContentHas(raws: seq<Bytes>, i: nat)
    requires i < |raws| && Strip(raws[i]) != []
    ensures Strip(raws[i]) in Content(raws)
  {
    var n := |raws| - 1;
    assert raws == raws[..n] + [raws[n]];
    ContentSnocRaw(raws[..n], raws[n]);
    if i < n {
      ContentHas(raws[..n], i);
    }
  }

  lemma {:induction false} ContentFrom(raws: seq<Bytes>, l: Bytes) returns (i: nat)
    requires l in Content(raws)
    ensures i < |raws| && Strip(raws[i]) == l
  {
    var n := |raws| - 1;
    if Strip(raws[n]) == l {
      i := n;
    } else {
      i := ContentFrom(raws[..n], l);
    }
  }

  lemma {:induction false} RefinedHas(raws: seq<Bytes>, i: nat, u: Bytes)
    requires i < |raws| && u in PieceLines(raws[i])
    ensures u in Refined(raws)
  {
    var n := |raws| - 1;
    if i < n {
      RefinedHas(raws[..n], i, u);
    }
  }

  /** The text before a CR, behind a blank margin, is a piece of its own. */
  lemma PieceBefore(margin: Bytes, xs: Bytes, rest: Bytes)
    requires AllBlank(margin) && CR !in xs && Strip(xs) != []
    ensures Strip(xs) in PieceLines(margin + xs + [CR] + rest)
  {
    var head := margin + xs;
    var p := Pieces(margin);
    BlankPieces(margin);
    PiecesText(margin, xs);
    PiecesSnoc(head, CR);
    StripBlankFront(p.open_, xs);
    PiecesGrow(head + [CR], rest);
    var all := Pieces(margin + xs + [CR] + rest);
    assert all.done[|p.done|] == p.open_ + xs;
    ContentHas(all.done + [all.open_], |p.done|);
  }

  lemma FirstCR(l: Bytes) returns (k: nat)
    requires CR in l
    ensures k < |l| && l[k] == CR && CR !in l[..k]
  {
    k := 0;
    while l[k] != CR
      invariant k < |l| && CR !in l[..k] && CR in l[k..]
      decreases |l| - k
    {
      assert l[..k + 1] == l[..k] + [l[k]] && l[k..] == [l[k]] + l[k + 1..];
      k := k + 1;
    }
  }

  lemma FullFront(s: Bytes)
    requires s != [] && !IsBlank(s[0])
    ensures Strip(s) != []
    decreases |s|
  {
    FullFrontRight(s);
  }

  lemma {:induction false} FullFrontRight(s: Bytes)
    requires s != [] && !IsBlank(s[0])
    ensures StripRight(s) != []
    decreases |s|
  {
    if IsBlank(s[|s| - 1]) {
      FullFrontRight(s[..|s| - 1]);
    }
  }

  /** A line with a CR inside leaves the universal reader a piece that is a proper prefix of it. */
  lemma CutLine(raw: Bytes) returns (k: nat)
    requires CR in Strip(raw)
    ensures 0 < k < |Strip(raw)| && Strip(Strip(raw)[..k]) in PieceLines(raw)
  {
    var l := Strip(raw);
    var margin := SplitMargin(raw);
    StripRightPrefix(StripLeft(raw));
    k := FirstCR(l);
    assert !IsBlank(l[0]);
    var left := StripLeft(raw);
    assert left[k] == CR && left[..k] == l[..k];
    assert raw == margin + l[..k] + [CR] + left[k + 1..];
    FullFront(l[..k]);
    PieceBefore(margin, l[..k], left[k + 1..]);
  }

  lemma {:induction false} WalkParses(c: Codec, lines: seq<Bytes>, l: Bytes)
    requires Walk(c, lines).Some? && l in lines
    ensures c.parse(l).Some?
  {
    var n := |lines| - 1;
    if l != lines[n] {
      assert lines == lines[..n] + [lines[n]];
      WalkParses(c, lines[..n], l);
    }
  }

  /** Where the chain is intact for the others, it is intact for that reader exactly if no line has a CR
      inside, and then it is the same chain. */
  lemma UniversalWalkIff(c: Codec, file: Bytes)
    requires Unsplittable(c) && FileWalk(c, file).Some?
    ensures Walk(c, Content(Raws(SplitUniversal(file)))).Some? <==> Free(FileLines(file))
  {
    ReadersAgreeIff(file);
    if !Free(FileLines(file)) {
      var raws := Raws(Split(file));
      var j :| 0 <= j < |FileLines(file)| && CR in FileLines(file)[j];
      var i := ContentFrom(raws, FileLines(file)[j]);
      var k := CutLine(raws[i]);
      UniversalIsRefined(file);
      var u := Strip(Strip(raws[i])[..k]);
      RefinedHas(raws, i, u);
      WalkParses(c, FileLines(file), FileLines(file)[j]);
      if Walk(c, Refined(raws)).Some? {
        WalkParses(c, Refined(raws), u);
      }
    }
  }

  /** A line with a CR between two texts is one line for the others and two for that reader. */
  lemma SplitInTwo(xs: Bytes, ys: Bytes)
    requires LF !in xs && LF !in ys && CR !in xs && CR !in ys && Strip(xs) == xs != [] && Strip(ys) == ys != []
    requires Strip(xs + [CR] + ys) == xs + [CR] + ys
    ensures FileLines(xs + [CR] + ys + [LF]) == [xs + [CR] + ys]
    ensures Content(Raws(SplitUniversal(xs + [CR] + ys + [LF]))) == [xs, ys]
  {
    var raw := xs + [CR] + ys;
    assert LF !in raw;
    OneLine(raw);
    OnlyLine(raw);
    UniversalIsRefined(raw + [LF]);
    TwoPieces(xs, ys);
  }

  lemma OnlyLine(raw: Bytes)
    ensures Content([raw]) == Whole(raw) && Refined([raw]) == PieceLines(raw)
  {
    assert [raw] == [] + [raw];
    ContentSnocRaw([], raw);
    RefinedSnoc([], raw);
  }

  lemma TwoPieces(xs: Bytes, ys: Bytes)
    requires CR !in xs && CR !in ys && Strip(xs) == xs != [] && Strip(ys) == ys != []
    ensures PieceLines(xs + [CR] + ys) == [xs, ys]
  {
    PiecesText([], xs);
    PiecesSnoc(xs, CR);
    PiecesText(xs + [CR], ys);
    assert [] + xs == xs && [] + ys == ys && [] + [xs] == [xs];
    PieceLinesAre(xs + [CR] + ys);
    OnlyLine(xs);
  }

  lemma OneLine(raw: Bytes)
    requires LF !in raw
    ensures Raws(Split(raw + [LF])) == [raw]
  {
    NoBreak(raw);
    assert (raw + [LF])[..|raw|] == raw;
    assert [] + [raw] == [raw];
  }

  lemma {:induction false} NoBreak(raw: Bytes)
    requires LF !in raw
    ensures Split(raw) == Lines([], raw)
  {
    if raw != [] {
      var n := |raw| - 1;
      NoBreak(raw[..n]);
      assert raw[..n] + [raw[n]] == raw;
    }
  }
}
