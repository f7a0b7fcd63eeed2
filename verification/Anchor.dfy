/** The control plane's close anchor and the verifier's comparison with it. */
module Anchor {
  import opened Records
  import opened Chain
  import opened AuditFile
  import opened LineEnds
  import opened AuditWriter
  import V = Verifier
  import A = Acceptance

  const ANCHOR_SCHEMA := "E10-close-anchor-v1"
  const AUTHORITY_ROLE := "CONTROL_PLANE_CLOSE_AUTHORITY"
  const MAC_ALGORITHM := "HMAC-SHA256"

  /** The authenticated part of an anchor. */
  datatype Body = Body(schema: string, role: string, keyId: string, algorithm: string, runId: string,
                       commit: string, recordCount: int, byteLength: int, tailHash: string,
                       closureSeq: int, closureState: string, issuedAt: string)

  /** An anchor file: its fields are the mandatory ones, or not. */
  datatype AnchorFile = Wellformed(body: Body, tag: string) | OtherFields

  /** HMAC over the canonical encoding. */
  type Mac = (Bytes, Body) -> string

  ghost predicate GoodMac(mac: Mac) {
    forall k: Bytes, a: Body, b: Body | mac(k, a) == mac(k, b) :: a == b
  }

  predicate IsCommit(s: string) {
    (|s| == 40 || |s| == 64) && forall i | 0 <= i < |s| :: IsHexDigit(s[i])
  }

  function AuditFactsOf(c: Codec, file: Bytes): Option<ChainFacts> {
    Walk(c, Content(Raws(SplitUniversal(file))))
  }

  // ---------------------------------------------------------------- building

  datatype Built = Anchored(anchor: AnchorFile) | Refused(reason: string)

  function BodyFor(facts: ChainFacts, size: nat, close: Rec, runId: string, commit: string, keyId: string,
                   issuedAt: string): Body
    requires close.RunClosed?
  {
    Body(ANCHOR_SCHEMA, AUTHORITY_ROLE, keyId, MAC_ALGORITHM, runId, commit, facts.count, size, facts.tail,
         close.closureSeq, close.closureState, issuedAt)
  }

  /** `build_anchor`, on a file whose last RUN_CLOSED record, if any, has its fields. */
  function BuildAnchor(c: Codec, mac: Mac, file: Bytes, runId: string, commit: string, key: Bytes, keyId: string,
                       issuedAt: string): Built {
    if runId == "" then Refused("expected_run_id is required")
    else if !IsCommit(commit) then Refused("source_commit")
    else if |key| < 32 then Refused("key too short")
    else if keyId == "" then Refused("key_id is required")
    else
      var facts := AuditFactsOf(c, file);
      if facts.None? then Refused("audit chain")
      else if facts.value.last.None? || !facts.value.last.value.entry.rec.RunClosed? then Refused("not RUN_CLOSED")
      else
        var close := facts.value.last.value.entry;
        if close.runId != runId then Refused("RUN_CLOSED does not bind expected_run_id")
        else if close.rec.schema != RUN_CLOSE_SCHEMA then Refused("unsupported run closure schema")
        else
          var body := BodyFor(facts.value, |file|, close.rec, runId, commit, keyId, issuedAt);
          Anchored(Wellformed(body, mac(key, body)))
  }

  // ---------------------------------------------------------------- verifying

  datatype Outcome =
    | Corrupt | History(status: V.Status) | CommitRequired | KeyIdRequired | AnchorRequired | KeyRequired
    | KeyInvalid | AnchorSchemaInvalid | AuthenticationFailed | KeyIdMismatch | FactsUnreadable
    | RunIdMismatch | CommitMismatch | CountMismatch | LengthMismatch | TailMismatch
    | ClosureSeqMismatch | ClosureStateMismatch | FixturePass | Proven

  /** The fields that bind an anchor to one closed log, compared in the source's order. */
  function Compare(b: Body, facts: ChainFacts, size: nat, close: Rec, runId: string, commit: string): Option<Outcome>
    requires close.RunClosed?
  {
    if b.runId != runId then Some(RunIdMismatch)
    else if b.commit != commit then Some(CommitMismatch)
    else if b.recordCount != facts.count then Some(CountMismatch)
    else if b.byteLength != size then Some(LengthMismatch)
    else if b.tailHash != facts.tail then Some(TailMismatch)
    else if b.closureSeq != close.closureSeq then Some(ClosureSeqMismatch)
    else if b.closureState != close.closureState then Some(ClosureStateMismatch)
    else None
  }

  predicate Loads(c: Codec, file: Bytes) {
    NoBlankLine(Raws(Split(file))) && FileWalk(c, file).Some?
  }

  /** The anchor part of `verify`, once the history was accepted. */
  function CheckAnchor(c: Codec, mac: Mac, file: Bytes, close: Rec, runId: string, anchor: Option<AnchorFile>,
                       key: Option<Bytes>, commit: string, keyId: string, fixture: bool): Outcome
    requires close.RunClosed?
  {
    if !IsCommit(commit) then CommitRequired
    else if keyId == "" then KeyIdRequired
    else if anchor.None? then AnchorRequired
    else if key.None? then KeyRequired
    else if |key.value| < 32 then KeyInvalid
    else if anchor.value.OtherFields? then AnchorSchemaInvalid
    else
      var b := anchor.value.body;
      if b.schema != ANCHOR_SCHEMA || b.role != AUTHORITY_ROLE || b.algorithm != MAC_ALGORITHM then AnchorSchemaInvalid
      else if anchor.value.tag != mac(key.value, b) then AuthenticationFailed
      else if b.keyId != keyId then KeyIdMismatch
      else if AuditFactsOf(c, file).None? then FactsUnreadable
      else
        var mismatch := Compare(b, AuditFactsOf(c, file).value, |file|, close, runId, commit);
        if mismatch.Some? then mismatch.value else if fixture then FixturePass else Proven
  }

  /** `verify_e10.verify`. */
  function VerifyClosed(c: Codec, mac: Mac, file: Bytes, runId: string, anchor: Option<AnchorFile>,
                        key: Option<Bytes>, commit: string, keyId: string, fixture: bool): Outcome
  {
    if !Loads(c, file) then Corrupt
    else
      var entries := Entries(c, FileLines(file));
      var status := V.Verdict(entries, runId);
      if status != V.LocalHistoryValid then History(status)
      else
        A.AcceptedLast(entries, runId);
        CheckAnchor(c, mac, file, entries[|entries| - 1].rec, runId, anchor, key, commit, keyId, fixture)
  }

  // ---------------------------------------------------------------- round trip and binding

  /** Round trip: the anchor built for an accepted log is proven for the same run, commit, key and key
      id, exactly if no line of the log has a CR inside; otherwise no anchor is built. */
  lemma AnchorRoundTripIff(c: Codec, mac: Mac, file: Bytes, runId: string, commit: string, key: Bytes, keyId: string,
                           issuedAt: string)
    requires Unsplittable(c) && Loads(c, file)
    requires V.Verdict(Entries(c, FileLines(file)), runId) == V.LocalHistoryValid
    requires IsCommit(commit) && |key| >= 32 && keyId != ""
    ensures var built := BuildAnchor(c, mac, file, runId, commit, key, keyId, issuedAt);
            && (built.Anchored? <==> Free(FileLines(file)))
            && (built.Anchored? ==>
                 VerifyClosed(c, mac, file, runId, Some(built.anchor), Some(key), commit, keyId, false) == Proven)
  {
    UniversalWalkIff(c, file);
    if Free(FileLines(file)) {
      ReadersAgreeIff(file);
      BuiltForAccepted(c, mac, file, runId, commit, key, keyId, issuedAt);
    }
  }

  lemma BuiltForAccepted(c: Codec, mac: Mac, file: Bytes, runId: string, commit: string, key: Bytes, keyId: string,
                         issuedAt: string)
    requires Loads(c, file) && AnchoredLines(file) == FileLines(file)
    requires V.Verdict(Entries(c, FileLines(file)), runId) == V.LocalHistoryValid
    requires IsCommit(commit) && |key| >= 32 && keyId != ""
    ensures var built := BuildAnchor(c, mac, file, runId, commit, key, keyId, issuedAt);
            && built.Anchored?
            && VerifyClosed(c, mac, file, runId, Some(built.anchor), Some(key), commit, keyId, false) == Proven
  {
    var entries := Entries(c, FileLines(file));
    A.AcceptedLast(entries, runId);
    LastEntry(c, FileLines(file));
    var close := entries[|entries| - 1].rec;
    var facts := AuditFactsOf(c, file).value;
    var body := BodyFor(facts, |file|, close, runId, commit, keyId, issuedAt);
    assert BuildAnchor(c, mac, file, runId, commit, key, keyId, issuedAt) == Anchored(Wellformed(body, mac(key, body)));
    FreshAnchorChecks(c, mac, file, close, runId, commit, key, keyId, issuedAt);
  }

  lemma FreshAnchorChecks(c: Codec, mac: Mac, file: Bytes, close: Rec, runId: string, commit: string, key: Bytes,
                          keyId: string, issuedAt: string)
    requires close.RunClosed? && AuditFactsOf(c, file).Some? && IsCommit(commit) && |key| >= 32 && keyId != ""
    ensures var body := BodyFor(AuditFactsOf(c, file).value, |file|, close, runId, commit, keyId, issuedAt);
            CheckAnchor(c, mac, file, close, runId, Some(Wellformed(body, mac(key, body))), Some(key), commit, keyId, false) == Proven
  {
  }

  /** The lines an anchored count and hash are about. */
  function AnchoredLines(file: Bytes): seq<Bytes> { Content(Raws(SplitUniversal(file))) }

  /** What a proven comparison has established. */
  ghost predicate Matches(c: Codec, mac: Mac, file: Bytes, runId: string, anchor: AnchorFile, key: Bytes,
                          commit: string, keyId: string) {
    && anchor.Wellformed? && anchor.tag == mac(key, anchor.body)
    && anchor.body.keyId == keyId && anchor.body.runId == runId && anchor.body.commit == commit
    && AuditFactsOf(c, file).Some? && anchor.body.tailHash == AuditFactsOf(c, file).value.tail
    && anchor.body.recordCount == AuditFactsOf(c, file).value.count && anchor.body.byteLength == |file|
  }

  lemma ProvenMatches(c: Codec, mac: Mac, file: Bytes, runId: string, anchor: AnchorFile, key: Bytes, commit: string,
                      keyId: string, fixture: bool)
    requires VerifyClosed(c, mac, file, runId, Some(anchor), Some(key), commit, keyId, fixture) in {Proven, FixturePass}
    ensures Matches(c, mac, file, runId, anchor, key, commit, keyId)
    ensures Loads(c, file) && V.Verdict(Entries(c, FileLines(file)), runId) == V.LocalHistoryValid
  {
    var entries := Entries(c, FileLines(file));
    A.AcceptedLast(entries, runId);
    ComparedMatches(c, mac, file, entries[|entries| - 1].rec, runId, anchor, key, commit, keyId, fixture);
  }

  lemma ComparedMatches(c: Codec, mac: Mac, file: Bytes, close: Rec, runId: string, anchor: AnchorFile, key: Bytes,
                        commit: string, keyId: string, fixture: bool)
    requires close.RunClosed?
    requires CheckAnchor(c, mac, file, close, runId, Some(anchor), Some(key), commit, keyId, fixture) in {Proven, FixturePass}
    ensures Matches(c, mac, file, runId, anchor, key, commit, keyId)
  {
  }

  lemma BuiltMatches(c: Codec, mac: Mac, own: Bytes, runId: string, commit: string, key: Bytes, keyId: string,
                     issuedAt: string)
    requires BuildAnchor(c, mac, own, runId, commit, key, keyId, issuedAt).Anchored?
    ensures Matches(c, mac, own, runId, BuildAnchor(c, mac, own, runId, commit, key, keyId, issuedAt).anchor, key,
                    commit, keyId)
  {
  }

  /** Two logs that match anchors with the same tag under the same key are the same lines. */
  lemma SameTagSameLog(c: Codec, mac: Mac, own: Bytes, ownRun: string, theirs: AnchorFile, ownCommit: string,
                       ownKeyId: string, key: Bytes, file: Bytes, runId: string, anchor: AnchorFile, commit: string,
                       keyId: string)
    requires GoodHash(c) && GoodMac(mac) && anchor.Wellformed? && theirs.Wellformed? && anchor.tag == theirs.tag
    requires Matches(c, mac, own, ownRun, theirs, key, ownCommit, ownKeyId)
    requires Matches(c, mac, file, runId, anchor, key, commit, keyId)
    ensures anchor == theirs && AnchoredLines(file) == AnchoredLines(own) && |file| == |own|
    ensures runId == ownRun && commit == ownCommit && keyId == ownKeyId
  {
    assert mac(key, anchor.body) == mac(key, theirs.body);
    TailDeterminesChain(c, AnchoredLines(file), AnchoredLines(own));
  }

  /** An authority's anchor accepts every accepted log with the authority's lines, number of bytes, run,
      commit and key id. */
  lemma AnchorAccepts(c: Codec, mac: Mac, own: Bytes, key: Bytes, issuedAt: string, file: Bytes, runId: string,
                      commit: string, keyId: string)
    requires Unsplittable(c) && Loads(c, file) && V.Verdict(Entries(c, FileLines(file)), runId) == V.LocalHistoryValid
    requires BuildAnchor(c, mac, own, runId, commit, key, keyId, issuedAt).Anchored?
    requires AnchoredLines(file) == AnchoredLines(own) && |file| == |own|
    ensures var anchor := BuildAnchor(c, mac, own, runId, commit, key, keyId, issuedAt).anchor;
            VerifyClosed(c, mac, file, runId, Some(anchor), Some(key), commit, keyId, false) == Proven
  {
    UniversalWalkIff(c, file);
    ReadersAgreeIff(file);
    SameFactsSameAnchor(c, mac, own, file, runId, commit, key, keyId, issuedAt);
    BuiltForAccepted(c, mac, file, runId, commit, key, keyId, issuedAt);
  }

  lemma SameFactsSameAnchor(c: Codec, mac: Mac, own: Bytes, file: Bytes, runId: string, commit: string, key: Bytes,
                            keyId: string, issuedAt: string)
    requires AnchoredLines(file) == AnchoredLines(own) && |file| == |own|
    requires BuildAnchor(c, mac, own, runId, commit, key, keyId, issuedAt).Anchored?
    ensures BuildAnchor(c, mac, own, runId, commit, key, keyId, issuedAt)
         == BuildAnchor(c, mac, file, runId, commit, key, keyId, issuedAt)
    ensures AuditFactsOf(c, file).Some? && IsCommit(commit) && |key| >= 32 && keyId != ""
  {
    assert AuditFactsOf(c, own) == AuditFactsOf(c, file);
  }

  /** The same log: same lines, same number of bytes, same run, commit and key id. */
  predicate SameLog(file: Bytes, runId: string, commit: string, keyId: string, own: Bytes, ownRun: string,
                    ownCommit: string, ownKeyId: string) {
    && AnchoredLines(file) == AnchoredLines(own) && |file| == |own|
    && runId == ownRun && commit == ownCommit && keyId == ownKeyId
  }

  /** Binding: against an anchor whose tag the authority made for its own log, exactly the accepted logs
      that are the authority's are proven, and only with the authority's anchor. */
  lemma AnchorBindsIff(c: Codec, mac: Mac, own: Bytes, ownRun: string, ownCommit: string, key: Bytes, ownKeyId: string,
                       issuedAt: string, file: Bytes, runId: string, anchor: AnchorFile, commit: string, keyId: string)
    requires GoodHash(c) && GoodMac(mac) && Unsplittable(c) && anchor.Wellformed?
    requires BuildAnchor(c, mac, own, ownRun, ownCommit, key, ownKeyId, issuedAt).Anchored?
    requires BuildAnchor(c, mac, own, ownRun, ownCommit, key, ownKeyId, issuedAt).anchor.Wellformed?
    requires anchor.tag == BuildAnchor(c, mac, own, ownRun, ownCommit, key, ownKeyId, issuedAt).anchor.tag
    ensures VerifyClosed(c, mac, file, runId, Some(anchor), Some(key), commit, keyId, false) == Proven <==>
            && Loads(c, file) && V.Verdict(Entries(c, FileLines(file)), runId) == V.LocalHistoryValid
            && anchor == BuildAnchor(c, mac, own, ownRun, ownCommit, key, ownKeyId, issuedAt).anchor
            && SameLog(file, runId, commit, keyId, own, ownRun, ownCommit, ownKeyId)
  {
    var theirs := BuildAnchor(c, mac, own, ownRun, ownCommit, key, ownKeyId, issuedAt).anchor;
    if VerifyClosed(c, mac, file, runId, Some(anchor), Some(key), commit, keyId, false) == Proven {
      ProvenMatches(c, mac, file, runId, anchor, key, commit, keyId, false);
      BuiltMatches(c, mac, own, ownRun, ownCommit, key, ownKeyId, issuedAt);
      SameTagSameLog(c, mac, own, ownRun, theirs, ownCommit, ownKeyId, key, file, runId, anchor, commit, keyId);
    } else if Loads(c, file) && V.Verdict(Entries(c, FileLines(file)), runId) == V.LocalHistoryValid
              && SameLog(file, runId, commit, keyId, own, ownRun, ownCommit, ownKeyId) {
      AnchorAccepts(c, mac, own, key, issuedAt, file, runId, commit, keyId);
    }
  }

  // ---------------------------------------------------------------- lines, not bytes

  predicate Margin(b: Byte) { b == 32 || b == 9 }

  lemma MarginStrips(b: Byte, s: Bytes)
    requires Margin(b)
    ensures Strip([b] + s) == Strip(s)
  {
    StripBlankFront([b], s);
  }

  /** A blank byte before the first line moves no line. */
  lemma {:induction false} MarginSplit(b: Byte, file: Bytes)
    requires Margin(b) && file != [] && !IsBlank(file[0])
    ensures var ls, ms := Split(file), Split([b] + file);
            if ls.done == [] then ms == Lines([], [b] + ls.open_)
            else ms == Lines([[b] + ls.done[0]] + ls.done[1..], ls.open_)
    decreases |file|
  {
    var n := |file| - 1;
    assert ([b] + file)[..|[b] + file| - 1] == [b] + file[..n];
    if n == 0 {
      assert file[..0] == [] && [b] + file[..0] == [b];
      assert [b][..0] == [];
      assert Split([b]) == Lines([], [b]);
      assert [b] + ([] + [file[0]]) == [b] + [file[0]];
    } else {
      MarginSplit(b, file[..n]);
    }
  }

  lemma MarginContent(b: Byte, raws: seq<Bytes>)
    requires Margin(b) && raws != []
    ensures Content([[b] + raws[0]] + raws[1..]) == Content(raws)
    ensures NoBlankLine([[b] + raws[0]] + raws[1..]) <==> NoBlankLine(raws)
  {
    MarginStrips(b, raws[0]);
    SameStripped([[b] + raws[0]] + raws[1..], raws);
  }

  lemma {:induction false} SameStripped(xs: seq<Bytes>, ys: seq<Bytes>)
    requires |xs| == |ys| && forall i | 0 <= i < |xs| :: Strip(xs[i]) == Strip(ys[i])
    ensures Content(xs) == Content(ys) && (NoBlankLine(xs) <==> NoBlankLine(ys))
  {
    if xs != [] {
      SameStripped(xs[..|xs| - 1], ys[..|ys| - 1]);
    }
  }

  lemma MarginLines(b: Byte, file: Bytes)
    requires Margin(b) && file != [] && !IsBlank(file[0])
    ensures FileLines([b] + file) == FileLines(file)
    ensures NoBlankLine(Raws(Split([b] + file))) <==> NoBlankLine(Raws(Split(file)))
  {
    MarginSplit(b, file);
    SplitSomething(file);
    MarginRaws(b, Split(file), Split([b] + file));
    MarginContent(b, Raws(Split(file)));
  }

  lemma MarginRaws(b: Byte, ls: Lines, ms: Lines)
    requires if ls.done == [] then ms == Lines([], [b] + ls.open_)
             else ms == Lines([[b] + ls.done[0]] + ls.done[1..], ls.open_)
    requires Raws(ls) != []
    ensures Raws(ms) == [[b] + Raws(ls)[0]] + Raws(ls)[1..]
  {
    if ls.done == [] {
      assert Raws(ls) == [ls.open_] && Raws(ls)[1..] == [];
    } else if ls.open_ != [] {
      assert Raws(ls)[1..] == ls.done[1..] + [ls.open_];
    }
  }

  lemma SplitSomething(file: Bytes)
    requires file != []
    ensures Raws(Split(file)) != []
  {
  }

  /** What is anchored are lines, not bytes: an accepted log behind one blank byte is proven against the
      anchor of the same log behind another. */
  lemma LinesNotBytes(c: Codec, mac: Mac, file: Bytes, x: Byte, y: Byte, runId: string, commit: string, key: Bytes,
                      keyId: string, issuedAt: string)
    requires Unsplittable(c) && Loads(c, file) && file != [] && !IsBlank(file[0]) && Free(FileLines(file))
    requires V.Verdict(Entries(c, FileLines(file)), runId) == V.LocalHistoryValid
    requires IsCommit(commit) && |key| >= 32 && keyId != "" && Margin(x) && Margin(y)
    ensures var built := BuildAnchor(c, mac, [x] + file, runId, commit, key, keyId, issuedAt);
            && built.Anchored?
            && VerifyClosed(c, mac, [y] + file, runId, Some(built.anchor), Some(key), commit, keyId, false) == Proven
  {
    MarginLines(x, file);
    MarginLines(y, file);
    AnchorRoundTripIff(c, mac, [x] + file, runId, commit, key, keyId, issuedAt);
    ReadersAgreeIff([x] + file);
    ReadersAgreeIff([y] + file);
    AnchorAccepts(c, mac, [x] + file, key, issuedAt, [y] + file, runId, commit, keyId);
  }
}
