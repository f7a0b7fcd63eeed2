/** From a run of the gateway to the control plane's verdict: the sealed log on disk is proven. */
module EndToEnd {
  import opened Records
  import opened Chain
  import opened AuditFile
  import opened AuditWriter
  import opened LineEnds
  import opened Anchor
  import opened RunAcceptance
  import P = Protocol

  /** The audit file after durable appends of these entries to a new log. */
  function FileOf(c: Codec, entries: seq<Entry>): LogState {
    if entries == [] then LogState([], GENESIS, true, false)
    else Append(c, FileOf(c, entries[..|entries| - 1]), entries[|entries| - 1], PERFECT).0
  }

  /** A log in order with these entries in its file. */
  ghost predicate Kept(c: Codec, s: LogState, entries: seq<Entry>) {
    && Holds(c, s.file, entries)
    && s.healthy && !s.isSealed && s.prev == FileWalk(c, s.file).value.tail
  }

  lemma {:induction false} FileHolds(c: Codec, entries: seq<Entry>)
    requires GoodCodec(c)
    ensures Kept(c, FileOf(c, entries), entries)
  {
    if entries == [] {
      EmptyHolds(c);
    } else {
      var n := |entries| - 1;
      FileHolds(c, entries[..n]);
      KeptNext(c, FileOf(c, entries[..n]), entries[..n], entries[n]);
      assert entries == entries[..n] + [entries[n]];
    }
  }

  lemma KeptNext(c: Codec, s: LogState, entries: seq<Entry>, e: Entry)
    requires GoodCodec(c) && Kept(c, s, entries)
    ensures Kept(c, Append(c, s, e, PERFECT).0, entries + [e])
  {
    NextTail(c, s, e);
    AppendReadsBack(c, s, entries, e, PERFECT);
  }

  lemma NextTail(c: Codec, s: LogState, e: Entry)
    requires GoodCodec(c) && Tidy(c, s.file) && s.healthy && !s.isSealed && s.prev == FileWalk(c, s.file).value.tail
    ensures var (w, ok) := Append(c, s, e, PERFECT);
            ok && w.healthy && !w.isSealed && FileWalk(c, w.file).Some? && w.prev == FileWalk(c, w.file).value.tail
  {
    TakesAll(|LineOf(c, s, e)|);
    FileAfter(c, s.file, e, s.prev, |LineOf(c, s, e)|);
  }

  /** The entries as `write` scrubs them. */
  function Scrubbed(scrub: Entry -> Entry, entries: seq<Entry>): (out: seq<Entry>)
    ensures |out| == |entries|
  {
    seq(|entries|, i requires 0 <= i < |entries| => scrub(entries[i]))
  }

  /** If scrubbing finds no secret in the records of a sealed run, the file its writer left is proven
      against the anchor built for it exactly if the run fits, and if not, against no anchor. */
  lemma SealedRunProvenIff(init: P.State, steps: seq<P.Step>, s: P.State, runId: string, c: Codec, mac: Mac,
                           scrub: Entry -> Entry, commit: string, key: Bytes, keyId: string, issuedAt: string)
    requires P.Init(init) && P.Exec(init, steps) == Some(s) && s.sink.isSealed && runId != "" && GoodCodec(c)
    requires forall e | e in Stamped(s.sink.log, runId) :: scrub(e) == e
    requires IsCommit(commit) && |key| >= 32 && keyId != ""
    ensures var file := FileOf(c, Scrubbed(scrub, Stamped(s.sink.log, runId))).file;
            RunFits(s) <==> exists anchor :: VerifyClosed(c, mac, file, runId, Some(anchor), Some(key), commit, keyId, false) == Proven
  {
    var entries := Stamped(s.sink.log, runId);
    assert Scrubbed(scrub, entries) == entries;
    var file := FileOf(c, entries).file;
    FileHolds(c, entries);
    SealedRunAcceptedIff(init, steps, s, runId);
    if RunFits(s) {
      HeldIsFree(c, file, entries);
      AnchorRoundTripIff(c, mac, file, runId, commit, key, keyId, issuedAt);
      var anchor := BuildAnchor(c, mac, file, runId, commit, key, keyId, issuedAt).anchor;
      assert VerifyClosed(c, mac, file, runId, Some(anchor), Some(key), commit, keyId, false) == Proven;
    }
  }

  lemma HeldIsFree(c: Codec, file: Bytes, entries: seq<Entry>)
    requires Holds(c, file, entries)
    ensures Free(FileLines(file))
  {
    SplitFree(file);
    ContentFree(Raws(Split(file)));
  }

  lemma {:induction false} SplitFree(file: Bytes)
    requires CR !in file
    ensures Free(Split(file).done) && CR !in Split(file).open_
  {
    if file != [] {
      SplitFree(file[..|file| - 1]);
    }
  }
}
