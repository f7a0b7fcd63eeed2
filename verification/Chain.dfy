/** The hash chain of the audit log, on lines. */
module Chain {
  import opened Records

  type Byte = x: int | 0 <= x < 256
  type Bytes = seq<Byte>

  /** What a line says when it parses as a JSON object: its `prev` field, and the rest. */
  datatype Parsed = Parsed(prev: Option<string>, entry: Entry)

  /** JSON and SHA-256, of which nothing is used but what `GoodHash` and `GoodCodec` say. */
  datatype Codec = Codec(parse: Bytes -> Option<Parsed>, hash: Bytes -> string, encode: (Entry, string) -> Bytes)

  const GENESIS := "0000000000000000000000000000000000000000000000000000000000000000"

  /** No two lines share a hash, and no line hashes to GENESIS. */
  ghost predicate GoodHash(c: Codec) {
    && (forall x: Bytes, y: Bytes | c.hash(x) == c.hash(y) :: x == y)
    && (forall x: Bytes :: c.hash(x) != GENESIS)
  }

  /** What a chain walk has found: how many records, the hash of the last one, the last one. */
  datatype ChainFacts = ChainFacts(count: nat, tail: string, last: Option<Parsed>)

  /** One more line at the end of an intact chain. */
  function Link(c: Codec, before: ChainFacts, line: Bytes): Option<ChainFacts> {
    var p := c.parse(line);
    if p.None? || p.value.prev != Some(before.tail) then None
    else Some(ChainFacts(before.count + 1, c.hash(line), p))
  }

  /** The chain walk over a list of lines; None when the chain breaks. */
  function Walk(c: Codec, lines: seq<Bytes>): Option<ChainFacts> {
    if lines == [] then Some(ChainFacts(0, GENESIS, None))
    else
      var before := Walk(c, lines[..|lines| - 1]);
      if before.None? then None else Link(c, before.value, lines[|lines| - 1])
  }

  lemma WalkSnoc(c: Codec, lines: seq<Bytes>, line: Bytes)
    ensures Walk(c, lines + [line]) == if Walk(c, lines).None? then None else Link(c, Walk(c, lines).value, line)
  {
    assert (lines + [line])[..|lines|] == lines;
  }

  /** Every prefix of an intact chain is intact. */
  lemma {:induction false} PrefixIntact(c: Codec, lines: seq<Bytes>, n: nat)
    requires Walk(c, lines).Some? && n <= |lines|
    ensures Walk(c, lines[..n]).Some?
  {
    if n == |lines| {
      assert lines[..n] == lines;
    } else {
      assert lines[..|lines| - 1][..n] == lines[..n];
      PrefixIntact(c, lines[..|lines| - 1], n);
    }
  }

  lemma {:induction false} WalkCounts(c: Codec, lines: seq<Bytes>)
    requires Walk(c, lines).Some?
    ensures Walk(c, lines).value.count == |lines|
    ensures lines != [] ==> Walk(c, lines).value.tail == c.hash(lines[|lines| - 1])
    ensures lines != [] ==> Walk(c, lines).value.last == c.parse(lines[|lines| - 1])
  {
    if lines != [] {
      WalkCounts(c, lines[..|lines| - 1]);
    }
  }

  /** Chain uniqueness: two intact chains with the same tail hash are the same lines, so no edit,
      insertion, deletion or reordering keeps the tail. */
  lemma {:induction false} TailDeterminesChain(c: Codec, xs: seq<Bytes>, ys: seq<Bytes>)
    requires GoodHash(c) && Walk(c, xs).Some? && Walk(c, ys).Some?
    requires Walk(c, xs).value.tail == Walk(c, ys).value.tail
    ensures xs == ys
  {
    assert xs != [] ==> Walk(c, xs).value.tail == c.hash(xs[|xs| - 1]) != GENESIS;
    assert ys != [] ==> Walk(c, ys).value.tail == c.hash(ys[|ys| - 1]) != GENESIS;
    if xs != [] {
      var m, n := |xs| - 1, |ys| - 1;
      TailDeterminesChain(c, xs[..m], ys[..n]);
      assert xs == xs[..m] + [xs[m]] && ys == ys[..n] + [ys[n]];
    }
  }

  /** The tail moves with every line: no line of an intact chain hashes to the tail before it. */
  lemma {:induction false} TailMoves(c: Codec, lines: seq<Bytes>, line: Bytes)
    requires GoodHash(c) && Walk(c, lines + [line]).Some?
    ensures Walk(c, lines).Some? && c.hash(line) != Walk(c, lines).value.tail
  {
    WalkSnoc(c, lines, line);
    if lines != [] && c.hash(line) == Walk(c, lines).value.tail {
      var n := |lines| - 1;
      assert lines == lines[..n] + [lines[n]] && lines[n] == line;
      TailMoves(c, lines[..n], line);
    }
  }

  /** The entries of an intact chain. */
  function Entries(c: Codec, lines: seq<Bytes>): (entries: seq<Entry>)
    requires Walk(c, lines).Some?
    ensures |entries| == |lines|
  {
    if lines == [] then []
    else
      Entries(c, lines[..|lines| - 1]) + [c.parse(lines[|lines| - 1]).value.entry]
  }

  lemma {:induction false} LastEntry(c: Codec, lines: seq<Bytes>)
    requires Walk(c, lines).Some? && lines != []
    ensures Walk(c, lines).value.last.Some?
    ensures Walk(c, lines).value.last.value.entry == Entries(c, lines)[|lines| - 1]
  {
  }
}
