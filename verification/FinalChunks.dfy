/** A final on the control channel: cut into bounded fragments by the runner, put together
    again by the worker's assembler. */
module FinalChunks {

  newtype Byte = x: int | 0 <= x < 256

  type Token = nat

  /** The id of a final transaction, in UTF-8. */
  type FinalId = seq<Byte>

  const CHUNK_BYTES: nat := 1536
  const FINAL_MAX_BYTES: nat := 1048576
  const TRUNCATION_RESERVE: nat := 64
  const MAX_FRAGMENTS: nat := 2048
  const FINAL_ID_MAX_BYTES: nat := 512
  const QUEUE_MAX_RECORDS: nat := 2048

  /** What a signed marker carries: any single record, or one part of a final transaction. */
  datatype Body =
    | Single(record: Token)
    | Start(id: FinalId, total: int, metadata: Token)
    | Chunk(id: FinalId, index: int, data: seq<Byte>)
    | End(id: FinalId, total: int)

  /** What the worker acts on. */
  datatype Delivery =
    | Handled(record: Token)
    | Answered(metadata: Token, content: seq<Byte>)

  // ---- The worker's assembler ------------------------------------------------------------

  datatype Assembly =
    | Idle
    | Open(id: FinalId, total: int, metadata: Token, chunks: seq<seq<Byte>>, bytes: int)

  datatype Outcome = NotFinal | Accepted | Complete(metadata: Token, content: seq<Byte>) | Rejected

  function Joined(chunks: seq<seq<Byte>>): seq<Byte> {
    if chunks == [] then [] else Joined(chunks[..|chunks| - 1]) + chunks[|chunks| - 1]
  }

  /** What the assembler takes for the id of a transaction. The runner makes it of the reply
      turn id, which it does not bound, and a time. */
  predicate IdFits(id: FinalId) {
    0 < |id| <= FINAL_ID_MAX_BYTES
  }

  /** CodexAppControlFinalAssembler.accept */
  function Assemble(a: Assembly, b: Body): (Assembly, Outcome) {
    match b
    case Single(_) => if a.Open? then (Idle, Rejected) else (a, NotFinal)
    case Start(id, total, metadata) =>
      if !IdFits(id) || a.Open? || total < 0 || total > MAX_FRAGMENTS then (Idle, Rejected)
      else (Open(id, total, metadata, [], 0), Accepted)
    case Chunk(id, index, data) =>
      if !IdFits(id) || a.Idle? || id != a.id then (Idle, Rejected)
      else if index != |a.chunks| || index >= a.total || |data| == 0 || |data| > CHUNK_BYTES then (Idle, Rejected)
      else if a.bytes + |data| > FINAL_MAX_BYTES then (Idle, Rejected)
      else (a.(chunks := a.chunks + [data], bytes := a.bytes + |data|), Accepted)
    case End(id, total) =>
      if !IdFits(id) || a.Idle? || id != a.id || total != a.total || |a.chunks| != a.total then (Idle, Rejected)
      else (Idle, Complete(a.metadata, Joined(a.chunks)))
  }

  /** The assembler after a whole log of records, from a fresh connection. */
  function After(log: seq<Body>): Assembly {
    if log == [] then Idle else Assemble(After(log[..|log| - 1]), log[|log| - 1]).0
  }

  function OutcomeOf(log: seq<Body>): Outcome
    requires log != []
  {
    Assemble(After(log[..|log| - 1]), log[|log| - 1]).1
  }

  function Effect(b: Body, outcome: Outcome): seq<Delivery> {
    if outcome.Complete? then [Answered(outcome.metadata, outcome.content)]
    else if outcome.NotFinal? && b.Single? then [Handled(b.record)]
    else []
  }

  /** What the worker acts on when it reads the whole log, in order. */
  function Deliveries(log: seq<Body>): seq<Delivery> {
    if log == [] then []
    else Deliveries(log[..|log| - 1]) + Effect(log[|log| - 1], OutcomeOf(log))
  }

  /** No record of the log is rejected. */
  predicate Clean(log: seq<Body>) {
    log == [] || (Clean(log[..|log| - 1]) && !OutcomeOf(log).Rejected?)
  }

  lemma Appended(log: seq<Body>, b: Body)
    ensures After(log + [b]) == Assemble(After(log), b).0
    ensures OutcomeOf(log + [b]) == Assemble(After(log), b).1
    ensures Deliveries(log + [b]) == Deliveries(log) + Effect(b, OutcomeOf(log + [b]))
    ensures Clean(log + [b]) <==> Clean(log) && !OutcomeOf(log + [b]).Rejected?
  {
    assert (log + [b])[..|log|] == log;
  }

  // ---- The runner's chunker ----------------------------------------------------------------

  function Notice(): (notice: string)
    ensures |notice| == 51
  {
    "\n\n[botmux: final output truncated at control limit]"
  }

  /** One byte a character; anything outside ASCII would become a question mark. */
  function Ascii(s: string): (bytes: seq<Byte>)
    ensures |bytes| == |s|
  {
    seq(|s|, i requires 0 <= i < |s| => if s[i] as int < 128 then s[i] as int as Byte else 63)
  }

  predicate IsTruncated(original: seq<Byte>) {
    |original| > FINAL_MAX_BYTES
  }

  /** What of the answer goes over the channel. */
  function Content(original: seq<Byte>): seq<Byte> {
    if IsTruncated(original) then original[..FINAL_MAX_BYTES - TRUNCATION_RESERVE] + Ascii(Notice()) else original
  }

  /** Math.ceil(length / chunk size) */
  function Total(content: seq<Byte>): nat {
    (|content| + CHUNK_BYTES - 1) / CHUNK_BYTES
  }

  function Min(a: nat, b: nat): nat {
    if a < b then a else b
  }

  function Piece(content: seq<Byte>, index: nat): seq<Byte>
    requires index * CHUNK_BYTES <= |content|
  {
    content[index * CHUNK_BYTES..Min(|content|, index * CHUNK_BYTES + CHUNK_BYTES)]
  }

  /** The first `count` fragments. */
  function Fragments(id: FinalId, content: seq<Byte>, count: nat): seq<Body>
    requires count <= Total(content)
  {
    if count == 0 then [] else Fragments(id, content, count - 1) + [Chunk(id, count - 1, Piece(content, count - 1))]
  }

  function Transaction(id: FinalId, metadata: Token, content: seq<Byte>): seq<Body> {
    [Start(id, Total(content), metadata)] + Fragments(id, content, Total(content)) + [End(id, Total(content))]
  }

  /** emitFinalMarker's records, in the order it emits them. */
  method CutFinal(id: FinalId, metadata: Token, original: seq<Byte>) returns (records: seq<Body>)
    ensures records == Transaction(id, metadata, Content(original))
  {
    var content := original;
    if |original| > FINAL_MAX_BYTES {
      content := original[..FINAL_MAX_BYTES - TRUNCATION_RESERVE] + Ascii(Notice());
    }
    var total := Total(content);
    records := [Start(id, total, metadata)];
    var index := 0;
    while index < total
      invariant index <= total
      invariant records == [Start(id, total, metadata)] + Fragments(id, content, index)
    {
      var start := index * CHUNK_BYTES;
      records := records + [Chunk(id, index, content[start..Min(|content|, start + CHUNK_BYTES)])];
      index := index + 1;
    }
    records := records + [End(id, total)];
  }

  // ---- Round trip ------------------------------------------------------------------------------

  /** An answer within the limit is sent unchanged; a longer one keeps its beginning, ends in
      the notice, and still fits. */
  lemma ContentFits(original: seq<Byte>)
    ensures |Content(original)| <= FINAL_MAX_BYTES
    ensures !IsTruncated(original) ==> Content(original) == original
    ensures IsTruncated(original) ==>
              && |Content(original)| == FINAL_MAX_BYTES - TRUNCATION_RESERVE + 51
              && Content(original)[..FINAL_MAX_BYTES - TRUNCATION_RESERVE] == original[..FINAL_MAX_BYTES - TRUNCATION_RESERVE]
              && Content(original)[FINAL_MAX_BYTES - TRUNCATION_RESERVE..] == Ascii(Notice())
  {}

  lemma PieceExtends(content: seq<Byte>, index: nat)
    requires index < Total(content)
    ensures 0 < |Piece(content, index)| <= CHUNK_BYTES
    ensures content[..index * CHUNK_BYTES] + Piece(content, index) == content[..Min(|content|, (index + 1) * CHUNK_BYTES)]
  {}

  /** What the assembler holds after the start and `count` fragments of this content. */
  predicate Holds(a: Assembly, id: FinalId, metadata: Token, content: seq<Byte>, count: nat) {
    && a.Open? && a.id == id && a.total == Total(content) && a.metadata == metadata && |a.chunks| == count
    && Joined(a.chunks) == content[..Min(|content|, count * CHUNK_BYTES)]
    && a.bytes == Min(|content|, count * CHUNK_BYTES)
  }

  lemma ChunkIsAccepted(a: Assembly, id: FinalId, metadata: Token, content: seq<Byte>, count: nat)
    requires Holds(a, id, metadata, content, count) && count < Total(content) && |content| <= FINAL_MAX_BYTES
    requires IdFits(id)
    ensures var step := Assemble(a, Chunk(id, count, Piece(content, count)));
            step.1 == Accepted && Holds(step.0, id, metadata, content, count + 1)
  {
    PieceExtends(content, count);
    var data := Piece(content, count);
    assert count * CHUNK_BYTES <= |content|;
    assert (a.chunks + [data])[..|a.chunks|] == a.chunks;
    assert Joined(a.chunks + [data]) == Joined(a.chunks) + data;
  }

  lemma {:induction false} FragmentsAccumulate(log: seq<Body>, id: FinalId, metadata: Token, content: seq<Byte>, count: nat)
    requires After(log) == Idle && Clean(log) && |content| <= FINAL_MAX_BYTES && count <= Total(content) && IdFits(id)
    ensures var read := log + [Start(id, Total(content), metadata)] + Fragments(id, content, count);
            Clean(read) && Deliveries(read) == Deliveries(log) && Holds(After(read), id, metadata, content, count)
  {
    var first := Start(id, Total(content), metadata);
    if count == 0 {
      Appended(log, first);
      assert log + [first] + [] == log + [first];
    } else {
      FragmentsAccumulate(log, id, metadata, content, count - 1);
      var before := log + [first] + Fragments(id, content, count - 1);
      var chunk := Chunk(id, count - 1, Piece(content, count - 1));
      assert log + [first] + Fragments(id, content, count) == before + [chunk];
      Appended(before, chunk);
      ChunkIsAccepted(After(before), id, metadata, content, count - 1);
    }
  }

  lemma EndCompletes(a: Assembly, id: FinalId, metadata: Token, content: seq<Byte>)
    requires Holds(a, id, metadata, content, Total(content)) && IdFits(id)
    ensures Assemble(a, End(id, Total(content))) == (Idle, Complete(metadata, content))
  {
    assert content[..|content|] == content;
  }

  /** Cutting and assembling is the identity exactly for an id that fits: read after any
      complete log, the transaction is then never rejected, delivers nothing before its end,
      and then exactly its content once. With any other id it delivers nothing at all. */
  lemma TransactionRoundTrips(log: seq<Body>, id: FinalId, metadata: Token, content: seq<Byte>)
    requires After(log) == Idle && Clean(log) && |content| <= FINAL_MAX_BYTES
    ensures var read := log + Transaction(id, metadata, content);
            && After(read) == Idle
            && (Clean(read) <==> IdFits(id))
            && Deliveries(read) == Deliveries(log) + if IdFits(id) then [Answered(metadata, content)] else []
  {
    if IdFits(id) {
      FittingTransaction(log, id, metadata, content);
    } else {
      OverlongFragments(log, id, metadata, content, Total(content));
      var before := log + [Start(id, Total(content), metadata)] + Fragments(id, content, Total(content));
      Appended(before, End(id, Total(content)));
      TransactionSplits(log, id, metadata, content);
    }
  }

  lemma {:induction false} OverlongFragments(log: seq<Body>, id: FinalId, metadata: Token, content: seq<Byte>, count: nat)
    requires After(log) == Idle && count <= Total(content) && !IdFits(id)
    ensures var read := log + [Start(id, Total(content), metadata)] + Fragments(id, content, count);
            After(read) == Idle && !Clean(read) && Deliveries(read) == Deliveries(log)
  {
    hide After, Deliveries, Clean, OutcomeOf, Piece;
    var first := Start(id, Total(content), metadata);
    if count == 0 {
      Appended(log, first);
      assert log + [first] + [] == log + [first];
    } else {
      OverlongFragments(log, id, metadata, content, count - 1);
      var before := log + [first] + Fragments(id, content, count - 1);
      var chunk := Chunk(id, count - 1, Piece(content, count - 1));
      assert log + [first] + Fragments(id, content, count) == before + [chunk];
      Appended(before, chunk);
    }
  }

  lemma FittingTransaction(log: seq<Body>, id: FinalId, metadata: Token, content: seq<Byte>)
    requires After(log) == Idle && Clean(log) && |content| <= FINAL_MAX_BYTES && IdFits(id)
    ensures var read := log + Transaction(id, metadata, content);
            && After(read) == Idle && Clean(read)
            && Deliveries(read) == Deliveries(log) + [Answered(metadata, content)]
  {
    var n := Total(content);
    FragmentsAccumulate(log, id, metadata, content, n);
    var before := log + [Start(id, n, metadata)] + Fragments(id, content, n);
    EndCompletes(After(before), id, metadata, content);
    CompletedBy(before, End(id, n), metadata, content);
    TransactionSplits(log, id, metadata, content);
  }

  lemma CompletedBy(before: seq<Body>, end: Body, metadata: Token, content: seq<Byte>)
    requires Clean(before) && Assemble(After(before), end) == (Idle, Complete(metadata, content))
    ensures After(before + [end]) == Idle && Clean(before + [end])
    ensures Deliveries(before + [end]) == Deliveries(before) + [Answered(metadata, content)]
  {
    Appended(before, end);
  }

  lemma TransactionSplits(log: seq<Body>, id: FinalId, metadata: Token, content: seq<Byte>)
    ensures log + Transaction(id, metadata, content)
         == log + [Start(id, Total(content), metadata)] + Fragments(id, content, Total(content)) + [End(id, Total(content))]
  {}

  lemma {:induction false} FragmentAt(id: FinalId, content: seq<Byte>, count: nat, k: nat)
    requires k < count <= Total(content)
    ensures |Fragments(id, content, count)| == count
    ensures Fragments(id, content, count)[k] == Chunk(id, k, Piece(content, k))
    ensures 0 < |Piece(content, k)| <= CHUNK_BYTES
  {
    FragmentCount(id, content, count - 1);
    if k < count - 1 { FragmentAt(id, content, count - 1, k); }
  }

  lemma {:induction false} FragmentCount(id: FinalId, content: seq<Byte>, count: nat)
    requires count <= Total(content)
    ensures |Fragments(id, content, count)| == count
  {
    if count > 0 { FragmentCount(id, content, count - 1); }
  }

  /** The announced total is the number of fragments, each fits, and a whole final fits the
      assembler's and the queue's bounds. */
  lemma TransactionIsBounded(id: FinalId, metadata: Token, original: seq<Byte>, k: nat)
    requires k < Total(Content(original))
    ensures var content := Content(original);
            var records := Transaction(id, metadata, content);
            && |records| == Total(content) + 2
            && records[0] == Start(id, Total(content), metadata)
            && records[k + 1] == Chunk(id, k, Piece(content, k))
            && 0 < |Piece(content, k)| <= CHUNK_BYTES
            && Total(content) <= 683
            && |records| < QUEUE_MAX_RECORDS
  {
    ContentFits(original);
    var content := Content(original);
    FragmentAt(id, content, Total(content), k);
  }

  // ---- What the assembler lets through --------------------------------------------------------------

  /** The fragments of a transaction, as records. */
  function Chunked(id: FinalId, chunks: seq<seq<Byte>>): seq<Body> {
    if chunks == [] then []
    else Chunked(id, chunks[..|chunks| - 1]) + [Chunk(id, |chunks| - 1, chunks[|chunks| - 1])]
  }

  /** The fragments fit, each and together, under an id that fits. */
  ghost predicate Fits(id: FinalId, chunks: seq<seq<Byte>>) {
    && IdFits(id) && |Joined(chunks)| <= FINAL_MAX_BYTES
    && forall i | 0 <= i < |chunks| :: 0 < |chunks[i]| <= CHUNK_BYTES
  }

  /** An uninterrupted transaction: a start, the announced number of fragments in order, and the end,
      all under one id. */
  ghost predicate IsTransaction(records: seq<Body>, metadata: Token, content: seq<Byte>) {
    exists id, chunks :: IsTransactionOf(records, id, metadata, chunks) && content == Joined(chunks)
  }

  ghost predicate IsTransactionOf(records: seq<Body>, id: FinalId, metadata: Token, chunks: seq<seq<Byte>>) {
    && |chunks| <= MAX_FRAGMENTS && Fits(id, chunks)
    && records == [Start(id, |chunks|, metadata)] + Chunked(id, chunks) + [End(id, |chunks|)]
  }

  /** The assembler, if open, holds the start and the fragments that the log ends with. */
  ghost predicate HoldsTail(log: seq<Body>, at: nat) {
    var a := After(log);
    a.Open? ==>
      && at < |log| && After(log[..at]) == Idle
      && Fits(a.id, a.chunks) && 0 <= |a.chunks| <= a.total <= MAX_FRAGMENTS && a.bytes == |Joined(a.chunks)|
      && log[at..] == [Start(a.id, a.total, a.metadata)] + Chunked(a.id, a.chunks)
  }

  lemma {:induction false} OpenHoldsTail(log: seq<Body>) returns (at: nat)
    ensures HoldsTail(log, at)
    decreases |log|
  {
    hide HoldsTail, Assemble;
    at := 0;
    if log == [] {
      NothingIsHeld();
    } else {
      var before, b := log[..|log| - 1], log[|log| - 1];
      assert log == before + [b];
      at := OpenHoldsTail(before);
      if b.Start? {
        at := |before|;
        StartIsHeld(before, b);
      } else if b.Chunk? {
        ChunkHoldsTail(before, at, b);
      } else {
        OthersHoldNothing(before, at, b);
      }
    }
  }

  lemma NothingIsHeld()
    ensures HoldsTail([], 0)
  {}

  lemma StartIsHeld(before: seq<Body>, b: Body)
    requires b.Start?
    ensures HoldsTail(before + [b], |before|)
  {
    hide After, Fits;
    Appended(before, b);
    if IdFits(b.id) { NothingFits(b.id); }
    assert (before + [b])[..|before|] == before;
    assert (before + [b])[|before|..] == [b] + Chunked(b.id, []);
  }

  lemma ChunkHoldsTail(before: seq<Body>, at: nat, b: Body)
    requires b.Chunk? && HoldsTail(before, at)
    ensures HoldsTail(before + [b], at)
  {
    hide After, Fits, Joined;
    Appended(before, b);
    var was, a := After(before), After(before + [b]);
    if a.Open? {
      assert (before + [b])[..at] == before[..at];
      assert (before + [b])[at..] == before[at..] + [b];
      assert a.chunks[..|was.chunks|] == was.chunks;
      FitsOneMore(was, b);
    }
  }

  lemma OthersHoldNothing(before: seq<Body>, at: nat, b: Body)
    requires b.Single? || b.End?
    ensures HoldsTail(before + [b], at)
  {
    hide After, Fits, Joined;
    Appended(before, b);
  }

  lemma NothingFits(id: FinalId)
    requires IdFits(id)
    ensures Fits(id, [])
  {}

  lemma FitsOneMore(a: Assembly, b: Body)
    requires a.Open? && b.Chunk? && Fits(a.id, a.chunks) && a.bytes == |Joined(a.chunks)|
    requires Assemble(a, b).0.Open?
    ensures var a' := Assemble(a, b).0; Fits(a'.id, a'.chunks) && a'.bytes == |Joined(a'.chunks)|
  {
    assert (a.chunks + [b.data])[..|a.chunks|] == a.chunks;
  }

  lemma {:induction false} ChunkedIsHeld(log: seq<Body>, id: FinalId, total: int, metadata: Token, chunks: seq<seq<Byte>>)
    requires After(log) == Idle && Fits(id, chunks) && |chunks| <= total <= MAX_FRAGMENTS
    ensures After(log + ([Start(id, total, metadata)] + Chunked(id, chunks)))
         == Open(id, total, metadata, chunks, |Joined(chunks)|)
    decreases |chunks|
  {
    hide After, Fits, Joined;
    var first := Start(id, total, metadata);
    if chunks == [] {
      Appended(log, first);
      assert log + ([first] + []) == log + [first];
      FittingId(id);
    } else {
      var fewer, last := chunks[..|chunks| - 1], chunks[|chunks| - 1];
      FewerFit(id, chunks);
      ChunkedIsHeld(log, id, total, metadata, fewer);
      var before := log + ([first] + Chunked(id, fewer));
      assert log + ([first] + Chunked(id, chunks)) == before + [Chunk(id, |chunks| - 1, last)];
      Appended(before, Chunk(id, |chunks| - 1, last));
      ChunkIsTaken(id, total, metadata, chunks);
    }
  }

  lemma ChunkIsTaken(id: FinalId, total: int, metadata: Token, chunks: seq<seq<Byte>>)
    requires Fits(id, chunks) && 0 < |chunks| <= total
    ensures var fewer := chunks[..|chunks| - 1];
            Assemble(Open(id, total, metadata, fewer, |Joined(fewer)|), Chunk(id, |chunks| - 1, chunks[|chunks| - 1])).0
            == Open(id, total, metadata, chunks, |Joined(chunks)|)
  {
    var fewer, last := chunks[..|chunks| - 1], chunks[|chunks| - 1];
    assert chunks == fewer + [last];
    assert Joined(chunks) == Joined(fewer) + last;
  }

  lemma FittingId(id: FinalId)
    ensures Fits(id, []) ==> IdFits(id)
    ensures Joined([]) == []
  {}

  lemma FewerFit(id: FinalId, chunks: seq<seq<Byte>>)
    requires chunks != [] && Fits(id, chunks)
    ensures Fits(id, chunks[..|chunks| - 1])
  {}

  /** Whatever arrives, in whatever order: a final is delivered exactly by an uninterrupted transaction that
      begins with nothing open, and its content is the fragments of that transaction, one after the other. */
  lemma CompletesExactly(log: seq<Body>, metadata: Token, content: seq<Byte>)
    requires log != []
    ensures OutcomeOf(log) == Complete(metadata, content)
       <==> exists at | 0 <= at < |log| :: After(log[..at]) == Idle && IsTransaction(log[at..], metadata, content)
  {
    if OutcomeOf(log) == Complete(metadata, content) {
      var at := CompletedByTransaction(log, metadata, content);
    }
    forall at | 0 <= at < |log| && After(log[..at]) == Idle && IsTransaction(log[at..], metadata, content)
      ensures OutcomeOf(log) == Complete(metadata, content)
    {
      var id, chunks :| IsTransactionOf(log[at..], id, metadata, chunks) && content == Joined(chunks);
      TransactionCompletes(log, at, id, metadata, chunks);
    }
  }

  lemma CompletedByTransaction(log: seq<Body>, metadata: Token, content: seq<Byte>) returns (at: nat)
    requires log != [] && OutcomeOf(log) == Complete(metadata, content)
    ensures at < |log| && After(log[..at]) == Idle && IsTransaction(log[at..], metadata, content)
  {
    var before, b := log[..|log| - 1], log[|log| - 1];
    var a := After(before);
    at := OpenHoldsTail(before);
    assert log[..at] == before[..at];
    assert log[at..] == before[at..] + [b];
    assert IsTransactionOf(log[at..], a.id, metadata, a.chunks);
  }

  lemma TransactionCompletes(log: seq<Body>, at: nat, id: FinalId, metadata: Token, chunks: seq<seq<Byte>>)
    requires at < |log| && After(log[..at]) == Idle && IsTransactionOf(log[at..], id, metadata, chunks)
    ensures OutcomeOf(log) == Complete(metadata, Joined(chunks))
  {
    ChunkedIsHeld(log[..at], id, |chunks|, metadata, chunks);
    var before := log[..at] + ([Start(id, |chunks|, metadata)] + Chunked(id, chunks));
    assert log == log[..at] + log[at..];
    assert log == before + [End(id, |chunks|)];
    Appended(before, End(id, |chunks|));
  }

  /** Any other record is handled exactly if no transaction is open; inside one it is refused. */
  lemma SinglesAreNotInterleaved(log: seq<Body>, record: Token)
    ensures OutcomeOf(log + [Single(record)]) == if After(log) == Idle then NotFinal else Rejected
    ensures Deliveries(log + [Single(record)])
         == Deliveries(log) + if After(log) == Idle then [Handled(record)] else []
  {
    Appended(log, Single(record));
  }
}
