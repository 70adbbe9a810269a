/**
 Bounded log buffers: the single append with a byte limit, and the loop that
 drains one `docker exec` into two such buffers.
 */
module LogBuffer {
  import opened Prelude

  newtype byte = b: int | 0 <= b < 256
  type Bytes = seq<byte>

  /** The first `limit` bytes of `s`: what flat truncation of a whole stream keeps. */
  function First(limit: nat, s: Bytes): Bytes {
    if |s| <= limit then s else s[..limit]
  }

  /** Appends as much of `data` as still fits; `cut` reports that something did not. */
  method AppendBounded(buffer: Bytes, data: Bytes, limit: nat) returns (grown: Bytes, cut: bool)
    ensures |buffer| <= limit ==> grown == First(limit, buffer + data)
    ensures |buffer| <= limit ==> (cut <==> |buffer| + |data| > limit)
    ensures |buffer| > limit ==> grown == buffer && (cut <==> data != [])
  {
    var remaining := if |buffer| < limit then limit - |buffer| else 0;
    var amount := if |data| < remaining then |data| else remaining;
    grown := buffer + data[..amount];
    cut := amount < |data|;
  }

  datatype Stream = StdOut | StdErr | OtherStream
  datatype Chunk = Chunk(stream: Stream, bytes: Bytes)

  /** Everything `chunks` carries on `stream`, in order and without any limit. */
  function Collected(chunks: seq<Chunk>, stream: Stream): Bytes {
    if chunks == [] then []
    else
      var last := chunks[|chunks| - 1];
      Collected(chunks[..|chunks| - 1], stream) + if last.stream == stream then last.bytes else []
  }

  /** The chunks passed on as live log: those of the two log streams, in order. */
  function Live(chunks: seq<Chunk>): seq<Chunk> {
    if chunks == [] then []
    else
      var last := chunks[|chunks| - 1];
      Live(chunks[..|chunks| - 1]) + if last.stream.OtherStream? then [] else [last]
  }

  lemma {:induction false} CollectedSplits(a: seq<Chunk>, b: seq<Chunk>, stream: Stream)
    ensures Collected(a + b, stream) == Collected(a, stream) + Collected(b, stream)
    decreases |b|
  {
    if b == [] {
      assert a + b == a;
    } else {
      var n, ab := |b| - 1, a + b;
      CollectedSplits(a, b[..n], stream);
      assert ab[..|ab| - 1] == a + b[..n] && ab[|ab| - 1] == b[n];
      var x, y, z := Collected(a, stream), Collected(b[..n], stream), if b[n].stream == stream then b[n].bytes else [];
      assert (x + y) + z == x + (y + z);
    }
  }

  lemma CollectedOne(c: Chunk, stream: Stream)
    ensures Collected([c], stream) == if c.stream == stream then c.bytes else []
  {
    assert [c][..0] == [];
  }

  /** The live log carries both streams whole. */
  lemma {:induction false} LiveCarries(chunks: seq<Chunk>, stream: Stream)
    requires !stream.OtherStream?
    ensures Collected(Live(chunks), stream) == Collected(chunks, stream)
  {
    if chunks == [] {
    } else {
      var n := |chunks| - 1;
      LiveCarries(chunks[..n], stream);
      if chunks[n].stream.OtherStream? {
        assert Live(chunks) == Live(chunks[..n]);
      } else {
        CollectedSplits(Live(chunks[..n]), [chunks[n]], stream);
        CollectedOne(chunks[n], stream);
      }
    }
  }

  lemma OneMoreChunk(chunks: seq<Chunk>, i: nat, stream: Stream)
    requires i < |chunks|
    ensures Live(chunks[..i + 1])
      == if chunks[i].stream.OtherStream? then Live(chunks[..i]) else Live(chunks[..i]) + [chunks[i]]
    ensures Collected(chunks[..i + 1], stream)
      == if chunks[i].stream == stream then Collected(chunks[..i], stream) + chunks[i].bytes
         else Collected(chunks[..i], stream)
  {
    assert chunks[..i + 1][..i] == chunks[..i];
  }

  datatype Termination = ByCancellation | ByDeadline

  /** How one exec ended: by itself, with the code Docker reports if any, or stopped by the runner. */
  datatype ExecEnd = Exited(code: Option<int>) | Stopped(reason: Termination)

  /** What Docker does with one exec; `Broken` is any Docker error on the way, after the chunks that arrived. */
  datatype RawExec = Broken(chunks: seq<Chunk>) | Ran(chunks: seq<Chunk>, end: ExecEnd)

  datatype ExecResult = ExecResult(
    status: int, stdout: Bytes, stderr: Bytes, truncated: bool, termination: Option<Termination>)

  function StatusOf(end: ExecEnd): int {
    match end
    case Exited(Some(code)) => code
    case _ => -1
  }

  function TerminationOf(end: ExecEnd): Option<Termination> {
    match end
    case Exited(_) => None
    case Stopped(reason) => Some(reason)
  }

  /** The result an exec has to report: each stream truncated flat, and the flag exact. */
  function Summarized(raw: RawExec, limit: nat): ExecResult
    requires raw.Ran?
  {
    var out, err := Collected(raw.chunks, StdOut), Collected(raw.chunks, StdErr);
    ExecResult(StatusOf(raw.end), First(limit, out), First(limit, err),
               |out| > limit || |err| > limit, TerminationOf(raw.end))
  }

  /** Drains the output chunk by chunk, as it arrives, and passes it on as live log. */
  method Drain(chunks: seq<Chunk>, limit: nat)
    returns (stdout: Bytes, stderr: Bytes, truncated: bool, emitted: seq<Chunk>)
    ensures stdout == First(limit, Collected(chunks, StdOut)) && stderr == First(limit, Collected(chunks, StdErr))
    ensures truncated <==> |Collected(chunks, StdOut)| > limit || |Collected(chunks, StdErr)| > limit
    ensures emitted == Live(chunks)
  {
    stdout, stderr, truncated, emitted := [], [], false, [];
    assert Collected(chunks[..0], StdOut) == Collected(chunks[..0], StdErr) == First(limit, []) == [];
    assert Live(chunks[..0]) == [];
    assert chunks[..|chunks|] == chunks;
    hide Live, Collected, First;
    for i := 0 to |chunks|
      invariant emitted == Live(chunks[..i])
      invariant stdout == First(limit, Collected(chunks[..i], StdOut))
      invariant stderr == First(limit, Collected(chunks[..i], StdErr))
      invariant truncated <==> |Collected(chunks[..i], StdOut)| > limit || |Collected(chunks[..i], StdErr)| > limit
    {
      var chunk := chunks[i];
      OneMoreChunk(chunks, i, StdOut);
      OneMoreChunk(chunks, i, StdErr);
      FirstAppend(limit, Collected(chunks[..i], StdOut), chunk.bytes);
      FirstAppend(limit, Collected(chunks[..i], StdErr), chunk.bytes);
      var cut;
      match chunk.stream {
        case StdOut =>
          emitted := emitted + [chunk];
          stdout, cut := AppendBounded(stdout, chunk.bytes, limit);
          truncated := truncated || cut;
        case StdErr =>
          emitted := emitted + [chunk];
          stderr, cut := AppendBounded(stderr, chunk.bytes, limit);
          truncated := truncated || cut;
        case OtherStream =>
      }
    }
  }

  /** One exec from start to end. An error of Docker loses the buffers, not what was passed on before it. */
  method ExecCommand(raw: RawExec, limit: nat) returns (result: Option<ExecResult>, emitted: seq<Chunk>)
    ensures result.None? <==> raw.Broken?
    ensures raw.Ran? ==> result == Some(Summarized(raw, limit))
    ensures emitted == Live(raw.chunks)
  {
    var stdout, stderr, truncated;
    stdout, stderr, truncated, emitted := Drain(raw.chunks, limit);
    if raw.Broken? {
      return None, emitted;
    }
    result := Some(ExecResult(StatusOf(raw.end), stdout, stderr, truncated, TerminationOf(raw.end)));
  }

  /** Truncating a prefix before appending loses nothing that flat truncation would keep. */
  lemma FirstAppend(limit: nat, a: Bytes, b: Bytes)
    ensures First(limit, First(limit, a) + b) == First(limit, a + b) && |First(limit, a)| <= limit
    ensures |a + b| > limit <==> |a| > limit || |First(limit, a)| + |b| > limit
  {}

  /** Truncating both sides first loses nothing either: the two-level form is the flat form. */
  lemma FirstOfFirsts(limit: nat, a: Bytes, b: Bytes)
    ensures First(limit, First(limit, a) + First(limit, b)) == First(limit, a + b)
    ensures |a + b| > limit <==> |a| > limit || |b| > limit || |First(limit, a)| + |First(limit, b)| > limit
  {}
}
