/**
 The live log of one job: the executor numbers pieces of output and offers them to a bounded
 queue without waiting, an uploader sends them with retries, and the worker flushes the queue
 for a limited time before it completes the job.
 */
module LogPipeline {
  import opened LogBuffer

  const PIECE_BYTES := 65536
  const QUEUE_CAPACITY := 256
  const UPLOAD_ATTEMPTS := 3

  /** A numbered piece; text conversion of the bytes is not modelled. */
  datatype LogChunk = LogChunk(number: nat, chunk: Chunk)

  /** `Dead` is a panicked task, `Aborted` one stopped at the flush deadline. */
  datatype Uploader = Idle | Sending(piece: LogChunk, attempt: nat) | Finished | Dead | Aborted

  /** The worker: `ok` tells whether the executor returned a result of its own, `flag` is `log_truncated`. */
  datatype Phase = Running | Flushing(ok: bool, flag: bool) | Enqueued(ok: bool, flag: bool) | Panicked

  /**
   `calls` are the calls of `emit_log` so far and `rest` the pieces of the last one not yet
   numbered. The executor itself keeps only the length of `dropped` and nothing of `refused`.
   */
  datatype Pipe = Pipe(
    calls: seq<Chunk>, rest: seq<Chunk>, numbered: nat, queue: seq<LogChunk>,
    dropped: seq<nat>, refused: seq<nat>,
    uploader: Uploader, loss: bool, acked: seq<LogChunk>, lost: seq<nat>, phase: Phase)

  const INITIAL := Pipe([], [], 0, [], [], [], Idle, false, [], [], Running)

  datatype Step =
    | Emit(call: Chunk)
    | Hand
    | Take
    | UploadSucceeds
    | UploadFails
    | Close
    | Die
    | ReturnOk(truncated: bool)
    | ReturnErr
    | FlushEnds
    | FlushTimesOut

  function Split(bytes: Bytes): seq<Bytes> {
    if bytes == [] then []
    else if |bytes| <= PIECE_BYTES then [bytes]
    else [bytes[..PIECE_BYTES]] + Split(bytes[PIECE_BYTES..])
  }

  /** The pieces of one call, on its stream. */
  function PiecesOf(call: Chunk): (r: seq<Chunk>)
    ensures |r| == |Split(call.bytes)|
    ensures forall i | 0 <= i < |r| :: r[i] == Chunk(call.stream, Split(call.bytes)[i])
  {
    seq(|Split(call.bytes)|, i requires 0 <= i < |Split(call.bytes)| => Chunk(call.stream, Split(call.bytes)[i]))
  }

  /** The pieces of all calls in order: piece `n` carries number `n + 1`. */
  function Pieces(calls: seq<Chunk>): seq<Chunk> {
    if calls == [] then [] else Pieces(calls[..|calls| - 1]) + PiecesOf(calls[|calls| - 1])
  }

  predicate Alive(u: Uploader) {
    u.Idle? || u.Sending?
  }

  predicate Enabled(s: Pipe, step: Step) {
    match step
    case Emit(call) => s.phase.Running? && s.rest == [] && !call.stream.OtherStream?
    case Hand => s.phase.Running? && s.rest != []
    case Take => s.uploader.Idle? && s.queue != []
    case UploadSucceeds => s.uploader.Sending?
    case UploadFails => s.uploader.Sending?
    case Close => s.uploader.Idle? && s.queue == [] && s.phase.Flushing?
    case Die => Alive(s.uploader)
    case ReturnOk(_) => s.phase.Running? && s.rest == []
    case ReturnErr => s.phase.Running? && s.rest == []
    case FlushEnds => s.phase.Flushing? && (s.uploader.Finished? || s.uploader.Dead?)
    case FlushTimesOut => s.phase.Flushing? && Alive(s.uploader)
  }

  function InFlight(u: Uploader): seq<LogChunk> {
    if u.Sending? then [u.piece] else []
  }

  function Handed(s: Pipe): Pipe
    requires s.rest != []
  {
    var n := s.numbered + 1;
    var t := s.(numbered := n, rest := s.rest[1..]);
    if s.uploader.Dead? then t.(refused := s.refused + [n])
    else if |s.queue| < QUEUE_CAPACITY then t.(queue := s.queue + [LogChunk(n, s.rest[0])])
    else t.(dropped := s.dropped + [n])
  }

  function Apply(s: Pipe, step: Step): Pipe
    requires Enabled(s, step)
  {
    match step
    case Emit(call) => s.(calls := s.calls + [call], rest := PiecesOf(call))
    case Hand => Handed(s)
    case Take => s.(uploader := Sending(s.queue[0], 1), queue := s.queue[1..])
    case UploadSucceeds => s.(uploader := Idle, acked := s.acked + [s.uploader.piece])
    case UploadFails =>
      if s.uploader.attempt < UPLOAD_ATTEMPTS then s.(uploader := Sending(s.uploader.piece, s.uploader.attempt + 1))
      else s.(uploader := Idle, loss := true, lost := s.lost + [s.uploader.piece.number])
    case Close => s.(uploader := Finished)
    case Die => s.(uploader := Dead, lost := s.lost + Numbers(InFlight(s.uploader)))
    case ReturnOk(truncated) => s.(phase := Flushing(true, truncated || |s.dropped| > 0))
    case ReturnErr => s.(phase := Flushing(false, false))
    // A task that reported loss, or died, is awaited a second time: the worker panics there.
    case FlushEnds =>
      if s.uploader.Finished? && !s.loss then s.(phase := Enqueued(s.phase.ok, s.phase.flag)) else s.(phase := Panicked)
    case FlushTimesOut =>
      s.(phase := Enqueued(s.phase.ok, true), uploader := Aborted, lost := s.lost + Numbers(InFlight(s.uploader)))
  }

  /** `steps` is a schedule that leads from `s` to `t`. */
  predicate Runs(s: Pipe, steps: seq<Step>, t: Pipe)
    decreases |steps|
  {
    if steps == [] then s == t
    else Enabled(s, steps[0]) && Runs(Apply(s, steps[0]), steps[1..], t)
  }

  // ---- Splitting loses nothing ----

  function Concat(pieces: seq<Bytes>): Bytes {
    if pieces == [] then [] else pieces[0] + Concat(pieces[1..])
  }

  lemma {:induction false} SplitRejoins(bytes: Bytes)
    ensures Concat(Split(bytes)) == bytes
    ensures forall p | p in Split(bytes) :: 0 < |p| <= 65536
    ensures forall i | 0 <= i < |Split(bytes)| - 1 :: |Split(bytes)[i]| == 65536
  {
    if |bytes| <= PIECE_BYTES {
    } else {
      SplitRejoins(bytes[PIECE_BYTES..]);
      assert Split(bytes)[1..] == Split(bytes[PIECE_BYTES..]);
    }
  }

  lemma {:induction false} CollectedAlike(chunks: seq<Chunk>, pieces: seq<Bytes>, on: Stream, stream: Stream)
    requires |chunks| == |pieces| && forall i | 0 <= i < |chunks| :: chunks[i] == Chunk(on, pieces[i])
    ensures Collected(chunks, stream) == if on == stream then Concat(pieces) else []
    decreases |chunks|
  {
    if chunks == [] {
    } else {
      CollectedAlike(chunks[1..], pieces[1..], on, stream);
      assert chunks == [chunks[0]] + chunks[1..];
      CollectedSplits([chunks[0]], chunks[1..], stream);
      CollectedOne(chunks[0], stream);
    }
  }

  /** On either stream the pieces carry exactly what the calls carried. */
  lemma {:induction false} PiecesCarryAll(calls: seq<Chunk>, stream: Stream)
    ensures Collected(Pieces(calls), stream) == Collected(calls, stream)
  {
    if calls == [] {
    } else {
      var n := |calls| - 1;
      PiecesCarryAll(calls[..n], stream);
      CollectedSplits(Pieces(calls[..n]), PiecesOf(calls[n]), stream);
      CollectedAlike(PiecesOf(calls[n]), Split(calls[n].bytes), calls[n].stream, stream);
      SplitRejoins(calls[n].bytes);
    }
  }

  // ---- What every schedule keeps ----

  function Numbers(chunks: seq<LogChunk>): (r: seq<nat>) {
    seq(|chunks|, i requires 0 <= i < |chunks| => chunks[i].number)
  }

  function UpTo(n: nat): seq<nat> {
    seq(n, i => i + 1)
  }

  /** What still has to be uploaded, in order. */
  function Line(s: Pipe): seq<LogChunk> {
    InFlight(s.uploader) + s.queue
  }

  predicate Ascending(chunks: seq<LogChunk>) {
    forall i, j | 0 <= i < j < |chunks| :: chunks[i].number < chunks[j].number
  }

  /** A chunk of this run: its number has been assigned and it carries the piece of that number. */
  predicate Genuine(s: Pipe, c: LogChunk) {
    1 <= c.number <= s.numbered <= |Pieces(s.calls)| && c.chunk == Pieces(s.calls)[c.number - 1]
  }

  /** Pieces are numbered in order, and every chunk under way or acknowledged is the piece of its number. */
  predicate Numbered(s: Pipe) {
    && s.numbered <= |Pieces(s.calls)|
    && s.rest == Pieces(s.calls)[s.numbered..]
    && (forall c | c in s.acked :: Genuine(s, c))
    && (forall c | c in Line(s) :: Genuine(s, c))
  }

  /** Uploads happen in the order of the numbers. */
  predicate Ordered(s: Pipe) {
    && Ascending(s.acked)
    && Ascending(Line(s))
    && forall a, c | a in s.acked && c in Line(s) :: a.number < c.number
  }

  /** Where the assigned numbers are: acknowledged, given up, under way, dropped or refused. */
  function Whereabouts(s: Pipe): multiset<nat> {
    multiset(Numbers(s.acked)) + multiset(s.lost) + multiset(Numbers(Line(s)))
    + multiset(s.dropped) + multiset(s.refused)
  }

  /** Every assigned number is in exactly one place. */
  predicate Accounted(s: Pipe) {
    Whereabouts(s) == multiset(UpTo(s.numbered))
  }

  predicate PhaseSound(s: Pipe) {
    && |s.queue| <= QUEUE_CAPACITY
    && (s.uploader.Sending? ==> 1 <= s.uploader.attempt <= UPLOAD_ATTEMPTS)
    && (s.refused != [] ==> s.uploader.Dead?)
    && (s.uploader.Finished? ==> s.queue == [])
    && (Alive(s.uploader) || s.uploader.Finished? ==> (s.loss <==> s.lost != []))
    && (!s.phase.Running? ==> s.rest == [])
    && (s.uploader.Finished? ==> !s.phase.Running?)
    && (s.uploader.Aborted? ==> s.phase.Enqueued?)
    && (s.phase.Flushing? && s.phase.ok && !s.phase.flag ==> s.dropped == [])
    && (s.phase.Enqueued? && s.phase.ok && !s.phase.flag ==> s.dropped == [])
    && (s.phase.Enqueued? ==> (s.uploader.Finished? && !s.loss) || (s.uploader.Aborted? && s.phase.flag))
    && (s.phase.Panicked? ==> s.uploader.Dead? || (s.uploader.Finished? && s.loss))
  }

  predicate Sound(s: Pipe) {
    Numbered(s) && Ordered(s) && Accounted(s) && PhaseSound(s)
  }

  lemma NumbersGrow(chunks: seq<LogChunk>, c: LogChunk)
    ensures Numbers(chunks + [c]) == Numbers(chunks) + [c.number]
    ensures Numbers([c] + chunks) == [c.number] + Numbers(chunks)
  {}

  lemma PiecesGrow(calls: seq<Chunk>, call: Chunk)
    ensures Pieces(calls + [call]) == Pieces(calls) + PiecesOf(call)
  {
    assert (calls + [call])[..|calls|] == calls;
  }

  /** What the uploader and the worker do to a pipe: nothing, or the first of the line leaves it. */
  predicate Moves(s: Pipe, t: Pipe) {
    && t.calls == s.calls && t.rest == s.rest && t.numbered == s.numbered
    && t.dropped == s.dropped && t.refused == s.refused
    && (|| (Line(t) == Line(s) && t.acked == s.acked && t.lost == s.lost)
        || (&& Line(s) != [] && Line(t) == Line(s)[1..]
            && (|| (t.acked == s.acked + [Line(s)[0]] && t.lost == s.lost)
                || (t.acked == s.acked && t.lost == s.lost + [Line(s)[0].number]))))
  }

  lemma OtherStepsMove(s: Pipe, step: Step)
    requires Enabled(s, step) && !step.Emit? && !step.Hand?
    ensures Moves(s, Apply(s, step))
  {
    var t := Apply(s, step);
    if s.uploader.Sending? {
      SendingMoves(s, step);
    } else {
      assert Numbers([]) == [];
      hide Numbers, PiecesOf;
      assert Line(t) == Line(s);
      assert s.lost + [] == s.lost;
    }
  }

  lemma SendingMoves(s: Pipe, step: Step)
    requires Enabled(s, step) && !step.Emit? && !step.Hand? && s.uploader.Sending?
    ensures Moves(s, Apply(s, step))
  {
    var t, line := Apply(s, step), Line(s);
    assert line == [s.uploader.piece] + s.queue && line[1..] == s.queue;
    assert Numbers(InFlight(s.uploader)) == [s.uploader.piece.number];
    hide Numbers, PiecesOf;
    assert !t.uploader.Sending? ==> Line(t) == s.queue;
  }

  lemma EmitKeeps(s: Pipe, call: Chunk)
    requires Enabled(s, Emit(call)) && Numbered(s) && Ordered(s) && Accounted(s)
    ensures var t := Apply(s, Emit(call)); Numbered(t) && Ordered(t) && Accounted(t)
  {
    var t := Apply(s, Emit(call));
    PiecesGrow(s.calls, call);
    hide Pieces, PiecesOf;
    assert Line(t) == Line(s);
  }

  lemma HandKeeps(s: Pipe)
    requires Enabled(s, Hand) && Numbered(s) && Ordered(s) && Accounted(s)
    ensures var t := Apply(s, Hand); Numbered(t) && Ordered(t) && Accounted(t)
  {
    var t := Apply(s, Hand);
    var c := LogChunk(s.numbered + 1, s.rest[0]);
    assert t.queue != s.queue ==> Line(t) == Line(s) + [c];
    assert t.queue == s.queue ==> Line(t) == Line(s);
    hide Line;
    HandStaysNumbered(s, t, c);
    HandStaysAccounted(s, t, c);
  }

  lemma HandStaysNumbered(s: Pipe, t: Pipe, c: LogChunk)
    requires Numbered(s) && Ordered(s) && s.rest != [] && c == LogChunk(s.numbered + 1, s.rest[0])
    requires t.calls == s.calls && t.rest == s.rest[1..] && t.numbered == s.numbered + 1 && t.acked == s.acked
    requires Line(t) == Line(s) || Line(t) == Line(s) + [c]
    ensures Numbered(t) && Ordered(t)
  {
    hide Pieces, Line;
    assert c.chunk == Pieces(s.calls)[s.numbered] && t.rest == Pieces(s.calls)[t.numbered..];
    forall x | x in Line(t)
      ensures x in Line(s) || x == c
    {}
    assert forall i | 0 <= i < |Line(s)| :: Line(s)[i] in Line(s);
  }

  lemma HandStaysAccounted(s: Pipe, t: Pipe, c: LogChunk)
    requires Accounted(s) && c.number == t.numbered == s.numbered + 1 && t.acked == s.acked && t.lost == s.lost
    requires
      || (Line(t) == Line(s) + [c] && t.dropped == s.dropped && t.refused == s.refused)
      || (Line(t) == Line(s) && t.dropped == s.dropped + [c.number] && t.refused == s.refused)
      || (Line(t) == Line(s) && t.dropped == s.dropped && t.refused == s.refused + [c.number])
    ensures Accounted(t)
  {
    assert UpTo(c.number) == UpTo(s.numbered) + [c.number];
    NumbersGrow(Line(s), c);
    hide Numbers, UpTo, Line;
    var lines, now := Numbers(Line(s)), Numbers(Line(t));
    OneMoreNumber(UpTo(s.numbered), c.number);
    OneMoreNumber(lines, c.number);
    OneMoreNumber(s.dropped, c.number);
    OneMoreNumber(s.refused, c.number);
    OneMoreSomewhere(
      multiset(Numbers(s.acked)), multiset(s.lost), multiset(lines), multiset(s.dropped), multiset(s.refused),
      multiset(now), multiset(t.dropped), multiset(t.refused), multiset{c.number});
  }

  lemma OneMoreSomewhere<T>(
    a: multiset<T>, b: multiset<T>, c: multiset<T>, d: multiset<T>, e: multiset<T>,
    c': multiset<T>, d': multiset<T>, e': multiset<T>, one: multiset<T>)
    requires
      || (c' == c + one && d' == d && e' == e)
      || (c' == c && d' == d + one && e' == e)
      || (c' == c && d' == d && e' == e + one)
    ensures a + b + c' + d' + e' == (a + b + c + d + e) + one
  {}

  lemma OneMoreNumber(numbers: seq<nat>, n: nat)
    ensures multiset(numbers + [n]) == multiset(numbers) + multiset{n}
  {}

  lemma MovesKeep(s: Pipe, t: Pipe)
    requires Moves(s, t) && Numbered(s) && Ordered(s) && Accounted(s)
    ensures Numbered(t) && Ordered(t) && Accounted(t)
  {
    if Line(t) != Line(s) {
      MoveStaysAccounted(s, t);
      MoveStaysNumbered(s, t);
      MoveStaysOrdered(s, t);
    }
  }

  lemma MoveStaysAccounted(s: Pipe, t: Pipe)
    requires Moves(s, t) && Accounted(s) && Line(t) != Line(s)
    ensures Accounted(t)
  {
    var line := Line(s);
    assert line == [line[0]] + line[1..];
    NumbersGrow(line[1..], line[0]);
    NumbersGrow(s.acked, line[0]);
    hide Numbers, UpTo, Line;
  }

  lemma MoveStaysNumbered(s: Pipe, t: Pipe)
    requires Moves(s, t) && Numbered(s) && Line(t) != Line(s)
    ensures Numbered(t)
  {
    hide Pieces, Numbers, Line;
    var line := Line(s);
    assert line[0] in line && forall c | c in line[1..] :: c in line;
  }

  lemma MoveStaysOrdered(s: Pipe, t: Pipe)
    requires Moves(s, t) && Ordered(s) && Line(t) != Line(s)
    ensures Ordered(t)
  {
    hide Line;
    var line := Line(s);
    assert line[0] in line && forall c | c in line[1..] :: c in line && line[0].number < c.number;
  }

  lemma PhaseSoundStep(s: Pipe, step: Step)
    requires Enabled(s, step) && PhaseSound(s)
    ensures PhaseSound(Apply(s, step))
  {
    hide Split, PiecesOf;
  }

  lemma SoundStep(s: Pipe, step: Step)
    requires Enabled(s, step) && Sound(s)
    ensures Sound(Apply(s, step))
  {
    hide Numbered, Ordered, Accounted, Moves;
    if step.Emit? {
      EmitKeeps(s, step.call);
    } else if step.Hand? {
      HandKeeps(s);
    } else {
      OtherStepsMove(s, step);
      MovesKeep(s, Apply(s, step));
    }
    PhaseSoundStep(s, step);
  }

  lemma {:induction false} EveryScheduleIsSound(s: Pipe, steps: seq<Step>, t: Pipe)
    requires Sound(s) && Runs(s, steps, t)
    ensures Sound(t)
    decreases |steps|
  {
    if steps == [] {
    } else {
      SoundStep(s, steps[0]);
      EveryScheduleIsSound(Apply(s, steps[0]), steps[1..], t);
    }
  }

  // ---- The main results ----

  /**
   Conservation, in every schedule: each assigned number is in exactly one place, the queue stays
   within its capacity, and what is acknowledged is in ascending order and carries the right bytes.
   */
  lemma NothingIsUnaccountedFor(steps: seq<Step>, s: Pipe)
    requires Runs(INITIAL, steps, s)
    ensures s.numbered == |s.acked| + |s.lost| + |Line(s)| + |s.dropped| + |s.refused|
    ensures forall n | 1 <= n <= s.numbered :: Whereabouts(s)[n] == 1
    ensures |s.queue| <= QUEUE_CAPACITY && Ascending(s.acked) && forall c | c in s.acked :: Genuine(s, c)
  {
    EveryScheduleIsSound(INITIAL, steps, s);
    SizeOfWhereabouts(s);
    forall n: nat | 1 <= n <= s.numbered
      ensures Whereabouts(s)[n] == 1
    {
      OnceUpTo(s.numbered, n);
    }
    hide Whereabouts, Line, UpTo;
  }

  lemma SizeOfWhereabouts(s: Pipe)
    requires Accounted(s)
    ensures s.numbered == |s.acked| + |s.lost| + |Line(s)| + |s.dropped| + |s.refused|
  {
    assert |Whereabouts(s)| == |s.acked| + |s.lost| + |Line(s)| + |s.dropped| + |s.refused|;
    assert |multiset(UpTo(s.numbered))| == s.numbered;
    hide Whereabouts, Line, UpTo;
  }

  lemma {:induction false} OnceUpTo(n: nat, k: nat)
    ensures multiset(UpTo(n))[k] == if 1 <= k <= n then 1 else 0
  {
    if n == 0 {
    } else {
      OnceUpTo(n - 1, k);
      assert UpTo(n) == UpTo(n - 1) + [n];
    }
  }

  function ChunksOf(chunks: seq<LogChunk>): seq<Chunk> {
    seq(|chunks|, i requires 0 <= i < |chunks| => chunks[i].chunk)
  }

  lemma {:induction false} AtLeastItsIndex(chunks: seq<LogChunk>, i: nat)
    requires Ascending(chunks) && i < |chunks| && forall c | c in chunks :: 1 <= c.number
    ensures i + 1 <= chunks[i].number
  {
    if i == 0 {
    } else {
      AtLeastItsIndex(chunks, i - 1);
    }
  }

  lemma {:induction false} AtMostItsIndex(chunks: seq<LogChunk>, i: nat)
    requires Ascending(chunks) && i < |chunks| && forall c | c in chunks :: c.number <= |chunks|
    ensures chunks[i].number <= i + 1
    decreases |chunks| - i
  {
    if i == |chunks| - 1 {
    } else {
      AtMostItsIndex(chunks, i + 1);
    }
  }

  /** As many acknowledged chunks as there are numbers leaves only one possibility. */
  lemma AllAckedInOrder(s: Pipe)
    requires Numbered(s) && Ordered(s) && s.rest == [] && |s.acked| == s.numbered
    ensures Numbers(s.acked) == UpTo(s.numbered) && ChunksOf(s.acked) == Pieces(s.calls)
  {
    hide Pieces;
    forall i | 0 <= i < |s.acked|
      ensures s.acked[i].number == i + 1 && s.acked[i].chunk == Pieces(s.calls)[i]
    {
      AtLeastItsIndex(s.acked, i);
      AtMostItsIndex(s.acked, i);
      assert s.acked[i] in s.acked;
    }
  }

  /**
   A job completed with the flag off has uploaded its whole log exactly if nothing was dropped at
   the full queue: loss at the uploader never gets this far.
   */
  lemma CompleteExactlyIfNothingDropped(steps: seq<Step>, s: Pipe)
    requires Runs(INITIAL, steps, s) && s.phase.Enqueued? && !s.phase.flag
    ensures s.lost == [] && s.refused == [] && Line(s) == []
    ensures ChunksOf(s.acked) == Pieces(s.calls) <==> s.dropped == []
    ensures s.dropped == [] ==> Numbers(s.acked) == UpTo(s.numbered)
  {
    EveryScheduleIsSound(INITIAL, steps, s);
    NothingIsUnaccountedFor(steps, s);
    if s.dropped == [] {
      AllAckedInOrder(s);
    }
  }

  /**
   Truthfulness: if the executor returned a result and the completion says that the log was not
   truncated, the acknowledged chunks are exactly 1..n and carry, on each stream, everything emitted.
   */
  lemma UntruncatedMeansComplete(steps: seq<Step>, s: Pipe, stream: Stream)
    requires Runs(INITIAL, steps, s) && s.phase == Enqueued(true, false)
    ensures Numbers(s.acked) == UpTo(s.numbered)
    ensures ChunksOf(s.acked) == Pieces(s.calls)
    ensures Collected(ChunksOf(s.acked), stream) == Collected(s.calls, stream)
  {
    EveryScheduleIsSound(INITIAL, steps, s);
    CompleteExactlyIfNothingDropped(steps, s);
    PiecesCarryAll(s.calls, stream);
  }

  /** Once the executor has returned, nothing is emitted any more and the flag is never taken back. */
  lemma {:induction false} FlagIsKept(s: Pipe, steps: seq<Step>, t: Pipe)
    requires Runs(s, steps, t) && (s.phase.Flushing? || s.phase.Enqueued? || s.phase.Panicked?)
    ensures t.calls == s.calls && t.dropped == s.dropped
    ensures !t.phase.Running? && (s.phase.Panicked? ==> t.phase.Panicked?)
    ensures !t.phase.Panicked? ==> t.phase.ok == s.phase.ok && (s.phase.flag ==> t.phase.flag)
    decreases |steps|
  {
    hide PiecesOf, Numbers;
    if steps == [] {
    } else {
      FlagIsKept(Apply(s, steps[0]), steps[1..], t);
    }
  }

  /** A worker whose uploader gave up a chunk, or died, is never seen to complete from a finished flush. */
  lemma LossNeverCompletesQuietly(steps: seq<Step>, s: Pipe)
    requires Runs(INITIAL, steps, s) && s.phase.Enqueued?
    ensures !s.uploader.Dead? && (s.uploader.Finished? || s.phase.flag)
    ensures s.lost != [] || s.queue != [] ==> s.uploader.Aborted? && s.phase.flag
  {
    EveryScheduleIsSound(INITIAL, steps, s);
  }

  /**
   Past the flush, a job has lost its completion to the second await exactly if the uploader died, or
   finished after it gave up a chunk.
   */
  lemma CompletionLostExactly(steps: seq<Step>, s: Pipe)
    requires Runs(INITIAL, steps, s) && (s.phase.Enqueued? || s.phase.Panicked?)
    ensures s.phase.Panicked? <==> s.uploader.Dead? || (s.uploader.Finished? && s.loss)
    ensures s.uploader.Finished? ==> (s.loss <==> s.lost != [])
  {
    EveryScheduleIsSound(INITIAL, steps, s);
  }

  /** Once the executor returned with flag `f`, the flag changes only by the flush deadline. */
  predicate FlagFrom(s: Pipe, f: bool) {
    match s.phase
    case Running => false
    case Flushing(_, flag) => flag == f && !s.uploader.Aborted?
    case Enqueued(_, flag) => flag <==> f || s.uploader.Aborted?
    case Panicked => true
  }

  lemma {:induction false} FlagChangesOnlyByAbort(s: Pipe, f: bool, steps: seq<Step>, t: Pipe)
    requires FlagFrom(s, f) && Runs(s, steps, t)
    ensures FlagFrom(t, f)
    decreases |steps|
  {
    hide PiecesOf, Numbers;
    if steps == [] {
    } else {
      FlagChangesOnlyByAbort(Apply(s, steps[0]), f, steps[1..], t);
    }
  }

  /**
   The flag of a completion, exactly: with a result of the executor's own it is on if that was truncated,
   if the queue had dropped something by then, or if the flush was cut off; without one, only for the last.
   */
  lemma CompletionFlagExactly(before: seq<Step>, q: Pipe, back: Step, after: seq<Step>, p: Pipe)
    requires Runs(INITIAL, before, q) && (back.ReturnOk? || back.ReturnErr?) && Enabled(q, back)
    requires Runs(Apply(q, back), after, p) && p.phase.Enqueued?
    ensures p.phase.ok <==> back.ReturnOk?
    ensures p.phase.flag <==>
      (back.ReturnOk? && (back.truncated || q.dropped != [])) || p.uploader.Aborted?
  {
    hide Runs, Apply, Enabled, Sound, FlagFrom;
    EveryScheduleIsSound(INITIAL, before, q);
    Returning(q, back);
    FlagChangesOnlyByAbort(Apply(q, back), Apply(q, back).phase.flag, after, p);
    FlagIsKept(Apply(q, back), after, p);
    FlagFound(p, Apply(q, back).phase.flag);
  }

  lemma Returning(q: Pipe, back: Step)
    requires Sound(q) && (back.ReturnOk? || back.ReturnErr?) && Enabled(q, back)
    ensures var s := Apply(q, back);
      && s.phase.Flushing? && (s.phase.ok <==> back.ReturnOk?)
      && (s.phase.flag <==> back.ReturnOk? && (back.truncated || q.dropped != []))
      && FlagFrom(s, s.phase.flag)
  {
    hide Numbered, Ordered, Accounted;
  }

  lemma FlagFound(p: Pipe, f: bool)
    requires FlagFrom(p, f) && p.phase.Enqueued?
    ensures p.phase.flag <==> f || p.uploader.Aborted?
  {}

  // ---- What a schedule's steps did ----

  /** The calls of `emit_log` in a schedule, in order. */
  function Calls(steps: seq<Step>): seq<Chunk> {
    if steps == [] then [] else (if steps[0].Emit? then [steps[0].call] else []) + Calls(steps[1..])
  }

  function Times(steps: seq<Step>, step: Step): nat {
    if steps == [] then 0 else (if steps[0] == step then 1 else 0) + Times(steps[1..], step)
  }

  /** Every call is taken in, every piece handed over gets a number, and every good answer an acknowledgement. */
  lemma {:induction false} StepsTakeEffect(s: Pipe, steps: seq<Step>, t: Pipe)
    requires Runs(s, steps, t)
    ensures t.calls == s.calls + Calls(steps)
    ensures t.numbered == s.numbered + Times(steps, Hand)
    ensures |t.acked| == |s.acked| + Times(steps, UploadSucceeds)
    decreases |steps|
  {
    if steps == [] {
    } else {
      var u := Apply(s, steps[0]);
      hide Apply, Enabled;
      StepTakesEffect(s, steps[0]);
      StepsTakeEffect(u, steps[1..], t);
      var call := if steps[0].Emit? then [steps[0].call] else [];
      assert (s.calls + call) + Calls(steps[1..]) == s.calls + (call + Calls(steps[1..]));
    }
  }

  lemma StepTakesEffect(s: Pipe, step: Step)
    requires Enabled(s, step)
    ensures Apply(s, step).calls == s.calls + if step.Emit? then [step.call] else []
    ensures Apply(s, step).numbered == s.numbered + if step.Hand? then 1 else 0
    ensures |Apply(s, step).acked| == |s.acked| + if step.UploadSucceeds? then 1 else 0
  {
    hide PiecesOf, Numbers;
  }

  // ---- Why the executor's own result is needed ----

  lemma {:induction false} RunsOn(s: Pipe, a: seq<Step>, t: Pipe, b: seq<Step>, u: Pipe)
    requires Runs(s, a, t) && Runs(t, b, u)
    ensures Runs(s, a + b, u)
    decreases |a|
  {
    if a == [] {
      assert a + b == b;
    } else {
      RunsOn(Apply(s, a[0]), a[1..], t, b, u);
      assert (a + b)[1..] == a[1..] + b;
    }
  }

  lemma RunsOneMore(s: Pipe, a: seq<Step>, t: Pipe, step: Step)
    requires Runs(s, a, t) && Enabled(t, step)
    ensures Runs(s, a + [step], Apply(t, step))
  {
    assert [step][1..] == [];
    assert Runs(Apply(t, step), [], Apply(t, step));
    RunsOn(s, a, t, [step], Apply(t, step));
  }

  lemma OneMoreStep(before: seq<Step>, s: Pipe, step: Step) returns (steps: seq<Step>, t: Pipe)
    requires Runs(INITIAL, before, s) && Enabled(s, step)
    ensures Runs(INITIAL, steps, t) && t == Apply(s, step)
  {
    RunsOneMore(INITIAL, before, s, step);
    steps, t := before + [step], Apply(s, step);
  }

  /** `n` small calls while the uploader waits: the queue fills up and the rest is dropped. */
  lemma {:induction false} Burst(n: nat) returns (steps: seq<Step>, s: Pipe)
    ensures Runs(INITIAL, steps, s)
    ensures s.phase.Running? && s.rest == [] && s.uploader.Idle? && !s.loss && s.acked == []
    ensures |s.dropped| == if n <= QUEUE_CAPACITY then 0 else n - QUEUE_CAPACITY
    ensures |s.queue| == if n <= QUEUE_CAPACITY then n else QUEUE_CAPACITY
  {
    if n == 0 {
      steps, s := [], INITIAL;
    } else {
      steps, s := Burst(n - 1);
      var call := Chunk(StdOut, [0]);
      steps, s := OneMoreStep(steps, s, Emit(call));
      steps, s := OneMoreStep(steps, s, Hand);
    }
  }

  /** The uploader can empty the queue while the worker flushes. */
  lemma {:induction false} Drain(before: seq<Step>, s: Pipe) returns (steps: seq<Step>, t: Pipe)
    requires Runs(INITIAL, before, s) && s.uploader.Idle? && s.phase.Flushing?
    ensures Runs(INITIAL, steps, t)
    ensures t.queue == [] && t.uploader.Idle? && t.phase == s.phase && t.loss == s.loss && t.dropped == s.dropped
    decreases |s.queue|
  {
    if s.queue == [] {
      steps, t := before, s;
    } else {
      steps, t := OneMoreStep(before, s, Take);
      steps, t := OneMoreStep(steps, t, UploadSucceeds);
      steps, t := Drain(steps, t);
    }
  }

  /** A job whose log was uploaded, after one retry, completes with the flag off. */
  lemma GoodJobCompletes() returns (steps: seq<Step>, s: Pipe)
    ensures Runs(INITIAL, steps, s) && s.phase == Enqueued(true, false) && |s.acked| == 1
  {
    RunsNowhere(INITIAL);
    steps, s := OneMoreStep([], INITIAL, Emit(Chunk(StdOut, [0])));
    steps, s := OneMoreStep(steps, s, Hand);
    steps, s := OneMoreStep(steps, s, Take);
    steps, s := OneMoreStep(steps, s, UploadFails);
    steps, s := OneMoreStep(steps, s, UploadSucceeds);
    steps, s := OneMoreStep(steps, s, ReturnOk(false));
    steps, s := OneMoreStep(steps, s, Close);
    steps, s := OneMoreStep(steps, s, FlushEnds);
  }

  /** A job whose uploader is too slow completes with the flag on and the chunk left behind. */
  lemma SlowUploaderIsCutOff() returns (steps: seq<Step>, s: Pipe)
    ensures Runs(INITIAL, steps, s) && s.phase == Enqueued(true, true) && s.acked == [] && |s.queue| == 1
  {
    RunsNowhere(INITIAL);
    steps, s := OneMoreStep([], INITIAL, Emit(Chunk(StdOut, [0])));
    steps, s := OneMoreStep(steps, s, Hand);
    steps, s := OneMoreStep(steps, s, ReturnOk(false));
    steps, s := OneMoreStep(steps, s, FlushTimesOut);
  }

  /** A job whose uploader died loses its completion even if there was nothing to upload. */
  lemma DeadUploaderLosesTheJob() returns (steps: seq<Step>, s: Pipe)
    ensures Runs(INITIAL, steps, s) && s.phase.Panicked? && s.uploader.Dead? && s.calls == []
  {
    RunsNowhere(INITIAL);
    steps, s := OneMoreStep([], INITIAL, Die);
    steps, s := OneMoreStep(steps, s, ReturnOk(false));
    steps, s := OneMoreStep(steps, s, FlushEnds);
  }

  /** A job that ran well loses its completion over one chunk: its three uploads fail, then the queue is closed. */
  lemma OneLostChunkLosesTheJob() returns (steps: seq<Step>, s: Pipe)
    ensures Runs(INITIAL, steps, s) && s.phase.Panicked? && s.uploader.Finished?
    ensures s.lost == [1] && s.dropped == []
  {
    var call := Chunk(StdOut, [0]);
    RunsNowhere(INITIAL);
    steps, s := OneMoreStep([], INITIAL, Emit(call));
    steps, s := OneMoreStep(steps, s, Hand);
    steps, s := OneMoreStep(steps, s, Take);
    steps, s := OneMoreStep(steps, s, UploadFails);
    steps, s := OneMoreStep(steps, s, UploadFails);
    steps, s := OneMoreStep(steps, s, UploadFails);
    steps, s := OneMoreStep(steps, s, ReturnOk(false));
    steps, s := OneMoreStep(steps, s, Close);
    steps, s := OneMoreStep(steps, s, FlushEnds);
  }

  /** With a failed executor any number of chunks can be missing under a flag that is off. */
  lemma FailedExecutorHidesLoss(missing: nat) returns (steps: seq<Step>, s: Pipe)
    ensures Runs(INITIAL, steps, s) && s.phase == Enqueued(false, false) && |s.dropped| == missing
  {
    steps, s := Burst(QUEUE_CAPACITY + missing);
    steps, s := OneMoreStep(steps, s, ReturnErr);
    steps, s := Drain(steps, s);
    steps, s := OneMoreStep(steps, s, Close);
    steps, s := OneMoreStep(steps, s, FlushEnds);
  }

  // ---- The two loops ----

  /** One call of `emit_log` while the uploader does not get to run: what fits is queued, the rest dropped. */
  method EmitLog(s: Pipe, call: Chunk) returns (t: Pipe, ghost steps: seq<Step>)
    requires Enabled(s, Emit(call)) && |s.queue| <= QUEUE_CAPACITY
    ensures Runs(s, steps, t) && t.rest == [] && t.calls == s.calls + [call]
    ensures t.numbered == s.numbered + |PiecesOf(call)|
    ensures !s.uploader.Dead? ==>
      && |t.queue| + |t.dropped| == |s.queue| + |s.dropped| + |PiecesOf(call)|
      && (t.dropped != s.dropped ==> |t.queue| == 256)
    ensures s.uploader.Dead? ==> t.queue == s.queue && t.dropped == s.dropped
  {
    t := s.(calls := s.calls + [call], rest := PiecesOf(call));
    steps := [];
    RunsOneMore(s, steps, s, Emit(call));
    steps := steps + [Emit(call)];
    hide PiecesOf, Runs;
    while t.rest != []
      invariant Runs(s, steps, t) && t.phase.Running? && t.uploader == s.uploader && t.calls == s.calls + [call]
      invariant t.numbered + |t.rest| == s.numbered + |PiecesOf(call)|
      invariant !s.uploader.Dead? ==>
        && |s.queue| <= |t.queue| <= QUEUE_CAPACITY
        && |t.queue| + |t.dropped| + |t.rest| == |s.queue| + |s.dropped| + |PiecesOf(call)|
        && (t.dropped != s.dropped ==> |t.queue| == QUEUE_CAPACITY)
      invariant s.uploader.Dead? ==> t.queue == s.queue && t.dropped == s.dropped
      decreases |t.rest|
    {
      RunsOneMore(s, steps, t, Hand);
      steps := steps + [Hand];
      var sequence, piece := t.numbered + 1, t.rest[0];
      t := t.(numbered := sequence, rest := t.rest[1..]);
      if t.uploader.Dead? {
        t := t.(refused := t.refused + [sequence]);
      } else if |t.queue| < QUEUE_CAPACITY {
        t := t.(queue := t.queue + [LogChunk(sequence, piece)]);
      } else {
        t := t.(dropped := t.dropped + [sequence]);
      }
    }
  }

  /** The uploader's attempts for one chunk: acknowledged exactly if one of three answers is good. */
  method Upload(s: Pipe, answer: nat -> bool) returns (t: Pipe, ghost steps: seq<Step>)
    requires s.uploader.Sending? && s.uploader.attempt == 1
    ensures Runs(s, steps, t) && |steps| <= UPLOAD_ATTEMPTS && t.uploader.Idle?
    ensures t.acked == s.acked + [s.uploader.piece] <==>
      exists i | 1 <= i <= 3 :: answer(i)
    ensures t.loss <==> s.loss || t.acked == s.acked
    ensures t.queue == s.queue && t.phase == s.phase
  {
    t, steps := s, [];
    hide Runs;
    assert Runs(s, [], s) by { RunsNowhere(s); }
    for attempt := 1 to UPLOAD_ATTEMPTS + 1
      invariant Runs(s, steps, t) && |steps| == attempt - 1
      invariant attempt <= UPLOAD_ATTEMPTS ==> t == s.(uploader := Sending(s.uploader.piece, attempt))
      invariant attempt > UPLOAD_ATTEMPTS ==>
        t == s.(uploader := Idle, loss := true, lost := s.lost + [s.uploader.piece.number])
      invariant forall i | 1 <= i < attempt :: !answer(i)
    {
      if answer(attempt) {
        RunsOneMore(s, steps, t, UploadSucceeds);
        steps := steps + [UploadSucceeds];
        t := t.(uploader := Idle, acked := t.acked + [t.uploader.piece]);
        return;
      }
      RunsOneMore(s, steps, t, UploadFails);
      steps := steps + [UploadFails];
      if attempt < UPLOAD_ATTEMPTS {
        t := t.(uploader := Sending(t.uploader.piece, attempt + 1));
      } else {
        t := t.(uploader := Idle, loss := true, lost := t.lost + [t.uploader.piece.number]);
      }
    }
  }

  lemma RunsNowhere(s: Pipe)
    ensures Runs(s, [], s)
  {}
}
