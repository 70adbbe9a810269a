/** The single-command path: one container whose two streams share one log budget. */
module CommandRun {
  import opened Prelude
  import opened LogBuffer
  import opened Protocol

  predicate Logged(c: Chunk) {
    !c.stream.OtherStream?
  }

  /** Both streams in arrival order. */
  function Merged(items: seq<Chunk>): Bytes {
    if items == [] then []
    else
      var last := items[|items| - 1];
      Merged(items[..|items| - 1]) + if Logged(last) then last.bytes else []
  }

  /** The items cut to a joint budget: each keeps what is left when it arrives. */
  function Clipped(limit: nat, items: seq<Chunk>): seq<Chunk> {
    if items == [] then []
    else
      var before, last := items[..|items| - 1], items[|items| - 1];
      var room := if |Merged(before)| < limit then limit - |Merged(before)| else 0;
      Clipped(limit, before) + if Logged(last) then [last.(bytes := First(room, last.bytes))] else []
  }

  /** The joint budget keeps exactly the first `limit` bytes in arrival order, whichever stream they are on. */
  lemma {:induction false} ClippedKeepsTheFirst(limit: nat, items: seq<Chunk>)
    ensures Merged(Clipped(limit, items)) == First(limit, Merged(items))
  {
    if items == [] {
    } else {
      var n := |items| - 1;
      ClippedKeepsTheFirst(limit, items[..n]);
      var clipped := Clipped(limit, items);
      if Logged(items[n]) {
        assert clipped[..|clipped| - 1] == Clipped(limit, items[..n]);
      } else {
        assert clipped == Clipped(limit, items[..n]);
      }
    }
  }

  /** Some item arrived that did not fit, or arrived, even empty, after the budget was used up. */
  predicate Overrun(limit: nat, items: seq<Chunk>) {
    items != [] &&
    var before, last := items[..|items| - 1], items[|items| - 1];
    || Overrun(limit, before)
    || (Logged(last) && (|Merged(before)| >= limit || |Merged(items)| > limit))
  }

  /**
   The flag is set whenever bytes were lost. It is set without loss in exactly one situation: an
   empty item arrives when the budget has just been used up exactly.
   */
  lemma {:induction false} OverrunExactly(limit: nat, items: seq<Chunk>)
    ensures Overrun(limit, items) <==>
      || |Merged(items)| > limit
      || exists i | 0 <= i < |items| :: Logged(items[i]) && items[i].bytes == [] && |Merged(items[..i])| == limit
  {
    if items == [] {
    } else {
      var n := |items| - 1;
      OverrunExactly(limit, items[..n]);
      forall i | 0 <= i < n
        ensures items[..n][..i] == items[..i] && items[..n][i] == items[i]
      {}
    }
  }

  /** The concrete case: a full budget, then an empty frame. */
  lemma OverrunWithoutLoss(limit: nat)
    ensures exists items :: Overrun(limit, items) && |Merged(items)| == limit
  {
    var full := Chunk(StdOut, seq(limit, i => 0 as byte));
    var items := [full, Chunk(StdOut, [])];
    assert items[..1] == [full] && [full][..0] == [];
    assert Merged([full]) == full.bytes;
    assert Merged(items) == Merged(items[..1]) + [];
  }

  /** What one more item adds, in terms of the bytes admitted so far. */
  lemma OneMore(limit: nat, items: seq<Chunk>, i: nat, stream: Stream)
    requires i < |items| && !stream.OtherStream?
    ensures var admitted := |First(limit, Merged(items[..i]))|;
      var kept := if Logged(items[i]) then First(limit - admitted, items[i].bytes) else [];
      && admitted <= limit
      && |First(limit, Merged(items[..i + 1]))| == admitted + |kept|
      && Collected(Clipped(limit, items[..i + 1]), stream)
         == (if items[i].stream == stream then Collected(Clipped(limit, items[..i]), stream) + kept
             else Collected(Clipped(limit, items[..i]), stream))
      && (Overrun(limit, items[..i + 1]) <==>
          Overrun(limit, items[..i]) || (Logged(items[i]) && (admitted == limit || |kept| < |items[i].bytes|)))
  {
    var now, next := items[..i], items[..i + 1];
    assert next[..|next| - 1] == now && next[|next| - 1] == items[i];
    var clipped := Clipped(limit, next);
    if Logged(items[i]) {
      assert clipped[..|clipped| - 1] == Clipped(limit, now);
    } else {
      assert clipped == Clipped(limit, now);
    }
  }

  /** The branch both streams share: keep what the joint budget still admits. */
  method Admit(buffer: Bytes, message: Bytes, logBytes: nat, limit: nat)
    returns (grown: Bytes, total: nat, cut: bool, kept: Bytes)
    requires logBytes <= limit
    ensures kept == First(limit - logBytes, message)
    ensures grown == buffer + kept && total == logBytes + |kept|
    ensures cut <==> logBytes == limit || |kept| < |message|
  {
    grown, total, cut, kept := buffer, logBytes, false, [];
    if logBytes < limit {
      var remaining := limit - logBytes;
      var n := if |message| < remaining then |message| else remaining;
      kept := message[..n];
      grown := grown + kept;
      total := total + n;
      if n < |message| {
        cut := true;
      }
    } else {
      cut := true;
    }
  }

  /** The chunks that are more than an empty call. */
  function NonEmpty(chunks: seq<Chunk>): seq<Chunk> {
    if chunks == [] then []
    else
      var last := chunks[|chunks| - 1];
      NonEmpty(chunks[..|chunks| - 1]) + if last.bytes == [] then [] else [last]
  }

  lemma {:induction false} NonEmptyCarries(chunks: seq<Chunk>, stream: Stream)
    ensures Collected(NonEmpty(chunks), stream) == Collected(chunks, stream)
  {
    if chunks == [] {
    } else {
      var n := |chunks| - 1;
      NonEmptyCarries(chunks[..n], stream);
      if chunks[n].bytes == [] {
        assert NonEmpty(chunks) == NonEmpty(chunks[..n]);
      } else {
        CollectedSplits(NonEmpty(chunks[..n]), [chunks[n]], stream);
        CollectedOne(chunks[n], stream);
      }
    }
  }

  lemma OneMoreCall(limit: nat, items: seq<Chunk>, i: nat)
    requires i < |items|
    ensures var room := limit - |First(limit, Merged(items[..i]))|;
      var kept := if Logged(items[i]) then First(room, items[i].bytes) else [];
      NonEmpty(Clipped(limit, items[..i + 1]))
      == if kept == [] then NonEmpty(Clipped(limit, items[..i]))
         else NonEmpty(Clipped(limit, items[..i])) + [Chunk(items[i].stream, kept)]
  {
    var now, next := items[..i], items[..i + 1];
    assert next[..|next| - 1] == now && next[|next| - 1] == items[i];
    var clipped := Clipped(limit, next);
    hide Merged;
    if Logged(items[i]) {
      assert clipped[..|clipped| - 1] == Clipped(limit, now);
    } else {
      assert clipped == Clipped(limit, now);
    }
  }

  lemma {:induction false} StreamsAddUp(chunks: seq<Chunk>)
    ensures |Collected(chunks, StdOut)| + |Collected(chunks, StdErr)| == |Merged(chunks)|
  {
    if chunks == [] {
    } else {
      StreamsAddUp(chunks[..|chunks| - 1]);
    }
  }

  /** The two streams share one budget: together they keep as much as one truncated stream would. */
  lemma JointBudget(limit: nat, items: seq<Chunk>)
    ensures |Collected(Clipped(limit, items), StdOut)| + |Collected(Clipped(limit, items), StdErr)|
      == |First(limit, Merged(items))| <= limit
  {
    StreamsAddUp(Clipped(limit, items));
    ClippedKeepsTheFirst(limit, items);
  }

  lemma NothingYet(limit: nat, items: seq<Chunk>)
    ensures First(limit, Merged(items[..0])) == [] && !Overrun(limit, items[..0])
    ensures NonEmpty(Clipped(limit, items[..0])) == []
    ensures Collected(Clipped(limit, items[..0]), StdOut) == Collected(Clipped(limit, items[..0]), StdErr) == []
  {}

  /** Follows the container's log until it ends; what is kept is also passed on as live log, but for empty calls. */
  method FollowLogs(limit: nat, items: seq<Chunk>)
    returns (stdout: Bytes, stderr: Bytes, truncated: bool, emitted: seq<Chunk>)
    ensures stdout == Collected(Clipped(limit, items), StdOut)
    ensures stderr == Collected(Clipped(limit, items), StdErr)
    ensures truncated <==> Overrun(limit, items)
    ensures emitted == NonEmpty(Clipped(limit, items))
    ensures |stdout| + |stderr| == |First(limit, Merged(items))| <= limit
  {
    JointBudget(limit, items);
    stdout, stderr, truncated, emitted := [], [], false, [];
    var logBytes := 0;
    assert items[..|items|] == items;
    NothingYet(limit, items);
    hide Clipped, Collected, Merged, Overrun, First, NonEmpty;
    for i := 0 to |items|
      invariant logBytes == |First(limit, Merged(items[..i]))|
      invariant stdout == Collected(Clipped(limit, items[..i]), StdOut)
      invariant stderr == Collected(Clipped(limit, items[..i]), StdErr)
      invariant truncated <==> Overrun(limit, items[..i])
      invariant emitted == NonEmpty(Clipped(limit, items[..i]))
    {
      var item := items[i];
      var cut, kept;
      OneMore(limit, items, i, StdOut);
      OneMore(limit, items, i, StdErr);
      OneMoreCall(limit, items, i);
      match item.stream {
        case StdOut =>
          stdout, logBytes, cut, kept := Admit(stdout, item.bytes, logBytes, limit);
          emitted := if kept == [] then emitted else emitted + [Chunk(item.stream, kept)];
          truncated := truncated || cut;
        case StdErr =>
          stderr, logBytes, cut, kept := Admit(stderr, item.bytes, logBytes, limit);
          emitted := if kept == [] then emitted else emitted + [Chunk(item.stream, kept)];
          truncated := truncated || cut;
        case OtherStream =>
      }
    }
  }

  datatype LogEnd = StreamEnded | CancelSeen | DeadlineSeen | StreamBroke

  /** What happens around the one container of a job without a workflow. */
  datatype World = World(
    items: seq<Chunk>, end: LogEnd, inspected: Option<Option<int>>,
    cancelledAfter: bool, expiredAfter: bool, publishError: Option<Bytes>)

  predicate WasCancelled(world: World) {
    world.end.CancelSeen? || world.cancelledAfter
  }

  predicate RanOut(world: World) {
    !WasCancelled(world) && (world.end.DeadlineSeen? || world.expiredAfter)
  }

  /** The container ended well in time, so the workspace is published. */
  predicate Publishes(world: World) {
    !WasCancelled(world) && !RanOut(world) && world.inspected == Some(Some(0))
  }

  /** The text a failed publish adds to stderr, after the log loop and outside its budget. */
  function Appended(world: World): Bytes {
    if Publishes(world) && world.publishError.Some? then world.publishError.value else []
  }

  datatype CommandEnd = CommandEnd(
    status: Status, exitCode: Option<int>, stdout: Bytes, stderr: Bytes, truncated: bool)

  /** Runs the container and settles its status; None is an error of the Docker API. */
  method RunCommand(limit: nat, world: World) returns (r: Option<CommandEnd>, emitted: seq<Chunk>)
    ensures r.None? <==> world.end.StreamBroke? || world.inspected.None?
    ensures emitted == NonEmpty(Clipped(limit, world.items))
    ensures r.Some? ==>
      && (r.value.status.Cancelled? <==> WasCancelled(world))
      && (r.value.status.TimedOut? <==> RanOut(world))
      && (r.value.status.Completed? <==> Publishes(world) && world.publishError.None?)
      && (r.value.exitCode.None? <==> WasCancelled(world) || RanOut(world))
      && (r.value.exitCode.Some? ==>
          var code := if world.inspected.value.Some? then world.inspected.value.value else -1;
          r.value.exitCode.value == if code == 0 && world.publishError.Some? then 1 else code)
      && r.value.stdout == Collected(Clipped(limit, world.items), StdOut)
      && r.value.stderr == Collected(Clipped(limit, world.items), StdErr) + Appended(world)
      && (r.value.truncated <==> Overrun(limit, world.items))
    ensures r.Some? ==>
      (|r.value.stdout| + |r.value.stderr| <= limit
       <==> |First(limit, Merged(world.items))| + |Appended(world)| <= limit)
  {
    hide Collected, Clipped, NonEmpty, Merged, First, Overrun;
    var stdout, stderr, truncated;
    stdout, stderr, truncated, emitted := FollowLogs(limit, world.items);
    if world.end.StreamBroke? || world.inspected.None? {
      return None, emitted;
    }
    var code := if world.inspected.value.Some? then world.inspected.value.value else -1;
    var cancelled := world.end.CancelSeen? || world.cancelledAfter;
    var timedOut := !cancelled && (world.end.DeadlineSeen? || world.expiredAfter);
    var status :=
      if cancelled then Cancelled else if timedOut then TimedOut else if code == 0 then Completed else Failed;
    if status.Completed? && world.publishError.Some? {
      stderr, code, status := stderr + world.publishError.value, 1, Failed;
    }
    r := Some(CommandEnd(status, if cancelled || timedOut then None else Some(code), stdout, stderr, truncated));
  }

  /** The budget is really broken: for every limit there is a run whose failed publish goes beyond it. */
  lemma PublishBreaksTheBudget(limit: nat) returns (world: World)
    ensures !world.end.StreamBroke? && Publishes(world) && world.publishError.Some?
    ensures |First(limit, Merged(world.items))| + |Appended(world)| == limit + 1
  {
    var full := Chunk(StdOut, seq(limit, i => 0 as byte));
    world := World([full], StreamEnded, Some(Some(0)), false, false, Some([0]));
    assert [full][..0] == [];
    assert Merged([full]) == full.bytes;
  }
}
