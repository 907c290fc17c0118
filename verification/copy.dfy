/** One-way copying between streams, through a buffer or through a pipe with
    `splice`, and `copy_to` on top: the sink gets the prefix and then the
    source, from its start and in order, whatever the sockets do. */
module Copy {
  import opened Basics

  const BUFFER := 16 * 1024
  const LARGE_BUFFER := 64 * 1024
  const CHUNK := 64 * 1024
  const KEEP := 32
  const KEEP_PIPES := 16
  const LIMIT := 0x1_0000_0000_0000_0000

  /** What the next system call does. A copy meets a list of these, one per
      call; what it has done when they run out is a copy still going on. */
  datatype Event =
    | Ok(n: nat)  // goes through, for at most n bytes (a read: at least one, if there is room and data)
    | Block       // would block, and the wait that follows succeeds
    | Fail        // fails, or the wait that follows does
    | Refuse      // not supported (splice), or no descriptors (a pipe)
    | Late        // the copy's deadline has passed

  /** The source and the sink. */
  datatype Io = Io(
    data: seq<byte>,   // everything the source will ever yield
    pos: nat,          // how much of it has been read
    sink: seq<byte>)   // everything the sink has accepted

  /** A worker thread's spare buffers, by length, and pipes, by contents. */
  datatype Pools = Pools(buffers: seq<nat>, pipes: seq<seq<byte>>)

  datatype World = World(io: Io, script: seq<Event>, pools: Pools)

  datatype Cause = ReadError | WriteError | DeadlinePassed | EndedEarly
  datatype Ended = Eof | Limit | Stopped(cause: Cause) | Running

  /** Short reads and writes and blocking, but no failures. */
  predicate Benign(script: seq<Event>) {
    forall i | 0 <= i < |script| :: script[i] == Block || (script[i].Ok? && script[i].n > 0)
  }

  function Min(a: nat, b: nat): nat {
    if a < b then a else b
  }

  /** Room for one read: a limit shrinks it to the bytes still owed. */
  function Cap(len: nat, total: nat, endAt: Option<nat>): nat {
    match endAt
    case None => len
    case Some(end) => Min(if total < end then end - total else 0, len)
  }

  // --- Before and after ---

  /** Spare pipes are empty and spare buffers small, and there are few of each. */
  predicate PoolsOk(p: Pools) {
    && (forall i | 0 <= i < |p.pipes| :: p.pipes[i] == []) && |p.pipes| <= KEEP_PIPES
    && (forall i | 0 <= i < |p.buffers| :: p.buffers[i] == BUFFER) && |p.buffers| <= KEEP
  }

  /** Since `a`, some of the source has been read, in order and not past the
      limit, and the sink has been given the beginning of that. */
  predicate Since(a: Io, b: Io, total0: nat, endAt: Option<nat>) {
    && b.data == a.data && a.pos <= b.pos <= |b.data| && |a.sink| <= |b.sink|
    && |b.sink| - |a.sink| <= b.pos - a.pos
    && b.sink == a.sink + a.data[a.pos..a.pos + (|b.sink| - |a.sink|)]
    && (endAt.Some? ==> b.pos - a.pos <= if total0 < endAt.value then endAt.value - total0 else 0)
  }

  /** All that was read has been written and counted. */
  predicate Exact(a: Io, b: Io, total0: nat, total: nat) {
    total0 <= total && total - total0 == b.pos - a.pos == |b.sink| - |a.sink|
  }

  /** What a copy that ended so has done. */
  predicate Copied(a: Io, b: Io, total0: nat, total: nat, endAt: Option<nat>, e: Ended) {
    && Since(a, b, total0, endAt) && total0 <= total && total - total0 <= |b.sink| - |a.sink|
    && match e
       case Limit => Exact(a, b, total0, total) && endAt.Some? && endAt.value <= total
       case Eof => Exact(a, b, total0, total) && b.pos == |b.data| && (endAt.Some? ==> total < endAt.value)
       case Stopped(cause) => cause != EndedEarly && (endAt.Some? ==> total0 + (|b.sink| - |a.sink|) < endAt.value)
       case Running => true
  }

  // --- Writing ---

  datatype Wrote = AllWritten | WriteFailed | StillWriting

  /** `write_all_with`: write, waiting as needed, until all of it is taken. */
  method WriteAll(w0: World, bytes: seq<byte>) returns (w: World, r: Wrote)
    ensures |w0.io.sink| <= |w.io.sink| <= |w0.io.sink| + |bytes|
    ensures w.io.sink == w0.io.sink + bytes[..|w.io.sink| - |w0.io.sink|]
    ensures w == w0.(io := w0.io.(sink := w.io.sink), script := w.script) && |w.script| <= |w0.script|
    ensures r == AllWritten <==> |w.io.sink| == |w0.io.sink| + |bytes|
    ensures r == StillWriting ==> w.script == []
    ensures Benign(w0.script) ==> Benign(w.script) && r != WriteFailed
  {
    var sink, script, left := w0.io.sink, w0.script, bytes;
    r := AllWritten;
    while left != [] && r == AllWritten
      invariant |left| <= |bytes| && |script| <= |w0.script| && (r == AllWritten || left != [])
      invariant (r == StillWriting ==> script == []) && (Benign(w0.script) ==> Benign(script) && r != WriteFailed)
      invariant sink == w0.io.sink + bytes[..|bytes| - |left|] && left == bytes[|bytes| - |left|..]
      decreases |script|, if r == AllWritten then 1 else 0
    {
      if script == [] {
        r := StillWriting;
      } else {
        var event := script[0];
        script := script[1..];
        if event.Ok? && Min(event.n, |left|) > 0 {
          var written := Min(event.n, |left|);
          assert bytes[..|bytes| - |left|] + left[..written] == bytes[..|bytes| - |left| + written];
          sink, left := sink + left[..written], left[written..];
        } else if event != Block {
          r := WriteFailed;
        }
      }
    }
    w := w0.(io := w0.io.(sink := sink), script := script);
  }

  // --- One chunk at a time ---

  /** `got` bytes were read, and what of them was written went out in order. */
  predicate Chunk(a: Io, b: Io, got: nat, r: Wrote) {
    && b == a.(pos := a.pos + got, sink := b.sink) && b.pos <= |b.data|
    && |a.sink| <= |b.sink| <= |a.sink| + got
    && b.sink == a.sink + a.data[a.pos..a.pos + (|b.sink| - |a.sink|)]
    && (r == AllWritten <==> |b.sink| == |a.sink| + got)
  }

  lemma ChunkAdds(a: Io, b: Io, c: Io, total0: nat, total: nat, endAt: Option<nat>, got: nat, r: Wrote)
    requires Since(a, b, total0, endAt) && Exact(a, b, total0, total) && Chunk(b, c, got, r)
    requires endAt.Some? ==> total + got <= endAt.value
    ensures Since(a, c, total0, endAt)
    ensures r == AllWritten ==> Exact(a, c, total0, total + got)
    ensures r != AllWritten && endAt.Some? ==> total0 + (|c.sink| - |a.sink|) < endAt.value
  {
    var k := |c.sink| - |b.sink|;
    assert a.data[a.pos..b.pos] + a.data[b.pos..b.pos + k] == a.data[a.pos..b.pos + k];
  }

  /** How many bytes a read into `room` bytes returns: none at the end. */
  function ReadSize(io: Io, n: nat, room: nat): nat
    requires io.pos <= |io.data|
  {
    Min(Min(if n == 0 then 1 else n, room), |io.data| - io.pos)
  }

  // --- Through a buffer ---

  function GiveBackBuffer(p: Pools, len: nat): (r: Pools)
    ensures PoolsOk(p) ==> PoolsOk(r)
  {
    if len == BUFFER && |p.buffers| < KEEP then p.(buffers := p.buffers + [len]) else p
  }

  /** A buffer's length: of a spare one, if there is one. */
  function TakeBuffer(p: Pools): (r: (Pools, nat))
    ensures PoolsOk(p) ==> PoolsOk(r.0) && r.1 == BUFFER
  {
    var last := |p.buffers| - 1;
    if last < 0 then (p, BUFFER) else (p.(buffers := p.buffers[..last]), p.buffers[last])
  }

  /** Write the `got` bytes just read into the buffer. */
  method ForwardBuffer(w1: World, got: nat) returns (w: World, r: Wrote)
    requires w1.io.pos + got <= |w1.io.data|
    ensures w == w1.(io := w.io, script := w.script) && |w.script| <= |w1.script| && Chunk(w1.io, w.io, got, r)
    ensures r == StillWriting ==> w.script == []
    ensures Benign(w1.script) ==> Benign(w.script) && r != WriteFailed
  {
    var bytes := w1.io.data[w1.io.pos..w1.io.pos + got];
    w, r := WriteAll(w1.(io := w1.io.(pos := w1.io.pos + got)), bytes);
    var k := |w.io.sink| - |w1.io.sink|;
    assert bytes[..k] == w1.io.data[w1.io.pos..w1.io.pos + k];
  }

  /** One read into the buffer and, if it got something, the write of it. */
  method BufferTurn(ghost a: Io, ghost total0: nat, w1: World, total1: nat, len1: nat, endAt: Option<nat>)
    returns (w: World, total: nat, len: nat, e: Option<Ended>)
    requires PoolsOk(w1.pools) && Since(a, w1.io, total0, endAt) && Exact(a, w1.io, total0, total1)
    requires w1.script != [] && 0 < len1 && (endAt.Some? ==> total1 < endAt.value)
    ensures PoolsOk(w.pools) && |w.script| < |w1.script|
    ensures e.None? ==> Since(a, w.io, total0, endAt) && Exact(a, w.io, total0, total)
    ensures e.Some? ==> Copied(a, w.io, total0, total, endAt, e.value)
    ensures e == Some(Running) ==> w.script == []
    ensures Benign(w1.script) ==> Benign(w.script) && (e.Some? ==> !e.value.Stopped?)
  {
    var event, room := w1.script[0], Cap(len1, total1, endAt);
    w, total, len, e := w1.(script := w1.script[1..]), total1, len1, None;
    if event.Ok? {
      var got := ReadSize(w.io, event.n, room);
      if got == 0 {
        return w.(pools := GiveBackBuffer(w.pools, len)), total, len, Some(Eof);
      }
      var wrote;
      w, wrote := ForwardBuffer(w, got);
      ChunkAdds(a, w1.io, w.io, total0, total, endAt, got, wrote);
      if wrote != AllWritten {
        return w, total, len, Some(if wrote == StillWriting then Running else Stopped(WriteError));
      }
      total := total + got;
      len := if got == len && got < LARGE_BUFFER then LARGE_BUFFER else len;
    } else if event == Block {
      // Nothing to read now: an idle copy holds no buffer.
      w, len := w.(pools := GiveBackBuffer(w.pools, len)), 0;
    } else {
      e := Some(Stopped(ReadError));
    }
  }

  method Buffered(w0: World, total0: nat, endAt: Option<nat>) returns (w: World, total: nat, e: Ended)
    requires PoolsOk(w0.pools) && w0.io.pos <= |w0.io.data|
    ensures PoolsOk(w.pools) && Copied(w0.io, w.io, total0, total, endAt, e)
    ensures e == Running ==> |w.script| < 2
    ensures Benign(w0.script) ==> !e.Stopped?
  {
    w, total := w0, total0;
    var len: nat := 0;
    while endAt.None? || total < endAt.value
      invariant PoolsOk(w.pools) && Since(w0.io, w.io, total0, endAt) && Exact(w0.io, w.io, total0, total)
      invariant Benign(w0.script) ==> Benign(w.script)
      decreases |w.script|
    {
      if |w.script| < 2 {
        return w, total, Running;
      }
      if w.script[0] == Late {
        return w, total, Stopped(DeadlinePassed);
      }
      if len == 0 {
        // Wait for data before taking a buffer.
        if w.script[0] != Block && !w.script[0].Ok? {
          return w, total, Stopped(ReadError);
        }
        var (pools, spare) := TakeBuffer(w.pools);
        w, len := w.(script := w.script[1..], pools := pools), spare;
      }
      var end;
      w, total, len, end := BufferTurn(w0.io, total0, w, total, len, endAt);
      if end.Some? {
        return w, total, end.value;
      }
    }
    w, e := w.(pools := GiveBackBuffer(w.pools, len)), Limit;
  }

  // --- Through a pipe ---

  /** What is in the pipe taken: a spare one, if there is one. */
  function TakePipe(p: Pools): (r: (Pools, seq<byte>))
    ensures PoolsOk(p) ==> PoolsOk(r.0) && r.1 == []
  {
    var last := |p.pipes| - 1;
    if last < 0 then (p, []) else (p.(pipes := p.pipes[..last]), p.pipes[last])
  }

  function GiveBackPipe(p: Pools, pipe: Option<seq<byte>>): (r: Pools)
    ensures PoolsOk(p) && (pipe.Some? ==> pipe.value == []) ==> PoolsOk(r)
  {
    if pipe.Some? && |p.pipes| < KEEP_PIPES then p.(pipes := p.pipes + [pipe.value]) else p
  }

  /** Move the `n` bytes in the pipe on to the sink. */
  method DrainPipe(w1: World, pipe1: seq<byte>) returns (w: World, pipe: seq<byte>, r: Wrote)
    ensures w == w1.(io := w1.io.(sink := w.io.sink), script := w.script) && |w.script| <= |w1.script|
    ensures w.io.sink + pipe == w1.io.sink + pipe1 && |pipe| <= |pipe1|
    ensures r == AllWritten <==> pipe == []
    ensures r == StillWriting ==> w.script == []
    ensures Benign(w1.script) ==> Benign(w.script) && r != WriteFailed
  {
    var sink, script := w1.io.sink, w1.script;
    pipe, r := pipe1, AllWritten;
    while pipe != [] && r == AllWritten
      invariant sink + pipe == w1.io.sink + pipe1 && |pipe| <= |pipe1| && |script| <= |w1.script|
      invariant r == AllWritten || pipe != []
      invariant (r == StillWriting ==> script == []) && (Benign(w1.script) ==> Benign(script) && r != WriteFailed)
      decreases |script|, if r == AllWritten then 1 else 0
    {
      if script == [] {
        r := StillWriting;
      } else {
        var event := script[0];
        script := script[1..];
        if event.Ok? && Min(event.n, |pipe|) > 0 {
          var m := Min(event.n, |pipe|);
          assert sink + pipe[..m] + pipe[m..] == sink + pipe;
          sink, pipe := sink + pipe[..m], pipe[m..];
        } else if event != Block {
          r := WriteFailed;
        }
      }
    }
    w := w1.(io := w1.io.(sink := sink), script := script);
  }

  /** Splice `got` bytes into an empty pipe and on to the sink. */
  method ForwardPipe(w1: World, got: nat) returns (w: World, pipe: seq<byte>, r: Wrote)
    requires w1.io.pos + got <= |w1.io.data|
    ensures w == w1.(io := w.io, script := w.script) && |w.script| <= |w1.script| && Chunk(w1.io, w.io, got, r)
    ensures r == AllWritten <==> pipe == []
    ensures r == StillWriting ==> w.script == []
    ensures Benign(w1.script) ==> Benign(w.script) && r != WriteFailed
  {
    var bytes := w1.io.data[w1.io.pos..w1.io.pos + got];
    w, pipe, r := DrainPipe(w1.(io := w1.io.(pos := w1.io.pos + got)), bytes);
    var k := |w.io.sink| - |w1.io.sink|;
    assert |w.io.sink| + |pipe| == |w1.io.sink| + |bytes|;
    assert w.io.sink == (w.io.sink + pipe)[..|w.io.sink|] == (w1.io.sink + bytes)[..|w.io.sink|] == w1.io.sink + bytes[..k];
    assert bytes[..k] == w1.io.data[w1.io.pos..w1.io.pos + k];
  }

  /** How one splice into the pipe left the copy. */
  datatype Spliced = On | Over(e: Ended) | Fallback

  /** One splice into the empty pipe and, if it got something, on to the sink. */
  method SpliceTurn(ghost a: Io, ghost total0: nat, w1: World, total1: nat, spliced: nat, endAt: Option<nat>)
    returns (w: World, total: nat, pipe: Option<seq<byte>>, r: Spliced)
    requires PoolsOk(w1.pools) && Since(a, w1.io, total0, endAt) && Exact(a, w1.io, total0, total1)
    requires w1.script != [] && (endAt.Some? ==> total1 < endAt.value)
    ensures PoolsOk(w.pools) && |w.script| < |w1.script|
    ensures !r.Over? ==> Since(a, w.io, total0, endAt) && Exact(a, w.io, total0, total) && (pipe.Some? ==> pipe.value == [])
    ensures r.Over? ==> Copied(a, w.io, total0, total, endAt, r.e)
    ensures r == Over(Running) ==> w.script == []
    ensures Benign(w1.script) ==> Benign(w.script) && r != Fallback && (r.Over? ==> !r.e.Stopped?)
  {
    var event := w1.script[0];
    w, total, pipe, r := w1.(script := w1.script[1..]), total1, Some([]), On;
    if event.Ok? {
      var got := ReadSize(w.io, event.n, Cap(CHUNK, total, endAt));
      if got == 0 {
        return w.(pools := GiveBackPipe(w.pools, pipe)), total, None, Over(Eof);
      }
      var left, wrote;
      w, left, wrote := ForwardPipe(w, got);
      ChunkAdds(a, w1.io, w.io, total0, total, endAt, got, wrote);
      if wrote != AllWritten {
        // Bytes are left in this pipe, so it must not be pooled.
        return w, total, Some(left), Over(if wrote == StillWriting then Running else Stopped(WriteError));
      }
      total, pipe := total + got, Some(left);
    } else if event == Block {
      // Nothing to read now: an idle copy holds no pipe.
      w, pipe := w.(pools := GiveBackPipe(w.pools, pipe)), None;
    } else if event == Refuse && spliced == 0 {
      r := Fallback;
    } else {
      r := Over(Stopped(ReadError));
    }
  }

  /** `None` if the copy must carry on through a buffer: then everything read
      so far has been written and counted. */
  method Splice(w0: World, total0: nat, endAt: Option<nat>) returns (w: World, total: nat, e: Option<Ended>)
    requires PoolsOk(w0.pools) && w0.io.pos <= |w0.io.data|
    ensures PoolsOk(w.pools)
    ensures e.Some? ==> Copied(w0.io, w.io, total0, total, endAt, e.value)
    ensures e.None? ==> Since(w0.io, w.io, total0, endAt) && Exact(w0.io, w.io, total0, total)
    ensures e == Some(Running) ==> |w.script| < 3
    ensures Benign(w0.script) ==> e.Some? && !e.value.Stopped?
  {
    w, total := w0, total0;
    var pipe: Option<seq<byte>> := None;
    while endAt.None? || total < endAt.value
      invariant PoolsOk(w.pools) && Since(w0.io, w.io, total0, endAt) && Exact(w0.io, w.io, total0, total)
      invariant pipe.Some? ==> pipe.value == []
      invariant Benign(w0.script) ==> Benign(w.script)
      decreases |w.script|
    {
      if |w.script| < 3 {
        return w, total, Some(Running);
      }
      if w.script[0] == Late {
        return w, total, Some(Stopped(DeadlinePassed));
      }
      if pipe.None? {
        // Wait for data before taking a pipe, which may fail to be made.
        if w.script[0] != Block && !w.script[0].Ok? {
          return w, total, Some(Stopped(ReadError));
        }
        if w.pools.pipes == [] && w.script[1] == Refuse {
          return w.(script := w.script[2..]), total, None;
        }
        var (pools, spare) := TakePipe(w.pools);
        w, pipe := w.(script := w.script[2..], pools := pools), Some(spare);
      }
      var r;
      w, total, pipe, r := SpliceTurn(w0.io, total0, w, total, total - total0, endAt);
      match r {
        case On =>
        case Over(end) => return w, total, Some(end);
        case Fallback => return w, total, None;
      }
    }
    w, e := w.(pools := GiveBackPipe(w.pools, pipe)), Some(Limit);
  }

  // --- Either way ---

  /** A copy carried on by another is one copy. */
  lemma CarriesOn(a: Io, b: Io, c: Io, total0: nat, total1: nat, total: nat, endAt: Option<nat>, e: Ended)
    requires Since(a, b, total0, endAt) && Exact(a, b, total0, total1) && Copied(b, c, total1, total, endAt, e)
    ensures Copied(a, c, total0, total, endAt, e)
  {
    var k := |c.sink| - |b.sink|;
    assert a.data[a.pos..b.pos] + a.data[b.pos..b.pos + k] == a.data[a.pos..b.pos + k];
  }

  /** Splice where both are plain streams, and through a buffer where not or
      where that gives up. */
  method OneWay(w0: World, plain: bool, total0: nat, endAt: Option<nat>) returns (w: World, total: nat, e: Ended)
    requires PoolsOk(w0.pools) && w0.io.pos <= |w0.io.data|
    ensures PoolsOk(w.pools) && Copied(w0.io, w.io, total0, total, endAt, e)
    ensures e == Running ==> |w.script| < 3
    ensures Benign(w0.script) ==> !e.Stopped?
  {
    w, total := w0, total0;
    if plain {
      var end;
      w, total, end := Splice(w, total, endAt);
      if end.Some? {
        return w, total, end.value;
      }
    }
    ghost var (b, total1) := (w.io, total);
    w, total, e := Buffered(w, total, endAt);
    CarriesOn(w0.io, b, w.io, total0, total1, total, endAt, e);
  }

  /** How `copy_to` came back: well, with an error, or not yet. */
  datatype Outcome = Done | Failed(cause: Cause) | Going

  /** From `a` to `b`: the sink got the prefix, then the source's first bytes;
      with a limit no more than that many source bytes were taken, and it is
      done exactly when all of those were passed on; without one, when the
      source ended. */
  predicate Delivered(a: Io, prefix: seq<byte>, b: Io, total: nat, limit: Option<nat>, r: Outcome) {
    && b.data == a.data && a.pos <= b.pos <= |b.data|
    && (limit.Some? ==> b.pos - a.pos <= limit.value)
    && a.sink <= b.sink <= a.sink + prefix + a.data[a.pos..b.pos]
    && total <= |b.sink| - |a.sink|
    && (r == Done ==> b.sink == a.sink + prefix + a.data[a.pos..b.pos] && |b.sink| - |a.sink| == total)
    && (r == Done && limit.None? ==> b.pos == |b.data|)
    && (limit.Some? && r != Going ==> (r == Done <==> |b.sink| - |a.sink| == |prefix| + limit.value))
    && (r == Failed(EndedEarly) ==> limit.Some? && b.pos == |b.data| && total == |prefix| + (b.pos - a.pos) < |prefix| + limit.value)
  }

  function OutcomeOf(e: Ended, limited: bool): Outcome {
    match e
    case Eof => if limited then Failed(EndedEarly) else Done
    case Limit => Done
    case Stopped(cause) => Failed(cause)
    case Running => Going
  }

  lemma PrefixAlone(a: Io, prefix: seq<byte>, b: Io, limit: Option<nat>, r: Wrote)
    requires a.pos <= |a.data| && b == a.(sink := b.sink) && |a.sink| <= |b.sink| < |a.sink| + |prefix|
    requires b.sink == a.sink + prefix[..|b.sink| - |a.sink|]
    ensures Delivered(a, prefix, b, 0, limit, if r == StillWriting then Going else Failed(WriteError))
  {
    var k := |b.sink| - |a.sink|;
    assert a.sink + prefix + a.data[a.pos..b.pos] == b.sink + (prefix[k..] + a.data[a.pos..b.pos]);
  }

  /** After the prefix, a copy of the rest. */
  lemma PrefixThenCopy(a: Io, prefix: seq<byte>, m: Io, b: Io, total: nat, limit: Option<nat>, endAt: Option<nat>, e: Ended)
    requires a.pos <= |a.data| && m == a.(sink := a.sink + prefix)
    requires endAt == if limit.Some? then Some(|prefix| + limit.value) else None
    requires Copied(m, b, |prefix|, total, endAt, e)
    ensures Delivered(a, prefix, b, total, limit, OutcomeOf(e, limit.Some?))
  {
    var k := |b.sink| - |m.sink|;
    var all, some := a.data[a.pos..b.pos], a.data[a.pos..a.pos + k];
    assert all == some + a.data[a.pos + k..b.pos];
    Associative(m.sink, some, a.data[a.pos + k..b.pos]);
    Associative(a.sink, prefix, some);
  }

  /** `copy_to`, for every script of what the calls do. If nothing fails, it is
      done exactly when the source has enough. */
  method CopyTo(w0: World, plain: bool, prefix: seq<byte>, limit: Option<nat>)
    returns (w: World, total: nat, r: Outcome)
    requires PoolsOk(w0.pools) && w0.io.pos <= |w0.io.data|
    requires limit.Some? ==> |prefix| + limit.value < LIMIT
    ensures PoolsOk(w.pools) && Delivered(w0.io, prefix, w.io, total, limit, r)
    ensures r == Going ==> |w.script| < 3
    ensures Benign(w0.script) && r != Going ==> (r == Done <==> limit.None? || limit.value <= |w0.io.data| - w0.io.pos)
  {
    w, total := w0, 0;
    if prefix != [] {
      var wrote;
      w, wrote := WriteAll(w0, prefix);
      if wrote != AllWritten {
        PrefixAlone(w0.io, prefix, w.io, limit, wrote);
        return w, 0, if wrote == StillWriting then Going else Failed(WriteError);
      }
      assert prefix[..|prefix|] == prefix;
      total := |prefix|;
    } else {
      assert w0.io.sink + prefix == w0.io.sink;
    }
    ghost var m := w.io;
    var e;
    var endAt := if limit.Some? then Some(total + limit.value) else None;
    w, total, e := OneWay(w, plain, total, endAt);
    PrefixThenCopy(w0.io, prefix, m, w.io, total, limit, endAt, e);
    r := OutcomeOf(e, limit.Some?);
  }
}
