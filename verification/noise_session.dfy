/** Noise from end to end: nothing but what the peer sealed is delivered, in
    order, whatever arrives; and over an honest connection everything is,
    however it is cut up. */
module NoiseSession {
  import opened Basics
  import opened Noise

  /** `delivered`, and what is left of the open message, is what the first
      messages say. */
  predicate InStep(r: Received, peer: Peer, delivered: seq<byte>) {
    && peer.start <= r.nonce <= peer.start + |peer.sent| && r.taken <= |r.plain|
    && delivered + r.plain[r.taken..] == Concat(peer.sent[..r.nonce - peer.start])
  }

  function Got(o: Outcome): seq<byte> {
    if o.Bytes? then o.bytes else []
  }

  predicate Safe(r: Received, peer: Peer, delivered: seq<byte>) {
    && delivered <= Concat(peer.sent)
    && (!r.failed ==> InStep(r, peer, delivered))
  }

  lemma InStepSafe(r: Received, peer: Peer, delivered: seq<byte>)
    requires InStep(r, peer, delivered)
    ensures delivered <= Concat(peer.sent)
  {
    ConcatPrefix(peer.sent, r.nonce - peer.start);
  }

  /** Opening one more message. */
  lemma OpenNext(r: Received, peer: Peer, delivered: seq<byte>, message: seq<byte>)
    requires InStep(r, peer, delivered) && r.taken == |r.plain| && Open(peer, r.nonce, message).Some?
    ensures var plain := Open(peer, r.nonce, message).value;
            InStep(r.(nonce := r.nonce + 1, plain := plain, taken := 0), peer, delivered)
  {
    var k := r.nonce - peer.start;
    ConcatLast(peer.sent[..k], peer.sent[k]);
    assert peer.sent[..k + 1] == peer.sent[..k] + [peer.sent[k]];
  }

  /** Handing out part of the open message. */
  lemma TakeSome(r: Received, peer: Peer, max: nat, delivered: seq<byte>)
    requires InStep(r, peer, delivered) && r.taken < |r.plain|
    ensures var (r1, o) := Decode(r, peer, max);
            o.Bytes? && r1.failed == r.failed && InStep(r1, peer, delivered + o.bytes)
  {
    var end := if r.taken + max < |r.plain| then r.taken + max else |r.plain|;
    assert r.plain[r.taken..] == r.plain[r.taken..end] + r.plain[end..];
  }

  /** The receiver with the message at its front opened as `plain`. */
  function Opened(r: Received, len: nat, plain: seq<byte>): Received
    requires 2 + len <= |r.ciphertext|
  {
    r.(ciphertext := r.ciphertext[2 + len..], nonce := r.nonce + 1, plain := plain, taken := 0)
  }

  lemma OpenDecodes(r: Received, peer: Peer, len: nat, plain: seq<byte>, max: nat)
    requires r.taken == |r.plain| && r.nonce != LAST_NONCE && WholeMessage(r.ciphertext) == Some(len)
    requires Open(peer, r.nonce, r.ciphertext[2..2 + len]) == Some(plain)
    ensures Decode(r, peer, max) == Decode(Opened(r, len, plain), peer, max)
  {
  }

  lemma TakeSafe(r: Received, peer: Peer, max: nat, delivered: seq<byte>)
    requires InStep(r, peer, delivered) && r.taken < |r.plain|
    ensures var (r1, o) := Decode(r, peer, max); Safe(r1, peer, delivered + Got(o))
  {
    TakeSome(r, peer, max, delivered);
    var (r1, o) := Decode(r, peer, max);
    InStepSafe(r1, peer, delivered + o.bytes);
  }

  /** The message at the front can be opened. */
  predicate CanOpen(r: Received, peer: Peer) {
    var whole := WholeMessage(r.ciphertext);
    whole.Some? && r.nonce != LAST_NONCE && Open(peer, r.nonce, r.ciphertext[2..2 + whole.value]).Some?
  }

  /** Being in step does not depend on what is still to be opened. */
  lemma StillInStep(r: Received, r1: Received, peer: Peer, delivered: seq<byte>)
    requires InStep(r1.(ciphertext := r.ciphertext), peer, delivered)
    ensures InStep(r1, peer, delivered)
  {
  }

  lemma OpenStep(r: Received, peer: Peer, max: nat, delivered: seq<byte>) returns (r1: Received)
    requires InStep(r, peer, delivered) && !r.failed && r.taken == |r.plain| && CanOpen(r, peer)
    ensures InStep(r1, peer, delivered) && !r1.failed && |r1.ciphertext| < |r.ciphertext|
    ensures Decode(r, peer, max) == Decode(r1, peer, max)
  {
    var len := WholeMessage(r.ciphertext).value;
    var message := r.ciphertext[2..2 + len];
    OpenNext(r, peer, delivered, message);
    var plain := Open(peer, r.nonce, message).value;
    OpenDecodes(r, peer, len, plain, max);
    r1 := Opened(r, len, plain);
    StillInStep(r, r1, peer, delivered);
  }

  lemma StopSafe(r: Received, peer: Peer, max: nat, delivered: seq<byte>)
    requires InStep(r, peer, delivered) && r.taken == |r.plain| && !CanOpen(r, peer)
    ensures var (r1, o) := Decode(r, peer, max); Got(o) == [] && Safe(r1, peer, delivered)
  {
    InStepSafe(r, peer, delivered);
  }

  lemma {:induction false} DecodeSafe(r: Received, peer: Peer, max: nat, delivered: seq<byte>)
    requires InStep(r, peer, delivered) && !r.failed
    ensures var (r1, o) := Decode(r, peer, max); Safe(r1, peer, delivered + Got(o))
    decreases |r.ciphertext|
  {
    if r.taken < |r.plain| {
      TakeSafe(r, peer, max, delivered);
    } else if CanOpen(r, peer) {
      var r1 := OpenStep(r, peer, max, delivered);
      DecodeSafe(r1, peer, max, delivered);
    } else {
      StopSafe(r, peer, max, delivered);
      assert delivered + [] == delivered;
    }
  }

  // --- Any bytes at all ---

  datatype Session = Session(peer: Peer, r: Received, delivered: seq<byte>)

  datatype Step =
    | Seal(part: seq<byte>)        // the peer seals a message
    | Arrives(bytes: seq<byte>)    // the connection yields these bytes, whoever wrote them; none: its end
    | Read(max: nat)

  function Apply(s: Session, step: Step): Session {
    match step
    case Seal(part) => s.(peer := s.peer.(sent := s.peer.sent + [part]))
    case Arrives(bytes) => s.(r := Arrive(s.r, bytes))
    case Read(max) =>
      var (r, o) := Next(s.r, s.peer, max);
      s.(r := r, delivered := s.delivered + Got(o))
  }

  function Run(s: Session, steps: seq<Step>): Session
    decreases |steps|
  {
    if steps == [] then s else Run(Apply(s, steps[0]), steps[1..])
  }

  lemma SafeKept(s: Session, step: Step)
    requires Safe(s.r, s.peer, s.delivered)
    ensures var t := Apply(s, step); Safe(t.r, t.peer, t.delivered)
  {
    match step
    case Seal(part) =>
      ConcatLast(s.peer.sent, part);
      if !s.r.failed {
        var k := s.r.nonce - s.peer.start;
        assert (s.peer.sent + [part])[..k] == s.peer.sent[..k];
      }
    case Arrives(_) =>
    case Read(max) =>
      if !s.r.failed { DecodeSafe(s.r, s.peer, max, s.delivered); }
  }

  /** Soundness: from the start of a session, whatever bytes arrive in
      whatever pieces, what reads deliver is a prefix of what the peer sealed. */
  lemma {:induction false} DeliversPrefix(s: Session, steps: seq<Step>)
    requires Safe(s.r, s.peer, s.delivered)
    ensures var t := Run(s, steps); Safe(t.r, t.peer, t.delivered)
    decreases |steps|
  {
    if steps != [] {
      SafeKept(s, steps[0]);
      DeliversPrefix(Apply(s, steps[0]), steps[1..]);
    }
  }

  /** A session in which nothing has happened yet. */
  function NewSession(peer: Peer): Session {
    Session(peer.(sent := []), Fresh(peer.start), [])
  }

  /** With nothing sealed, opened or delivered, the two sides are in step. */
  lemma UnusedInStep(r: Received, peer: Peer, delivered: seq<byte>)
    requires |peer.sent| == 0 && r.nonce == peer.start && r.taken == 0 && |r.plain| == 0 && |delivered| == 0
    ensures Safe(r, peer, delivered) && InStep(r, peer, delivered)
  {
  }

  lemma Soundness(peer: Peer, steps: seq<Step>)
    ensures var t := Run(NewSession(peer), steps); t.delivered <= Concat(t.peer.sent)
  {
    var s := NewSession(peer);
    UnusedInStep(s.r, s.peer, s.delivered);
    DeliversPrefix(s, steps);
  }

  /** A read that fails so leaves the receiver failed: what it met does not
      open, and nothing was delivered by it. */
  lemma {:induction false} FailureIsKept(r: Received, peer: Peer, max: nat)
    ensures Decode(r, peer, max).1 == Failed(NotAuthentic) ==> Decode(r, peer, max).0.failed
    decreases |r.ciphertext|
  {
    var whole := WholeMessage(r.ciphertext);
    if r.taken >= |r.plain| && whole.Some? && r.nonce != LAST_NONCE {
      var result := Open(peer, r.nonce, r.ciphertext[2..2 + whole.value]);
      if result.Some? { FailureIsKept(Opened(r, whole.value, result.value), peer, max); }
    }
  }

  lemma {:induction false} FailedStays(s: Session, steps: seq<Step>)
    requires s.r.failed
    ensures Run(s, steps).r.failed && Run(s, steps).delivered == s.delivered
    decreases |steps|
  {
    if steps != [] { FailedStays(Apply(s, steps[0]), steps[1..]); }
  }

  /** Nothing is delivered after a message that fails to authenticate: once a
      read has met one no other returns a byte, whatever arrives and whatever
      the peer seals. */
  lemma NothingAfterFailure(s: Session, max: nat, steps: seq<Step>, later: nat)
    requires Next(s.r, s.peer, max).1 == Failed(NotAuthentic)
    ensures var t := Run(Apply(s, Read(max)), steps);
            t.delivered == s.delivered && Next(t.r, t.peer, later).1 == Failed(NotAuthentic)
  {
    FailureIsKept(s.r, s.peer, max);
    assert s.delivered + [] == s.delivered;
    FailedStays(Apply(s, Read(max)), steps);
  }

  /** On any wire: a read that must wait leaves nothing readable. */
  lemma {:induction false} WaitsOnlyUnreadable(r: Received, peer: Peer, max: nat)
    requires !r.failed
    ensures Decode(r, peer, max).1 == NeedMore ==> !Readable(Decode(r, peer, max).0)
    decreases |r.ciphertext|
  {
    var whole := WholeMessage(r.ciphertext);
    if r.taken >= |r.plain| && whole.Some? && r.nonce != LAST_NONCE {
      var result := Open(peer, r.nonce, r.ciphertext[2..2 + whole.value]);
      if result.Some? { WaitsOnlyUnreadable(Opened(r, whole.value, result.value), peer, max); }
    }
  }

  // --- An honest connection ---

  /** A connection that yields what was written, in any pieces: `rest` is on
      its way. */
  datatype Link = Link(peer: Peer, r: Received, rest: seq<byte>, delivered: seq<byte>, written: seq<byte>)

  ghost predicate Honest(l: Link) {
    && Tagged(l.peer.seal) && Short(l.peer.sent) && l.peer.start + |l.peer.sent| <= LAST_NONCE
    && !l.r.failed && InStep(l.r, l.peer, l.delivered) && l.written == Concat(l.peer.sent)
    && l.r.ciphertext + l.rest == Frames(l.peer.seal, l.r.nonce, l.peer.sent[l.r.nonce - l.peer.start..])
  }

  /** The frame at the front is found, whole, exactly when all of it is there. */
  lemma FrontFrame(seal: (nat, seq<byte>) -> seq<byte>, nonce: nat, parts: seq<seq<byte>>, c: seq<byte>, rest: seq<byte>)
    requires Tagged(seal) && Short(parts) && parts != [] && c + rest == Frames(seal, nonce, parts)
    ensures var len := |seal(nonce, parts[0])|;
            && WholeMessage(c) == (if 2 + len <= |c| then Some(len) else None)
            && (2 + len <= |c| ==> c[2..2 + len] == seal(nonce, parts[0]) && c[2 + len..] + rest == Frames(seal, nonce + 1, parts[1..]))
            && 2 <= |c + rest|
  {
    var m := seal(nonce, parts[0]);
    var all := c + rest;
    assert all == Frame(m) + Frames(seal, nonce + 1, parts[1..]);
    assert all[0] == (|m| / 256) as byte && all[1] == (|m| % 256) as byte;
    if 2 <= |c| { assert c[0] == all[0] && c[1] == all[1]; }
    if 2 + |m| <= |c| {
      assert all[2..2 + |m|] == m && c[2..2 + |m|] == all[2..2 + |m|];
      assert all[2 + |m|..] == Frames(seal, nonce + 1, parts[1..]) && c[2 + |m|..] + rest == all[2 + |m|..];
    }
  }

  /** How a read over an honest connection ends, and what that means. */
  ghost predicate HonestEnd(l: Link, o: Outcome) {
    match o
    case Bytes(bytes) => bytes != [] || (l.r.ended && l.r.ciphertext == [] && l.r.taken == |l.r.plain|)
    case NeedMore => !Readable(l.r)
    // Cut off inside a frame: some of it has arrived, and some is missing.
    case Failed(e) => e == UnexpectedEof && l.r.ended && l.r.ciphertext != [] && l.rest != []
  }

  /** The next message has arrived whole. */
  ghost predicate NextIsWhole(l: Link) {
    && Honest(l) && l.r.taken == |l.r.plain| && l.r.nonce - l.peer.start < |l.peer.sent|
    && 2 + |l.peer.seal(l.r.nonce, l.peer.sent[l.r.nonce - l.peer.start])| <= |l.r.ciphertext|
  }

  ghost function WithNextOpen(l: Link): Received
    requires NextIsWhole(l)
  {
    var plain := l.peer.sent[l.r.nonce - l.peer.start];
    Opened(l.r, |l.peer.seal(l.r.nonce, plain)|, plain)
  }

  /** Opening it is a step of the decoder. */
  lemma OpenHonest(l: Link, max: nat)
    requires NextIsWhole(l)
    ensures Decode(l.r, l.peer, max) == Decode(WithNextOpen(l), l.peer, max)
  {
    var r, peer, k := l.r, l.peer, l.r.nonce - l.peer.start;
    FrontOpens(peer, k, r.ciphertext, l.rest);
    OpenDecodes(r, peer, |peer.seal(r.nonce, peer.sent[k])|, peer.sent[k], max);
  }

  /** ... and leaves the connection honest. */
  lemma OpenStaysHonest(l: Link)
    requires NextIsWhole(l)
    ensures Honest(l.(r := WithNextOpen(l)))
  {
    var r, peer, k := l.r, l.peer, l.r.nonce - l.peer.start;
    var m := peer.seal(r.nonce, peer.sent[k]);
    FrontOpens(peer, k, r.ciphertext, l.rest);
    assert Open(peer, r.nonce, m) == Some(peer.sent[k]);
    OpenNext(r, peer, l.delivered, m);
    StillInStep(r, Opened(r, |m|, peer.sent[k]), peer, l.delivered);
  }

  /** The frame at the front is the next message's, and what follows is the
      frames of the rest. */
  lemma FrontOpens(peer: Peer, k: nat, c: seq<byte>, rest: seq<byte>)
    requires Tagged(peer.seal) && Short(peer.sent) && k < |peer.sent|
    requires c + rest == Frames(peer.seal, peer.start + k, peer.sent[k..])
    requires 2 + |peer.seal(peer.start + k, peer.sent[k])| <= |c|
    ensures var m := peer.seal(peer.start + k, peer.sent[k]);
            && WholeMessage(c) == Some(|m|) && c[2..2 + |m|] == m
            && c[2 + |m|..] + rest == Frames(peer.seal, peer.start + k + 1, peer.sent[k + 1..])
  {
    FrontFrame(peer.seal, peer.start + k, peer.sent[k..], c, rest);
    assert peer.sent[k..][1..] == peer.sent[k + 1..];
  }

  /** It has not: the decoder stops, and says why. */
  lemma StopHonest(l: Link, max: nat)
    requires Honest(l) && l.r.taken == |l.r.plain|
    requires var k := l.r.nonce - l.peer.start;
             k == |l.peer.sent| || |l.r.ciphertext| < 2 + |l.peer.seal(l.r.nonce, l.peer.sent[k])|
    ensures var (r, o) := Decode(l.r, l.peer, max); r == l.r && Got(o) == [] && HonestEnd(l, o)
  {
    var r, peer, k := l.r, l.peer, l.r.nonce - l.peer.start;
    if k == |peer.sent| {
      assert |r.ciphertext + l.rest| == 0;
    } else {
      FrontFrame(peer.seal, r.nonce, peer.sent[k..], r.ciphertext, l.rest);
      assert |r.ciphertext + l.rest| >= 2 + |peer.seal(r.nonce, peer.sent[k])|;
    }
  }

  lemma {:induction false} DecodeHonest(l: Link, max: nat)
    requires Honest(l) && 0 < max
    ensures var (r, o) := Decode(l.r, l.peer, max);
            var l1 := l.(r := r, delivered := l.delivered + Got(o));
            Honest(l1) && HonestEnd(l1, o)
    decreases |l.r.ciphertext|
  {
    if l.r.taken < |l.r.plain| {
      TakeSome(l.r, l.peer, max, l.delivered);
    } else if NextIsWhole(l) {
      OpenHonest(l, max);
      OpenStaysHonest(l);
      DecodeHonest(l.(r := WithNextOpen(l)), max);
    } else {
      StopHonest(l, max);
      assert l.delivered + [] == l.delivered;
    }
  }

  /** A link with nothing written, arrived or read yet. */
  function NewLink(seal: (nat, seq<byte>) -> seq<byte>, start: nat): Link {
    Link(Peer(seal, start, []), Fresh(start), [], [], [])
  }

  datatype LinkStep =
    | Write(data: seq<byte>, sent: nat)  // the peer writes this, and gets so many of its messages sent
    | Pieces(n: nat)                     // the next n bytes arrive together
    | EndOfStream                        // the connection ends here
    | ReadSome(max: nat)

  ghost predicate LinkEnabled(l: Link, step: LinkStep) {
    match step
    case Write(data, sent) =>
      Tagged(l.peer.seal) && sent <= |Chunks(data)| && l.peer.start + |l.peer.sent| + sent <= LAST_NONCE
    case Pieces(n) => 0 < n <= |l.rest| && !l.r.ended
    case EndOfStream => true
    case ReadSome(max) => 0 < max
  }

  /** One message sealed, and its frame on its way. */
  ghost function SendPart(l: Link, part: seq<byte>): Link
    requires Tagged(l.peer.seal) && |part| <= MAX_PLAINTEXT
  {
    l.(peer := l.peer.(sent := l.peer.sent + [part]), written := l.written + part,
       rest := l.rest + Frame(l.peer.seal(l.peer.start + |l.peer.sent|, part)))
  }

  ghost function SendParts(l: Link, parts: seq<seq<byte>>): Link
    requires Tagged(l.peer.seal) && Short(parts)
    decreases |parts|
  {
    if parts == [] then l else SendParts(SendPart(l, parts[0]), parts[1..])
  }

  ghost function LinkApply(l: Link, step: LinkStep): Link
    requires LinkEnabled(l, step)
  {
    match step
    case Write(data, sent) => SendParts(l, Chunks(data)[..sent])
    case Pieces(n) => l.(r := Arrive(l.r, l.rest[..n]), rest := l.rest[n..])
    case EndOfStream => l.(r := Arrive(l.r, []))
    case ReadSome(max) =>
      var (r, o) := Next(l.r, l.peer, max);
      l.(r := r, delivered := l.delivered + Got(o))
  }

  ghost predicate LinkReaches(start: Link, steps: seq<LinkStep>, l: Link)
    decreases |steps|
  {
    if steps == [] then l == start
    else LinkEnabled(start, steps[0]) && LinkReaches(LinkApply(start, steps[0]), steps[1..], l)
  }

  lemma PartHonest(l: Link, part: seq<byte>)
    requires Honest(l) && |part| <= MAX_PLAINTEXT && l.peer.start + |l.peer.sent| < LAST_NONCE
    ensures Honest(SendPart(l, part)) && SendPart(l, part).written == l.written + part
  {
    var peer, k := l.peer, l.r.nonce - l.peer.start;
    var more := peer.sent + [part];
    assert more[..k] == peer.sent[..k];
    ConcatLast(peer.sent, part);
    PartFramed(peer, k, part);
    Associative(l.r.ciphertext, l.rest, Frame(peer.seal(peer.start + |peer.sent|, part)));
  }

  /** What is still to be opened, with one more frame at its end. */
  lemma PartFramed(peer: Peer, k: nat, part: seq<byte>)
    requires Tagged(peer.seal) && Short(peer.sent) && |part| <= MAX_PLAINTEXT && k <= |peer.sent|
    ensures Short(peer.sent + [part])
    ensures Frames(peer.seal, peer.start + k, (peer.sent + [part])[k..])
      == Frames(peer.seal, peer.start + k, peer.sent[k..]) + Frame(peer.seal(peer.start + |peer.sent|, part))
  {
    FramesLast(peer.seal, peer.start + k, peer.sent[k..], part);
    assert (peer.sent + [part])[k..] == peer.sent[k..] + [part];
  }

  lemma {:induction false} PartsHonest(l: Link, parts: seq<seq<byte>>)
    requires Honest(l) && Short(parts) && l.peer.start + |l.peer.sent| + |parts| <= LAST_NONCE
    ensures Honest(SendParts(l, parts)) && SendParts(l, parts).written == l.written + Concat(parts)
    decreases |parts|
  {
    if parts == [] {
      assert l.written + [] == l.written;
    } else {
      PartHonest(l, parts[0]);
      PartsHonest(SendPart(l, parts[0]), parts[1..]);
      Associative(l.written, parts[0], Concat(parts[1..]));
    }
  }

  /** A write that gets all its messages sent has written all its data. */
  lemma WriteHonest(l: Link, data: seq<byte>, sent: nat)
    requires Honest(l) && LinkEnabled(l, Write(data, sent))
    ensures Honest(LinkApply(l, Write(data, sent)))
    ensures sent == |Chunks(data)| ==> LinkApply(l, Write(data, sent)).written == l.written + data
  {
    PartsHonest(l, Chunks(data)[..sent]);
    if sent == |Chunks(data)| {
      assert Chunks(data)[..sent] == Chunks(data);
    }
  }

  lemma HonestKept(l: Link, step: LinkStep)
    requires Honest(l) && LinkEnabled(l, step)
    ensures Honest(LinkApply(l, step))
  {
    match step
    case Write(data, sent) => WriteHonest(l, data, sent);
    case Pieces(n) => assert l.r.ciphertext + l.rest[..n] + l.rest[n..] == l.r.ciphertext + l.rest;
    case EndOfStream => assert l.r.ciphertext + [] == l.r.ciphertext;
    case ReadSome(max) => DecodeHonest(l, max);
  }

  lemma {:induction false} HonestHolds(start: Link, steps: seq<LinkStep>, l: Link)
    requires Honest(start) && LinkReaches(start, steps, l)
    ensures Honest(l)
    decreases |steps|
  {
    if steps != [] {
      HonestKept(start, steps[0]);
      HonestHolds(LinkApply(start, steps[0]), steps[1..], l);
    }
  }

  /** What a run of reads returns, one after another. */
  function ReadOn(r: Received, peer: Peer, maxes: seq<nat>): (Received, seq<byte>)
    decreases |maxes|
  {
    if maxes == [] then (r, [])
    else
      var (r1, o) := Next(r, peer, maxes[0]);
      var (r2, more) := ReadOn(r1, peer, maxes[1..]);
      (r2, Got(o) + more)
  }

  /** At the end with nothing left, everything has been delivered. */
  lemma EndIsEverything(l: Link)
    requires Honest(l) && l.rest == [] && l.r.ciphertext == [] && l.r.taken == |l.r.plain|
    ensures l.delivered == Concat(l.peer.sent)
  {
    var k := l.r.nonce - l.peer.start;
    if k < |l.peer.sent| {
      FrontFrame(l.peer.seal, l.r.nonce, l.peer.sent[k..], l.r.ciphertext, l.rest);
    }
    assert l.peer.sent[..k] == l.peer.sent && l.delivered + [] == l.delivered;
  }

  /** With everything arrived and delivered, a read finds the end. */
  lemma FinishedReadsEmpty(l: Link, max: nat)
    requires Honest(l) && l.rest == [] && l.r.ended && 0 < max && |l.delivered| == |Concat(l.peer.sent)|
    ensures Decode(l.r, l.peer, max).1 == Bytes([])
  {
    var (r, o) := Decode(l.r, l.peer, max);
    DecodeHonest(l, max);
    InStepSafe(r, l.peer, l.delivered + Got(o));
    assert |l.delivered + Got(o)| <= |Concat(l.peer.sent)|;
    DecodeKeepsEnd(l.r, l.peer, max);
  }

  lemma {:induction false} DecodeKeepsEnd(r: Received, peer: Peer, max: nat)
    ensures Decode(r, peer, max).0.ended == r.ended
    decreases |r.ciphertext|
  {
    var whole := WholeMessage(r.ciphertext);
    if r.taken >= |r.plain| && whole.Some? && r.nonce != LAST_NONCE {
      var result := Open(peer, r.nonce, r.ciphertext[2..2 + whole.value]);
      if result.Some? { DecodeKeepsEnd(Opened(r, whole.value, result.value), peer, max); }
    }
  }

  /** One read brings the end nearer, or finds everything delivered. */
  lemma ReadStep(l: Link, max: nat) returns (l1: Link, got: seq<byte>)
    requires Honest(l) && l.rest == [] && l.r.ended && 0 < max
    ensures (l1.r, got) == (Next(l.r, l.peer, max).0, Got(Next(l.r, l.peer, max).1))
    ensures l1 == l.(r := l1.r, delivered := l.delivered + got)
    ensures Honest(l1) && l1.r.ended && (got != [] || l1.delivered == Concat(l.peer.sent))
  {
    var (r, o) := Decode(l.r, l.peer, max);
    got := Got(o);
    l1 := l.(r := r, delivered := l.delivered + got);
    DecodeHonest(l, max);
    DecodeKeepsEnd(l.r, l.peer, max);
    if got == [] { EndIsEverything(l1); }
  }

  /** With everything arrived, reads of any sizes return all that is left, in
      at most as many reads as it has bytes; then the end reads as empty. */
  lemma {:induction false} ReadsGetEverything(l: Link, maxes: seq<nat>, max: nat)
    requires Honest(l) && l.rest == [] && l.r.ended && 0 < max
    requires forall i | 0 <= i < |maxes| :: 0 < maxes[i]
    requires |Concat(l.peer.sent)| - |l.delivered| <= |maxes|
    ensures var (r, got) := ReadOn(l.r, l.peer, maxes);
            l.delivered + got == Concat(l.peer.sent) && Next(r, l.peer, max).1 == Bytes([])
    decreases |maxes|
  {
    InStepSafe(l.r, l.peer, l.delivered);
    if maxes == [] {
      FinishedReadsEmpty(l, max);
      assert l.delivered + [] == Concat(l.peer.sent);
    } else {
      var l1, got := ReadStep(l, maxes[0]);
      ReadsGetEverything(l1, maxes[1..], max);
      Associative(l.delivered, got, ReadOn(l1.r, l.peer, maxes[1..]).1);
    }
  }

  /** Completeness, over every list of writes, every fragmentation and every
      sequence of reads: no read fails unless the connection is cut inside a
      frame, one that must wait leaves nothing readable, and once all has
      arrived, reading on returns all that was written. */
  lemma Completeness(seal: (nat, seq<byte>) -> seq<byte>, start: nat, steps: seq<LinkStep>, l: Link, maxes: seq<nat>, max: nat)
    requires Tagged(seal) && start <= LAST_NONCE && LinkReaches(NewLink(seal, start), steps, l)
    requires 0 < max && forall i | 0 <= i < |maxes| :: 0 < maxes[i]
    ensures var (r, o) := Next(l.r, l.peer, max);
            HonestEnd(l.(r := r, delivered := l.delivered + Got(o)), o)
    ensures l.delivered <= l.written
    ensures l.rest == [] && l.r.ended && |l.written| - |l.delivered| <= |maxes| ==>
              var (r, got) := ReadOn(l.r, l.peer, maxes);
              l.delivered + got == l.written && Next(r, l.peer, max).1 == Bytes([])
  {
    UnusedHonest(NewLink(seal, start));
    HonestHolds(NewLink(seal, start), steps, l);
    ReadIsHonest(l, max);
    if l.rest == [] && l.r.ended && |l.written| - |l.delivered| <= |maxes| {
      ReadsGetEverything(l, maxes, max);
    }
  }

  lemma UnusedHonest(l: Link)
    requires Tagged(l.peer.seal) && l.peer.start <= LAST_NONCE && |l.peer.sent| == 0
    requires l.r.nonce == l.peer.start && l.r.taken == 0 && |l.r.plain| == 0 && |l.r.ciphertext| == 0 && !l.r.failed
    requires |l.rest| == 0 && |l.delivered| == 0 && |l.written| == 0
    ensures Honest(l)
  {
    UnusedInStep(l.r, l.peer, l.delivered);
    var none := l.peer.sent[l.r.nonce - l.peer.start..];
    assert |none| == 0 && |Concat(l.peer.sent)| == 0;
    assert |Frames(l.peer.seal, l.r.nonce, none)| == 0;
    assert |l.r.ciphertext + l.rest| == 0;
  }

  lemma ReadIsHonest(l: Link, max: nat)
    requires Honest(l) && 0 < max
    ensures var (r, o) := Next(l.r, l.peer, max); HonestEnd(l.(r := r, delivered := l.delivered + Got(o)), o)
    ensures l.delivered <= l.written
  {
    DecodeHonest(l, max);
    InStepSafe(l.r, l.peer, l.delivered);
  }
}
