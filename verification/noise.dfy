/** Noise transport messages over a byte stream: the sender cuts what it is
    given into sealed frames; the receiver puts whatever arrives back into
    frames, opens them in order, and hands the plaintext out in pieces. */
module Noise {
  import opened Basics

  const TAG := 16
  const MAX_MESSAGE := 65535
  const MAX_PLAINTEXT := MAX_MESSAGE - TAG
  const LAST_NONCE := 0xFFFF_FFFF_FFFF_FFFF

  /** One direction's peer, with an ideal cipher: `seal` is what encrypting
      yields, and `sent` the plaintexts sealed so far under the nonces from
      `start` on. */
  datatype Peer = Peer(seal: (nat, seq<byte>) -> seq<byte>, start: nat, sent: seq<seq<byte>>)

  ghost predicate Tagged(seal: (nat, seq<byte>) -> seq<byte>) {
    forall n, p :: |seal(n, p)| == |p| + TAG
  }

  /** Opening succeeds on exactly what the peer sealed under that nonce. */
  function Open(peer: Peer, nonce: nat, message: seq<byte>): Option<seq<byte>> {
    if peer.start <= nonce < peer.start + |peer.sent| && message == peer.seal(nonce, peer.sent[nonce - peer.start]) then
      Some(peer.sent[nonce - peer.start])
    else
      None
  }

  function Concat(parts: seq<seq<byte>>): seq<byte> {
    if parts == [] then [] else parts[0] + Concat(parts[1..])
  }

  lemma {:induction false} ConcatLast(parts: seq<seq<byte>>, part: seq<byte>)
    ensures Concat(parts + [part]) == Concat(parts) + part
  {
    if parts == [] {
      assert [part][1..] == [];
    } else {
      ConcatLast(parts[1..], part);
      assert (parts + [part])[1..] == parts[1..] + [part];
    }
  }

  lemma {:induction false} ConcatPrefix(parts: seq<seq<byte>>, k: nat)
    requires k <= |parts|
    ensures Concat(parts) == Concat(parts[..k]) + Concat(parts[k..])
  {
    if k > 0 {
      ConcatPrefix(parts[1..], k - 1);
      assert parts[..k][1..] == parts[1..][..k - 1] && parts[k..] == parts[1..][k - 1..];
    }
  }

  // --- Nonces ---

  function Power256(k: nat): nat {
    if k == 0 then 1 else 256 * Power256(k - 1)
  }

  function LeBytes(n: nat, k: nat): (r: seq<byte>)
    ensures |r| == k
  {
    if k == 0 then [] else [(n % 256) as byte] + LeBytes(n / 256, k - 1)
  }

  function Reversed(s: seq<byte>): (r: seq<byte>)
    ensures |r| == |s|
  {
    if s == [] then [] else Reversed(s[1..]) + [s[0]]
  }

  /** The twelve bytes a counter is made into: the last eight hold it, in the
      byte order of the cipher (lowest first under ChaChaPoly). */
  function NonceBytes(chacha: bool, n: nat): seq<byte> {
    [0, 0, 0, 0] + (if chacha then LeBytes(n, 8) else Reversed(LeBytes(n, 8)))
  }

  lemma {:induction false} LeInjective(a: nat, b: nat, k: nat)
    requires LeBytes(a, k) == LeBytes(b, k) && a < Power256(k) && b < Power256(k)
    ensures a == b
  {
    if k > 0 {
      assert LeBytes(a, k)[0] == LeBytes(b, k)[0];
      assert LeBytes(a, k)[1..] == LeBytes(a / 256, k - 1) && LeBytes(b, k)[1..] == LeBytes(b / 256, k - 1);
      LeInjective(a / 256, b / 256, k - 1);
    }
  }

  lemma {:induction false} ReversedInjective(s: seq<byte>, t: seq<byte>)
    requires Reversed(s) == Reversed(t)
    ensures s == t
  {
    if s != [] {
      var n := |s| - 1;
      assert Reversed(s)[n] == s[0] && Reversed(t)[n] == t[0];
      assert Reversed(s)[..n] == Reversed(s[1..]) && Reversed(t)[..n] == Reversed(t[1..]);
      ReversedInjective(s[1..], t[1..]);
      assert s == [s[0]] + s[1..] && t == [t[0]] + t[1..];
    }
  }

  /** Different counters make different nonces, whichever the cipher. */
  lemma NonceBytesDistinct(chacha: bool, a: nat, b: nat)
    requires a <= LAST_NONCE && b <= LAST_NONCE && NonceBytes(chacha, a) == NonceBytes(chacha, b)
    ensures a == b
  {
    assert NonceBytes(chacha, a)[4..] == NonceBytes(chacha, b)[4..];
    if !chacha {
      assert NonceBytes(chacha, a)[4..] == Reversed(LeBytes(a, 8)) && NonceBytes(chacha, b)[4..] == Reversed(LeBytes(b, 8));
      ReversedInjective(LeBytes(a, 8), LeBytes(b, 8));
    } else {
      assert NonceBytes(chacha, a)[4..] == LeBytes(a, 8) && NonceBytes(chacha, b)[4..] == LeBytes(b, 8);
    }
    assert Power256(2) == 0x1_0000 && Power256(4) == 0x1_0000_0000 && Power256(6) == 0x1_0000_0000_0000;
    assert Power256(8) == LAST_NONCE + 1;
    LeInjective(a, b, 8);
  }

  // --- Frames ---

  function Frame(message: seq<byte>): seq<byte>
    requires |message| <= MAX_MESSAGE
  {
    [(|message| / 256) as byte, (|message| % 256) as byte] + message
  }

  /** Plaintexts short enough to be sealed into one message each. */
  predicate Short(parts: seq<seq<byte>>) {
    forall i | 0 <= i < |parts| :: |parts[i]| <= MAX_PLAINTEXT
  }

  /** The frames of `parts`, sealed under the nonces from `nonce` on. */
  ghost function Frames(seal: (nat, seq<byte>) -> seq<byte>, nonce: nat, parts: seq<seq<byte>>): seq<byte>
    requires Tagged(seal) && Short(parts)
    decreases |parts|
  {
    if parts == [] then [] else Frame(seal(nonce, parts[0])) + Frames(seal, nonce + 1, parts[1..])
  }

  lemma {:induction false} FramesLast(seal: (nat, seq<byte>) -> seq<byte>, nonce: nat, parts: seq<seq<byte>>, part: seq<byte>)
    requires Tagged(seal) && Short(parts) && |part| <= MAX_PLAINTEXT
    ensures Frames(seal, nonce, parts + [part]) == Frames(seal, nonce, parts) + Frame(seal(nonce + |parts|, part))
    decreases |parts|
  {
    if parts == [] {
      assert [part][1..] == [] && parts + [part] == [part];
    } else {
      FramesLast(seal, nonce + 1, parts[1..], part);
      assert (parts + [part])[1..] == parts[1..] + [part];
      Associative(Frame(seal(nonce, parts[0])), Frames(seal, nonce + 1, parts[1..]), Frame(seal(nonce + |parts|, part)));
    }
  }

  // --- The sender ---

  /** `data` in pieces of at most MAX_PLAINTEXT bytes. */
  function Chunks(data: seq<byte>): (r: seq<seq<byte>>)
    ensures Short(r) && Concat(r) == data
    ensures forall i | 0 <= i < |r| :: r[i] != []
  {
    if data == [] then []
    else if |data| <= MAX_PLAINTEXT then [data]
    else
      var rest := Chunks(data[MAX_PLAINTEXT..]);
      assert ([data[..MAX_PLAINTEXT]] + rest)[1..] == rest;
      [data[..MAX_PLAINTEXT]] + rest
  }

  datatype Written = Done | NoNonceLeft | Broken

  class Sender {
    var nonce: nat
    const seal: (nat, seq<byte>) -> seq<byte>
    ghost const start: nat
    ghost var sent: seq<seq<byte>>  // the plaintexts sealed so far
    ghost var used: seq<nat>        // the nonces they were sealed under
    ghost var wire: seq<byte>       // what has been written to the connection
    ghost var broken: bool          // a write to the connection has failed

    ghost predicate Valid()
      reads this
    {
      && Tagged(seal) && Short(sent) && nonce == start + |sent| <= LAST_NONCE
      && |used| == |sent| && (forall i | 0 <= i < |used| :: used[i] == start + i)
      && (!broken ==> wire == Frames(seal, start, sent))
    }

    constructor (seal: (nat, seq<byte>) -> seq<byte>, nonce: nat)
      requires Tagged(seal) && nonce <= LAST_NONCE
      ensures Valid() && this.seal == seal && this.nonce == nonce && sent == [] && start == nonce && !broken
    {
      this.seal, this.nonce, start := seal, nonce, nonce;
      sent, wire, used, broken := [], [], [], false;
    }

    method NextNonce() returns (n: Option<nat>)
      requires Valid()
      modifies this`nonce
      ensures n == (if old(nonce) == LAST_NONCE then None else Some(old(nonce)))
      ensures nonce == (if n.None? then old(nonce) else old(nonce) + 1)
    {
      if nonce == LAST_NONCE {
        return None;
      }
      n := Some(nonce);
      nonce := nonce + 1;
    }

    /** Seal and send one message, over a connection that takes `accepts` more
        bytes and then fails. */
    method SendMessage(chunk: seq<byte>, accepts: nat) returns (r: Written, left: nat)
      requires Valid() && |chunk| <= MAX_PLAINTEXT
      modifies this
      ensures Valid() && (broken <==> old(broken) || r == Broken)
      ensures r == NoNonceLeft <==> old(nonce) == LAST_NONCE
      ensures sent == if r == NoNonceLeft then old(sent) else old(sent) + [chunk]
      ensures r == NoNonceLeft ==> nonce == old(nonce)
    {
      left := accepts;
      var n := NextNonce();
      if n.None? {
        return NoNonceLeft, left;
      }
      var frame := Frame(seal(n.value, chunk));
      FramesLast(seal, start, sent, chunk);
      sent, used := sent + [chunk], used + [n.value];
      if left < |frame| {
        wire, broken := wire + frame[..left], true;
        return Broken, 0;
      }
      wire, left := wire + frame, left - |frame|;
      r := Done;
    }

    /** `write_all`. */
    method WriteAll(data: seq<byte>, accepts: nat) returns (r: Written)
      requires Valid()
      modifies this
      ensures Valid() && (broken <==> old(broken) || r == Broken)
      ensures exists k | 0 <= k <= |Chunks(data)| :: sent == old(sent) + Chunks(data)[..k]
      ensures r == Done ==> sent == old(sent) + Chunks(data)
      ensures r == NoNonceLeft ==> nonce == LAST_NONCE
    {
      var chunks, i, left := Chunks(data), 0, accepts;
      while i < |chunks|
        invariant 0 <= i <= |chunks| && Valid() && sent == old(sent) + chunks[..i] && broken == old(broken)
      {
        r, left := SendMessage(chunks[i], left);
        assert chunks[..i + 1] == chunks[..i] + [chunks[i]];
        if r != Done {
          return;
        }
        i := i + 1;
      }
      assert chunks[..i] == chunks;
      r := Done;
    }
  }

  /** No nonce is used twice for one key, and the last is never used. */
  lemma NoncesUnique(s: Sender, chacha: bool, i: nat, j: nat)
    requires s.Valid() && i < |s.used| && j < |s.used|
    ensures s.used[i] < LAST_NONCE
    ensures i != j ==> s.used[i] != s.used[j] && NonceBytes(chacha, s.used[i]) != NonceBytes(chacha, s.used[j])
  {
    if NonceBytes(chacha, s.used[i]) == NonceBytes(chacha, s.used[j]) {
      NonceBytesDistinct(chacha, s.used[i], s.used[j]);
    }
  }

  // --- The receiver ---

  datatype Received = Received(
    nonce: nat,
    plain: seq<byte>,
    taken: nat,
    ciphertext: seq<byte>,
    ended: bool,
    failed: bool)

  datatype Error = NotAuthentic | UnexpectedEof | NoncesUsedUp
  datatype Outcome = Bytes(bytes: seq<byte>) | NeedMore | Failed(error: Error)

  /** How long the front message is: two bytes say, and then all of it must be there. */
  function WholeMessage(ciphertext: seq<byte>): Option<nat> {
    if |ciphertext| < 2 then None
    else
      var len := ciphertext[0] as nat * 256 + ciphertext[1] as nat;
      if 2 + len <= |ciphertext| then Some(len) else None
  }

  /** There are opened bytes left, a message to open, or an end to report. */
  predicate Readable(r: Received) {
    r.taken < |r.plain| || WholeMessage(r.ciphertext).Some? || r.ended || r.failed
  }

  /** What `next` does after its check of `failed`, message by message. */
  function Decode(r: Received, peer: Peer, max: nat): (Received, Outcome)
    decreases |r.ciphertext|
  {
    if r.taken < |r.plain| then
      var end := if r.taken + max < |r.plain| then r.taken + max else |r.plain|;
      (r.(taken := end), Bytes(r.plain[r.taken..end]))
    else
      var whole := WholeMessage(r.ciphertext);
      if whole.None? then
        (r, if !r.ended then NeedMore else if r.ciphertext == [] then Bytes([]) else Failed(UnexpectedEof))
      else
        var len := whole.value;
        var r1 := r.(ciphertext := r.ciphertext[2 + len..]);
        if r.nonce == LAST_NONCE then (r1, Failed(NoncesUsedUp))
        else
          var result := Open(peer, r.nonce, r.ciphertext[2..2 + len]);
          if result.None? then (r1.(nonce := r.nonce + 1, failed := true), Failed(NotAuthentic))
          else Decode(r1.(nonce := r.nonce + 1, plain := result.value, taken := 0), peer, max)
  }

  function Next(r: Received, peer: Peer, max: nat): (Received, Outcome) {
    if r.failed then (r, Failed(NotAuthentic)) else Decode(r, peer, max)
  }

  function Arrive(r: Received, bytes: seq<byte>): Received {
    r.(ciphertext := r.ciphertext + bytes, ended := r.ended || bytes == [])
  }

  function Fresh(nonce: nat): Received {
    Received(nonce, [], 0, [], false, false)
  }

  class Receiver {
    var nonce: nat
    var plain: seq<byte>
    var taken: nat
    var ciphertext: seq<byte>
    var ended: bool
    var failed: bool

    function View(): Received
      reads this
    {
      Received(nonce, plain, taken, ciphertext, ended, failed)
    }

    constructor (nonce: nat)
      ensures View() == Fresh(nonce)
    {
      this.nonce, plain, taken, ciphertext, ended, failed := nonce, [], 0, [], false, false;
    }

    method Take(max: nat) returns (r: Option<seq<byte>>)
      modifies this`taken
      ensures old(taken) >= |plain| ==> r == None && taken == old(taken)
      ensures old(taken) < |plain| ==>
                && taken == (if old(taken) + max < |plain| then old(taken) + max else |plain|)
                && r == Some(plain[old(taken)..taken])
    {
      if taken >= |plain| {
        return None;
      }
      var start := taken;
      var end := if start + max < |plain| then start + max else |plain|;
      taken := end;
      r := Some(plain[start..end]);
    }

    /** `receive_more`: a read of the connection that returned `got`. */
    method ReceiveMore(got: seq<byte>)
      modifies this`ciphertext, this`ended
      ensures View() == Arrive(old(View()), got)
    {
      ciphertext := ciphertext + got;
      ended := ended || |got| == 0;
    }

    method NextPlain(max: nat, peer: Peer) returns (o: Outcome)
      modifies this
      ensures (View(), o) == Next(old(View()), peer, max)
    {
      if failed {
        return Failed(NotAuthentic);
      }
      while true
        invariant Decode(View(), peer, max) == Decode(old(View()), peer, max)
        decreases |ciphertext|
      {
        var bytes := Take(max);
        if bytes.Some? {
          return Bytes(bytes.value);
        }
        var whole := WholeMessage(ciphertext);
        if whole.None? {
          if !ended {
            return NeedMore;
          }
          if |ciphertext| == 0 {
            return Bytes([]);
          }
          return Failed(UnexpectedEof);
        }
        var refused := OpenFront(whole.value, peer, max);
        if refused.Some? {
          return Failed(refused.value);
        }
      }
    }

    /** Take the message at the front off and open it, unless that fails. */
    method OpenFront(len: nat, peer: Peer, ghost max: nat) returns (e: Option<Error>)
      requires taken >= |plain| && WholeMessage(ciphertext) == Some(len)
      modifies this
      ensures e.None? ==> Decode(View(), peer, max) == Decode(old(View()), peer, max) && |ciphertext| < |old(ciphertext)|
      ensures e.Some? ==> (View(), Failed(e.value)) == Decode(old(View()), peer, max)
    {
      var message := ciphertext[2..2 + len];
      ciphertext := ciphertext[2 + len..];
      if nonce == LAST_NONCE {
        return Some(NoncesUsedUp);
      }
      nonce := nonce + 1;
      var result := Open(peer, nonce - 1, message);
      if result.None? {
        failed := true;
        return Some(NotAuthentic);
      }
      plain, taken, e := result.value, 0, None;
    }
  }
}
