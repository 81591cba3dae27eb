/** Checksummed frames over an encrypted stream that arrives in pieces. */
module Framing {
  import opened Wrappers
  import opened Bits
  import opened Rc4

  const CHKSUM_KEY: byte := 0x5C
  const CHKSUM_MOD: nat := 30
  const MSGTYPE_MUL: nat := 3
  const HDR_LEN: nat := 6
  const SIZE_LIMIT: nat := 0x1_0000_0000

  const KEY_C2S: seq<byte> := [0xDE, 0x31, 0xB5, 0x19, 0x7A, 0xF8, 0x04, 0x2C]
  const KEY_S2C: seq<byte> := [0x5A, 0xB8, 0x62, 0xFC, 0x15, 0x09, 0x7D, 0x3E]

  datatype Frame = Frame(mtype: nat, body: seq<byte>)

  /** A frame whose type is one byte and whose size is four. */
  predicate Fits(f: Frame) {
    f.mtype < 256 && |f.body| < SIZE_LIMIT
  }

  predicate AllFit(fs: seq<Frame>) {
    forall k :: 0 <= k < |fs| ==> Fits(fs[k])
  }

  function Chksum(mtype: nat, size: nat): byte {
    Mask(CHKSUM_KEY, (MSGTYPE_MUL * mtype + size) % CHKSUM_MOD)
  }

  lemma MaskCommutes(a: byte, b: byte)
    ensures Mask(a, b) == Mask(b, a)
  {
    XorCommutes(a, b);
  }

  /** WHAT THE CHECKSUM TELLS APART: two headers have the same one exactly when three times the
      type plus the size is the same, but for multiples of thirty. */
  lemma ChksumTells(t: nat, n: nat, t': nat, n': nat)
    ensures Chksum(t, n) == Chksum(t', n') <==> (3 * t + n) % 30 == (3 * t' + n') % 30
  {
    var x: byte, y: byte := (MSGTYPE_MUL * t + n) % CHKSUM_MOD, (MSGTYPE_MUL * t' + n') % CHKSUM_MOD;
    MaskCommutes(CHKSUM_KEY, x);
    MaskCommutes(CHKSUM_KEY, y);
    MaskTwice(x, CHKSUM_KEY);
    MaskTwice(y, CHKSUM_KEY);
    hide Mask;
  }

  function BigEndian(n: nat): (bs: seq<byte>)
    ensures |bs| == 4
  {
    [Low(n / 0x100_0000), Low(n / 0x1_0000), Low(n / 0x100), Low(n)]
  }

  function FromBigEndian(bs: seq<byte>): nat
    requires |bs| == 4
  {
    Joined(Joined(Joined(bs[0], bs[1]), bs[2]), bs[3])
  }

  function Joined(high: nat, low: nat): nat { high * 256 + low }

  lemma SizeComesBack(n: nat)
    requires n < SIZE_LIMIT
    ensures FromBigEndian(BigEndian(n)) == n
  {
    var d, c, b := n / 0x100_0000, n / 0x1_0000, n / 0x100;
    assert d < 256;
    JoinedSplit(c, d);
    JoinedSplit(b, c);
    JoinedSplit(n, b);
    Whole(d);
    hide Joined, Low;
  }

  lemma JoinedSplit(n: nat, high: nat)
    requires high == n / 256
    ensures Joined(high, Low(n)) == n
  {
  }

  lemma Whole(n: nat)
    requires n < 256
    ensures Low(n) == n
  {
  }

  datatype Overflow = TypeOverflow | SizeOverflow

  /** The six bytes in front of a body; a type or a size that does not fit raises. */
  function MakeHeader(mtype: nat, size: nat): (h: Result<seq<byte>, Overflow>)
    ensures h.Ok? ==> |h.value| == HDR_LEN
    ensures h.Ok? <==> mtype < 256 && size < SIZE_LIMIT
  {
    if mtype >= 256 then Err(TypeOverflow)
    else if size >= SIZE_LIMIT then Err(SizeOverflow)
    else Ok([Chksum(mtype, size), mtype] + BigEndian(size))
  }

  function Bytes(f: Frame): seq<byte>
    requires Fits(f)
  {
    MakeHeader(f.mtype, |f.body|).value + f.body
  }

  function Wire(fs: seq<Frame>): seq<byte>
    requires AllFit(fs)
  {
    if fs == [] then [] else Bytes(fs[0]) + Wire(fs[1..])
  }

  // -- receiving --------------------------------------------------------------------

  /** How a connection ended: between frames, on a bad checksum, or inside a body. */
  datatype End = Closed | BadChecksum | Cut

  datatype Received = Received(frames: seq<Frame>, end: End)

  function SizeIn(hdr: seq<byte>): nat
    requires |hdr| == HDR_LEN
  {
    FromBigEndian(hdr[2..6])
  }

  /** One pass of the receive loop: a frame, or the end. */
  datatype Next = Stop(end: End) | More(frame: Frame, c: State, rest: seq<byte>)

  /** Header and body are decrypted apart, and an empty body not at all. */
  function Opened(c: State, bs: seq<byte>): (n: Next)
    requires Indexed(c)
    ensures n.More? ==> Indexed(n.c) && |n.rest| < |bs|
  {
    if |bs| < HDR_LEN then Stop(Closed)
    else
      var hdr := Masked(c, bs[..HDR_LEN]);
      var rest := bs[HDR_LEN..];
      var size := SizeIn(hdr);
      var c1 := Skip(c, HDR_LEN);
      if hdr[0] != Chksum(hdr[1], size) then Stop(BadChecksum)
      else if |rest| < size then Stop(Cut)
      else More(Frame(hdr[1], Masked(c1, rest[..size])), Skip(c1, size), rest[size..])
  }

  /** What a receiver makes of a stream that ends. */
  function Parsed(c: State, bs: seq<byte>): Received
    requires Indexed(c)
    decreases |bs|
  {
    match Opened(c, bs)
    case Stop(end) => Received([], end)
    case More(f, c', rest) =>
      var r := Parsed(c', rest);
      r.(frames := [f] + r.frames)
  }

  lemma HeaderRead(f: Frame)
    requires Fits(f)
    ensures var h := MakeHeader(f.mtype, |f.body|).value;
            SizeIn(h) == |f.body| && h[1] == f.mtype && h[0] == Chksum(h[1], SizeIn(h))
  {
    var h := MakeHeader(f.mtype, |f.body|).value;
    assert h[2..6] == BigEndian(|f.body|);
    SizeComesBack(|f.body|);
  }

  /** Of a stream's first six bytes, whatever follows: the header that was sent. */
  lemma HeaderUnmasked(c: State, f: Frame, more: seq<byte>)
    requires Indexed(c) && Fits(f)
    ensures var h := MakeHeader(f.mtype, |f.body|).value;
            |Masked(c, Bytes(f) + more)| >= HDR_LEN && Masked(c, Masked(c, Bytes(f) + more)[..HDR_LEN]) == h
  {
    var h := MakeHeader(f.mtype, |f.body|).value;
    hide MakeHeader, Mask, KeyByte, Step;
    assert Bytes(f) + more == h + (f.body + more);
    MaskingSplits(c, h, f.body + more);
    assert Masked(c, Bytes(f) + more)[..HDR_LEN] == Masked(c, h);
    MaskingTwice(c, h);
  }

  /** And of what follows the header: the body, then the rest from a later state. */
  lemma BodyUnmasked(c: State, f: Frame, more: seq<byte>)
    requires Indexed(c) && Fits(f)
    ensures var n := |f.body|; var rest := Masked(c, Bytes(f) + more)[HDR_LEN..]; var c1 := Skip(c, HDR_LEN);
            && |rest| == n + |more|
            && Masked(c1, rest[..n]) == f.body
            && rest[n..] == Masked(Skip(c1, n), more)
  {
    var n := |f.body|;
    var h := MakeHeader(f.mtype, n).value;
    hide MakeHeader, Mask, KeyByte, Step;
    var c1 := Skip(c, HDR_LEN);
    assert Bytes(f) + more == h + (f.body + more);
    MaskingSplits(c, h, f.body + more);
    var rest := Masked(c, Bytes(f) + more)[HDR_LEN..];
    assert rest == Masked(c1, f.body + more);
    MaskingSplits(c1, f.body, more);
    MaskingTwice(c1, f.body);
    assert rest[..n] == Masked(c1, f.body);
    assert rest[n..] == Masked(Skip(c1, n), more);
  }

  function Past(c: State, f: Frame): (c': State)
    requires Indexed(c)
    ensures Indexed(c')
  {
    Skip(Skip(c, HDR_LEN), |f.body|)
  }

  lemma BytesLong(f: Frame)
    requires Fits(f)
    ensures |Bytes(f)| == HDR_LEN + |f.body|
  {
  }

  /** The header of a stream of which `k` bytes arrive, header included. */
  lemma OpensHeader(c: State, f: Frame, more: seq<byte>, k: nat)
    requires Indexed(c) && Fits(f) && HDR_LEN <= k <= |Bytes(f) + more|
    ensures var hdr := Masked(c, Masked(c, Bytes(f) + more)[..k][..HDR_LEN]);
            SizeIn(hdr) == |f.body| && hdr[1] == f.mtype && hdr[0] == Chksum(hdr[1], SizeIn(hdr))
  {
    HeaderRead(f);
    HeaderUnmasked(c, f, more);
    hide Masked, SizeIn, Chksum, Bytes, MakeHeader;
    FirstSix(Masked(c, Bytes(f) + more), k);
  }

  lemma FirstSix(bs: seq<byte>, k: nat)
    requires HDR_LEN <= k <= |bs|
    ensures bs[..k][..HDR_LEN] == bs[..HDR_LEN]
  {
  }

  lemma OpensPart(c: State, f: Frame, more: seq<byte>, k: nat)
    requires Indexed(c) && Fits(f) && k <= |Bytes(f) + more| && k < |Bytes(f)|
    ensures var n := Opened(c, Masked(c, Bytes(f) + more)[..k]);
            n == Stop(Closed) || n == Stop(Cut)
  {
    BytesLong(f);
    if k >= HDR_LEN { OpensHeader(c, f, more, k); }
    hide Masked, SizeIn, Chksum, Bytes;
  }

  lemma OpensWhole(c: State, f: Frame, more: seq<byte>, k: nat)
    requires Indexed(c) && Fits(f) && |Bytes(f)| <= k <= |Bytes(f) + more|
    ensures Opened(c, Masked(c, Bytes(f) + more)[..k]) == More(f, Past(c, f), Masked(Past(c, f), more)[..k - |Bytes(f)|])
  {
    var sent := Masked(c, Bytes(f) + more);
    var n := |f.body|;
    BytesLong(f);
    OpensHeader(c, f, more, k);
    BodyUnmasked(c, f, more);
    hide Masked, Skip, SizeIn, Chksum, Bytes;
    Slices(sent, k, n);
  }

  lemma Slices(bs: seq<byte>, k: nat, n: nat)
    requires HDR_LEN + n <= k <= |bs|
    ensures bs[..k][HDR_LEN..][..n] == bs[HDR_LEN..][..n]
    ensures bs[..k][HDR_LEN..][n..] == bs[HDR_LEN..][n..][..k - HDR_LEN - n]
  {
  }

  ghost predicate Starts(fs: seq<Frame>, gs: seq<Frame>) {
    |fs| <= |gs| && gs[..|fs|] == fs
  }

  /** A STREAM CUT ANYWHERE gives the frames that came through whole, in order, and never a
      bad checksum; uncut, it gives all of them. */
  lemma {:induction false} CutStream(c: State, fs: seq<Frame>, k: nat)
    requires Indexed(c) && AllFit(fs) && k <= |Wire(fs)|
    ensures |Masked(c, Wire(fs))| == |Wire(fs)|
    ensures var r := Parsed(c, Masked(c, Wire(fs))[..k]);
            && Starts(r.frames, fs) && r.end != BadChecksum
            && (k == |Wire(fs)| ==> r == Received(fs, Closed))
    decreases |fs|
  {
    hide Masked, Skip, Opened, Bytes, Past, Fits;
    if fs == [] {
      OpensNothing(c);
    } else {
      var f, gs := fs[0], fs[1..];
      if k < |Bytes(f)| {
        OpensPart(c, f, Wire(gs), k);
      } else {
        OpensWhole(c, f, Wire(gs), k);
        CutStream(Past(c, f), gs, k - |Bytes(f)|);
        assert fs == [f] + gs;
      }
    }
  }

  lemma OpensNothing(c: State)
    requires Indexed(c)
    ensures Opened(c, []) == Stop(Closed)
  {
  }

  /** FRAMES COME BACK: a receiver with the sender's key accepts every checksum and recovers
      every frame. */
  lemma FramesComeBack(c: State, fs: seq<Frame>)
    requires Indexed(c) && AllFit(fs)
    ensures Parsed(c, Masked(c, Wire(fs))) == Received(fs, Closed)
  {
    CutStream(c, fs, |Wire(fs)|);
    assert Masked(c, Wire(fs))[..|Wire(fs)|] == Masked(c, Wire(fs));
  }

  // -- two senders ------------------------------------------------------------------

  /** `m` is the frames of two threads in some order the lock allows: each thread's own in order. */
  ghost predicate Merges(a: seq<Frame>, b: seq<Frame>, m: seq<Frame>)
    decreases |m|
  {
    if m == [] then a == [] && b == []
    else
      || (a != [] && m[0] == a[0] && Merges(a[1..], b, m[1..]))
      || (b != [] && m[0] == b[0] && Merges(a, b[1..], m[1..]))
  }

  /** What is on the wire after each frame in turn is encrypted and written under the lock. */
  function Locked(c: State, fs: seq<Frame>): seq<byte>
    requires Indexed(c) && AllFit(fs)
    decreases |fs|
  {
    if fs == [] then []
    else Masked(c, Bytes(fs[0])) + Locked(Skip(c, |Bytes(fs[0])|), fs[1..])
  }

  lemma {:induction false} LockedIsMasked(c: State, fs: seq<Frame>)
    requires Indexed(c) && AllFit(fs)
    ensures Locked(c, fs) == Masked(c, Wire(fs))
    decreases |fs|
  {
    if fs != [] {
      LockedIsMasked(Skip(c, |Bytes(fs[0])|), fs[1..]);
      MaskingSplits(c, Bytes(fs[0]), Wire(fs[1..]));
    }
  }

  lemma {:induction false} MergesFit(a: seq<Frame>, b: seq<Frame>, m: seq<Frame>)
    requires AllFit(a) && AllFit(b) && Merges(a, b, m)
    ensures AllFit(m) && |m| == |a| + |b|
    decreases |m|
  {
    if m != [] {
      if a != [] && m[0] == a[0] && Merges(a[1..], b, m[1..]) {
        MergesFit(a[1..], b, m[1..]);
      } else {
        MergesFit(a, b[1..], m[1..]);
      }
      assert m == [m[0]] + m[1..];
    }
  }

  /** TWO SENDERS, ONE KEYSTREAM: in whatever order the lock lets two threads through, the
      receiver recovers exactly that merge of their frames. */
  lemma TwoSenders(key: seq<byte>, a: seq<Frame>, b: seq<Frame>, m: seq<Frame>)
    requires key != [] && AllFit(a) && AllFit(b) && Merges(a, b, m)
    ensures AllFit(m) && Parsed(Fresh(key), Locked(Fresh(key), m)) == Received(m, Closed)
  {
    MergesFit(a, b, m);
    LockedIsMasked(Fresh(key), m);
    FramesComeBack(Fresh(key), m);
  }

  // -- the socket -------------------------------------------------------------------

  /** A connection: bytes still to be read, and bytes written. */
  class Socket {
    var pending: seq<byte>
    var written: seq<byte>

    constructor (incoming: seq<byte>)
      ensures pending == incoming && written == []
    {
      pending, written := incoming, [];
    }

    /** Some of what is pending, as much as arrived together; nothing only at the end. */
    method Recv(n: nat) returns (d: seq<byte>)
      requires n > 0
      modifies this`pending
      ensures |d| <= n && old(pending) == d + pending
      ensures d == [] <==> old(pending) == []
    {
      if pending == [] { return []; }
      var k: nat :| 1 <= k <= n && k <= |pending|;
      d := pending[..k];
      pending := pending[k..];
    }

    /** Exactly `n` bytes, however they were split on the way; None if the peer closed first. */
    method RecvExact(n: nat) returns (r: Option<seq<byte>>)
      modifies this`pending
      ensures |old(pending)| >= n ==> r == Some(old(pending)[..n]) && pending == old(pending)[n..]
      ensures |old(pending)| < n ==> r == None && pending == []
    {
      ghost var all := pending;
      var buf: seq<byte> := [];
      while |buf| < n
        invariant |buf| <= n && all == buf + pending
      {
        var d := Recv(n - |buf|);
        if d == [] { return None; }
        buf := buf + d;
      }
      r := Some(buf);
    }
  }

  /** Encrypt a frame and write it, under the lock; one that does not fit raises and leaves
      cipher and wire as they were. */
  method Send(conn: Socket, s2c: Cipher, f: Frame) returns (ok: bool)
    requires s2c.Valid()
    modifies conn`written, s2c, s2c.table
    ensures s2c.Valid() && ok == Fits(f)
    ensures ok ==> conn.written == old(conn.written) + Masked(old(s2c.View()), Bytes(f))
    ensures ok ==> s2c.View() == Skip(old(s2c.View()), |Bytes(f)|)
    ensures !ok ==> conn.written == old(conn.written) && s2c.View() == old(s2c.View())
  {
    var header := MakeHeader(f.mtype, |f.body|);
    if header.Err? { return false; }
    var out := s2c.Crypt(header.value + f.body);
    conn.written := conn.written + out;
    ok := true;
  }

  /** What a send puts on the wire: a message that must go ahead, if there is one, and then the
      frame itself; one that does not fit raises, and stops what comes behind it. */
  function GoesOut(ahead: Option<Frame>, f: Frame): (fs: seq<Frame>)
    ensures AllFit(fs)
  {
    var mine := if Fits(f) then [f] else [];
    match ahead
    case None => mine
    case Some(a) => if Fits(a) then [a] + mine else []
  }

  lemma WireOne(f: Frame)
    requires Fits(f)
    ensures Wire([f]) == Bytes(f)
  {
    hide Bytes;
    assert [f][1..] == [];
  }

  lemma WireNone(c: State)
    requires Indexed(c)
    ensures Wire([]) == [] && Masked(c, []) == [] && Skip(c, 0) == c
  {
  }

  lemma WireTwo(c: State, a: Frame, f: Frame)
    requires Fits(a) && Fits(f) && Indexed(c)
    ensures var c' := Skip(c, |Bytes(a)|);
            && Masked(c, Wire([a] + [f])) == Masked(c, Bytes(a)) + Masked(c', Bytes(f))
            && Skip(c, |Wire([a] + [f])|) == Skip(c', |Bytes(f)|)
  {
    WireOne(a);
    WireOne(f);
    hide Bytes, Masked, Skip;
    assert ([a] + [f])[1..] == [f];
    assert Wire([a] + [f]) == Bytes(a) + Bytes(f);
    MaskingSplits(c, Bytes(a), Bytes(f));
    SkipAdds(c, |Bytes(a)|, |Bytes(f)|);
  }

  /** A send with what has to go ahead of it, such as the counts that precede a backpack push. */
  method SendBehind(conn: Socket, s2c: Cipher, ahead: Option<Frame>, f: Frame) returns (ok: bool)
    requires s2c.Valid()
    modifies conn`written, s2c, s2c.table
    ensures s2c.Valid() && ok == (Fits(f) && (ahead.Some? ==> Fits(ahead.value)))
    ensures conn.written == old(conn.written) + Masked(old(s2c.View()), Wire(GoesOut(ahead, f)))
    ensures s2c.View() == Skip(old(s2c.View()), |Wire(GoesOut(ahead, f))|)
  {
    hide Masked, Skip, Bytes, Wire, Fits, Cipher.View, Cipher.Valid;
    ghost var c := s2c.View();
    WireNone(c);
    if Fits(f) { WireOne(f); }
    if ahead.Some? {
      if Fits(ahead.value) { WireOne(ahead.value); }
      assert [ahead.value] + [] == [ahead.value];
      if Fits(ahead.value) && Fits(f) { WireTwo(c, ahead.value, f); }
      var sent := Send(conn, s2c, ahead.value);
      if !sent { return false; }
    }
    ok := Send(conn, s2c, f);
  }

  /** One pass of the receive loop. */
  method ReceiveFrame(conn: Socket, c2s: Cipher) returns (f: Option<Frame>, end: End)
    requires c2s.Valid()
    modifies conn`pending, c2s, c2s.table
    ensures c2s.Valid()
    ensures match Opened(old(c2s.View()), old(conn.pending))
            case Stop(e) => f == None && end == e
            case More(g, c, rest) => f == Some(g) && c2s.View() == c && conn.pending == rest
  {
    hide Masked, Skip, SizeIn, Chksum;
    ghost var c, bs := c2s.View(), conn.pending;
    var raw := conn.RecvExact(HDR_LEN);
    if raw.None? { return None, Closed; }
    var hdr := c2s.Crypt(raw.value);
    var size := SizeIn(hdr);
    if hdr[0] != Chksum(hdr[1], size) { return None, BadChecksum; }
    var body: seq<byte> := [];
    if size > 0 {
      var sealed := conn.RecvExact(size);
      if sealed.None? { return None, Cut; }
      body := c2s.Crypt(sealed.value);
    } else {
      NothingMasked(c2s.View());
    }
    f, end := Some(Frame(hdr[1], body)), Closed;
  }

  lemma NothingMasked(c: State)
    requires Indexed(c)
    ensures Masked(c, []) == [] && Skip(c, 0) == c
  {
  }

  /** Read frames until the connection ends, one way or another. */
  method Receive(conn: Socket, c2s: Cipher) returns (r: Received)
    requires c2s.Valid()
    modifies conn`pending, c2s, c2s.table
    ensures r == Parsed(old(c2s.View()), old(conn.pending))
    ensures c2s.Valid()
  {
    hide Opened;
    ghost var all := Parsed(c2s.View(), conn.pending);
    var frames: seq<Frame> := [];
    while true
      invariant c2s.Valid()
      invariant all.end == Parsed(c2s.View(), conn.pending).end
      invariant all.frames == frames + Parsed(c2s.View(), conn.pending).frames
      decreases |conn.pending|
    {
      var f, end := ReceiveFrame(conn, c2s);
      if f.None? { return Received(frames, end); }
      frames := frames + [f.value];
    }
  }
}
