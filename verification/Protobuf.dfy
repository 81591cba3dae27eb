/** Protocol Buffers on the wire: varints, zigzag, and the fields of a message. */
module Protobuf {
  import opened Wrappers
  import opened Bits

  /** What the reader raises: it ran off the end, met a wire type it does not know, or was
      given a value of the wrong kind or no value at all. */
  datatype Fault = Truncated | BadWireType(wt: nat) | MissingField | WrongKind

  datatype Value = Num(n: nat) | Raw(bytes: seq<byte>)

  /** A field as it stands in a message. */
  datatype Field = Field(fno: nat, value: Value)

  // -- varints ----------------------------------------------------------------------

  /** Base 128, low digit first; every digit but the last has its top bit set. */
  function EncVarint(v: nat): (bs: seq<byte>)
    ensures |bs| >= 1
  {
    if v < 128 then [v] else [v % 128 + 128] + EncVarint(v / 128)
  }

  datatype Read = Read(value: nat, next: nat)

  /** The number at the front of `bs`, and how many bytes it takes. */
  function DecVarint(bs: seq<byte>): (r: Option<Read>)
    ensures r.Some? ==> 1 <= r.value.next <= |bs|
  {
    if bs == [] then None
    else if bs[0] < 128 then Some(Read(bs[0], 1))
    else match DecVarint(bs[1..])
         case None => None
         case Some(r) => Some(Read(bs[0] % 128 + 128 * r.value, r.next + 1))
  }

  lemma Digit(v: nat)
    ensures (v % 128 + 128) % 128 + 128 * (v / 128) == v
  {
  }

  lemma ReadsOn(d: byte, rest: seq<byte>)
    requires d >= 128 && DecVarint(rest).Some?
    ensures DecVarint([d] + rest) == Some(Read(d % 128 + 128 * DecVarint(rest).value.value, DecVarint(rest).value.next + 1))
  {
    hide DecVarint;
    assert ([d] + rest)[1..] == rest;
    MoreDigits([d] + rest);
  }

  lemma MoreDigits(bs: seq<byte>)
    requires bs != [] && bs[0] >= 128
    ensures DecVarint(bs) == match DecVarint(bs[1..]) case None => None case Some(r) => Some(Read(bs[0] % 128 + 128 * r.value, r.next + 1))
  {
  }

  /** VARINTS ARE PREFIX CODES: whatever follows, every number reads back as itself and the
      reader stops at its end. */
  lemma {:induction false} VarintReadsBack(v: nat, more: seq<byte>)
    ensures DecVarint(EncVarint(v) + more) == Some(Read(v, |EncVarint(v)|))
  {
    if v < 128 {
      assert (EncVarint(v) + more)[0] == v;
    } else {
      VarintReadsBack(v / 128, more);
      assert EncVarint(v) + more == [v % 128 + 128] + (EncVarint(v / 128) + more);
      ReadsOn(v % 128 + 128, EncVarint(v / 128) + more);
      Digit(v);
    }
  }

  /** A varint cut short anywhere is not a number. */
  lemma {:induction false} VarintCut(v: nat, k: nat)
    requires k < |EncVarint(v)|
    ensures DecVarint(EncVarint(v)[..k]) == None
  {
    if v >= 128 && k > 0 {
      VarintCut(v / 128, k - 1);
      assert EncVarint(v)[..k][1..] == EncVarint(v / 128)[..k - 1];
    }
  }

  method PbEncVarint(v: nat) returns (out: seq<byte>)
    ensures out == EncVarint(v)
  {
    var rest := v;
    out := [];
    while true
      invariant EncVarint(v) == out + EncVarint(rest)
      decreases rest
    {
      var b := rest % 128;
      rest := rest / 128;
      out := out + [if rest > 0 then b + 128 else b];
      if rest == 0 { return; }
    }
  }

  /** `x` moved up by `s` bits. */
  function Shl(x: nat, s: nat): nat { x * Pow2(s) }

  /** Read the varint at `p`: seven bits a byte, each shifted above the last. */
  method PbVarint(buf: seq<byte>, p: nat) returns (r: Result<Read, Fault>)
    requires p <= |buf|
    ensures r == At(p, DecVarint(buf[p..]))
  {
    hide Or, Shl, Pow2;
    var acc: nat, s: nat, q: nat := 0, 0, p;
    assert acc < Pow2(s) by { Pow2None(); }
    ghost var whole := DecVarint(buf[p..]);
    NothingAbove(whole);
    while true
      invariant p <= q <= |buf| && acc < Pow2(s)
      invariant whole == Above(acc, s, q - p, DecVarint(buf[q..]))
      decreases |buf| - q
    {
      if q >= |buf| { return Err(Truncated); }
      var b := buf[q];
      q := q + 1;
      assert buf[q - 1..][1..] == buf[q..];
      Shifted(acc, b % 128, s);
      AboveStep(acc, s, q - 1 - p, buf[q - 1..]);
      acc := Or(acc, Shl(b % 128, s));
      if b < 128 { return Ok(Read(acc, q)); }
      s := s + 7;
    }
  }

  /** A reading of what is at `p`, as a reading of the whole buffer. */
  function At(p: nat, d: Option<Read>): Result<Read, Fault> {
    match d
    case None => Err(Truncated)
    case Some(d) => Ok(Read(d.value, p + d.next))
  }

  /** The whole reading, when `acc` has been read from `n` bytes and `d` is still to come. */
  function Above(acc: nat, s: nat, n: nat, d: Option<Read>): Option<Read> {
    match d
    case None => None
    case Some(d) => Some(Read(acc + Shl(d.value, s), n + d.next))
  }

  lemma NothingAbove(d: Option<Read>)
    ensures Above(0, 0, 0, d) == d
  {
  }

  lemma Pow2None()
    ensures Pow2(0) == 1
  {
  }

  lemma AboveStep(acc: nat, s: nat, n: nat, bs: seq<byte>)
    requires bs != []
    ensures var acc' := acc + Shl(bs[0] % 128, s);
            Above(acc, s, n, DecVarint(bs)) ==
              if bs[0] < 128 then Some(Read(acc', n + 1)) else Above(acc', s + 7, n + 1, DecVarint(bs[1..]))
  {
    hide Shl;
    if bs[0] < 128 {
      assert bs[0] % 128 == bs[0];
    } else {
      AboveMore(acc, s, n, bs[0] % 128, DecVarint(bs[1..]));
    }
  }

  lemma AboveMore(acc: nat, s: nat, n: nat, b: nat, rest: Option<Read>)
    ensures Above(acc + Shl(b, s), s + 7, n + 1, rest) ==
              Above(acc, s, n, if rest.None? then None else Some(Read(b + 128 * rest.value.value, rest.value.next + 1)))
  {
    if rest.Some? { Stacked(b, rest.value.value, s); }
    hide Shl;
  }

  lemma Pow2Seven(s: nat)
    ensures Pow2(s + 7) == 128 * Pow2(s)
  {
    assert Pow2(s + 2) == 4 * Pow2(s);
    assert Pow2(s + 4) == 4 * Pow2(s + 2);
    assert Pow2(s + 6) == 4 * Pow2(s + 4);
  }

  lemma Times(b: nat, most: nat, p: nat)
    requires b <= most
    ensures b * p <= most * p
  {
  }

  /** Seven more bits on top of `s` bits. */
  lemma Shifted(acc: nat, b: nat, s: nat)
    requires acc < Pow2(s) && b < 128
    ensures Or(acc, Shl(b, s)) == acc + Shl(b, s) < Pow2(s + 7)
  {
    OrAbove(acc, b, s);
    Pow2Seven(s);
    Times(b, 127, Pow2(s));
  }

  lemma Stacked(b: nat, rest: nat, s: nat)
    ensures Shl(b + 128 * rest, s) == Shl(b, s) + Shl(rest, s + 7)
  {
    Pow2Seven(s);
  }

  // -- zigzag -----------------------------------------------------------------------

  function Floor(a: int, b: nat): int
    requires b > 0
  {
    a / b
  }

  /** The sign moves to the low bit. */
  function Zigzag(v: int): nat {
    XorInt(2 * v, Floor(v, 0x8000_0000)) % 0x1_0000_0000
  }

  /** A 32-bit number read as signed. */
  function Signed(v: int): int {
    if v < 0x8000_0000 then v else v - 0x1_0000_0000
  }

  function ZigzagDecode(v: nat): int {
    XorInt(v / 2, -(v % 2))
  }

  lemma XorOfSign(a: int)
    ensures XorInt(a, 0) == a && XorInt(a, -1) == -1 - a
  {
    if a >= 0 { XorZero(a); } else { XorZero(-a - 1); }
  }

  /** ZIGZAG COMES BACK for every 32-bit number, signed or not: as the signed number. */
  lemma ZigzagComesBack(v: int)
    requires -0x8000_0000 <= v < 0x1_0000_0000
    ensures ZigzagDecode(Zigzag(Signed(v))) == Signed(v)
    ensures Signed(v) % 0x1_0000_0000 == v % 0x1_0000_0000
  {
    var w := Signed(v);
    XorOfSign(2 * w);
    assert Floor(w, 0x8000_0000) == if w < 0 then -1 else 0;
    var z := Zigzag(w);
    assert z == if w < 0 then -1 - 2 * w else 2 * w;
    XorOfSign(z / 2);
  }

  // -- fields -----------------------------------------------------------------------

  function FieldVarint(fno: nat, v: nat): seq<byte> {
    EncVarint(8 * fno) + EncVarint(v)
  }

  function FieldBytes(fno: nat, b: seq<byte>): seq<byte> {
    EncVarint(8 * fno + 2) + EncVarint(|b|) + b
  }

  function FieldZigzag(fno: nat, v: int): seq<byte> {
    FieldVarint(fno, Zigzag(Signed(v)))
  }

  function Print(f: Field): seq<byte> {
    match f.value
    case Num(n) => FieldVarint(f.fno, n)
    case Raw(b) => FieldBytes(f.fno, b)
  }

  function PrintAll(fs: seq<Field>): seq<byte> {
    if fs == [] then [] else Print(fs[0]) + PrintAll(fs[1..])
  }

  function Least(a: nat, b: nat): nat { if a <= b then a else b }

  /** The first `n` bytes, or as many as there are. */
  function Slice(bs: seq<byte>, n: nat): Read2 {
    Read2(Raw(bs[..Least(n, |bs|)]), bs[Least(n, |bs|)..])
  }

  /** A value and what is left behind it. */
  datatype Read2 = Read2(value: Value, rest: seq<byte>)

  /** The value of wire type `wt` at the front of `bs`. A length that overruns is cut off. */
  function ReadValue(wt: nat, bs: seq<byte>): (r: Result<Read2, Fault>)
    ensures r.Ok? ==> |r.value.rest| <= |bs|
  {
    if wt == 0 then
      match DecVarint(bs)
      case None => Err(Truncated)
      case Some(v) => Ok(Read2(Num(v.value), bs[v.next..]))
    else if wt == 2 then
      match DecVarint(bs)
      case None => Err(Truncated)
      case Some(n) => Ok(Slice(bs[n.next..], n.value))
    else if wt == 5 then Ok(Slice(bs, 4))
    else if wt == 1 then Ok(Slice(bs, 8))
    else Err(BadWireType(wt))
  }

  /** The fields of a message, in order. */
  function Fields(bs: seq<byte>): (r: Result<seq<Field>, Fault>)
    decreases |bs|
  {
    if bs == [] then Ok([])
    else match DecVarint(bs)
         case None => Err(Truncated)
         case Some(key) =>
           match ReadValue(key.value % 8, bs[key.next..])
           case Err(e) => Err(e)
           case Ok(v) =>
             match Fields(v.rest)
             case Err(e) => Err(e)
             case Ok(fs) => Ok([Field(key.value / 8, v.value)] + fs)
  }

  type Message = map<nat, seq<Value>>

  function Get(m: Message, fno: nat): seq<Value> {
    if fno in m then m[fno] else []
  }

  function Put(m: Message, f: Field): Message {
    m[f.fno := Get(m, f.fno) + [f.value]]
  }

  /** Every field's values, in the order they came. */
  function Gather(m: Message, fs: seq<Field>): Message
    decreases |fs|
  {
    if fs == [] then m else Gather(Put(m, fs[0]), fs[1..])
  }

  function Parse(bs: seq<byte>): Result<Message, Fault> {
    match Fields(bs)
    case Err(e) => Err(e)
    case Ok(fs) => Ok(Gather(map[], fs))
  }

  /** The values of one field, in order. */
  function ValuesOf(fs: seq<Field>, fno: nat): seq<Value>
    decreases |fs|
  {
    if fs == [] then []
    else (if fs[0].fno == fno then [fs[0].value] else []) + ValuesOf(fs[1..], fno)
  }

  lemma {:induction false} GatherGets(m: Message, fs: seq<Field>, fno: nat)
    ensures Get(Gather(m, fs), fno) == Get(m, fno) + ValuesOf(fs, fno)
    decreases |fs|
  {
    hide Get, Put;
    if fs != [] {
      GatherGets(Put(m, fs[0]), fs[1..], fno);
      PutGets(m, fs[0], fno);
      Assoc(Get(m, fno), if fs[0].fno == fno then [fs[0].value] else [], ValuesOf(fs[1..], fno));
    }
  }

  lemma PutGets(m: Message, f: Field, fno: nat)
    ensures Get(Put(m, f), fno) == Get(m, fno) + if f.fno == fno then [f.value] else []
  {
  }

  lemma Assoc(a: seq<Value>, b: seq<Value>, c: seq<Value>)
    ensures (a + b) + c == a + (b + c)
  {
  }

  /** One printed field reads back, whatever follows it. */
  lemma FieldReadsBack(f: Field, more: seq<byte>)
    ensures var key := DecVarint(Print(f) + more);
            && key.Some? && key.value.value / 8 == f.fno
            && ReadValue(key.value.value % 8, (Print(f) + more)[key.value.next..]) == Ok(Read2(f.value, more))
  {
    match f.value
    case Num(n) => NumReadsBack(f.fno, n, more);
    case Raw(b) => RawReadsBack(f.fno, b, more);
  }

  lemma NumReadsBack(fno: nat, n: nat, more: seq<byte>)
    ensures var bs := FieldVarint(fno, n) + more; var key := DecVarint(bs);
            key == Some(Read(8 * fno, |EncVarint(8 * fno)|)) && ReadValue(0, bs[key.value.next..]) == Ok(Read2(Num(n), more))
  {
    var k, v := EncVarint(8 * fno), EncVarint(n);
    VarintReadsBack(8 * fno, v + more);
    VarintReadsBack(n, more);
    hide EncVarint, DecVarint;
    assert FieldVarint(fno, n) + more == k + (v + more);
    assert (k + (v + more))[|k|..] == v + more;
    assert (v + more)[|v|..] == more;
  }

  lemma RawReadsBack(fno: nat, b: seq<byte>, more: seq<byte>)
    ensures var bs := FieldBytes(fno, b) + more; var key := DecVarint(bs);
            key == Some(Read(8 * fno + 2, |EncVarint(8 * fno + 2)|)) && ReadValue(2, bs[key.value.next..]) == Ok(Read2(Raw(b), more))
  {
    var k, l := EncVarint(8 * fno + 2), EncVarint(|b|);
    VarintReadsBack(8 * fno + 2, l + (b + more));
    VarintReadsBack(|b|, b + more);
    hide EncVarint, DecVarint;
    assert FieldBytes(fno, b) + more == k + (l + (b + more));
    assert (k + (l + (b + more)))[|k|..] == l + (b + more);
    assert (l + (b + more))[|l|..] == b + more;
    assert (b + more)[..|b|] == b && (b + more)[|b|..] == more;
  }

  /** MESSAGES READ BACK: the fields printed, in order, with their values. */
  lemma {:induction false} FieldsReadBack(fs: seq<Field>)
    ensures Fields(PrintAll(fs)) == Ok(fs)
  {
    hide ReadValue, Print;
    if fs != [] {
      FieldsReadBack(fs[1..]);
      FieldReadsBack(fs[0], PrintAll(fs[1..]));
      assert fs == [fs[0]] + fs[1..];
    }
  }

  /** And by field number: each field's values, in order. */
  lemma ParseReadsBack(fs: seq<Field>, fno: nat)
    ensures Parse(PrintAll(fs)).Ok? && Get(Parse(PrintAll(fs)).value, fno) == ValuesOf(fs, fno)
  {
    FieldsReadBack(fs);
    GatherGets(map[], fs, fno);
  }

  /** Read the value at `p`; a slice past the end is cut off there. */
  method PbValue(buf: seq<byte>, p: nat, wt: nat) returns (r: Result<(Value, nat), Fault>)
    requires p <= |buf|
    ensures r.Ok? ==> p <= r.value.1 <= |buf|
    ensures match ReadValue(wt, buf[p..])
            case Err(e) => r == Err(e)
            case Ok(v) => r.Ok? && r.value.0 == v.value && buf[r.value.1..] == v.rest
  {
    if wt == 0 {
      var n := PbVarint(buf, p);
      if n.Err? { return Err(n.error); }
      return Ok((Num(n.value.value), n.value.next));
    }
    var from, size := p, if wt == 5 then 4 else 8;
    if wt == 2 {
      var n := PbVarint(buf, p);
      if n.Err? { return Err(n.error); }
      from, size := n.value.next, n.value.value;
      assert buf[p..][from - p..] == buf[from..];
    } else if wt != 5 && wt != 1 {
      return Err(BadWireType(wt));
    }
    var end := from + Least(size, |buf| - from);
    assert buf[from..][..end - from] == buf[from..end] && buf[from..][end - from..] == buf[end..];
    r := Ok((Raw(buf[from..end]), end));
  }

  /** The message so far, with the fields still to come. */
  function Onward(m: Message, fs: Result<seq<Field>, Fault>): Result<Message, Fault> {
    match fs
    case Err(e) => Err(e)
    case Ok(fs) => Ok(Gather(m, fs))
  }

  /** How the fields of a message begin. */
  lemma FieldsStep(bs: seq<byte>, m: Message)
    requires bs != []
    ensures match DecVarint(bs)
            case None => Fields(bs) == Err(Truncated)
            case Some(key) =>
              match ReadValue(key.value % 8, bs[key.next..])
              case Err(e) => Fields(bs) == Err(e)
              case Ok(v) => Onward(m, Fields(bs)) == Onward(Put(m, Field(key.value / 8, v.value)), Fields(v.rest))
  {
    hide ReadValue, Put;
    var key := DecVarint(bs);
    if key.Some? {
      var v := ReadValue(key.value.value % 8, bs[key.value.next..]);
      if v.Ok? && Fields(v.value.rest).Ok? {
        var fs, f := Fields(v.value.rest).value, Field(key.value.value / 8, v.value.value);
        assert ([f] + fs)[1..] == fs;
      }
    }
  }

  /** Read a whole message, collecting each field's values as they come. */
  method PbParse(buf: seq<byte>) returns (r: Result<Message, Fault>)
    ensures r == Parse(buf)
  {
    hide ReadValue, Put;
    var out: Message, p := map[], 0;
    assert buf[0..] == buf;
    while p < |buf|
      invariant p <= |buf|
      invariant Parse(buf) == Onward(out, Fields(buf[p..]))
    {
      FieldsStep(buf[p..], out);
      var key := PbVarint(buf, p);
      if key.Err? { return Err(key.error); }
      assert buf[p..][key.value.next - p..] == buf[key.value.next..];
      var fno, wt := key.value.value / 8, key.value.value % 8;
      var v := PbValue(buf, key.value.next, wt);
      if v.Err? { return Err(v.error); }
      out, p := Put(out, Field(fno, v.value.0)), v.value.1;
    }
    r := Ok(out);
  }
}
