/** Remote calls: an index, groups of arguments, and how both are packed into a message. */
module Rpc {
  import opened Wrappers
  import opened Bits
  import opened Protobuf

  const INDEX: nat := 1
  const UINT32S: nat := 11
  const UINT64S: nat := 12
  const STRINGS: nat := 14
  const SINT32S: nat := 15
  const PACK: nat := 31

  /** A call as its sender gives it: one list of arguments for each slot of each kind. */
  datatype Call = Call(index: int, uint32s: seq<seq<nat>>, uint64s: seq<seq<nat>>, sint32s: seq<seq<int>>, strings: seq<seq<seq<byte>>>)

  /** An argument as it is read: a number, or bytes. */
  datatype Arg = Int(v: int) | Bytes(b: seq<byte>)

  /** A call as its receiver reads it. */
  datatype Received = Received(
    index: nat, cmd: Option<Arg>, rid: Arg, intargs: seq<Arg>, strargs: seq<seq<byte>>, strargs2: seq<seq<byte>>)

  // -- printing ---------------------------------------------------------------------

  function Nums(ns: seq<nat>): (fs: seq<Field>)
    ensures |fs| == |ns| && forall k :: 0 <= k < |ns| ==> fs[k] == Field(1, Num(ns[k]))
  {
    seq(|ns|, k requires 0 <= k < |ns| => Field(1, Num(ns[k])))
  }

  function Zigzags(vs: seq<int>): (ns: seq<nat>)
    ensures |ns| == |vs| && forall k :: 0 <= k < |vs| ==> ns[k] == Zigzag(Signed(vs[k]))
  {
    seq(|vs|, k requires 0 <= k < |vs| => Zigzag(Signed(vs[k])))
  }

  function Raws(bs: seq<seq<byte>>): (fs: seq<Field>)
    ensures |fs| == |bs| && forall k :: 0 <= k < |bs| ==> fs[k] == Field(1, Raw(bs[k]))
  {
    seq(|bs|, k requires 0 <= k < |bs| => Field(1, Raw(bs[k])))
  }

  /** Each slot is a message of its own, wrapped in a field of its kind. */
  function Wraps(fno: nat, slots: seq<seq<Field>>): (fs: seq<Field>)
    ensures |fs| == |slots| && forall k :: 0 <= k < |slots| ==> fs[k] == Field(fno, Raw(PrintAll(slots[k])))
  {
    seq(|slots|, k requires 0 <= k < |slots| => Field(fno, Raw(PrintAll(slots[k]))))
  }

  function NumSlots(gs: seq<seq<nat>>): (r: seq<seq<Field>>)
    ensures |r| == |gs| && forall k :: 0 <= k < |gs| ==> r[k] == Nums(gs[k])
  {
    seq(|gs|, k requires 0 <= k < |gs| => Nums(gs[k]))
  }

  function ZigzagSlots(gs: seq<seq<int>>): (r: seq<seq<Field>>)
    ensures |r| == |gs| && forall k :: 0 <= k < |gs| ==> r[k] == Nums(Zigzags(gs[k]))
  {
    seq(|gs|, k requires 0 <= k < |gs| => Nums(Zigzags(gs[k])))
  }

  function RawSlots(gs: seq<seq<seq<byte>>>): (r: seq<seq<Field>>)
    ensures |r| == |gs| && forall k :: 0 <= k < |gs| ==> r[k] == Raws(gs[k])
  {
    seq(|gs|, k requires 0 <= k < |gs| => Raws(gs[k]))
  }

  /** The fields of a call's message, in the order they are written. */
  function CallFields(c: Call): seq<Field> {
    [Field(INDEX, Num(Zigzag(Signed(c.index))))]
    + Wraps(UINT32S, NumSlots(c.uint32s)) + Wraps(UINT64S, NumSlots(c.uint64s))
    + Wraps(SINT32S, ZigzagSlots(c.sint32s)) + Wraps(STRINGS, RawSlots(c.strings))
  }

  lemma {:induction false} PrintAllAdds(a: seq<Field>, b: seq<Field>)
    ensures PrintAll(a + b) == PrintAll(a) + PrintAll(b)
  {
    hide Print;
    if a == [] {
      assert a + b == b;
    } else {
      PrintAllAdds(a[1..], b);
      assert (a + b)[1..] == a[1..] + b;
      Joins(Print(a[0]), PrintAll(a[1..]), PrintAll(b));
    }
  }

  lemma Joins(a: seq<byte>, b: seq<byte>, c: seq<byte>)
    ensures (a + b) + c == a + (b + c)
  {
  }

  lemma PrintOne(f: Field)
    ensures PrintAll([f]) == Print(f)
  {
    assert [f][1..] == [];
  }

  lemma PrintSnoc(fs: seq<Field>, k: nat)
    requires k < |fs|
    ensures PrintAll(fs[..k + 1]) == PrintAll(fs[..k]) + Print(fs[k])
  {
    assert fs[..k + 1] == fs[..k] + [fs[k]];
    PrintAllAdds(fs[..k], [fs[k]]);
    PrintOne(fs[k]);
  }

  /** Write one kind's slots behind what is written already. */
  method AddSlots(b: seq<byte>, fno: nat, slots: seq<seq<Field>>) returns (out: seq<byte>)
    ensures out == b + PrintAll(Wraps(fno, slots))
  {
    hide FieldBytes;
    out := b;
    var k := 0;
    ghost var w := Wraps(fno, slots);
    while k < |slots|
      invariant 0 <= k <= |slots|
      invariant out == b + PrintAll(w[..k])
    {
      PrintSnoc(w, k);
      Joins(b, PrintAll(w[..k]), Print(w[k]));
      out := out + FieldBytes(fno, PrintAll(slots[k]));
      k := k + 1;
    }
    assert w[..k] == w;
  }

  method MakeRpc(c: Call) returns (b: seq<byte>)
    ensures b == PrintAll(CallFields(c))
  {
    b := FieldZigzag(INDEX, c.index);
    var head := Field(INDEX, Num(Zigzag(Signed(c.index))));
    PrintOne(head);
    ghost var w1, w2 := Wraps(UINT32S, NumSlots(c.uint32s)), Wraps(UINT64S, NumSlots(c.uint64s));
    ghost var w3, w4 := Wraps(SINT32S, ZigzagSlots(c.sint32s)), Wraps(STRINGS, RawSlots(c.strings));
    b := AddSlots(b, UINT32S, NumSlots(c.uint32s));
    PrintAllAdds([head], w1);
    b := AddSlots(b, UINT64S, NumSlots(c.uint64s));
    PrintAllAdds([head] + w1, w2);
    b := AddSlots(b, SINT32S, ZigzagSlots(c.sint32s));
    PrintAllAdds([head] + w1 + w2, w3);
    b := AddSlots(b, STRINGS, RawSlots(c.strings));
    PrintAllAdds([head] + w1 + w2 + w3, w4);
  }

  // -- parsing ----------------------------------------------------------------------

  function ArgOf(v: Value): Arg {
    match v
    case Num(n) => Int(n)
    case Raw(b) => Bytes(b)
  }

  function ArgsOf(vs: seq<Value>): (r: seq<Arg>)
    ensures |r| == |vs| && forall k :: 0 <= k < |vs| ==> r[k] == ArgOf(vs[k])
  {
    seq(|vs|, k requires 0 <= k < |vs| => ArgOf(vs[k]))
  }

  /** Parse each wrapper and take its arguments; a wrapper that is a number raises. */
  function Slots(ws: seq<Value>): Result<seq<seq<Value>>, Fault> {
    if ws == [] then Ok([])
    else match ws[0]
         case Num(_) => Err(WrongKind)
         case Raw(b) =>
           match Parse(b)
           case Err(e) => Err(e)
           case Ok(m) =>
             match Slots(ws[1..])
             case Err(e) => Err(e)
             case Ok(rest) => Ok([Get(m, 1)] + rest)
  }

  /** Read numbers as signed; bytes among them raise. */
  function SignedArgs(vs: seq<Value>): Result<seq<Arg>, Fault> {
    if vs == [] then Ok([])
    else match vs[0]
         case Raw(_) => Err(WrongKind)
         case Num(n) =>
           match SignedArgs(vs[1..])
           case Err(e) => Err(e)
           case Ok(rest) => Ok([Int(ZigzagDecode(n))] + rest)
  }

  /** Read strings; a number among them raises. */
  function Strings(vs: seq<Value>): Result<seq<seq<byte>>, Fault> {
    if vs == [] then Ok([])
    else match vs[0]
         case Num(_) => Err(WrongKind)
         case Raw(b) =>
           match Strings(vs[1..])
           case Err(e) => Err(e)
           case Ok(rest) => Ok([b] + rest)
  }

  function Slot(gs: seq<seq<Value>>, k: nat): seq<Value> {
    if k < |gs| then gs[k] else []
  }

  /** The integer arguments: the second unsigned slot, or when that is empty the first signed
      one; the signed slots are not looked at otherwise. */
  function IntArgs(m: Message, groups: seq<seq<Value>>): Result<seq<Arg>, Fault> {
    if Slot(groups, 1) != [] then Ok(ArgsOf(Slot(groups, 1)))
    else match Slots(Get(m, SINT32S))
         case Err(e) => Err(e)
         case Ok(sints) => SignedArgs(Slot(sints, 0))
  }

  function ReadCall(m: Message): Result<Received, Fault> {
    if Get(m, INDEX) == [] then Err(MissingField)
    else if Get(m, INDEX)[0].Raw? then Err(WrongKind)
    else
      match Slots(Get(m, UINT32S))
      case Err(e) => Err(e)
      case Ok(groups) =>
        match IntArgs(m, groups)
        case Err(e) => Err(e)
        case Ok(intargs) =>
          match Slots(Get(m, UINT64S))
          case Err(e) => Err(e)
          case Ok(u64) =>
            match Slots(Get(m, STRINGS))
            case Err(e) => Err(e)
            case Ok(strs) =>
              match Strings(Slot(strs, 0))
              case Err(e) => Err(e)
              case Ok(s0) =>
                match Strings(Slot(strs, 1))
                case Err(e) => Err(e)
                case Ok(s1) => Ok(Received(
                  ZigzagDecode(Get(m, INDEX)[0].n) % 0x1_0000_0000,
                  if Slot(groups, 0) == [] then None else Some(ArgOf(Slot(groups, 0)[0])),
                  if Slot(u64, 0) == [] then Int(0) else ArgOf(Slot(u64, 0)[0]),
                  intargs, s0, s1))
  }

  function ParseRpc(buf: seq<byte>): Result<Received, Fault> {
    match Parse(buf)
    case Err(e) => Err(e)
    case Ok(m) => ReadCall(m)
  }

  // -- the round trip ---------------------------------------------------------------

  function Group<T>(gs: seq<seq<T>>, k: nat): seq<T> {
    if k < |gs| then gs[k] else []
  }

  function Ints(vs: seq<int>): (r: seq<Arg>)
    ensures |r| == |vs| && forall k :: 0 <= k < |vs| ==> r[k] == Int(vs[k])
  {
    seq(|vs|, k requires 0 <= k < |vs| => Int(vs[k]))
  }

  function AllSigned(vs: seq<int>): (r: seq<int>)
    ensures |r| == |vs| && forall k :: 0 <= k < |vs| ==> r[k] == Signed(vs[k])
  {
    seq(|vs|, k requires 0 <= k < |vs| => Signed(vs[k]))
  }

  /** What the receiver is meant to read of a call. */
  function Meant(c: Call): Received {
    Received(
      c.index % 0x1_0000_0000,
      if Group(c.uint32s, 0) == [] then None else Some(Int(Group(c.uint32s, 0)[0])),
      if Group(c.uint64s, 0) == [] then Int(0) else Int(Group(c.uint64s, 0)[0]),
      if Group(c.uint32s, 1) != [] then Ints(Group(c.uint32s, 1)) else Ints(AllSigned(Group(c.sint32s, 0))),
      Group(c.strings, 0), Group(c.strings, 1))
  }

  predicate Word(v: int) { -0x8000_0000 <= v < 0x1_0000_0000 }

  /** The index and the signed arguments are 32-bit numbers, signed or not. */
  predicate Words(c: Call) {
    && Word(c.index)
    && forall g, k :: 0 <= g < |c.sint32s| && 0 <= k < |c.sint32s[g]| ==> Word(c.sint32s[g][k])
  }

  lemma {:induction false} ValuesAdd(a: seq<Field>, b: seq<Field>, fno: nat)
    ensures ValuesOf(a + b, fno) == ValuesOf(a, fno) + ValuesOf(b, fno)
    decreases |a|
  {
    if a == [] {
      assert a + b == b;
    } else {
      ValuesAdd(a[1..], b, fno);
      assert (a + b)[1..] == a[1..] + b;
    }
  }

  function Values(fs: seq<Field>): (vs: seq<Value>)
    ensures |vs| == |fs| && forall k :: 0 <= k < |fs| ==> vs[k] == fs[k].value
  {
    seq(|fs|, k requires 0 <= k < |fs| => fs[k].value)
  }

  lemma {:induction false} ValuesAlike(fs: seq<Field>, mine: nat, fno: nat)
    requires forall k :: 0 <= k < |fs| ==> fs[k].fno == mine
    ensures ValuesOf(fs, fno) == if fno == mine then Values(fs) else []
    decreases |fs|
  {
    if fs != [] {
      ValuesAlike(fs[1..], mine, fno);
      assert Values(fs) == [fs[0].value] + Values(fs[1..]);
    }
  }

  /** One list's share of the values of a field number. */
  function Share(fs: seq<Field>, mine: nat, fno: nat): seq<Value> {
    if fno == mine then Values(fs) else []
  }

  lemma SharesAdd(fs: seq<Field>, more: seq<Field>, mine: nat, fno: nat)
    requires forall k :: 0 <= k < |more| ==> more[k].fno == mine
    ensures ValuesOf(fs + more, fno) == ValuesOf(fs, fno) + Share(more, mine, fno)
  {
    ValuesAdd(fs, more, fno);
    ValuesAlike(more, mine, fno);
  }

  function Five(a: seq<Value>, b: seq<Value>, c: seq<Value>, d: seq<Value>, e: seq<Value>): seq<Value> {
    a + b + c + d + e
  }

  lemma OneOfFive(vs: seq<Value>)
    ensures Five(vs, [], [], [], []) == vs && Five([], vs, [], [], []) == vs && Five([], [], vs, [], []) == vs
    ensures Five([], [], [], vs, []) == vs && Five([], [], [], [], vs) == vs
  {
  }

  /** The values of one field number in a call's message. */
  lemma CallValues(c: Call, fno: nat)
    ensures ValuesOf(CallFields(c), fno) == Five(
              Share([Field(INDEX, Num(Zigzag(Signed(c.index))))], INDEX, fno),
              Share(Wraps(UINT32S, NumSlots(c.uint32s)), UINT32S, fno),
              Share(Wraps(UINT64S, NumSlots(c.uint64s)), UINT64S, fno),
              Share(Wraps(SINT32S, ZigzagSlots(c.sint32s)), SINT32S, fno),
              Share(Wraps(STRINGS, RawSlots(c.strings)), STRINGS, fno))
  {
    var head := [Field(INDEX, Num(Zigzag(Signed(c.index))))];
    var w1, w2 := Wraps(UINT32S, NumSlots(c.uint32s)), Wraps(UINT64S, NumSlots(c.uint64s));
    var w3, w4 := Wraps(SINT32S, ZigzagSlots(c.sint32s)), Wraps(STRINGS, RawSlots(c.strings));
    hide Share, Values;
    HeadShare(head[0], fno);
    SharesAdd(head, w1, UINT32S, fno);
    SharesAdd(head + w1, w2, UINT64S, fno);
    SharesAdd(head + w1 + w2, w3, SINT32S, fno);
    SharesAdd(head + w1 + w2 + w3, w4, STRINGS, fno);
  }

  lemma HeadShare(f: Field, fno: nat)
    ensures ValuesOf([f], fno) == Share([f], f.fno, fno)
  {
    ValuesAlike([f], f.fno, fno);
  }

  /** Each field number has its own list's values and nobody else's. */
  lemma CallParts(c: Call)
    ensures ValuesOf(CallFields(c), INDEX) == [Num(Zigzag(Signed(c.index)))]
    ensures ValuesOf(CallFields(c), UINT32S) == Values(Wraps(UINT32S, NumSlots(c.uint32s)))
    ensures ValuesOf(CallFields(c), UINT64S) == Values(Wraps(UINT64S, NumSlots(c.uint64s)))
    ensures ValuesOf(CallFields(c), SINT32S) == Values(Wraps(SINT32S, ZigzagSlots(c.sint32s)))
    ensures ValuesOf(CallFields(c), STRINGS) == Values(Wraps(STRINGS, RawSlots(c.strings)))
  {
    hide CallFields, Wraps, NumSlots, ZigzagSlots, RawSlots, Zigzag, Signed;
    var head := [Field(INDEX, Num(Zigzag(Signed(c.index))))];
    assert Values(head) == [head[0].value];
    OneOfFive(Values(head));
    OneOfFive(Values(Wraps(UINT32S, NumSlots(c.uint32s))));
    OneOfFive(Values(Wraps(UINT64S, NumSlots(c.uint64s))));
    OneOfFive(Values(Wraps(SINT32S, ZigzagSlots(c.sint32s))));
    OneOfFive(Values(Wraps(STRINGS, RawSlots(c.strings))));
    hide Values, Five;
    CallValues(c, INDEX);
    CallValues(c, UINT32S);
    CallValues(c, UINT64S);
    CallValues(c, SINT32S);
    CallValues(c, STRINGS);
  }

  function SlotValues(slots: seq<seq<Field>>): (vs: seq<seq<Value>>)
    ensures |vs| == |slots| && forall k :: 0 <= k < |slots| ==> vs[k] == Values(slots[k])
  {
    seq(|slots|, k requires 0 <= k < |slots| => Values(slots[k]))
  }

  /** Wrapped slots, parsed again, are the slots. */
  lemma {:induction false} SlotsReadBack(fno: nat, slots: seq<seq<Field>>)
    requires forall k, j :: 0 <= k < |slots| && 0 <= j < |slots[k]| ==> slots[k][j].fno == 1
    ensures Slots(Values(Wraps(fno, slots))) == Ok(SlotValues(slots))
  {
    var ws := Values(Wraps(fno, slots));
    if slots != [] {
      SlotsReadBack(fno, slots[1..]);
      hide Parse, Get, PrintAll, Values, SlotValues, Slots, Wraps;
      assert ws[0] == Raw(PrintAll(slots[0])) && ws[1..] == Values(Wraps(fno, slots[1..]));
      SlotReadsBack(ws, slots[0]);
      assert SlotValues(slots) == [Values(slots[0])] + SlotValues(slots[1..]);
    }
  }

  lemma SlotReadsBack(ws: seq<Value>, fs: seq<Field>)
    requires ws != [] && ws[0] == Raw(PrintAll(fs)) && Slots(ws[1..]).Ok?
    requires forall j :: 0 <= j < |fs| ==> fs[j].fno == 1
    ensures Slots(ws) == Ok([Values(fs)] + Slots(ws[1..]).value)
  {
    hide Parse, Get, PrintAll, Values;
    ParseReadsBack(fs, 1);
    ValuesAlike(fs, 1, 1);
  }

  lemma {:induction false} SignedReadBack(vs: seq<int>)
    requires forall k :: 0 <= k < |vs| ==> Word(vs[k])
    ensures SignedArgs(Values(Nums(Zigzags(vs)))) == Ok(Ints(AllSigned(vs)))
  {
    var ns := Values(Nums(Zigzags(vs)));
    if vs != [] {
      SignedReadBack(vs[1..]);
      assert ns[1..] == Values(Nums(Zigzags(vs[1..])));
      ZigzagComesBack(vs[0]);
      hide Zigzag, ZigzagDecode, Signed;
      assert Ints(AllSigned(vs)) == [Int(Signed(vs[0]))] + Ints(AllSigned(vs[1..]));
    }
  }

  lemma {:induction false} StringsReadBack(bs: seq<seq<byte>>)
    ensures Strings(Values(Raws(bs))) == Ok(bs)
  {
    if bs != [] {
      StringsReadBack(bs[1..]);
      assert Values(Raws(bs))[1..] == Values(Raws(bs[1..]));
      assert bs == [bs[0]] + bs[1..];
    }
  }

  lemma StringSlot(gs: seq<seq<seq<byte>>>, k: nat)
    ensures Strings(Slot(SlotValues(RawSlots(gs)), k)) == Ok(Group(gs, k))
  {
    if k < |gs| { StringsReadBack(gs[k]); }
  }

  lemma NumSlot(gs: seq<seq<nat>>, k: nat)
    ensures ArgsOf(Slot(SlotValues(NumSlots(gs)), k)) == Ints(Group(gs, k))
    ensures Slot(SlotValues(NumSlots(gs)), k) == [] <==> Group(gs, k) == []
    ensures Group(gs, k) != [] ==> ArgOf(Slot(SlotValues(NumSlots(gs)), k)[0]) == Int(Group(gs, k)[0])
  {
  }

  lemma SignedSlot(c: Call)
    requires Words(c)
    ensures SignedArgs(Slot(SlotValues(ZigzagSlots(c.sint32s)), 0)) == Ok(Ints(AllSigned(Group(c.sint32s, 0))))
  {
    SignedReadBack(Group(c.sint32s, 0));
  }

  /** A message whose fields are those of a call reads as the call. */
  lemma ReadsAsMeant(m: Message, c: Call)
    requires Words(c) && forall fno :: Get(m, fno) == ValuesOf(CallFields(c), fno)
    ensures ReadCall(m) == Ok(Meant(c))
  {
    CallParts(c);
    SlotsReadBack(UINT32S, NumSlots(c.uint32s));
    SlotsReadBack(UINT64S, NumSlots(c.uint64s));
    SlotsReadBack(SINT32S, ZigzagSlots(c.sint32s));
    SlotsReadBack(STRINGS, RawSlots(c.strings));
    NumSlot(c.uint32s, 0);
    NumSlot(c.uint32s, 1);
    NumSlot(c.uint64s, 0);
    SignedSlot(c);
    StringSlot(c.strings, 0);
    StringSlot(c.strings, 1);
    ZigzagComesBack(c.index);
    hide Get, Wraps, NumSlots, ZigzagSlots, RawSlots, SlotValues, CallFields, Slot, Group, Zigzag, ZigzagDecode, Signed;
  }

  /** CALLS COME BACK: whatever groups of arguments it carries, a call reads at the other end
      with its index, command, id, arguments and strings. */
  lemma CallsComeBack(c: Call)
    requires Words(c)
    ensures ParseRpc(PrintAll(CallFields(c))) == Ok(Meant(c))
  {
    var fs := CallFields(c);
    hide Parse, CallFields, ReadCall, Meant, Get;
    ParseReadsBack(fs, INDEX);
    forall fno ensures Get(Parse(PrintAll(fs)).value, fno) == ValuesOf(fs, fno) {
      ParseReadsBack(fs, fno);
    }
    ReadsAsMeant(Parse(PrintAll(fs)).value, c);
  }

  // -- packs ------------------------------------------------------------------------

  function Packed(rpcs: seq<seq<byte>>): (fs: seq<Field>)
    ensures |fs| == |rpcs| && forall k :: 0 <= k < |rpcs| ==> fs[k] == Field(PACK, Raw(rpcs[k]))
  {
    seq(|rpcs|, k requires 0 <= k < |rpcs| => Field(PACK, Raw(rpcs[k])))
  }

  function RpcPack(rpcs: seq<seq<byte>>): seq<byte> { PrintAll(Packed(rpcs)) }

  /** A PACK of calls unpacks to the same calls, in order. */
  lemma PackComesBack(cs: seq<Call>, rpcs: seq<seq<byte>>, k: nat)
    requires |rpcs| == |cs| && k < |cs| && Words(cs[k]) && rpcs[k] == PrintAll(CallFields(cs[k]))
    ensures var m := Parse(RpcPack(rpcs));
            && m.Ok? && |Get(m.value, PACK)| == |cs| && Get(m.value, PACK)[k].Raw?
            && ParseRpc(Get(m.value, PACK)[k].bytes) == Ok(Meant(cs[k]))
  {
    ParseReadsBack(Packed(rpcs), PACK);
    ValuesAlike(Packed(rpcs), PACK, PACK);
    hide Parse, Get, CallFields, Meant;
    CallsComeBack(cs[k]);
  }
}
