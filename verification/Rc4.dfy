/** The RC4 stream cipher: one keystream per direction of a connection. */
module Rc4 {
  import opened Bits

  /** The cipher's state: a table of the 256 bytes and two indices into it. */
  datatype State = State(s: seq<byte>, i: nat, j: nat)

  function Identity(): (s: seq<byte>)
    ensures |s| == 256 && forall k :: 0 <= k < 256 ==> s[k] == k
  {
    seq(256, k requires 0 <= k < 256 => k as byte)
  }

  /** The table is a permutation of the 256 bytes. */
  ghost predicate Permutes(s: seq<byte>) {
    |s| == 256 && multiset(s) == multiset(Identity())
  }

  predicate Indexed(c: State) {
    |c.s| == 256 && c.i < 256 && c.j < 256
  }

  function Swapped(s: seq<byte>, a: nat, b: nat): (t: seq<byte>)
    requires a < |s| && b < |s|
    ensures |t| == |s|
  {
    s[a := s[b]][b := s[a]]
  }

  /** Key scheduling: the table and its running index after `n` of the 256 exchanges. */
  function Schedule(key: seq<byte>, n: nat): (c: State)
    requires key != [] && n <= 256
    ensures |c.s| == 256 && c.j < 256
  {
    if n == 0 then State(Identity(), 0, 0)
    else
      var c := Schedule(key, n - 1);
      var j := Add(Add(c.j, c.s[n - 1]), key[(n - 1) % |key|]);
      State(Swapped(c.s, n - 1, j), 0, j)
  }

  function Fresh(key: seq<byte>): (c: State)
    requires key != []
    ensures Indexed(c)
  {
    State(Schedule(key, 256).s, 0, 0)
  }

  /** The state that masks the next byte. */
  function Step(c: State): (c': State)
    requires Indexed(c)
    ensures Indexed(c')
  {
    var i := Add(c.i, 1);
    var j := Add(c.j, c.s[i]);
    State(Swapped(c.s, i, j), i, j)
  }

  /** The keystream byte a stepped state gives. */
  function KeyByte(c: State): byte
    requires Indexed(c)
  {
    c.s[Add(c.s[c.i], c.s[c.j])]
  }

  function Skip(c: State, n: nat): (c': State)
    requires Indexed(c)
    ensures Indexed(c')
  {
    if n == 0 then c else Step(Skip(c, n - 1))
  }

  /** Each byte masked with its byte of the keystream. */
  function Masked(c: State, data: seq<byte>): (out: seq<byte>)
    requires Indexed(c)
    ensures |out| == |data|
  {
    if data == [] then []
    else
      var n := |data| - 1;
      Masked(c, data[..n]) + [Mask(data[n], KeyByte(Skip(c, n + 1)))]
  }

  // -- the table --------------------------------------------------------------------

  lemma SwapPermutes(s: seq<byte>, a: nat, b: nat)
    requires Permutes(s) && a < 256 && b < 256
    ensures Permutes(Swapped(s, a, b))
  {
    assert multiset(Swapped(s, a, b)) == multiset(s);
  }

  lemma {:induction false} SchedulePermutes(key: seq<byte>, n: nat)
    requires key != [] && n <= 256
    ensures Permutes(Schedule(key, n).s)
  {
    if n > 0 {
      SchedulePermutes(key, n - 1);
      var c := Schedule(key, n - 1);
      SwapPermutes(c.s, n - 1, Add(Add(c.j, c.s[n - 1]), key[(n - 1) % |key|]));
      hide Permutes, Swapped, Add;
    }
  }

  lemma StepPermutes(c: State)
    requires Indexed(c) && Permutes(c.s)
    ensures Permutes(Step(c).s)
  {
    SwapPermutes(c.s, Add(c.i, 1), Add(c.j, c.s[Add(c.i, 1)]));
    hide Permutes, Swapped, Add;
  }

  /** THE TABLE STAYS A PERMUTATION of the 256 bytes, however much has been masked. */
  lemma {:induction false} TablePermutes(key: seq<byte>, n: nat)
    requires key != []
    ensures Permutes(Skip(Fresh(key), n).s)
  {
    hide Permutes, Step, Schedule;
    if n == 0 {
      SchedulePermutes(key, 256);
    } else {
      TablePermutes(key, n - 1);
      StepPermutes(Skip(Fresh(key), n - 1));
    }
  }

  /** So no byte is ever missing from it and none is there twice. */
  lemma EveryByteOnce(key: seq<byte>, n: nat, x: byte)
    requires key != []
    ensures x in Skip(Fresh(key), n).s && multiset(Skip(Fresh(key), n).s)[x] == 1
  {
    TablePermutes(key, n);
    hide Permutes, Skip;
    PermutationHolds(Skip(Fresh(key), n).s, x);
  }

  lemma PermutationHolds(s: seq<byte>, x: byte)
    requires Permutes(s)
    ensures x in s && multiset(s)[x] == 1
  {
    IdentityOnce(x);
    assert x in multiset(s);
  }

  lemma IdentityOnce(x: byte)
    ensures multiset(Identity())[x] == 1
  {
    var id := Identity();
    assert id == id[..x] + [id[x]] + id[x + 1..];
    assert x !in id[..x] && x !in id[x + 1..];
    assert multiset(id) == multiset(id[..x]) + multiset{id[x]} + multiset(id[x + 1..]);
  }

  // -- the stream -------------------------------------------------------------------

  lemma {:induction false} SkipAdds(c: State, m: nat, n: nat)
    requires Indexed(c)
    ensures Skip(Skip(c, m), n) == Skip(c, m + n)
  {
    hide Step;
    if n > 0 {
      SkipAdds(c, m, n - 1);
    }
  }

  /** ENCRYPTION SPLITS: a message may be masked in pieces, the state carrying over. */
  lemma {:induction false} MaskingSplits(c: State, a: seq<byte>, b: seq<byte>)
    requires Indexed(c)
    ensures Masked(c, a + b) == Masked(c, a) + Masked(Skip(c, |a|), b)
    decreases |b|
  {
    hide Mask, KeyByte, Step;
    if b == [] {
      assert a + b == a;
    } else {
      var n := |b| - 1;
      MaskingSplits(c, a, b[..n]);
      SkipAdds(c, |a|, n + 1);
      assert (a + b)[..|a + b| - 1] == a + b[..n];
    }
  }

  /** DECRYPTION IS ENCRYPTION from the same state. */
  lemma {:induction false} MaskingTwice(c: State, data: seq<byte>)
    requires Indexed(c)
    ensures Masked(c, Masked(c, data)) == data
  {
    hide Mask, KeyByte, Step;
    if data != [] {
      var n := |data| - 1;
      MaskingTwice(c, data[..n]);
      MaskTwice(data[n], KeyByte(Skip(c, n + 1)));
      assert Masked(c, data)[..n] == Masked(c, data[..n]);
    }
  }

  // -- the cipher -------------------------------------------------------------------

  /** One direction's cipher: the table is exchanged in place as bytes go by. */
  class Cipher {
    const table: array<byte>
    var i: nat
    var j: nat

    ghost predicate Valid()
      reads this, table
    {
      table.Length == 256 && i < 256 && j < 256
    }

    ghost function View(): (c: State)
      reads this, table
      requires Valid()
      ensures Indexed(c)
    {
      State(table[..], i, j)
    }

    constructor (key: seq<byte>)
      requires key != []
      ensures Valid() && fresh(table) && View() == Fresh(key)
    {
      table := new byte[256](k requires 0 <= k < 256 => k as byte);
      i, j := 0, 0;
      new;
      assert table[..] == Identity();
      hide Add;
      var n, m: nat := 0, 0;
      while n < 256
        invariant 0 <= n <= 256 && m < 256 && i == 0 && j == 0
        invariant table[..] == Schedule(key, n).s && m == Schedule(key, n).j
        modifies table
      {
        m := Add(Add(m, table[n]), key[n % |key|]);
        table[n], table[m] := table[m], table[n];
        n := n + 1;
      }
    }

    /** Step the table in place. -> the byte of the keystream it then gives */
    method NextKeyByte() returns (k: byte)
      requires Valid()
      modifies this, table
      ensures Valid() && View() == Step(old(View())) && k == KeyByte(View())
    {
      hide Add;
      i := Add(i, 1);
      j := Add(j, table[i]);
      table[i], table[j] := table[j], table[i];
      assert table[..] == Step(old(View())).s;
      k := table[Add(table[i], table[j])];
    }

    method Crypt(data: seq<byte>) returns (out: seq<byte>)
      requires Valid()
      modifies this, table
      ensures Valid()
      ensures out == Masked(old(View()), data)
      ensures View() == Skip(old(View()), |data|)
    {
      hide View, Step, KeyByte, Mask;
      ghost var c := View();
      out := [];
      var n := 0;
      while n < |data|
        invariant 0 <= n <= |data| && Valid()
        invariant View() == Skip(c, n)
        invariant out == Masked(c, data[..n])
      {
        var k := NextKeyByte();
        assert data[..n + 1][..n] == data[..n];
        out := out + [Mask(data[n], k)];
        n := n + 1;
      }
      assert data[..n] == data;
    }
  }
}
