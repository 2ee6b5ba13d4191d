/**
  Machine words and their bits, and the algebra of bit sequences under exclusive or.
 */
module Bits {

  type byte = bv8
  type word = bv16
  type dword = bv32
  type qword = bv64

  // ---------- bits of a word and of a byte, bit 0 first ----------

  function WordBits(r: word): (s: seq<bool>)
    ensures |s| == 16
  {
    [r & 0x1 != 0, r & 0x2 != 0, r & 0x4 != 0, r & 0x8 != 0,
     r & 0x10 != 0, r & 0x20 != 0, r & 0x40 != 0, r & 0x80 != 0,
     r & 0x100 != 0, r & 0x200 != 0, r & 0x400 != 0, r & 0x800 != 0,
     r & 0x1000 != 0, r & 0x2000 != 0, r & 0x4000 != 0, r & 0x8000 != 0]
  }

  function BitsOf(b: byte): (s: seq<bool>)
    ensures |s| == 8
  {
    [b & 0x1 != 0, b & 0x2 != 0, b & 0x4 != 0, b & 0x8 != 0,
     b & 0x10 != 0, b & 0x20 != 0, b & 0x40 != 0, b & 0x80 != 0]
  }

  lemma WordBitsInjective(r: word, t: word)
    requires WordBits(r) == WordBits(t)
    ensures r == t
  {
  }

  lemma BitsOfInjective(a: byte, b: byte)
    requires BitsOf(a) == BitsOf(b)
    ensures a == b
  {
    var x, y := BitsOf(a), BitsOf(b);
    assert x[0] == y[0] && x[1] == y[1] && x[2] == y[2] && x[3] == y[3];
    assert x[4] == y[4] && x[5] == y[5] && x[6] == y[6] && x[7] == y[7];
  }

  // Shifting a byte right moves every bit one place down.
  lemma ShiftByte(b: byte)
    ensures BitsOf(b >> 1) == BitsOf(b)[1..] + [false]
    ensures BitsOf(b)[0] == (b & 0x0001 == 1)
  {
  }

  // The complement of sixteen bits.
  function Not(s: seq<bool>): (t: seq<bool>)
    requires |s| == 16
    ensures |t| == 16
    ensures forall i :: 0 <= i < 16 ==> t[i] == !s[i]
  {
    seq(16, i requires 0 <= i < 16 => !s[i])
  }

  function Flipped(s: seq<bool>): seq<bool>
    requires |s| == 16
  {
    [!s[0], !s[1], !s[2], !s[3], !s[4], !s[5], !s[6], !s[7],
     !s[8], !s[9], !s[10], !s[11], !s[12], !s[13], !s[14], !s[15]]
  }

  lemma FlippedAt(s: seq<bool>, i: nat)
    requires |s| == 16 && i < 16
    ensures |Flipped(s)| == 16 && Flipped(s)[i] == !s[i]
  {
    match i
    case 0 => case 1 => case 2 => case 3 => case 4 => case 5 => case 6 => case 7 =>
    case 8 => case 9 => case 10 => case 11 => case 12 => case 13 => case 14 => case 15 =>
  }

  lemma FlippedIsNot(s: seq<bool>, f: seq<bool>)
    requires |s| == 16 && f == Flipped(s)
    ensures f == Not(s)
  {
    forall i | 0 <= i < 16
      ensures f[i] == !s[i]
    {
      FlippedAt(s, i);
    }
  }

  lemma ComplementFlips(r: word)
    ensures WordBits(!r) == Flipped(WordBits(r))
  {
  }

  lemma ComplementBits(r: word)
    ensures WordBits(!r) == Not(WordBits(r))
  {
    ComplementFlips(r);
    FlippedIsNot(WordBits(r), WordBits(!r));
  }

  // Least significant bit of each byte first.
  function MessageBits(data: seq<byte>): (bits: seq<bool>)
    ensures |bits| == 8 * |data|
  {
    if data == [] then [] else BitsOf(data[0]) + MessageBits(data[1..])
  }

  lemma {:induction false} MessageBitsConcat(a: seq<byte>, b: seq<byte>)
    ensures MessageBits(a + b) == MessageBits(a) + MessageBits(b)
  {
    if a == [] {
      assert a + b == b;
    } else {
      assert (a + b)[1..] == a[1..] + b;
      MessageBitsConcat(a[1..], b);
      assert BitsOf(a[0]) + (MessageBits(a[1..]) + MessageBits(b)) == MessageBits(a) + MessageBits(b);
    }
  }

  lemma {:induction false} MessageBitsInjective(a: seq<byte>, b: seq<byte>)
    requires MessageBits(a) == MessageBits(b)
    ensures a == b
  {
    if a != [] && b != [] {
      assert MessageBits(a)[..8] == BitsOf(a[0]) && MessageBits(b)[..8] == BitsOf(b[0]);
      assert MessageBits(a)[8..] == MessageBits(a[1..]) && MessageBits(b)[8..] == MessageBits(b[1..]);
      BitsOfInjective(a[0], b[0]);
      MessageBitsInjective(a[1..], b[1..]);
    }
  }

  // ---------- bit sequences ----------

  function Xor(a: seq<bool>, b: seq<bool>): (c: seq<bool>)
    requires |a| == |b|
    ensures |c| == |a| && forall i :: 0 <= i < |a| ==> c[i] == (a[i] != b[i])
  {
    seq(|a|, i requires 0 <= i < |a| => a[i] != b[i])
  }

  function Zeros(n: nat): (z: seq<bool>)
    ensures |z| == n && forall i :: 0 <= i < n ==> !z[i]
  {
    seq(n, i => false)
  }

  function Ones(n: nat): (z: seq<bool>)
    ensures |z| == n && forall i :: 0 <= i < n ==> z[i]
  {
    seq(n, i => true)
  }

  // Whether an odd number of the bits is set.
  predicate Odd(bits: seq<bool>) {
    if bits == [] then false else bits[0] != Odd(bits[1..])
  }

  lemma {:induction false} OddConcat(a: seq<bool>, b: seq<bool>)
    ensures Odd(a + b) == (Odd(a) != Odd(b))
  {
    if a == [] {
      assert a + b == b;
    } else {
      assert (a + b)[1..] == a[1..] + b;
      OddConcat(a[1..], b);
    }
  }

  lemma {:induction false} OddXor(a: seq<bool>, b: seq<bool>)
    requires |a| == |b|
    ensures Odd(Xor(a, b)) == (Odd(a) != Odd(b))
  {
    if a == [] {
    } else {
      assert Xor(a, b)[1..] == Xor(a[1..], b[1..]);
      OddXor(a[1..], b[1..]);
    }
  }

  lemma {:induction false} OddUniform(n: nat)
    ensures !Odd(Zeros(n)) && Odd(Ones(n)) == (n % 2 == 1)
  {
    if n == 0 {
    } else {
      assert Zeros(n)[1..] == Zeros(n - 1) && Ones(n)[1..] == Ones(n - 1);
      OddUniform(n - 1);
    }
  }

  lemma ByteMask(b: byte)
    ensures b & 0xFF == b
  {
  }
}
