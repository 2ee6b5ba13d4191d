/**
  The 16-bit frame check sequence that both ends of the elevator protocol compute over a packet.
  The register is fed one bit at a time, least significant bit of each byte first (RFC 1662,
  Appendix C.2); the result is complemented and byte-swapped, so that writing it big-endian puts
  the low octet on the wire first.
 */
module Crc16 {
  import opened Bits

  const POLY: word := 0x8408
  const START: word := 0xFFFF
  const GOOD_FCS: word := 0xF0B8

  // ---------- the bit loop ----------

  function BitStep(r: word, b: bool): word {
    if ((r & 1) == 1) != b then (r >> 1) ^ POLY else r >> 1
  }

  function Feed(r: word, bits: seq<bool>): word
    decreases |bits|
  {
    if bits == [] then r else Feed(BitStep(r, bits[0]), bits[1..])
  }

  function Register(data: seq<byte>): word {
    Feed(START, MessageBits(data))
  }

  function SwapBytes(w: word): word {
    (w << 8) | ((w >> 8) & 0xFF)
  }

  function Checksum(data: seq<byte>): word {
    SwapBytes(!Register(data))
  }

  // One turn of the outer loop feeds the first remaining byte.
  lemma FeedFirstByte(r: word, data: seq<byte>, k: nat)
    requires k < |data|
    ensures Feed(r, MessageBits(data[k..])) == Feed(Feed(r, BitsOf(data[k])), MessageBits(data[k + 1..]))
  {
    assert data[k..][1..] == data[k + 1..];
    FeedConcat(r, BitsOf(data[k]), MessageBits(data[k + 1..]));
  }

  lemma DropFirst(cur: seq<bool>, next: seq<bool>, bits: seq<bool>, i: nat)
    requires i < 8 == |bits| == |cur| && next == cur[1..] + [false]
    requires cur[..8 - i] == bits[i..]
    ensures bits[i..][0] == cur[0] && bits[i..][1..] == bits[i + 1..]
    ensures next[..7 - i] == bits[i + 1..]
  {
    assert cur[..8 - i][0] == bits[i..][0];
    assert next[..7 - i] == cur[..8 - i][1..];
  }

  // One turn of the inner loop.
  lemma FeedOne(crc: word, cur: byte, bits: seq<bool>, i: nat)
    requires i < 8 == |bits| && BitsOf(cur)[..8 - i] == bits[i..]
    ensures BitsOf(cur >> 1)[..7 - i] == bits[i + 1..]
    ensures Feed(crc, bits[i..]) == Feed(BitStep(crc, (cur & 0x0001) == 1), bits[i + 1..])
  {
    ShiftByte(cur);
    DropFirst(BitsOf(cur), BitsOf(cur >> 1), bits, i);
  }

  // The inner loop of the source.
  method FeedByte(r: word, b: byte) returns (crc: word)
    ensures crc == Feed(r, BitsOf(b))
  {
    ghost var bits := BitsOf(b);
    ByteMask(b);
    crc := r;
    var curByte := 0xFF & b;
    for i := 0 to 8
      invariant BitsOf(curByte)[..8 - i] == bits[i..]
      invariant Feed(crc, bits[i..]) == Feed(r, bits)
    {
      FeedOne(crc, curByte, bits, i);
      if ((crc & 0x0001) == 1) != ((curByte & 0x0001) == 1) {
        crc := (crc >> 1) ^ POLY;
      } else {
        crc := crc >> 1;
      }
      curByte := curByte >> 1;
    }
  }

  // Complement, then swap the two bytes; the masks of the source cut nothing from a 16-bit value.
  method Finish(r: word) returns (crc: word)
    ensures crc == SwapBytes(!r)
  {
    crc := !r & 0xFFFF;
    crc := (crc << 8) | ((crc >> 8) & 0xFF);
    crc := crc & 0xFFFF;
  }

  // The whole function, the same in both languages.
  method Compute(data: seq<byte>) returns (crc: word)
    ensures crc == Checksum(data)
  {
    crc := 0xFFFF;
    for k := 0 to |data|
      invariant Feed(crc, MessageBits(data[k..])) == Register(data)
    {
      FeedFirstByte(crc, data, k);
      crc := FeedByte(crc, data[k]);
    }
    crc := Finish(crc);
  }

  lemma {:induction false} FeedConcat(r: word, a: seq<bool>, b: seq<bool>)
    ensures Feed(r, a + b) == Feed(Feed(r, a), b)
    decreases |a|
  {
    if a == [] {
      assert a + b == b;
    } else {
      assert (a + b)[1..] == a[1..] + b;
      FeedConcat(BitStep(r, a[0]), a[1..], b);
    }
  }

  // ---------- the register as sixteen bits ----------

  // The taps of 0x8408.
  predicate IsTap(i: int) {
    i == 3 || i == 10 || i == 15
  }

  // Shift right, entering the feedback bit at the taps.
  function Shift(s: seq<bool>, b: bool): (t: seq<bool>)
    requires |s| == 16
    ensures |t| == 16
    ensures forall i :: 0 <= i < 16 ==> t[i] == ((i < 15 && s[i + 1]) != (IsTap(i) && s[0] != b))
  {
    seq(16, i requires 0 <= i < 16 => (i < 15 && s[i + 1]) != (IsTap(i) && s[0] != b))
  }

  function FeedBits(s: seq<bool>, bits: seq<bool>): (t: seq<bool>)
    requires |s| == 16
    ensures |t| == 16
    decreases |bits|
  {
    if bits == [] then s else FeedBits(Shift(s, bits[0]), bits[1..])
  }

  // Shift written out, bit by bit.
  function Shifted(s: seq<bool>, f: bool): (t: seq<bool>)
    requires |s| == 16
  {
    [s[1], s[2], s[3], s[4] != f, s[5], s[6], s[7], s[8],
     s[9], s[10], s[11] != f, s[12], s[13], s[14], s[15], f]
  }

  lemma ShiftedIsShift(s: seq<bool>, b: bool)
    requires |s| == 16
    ensures Shifted(s, s[0] != b) == Shift(s, b)
  {
  }

  lemma StepIsShifted(r: word, b: bool)
    ensures WordBits(BitStep(r, b)) == Shifted(WordBits(r), WordBits(r)[0] != b)
  {
  }

  lemma {:induction false} FeedIsFeedBits(r: word, bits: seq<bool>)
    ensures WordBits(Feed(r, bits)) == FeedBits(WordBits(r), bits)
    decreases |bits|
  {
    if bits == [] {
    } else {
      StepIsShifted(r, bits[0]);
      ShiftedIsShift(WordBits(r), bits[0]);
      FeedIsFeedBits(BitStep(r, bits[0]), bits[1..]);
    }
  }

  lemma {:induction false} FeedBitsConcat(s: seq<bool>, a: seq<bool>, b: seq<bool>)
    requires |s| == 16
    ensures FeedBits(s, a + b) == FeedBits(FeedBits(s, a), b)
    decreases |a|
  {
    if a == [] {
      assert a + b == b;
    } else {
      assert (a + b)[1..] == a[1..] + b;
      FeedBitsConcat(Shift(s, a[0]), a[1..], b);
    }
  }

  // ---------- linearity ----------

  lemma ShiftLinear(s: seq<bool>, t: seq<bool>, b: bool, c: bool)
    requires |s| == |t| == 16
    ensures Shift(Xor(s, t), b != c) == Xor(Shift(s, b), Shift(t, c))
  {
  }

  lemma {:induction false} FeedLinear(s: seq<bool>, t: seq<bool>, a: seq<bool>, b: seq<bool>)
    requires |s| == |t| == 16 && |a| == |b|
    ensures FeedBits(Xor(s, t), Xor(a, b)) == Xor(FeedBits(s, a), FeedBits(t, b))
    decreases |a|
  {
    if a == [] {
    } else {
      ShiftLinear(s, t, a[0], b[0]);
      assert Xor(a, b)[1..] == Xor(a[1..], b[1..]);
      FeedLinear(Shift(s, a[0]), Shift(t, b[0]), a[1..], b[1..]);
    }
  }

  // ---------- no difference is ever forgotten ----------

  lemma ShiftInjective(s: seq<bool>, t: seq<bool>, b: bool)
    requires |s| == |t| == 16
    requires Shift(s, b) == Shift(t, b)
    ensures s == t
  {
    assert Shift(s, b)[15] == Shift(t, b)[15];
    forall i | 0 < i < 16
      ensures s[i] == t[i]
    {
      assert Shift(s, b)[i - 1] == Shift(t, b)[i - 1];
    }
  }

  lemma {:induction false} FeedInjective(s: seq<bool>, t: seq<bool>, bits: seq<bool>)
    requires |s| == |t| == 16 && s != t
    ensures FeedBits(s, bits) != FeedBits(t, bits)
    decreases |bits|
  {
    if bits == [] {
    } else {
      if Shift(s, bits[0]) == Shift(t, bits[0]) {
        ShiftInjective(s, t, bits[0]);
      }
      FeedInjective(Shift(s, bits[0]), Shift(t, bits[0]), bits[1..]);
    }
  }

  // A step leaves the top bit clear exactly when it has shifted nothing but the register itself.
  lemma ShiftBack(s: seq<bool>, b: bool)
    requires |s| == 16
    ensures !Shift(s, b)[15] <==> s[0] == b
    ensures s[0] == b ==> Shift(s, b) == s[1..] + [false]
  {
  }

  // Up to sixteen bits clear the register exactly when they are what it holds.
  lemma {:induction false} ClearedIff(s: seq<bool>, bits: seq<bool>)
    requires |s| == 16 && |bits| <= 16
    ensures FeedBits(s, bits) == Zeros(16) <==> s == bits + Zeros(16 - |bits|)
    decreases |bits|
  {
    if bits == [] {
      assert bits + Zeros(16) == Zeros(16);
    } else {
      var t, n := Shift(s, bits[0]), |bits| - 1;
      ClearedIff(t, bits[1..]);
      ShiftBack(s, bits[0]);
      var whole, rest := bits + Zeros(15 - n), bits[1..] + Zeros(16 - n);
      assert rest == whole[1..] + [false];
      if t == rest {
        assert s == [bits[0]] + s[1..];
        assert whole[1..] == t[..15] == s[1..];
        assert s == whole;
      }
    }
  }

  // Different windows of at most sixteen bits leave different registers.
  lemma WindowInjective(s: seq<bool>, a: seq<bool>, b: seq<bool>)
    requires |s| == 16 && |a| == |b| <= 16
    requires FeedBits(s, a) == FeedBits(s, b)
    ensures a == b
  {
    var d := Xor(a, b);
    FeedLinear(s, s, a, b);
    assert Xor(s, s) == Zeros(16) == Xor(FeedBits(s, a), FeedBits(s, b));
    ClearedIff(Zeros(16), d);
    forall i | 0 <= i < |a|
      ensures a[i] == b[i]
    {
      assert d[i] == (d + Zeros(16 - |d|))[i];
    }
  }
}
