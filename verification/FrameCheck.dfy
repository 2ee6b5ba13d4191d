/**
  What the frame check sequence is for: the receiver's test accepts exactly the packets whose last
  two bytes are the checksum of the rest, and it rejects every short burst and every odd number of
  flipped bits.
 */
module FrameCheck {
  import opened Bits
  import opened Crc16
  import opened Endian

  // The receiver's test.
  predicate Intact(packet: seq<byte>)
    requires |packet| >= 2
  {
    packet[|packet| - 2..] == Pack16(Checksum(packet[..|packet| - 2]))
  }

  // ---------- the check field as bits ----------

  lemma TwoBytes(x: byte, y: byte)
    ensures MessageBits([x, y]) == BitsOf(x) + BitsOf(y)
  {
    assert [x, y][1..] == [y] && [y][1..] == [];
  }

  lemma SwappedBytes(c: word)
    ensures (SwapBytes(c) >> 8) as byte == (c & 0xFF) as byte && (SwapBytes(c) & 0xFF) as byte == (c >> 8) as byte
  {
  }

  lemma LowBits(c: word)
    ensures BitsOf((c & 0xFF) as byte) == WordBits(c)[..8]
  {
  }

  lemma HighBits(c: word)
    ensures BitsOf((c >> 8) as byte) == WordBits(c)[8..]
  {
  }

  // The checksum field goes out low octet first: its bits are those of the complemented register.
  lemma FieldBits(c: word)
    ensures MessageBits(Pack16(SwapBytes(c))) == WordBits(c)
  {
    TwoBytes((SwapBytes(c) >> 8) as byte, (SwapBytes(c) & 0xFF) as byte);
    SwappedBytes(c);
    LowBits(c);
    HighBits(c);
  }

  // ---------- the residue ----------

  lemma FeedTrue(r: word, n: nat, t: word)
    requires n > 0 && t == BitStep(r, true)
    ensures Feed(r, Ones(n)) == Feed(t, Ones(n - 1))
  {
    assert Ones(n)[1..] == Ones(n - 1);
  }

  lemma OnesRegister()
    ensures Feed(0, Ones(16)) == GOOD_FCS
  {
    FeedTrue(0x0, 16, 0x8408);
    FeedTrue(0x8408, 15, 0xc60c);
    FeedTrue(0xc60c, 14, 0xe70e);
    FeedTrue(0xe70e, 13, 0xf78f);
    FeedTrue(0xf78f, 12, 0x7bc7);
    FeedTrue(0x7bc7, 11, 0x3de3);
    FeedTrue(0x3de3, 10, 0x1ef1);
    FeedTrue(0x1ef1, 9, 0xf78);
    FeedTrue(0xf78, 8, 0x83b4);
    FeedTrue(0x83b4, 7, 0xc5d2);
    FeedTrue(0xc5d2, 6, 0xe6e1);
    FeedTrue(0xe6e1, 5, 0x7370);
    FeedTrue(0x7370, 4, 0xbdb0);
    FeedTrue(0xbdb0, 3, 0xdad0);
    FeedTrue(0xdad0, 2, 0xe960);
    FeedTrue(0xe960, 1, 0xf0b8);
  }

  lemma EndBits()
    ensures WordBits(0) == Zeros(16) && WordBits(START) == Ones(16)
  {
  }

  lemma OnesResidue()
    ensures FeedBits(Zeros(16), Ones(16)) == WordBits(GOOD_FCS)
  {
    OnesRegister();
    EndBits();
    FeedIsFeedBits(0, Ones(16));
  }

  lemma NotIsXor(s: seq<bool>)
    requires |s| == 16
    ensures Not(s) == Xor(s, Ones(|s|))
  {
  }

  // Feeding a register its own complement always ends at the same residue.
  lemma {:induction false} ComplementResidue(s: seq<bool>, zeros: seq<bool>)
    requires |s| == 16 && zeros == Zeros(|s|)
    ensures FeedBits(s, Not(s)) == FeedBits(zeros, Ones(|s|))
  {
    NotIsXor(s);
    FeedLinear(s, zeros, s, Ones(|s|));
    ClearedIff(s, s);
    assert s + Zeros(0) == s && Xor(s, zeros) == s;
    var t := FeedBits(zeros, Ones(|s|));
    assert Xor(zeros, t) == t;
  }

  // After register bits s, sixteen more bits lead to the residue exactly when they are the complement of s.
  lemma ResidueBits(s: seq<bool>, field: seq<bool>)
    requires |s| == |field| == 16
    ensures FeedBits(s, field) == FeedBits(Zeros(16), Ones(16)) <==> field == Not(s)
  {
    ComplementResidue(s, Zeros(16));
    if FeedBits(s, field) == FeedBits(Zeros(16), Ones(16)) {
      WindowInjective(s, field, Not(s));
    }
  }

  lemma RegisterSplit(packet: seq<byte>)
    requires |packet| >= 2
    ensures var n := |packet| - 2;
      WordBits(Register(packet)) == FeedBits(WordBits(Register(packet[..n])), MessageBits(packet[n..]))
  {
    var n := |packet| - 2;
    assert packet == packet[..n] + packet[n..];
    MessageBitsConcat(packet[..n], packet[n..]);
    FeedConcat(START, MessageBits(packet[..n]), MessageBits(packet[n..]));
    FeedIsFeedBits(Register(packet[..n]), MessageBits(packet[n..]));
  }

  // A packet is intact exactly when its field repeats the complement of the register before it.
  lemma IntactBits(packet: seq<byte>, r: word)
    requires |packet| >= 2 && r == Register(packet[..|packet| - 2])
    ensures Intact(packet) <==> MessageBits(packet[|packet| - 2..]) == Not(WordBits(r))
  {
    var field, good := packet[|packet| - 2..], Pack16(SwapBytes(!r));
    FieldBits(!r);
    ComplementBits(r);
    if MessageBits(field) == MessageBits(good) {
      MessageBitsInjective(field, good);
    }
  }

  // The register over a packet and its check field ends at 0xF0B8 for the right field and for no other.
  lemma Residue(packet: seq<byte>)
    requires |packet| >= 2
    ensures Register(packet) == 0xF0B8 <==> Intact(packet)
  {
    var n := |packet| - 2;
    var r := Register(packet[..n]);
    RegisterSplit(packet);
    ResidueBits(WordBits(r), MessageBits(packet[n..]));
    IntactBits(packet, r);
    OnesResidue();
    if WordBits(Register(packet)) == WordBits(GOOD_FCS) {
      WordBitsInjective(Register(packet), GOOD_FCS);
    }
  }

  // ---------- bursts ----------

  // The bits that differ lie in one window of sixteen, counted from bit i of the packet.
  ghost predicate DifferWithin(p: seq<byte>, q: seq<byte>, i: nat)
    requires |p| == |q|
  {
    forall k :: 0 <= k < 8 * |p| && !(i <= k < i + 16) ==> MessageBits(p)[k] == MessageBits(q)[k]
  }

  lemma FeedThree(s: seq<bool>, a: seq<bool>, i: nat, j: nat)
    requires |s| == 16 && i <= j <= |a|
    ensures FeedBits(s, a) == FeedBits(FeedBits(FeedBits(s, a[..i]), a[i..j]), a[j..])
  {
    assert a == a[..i] + a[i..] && a[i..] == a[i..j] + a[j..];
    FeedBitsConcat(s, a[..i], a[i..]);
    FeedBitsConcat(FeedBits(s, a[..i]), a[i..j], a[j..]);
  }

  lemma {:induction false} SameRegister(s: seq<bool>, a: seq<bool>, b: seq<bool>, i: nat)
    requires |s| == 16 && |a| == |b|
    requires forall k :: 0 <= k < |a| && !(i <= k < i + 16) ==> a[k] == b[k]
    requires FeedBits(s, a) == FeedBits(s, b)
    ensures a == b
  {
    if i < |a| {
      var j := if i + 16 <= |a| then i + 16 else |a|;
      assert a[..i] == b[..i] && a[j..] == b[j..];
      FeedThree(s, a, i, j);
      FeedThree(s, b, i, j);
      var t := FeedBits(s, a[..i]);
      var x, y := FeedBits(t, a[i..j]), FeedBits(t, b[i..j]);
      if x != y {
        FeedInjective(x, y, a[j..]);
      }
      WindowInjective(t, a[i..j], b[i..j]);
      assert a == a[..i] + a[i..j] + a[j..] && b == b[..i] + b[i..j] + b[j..];
    }
  }

  // An intact packet with a burst of at most sixteen bits in it is no longer intact.
  lemma BurstDetected(p: seq<byte>, q: seq<byte>, i: nat)
    requires |p| == |q| >= 2 && p != q
    requires DifferWithin(p, q, i)
    requires Intact(p)
    ensures !Intact(q)
  {
    if Intact(q) {
      Residue(p);
      Residue(q);
      FeedIsFeedBits(START, MessageBits(p));
      FeedIsFeedBits(START, MessageBits(q));
      SameRegister(WordBits(START), MessageBits(p), MessageBits(q), i);
      MessageBitsInjective(p, q);
      assert false;
    }
  }

  // ---------- parity ----------

  const TAPS: seq<bool> := Zeros(3) + [true] + Zeros(6) + [true] + Zeros(4) + [true]

  lemma TapsOdd()
    ensures Odd(TAPS)
  {
    OddUniform(3);
    OddUniform(6);
    OddUniform(4);
    assert [true][1..] == [];
    OddConcat(Zeros(3), [true]);
    OddConcat(Zeros(3) + [true], Zeros(6));
    OddConcat(Zeros(3) + [true] + Zeros(6), [true]);
    OddConcat(Zeros(3) + [true] + Zeros(6) + [true], Zeros(4));
    OddConcat(Zeros(3) + [true] + Zeros(6) + [true] + Zeros(4), [true]);
  }

  // The generator has an even number of terms, so the register keeps the parity of what it was fed.
  lemma {:induction false} ShiftParity(s: seq<bool>, b: bool)
    requires |s| == 16
    ensures Odd(Shift(s, b)) == (Odd(s) != b)
  {
    var moved := s[1..] + [false];
    var mask := if s[0] != b then TAPS else Zeros(16);
    assert Shift(s, b) == Xor(moved, mask);
    OddXor(moved, mask);
    OddConcat(s[1..], [false]);
    assert [false][1..] == [];
    TapsOdd();
    OddUniform(16);
  }

  lemma {:induction false} FeedParity(s: seq<bool>, bits: seq<bool>)
    requires |s| == 16
    ensures Odd(FeedBits(s, bits)) == (Odd(s) != Odd(bits))
    decreases |bits|
  {
    if bits == [] {
    } else {
      ShiftParity(s, bits[0]);
      FeedParity(Shift(s, bits[0]), bits[1..]);
    }
  }

  lemma NotParity(s: seq<bool>)
    requires |s| == 16
    ensures Odd(Not(s)) == Odd(s)
  {
    NotIsXor(s);
    OddXor(s, Ones(|s|));
    OddUniform(|s|);
  }

  lemma RegisterParity(start: seq<bool>, n: nat, bits: seq<bool>)
    requires |start| == 16 == n && start == Ones(n)
    ensures Odd(FeedBits(start, bits)) == Odd(bits)
  {
    OddUniform(n);
    FeedParity(start, bits);
  }

  lemma FieldParity(r: word)
    ensures Odd(MessageBits(Pack16(SwapBytes(!r)))) == Odd(WordBits(r))
  {
    FieldBits(!r);
    ComplementBits(r);
    NotParity(WordBits(r));
  }

  // The check field has the bit parity of the message it covers.
  lemma ChecksumParity(data: seq<byte>)
    ensures Odd(MessageBits(Pack16(Checksum(data)))) == Odd(MessageBits(data))
  {
    FieldParity(Register(data));
    EndBits();
    FeedIsFeedBits(START, MessageBits(data));
    RegisterParity(WordBits(START), 16, MessageBits(data));
  }

  lemma IntactIsEven(packet: seq<byte>)
    requires |packet| >= 2 && Intact(packet)
    ensures !Odd(MessageBits(packet))
  {
    var n := |packet| - 2;
    assert packet == packet[..n] + packet[n..];
    MessageBitsConcat(packet[..n], packet[n..]);
    OddConcat(MessageBits(packet[..n]), MessageBits(packet[n..]));
    ChecksumParity(packet[..n]);
  }

  // An odd number of flipped bits, wherever they are, is noticed.
  lemma OddFlipsDetected(p: seq<byte>, q: seq<byte>)
    requires |p| == |q| >= 2
    requires Odd(Xor(MessageBits(p), MessageBits(q)))
    requires Intact(p)
    ensures !Intact(q)
  {
    OddXor(MessageBits(p), MessageBits(q));
    IntactIsEven(p);
    if Intact(q) {
      IntactIsEven(q);
    }
  }
}
