/**
  Byte order. The controller writes the memory image of a value that it has first converted to
  network order; the requester packs big-endian bytes directly, and also builds the same bytes as a
  list of shifts and masks for the checksum.
 */
module Endian {
  import opened Bits

  // ---------- big-endian packing, as struct.pack does it ----------

  function Pack16(w: word): (s: seq<byte>)
    ensures |s| == 2
  {
    [(w >> 8) as byte, (w & 0xFF) as byte]
  }

  function Pack32(d: dword): (s: seq<byte>)
    ensures |s| == 4
  {
    Pack16((d >> 16) as word) + Pack16((d & 0xFFFF) as word)
  }

  function Pack64(q: qword): (s: seq<byte>)
    ensures |s| == 8
  {
    Pack32((q >> 32) as dword) + Pack32((q & 0xFFFF_FFFF) as dword)
  }

  function Unpack16(s: seq<byte>): word
    requires |s| == 2
  {
    ((s[0] as word) << 8) | (s[1] as word)
  }

  function Unpack32(s: seq<byte>): dword
    requires |s| == 4
  {
    ((Unpack16(s[..2]) as dword) << 16) | (Unpack16(s[2..]) as dword)
  }

  function Unpack64(s: seq<byte>): qword
    requires |s| == 8
  {
    ((Unpack32(s[..4]) as qword) << 32) | (Unpack32(s[4..]) as qword)
  }

  lemma Join16(w: word)
    ensures ((((w >> 8) as byte) as word) << 8) | (((w & 0xFF) as byte) as word) == w
  {
  }

  lemma Join32(d: dword)
    ensures ((((d >> 16) as word) as dword) << 16) | (((d & 0xFFFF) as word) as dword) == d
  {
  }

  lemma Join64(q: qword)
    ensures ((((q >> 32) as dword) as qword) << 32) | (((q & 0xFFFF_FFFF) as dword) as qword) == q
  {
  }

  lemma Unpack16Pack16(w: word)
    ensures Unpack16(Pack16(w)) == w
  {
    Join16(w);
  }

  lemma Unpack32Pack32(d: dword)
    ensures Unpack32(Pack32(d)) == d
  {
    Unpack16Pack16((d >> 16) as word);
    Unpack16Pack16((d & 0xFFFF) as word);
    Join32(d);
  }

  lemma Unpack64Pack64(q: qword)
    ensures Unpack64(Pack64(q)) == q
  {
    Unpack32Pack32((q >> 32) as dword);
    Unpack32Pack32((q & 0xFFFF_FFFF) as dword);
    Join64(q);
  }

  lemma Split16(a: byte, b: byte)
    ensures var w := ((a as word) << 8) | (b as word); (w >> 8) as byte == a && (w & 0xFF) as byte == b
  {
  }

  lemma Split32(a: word, b: word)
    ensures var d := ((a as dword) << 16) | (b as dword); (d >> 16) as word == a && (d & 0xFFFF) as word == b
  {
  }

  lemma Split64(a: dword, b: dword)
    ensures var q := ((a as qword) << 32) | (b as qword); (q >> 32) as dword == a && (q & 0xFFFF_FFFF) as dword == b
  {
  }

  lemma Pack16Unpack16(s: seq<byte>)
    requires |s| == 2
    ensures Pack16(Unpack16(s)) == s
  {
    Split16(s[0], s[1]);
  }

  lemma Pack32Unpack32(s: seq<byte>)
    requires |s| == 4
    ensures Pack32(Unpack32(s)) == s
  {
    Split32(Unpack16(s[..2]), Unpack16(s[2..]));
    Pack16Unpack16(s[..2]);
    Pack16Unpack16(s[2..]);
  }

  lemma Pack64Unpack64(s: seq<byte>)
    requires |s| == 8
    ensures Pack64(Unpack64(s)) == s
  {
    Split64(Unpack32(s[..4]), Unpack32(s[4..]));
    Pack32Unpack32(s[..4]);
    Pack32Unpack32(s[4..]);
  }

  // ---------- shift-and-mask lists ----------

  function ShiftList16(w: word): (s: seq<byte>)
    ensures |s| == 2
  {
    [((w >> 8) & 0xFF) as byte, ((w >> 0) & 0xFF) as byte]
  }

  function ShiftList64(q: qword): (s: seq<byte>)
    ensures |s| == 8
  {
    [((q >> 56) & 0xFF) as byte, ((q >> 48) & 0xFF) as byte, ((q >> 40) & 0xFF) as byte, ((q >> 32) & 0xFF) as byte,
     ((q >> 24) & 0xFF) as byte, ((q >> 16) & 0xFF) as byte, ((q >> 8) & 0xFF) as byte, ((q >> 0) & 0xFF) as byte]
  }

  lemma ShiftListIsPack16(w: word)
    ensures ShiftList16(w) == Pack16(w)
  {
    assert (w >> 8) & 0xFF == w >> 8;
  }

  lemma Quarters(d: dword)
    ensures Pack32(d)
      == [((d >> 24) & 0xFF) as byte, ((d >> 16) & 0xFF) as byte, ((d >> 8) & 0xFF) as byte, (d & 0xFF) as byte]
  {
    QuarterBytes(d);
  }

  lemma QuarterBytes(d: dword)
    ensures ((((d >> 16) as word) >> 8) as byte) == ((d >> 24) & 0xFF) as byte
    ensures ((((d >> 16) as word) & 0xFF) as byte) == ((d >> 16) & 0xFF) as byte
    ensures ((((d & 0xFFFF) as word) >> 8) as byte) == ((d >> 8) & 0xFF) as byte
    ensures ((((d & 0xFFFF) as word) & 0xFF) as byte) == (d & 0xFF) as byte
  {
  }

  lemma EighthBytes(q: qword)
    ensures var d := (q >> 32) as dword;
      && ((d >> 24) & 0xFF) as byte == ((q >> 56) & 0xFF) as byte
      && ((d >> 16) & 0xFF) as byte == ((q >> 48) & 0xFF) as byte
      && ((d >> 8) & 0xFF) as byte == ((q >> 40) & 0xFF) as byte
      && (d & 0xFF) as byte == ((q >> 32) & 0xFF) as byte
    ensures var d := (q & 0xFFFF_FFFF) as dword;
      && ((d >> 24) & 0xFF) as byte == ((q >> 24) & 0xFF) as byte
      && ((d >> 16) & 0xFF) as byte == ((q >> 16) & 0xFF) as byte
      && ((d >> 8) & 0xFF) as byte == ((q >> 8) & 0xFF) as byte
      && (d & 0xFF) as byte == ((q >> 0) & 0xFF) as byte
  {
  }

  lemma HighFour(q: qword)
    ensures Pack32((q >> 32) as dword)
      == [((q >> 56) & 0xFF) as byte, ((q >> 48) & 0xFF) as byte, ((q >> 40) & 0xFF) as byte,
        ((q >> 32) & 0xFF) as byte]
  {
    EighthBytes(q);
    Quarters((q >> 32) as dword);
  }

  lemma LowFour(q: qword)
    ensures Pack32((q & 0xFFFF_FFFF) as dword)
      == [((q >> 24) & 0xFF) as byte, ((q >> 16) & 0xFF) as byte, ((q >> 8) & 0xFF) as byte, ((q >> 0) & 0xFF) as byte]
  {
    EighthBytes(q);
    Quarters((q & 0xFFFF_FFFF) as dword);
  }

  lemma FourAndFour(a: byte, b: byte, c: byte, d: byte, e: byte, f: byte, g: byte, h: byte)
    ensures [a, b, c, d, e, f, g, h] == [a, b, c, d] + [e, f, g, h]
  {
  }

  // The list that the requester's checksum covers is the one struct.pack puts on the wire.
  lemma ShiftListIsPack64(q: qword)
    ensures ShiftList64(q) == Pack64(q)
  {
    HighFour(q);
    LowFour(q);
    FourAndFour(
      ((q >> 56) & 0xFF) as byte, ((q >> 48) & 0xFF) as byte, ((q >> 40) & 0xFF) as byte, ((q >> 32) & 0xFF) as byte,
      ((q >> 24) & 0xFF) as byte, ((q >> 16) & 0xFF) as byte, ((q >> 8) & 0xFF) as byte, ((q >> 0) & 0xFF) as byte);
  }

  // ---------- the controller's host ----------

  datatype Host = LittleEndian | BigEndianHost

  function Reverse(s: seq<byte>): (t: seq<byte>)
    ensures |t| == |s|
  {
    if s == [] then [] else Reverse(s[1..]) + [s[0]]
  }

  lemma {:induction false} ReverseConcat(a: seq<byte>, b: seq<byte>)
    ensures Reverse(a + b) == Reverse(b) + Reverse(a)
  {
    if a == [] {
      assert a + b == b;
    } else {
      assert (a + b)[1..] == a[1..] + b;
      ReverseConcat(a[1..], b);
    }
  }

  lemma {:induction false} ReverseTwice(s: seq<byte>)
    ensures Reverse(Reverse(s)) == s
  {
    if s == [] {
    } else {
      ReverseTwice(s[1..]);
      ReverseConcat(Reverse(s[1..]), [s[0]]);
      assert Reverse([s[0]]) == [s[0]];
      assert [s[0]] + s[1..] == s;
    }
  }

  // The bytes of a value in the host's memory.
  function Store16(h: Host, w: word): seq<byte> {
    if h.LittleEndian? then Reverse(Pack16(w)) else Pack16(w)
  }

  function Store32(h: Host, d: dword): seq<byte> {
    if h.LittleEndian? then Reverse(Pack32(d)) else Pack32(d)
  }

  function Store64(h: Host, q: qword): seq<byte> {
    if h.LittleEndian? then Reverse(Pack64(q)) else Pack64(q)
  }

  function Load16(h: Host, s: seq<byte>): word
    requires |s| == 2
  {
    Unpack16(if h.LittleEndian? then Reverse(s) else s)
  }

  function Load32(h: Host, s: seq<byte>): dword
    requires |s| == 4
  {
    Unpack32(if h.LittleEndian? then Reverse(s) else s)
  }

  function Load64(h: Host, s: seq<byte>): qword
    requires |s| == 8
  {
    Unpack64(if h.LittleEndian? then Reverse(s) else s)
  }

  // htons and htonl: the value whose memory image is the big-endian one; ntohs and ntohl are the same maps.
  function Htons(h: Host, w: word): word {
    Load16(h, Pack16(w))
  }

  function Htonl(h: Host, d: dword): dword {
    Load32(h, Pack32(d))
  }

  function Ntohs(h: Host, w: word): word {
    Unpack16(Store16(h, w))
  }

  // The macro of the source, made of two 32-bit conversions.
  function Htonll(h: Host, q: qword): qword {
    if 1 == Htonl(h, 1) then q
    else Crossed(Htonl(h, (q & 0xFFFF_FFFF) as dword), Htonl(h, (q >> 32) as dword))
  }

  function Crossed(a: dword, b: dword): qword {
    ((a as qword) << 32) | (b as qword)
  }

  // The function of the source, which fills the result's memory byte by byte.
  function Ntoh64(h: Host, q: qword): qword {
    Load64(h, ShiftList64(q))
  }

  lemma StoreHtons(h: Host, w: word)
    ensures Store16(h, Htons(h, w)) == Pack16(w)
  {
    ReverseTwice(Pack16(w));
    Pack16Unpack16(Pack16(w));
    Pack16Unpack16(Reverse(Pack16(w)));
  }

  lemma NtohsLoad(h: Host, s: seq<byte>)
    requires |s| == 2
    ensures Ntohs(h, Load16(h, s)) == Unpack16(s)
  {
    ReverseTwice(s);
    Pack16Unpack16(s);
    Pack16Unpack16(Reverse(s));
  }

  lemma ReversedOne()
    ensures Htonl(LittleEndian, 1) == 0x0100_0000 && Htonl(BigEndianHost, 1) == 1
  {
    Unpack32Pack32(1);
    assert Pack16(1) == [0, 1] && Pack16(0) == [0, 0];
    ReverseConcat(Pack16(0), Pack16(1));
    assert Reverse([1]) == [1] && Reverse([0]) == [0];
    assert Reverse(Pack16(1)) == [1, 0] by { ReverseConcat([0], [1]); assert [0] + [1] == [0, 1]; }
    assert Reverse(Pack16(0)) == [0, 0] by { ReverseConcat([0], [0]); assert [0] + [0] == [0, 0]; }
  }

  lemma PackHalves(q: qword, a: dword, b: dword)
    requires (q >> 32) as dword == a && (q & 0xFFFF_FFFF) as dword == b
    ensures Pack64(q) == Pack32(a) + Pack32(b)
  {
  }

  lemma PackCrossed(a: dword, b: dword)
    ensures Pack64(Crossed(a, b)) == Pack32(a) + Pack32(b)
  {
    Split64(a, b);
    PackHalves(Crossed(a, b), a, b);
  }

  lemma StoreHtonl(h: Host, d: dword)
    ensures Store32(h, Htonl(h, d)) == Pack32(d)
  {
    ReverseTwice(Pack32(d));
    Pack32Unpack32(Pack32(d));
    Pack32Unpack32(Reverse(Pack32(d)));
  }

  lemma StoreCrossed(lo: dword, hi: dword)
    ensures Store64(LittleEndian, Crossed(Htonl(LittleEndian, lo), Htonl(LittleEndian, hi))) == Pack32(hi) + Pack32(lo)
  {
    var a, b := Htonl(LittleEndian, lo), Htonl(LittleEndian, hi);
    PackCrossed(a, b);
    ReverseConcat(Pack32(a), Pack32(b));
    StoreHtonl(LittleEndian, lo);
    StoreHtonl(LittleEndian, hi);
  }

  lemma HtonllCases(h: Host, q: qword)
    ensures Htonll(h, q)
      == if h.LittleEndian? then Crossed(Htonl(h, (q & 0xFFFF_FFFF) as dword), Htonl(h, (q >> 32) as dword)) else q
  {
    ReversedOne();
  }

  // On either host the memory image of the converted time tag is its big-endian packing.
  lemma StoreHtonll(h: Host, q: qword)
    ensures Store64(h, Htonll(h, q)) == Pack64(q)
  {
    HtonllCases(h, q);
    StoreCrossed((q & 0xFFFF_FFFF) as dword, (q >> 32) as dword);
  }

  lemma Ntoh64Load(h: Host, s: seq<byte>)
    requires |s| == 8
    ensures Ntoh64(h, Load64(h, s)) == Unpack64(s)
  {
    ShiftListIsPack64(Load64(h, s));
    ReverseTwice(s);
    Pack64Unpack64(s);
    Pack64Unpack64(Reverse(s));
  }

  // The two 64-bit conversions, written independently of each other, undo each other on either host.
  lemma Ntoh64Htonll(h: Host, q: qword)
    ensures Ntoh64(h, Htonll(h, q)) == q
  {
    StoreHtonll(h, q);
    ShiftListIsPack64(Htonll(h, q));
    ReverseTwice(Pack64(Htonll(h, q)));
    Unpack64Pack64(q);
  }

  // ---------- what the conversions do to a value ----------

  lemma SwapTwice(w: word)
    ensures Unpack16([(w & 0xFF) as byte, (w >> 8) as byte]) == (w << 8) | (w >> 8)
  {
  }

  // On a big-endian host nothing changes, on a little-endian one the bytes change places.
  lemma HtonsOnHosts(w: word)
    ensures Htons(BigEndianHost, w) == w && Htons(LittleEndian, w) == (w << 8) | (w >> 8)
    ensures Ntohs(BigEndianHost, w) == w && Ntohs(LittleEndian, w) == (w << 8) | (w >> 8)
  {
    Unpack16Pack16(w);
    SwapTwice(w);
    LowFirst(w);
  }

  // In the memory of a little-endian host the low byte comes first.
  lemma LowFirst(w: word)
    ensures Pack16(w) == [(w >> 8) as byte, (w & 0xFF) as byte]
    ensures Store16(LittleEndian, w) == [(w & 0xFF) as byte, (w >> 8) as byte]
  {
    assert Reverse([(w & 0xFF) as byte]) == [(w & 0xFF) as byte];
  }
}
