/**
  The packets of the protocol, as the requester (struct and shift lists) and the controller
  (memory images in network order) write and read them.

  A control packet is a 10-byte header.  A data packet is a header, an 11-byte payload and a 2-byte
  frame check over both.
 */
module Packets {
  import opened Wrappers
  import opened Bits
  import opened Crc16
  import opened Endian
  import opened FrameCheck

  const MAGIC: byte := 0x0E
  const NODE_ADDRESS: word := 0x3E8
  const CLASS_DATA: byte := 0x02
  const CLASS_ACK: byte := 0xC1
  const CLASS_NAK: byte := 0x81

  datatype Header = Header(magic: byte, txAddr: word, rxAddr: word, msgClass: byte, msgId: word, msgLen: word)
  datatype Payload = Payload(timeTag: qword, command: byte, floor: byte, direction: byte)

  // ---------- the wire image ----------

  function HeaderRaw(h: Header): (s: seq<byte>)
    ensures |s| == 10
  {
    [h.magic] + Pack16(h.txAddr) + Pack16(h.rxAddr) + [h.msgClass] + Pack16(h.msgId) + Pack16(h.msgLen)
  }

  function PayloadRaw(p: Payload): (s: seq<byte>)
    ensures |s| == 11
  {
    Pack64(p.timeTag) + [p.command, p.floor, p.direction]
  }

  function Frame(h: Header, p: Payload): (s: seq<byte>)
    ensures |s| == 23
  {
    var body := HeaderRaw(h) + PayloadRaw(p);
    body + Pack16(Checksum(body))
  }

  function ParseHeader(s: seq<byte>): Header
    requires |s| >= 10
  {
    Header(s[0], Unpack16(s[1..3]), Unpack16(s[3..5]), s[5], Unpack16(s[6..8]), Unpack16(s[8..10]))
  }

  function ParsePayload(s: seq<byte>): Payload
    requires |s| >= 21
  {
    Payload(Unpack64(s[10..18]), s[18], s[19], s[20])
  }

  lemma HeaderPieces(h: Header, rest: seq<byte>)
    ensures var s := HeaderRaw(h) + rest;
      && s[0] == h.magic && s[1..3] == Pack16(h.txAddr) && s[3..5] == Pack16(h.rxAddr)
      && s[5] == h.msgClass && s[6..8] == Pack16(h.msgId) && s[8..10] == Pack16(h.msgLen) && s[10..] == rest
  {
    var a, b, c, d := Pack16(h.txAddr), Pack16(h.rxAddr), Pack16(h.msgId), Pack16(h.msgLen);
    Pieces([h.magic], a, b, [h.msgClass], c, d, rest);
  }

  lemma Pieces(m: seq<byte>, a: seq<byte>, b: seq<byte>, k: seq<byte>, c: seq<byte>, d: seq<byte>,
    rest: seq<byte>)
    requires |m| == |k| == 1 && |a| == |b| == |c| == |d| == 2
    ensures var s := m + a + b + k + c + d + rest;
      && s[0] == m[0] && s[1..3] == a && s[3..5] == b && s[5] == k[0] && s[6..8] == c && s[8..10] == d
        && s[10..] == rest
  {
  }

  lemma ParseHeaderRaw(h: Header, rest: seq<byte>)
    ensures ParseHeader(HeaderRaw(h) + rest) == h
  {
    HeaderPieces(h, rest);
    Unpack16Pack16(h.txAddr);
    Unpack16Pack16(h.rxAddr);
    Unpack16Pack16(h.msgId);
    Unpack16Pack16(h.msgLen);
  }

  lemma HeaderRawParse(s: seq<byte>)
    requires |s| >= 10
    ensures HeaderRaw(ParseHeader(s)) == s[..10]
  {
    Pack16Unpack16(s[1..3]);
    Pack16Unpack16(s[3..5]);
    Pack16Unpack16(s[6..8]);
    Pack16Unpack16(s[8..10]);
    assert s[..10] == [s[0]] + s[1..3] + s[3..5] + [s[5]] + s[6..8] + s[8..10];
  }

  lemma ParsePayloadRaw(h: Header, p: Payload, rest: seq<byte>)
    ensures ParsePayload(HeaderRaw(h) + PayloadRaw(p) + rest) == p
  {
    var s := HeaderRaw(h) + PayloadRaw(p) + rest;
    assert s[10..18] == Pack64(p.timeTag);
    Unpack64Pack64(p.timeTag);
  }

  lemma PayloadRawParse(s: seq<byte>)
    requires |s| >= 21
    ensures PayloadRaw(ParsePayload(s)) == s[10..21]
  {
    Pack64Unpack64(s[10..18]);
    assert s[10..21] == s[10..18] + [s[18], s[19], s[20]];
  }

  lemma FrameParts(h: Header, p: Payload)
    ensures ParseHeader(Frame(h, p)) == h && ParsePayload(Frame(h, p)) == p
    ensures Frame(h, p)[..21] == HeaderRaw(h) + PayloadRaw(p) && Intact(Frame(h, p))
  {
    var body := HeaderRaw(h) + PayloadRaw(p);
    var crc := Pack16(Checksum(body));
    assert Frame(h, p) == HeaderRaw(h) + (PayloadRaw(p) + crc);
    ParseHeaderRaw(h, PayloadRaw(p) + crc);
    ParsePayloadRaw(h, p, crc);
  }

  // ---------- requester: sending ----------

  // What one call or go item asks for.
  datatype ReqMsg = ReqMsg(txAddr: word, rxAddr: word, msgId: word, msgClass: byte,
                           timeTag: qword, reqTyp: byte, floor: byte, direction: byte)

  function ReqHeader(m: ReqMsg): Header {
    Header(MAGIC, m.txAddr, m.rxAddr, m.msgClass, m.msgId, 23)
  }

  function ReqPayload(m: ReqMsg): Payload {
    Payload(m.timeTag, m.reqTyp, m.floor, m.direction)
  }

  function ReqBytes(m: ReqMsg): (s: seq<byte>)
    ensures |s| == 23
  {
    Frame(ReqHeader(m), ReqPayload(m))
  }

  lemma RequestLayout(m: ReqMsg)
    ensures var body := [0x0E] + Pack16(m.txAddr) + Pack16(m.rxAddr) + [m.msgClass] + Pack16(m.msgId) + [0, 23]
        + Pack64(m.timeTag) + [m.reqTyp, m.floor, m.direction];
      ReqBytes(m) == body + Pack16(Checksum(body))
    ensures Intact(ReqBytes(m)) && Unpack16(ReqBytes(m)[8..10]) as int == |ReqBytes(m)|
  {
    LengthBytes();
    FrameParts(ReqHeader(m), ReqPayload(m));
    var body := [0x0E] + Pack16(m.txAddr) + Pack16(m.rxAddr) + [m.msgClass] + Pack16(m.msgId) + [0, 23]
      + Pack64(m.timeTag) + [m.reqTyp, m.floor, m.direction];
    assert HeaderRaw(ReqHeader(m)) + PayloadRaw(ReqPayload(m)) == body;
    assert ReqBytes(m)[8..10] == [0, 23];
  }

  // The two lengths on the wire: a data packet and a control packet.
  lemma LengthBytes()
    ensures Pack16(23) == [0, 23] && Pack16(10) == [0, 10]
    ensures Unpack16([0, 23]) == 23 && Unpack16([0, 10]) == 10
  {
  }

  // MsgHeader.getData
  function HeaderList(h: Header): (s: seq<byte>)
    ensures |s| == 10
  {
    [h.magic & 0xFF] + ShiftList16(h.txAddr) + ShiftList16(h.rxAddr) + [h.msgClass & 0xFF]
      + ShiftList16(h.msgId) + ShiftList16(h.msgLen)
  }

  // The payload part of both getData methods.
  function PayloadList(p: Payload): (s: seq<byte>)
    ensures |s| == 11
  {
    ShiftList64(p.timeTag) + [p.command & 0xFF] + [p.floor & 0xFF] + [p.direction & 0xFF]
  }

  // The list the checksum covers is the packed image, on the sending and on the receiving side.
  lemma ListIsRaw(h: Header, p: Payload)
    ensures HeaderList(h) == HeaderRaw(h) && PayloadList(p) == PayloadRaw(p)
  {
    ByteMask(h.magic);
    ByteMask(h.msgClass);
    ShiftListIsPack16(h.txAddr);
    ShiftListIsPack16(h.rxAddr);
    ShiftListIsPack16(h.msgId);
    ShiftListIsPack16(h.msgLen);
    ByteMask(p.command);
    ByteMask(p.floor);
    ByteMask(p.direction);
    ShiftListIsPack64(p.timeTag);
  }

  // EncodeReqPacket: calcCRC on construction, serialize on sending.
  method EncodeRequest(m: ReqMsg) returns (raw: seq<byte>)
    ensures raw == ReqBytes(m)
    ensures |raw| == 23 && raw[0] == 0x0E && raw[5] == m.msgClass && Unpack16(raw[8..10]) as int == |raw|
    ensures raw[18..21] == [m.reqTyp, m.floor, m.direction] && Intact(raw)
  {
    RequestLayout(m);
    var h := ReqHeader(m);
    ListIsRaw(h, ReqPayload(m));
    var data := HeaderList(h);
    data := data + PayloadList(ReqPayload(m));
    var crc := Compute(data);
    raw := HeaderRaw(h);
    raw := raw + (Pack64(m.timeTag) + [m.reqTyp, m.floor, m.direction] + Pack16(crc));
    assert raw == HeaderRaw(h) + PayloadRaw(ReqPayload(m)) + Pack16(crc);
  }

  // ---------- requester: receiving ----------

  datatype Kind = Ack | Nak | Data | Unknown

  function KindOf(c: byte): Kind {
    if c & 0xC1 == 0xC1 then Ack
    else if c & 0x81 == 0x81 then Nak
    else if c & 0x02 == 0x02 then Data
    else Unknown
  }

  function ExpectedLen(k: Kind): word {
    match k
    case Ack => 10
    case Nak => 10
    case Data => 23
    case Unknown => 0
  }

  datatype RecPacket = RecPacket(header: Header, kind: Kind, isOk: bool, payload: Payload, crc: word, expCrc: word)

  const NO_PAYLOAD: Payload := Payload(0, 0, 0, 0)

  // DecodeRecPacket.deserialize; None is the struct.error that a short buffer raises.
  function Decode(buf: seq<byte>): Option<RecPacket> {
    if |buf| < 10 then None
    else
      var h := ParseHeader(buf);
      var k := KindOf(h.msgClass);
      var ok := h.magic == MAGIC && k != Unknown && h.msgLen == ExpectedLen(k);
      if k != Data then Some(RecPacket(h, k, ok, NO_PAYLOAD, 0, 0))
      else if |buf| < 23 then None
      else
        var p := ParsePayload(buf);
        var crc := Unpack16(buf[21..23]);
        var exp := Checksum(HeaderList(h) + PayloadList(p));
        Some(RecPacket(h, k, ok && exp == crc, p, crc, exp))
  }

  // The receiver's object: deserialize fills its fields in the order of the source.
  class DecodeRecPacket {
    const binBuf: seq<byte>
    var header: Header
    var isOk: bool
    var isAck: bool
    var isNak: bool
    var isData: bool
    var payload: Payload
    var crc: word
    var expCrc: word

    constructor (buf: seq<byte>)
      ensures binBuf == buf
      ensures Fresh()
    {
      binBuf := buf;
      header := Header(MAGIC, 0, 0, 0, 0, 0);
      isOk, isAck, isNak, isData := true, false, false, false;
      payload, crc, expCrc := NO_PAYLOAD, 0, 0;
    }

    function Flags(): Kind
      reads this
    {
      if isAck then Ack else if isNak then Nak else if isData then Data else Unknown
    }

    function Contents(): RecPacket
      reads this
    {
      RecPacket(header, Flags(), isOk, payload, crc, expCrc)
    }

    predicate Fresh()
      reads this
    {
      isOk && !isAck && !isNak && !isData && payload == NO_PAYLOAD && crc == 0 && expCrc == 0
    }

    // The class byte decides the flags and the expected length.
    method Classify(msgClass: byte) returns (expLen: word)
      requires !isAck && !isNak && !isData
      modifies this`isOk, this`isAck, this`isNak, this`isData
      ensures Flags() == KindOf(msgClass) && isData == (Flags() == Data)
      ensures isOk == (old(isOk) && Flags() != Unknown)
      ensures expLen == ExpectedLen(Flags())
    {
      expLen := 0;
      if msgClass & 0xC1 == 0xC1 {
        isAck := true;
        expLen := 10;
      } else if msgClass & 0x81 == 0x81 {
        isNak := true;
        expLen := 10;
      } else if msgClass & 0x02 == 0x02 {
        isData := true;
        expLen := 10 + 13;
      } else {
        isOk := false;
      }
    }

    method DeserializeHeader()
      requires |binBuf| >= 10 && Fresh()
      modifies this
      ensures header == ParseHeader(binBuf)
      ensures Flags() == KindOf(header.msgClass) && isData == (Flags() == Data)
      ensures isOk == (header.magic == MAGIC && Flags() != Unknown && header.msgLen == ExpectedLen(Flags()))
      ensures payload == NO_PAYLOAD && crc == 0 && expCrc == 0
    {
      header := ParseHeader(binBuf);
      if header.magic != MAGIC {
        isOk := false;
      }
      var expLen := Classify(header.msgClass);
      if header.msgLen != expLen {
        isOk := false;
      }
    }

    method DeserializePayload()
      requires |binBuf| >= 23
      modifies this`payload, this`crc, this`expCrc, this`isOk
      ensures payload == ParsePayload(binBuf) && crc == Unpack16(binBuf[21..23])
      ensures expCrc == Checksum(HeaderList(header) + PayloadList(payload))
      ensures isOk == (old(isOk) && expCrc == crc)
    {
      payload := Payload(Unpack64(binBuf[10..18]), binBuf[18], binBuf[19], binBuf[20]);
      crc := Unpack16(binBuf[21..23]);
      var exp := Compute(HeaderList(header) + PayloadList(payload));
      expCrc := exp;
      if expCrc != crc {
        isOk := false;
      }
    }

    method Deserialize() returns (raised: bool)
      requires Fresh()
      modifies this
      ensures raised == Decode(binBuf).None?
      ensures !raised ==> Some(Contents()) == Decode(binBuf)
    {
      if |binBuf| < 10 {
        return true;
      }
      DeserializeHeader();
      if isData {
        if |binBuf| < 23 {
          return true;
        }
        DeserializePayload();
      }
      return false;
    }
  }

  // A data packet is accepted exactly when magic and length are right and the frame check holds.
  lemma AcceptedIff(buf: seq<byte>)
    requires |buf| >= 23 && KindOf(buf[5]) == Data
    ensures Decode(buf).Some? && Decode(buf).value.kind == Data
    ensures Decode(buf).value.isOk <==> buf[0] == 0x0E && Unpack16(buf[8..10]) == 23 && Intact(buf[..23])
    ensures Decode(buf).value.crc == Unpack16(buf[21..23]) && Decode(buf).value.expCrc == Checksum(buf[..21])
  {
    var h, p := ParseHeader(buf), ParsePayload(buf);
    Rebuilt(buf);
    assert buf[..23][..21] == buf[..21] && buf[..23][21..] == buf[21..23];
    Pack16Unpack16(buf[21..23]);
    Unpack16Pack16(Checksum(buf[..21]));
  }

  // A control packet, which has no frame check, is accepted exactly when magic and length are right.
  lemma ControlAcceptedIff(buf: seq<byte>)
    requires |buf| >= 10 && (KindOf(buf[5]) == Ack || KindOf(buf[5]) == Nak)
    ensures Decode(buf).Some? && Decode(buf).value.kind == KindOf(buf[5])
    ensures Decode(buf).value.isOk <==> buf[0] == 0x0E && Unpack16(buf[8..10]) == 10
  {
  }

  // Decoding raises exactly on a buffer too short for its kind; a packet of no kind is not accepted.
  lemma DecodeRaisesIff(buf: seq<byte>)
    ensures Decode(buf).None? <==> |buf| < 10 || (|buf| < 23 && KindOf(buf[5]) == Data)
    ensures |buf| >= 10 && KindOf(buf[5]) == Unknown ==> !Decode(buf).value.isOk
  {
  }

  // The kind of a class byte, bit by bit: bits 7 and 0 make it a control packet, bit 6 tells ACK from
  // NAK, and bit 1 makes the rest data packets.
  lemma KindBits(c: byte)
    ensures var b := BitsOf(c);
      KindOf(c) == if b[7] && b[0] then (if b[6] then Ack else Nak) else if b[1] then Data else Unknown
  {
    ClassMasks(c);
  }

  lemma ClassMasks(c: byte)
    ensures c & 0xC1 == 0xC1 <==> c & 0x80 != 0 && c & 0x40 != 0 && c & 0x01 != 0
    ensures c & 0x81 == 0x81 <==> c & 0x80 != 0 && c & 0x01 != 0
    ensures c & 0x02 == 0x02 <==> c & 0x02 != 0
  {
  }

  // The list rebuilt from the parsed fields is the received packet up to its check field.
  lemma Rebuilt(buf: seq<byte>)
    requires |buf| >= 23
    ensures HeaderList(ParseHeader(buf)) + PayloadList(ParsePayload(buf)) == buf[..21]
  {
    ListIsRaw(ParseHeader(buf), ParsePayload(buf));
    HeaderRawParse(buf);
    PayloadRawParse(buf);
    assert buf[..21] == buf[..10] + buf[10..21];
  }
}
