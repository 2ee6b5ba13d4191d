/**
  The controller's side of the packet protocol: how it parses a request, answers it and reports the
  car's status, through memory images in network byte order on a host of either endianness.
 */
module NetPackets {
  import opened Wrappers
  import opened Bits
  import opened Crc16
  import opened Endian
  import opened FrameCheck
  import opened Packets

  datatype Request = Request(nodeAddr: word, msgId: word, time: qword, cmd: byte, floor: byte, direction: byte)

  // ---------- what the controller answers ----------

  predicate HeaderCheck(h: Header, expLen: word) {
    h.magic == MAGIC && h.msgLen == expLen && h.msgClass == CLASS_DATA
  }

  // The addresses change places; the magic byte and the message id stay as received.
  function ReplyHeader(h: Header): Header {
    Header(h.magic, h.rxAddr, h.txAddr, if HeaderCheck(h, h.msgLen) then CLASS_ACK else CLASS_NAK, h.msgId, 10)
  }

  function HandleReply(packet: seq<byte>): seq<byte>
    requires |packet| >= 21
  {
    HeaderRaw(ReplyHeader(ParseHeader(packet)))
  }

  function HandleRequest(packet: seq<byte>): Request
    requires |packet| >= 21
  {
    var h, p := ParseHeader(packet), ParsePayload(packet);
    Request(h.txAddr, h.msgId, p.timeTag, p.command, p.floor, p.direction)
  }

  function StatusHeader(node: word, id: word): Header {
    Header(MAGIC, NODE_ADDRESS, node, CLASS_DATA, id, 23)
  }

  function StatusBytes(node: word, id: word, cmd: byte, floor: byte, status: byte): (s: seq<byte>)
    ensures |s| == 23
  {
    Frame(StatusHeader(node, id), Payload(0xA, cmd, floor, status))
  }

  // ---------- how it writes and reads them ----------

  // serialize_header swaps the words of its argument in place and writes their memory images.
  method SerializeHeader(host: Host, stream: seq<byte>, header: Header) returns (out: seq<byte>)
    ensures out == stream + HeaderRaw(header)
  {
    var h := header.(txAddr := Htons(host, header.txAddr), rxAddr := Htons(host, header.rxAddr),
                     msgId := Htons(host, header.msgId), msgLen := Htons(host, header.msgLen));
    StoreHtons(host, header.txAddr);
    StoreHtons(host, header.rxAddr);
    StoreHtons(host, header.msgId);
    StoreHtons(host, header.msgLen);
    out := stream + ([h.magic] + Store16(host, h.txAddr) + Store16(host, h.rxAddr) + [h.msgClass]
                     + Store16(host, h.msgId) + Store16(host, h.msgLen));
  }

  method SerializePayload(host: Host, stream: seq<byte>, payload: Payload) returns (out: seq<byte>)
    ensures out == stream + PayloadRaw(payload)
  {
    var p := payload.(timeTag := Htonll(host, payload.timeTag));
    StoreHtonll(host, payload.timeTag);
    out := stream + (Store64(host, p.timeTag) + [p.command, p.floor, p.direction]);
  }

  method SerializeCrc(host: Host, stream: seq<byte>, crc: word) returns (out: seq<byte>)
    ensures out == stream + Pack16(crc)
  {
    StoreHtons(host, crc);
    out := stream + Store16(host, Htons(host, crc));
  }

  method DeserializeHeader(host: Host, stream: seq<byte>) returns (header: Header)
    requires |stream| >= 10
    ensures header == ParseHeader(stream)
  {
    header := Header(stream[0], Load16(host, stream[1..3]), Load16(host, stream[3..5]), stream[5],
                     Load16(host, stream[6..8]), Load16(host, stream[8..10]));
    NtohsLoad(host, stream[1..3]);
    NtohsLoad(host, stream[3..5]);
    NtohsLoad(host, stream[6..8]);
    NtohsLoad(host, stream[8..10]);
    header := header.(txAddr := Ntohs(host, header.txAddr), rxAddr := Ntohs(host, header.rxAddr),
                      msgId := Ntohs(host, header.msgId), msgLen := Ntohs(host, header.msgLen));
  }

  method DeserializePayload(host: Host, stream: seq<byte>) returns (payload: Payload)
    requires |stream| >= 21
    ensures payload == ParsePayload(stream)
  {
    payload := Payload(Load64(host, stream[10..18]), stream[18], stream[19], stream[20]);
    Ntoh64Load(host, stream[10..18]);
    payload := payload.(timeTag := Ntoh64(host, payload.timeTag));
  }

  // What header and payload hold after reading a packet into them: where the stream ends early, the
  // rest keeps whatever the memory held before.
  function ReadInto(packet: seq<byte>, memory: seq<byte>): (image: seq<byte>)
    requires |memory| == 21
    ensures |image| == if |packet| >= 21 then |packet| else 21
    ensures forall k :: 0 <= k < |image| ==> image[k] == if k < |packet| then packet[k] else memory[k]
  {
    if |packet| >= 21 then packet else packet + memory[|packet|..]
  }

  // MsgProtocol::handle: answer first, then parse the payload, whatever the answer was.
  method Handle(host: Host, packet: seq<byte>, memory: seq<byte>) returns (reply: seq<byte>, req: Request)
    requires |memory| == 21
    ensures reply == HandleReply(ReadInto(packet, memory)) && |reply| == 10
    ensures var p := ReadInto(packet, memory);
      reply[5] & 0x3F == 1 && reply[5] & 0xC0 == if p[0] == 0x0E && p[5] == 2 then 0xC0 else 0x80
    ensures req == HandleRequest(ReadInto(packet, memory))
    ensures |packet| >= 21 ==> reply == HandleReply(packet) && req == HandleRequest(packet)
  {
    var image := ReadInto(packet, memory);
    AckedIff(image);
    var header := DeserializeHeader(host, image);
    var packetCheck := HeaderCheck(header, header.msgLen);
    var txAddr, msgId := header.txAddr, header.msgId;
    header := header.(txAddr := header.rxAddr, rxAddr := header.txAddr);
    if packetCheck {
      header := header.(msgClass := CLASS_ACK);
    } else {
      header := header.(msgClass := CLASS_NAK);
    }
    header := header.(msgLen := 10);
    reply := SerializeHeader(host, [], header);
    var payload := DeserializePayload(host, image);
    req := Request(txAddr, msgId, payload.timeTag, payload.command, payload.floor, payload.direction);
  }

  // MsgProtocol::xmit
  method Xmit(host: Host, node: word, id: word, cmd: byte, floor: byte, status: byte) returns (packet: seq<byte>)
    ensures packet == StatusBytes(node, id, cmd, floor, status)
  {
    var header := Header(MAGIC, NODE_ADDRESS, node, 0x02, id, 23);
    var payload := Payload(0xA, cmd, floor, status);
    packet := SerializeHeader(host, [], header);
    packet := SerializePayload(host, packet, payload);
    assert packet == HeaderRaw(header) + PayloadRaw(payload);
    var crc := Compute(packet);
    packet := SerializeCrc(host, packet, crc);
  }

  // ---------- the two codecs agree ----------

  // A request packed by the requester is parsed by the controller into the same fields.
  lemma RequestAcross(m: ReqMsg)
    ensures HandleRequest(ReqBytes(m)) == Request(m.txAddr, m.msgId, m.timeTag, m.reqTyp, m.floor, m.direction)
    ensures HandleReply(ReqBytes(m))
      == HeaderRaw(Header(MAGIC, m.rxAddr, m.txAddr, if m.msgClass == CLASS_DATA then CLASS_ACK else CLASS_NAK,
        m.msgId, 10))
  {
    FrameParts(ReqHeader(m), ReqPayload(m));
  }

  lemma ControlAcross(txAddr: word, rxAddr: word, ack: bool, msgId: word)
    ensures var h := Header(MAGIC, txAddr, rxAddr, if ack then CLASS_ACK else CLASS_NAK, msgId, 10);
      Decode(HeaderRaw(h)) == Some(RecPacket(h, if ack then Ack else Nak, true, NO_PAYLOAD, 0, 0))
  {
    var h := Header(MAGIC, txAddr, rxAddr, if ack then CLASS_ACK else CLASS_NAK, msgId, 10);
    ParseHeaderRaw(h, []);
    assert HeaderRaw(h) + [] == HeaderRaw(h);
    assert KindOf(CLASS_ACK) == Ack && KindOf(CLASS_NAK) == Nak;
  }

  // The answer reaches the requester as an ACK or NAK with the addresses exchanged and the same id.
  lemma ReplyAcross(m: ReqMsg)
    ensures Decode(HandleReply(ReqBytes(m)))
      == Some(RecPacket(Header(MAGIC, m.rxAddr, m.txAddr, if m.msgClass == CLASS_DATA then CLASS_ACK else CLASS_NAK,
        m.msgId, 10),
                        if m.msgClass == CLASS_DATA then Ack else Nak, true, NO_PAYLOAD, 0, 0))
  {
    RequestAcross(m);
    ControlAcross(m.rxAddr, m.txAddr, m.msgClass == CLASS_DATA, m.msgId);
  }

  // A status packet of the controller is accepted by the requester with every field as sent.
  lemma StatusAcross(node: word, id: word, cmd: byte, floor: byte, status: byte)
    ensures var r := Decode(StatusBytes(node, id, cmd, floor, status));
      && r.Some? && r.value.isOk && r.value.kind == Data && r.value.crc == r.value.expCrc
      && (var h := r.value.header;
          && h.txAddr == 1000 && h.rxAddr == node && h.msgId == id && h.msgClass == 2
          && h.magic == 0x0E && h.msgLen == 23)
      && (var p := r.value.payload;
          p.timeTag == 10 && p.command == cmd && p.floor == floor && p.direction == status)
  {
    var h, p := StatusHeader(node, id), Payload(0xA, cmd, floor, status);
    var s := StatusBytes(node, id, cmd, floor, status);
    FrameParts(h, p);
    ListIsRaw(h, p);
    assert KindOf(CLASS_DATA) == Data;
    assert s[21..23] == Pack16(Checksum(HeaderRaw(h) + PayloadRaw(p)));
    Unpack16Pack16(Checksum(HeaderRaw(h) + PayloadRaw(p)));
  }

  // ---------- damaged status packets ----------

  lemma {:induction false} ByteWindow(p: seq<byte>, j: nat)
    requires j < |p|
    ensures MessageBits(p)[8 * j..8 * j + 8] == BitsOf(p[j])
  {
    if j == 0 {
    } else {
      ByteWindow(p[1..], j - 1);
      assert MessageBits(p)[8..] == MessageBits(p[1..]);
      assert MessageBits(p)[8 * j..8 * j + 8] == MessageBits(p)[8..][8 * (j - 1)..8 * (j - 1) + 8];
    }
  }

  // A byte wholly outside the burst is untouched.
  lemma OutsideBurst(p: seq<byte>, q: seq<byte>, i: nat, j: nat)
    requires |p| == |q| && j < |p| && DifferWithin(p, q, i)
    requires 8 * j + 8 <= i || i + 16 <= 8 * j
    ensures p[j] == q[j]
  {
    ByteWindow(p, j);
    ByteWindow(q, j);
    var a, b := MessageBits(p), MessageBits(q);
    forall k | 8 * j <= k < 8 * j + 8
      ensures a[k] == b[k]
    {
    }
    assert a[8 * j..8 * j + 8] == b[8 * j..8 * j + 8];
    BitsOfInjective(p[j], q[j]);
  }

  // Any burst of at most sixteen bits, also one that hits the class byte, the length or the frame
  // check itself, makes the requester reject an accepted status packet.
  lemma BurstRejected(p: seq<byte>, q: seq<byte>, i: nat)
    requires |p| == |q| == 23 && p != q && DifferWithin(p, q, i)
    requires Decode(p).Some? && Decode(p).value.isOk && Decode(p).value.kind == Data
    ensures Decode(q).Some? ==> !Decode(q).value.isOk
    ensures Decode(q).Some?
  {
    assert p[..23] == p && q[..23] == q;
    AcceptedIff(p);
    BurstDetected(p, q, i);
    if KindOf(q[5]) == Data {
      AcceptedIff(q);
    } else {
      if i >= 48 {
        OutsideBurst(p, q, i, 5);
      }
      OutsideBurst(p, q, i, 8);
      OutsideBurst(p, q, i, 9);
      assert q[8..10] == p[8..10];
    }
  }

  // An odd number of flipped bits is rejected as long as the packet is still taken for data.
  lemma OddFlipsRejected(p: seq<byte>, q: seq<byte>)
    requires |p| == |q| == 23 && Odd(Xor(MessageBits(p), MessageBits(q)))
    requires Decode(p).Some? && Decode(p).value.isOk && Decode(p).value.kind == Data
    requires KindOf(q[5]) == Data
    ensures Decode(q).Some? && !Decode(q).value.isOk
  {
    assert p[..23] == p && q[..23] == q;
    AcceptedIff(p);
    OddFlipsDetected(p, q);
    AcceptedIff(q);
  }

  // ---------- damaged requests ----------

  // Nothing but the magic byte and the class byte decides between ACK and NAK: the length is compared
  // with itself and the frame check is not looked at.
  lemma AckedIff(packet: seq<byte>)
    requires |packet| >= 21
    ensures HandleReply(packet)[5] == (if packet[0] == 0x0E && packet[5] == 2 then 0xC1 else 0x81)
    ensures HandleReply(packet)[5] & 0x3F == 1
    ensures HandleReply(packet)[5] & 0xC0 == (if packet[0] == 0x0E && packet[5] == 2 then 0xC0 else 0x80)
  {
    HeaderPieces(ReplyHeader(ParseHeader(packet)), []);
    assert HandleReply(packet) + [] == HandleReply(packet);
  }

  // The check does look at the length: against 23, as a status receiver would call it, it tells whether
  // bytes 8-9 are right.  Against the packet's own length, as it is called, it tells nothing about them.
  lemma LengthUnchecked(packet: seq<byte>)
    requires |packet| >= 10
    ensures var h := ParseHeader(packet);
      && (HeaderCheck(h, 23) <==> packet[0] == 0x0E && packet[5] == 2 && packet[8..10] == [0, 23])
      && (HeaderCheck(h, h.msgLen) <==> packet[0] == 0x0E && packet[5] == 2)
  {
    LengthBytes();
    UnpackSame16(packet[8..10], [0, 23]);
  }

  // The answer to any packet, byte for byte: the magic byte as received, the addresses exchanged, the
  // class, the message id as received and the length of a header.
  lemma ReplyLayout(packet: seq<byte>)
    requires |packet| >= 21
    ensures HandleReply(packet)
      == [packet[0]] + packet[3..5] + packet[1..3] + [if packet[0] == 0x0E && packet[5] == 2 then 0xC1 else 0x81]
         + packet[6..8] + [0, 10]
  {
    LengthBytes();
    Pack16Unpack16(packet[1..3]);
    Pack16Unpack16(packet[3..5]);
    Pack16Unpack16(packet[6..8]);
  }

  // A status packet, byte for byte: from node 1000, data class, time tag 10.
  lemma StatusLayout(node: word, id: word, cmd: byte, floor: byte, status: byte)
    ensures var body := [0x0E, 0x03, 0xE8] + Pack16(node) + [2] + Pack16(id) + [0, 23]
        + [0, 0, 0, 0, 0, 0, 0, 10] + [cmd, floor, status];
      StatusBytes(node, id, cmd, floor, status) == body + Pack16(Checksum(body))
  {
    LengthBytes();
    SenderBytes();
    TimeBytes();
    assert [0x0E] + [0x03, 0xE8] == [0x0E, 0x03, 0xE8];
    var body := [0x0E, 0x03, 0xE8] + Pack16(node) + [2] + Pack16(id) + [0, 23]
      + [0, 0, 0, 0, 0, 0, 0, 10] + [cmd, floor, status];
    assert HeaderRaw(StatusHeader(node, id)) + PayloadRaw(Payload(0xA, cmd, floor, status)) == body;
  }

  lemma SenderBytes()
    ensures Pack16(1000) == [0x03, 0xE8]
  {
  }

  lemma TimeBytes()
    ensures Pack64(10) == [0, 0, 0, 0, 0, 0, 0, 10]
  {
    var q: qword := 10;
    assert (q >> 32) as dword == 0 && (q & 0xFFFF_FFFF) as dword == 10;
    assert Pack16(0) == [0, 0] && Pack16(10) == [0, 10];
    assert Pack32(0) == Pack16(0) + Pack16(0) && Pack32(10) == Pack16(0) + Pack16(10);
  }

  // What the requester makes of the answer to an arbitrary packet: it believes it if the magic is right.
  lemma AnswerRead(packet: seq<byte>)
    requires |packet| >= 21
    ensures var r := Decode(HandleReply(packet));
      && r.Some? && r.value.isOk == (packet[0] == MAGIC)
      && r.value.kind == (if packet[0] == MAGIC && packet[5] == CLASS_DATA then Ack else Nak)
  {
    var h := ReplyHeader(ParseHeader(packet));
    ParseHeaderRaw(h, []);
    assert HeaderRaw(h) + [] == HeaderRaw(h);
    assert KindOf(CLASS_ACK) == Ack && KindOf(CLASS_NAK) == Nak;
  }

  lemma UnpackSame16(a: seq<byte>, b: seq<byte>)
    requires |a| == |b| == 2
    ensures Unpack16(a) == Unpack16(b) <==> a == b
  {
    Pack16Unpack16(a);
    Pack16Unpack16(b);
  }

  lemma UnpackSame64(a: seq<byte>, b: seq<byte>)
    requires |a| == |b| == 8
    ensures Unpack64(a) == Unpack64(b) <==> a == b
  {
    Pack64Unpack64(a);
    Pack64Unpack64(b);
  }

  // Of two packets that differ anywhere, the controller makes the same request exactly if the sender,
  // the message id and the whole payload are the same.
  lemma SameRequestIff(p: seq<byte>, q: seq<byte>)
    requires |p| >= 21 && |q| >= 21
    ensures HandleRequest(q) == HandleRequest(p) <==> q[1..3] == p[1..3] && q[6..8] == p[6..8] && q[10..21] == p[10..21]
  {
    UnpackSame16(q[1..3], p[1..3]);
    UnpackSame16(q[6..8], p[6..8]);
    UnpackSame64(q[10..18], p[10..18]);
    assert p[10..21] == p[10..18] + [p[18], p[19], p[20]];
    assert q[10..21] == q[10..18] + [q[18], q[19], q[20]];
    if q[10..21] == p[10..21] {
      assert q[10..18] == q[10..21][..8] && p[10..18] == p[10..21][..8];
      assert q[18] == q[10..21][8] && q[19] == q[10..21][9] && q[20] == q[10..21][10];
      assert p[18] == p[10..21][8] && p[19] == p[10..21][9] && p[20] == p[10..21][10];
    }
  }

  // Whatever a data request turns into on its way, by a burst or otherwise: it is acknowledged exactly if
  // bytes 0 and 5 are untouched, and understood exactly if bytes 1-2, 6-7 and 10-20 are.
  lemma DamagedRequest(m: ReqMsg, q: seq<byte>)
    requires |q| == 23 && m.msgClass == CLASS_DATA
    ensures var p := ReqBytes(m);
      && (HandleReply(q)[5] == CLASS_ACK <==> q[0] == p[0] && q[5] == p[5])
      && (HandleRequest(q) == Request(m.txAddr, m.msgId, m.timeTag, m.reqTyp, m.floor, m.direction)
          <==> q[1..3] == p[1..3] && q[6..8] == p[6..8] && q[10..21] == p[10..21])
  {
    var p := ReqBytes(m);
    AckedIff(q);
    SameRequestIff(p, q);
    RequestAcross(m);
    RequestStarts(m);
    assert CLASS_ACK != CLASS_NAK;
  }

  lemma RequestStarts(m: ReqMsg)
    ensures ReqBytes(m)[0] == MAGIC && ReqBytes(m)[5] == m.msgClass
  {
    FrameParts(ReqHeader(m), ReqPayload(m));
  }

  // Packets that differ in one byte differ by a burst.
  lemma OneByte(p: seq<byte>, q: seq<byte>, j: nat)
    requires |p| == |q| && forall i :: 0 <= i < |p| && i != j ==> p[i] == q[i]
    ensures DifferWithin(p, q, 8 * j)
  {
    forall k | 0 <= k < 8 * |p| && !(8 * j <= k < 8 * j + 16)
      ensures MessageBits(p)[k] == MessageBits(q)[k]
    {
      var i := k / 8;
      ByteWindow(p, i);
      ByteWindow(q, i);
      assert MessageBits(p)[8 * i..8 * i + 8][k - 8 * i] == MessageBits(q)[8 * i..8 * i + 8][k - 8 * i];
    }
  }

  lemma LowBitFlips(b: byte)
    ensures b ^ 1 != b
  {
  }

  // The failing input: a single flipped bit spoils the frame check, yet the answer is as it was and the
  // request is for another floor.
  lemma FlippedFloor(m: ReqMsg) returns (q: seq<byte>)
    ensures var p := ReqBytes(m);
      && |q| == |p| && q != p && DifferWithin(p, q, 152) && !Intact(q)
      && HandleReply(q) == HandleReply(p)
      && HandleRequest(q) == HandleRequest(p).(floor := m.floor ^ 1) && HandleRequest(q).floor != m.floor
  {
    var p := ReqBytes(m);
    q := p[19 := p[19] ^ 1];
    RequestAcross(m);
    LowBitFlips(p[19]);
    OneByte(p, q, 19);
    FrameParts(ReqHeader(m), ReqPayload(m));
    BurstDetected(p, q, 152);
    assert q[1..3] == p[1..3] && q[3..5] == p[3..5] && q[6..8] == p[6..8] && q[8..10] == p[8..10]
      && q[10..18] == p[10..18];
  }
}
