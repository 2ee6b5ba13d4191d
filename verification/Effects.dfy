/**
  What the bytes that reach the requester do to its list of items, packet by packet.
 */
module Effects {
  import opened Wrappers
  import opened Bits
  import opened Endian
  import opened FrameCheck
  import opened Packets
  import opened NetPackets
  import opened Controller
  import opened Requester

  // ---------- the item a packet is for ----------

  function IdOf(buf: seq<byte>): word
    requires |buf| >= 10
  {
    Unpack16(buf[6..8])
  }

  // The first item with the packet's message id gets this state and flag; nothing else changes.
  predicate Marks(items: seq<Item>, buf: seq<byte>, state: CallGoState, ok: bool)
    requires |buf| >= 10
  {
    var j := Find(items, IdOf(buf));
    OnBytes(items, buf) == Some(if j < |items| then items[j := items[j].(state := state, isOk := ok)] else items)
  }

  // The first item with the packet's message id is REACHED if the packet reports a stop at the item's own
  // floor; nothing else changes.
  predicate Reaches(items: seq<Item>, buf: seq<byte>, command: byte, floor: byte, status: byte)
    requires |buf| >= 10
  {
    var j := Find(items, IdOf(buf));
    OnBytes(items, buf)
      == Some(if j < |items| && command == 3 && floor == items[j].msg.floor && status == 2
              then items[j := items[j].(state := REACHED)] else items)
  }

  // ---------- control packets ----------

  // An ACK marks the item ACKED and in order, a NAK marks it NACKED and not in order.
  lemma ControlEffect(items: seq<Item>, buf: seq<byte>)
    requires |buf| >= 10 && buf[0] == 0x0E && buf[8..10] == [0, 10]
    ensures KindOf(buf[5]) == Ack ==> Marks(items, buf, ACKED, true)
    ensures KindOf(buf[5]) == Nak ==> Marks(items, buf, NACKED, false)
  {
    LengthBytes();
    if KindOf(buf[5]) == Ack || KindOf(buf[5]) == Nak {
      ControlAcceptedIff(buf);
    }
  }

  // The answer to a request, as bytes: every item's request is told ACK if its class is data, else NAK.
  lemma AnswerEffect(items: seq<Item>, m: ReqMsg)
    ensures var buf := HandleReply(ReqBytes(m));
      && |buf| == 10 && IdOf(buf) == m.msgId
      && (m.msgClass == 2 ==> Marks(items, buf, ACKED, true))
      && (m.msgClass != 2 ==> Marks(items, buf, NACKED, false))
  {
    var p := ReqBytes(m);
    var buf := HandleReply(p);
    RequestAcross(m);
    RequestStarts(m);
    ReplyLayout(p);
    assert buf[0] == 0x0E && buf[8..10] == [0, 10] && buf[6..8] == p[6..8];
    AnswerKind(buf[5]);
    ReplyAcross(m);
    ControlEffect(items, buf);
  }

  lemma AnswerKind(c: byte)
    ensures c == 0xC1 ==> KindOf(c) == Ack
    ensures c == 0x81 ==> KindOf(c) == Nak
  {
  }

  // ---------- data packets ----------

  // An accepted data packet marks the item REACHED exactly if it reports a stop at the item's own floor.
  lemma DataEffect(items: seq<Item>, buf: seq<byte>)
    requires |buf| >= 23 && KindOf(buf[5]) == Data && buf[0] == 0x0E && buf[8..10] == [0, 23] && Intact(buf[..23])
    ensures Reaches(items, buf, buf[18], buf[19], buf[20])
  {
    LengthBytes();
    AcceptedIff(buf);
    var rec := Decode(buf).value;
    assert rec.isOk && rec.header == ParseHeader(buf) && rec.payload == ParsePayload(buf);
    var j := Find(items, IdOf(buf));
    if j < |items| {
      assert items[j := items[j]] == items;
    }
  }

  // A packet that is not accepted changes nothing.
  lemma RejectedEffect(items: seq<Item>, buf: seq<byte>)
    requires Decode(buf).Some? && !Decode(buf).value.isOk
    ensures OnBytes(items, buf) == Some(items)
  {
  }

  // Decoding raises exactly on a buffer too short for its kind.
  lemma RaisedEffect(items: seq<Item>, buf: seq<byte>)
    ensures OnBytes(items, buf) == None <==> |buf| < 10 || (|buf| < 23 && KindOf(buf[5]) == Data)
  {
    DecodeRaisesIff(buf);
  }

  // A burst in a status packet never reaches the list.
  lemma BurstIgnored(items: seq<Item>, p: seq<byte>, q: seq<byte>, i: nat)
    requires |p| == |q| == 23 && p != q && DifferWithin(p, q, i)
    requires Decode(p).Some? && Decode(p).value.isOk && Decode(p).value.kind == Data
    ensures OnBytes(items, q) == Some(items)
  {
    BurstRejected(p, q, i);
    RejectedEffect(items, q);
  }

  // ---------- the packets of a ride ----------

  // The status packet made of an emission.
  function PacketOf(o: Output): seq<byte> {
    StatusBytes(o.nodeAddr, o.msgId, o.cmd, o.floor, o.status)
  }

  lemma PacketEffect(items: seq<Item>, o: Output)
    ensures IdOf(PacketOf(o)) == o.msgId
    ensures Reaches(items, PacketOf(o), o.cmd, o.floor, o.status)
  {
    var buf := PacketOf(o);
    var h, p := StatusHeader(o.nodeAddr, o.msgId), Payload(0xA, o.cmd, o.floor, o.status);
    LengthBytes();
    StatusLayout(o.nodeAddr, o.msgId, o.cmd, o.floor, o.status);
    FrameParts(h, p);
    assert buf[..23] == buf;
    assert KindOf(2) == Data;
    assert buf[6..8] == Pack16(o.msgId);
    Unpack16Pack16(o.msgId);
    DataEffect(items, buf);
  }

  // Of the packets of one ride, those of the moving emissions change no item, whatever its floor; that
  // of the last emission marks the item with that id and floor REACHED.
  lemma RideEffect(items: seq<Item>, log: seq<Emission>, node: word, id: word, start: byte, door: Door, goal: byte)
    requires IsRide(log, node, id, start, door, goal)
    ensures forall k :: 0 <= k < |log| - 1 ==> OnBytes(items, PacketOf(log[k].items)) == Some(items)
    ensures var j := Find(items, id);
      j < |items| && items[j].msg.floor == goal ==>
        OnBytes(items, PacketOf(log[|log| - 1].items)) == Some(items[j := items[j].(state := REACHED)])
  {
    forall k | 0 <= k < |log| - 1
      ensures OnBytes(items, PacketOf(log[k].items)) == Some(items)
    {
      var o := log[k].items;
      assert o.status == 1;
      PacketEffect(items, o);
    }
    PacketEffect(items, log[|log| - 1].items);
  }
}
