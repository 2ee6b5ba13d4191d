/**
  The same two parties exchanging bytes: the channels hold encoded packets, and each side parses what
  the other wrote with its own codec.  Every run of this system is, packet for packet, the encoding of
  the run of the system of messages.
 */
module WireSystem {
  import opened Wrappers
  import opened Bits
  import opened Packets
  import opened NetPackets
  import opened Controller
  import opened Requester
  import opened Runs
  import opened System
  import opened Safety
  import opened Guarantees
  import opened Routing
  import opened Outcome

  datatype WSys = WSys(core: Core, wrote: seq<seq<byte>>, taken: nat, sent: seq<seq<byte>>, rcvd: nat)

  // ---------- steps on bytes ----------

  // A packet that cannot be decoded raises an exception in the requester.
  function WSelect(w: WSys, readable: bool): WSys {
    var c := w.core;
    if !c.pc.Selecting? then w
    else if readable && w.rcvd < |w.sent| then
      match OnBytes(c.items, w.sent[w.rcvd])
      case None => w.(core := c.(pc := Raised), rcvd := w.rcvd + 1)
      case Some(items) => w.(core := c.(items := items, pc := Writing(c.pc.cur)), rcvd := w.rcvd + 1)
    else w.(core := c.(pc := Writing(c.pc.cur)))
  }

  function WWrite(w: WSys, writable: bool): WSys {
    var c := w.core;
    if !c.pc.Writing? then w
    else if writable && InHand(c).Some? then
      w.(core := c.(pc := Testing), wrote := w.wrote + [ReqBytes(InHand(c).value)])
    else w.(core := c.(pc := Testing))
  }

  // The net thread answers and hands over; packets too short to hold a payload stay unread here.
  function WNetRead(w: WSys): WSys {
    if w.core.net.Idle? && w.taken < |w.wrote| && |w.wrote[w.taken]| >= 21 then
      var packet := w.wrote[w.taken];
      w.(core := w.core.(net := Handled(HandleRequest(packet))), taken := w.taken + 1,
        sent := w.sent + [HandleReply(packet)])
    else w
  }

  function WEmit(w: WSys, a: Action): WSys {
    match (a, w.core.car)
    case (Report, Riding(r, i)) =>
      if i <= r.floor then
        w.(core := Emitted(w.core),
           sent := w.sent + [StatusBytes(r.nodeAddr, r.msgId, CMD_STATUS, i, STATUS_MOVING)])
      else w
    case (Stop, Arrived(r)) =>
      w.(core := Emitted(w.core),
        sent := w.sent + [StatusBytes(r.nodeAddr, r.msgId, CMD_STATUS, r.floor, STATUS_STOPPED)])
    case _ => w
  }

  function WNext(w: WSys, a: Action): WSys {
    match a
    case Select(readable) => WSelect(w, readable)
    case Write(writable) => WWrite(w, writable)
    case NetRead => WNetRead(w)
    case Report => WEmit(w, a)
    case Stop => WEmit(w, a)
    case _ => w.(core := LocalStep(w.core, a))
  }

  function WExec(w: WSys, acts: seq<Action>): WSys {
    Run(WNext, w, acts)
  }

  function WInit(items: seq<Item>): WSys {
    WSys(Init(items).core, [], 0, [], 0)
  }

  // ---------- encoding a state ----------

  function ReplyBytes(r: Reply): seq<byte> {
    match r
    case Control(ack, tx, rx, id) => HeaderRaw(Header(MAGIC, tx, rx, if ack then CLASS_ACK else CLASS_NAK, id, 10))
    case Status(node, id, floor, status) => StatusBytes(node, id, CMD_STATUS, floor, status)
  }

  function WroteBytes(wrote: seq<ReqMsg>): (b: seq<seq<byte>>)
    ensures |b| == |wrote| && forall k :: 0 <= k < |wrote| ==> b[k] == ReqBytes(wrote[k])
  {
    seq(|wrote|, k requires 0 <= k < |wrote| => ReqBytes(wrote[k]))
  }

  function SentBytes(sent: seq<Reply>): (b: seq<seq<byte>>)
    ensures |b| == |sent| && forall k :: 0 <= k < |sent| ==> b[k] == ReplyBytes(sent[k])
  {
    seq(|sent|, k requires 0 <= k < |sent| => ReplyBytes(sent[k]))
  }

  function Encoded(s: Sys): WSys {
    WSys(s.core, WroteBytes(s.wrote), s.taken, SentBytes(s.sent), s.rcvd)
  }

  lemma WroteAppend(wrote: seq<ReqMsg>, m: ReqMsg)
    ensures WroteBytes(wrote + [m]) == WroteBytes(wrote) + [ReqBytes(m)]
  {
  }

  lemma SentAppend(sent: seq<Reply>, r: Reply)
    ensures SentBytes(sent + [r]) == SentBytes(sent) + [ReplyBytes(r)]
  {
  }

  // ---------- decoding undoes encoding, in each direction ----------

  lemma ControlUpdates(items: seq<Item>, r: Reply)
    requires r.Control?
    ensures OnBytes(items, ReplyBytes(r)) == Some(OnReply(items, r))
  {
    ControlAcross(r.txAddr, r.rxAddr, r.ack, r.msgId);
  }

  lemma StatusUpdates(items: seq<Item>, r: Reply)
    requires r.Status?
    ensures OnBytes(items, ReplyBytes(r)) == Some(OnReply(items, r))
  {
    StatusAcross(r.nodeAddr, r.msgId, CMD_STATUS, r.floor, r.status);
  }

  // A reply's bytes do to the item list what the reply does.
  lemma ReplyUpdates(items: seq<Item>, r: Reply)
    ensures OnBytes(items, ReplyBytes(r)) == Some(OnReply(items, r))
  {
    if r.Control? {
      ControlUpdates(items, r);
    } else {
      StatusUpdates(items, r);
    }
  }

  // A request's bytes make the controller answer and hand over what the message does.
  lemma RequestHandled(m: ReqMsg)
    ensures HandleRequest(ReqBytes(m)) == RequestOf(m) && HandleReply(ReqBytes(m)) == ReplyBytes(ReplyTo(m))
  {
    RequestAcross(m);
  }

  // ---------- each step ----------

  lemma SelectEncoded(s: Sys, readable: bool)
    ensures WNext(Encoded(s), Select(readable)) == Encoded(Next(s, Select(readable)))
  {
    if s.core.pc.Selecting? && readable && s.rcvd < |s.sent| {
      ReplyUpdates(s.core.items, s.sent[s.rcvd]);
    }
  }

  lemma WriteEncoded(s: Sys, writable: bool)
    ensures WNext(Encoded(s), Write(writable)) == Encoded(Next(s, Write(writable)))
  {
    if s.core.pc.Writing? && writable && InHand(s.core).Some? {
      WroteAppend(s.wrote, InHand(s.core).value);
    }
  }

  lemma NetReadEncoded(s: Sys)
    ensures WNext(Encoded(s), NetRead) == Encoded(Next(s, NetRead))
  {
    if s.core.net.Idle? && s.taken < |s.wrote| {
      RequestHandled(s.wrote[s.taken]);
      SentAppend(s.sent, ReplyTo(s.wrote[s.taken]));
    }
  }

  lemma EmitEncoded(s: Sys, a: Action)
    requires a.Report? || a.Stop?
    ensures WNext(Encoded(s), a) == Encoded(Next(s, a))
  {
    match Emitting(s.core, a) {
      case Some(r) => SentAppend(s.sent, r);
      case None =>
    }
  }

  lemma NextEncoded(s: Sys, a: Action)
    ensures WNext(Encoded(s), a) == Encoded(Next(s, a))
  {
    match a {
      case Select(readable) => SelectEncoded(s, readable);
      case Write(writable) => WriteEncoded(s, writable);
      case NetRead => NetReadEncoded(s);
      case Report => EmitEncoded(s, a);
      case Stop => EmitEncoded(s, a);
      case _ =>
    }
  }

  // ---------- packets no run writes ----------

  // A buffer too short for its kind raises in the requester and changes no item; any other is processed.
  lemma ReadRaisesIff(w: WSys)
    requires w.core.pc.Selecting? && w.rcvd < |w.sent|
    ensures var buf, v := w.sent[w.rcvd], WNext(w, Select(true));
      if |buf| < 10 || (|buf| < 23 && KindOf(buf[5]) == Data) then v.core == w.core.(pc := Raised)
      else v.core.pc == Writing(w.core.pc.cur) && OnBytes(w.core.items, buf) == Some(v.core.items)
  {
    DecodeRaisesIff(w.sent[w.rcvd]);
  }

  // An idle net thread takes the next packet whenever it holds a header and a payload, whatever else is in it.
  lemma NetReadsIff(w: WSys)
    requires w.core.net.Idle? && w.taken < |w.wrote|
    ensures WNext(w, NetRead).taken == (if |w.wrote[w.taken]| >= 21 then w.taken + 1 else w.taken)
    ensures |w.sent| + WNext(w, NetRead).taken == |WNext(w, NetRead).sent| + w.taken
  {
  }

  // ---------- whole runs ----------

  // For any item list and any interleaving, the two codecs carry the protocol exactly: the bytes in
  // both channels are the encodings of the messages, and every thread is in the same state.
  lemma {:induction false} BytesCarryMessages(items: seq<Item>, acts: seq<Action>)
    ensures WExec(WInit(items), acts) == Encoded(Exec(Init(items), acts))
    decreases |acts|
  {
    if acts == [] {
    } else {
      BytesCarryMessages(items, acts[..|acts| - 1]);
      NextEncoded(Exec(Init(items), acts[..|acts| - 1]), acts[|acts| - 1]);
    }
  }

  // On bytes, too: no packet ever fails to decode, and a requester that quits has had every item
  // stopped for.
  lemma BytesEndToEnd(items: seq<Item>, acts: seq<Action>)
    requires WellFormed(items) && Unstarted(items)
    ensures var c := WExec(WInit(items), acts).core;
      && !c.pc.Raised?
      && (c.pc.Quit? ==> forall j :: 0 <= j < |c.items| ==>
        c.items[j].state == FINISHED && StoppedFor(c.served, c.items[j]))
  {
    BytesCarryMessages(items, acts);
    EndToEnd(items, acts);
  }

  // And it can quit exactly when the list is finishable.
  lemma BytesFinishIff(items: seq<Item>)
    requires WellFormed(items) && Unstarted(items)
    ensures (exists acts :: WExec(WInit(items), acts).core.pc.Quit?) <==> Finishable(items)
  {
    SomeRunFinishesIff(items);
    if acts :| Exec(Init(items), acts).core.pc.Quit? {
      BytesCarryMessages(items, acts);
      assert WExec(WInit(items), acts).core.pc.Quit?;
    }
    if acts :| WExec(WInit(items), acts).core.pc.Quit? {
      BytesCarryMessages(items, acts);
    }
  }
}
