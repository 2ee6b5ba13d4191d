/**
  The requester: the list of call and go items, the scheduler pass over it and the state update on
  a received packet.
 */
module Requester {
  import opened Wrappers
  import opened Bits
  import opened Packets

  const USR_CALL: byte := 1
  const USR_GO: byte := 2
  const USR_STATUS: byte := 3
  const MOVE_STOP: byte := 2

  datatype CallGoState = RESET | READY2GO | IN_PROGRESS | ACKED | NACKED | REACHED | FINISHED

  datatype Item = Item(msg: ReqMsg, goMsgId: word, state: CallGoState, isOk: bool)

  // ---------- the initial list ----------

  datatype CallCfg = CallCfg(txAddr: word, rxAddr: word, msgId: word, msgClass: byte, timeTag: qword,
                             floor: byte, direction: byte, goMsgId: word)
  datatype GoCfg = GoCfg(txAddr: word, rxAddr: word, msgId: word, msgClass: byte, timeTag: qword, floor: byte)

  function CallItem(c: CallCfg): Item {
    Item(ReqMsg(c.txAddr, c.rxAddr, c.msgId, c.msgClass, c.timeTag, USR_CALL, c.floor, c.direction), c.goMsgId,
      READY2GO, false)
  }

  function GoItem(g: GoCfg): Item {
    Item(ReqMsg(g.txAddr, g.rxAddr, g.msgId, g.msgClass, g.timeTag, USR_GO, g.floor, 0), 0, RESET, false)
  }

  function InitialItems(calls: seq<CallCfg>, goes: seq<GoCfg>): (items: seq<Item>)
    ensures |items| == |calls| + |goes|
    ensures forall i :: 0 <= i < |calls| ==> items[i] == CallItem(calls[i])
    ensures forall i :: |calls| <= i < |items| ==> items[i] == GoItem(goes[i - |calls|])
  {
    seq(|calls|, i requires 0 <= i < |calls| => CallItem(calls[i]))
      + seq(|goes|, i requires 0 <= i < |goes| => GoItem(goes[i]))
  }

  // An item takes over every field of its configuration entry; only calls have a direction and name a go.
  predicate CallCarried(item: Item, c: CallCfg) {
    var m := item.msg;
    && m.txAddr == c.txAddr && m.rxAddr == c.rxAddr && m.msgId == c.msgId && m.msgClass == c.msgClass
    && m.timeTag == c.timeTag && m.reqTyp == 1 && m.floor == c.floor && m.direction == c.direction
    && item.goMsgId == c.goMsgId && item.state == READY2GO && !item.isOk
  }

  predicate GoCarried(item: Item, g: GoCfg) {
    var m := item.msg;
    && m.txAddr == g.txAddr && m.rxAddr == g.rxAddr && m.msgId == g.msgId && m.msgClass == g.msgClass
    && m.timeTag == g.timeTag && m.reqTyp == 2 && m.floor == g.floor && m.direction == 0
    && item.goMsgId == 0 && item.state == RESET && !item.isOk
  }

  ghost predicate Carried(items: seq<Item>, calls: seq<CallCfg>, goes: seq<GoCfg>) {
    && |items| == |calls| + |goes|
    && (forall i :: 0 <= i < |calls| ==> CallCarried(items[i], calls[i]))
    && (forall j :: 0 <= j < |goes| ==> GoCarried(items[|calls| + j], goes[j]))
  }

  lemma InitialCarried(calls: seq<CallCfg>, goes: seq<GoCfg>)
    ensures Carried(InitialItems(calls, goes), calls, goes)
  {
    var items := InitialItems(calls, goes);
    forall j | 0 <= j < |goes|
      ensures GoCarried(items[|calls| + j], goes[j])
    {
      assert items[|calls| + j] == GoItem(goes[j]);
    }
  }

  // ---------- one scheduler pass ----------

  // Item i, once reached, releases item j.
  predicate Triggers(items: seq<Item>, i: nat, j: nat)
    requires i < |items| && j < |items|
  {
    items[i].goMsgId == items[j].msg.msgId && items[j].msg.reqTyp == USR_GO
  }

  function Released(items: seq<Item>, i: nat): (r: seq<Item>)
    requires i < |items|
    ensures |r| == |items|
    ensures forall j :: 0 <= j < |items| ==>
      r[j] == if Triggers(items, i, j) then items[j].(state := READY2GO) else items[j]
  {
    seq(|items|,
      j requires 0 <= j < |items| => if Triggers(items, i, j) then items[j].(state := READY2GO) else items[j])
  }

  datatype Pass = Pass(items: seq<Item>, allDone: nat, cur: Option<nat>, raised: bool)

  function ScheduleItem(p: Pass, i: nat): (q: Pass)
    requires i < |p.items|
    ensures |q.items| == |p.items|
  {
    match p.items[i].state
    case READY2GO => p.(items := p.items[i := p.items[i].(state := IN_PROGRESS)], cur := Some(i))
    case NACKED => p.(raised := true)
    case REACHED =>
      var r := Released(p.items, i);
      p.(items := r[i := r[i].(state := FINISHED)], allDone := p.allDone + 1)
    case _ => p
  }

  // The rest of a pass from index i; a NACKED item ends it with an exception.
  function ScheduleFrom(p: Pass, i: nat): Pass
    requires i <= |p.items|
    decreases |p.items| - i
  {
    if i == |p.items| || p.raised then p else ScheduleFrom(ScheduleItem(p, i), i + 1)
  }

  // The list and the counter when the scan comes to item k.
  function ScanTo(p: Pass, k: nat): (q: Pass)
    requires k <= |p.items|
    ensures |q.items| == |p.items|
  {
    if k == 0 then p else ScheduleItem(ScanTo(p, k - 1), k - 1)
  }

  // From some index on, some item is NACKED when the scan comes to it.
  ghost predicate MeetsNack(p: Pass, from: nat) {
    exists k: nat :: from <= k < |p.items| && ScanTo(p, k).items[k].state == NACKED
  }

  // The scan, come to item k in state q, will raise exactly if it is still to meet a NACKED item.
  lemma {:induction false} RaisesFrom(p: Pass, q: Pass, k: nat)
    requires k <= |p.items| && q == ScanTo(p, k) && !q.raised
    ensures ScheduleFrom(q, k).raised <==> MeetsNack(p, k)
    decreases |p.items| - k
  {
    if k == |p.items| {
    } else {
      var next := ScheduleItem(q, k);
      assert next == ScanTo(p, k + 1);
      if next.raised {
        assert ScheduleFrom(next, k + 1) == next;
      } else {
        RaisesFrom(p, next, k + 1);
      }
    }
  }

  // A pass raises exactly if some item is NACKED when the scan comes to it.
  lemma RaisesIff(p: Pass)
    requires !p.raised
    ensures ScheduleFrom(p, 0).raised <==> MeetsNack(p, 0)
  {
    RaisesFrom(p, p, 0);
  }

  // ---------- a received packet ----------

  // The first item with this message id, or the length of the list.
  function Find(items: seq<Item>, id: word): (j: nat)
    ensures j <= |items|
    ensures j < |items| ==> items[j].msg.msgId == id
    ensures forall k :: 0 <= k < j ==> items[k].msg.msgId != id
  {
    if items == [] || items[0].msg.msgId == id then 0 else 1 + Find(items[1..], id)
  }

  function Updated(item: Item, rec: RecPacket): Item {
    match rec.kind
    case Ack => item.(state := ACKED, isOk := true)
    case Nak => item.(state := NACKED, isOk := false)
    case Data =>
      if rec.payload.command == USR_STATUS && item.msg.floor == rec.payload.floor && rec.payload.direction == MOVE_STOP
      then item.(state := REACHED) else item
    case Unknown => item
  }

  function OnPacket(items: seq<Item>, rec: RecPacket): (r: seq<Item>)
    ensures |r| == |items|
  {
    var j := Find(items, rec.header.msgId);
    if rec.isOk && j < |items| then items[j := Updated(items[j], rec)] else items
  }

  // None is the exception that decoding a short buffer raises.
  function OnBytes(items: seq<Item>, buf: seq<byte>): Option<seq<Item>> {
    match Decode(buf)
    case None => None
    case Some(rec) => Some(OnPacket(items, rec))
  }

  // ---------- the classes ----------

  class TestCaseList {
    var items: seq<Item>

    constructor ()
      ensures items == []
    {
      items := [];
    }

    method CreateTestcaseList(calls: seq<CallCfg>, goes: seq<GoCfg>)
      requires items == []
      modifies this
      ensures items == InitialItems(calls, goes) && Carried(items, calls, goes)
    {
      for k := 0 to |calls|
        invariant items == InitialItems(calls[..k], [])
      {
        items := items + [CallItem(calls[k])];
        assert items == InitialItems(calls[..k + 1], []);
      }
      assert calls[..|calls|] == calls;
      for k := 0 to |goes|
        invariant items == InitialItems(calls, goes[..k])
      {
        items := items + [GoItem(goes[k])];
        assert items == InitialItems(calls, goes[..k + 1]);
      }
      assert goes[..|goes|] == goes;
      InitialCarried(calls, goes);
    }
  }

  class ReqApp {
    const testcase: TestCaseList
    var allDoneCntr: nat

    constructor (testcase: TestCaseList)
      ensures this.testcase == testcase && allDoneCntr == 0
    {
      this.testcase := testcase;
      allDoneCntr := 0;
    }

    // The inner loop of a pass: release every go item linked to item i.
    method Release(i: nat)
      requires i < |testcase.items|
      modifies testcase
      ensures testcase.items == Released(old(testcase.items), i)
    {
      ghost var items := testcase.items;
      var n := |testcase.items|;
      for j := 0 to n
        invariant |testcase.items| == n == |items|
        invariant forall k :: 0 <= k < j ==> testcase.items[k] == Released(items, i)[k]
        invariant forall k :: j <= k < n ==> testcase.items[k] == items[k]
      {
        assert testcase.items[i].goMsgId == items[i].goMsgId;
        if testcase.items[i].goMsgId == testcase.items[j].msg.msgId && testcase.items[j].msg.reqTyp == USR_GO {
          testcase.items := testcase.items[j := testcase.items[j].(state := READY2GO)];
        }
      }
    }

    method ScheduleElevatorReqList() returns (cur: Option<nat>, raised: bool)
      modifies this`allDoneCntr, testcase
      ensures Pass(testcase.items, allDoneCntr, cur, raised)
        == ScheduleFrom(Pass(old(testcase.items), old(allDoneCntr), None, false), 0)
      ensures raised <==> MeetsNack(Pass(old(testcase.items), old(allDoneCntr), None, false), 0)
    {
      RaisesIff(Pass(testcase.items, allDoneCntr, None, false));
      cur, raised := None, false;
      ghost var goal := ScheduleFrom(Pass(testcase.items, allDoneCntr, None, false), 0);
      var i := 0;
      while i < |testcase.items|
        invariant i <= |testcase.items| && !raised
        invariant ScheduleFrom(Pass(testcase.items, allDoneCntr, cur, false), i) == goal
        decreases |testcase.items| - i
      {
        var state := testcase.items[i].state;
        if state == READY2GO {
          testcase.items := testcase.items[i := testcase.items[i].(state := IN_PROGRESS)];
          cur := Some(i);
        } else if state == NACKED {
          raised := true;
          return;
        } else if state == REACHED {
          Release(i);
          testcase.items := testcase.items[i := testcase.items[i].(state := FINISHED)];
          allDoneCntr := allDoneCntr + 1;
        }
        i := i + 1;
      }
    }
  }

  class NetProtocol {
    const testcase: TestCaseList
    var recvBuffer: seq<byte>
    var sendBuffer: seq<byte>

    constructor (testcase: TestCaseList)
      ensures this.testcase == testcase && recvBuffer == [] && sendBuffer == []
    {
      this.testcase := testcase;
      recvBuffer, sendBuffer := [], [];
    }

    // _process_response_binary_content
    method ProcessResponse() returns (raised: bool)
      modifies testcase
      ensures raised == OnBytes(old(testcase.items), recvBuffer).None?
      ensures Some(testcase.items)
        == if raised then Some(old(testcase.items)) else OnBytes(old(testcase.items), recvBuffer)
    {
      var rec := new DecodeRecPacket(recvBuffer);
      raised := rec.Deserialize();
      if !raised && rec.isOk {
        ghost var packet := rec.Contents();
        ghost var items := testcase.items;
        var j := 0;
        while j < |testcase.items| && testcase.items[j].msg.msgId != rec.header.msgId
          invariant j <= |testcase.items|
          invariant forall k :: 0 <= k < j ==> items[k].msg.msgId != rec.header.msgId
        {
          j := j + 1;
        }
        assert j == Find(items, rec.header.msgId);
        if j < |testcase.items| {
          var item := testcase.items[j];
          if rec.isAck {
            item := item.(state := ACKED, isOk := true);
          } else if rec.isNak {
            item := item.(state := NACKED, isOk := false);
          } else if rec.isData {
            if rec.payload.command == USR_STATUS {
              if item.msg.floor == rec.payload.floor && rec.payload.direction == MOVE_STOP {
                item := item.(state := REACHED);
              }
            }
          }
          assert item == Updated(items[j], packet);
          testcase.items := testcase.items[j := item];
        }
      }
    }

    // write: pack the scheduled item over whatever the buffer held; the socket has room for so many
    // bytes, none if it would block, and the rest stays in the buffer.
    method Write(cur: Option<nat>, room: nat) returns (sent: seq<byte>)
      requires cur.Some? ==> cur.value < |testcase.items|
      modifies this`sendBuffer
      ensures cur.None? ==> sent == [] && sendBuffer == old(sendBuffer)
      ensures cur.Some? ==>
        sent + sendBuffer == ReqBytes(testcase.items[cur.value].msg) && |sent| == if room < 23 then room else 23
    {
      sent := [];
      if cur.Some? {
        sendBuffer := EncodeRequest(testcase.items[cur.value].msg);
        var n := if room < |sendBuffer| then room else |sendBuffer|;
        sent := sendBuffer[..n];
        sendBuffer := sendBuffer[n..];
      }
    }
  }
}
