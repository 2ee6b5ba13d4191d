/**
  The invariant of every run, and its preservation by every action.
 */
module Safety {
  import opened Wrappers
  import opened Bits
  import opened Packets
  import opened NetPackets
  import opened Controller
  import opened Requester
  import opened System

  // ---------- well-formed item lists ----------

  // Distinct message ids, data class, known commands; only calls release items, and each item has at
  // most one call that releases it.
  ghost predicate WellFormed(items: seq<Item>) {
    && (forall i, j :: 0 <= i < j < |items| ==> items[i].msg.msgId != items[j].msg.msgId)
    && (forall i :: 0 <= i < |items| ==> items[i].msg.msgClass == CLASS_DATA)
    && (forall i :: 0 <= i < |items| ==> items[i].msg.reqTyp == USR_CALL || items[i].msg.reqTyp == USR_GO)
    && (forall i, j :: 0 <= i < |items| && 0 <= j < |items| && Triggers(items, i, j) ==>
      items[i].msg.reqTyp == USR_CALL)
    && (forall i, k, j :: 0 <= i < |items| && 0 <= k < |items| && 0 <= j < |items| ==>
          (Triggers(items, i, j) && Triggers(items, k, j) ==> i == k))
  }

  // The states create_testcase_list gives.
  ghost predicate Unstarted(items: seq<Item>) {
    forall i :: 0 <= i < |items| ==> items[i].state == if items[i].msg.reqTyp == USR_CALL then READY2GO else RESET
  }

  ghost predicate SameRequests(a: seq<Item>, b: seq<Item>) {
    |a| == |b| && forall i :: 0 <= i < |a| ==> a[i].msg == b[i].msg && a[i].goMsgId == b[i].goMsgId
  }

  lemma WellFormedFixed(a: seq<Item>, b: seq<Item>)
    requires WellFormed(a) && SameRequests(a, b)
    ensures WellFormed(b)
  {
    assert forall i, j :: 0 <= i < |a| && 0 <= j < |a| ==> Triggers(a, i, j) == Triggers(b, i, j);
  }

  function Finished(items: seq<Item>): nat {
    if items == [] then 0 else Finished(items[..|items| - 1]) + if items[|items| - 1].state == FINISHED then 1 else 0
  }

  // ---------- per-id order on the reply channel ----------

  // ACK, then MOVING reports, then one STOPPED report.
  datatype Wire = Start | Acked | Done | Bad

  function WireStep(w: Wire, r: Reply): Wire {
    match (w, r)
    case (Start, Control(true, _, _, _)) => Acked
    case (Acked, Status(_, _, _, status)) =>
      if status == STATUS_MOVING then Acked else if status == STATUS_STOPPED then Done else Bad
    case _ => Bad
  }

  function WireOf(sent: seq<Reply>, id: word): Wire {
    if sent == [] then Start
    else
      var w := WireOf(sent[..|sent| - 1], id);
      var r := sent[|sent| - 1];
      if r.msgId == id then WireStep(w, r) else w
  }

  lemma WireAppend(sent: seq<Reply>, r: Reply, id: word)
    ensures WireOf(sent + [r], id) == if r.msgId == id then WireStep(WireOf(sent, id), r) else WireOf(sent, id)
  {
    assert (sent + [r])[..|sent|] == sent;
  }

  // A prefix of a good sequence is good, and nothing happens before the first or after the last packet.
  lemma {:induction false} WirePrefix(sent: seq<Reply>, n: nat, id: word)
    requires n <= |sent|
    ensures WireOf(sent, id) != Bad ==> WireOf(sent[..n], id) != Bad
    ensures WireOf(sent, id) == Start ==> WireOf(sent[..n], id) == Start
    ensures WireOf(sent[..n], id) == Done && WireOf(sent, id) != Bad ==> WireOf(sent, id) == Done
    ensures WireOf(sent[..n], id) == Acked && WireOf(sent, id) != Bad ==>
      WireOf(sent, id) == Acked || WireOf(sent, id) == Done
    decreases |sent|
  {
    if n < |sent| {
      var m := |sent| - 1;
      assert sent[..m][..n] == sent[..n];
      WirePrefix(sent[..m], n, id);
    } else {
      assert sent[..n] == sent;
    }
  }

  // ---------- the controller's part of the invariant ----------

  predicate Matches(r: Request, m: ReqMsg) {
    r.nodeAddr == m.txAddr && r.msgId == m.msgId && r.floor == m.floor
  }

  function InService(car: CarPc): seq<Request> {
    match car
    case Riding(r, _) => [r]
    case Arrived(r) => [r]
    case _ => []
  }

  ghost predicate HasId(rs: seq<Request>, id: word) {
    exists k :: 0 <= k < |rs| && rs[k].msgId == id
  }

  ghost predicate Written(wrote: seq<ReqMsg>, id: word) {
    exists k :: 0 <= k < |wrote| && wrote[k].msgId == id
  }

  ghost predicate DistinctIds(wrote: seq<ReqMsg>) {
    forall k, l :: 0 <= k < l < |wrote| ==> wrote[k].msgId != wrote[l].msgId
  }

  ghost predicate OfItem(items: seq<Item>, m: ReqMsg) {
    exists j :: 0 <= j < |items| && items[j].msg == m
  }

  ghost predicate StopOk(items: seq<Item>, r: Reply) {
    r.Status? && r.status == STATUS_STOPPED ==>
      forall j :: 0 <= j < |items| && items[j].msg.msgId == r.msgId ==> items[j].msg.floor == r.floor
  }

  function Everywhere(c: Core): multiset<Request> {
    multiset(c.ctrl.up) + multiset(c.ctrl.down) + multiset(c.ctrl.current) + multiset(InService(c.car))
      + multiset(c.served)
  }

  // What has become of message id: not yet read, answered but not stopped for, or stopped for.
  ghost function Stage(s: Sys, id: word): Wire
    requires s.taken <= |s.wrote|
  {
    if !Written(s.wrote[..s.taken], id) then Start
    else if HasId(s.core.served, id) then Done
    else Acked
  }

  ghost predicate ChannelsOk(s: Sys) {
    && s.taken <= |s.wrote| && s.rcvd <= |s.sent|
    && DistinctIds(s.wrote)
    && (forall k :: 0 <= k < |s.wrote| ==> OfItem(s.core.items, s.wrote[k]))
    && (forall k :: 0 <= k < |s.sent| ==> StopOk(s.core.items, s.sent[k]))
  }

  // Enqueued requests are the messages read so far, in order, but for the one the net thread holds.
  ghost predicate AlignOk(s: Sys) {
    var c := s.core;
    && s.taken <= |s.wrote|
    && |c.accepted| + (if c.net.Idle? then 0 else 1) == s.taken
    && (forall k :: 0 <= k < |c.accepted| ==> Matches(c.accepted[k], s.wrote[k]))
    && (!c.net.Idle? ==> Matches(c.net.r, s.wrote[s.taken - 1]))
    && (c.net.Handled? ==> c.net.r.cmd == CMD_CALL || c.net.r.cmd == CMD_GO)
  }

  // Conservation: every enqueued request is in one of the queues, in service or served.
  ghost predicate ConserveOk(c: Core) {
    HeapsOk(c.ctrl) && multiset(c.accepted) == Everywhere(c)
  }

  // First in, first out: what was served is a prefix of what entered the current queue.
  ghost predicate OrderOk(c: Core) {
    c.queued == c.served + InService(c.car) + c.ctrl.current
  }

  ghost predicate QueuesOk(s: Sys) {
    AlignOk(s) && ConserveOk(s.core) && OrderOk(s.core)
  }

  ghost predicate RepliesOk(s: Sys) {
    s.taken <= |s.wrote| && forall id :: WireOf(s.sent, id) == Stage(s, id)
  }

  // ---------- the requester's part ----------

  // How an item's state follows from what has been received for it and whether it was written.
  predicate StateOk(state: CallGoState, w: Wire, written: bool) {
    match state
    case RESET => w == Start && !written
    case READY2GO => w == Start && !written
    case IN_PROGRESS => w == Start
    case ACKED => w == Acked
    case NACKED => false
    case REACHED => w == Done
    case FINISHED => w == Done
  }

  ghost predicate ItemOk(s: Sys, j: nat)
    requires s.rcvd <= |s.sent| && j < |s.core.items|
  {
    var id := s.core.items[j].msg.msgId;
    StateOk(s.core.items[j].state, WireOf(s.sent[..s.rcvd], id), Written(s.wrote, id))
  }

  // A go item has left RESET exactly when the call that releases it is FINISHED.
  ghost predicate LinksOk(items: seq<Item>) {
    forall i, j :: 0 <= i < |items| && 0 <= j < |items| && Triggers(items, i, j)
      ==> (items[j].state != RESET <==> items[i].state == FINISHED)
  }

  // Calls never wait; a go item that no call releases always does.
  ghost predicate WaitingOk(items: seq<Item>) {
    && (forall j :: 0 <= j < |items| && items[j].msg.reqTyp == USR_CALL ==> items[j].state != RESET)
    && (forall j :: 0 <= j < |items| && items[j].msg.reqTyp == USR_GO && items[j].state != RESET
          ==> exists i :: 0 <= i < |items| && Triggers(items, i, j))
  }

  function CurOf(pc: ReqPc): Option<nat> {
    match pc
    case Scanning(_, cur) => cur
    case Selecting(cur) => cur
    case Writing(cur) => cur
    case _ => None
  }

  ghost predicate PcOk(s: Sys) {
    var c := s.core;
    && !c.pc.Raised?
    && (c.pc.Quit? ==> c.allDone == |c.items|)
    && (c.pc.Scanning? ==> c.pc.i <= |c.items|)
    && (CurOf(c.pc).Some? ==>
          var k := CurOf(c.pc).value;
          k < |c.items| && c.items[k].state == IN_PROGRESS && !Written(s.wrote, c.items[k].msg.msgId))
  }

  ghost predicate ItemsOk(s: Sys) {
    && s.rcvd <= |s.sent|
    && (forall j :: 0 <= j < |s.core.items| ==> ItemOk(s, j))
    && LinksOk(s.core.items) && WaitingOk(s.core.items)
    && s.core.allDone == Finished(s.core.items)
    && PcOk(s)
  }

  ghost predicate Inv(s: Sys) {
    WellFormed(s.core.items) && ChannelsOk(s) && QueuesOk(s) && RepliesOk(s) && ItemsOk(s)
  }

  // ---------- small facts ----------

  lemma InMultiset(rs: seq<Request>, r: Request) returns (k: nat)
    requires r in multiset(rs)
    ensures k < |rs| && rs[k] == r
  {
    assert r in rs;
    k :| 0 <= k < |rs| && rs[k] == r;
  }

  lemma AcceptedIds(s: Sys, k: nat, l: nat)
    requires ChannelsOk(s) && QueuesOk(s) && k < |s.core.accepted| && l < |s.core.accepted|
    requires s.core.accepted[k].msgId == s.core.accepted[l].msgId
    ensures k == l
  {
    assert Matches(s.core.accepted[k], s.wrote[k]) && Matches(s.core.accepted[l], s.wrote[l]);
  }

  // A request anywhere in the controller was read from the channel.
  lemma PlacedIsTaken(s: Sys, r: Request) returns (k: nat)
    requires QueuesOk(s) && r in Everywhere(s.core)
    ensures k < |s.core.accepted| && s.core.accepted[k] == r && Matches(r, s.wrote[k])
    ensures Written(s.wrote[..s.taken], r.msgId)
  {
    k := InMultiset(s.core.accepted, r);
    assert s.wrote[..s.taken][k].msgId == r.msgId;
  }

  lemma {:induction false} CountTwice(rs: seq<Request>, r: Request) returns (k: nat, l: nat)
    requires multiset(rs)[r] >= 2
    ensures k < l < |rs| && rs[k] == r && rs[l] == r
  {
    var n := |rs| - 1;
    assert rs == rs[..n] + [rs[n]];
    if rs[n] == r {
      assert r in multiset(rs[..n]);
      k := InMultiset(rs[..n], r);
      l := n;
    } else {
      k, l := CountTwice(rs[..n], r);
    }
  }

  // No two requests in the controller share a message id.
  lemma PlacedOnce(s: Sys, a: multiset<Request>, b: multiset<Request>, p: Request, q: Request)
    requires ChannelsOk(s) && QueuesOk(s) && a + b <= Everywhere(s.core)
    requires p in a && q in b
    ensures p.msgId != q.msgId
  {
    if p.msgId == q.msgId {
      assert p in Everywhere(s.core) && q in Everywhere(s.core);
      var k := PlacedIsTaken(s, p);
      var l := PlacedIsTaken(s, q);
      AcceptedIds(s, k, l);
      assert (a + b)[p] >= 2;
      var x, y := CountTwice(s.core.accepted, p);
      AcceptedIds(s, x, y);
    }
  }

  lemma ServedApart(s: Sys, r: Request)
    requires ChannelsOk(s) && QueuesOk(s) && InService(s.core.car) == [r]
    ensures !HasId(s.core.served, r.msgId)
    ensures r in Everywhere(s.core)
  {
    if HasId(s.core.served, r.msgId) {
      var k :| 0 <= k < |s.core.served| && s.core.served[k].msgId == r.msgId;
      assert s.core.served[k] in multiset(s.core.served);
      PlacedOnce(s, multiset([r]), multiset(s.core.served), r, s.core.served[k]);
    }
  }

  lemma ServedTaken(s: Sys, id: word)
    requires QueuesOk(s) && HasId(s.core.served, id)
    ensures Written(s.wrote[..s.taken], id)
  {
    var k :| 0 <= k < |s.core.served| && s.core.served[k].msgId == id;
    assert s.core.served[k] in multiset(s.core.served);
    var l := PlacedIsTaken(s, s.core.served[k]);
  }

  lemma HasIdAppend(rs: seq<Request>, r: Request, id: word)
    ensures HasId(rs + [r], id) <==> HasId(rs, id) || r.msgId == id
  {
    if HasId(rs, id) {
      var k :| 0 <= k < |rs| && rs[k].msgId == id;
      assert (rs + [r])[k].msgId == id;
    }
    if r.msgId == id {
      assert (rs + [r])[|rs|].msgId == id;
    }
  }

  lemma WrittenAppend(ms: seq<ReqMsg>, m: ReqMsg, id: word)
    ensures Written(ms + [m], id) <==> Written(ms, id) || m.msgId == id
  {
    if Written(ms, id) {
      var k :| 0 <= k < |ms| && ms[k].msgId == id;
      assert (ms + [m])[k].msgId == id;
    }
    if m.msgId == id {
      assert (ms + [m])[|ms|].msgId == id;
    }
  }

  // ---------- what the controller's actions leave alone ----------

  lemma RequesterFrame(s: Sys, t: Sys)
    requires ItemsOk(s)
    requires t.core.items == s.core.items && t.core.allDone == s.core.allDone && t.core.pc == s.core.pc
    requires t.wrote == s.wrote && t.rcvd == s.rcvd && s.sent <= t.sent
    ensures ItemsOk(t)
  {
    assert t.sent[..t.rcvd] == s.sent[..s.rcvd];
    forall i | 0 <= i < |t.core.items|
      ensures ItemOk(t, i)
    {
      assert ItemOk(s, i);
    }
  }

  lemma ReplyFrame(s: Sys, t: Sys, r: Reply)
    requires ChannelsOk(s) && StopOk(s.core.items, r)
    requires t.core.items == s.core.items && t.wrote == s.wrote && t.rcvd == s.rcvd
    requires t.sent == s.sent + [r] && t.taken <= |t.wrote|
    ensures ChannelsOk(t)
  {
    forall k | 0 <= k < |t.sent|
      ensures StopOk(t.core.items, t.sent[k])
    {
      if k < |s.sent| {
        assert t.sent[k] == s.sent[k];
      }
    }
  }

  // ---------- actions of the net thread ----------

  lemma NotYetTaken(s: Sys)
    requires ChannelsOk(s) && QueuesOk(s) && s.taken < |s.wrote|
    ensures !Written(s.wrote[..s.taken], s.wrote[s.taken].msgId)
    ensures !HasId(s.core.served, s.wrote[s.taken].msgId)
  {
    forall k | 0 <= k < s.taken
      ensures s.wrote[..s.taken][k].msgId != s.wrote[s.taken].msgId
    {
      assert s.wrote[..s.taken][k] == s.wrote[k];
    }
    if HasId(s.core.served, s.wrote[s.taken].msgId) {
      ServedTaken(s, s.wrote[s.taken].msgId);
    }
  }

  lemma NetReadReplies(s: Sys, m: ReqMsg, t: Sys)
    requires ChannelsOk(s) && QueuesOk(s) && RepliesOk(s)
    requires s.core.net.Idle? && s.taken < |s.wrote| && m == s.wrote[s.taken] && m.msgClass == CLASS_DATA
    requires t.wrote == s.wrote && t.taken == s.taken + 1 && t.sent == s.sent + [ReplyTo(m)]
    requires t.core.served == s.core.served
    ensures RepliesOk(t)
  {
    assert t.wrote[..t.taken] == s.wrote[..s.taken] + [m];
    NotYetTaken(s);
    forall id
      ensures WireOf(t.sent, id) == Stage(t, id)
    {
      WireAppend(s.sent, ReplyTo(m), id);
      WrittenAppend(s.wrote[..s.taken], m, id);
      assert WireOf(s.sent, id) == Stage(s, id);
    }
  }

  lemma NetReadQueues(s: Sys, m: ReqMsg, t: Sys)
    requires QueuesOk(s) && s.core.net.Idle? && s.taken < |s.wrote| && m == s.wrote[s.taken]
    requires m.reqTyp == USR_CALL || m.reqTyp == USR_GO
    requires t.core == s.core.(net := Handled(RequestOf(m))) && t.wrote == s.wrote && t.taken == s.taken + 1
    ensures QueuesOk(t)
  {
  }

  lemma MessageOk(s: Sys, k: nat)
    requires WellFormed(s.core.items) && ChannelsOk(s) && k < |s.wrote|
    ensures s.wrote[k].msgClass == CLASS_DATA && (s.wrote[k].reqTyp == USR_CALL || s.wrote[k].reqTyp == USR_GO)
  {
    assert OfItem(s.core.items, s.wrote[k]);
    var j :| 0 <= j < |s.core.items| && s.core.items[j].msg == s.wrote[k];
  }

  lemma NetReadKeeps(s: Sys)
    requires Inv(s)
    ensures Inv(Next(s, NetRead))
  {
    var t := Next(s, NetRead);
    if s.core.net.Idle? && s.taken < |s.wrote| {
      var m := s.wrote[s.taken];
      MessageOk(s, s.taken);
      NetReadReplies(s, m, t);
      NetReadQueues(s, m, t);
      ReplyFrame(s, t, ReplyTo(m));
      RequesterFrame(s, t);
    }
  }

  lemma LocalReplies(s: Sys, t: Sys)
    requires RepliesOk(s) && t.wrote == s.wrote && t.taken == s.taken && t.sent == s.sent
    requires t.core.served == s.core.served
    ensures RepliesOk(t)
  {
    forall id
      ensures WireOf(t.sent, id) == Stage(t, id)
    {
      assert WireOf(s.sent, id) == Stage(s, id);
    }
  }

  // A local step of the controller keeps everything that its queues do not decide.
  lemma LocalKeeps(s: Sys, t: Sys)
    requires Inv(s) && QueuesOk(t)
    requires t == s.(core := t.core)
    requires t.core.items == s.core.items && t.core.allDone == s.core.allDone && t.core.pc == s.core.pc
    requires t.core.served == s.core.served
    ensures Inv(t)
  {
    RequesterFrame(s, t);
    LocalReplies(s, t);
  }

  lemma LocalAlign(s: Sys, t: Sys)
    requires AlignOk(s) && t == s.(core := t.core) && t.core.accepted == s.core.accepted && t.core.net == s.core.net
    ensures AlignOk(t)
  {
  }

  lemma DispatchQueues(s: Sys, t: Sys)
    requires QueuesOk(s) && t == s.(core := DispatchStep(s.core))
    ensures QueuesOk(t)
  {
    DispatchNet(s.core);
    assert AlignOk(t);
    assert ConserveOk(t.core) && OrderOk(t.core);
  }

  lemma DispatchNet(c: Core)
    requires c.net.Handled? ==> c.net.r.cmd == CMD_CALL || c.net.r.cmd == CMD_GO
    ensures var d := DispatchStep(c);
      d == c.(net := if c.net.Handled? then Routed(d.net.r) else c.net)
      && (c.net.Handled? ==> d.net.Routed? && d.net.r == c.net.r.(direction := d.net.r.direction))
  {
  }

  lemma EnqueueConserves(c: Core, d: Core, now: qword)
    requires ConserveOk(c) && c.net.Routed? && d == EnqueueStep(c, now)
    ensures ConserveOk(d)
  {
    var q := c.net.r.(time := now, cmd := 0);
    AcceptConserves(c.ctrl, q);
    assert multiset(d.accepted) == multiset(c.accepted) + multiset{q};
  }

  lemma EnqueueOrders(c: Core, d: Core, now: qword)
    requires OrderOk(c) && c.net.Routed? && d == EnqueueStep(c, now)
    ensures OrderOk(d)
  {
    assert d.queued == d.served + InService(d.car) + d.ctrl.current;
  }

  lemma EnqueueQueues(s: Sys, t: Sys, now: qword)
    requires QueuesOk(s) && t == s.(core := EnqueueStep(s.core, now))
    ensures QueuesOk(t)
  {
    if s.core.net.Routed? {
      EnqueueConserves(s.core, t.core, now);
      EnqueueOrders(s.core, t.core, now);
    }
  }

  lemma PopConserves(c: Core)
    requires ConserveOk(c)
    ensures ConserveOk(PopStep(c))
  {
    if c.car.Parked? && c.ctrl.current != [] {
      assert c.ctrl.current == [c.ctrl.current[0]] + c.ctrl.current[1..];
      assert multiset(c.ctrl.current) == multiset{c.ctrl.current[0]} + multiset(c.ctrl.current[1..]);
    }
  }

  lemma PopOrders(c: Core)
    requires OrderOk(c)
    ensures OrderOk(PopStep(c))
  {
    if c.car.Parked? && c.ctrl.current != [] {
      assert c.ctrl.current == [c.ctrl.current[0]] + c.ctrl.current[1..];
    }
  }

  lemma PopQueues(s: Sys, t: Sys)
    requires QueuesOk(s) && t == s.(core := PopStep(s.core))
    ensures QueuesOk(t)
  {
    PopConserves(s.core);
    PopOrders(s.core);
    LocalAlign(s, t);
  }

  lemma PreProcessConserves(c: Core, d: Ctrl, upwards: bool)
    requires ConserveOk(c) && c.ctrl.current == [] && d == Drained(c.ctrl, upwards)
    ensures HeapsOk(d)
    ensures multiset(c.accepted) == multiset(d.up) + multiset(d.down) + multiset(d.current)
      + multiset(InService(c.car)) + multiset(c.served)
  {
    DrainedConserves(c.ctrl, upwards);
  }

  lemma PreProcessOrders(c: Core, d: Ctrl)
    requires OrderOk(c) && c.ctrl.current == [] && c.car.Parked?
    ensures c.queued + d.current == c.served + [] + d.current
  {
  }

  lemma PreProcessQueues(s: Sys, t: Sys, upwards: bool)
    requires QueuesOk(s) && t == s.(core := PreProcessStep(s.core, upwards))
    ensures QueuesOk(t)
  {
    LocalAlign(s, t);
    var c := s.core;
    if c.car.Parked? && c.ctrl.current == [] {
      var up := upwards && !(c.ctrl.up == [] && c.ctrl.down == []);
      PreProcessConserves(c, t.core.ctrl, up);
      PreProcessOrders(c, t.core.ctrl);
    }
  }

  lemma ArriveQueues(s: Sys, t: Sys)
    requires QueuesOk(s) && t == s.(core := ArriveStep(s.core))
    ensures QueuesOk(t)
  {
    LocalAlign(s, t);
    assert ConserveOk(t.core);
  }

  lemma CloseQueues(s: Sys, t: Sys)
    requires QueuesOk(s) && t == s.(core := CloseStep(s.core))
    ensures QueuesOk(t)
  {
    LocalAlign(s, t);
    assert ConserveOk(t.core);
  }

  lemma ControllerKeeps(s: Sys, a: Action)
    requires Inv(s)
    requires a.NetDispatch? || a.NetEnqueue? || a.Pop? || a.PreProcess? || a.Arrive? || a.CloseDoor?
    ensures Inv(Next(s, a))
  {
    var t := Next(s, a);
    match a {
      case NetDispatch => DispatchQueues(s, t);
      case NetEnqueue(now) => EnqueueQueues(s, t, now);
      case Pop => PopQueues(s, t);
      case PreProcess(upwards) => PreProcessQueues(s, t, upwards);
      case Arrive => ArriveQueues(s, t);
      case CloseDoor => CloseQueues(s, t);
    }
    LocalFrame(s, t, a);
    LocalKeeps(s, t);
  }

  lemma LocalFrame(s: Sys, t: Sys, a: Action)
    requires a.NetDispatch? || a.NetEnqueue? || a.Pop? || a.PreProcess? || a.Arrive? || a.CloseDoor?
    requires t == Next(s, a)
    ensures t == s.(core := t.core)
    ensures t.core.items == s.core.items && t.core.allDone == s.core.allDone && t.core.pc == s.core.pc
    ensures t.core.served == s.core.served
  {
  }

  // ---------- actions that emit a status ----------

  function StopOf(r: Request): Reply {
    Status(r.nodeAddr, r.msgId, r.floor, STATUS_STOPPED)
  }

  lemma NextReport(s: Sys, r: Request, i: byte)
    requires s.core.car == Riding(r, i)
    ensures Next(s, Report) ==
      if i > r.floor then s
      else s.(core := s.core.(car := Riding(r, i + 1)),
        sent := s.sent + [Status(r.nodeAddr, r.msgId, i, STATUS_MOVING)])
  {
  }

  lemma NextStop(s: Sys, r: Request)
    requires s.core.car == Arrived(r)
    ensures Next(s, Stop) == s.(core := s.core.(car := Leaving, served := s.core.served + [r]),
      sent := s.sent + [StopOf(r)])
  {
  }

  lemma StageInService(s: Sys, r: Request)
    requires ChannelsOk(s) && QueuesOk(s) && InService(s.core.car) == [r]
    ensures Stage(s, r.msgId) == Acked
  {
    ServedApart(s, r);
    var k := PlacedIsTaken(s, r);
  }

  lemma ReportReplies(s: Sys, r: Request, status: Reply, t: Sys)
    requires ChannelsOk(s) && QueuesOk(s) && RepliesOk(s) && InService(s.core.car) == [r]
    requires status.Status? && status.msgId == r.msgId && status.status == STATUS_MOVING
    requires t.wrote == s.wrote && t.taken == s.taken && t.core.served == s.core.served && t.sent == s.sent + [status]
    ensures RepliesOk(t)
  {
    StageInService(s, r);
    forall id
      ensures WireOf(t.sent, id) == Stage(t, id)
    {
      WireAppend(s.sent, status, id);
      assert WireOf(s.sent, id) == Stage(s, id);
    }
  }

  lemma ReportQueues(s: Sys, t: Sys, i: byte)
    requires QueuesOk(s) && s.core.car.Riding?
    requires t.core == s.core.(car := Riding(s.core.car.r, i)) && t.wrote == s.wrote && t.taken == s.taken
    ensures QueuesOk(t)
  {
    assert InService(t.core.car) == InService(s.core.car);
    assert AlignOk(t);
    assert ConserveOk(t.core) && OrderOk(t.core);
  }

  lemma ReportedKeeps(s: Sys, t: Sys, r: Request, i: byte, status: Reply)
    requires Inv(s) && s.core.car == Riding(r, i) && status == Status(r.nodeAddr, r.msgId, i, STATUS_MOVING)
    requires t == s.(core := s.core.(car := Riding(r, i + 1)), sent := s.sent + [status])
    ensures Inv(t)
  {
    ReportReplies(s, r, status, t);
    ReportQueues(s, t, i + 1);
    ReplyFrame(s, t, status);
    RequesterFrame(s, t);
  }

  lemma ReportKeeps(s: Sys)
    requires Inv(s)
    ensures Inv(Next(s, Report))
  {
    match s.core.car {
      case Riding(r, i) =>
        NextReport(s, r, i);
        if i <= r.floor {
          ReportedKeeps(s, Next(s, Report), r, i, Status(r.nodeAddr, r.msgId, i, STATUS_MOVING));
        }
      case _ => assert Next(s, Report) == s;
    }
  }

  // A request in service asks for the floor of the item that sent it.
  lemma FloorOfItem(s: Sys, r: Request, j: nat)
    requires WellFormed(s.core.items) && ChannelsOk(s) && QueuesOk(s) && r in Everywhere(s.core)
    requires j < |s.core.items| && s.core.items[j].msg.msgId == r.msgId
    ensures s.core.items[j].msg.floor == r.floor
  {
    var k := PlacedIsTaken(s, r);
    assert OfItem(s.core.items, s.wrote[k]);
    var i :| 0 <= i < |s.core.items| && s.core.items[i].msg == s.wrote[k];
    assert i == j;
  }

  lemma StageStopped(s: Sys, t: Sys, r: Request, id: word)
    requires s.taken <= |s.wrote| && Stage(s, r.msgId) == Acked
    requires t.wrote == s.wrote && t.taken == s.taken && t.core.served == s.core.served + [r]
    ensures Stage(t, id) == if id == r.msgId then Done else Stage(s, id)
  {
    HasIdAppend(s.core.served, r, id);
  }

  lemma StopReplies(s: Sys, r: Request, t: Sys)
    requires ChannelsOk(s) && QueuesOk(s) && RepliesOk(s) && InService(s.core.car) == [r]
    requires t.wrote == s.wrote && t.taken == s.taken && t.core.served == s.core.served + [r]
    requires t.sent == s.sent + [Status(r.nodeAddr, r.msgId, r.floor, STATUS_STOPPED)]
    ensures RepliesOk(t)
  {
    StageInService(s, r);
    forall id
      ensures WireOf(t.sent, id) == Stage(t, id)
    {
      WireAppend(s.sent, t.sent[|s.sent|], id);
      StageStopped(s, t, r, id);
      assert WireOf(s.sent, id) == Stage(s, id);
    }
  }

  lemma StopConserves(c: Core, d: Core, r: Request)
    requires ConserveOk(c) && c.car == Arrived(r) && d == c.(car := Leaving, served := c.served + [r])
    ensures ConserveOk(d)
  {
    assert multiset(d.served) == multiset(c.served) + multiset([r]);
  }

  lemma StopQueues(s: Sys, t: Sys, r: Request)
    requires QueuesOk(s) && s.core.car == Arrived(r)
    requires t.core == s.core.(car := Leaving, served := s.core.served + [r]) && t.wrote == s.wrote
    requires t.taken == s.taken
    ensures QueuesOk(t)
  {
    StopConserves(s.core, t.core, r);
    assert t.core.queued == t.core.served + [] + t.core.ctrl.current;
    assert OrderOk(t.core);
  }

  lemma StoppedKeeps(s: Sys, t: Sys, r: Request)
    requires Inv(s) && s.core.car == Arrived(r)
    requires t == s.(core := s.core.(car := Leaving, served := s.core.served + [r]), sent := s.sent + [StopOf(r)])
    ensures Inv(t)
  {
    ServedApart(s, r);
    forall j | 0 <= j < |s.core.items| && s.core.items[j].msg.msgId == r.msgId
      ensures s.core.items[j].msg.floor == r.floor
    {
      FloorOfItem(s, r, j);
    }
    StopReplies(s, r, t);
    StopQueues(s, t, r);
    ReplyFrame(s, t, StopOf(r));
    RequesterFrame(s, t);
  }

  lemma StopKeeps(s: Sys)
    requires Inv(s)
    ensures Inv(Next(s, Stop))
  {
    match s.core.car {
      case Arrived(r) =>
        NextStop(s, r);
        StoppedKeeps(s, Next(s, Stop), r);
      case _ => assert Next(s, Stop) == s;
    }
  }

  // ---------- the count of finished items ----------

  lemma {:induction false} FinishedSame(a: seq<Item>, b: seq<Item>)
    requires |a| == |b| && forall j :: 0 <= j < |a| ==> (a[j].state == FINISHED <==> b[j].state == FINISHED)
    ensures Finished(a) == Finished(b)
  {
    if a == [] {
    } else {
      FinishedSame(a[..|a| - 1], b[..|b| - 1]);
    }
  }

  lemma {:induction false} FinishedBound(items: seq<Item>)
    ensures Finished(items) <= |items|
    ensures Finished(items) == |items| <==> forall j :: 0 <= j < |items| ==> items[j].state == FINISHED
  {
    if items == [] {
    } else {
      FinishedBound(items[..|items| - 1]);
    }
  }

  lemma {:induction false} FinishedOneMore(a: seq<Item>, b: seq<Item>, i: nat)
    requires |a| == |b| && i < |a| && a[i].state != FINISHED && b[i].state == FINISHED
    requires forall j :: 0 <= j < |a| && j != i ==> (a[j].state == FINISHED <==> b[j].state == FINISHED)
    ensures Finished(b) == Finished(a) + 1
  {
    var n := |a| - 1;
    if i == n {
      FinishedSame(a[..n], b[..n]);
    } else {
      FinishedOneMore(a[..n], b[..n], i);
    }
  }

  // ---------- actions of the requester ----------

  lemma ItemsFrame(s: Sys, t: Sys)
    requires ChannelsOk(s) && SameRequests(s.core.items, t.core.items)
    requires t.wrote == s.wrote && t.taken == s.taken && t.sent == s.sent && t.rcvd <= |t.sent|
    ensures ChannelsOk(t)
  {
    forall k | 0 <= k < |t.wrote|
      ensures OfItem(t.core.items, t.wrote[k])
    {
      assert OfItem(s.core.items, s.wrote[k]);
      var j :| 0 <= j < |s.core.items| && s.core.items[j].msg == s.wrote[k];
      assert t.core.items[j].msg == t.wrote[k];
    }
    forall k | 0 <= k < |t.sent|
      ensures StopOk(t.core.items, t.sent[k])
    {
      assert StopOk(s.core.items, s.sent[k]);
    }
  }

  // The controller's side does not depend on the items, the program counter or what was delivered.
  lemma ControllerFrame(s: Sys, t: Sys)
    requires QueuesOk(s) && RepliesOk(s)
    requires t.wrote == s.wrote && t.taken == s.taken && t.sent == s.sent
    requires t.core == s.core.(items := t.core.items, allDone := t.core.allDone, pc := t.core.pc)
    ensures QueuesOk(t) && RepliesOk(t)
  {
    LocalReplies(s, t);
    assert ConserveOk(t.core) && OrderOk(t.core) && AlignOk(t);
  }

  lemma WrittenItems(s: Sys, t: Sys, k: nat, m: ReqMsg)
    requires WellFormed(s.core.items) && ItemsOk(s)
    requires s.core.pc == Writing(Some(k)) && k < |s.core.items| && m == s.core.items[k].msg
    requires t.core == s.core.(pc := Testing) && t.wrote == s.wrote + [m] && t.sent == s.sent && t.rcvd == s.rcvd
    ensures ItemsOk(t)
  {
    forall j | 0 <= j < |t.core.items|
      ensures ItemOk(t, j)
    {
      assert ItemOk(s, j);
      WrittenAppend(s.wrote, m, t.core.items[j].msg.msgId);
      if j < k || k < j {
        assert s.core.items[j].msg.msgId != s.core.items[k].msg.msgId;
      }
    }
  }

  lemma WrittenChannels(s: Sys, t: Sys, k: nat, m: ReqMsg)
    requires ChannelsOk(s) && k < |s.core.items| && m == s.core.items[k].msg && !Written(s.wrote, m.msgId)
    requires t.core.items == s.core.items && t.wrote == s.wrote + [m]
    requires t.taken == s.taken && t.sent == s.sent && t.rcvd == s.rcvd
    ensures ChannelsOk(t)
  {
    assert OfItem(t.core.items, m);
    forall i, j | 0 <= i < j < |t.wrote|
      ensures t.wrote[i].msgId != t.wrote[j].msgId
    {
      if j == |s.wrote| {
        assert s.wrote[i].msgId != m.msgId;
      }
    }
  }

  lemma WrittenQueues(s: Sys, t: Sys)
    requires QueuesOk(s) && RepliesOk(s)
    requires t.core == s.core.(pc := Testing) && s.wrote <= t.wrote && t.taken == s.taken && t.sent == s.sent
    ensures QueuesOk(t) && RepliesOk(t)
  {
    assert t.wrote[..t.taken] == s.wrote[..s.taken];
    forall id
      ensures WireOf(t.sent, id) == Stage(t, id)
    {
      assert WireOf(s.sent, id) == Stage(s, id);
    }
    assert ConserveOk(t.core) && OrderOk(t.core) && AlignOk(t);
  }

  lemma WriteKeeps(s: Sys, writable: bool)
    requires Inv(s)
    ensures Inv(Next(s, Write(writable)))
  {
    var c, t := s.core, Next(s, Write(writable));
    if c.pc.Writing? {
      if writable && InHand(c).Some? {
        var k := c.pc.cur.value;
        WrittenItems(s, t, k, c.items[k].msg);
        WrittenChannels(s, t, k, c.items[k].msg);
        WrittenQueues(s, t);
      } else {
        RequesterMoves(s, t);
      }
    }
  }

  // Only the program counter moves.
  lemma RequesterMoves(s: Sys, t: Sys)
    requires Inv(s) && t == s.(core := s.core.(pc := t.core.pc)) && PcOk(t)
    ensures Inv(t)
  {
    ItemsFrame(s, t);
    ControllerFrame(s, t);
    forall j | 0 <= j < |t.core.items|
      ensures ItemOk(t, j)
    {
      assert ItemOk(s, j);
    }
  }

  lemma QuitKeeps(s: Sys)
    requires Inv(s)
    ensures Inv(Next(s, QuitTest))
  {
    RequesterMoves(s, Next(s, QuitTest));
  }

  // ---------- a delivered packet ----------

  lemma DeliveredWire(s: Sys, id: word)
    requires s.rcvd < |s.sent|
    ensures WireOf(s.sent[..s.rcvd + 1], id)
      == if s.sent[s.rcvd].msgId == id then WireStep(WireOf(s.sent[..s.rcvd], id), s.sent[s.rcvd])
         else WireOf(s.sent[..s.rcvd], id)
  {
    assert s.sent[..s.rcvd + 1] == s.sent[..s.rcvd] + [s.sent[s.rcvd]];
    WireAppend(s.sent[..s.rcvd], s.sent[s.rcvd], id);
  }

  // A packet for an id is preceded by the reading of its request, and never spoils the order.
  lemma DeliveredGood(s: Sys, id: word)
    requires RepliesOk(s) && s.rcvd < |s.sent| && s.sent[s.rcvd].msgId == id
    ensures WireOf(s.sent[..s.rcvd + 1], id) != Bad
    ensures Written(s.wrote, id)
  {
    assert WireOf(s.sent, id) == Stage(s, id);
    WirePrefix(s.sent, s.rcvd + 1, id);
    DeliveredWire(s, id);
    assert WireOf(s.sent, id) != Start;
    var k :| 0 <= k < s.taken && s.wrote[..s.taken][k].msgId == id;
    assert s.wrote[k].msgId == id;
  }

  // What delivery does to the item it is for.
  lemma DeliveredItem(s: Sys, j: nat)
    requires ChannelsOk(s) && RepliesOk(s) && s.rcvd < |s.sent| && j < |s.core.items| && ItemOk(s, j)
    requires s.core.items[j].msg.msgId == s.sent[s.rcvd].msgId
    ensures var id := s.core.items[j].msg.msgId;
      StateOk(Received(s.core.items[j], s.sent[s.rcvd]).state, WireOf(s.sent[..s.rcvd + 1], id), Written(s.wrote, id))
    ensures s.core.items[j].state == IN_PROGRESS || s.core.items[j].state == ACKED
    ensures var st := Received(s.core.items[j], s.sent[s.rcvd]).state; st == ACKED || st == REACHED
  {
    var id := s.core.items[j].msg.msgId;
    DeliveredWire(s, id);
    DeliveredGood(s, id);
    assert StopOk(s.core.items, s.sent[s.rcvd]);
  }

  lemma FindIs(items: seq<Item>, j: nat)
    requires WellFormed(items) && j < |items|
    ensures Find(items, items[j].msg.msgId) == j
  {
  }

  lemma DeliverOne(s: Sys, t: Sys, j: nat)
    requires WellFormed(s.core.items) && ChannelsOk(s) && RepliesOk(s) && s.rcvd < |s.sent|
    requires t.core.items == OnReply(s.core.items, s.sent[s.rcvd]) && t.sent == s.sent && t.rcvd == s.rcvd + 1
    requires t.wrote == s.wrote
    requires j < |s.core.items| && ItemOk(s, j)
    ensures ItemOk(t, j)
    ensures t.core.items[j].state == RESET <==> s.core.items[j].state == RESET
    ensures t.core.items[j].state == FINISHED <==> s.core.items[j].state == FINISHED
    ensures !Written(s.wrote, s.core.items[j].msg.msgId) ==> t.core.items[j] == s.core.items[j]
  {
    var id := s.core.items[j].msg.msgId;
    DeliveredWire(s, id);
    if s.sent[s.rcvd].msgId == id {
      FindIs(s.core.items, j);
      DeliveredItem(s, j);
      DeliveredGood(s, id);
    }
  }

  lemma SameLinks(a: seq<Item>, b: seq<Item>)
    requires SameRequests(a, b) && LinksOk(a) && WaitingOk(a)
    requires forall j :: 0 <= j < |a| ==> (a[j].state == RESET <==> b[j].state == RESET)
    requires forall j :: 0 <= j < |a| ==> (a[j].state == FINISHED <==> b[j].state == FINISHED)
    ensures LinksOk(b) && WaitingOk(b)
  {
    assert forall i, j :: 0 <= i < |a| && 0 <= j < |a| ==> Triggers(a, i, j) == Triggers(b, i, j);
    forall j | 0 <= j < |b| && b[j].msg.reqTyp == USR_GO && b[j].state != RESET
      ensures exists i :: 0 <= i < |b| && Triggers(b, i, j)
    {
      var i :| 0 <= i < |a| && Triggers(a, i, j);
      assert Triggers(b, i, j);
    }
  }

  lemma DeliverEach(s: Sys, t: Sys)
    requires WellFormed(s.core.items) && ChannelsOk(s) && RepliesOk(s) && s.rcvd < |s.sent|
    requires t.core.items == OnReply(s.core.items, s.sent[s.rcvd]) && t.sent == s.sent && t.rcvd == s.rcvd + 1
    requires t.wrote == s.wrote
    requires forall j :: 0 <= j < |s.core.items| ==> ItemOk(s, j)
    ensures forall j :: 0 <= j < |t.core.items| ==>
      && ItemOk(t, j)
      && (t.core.items[j].state == RESET <==> s.core.items[j].state == RESET)
      && (t.core.items[j].state == FINISHED <==> s.core.items[j].state == FINISHED)
      && (!Written(s.wrote, s.core.items[j].msg.msgId) ==> t.core.items[j] == s.core.items[j])
  {
    forall j | 0 <= j < |t.core.items|
      ensures ItemOk(t, j)
      ensures t.core.items[j].state == RESET <==> s.core.items[j].state == RESET
      ensures t.core.items[j].state == FINISHED <==> s.core.items[j].state == FINISHED
      ensures !Written(s.wrote, s.core.items[j].msg.msgId) ==> t.core.items[j] == s.core.items[j]
    {
      assert ItemOk(s, j);
      DeliverOne(s, t, j);
    }
  }

  lemma ReplySame(items: seq<Item>, r: Reply)
    ensures SameRequests(items, OnReply(items, r))
  {
  }

  lemma DeliverItems(s: Sys, t: Sys)
    requires WellFormed(s.core.items) && ChannelsOk(s) && RepliesOk(s) && ItemsOk(s) && s.core.pc.Selecting?
    requires s.rcvd < |s.sent|
    requires t == s.(core := s.core.(items := OnReply(s.core.items, s.sent[s.rcvd]), pc := Writing(s.core.pc.cur)),
      rcvd := s.rcvd + 1)
    ensures ItemsOk(t) && SameRequests(s.core.items, t.core.items)
  {
    DeliverEach(s, t);
    ReplySame(s.core.items, s.sent[s.rcvd]);
    SameLinks(s.core.items, t.core.items);
    FinishedSame(s.core.items, t.core.items);
  }

  lemma DeliverKeeps(s: Sys, t: Sys)
    requires Inv(s) && s.core.pc.Selecting? && s.rcvd < |s.sent|
    requires t == s.(core := s.core.(items := OnReply(s.core.items, s.sent[s.rcvd]), pc := Writing(s.core.pc.cur)),
      rcvd := s.rcvd + 1)
    ensures Inv(t)
  {
    DeliverItems(s, t);
    WellFormedFixed(s.core.items, t.core.items);
    ItemsFrame(s, t);
    ControllerFrame(s, t);
  }

  lemma SelectKeeps(s: Sys, readable: bool)
    requires Inv(s)
    ensures Inv(Next(s, Select(readable)))
  {
    var t := Next(s, Select(readable));
    if s.core.pc.Selecting? && readable && s.rcvd < |s.sent| {
      DeliverKeeps(s, t);
    } else {
      RequesterMoves(s, t);
    }
  }

  // ---------- one step of a scheduler pass ----------

  // The state changes a scheduler pass makes.
  predicate ScheduledMove(a: CallGoState, b: CallGoState) {
    a == b || (a == RESET && b == READY2GO) || (a == READY2GO && b == IN_PROGRESS) || (a == REACHED && b == FINISHED)
  }

  // Items change their state only where the wire and the write status allow the new state.
  lemma ItemsStep(s: Sys, t: Sys)
    requires s.rcvd <= |s.sent| && t.sent == s.sent && t.rcvd == s.rcvd && t.wrote == s.wrote
    requires SameRequests(s.core.items, t.core.items)
    requires forall j :: 0 <= j < |s.core.items| ==> ItemOk(s, j)
    requires forall j :: 0 <= j < |s.core.items| ==> ScheduledMove(s.core.items[j].state, t.core.items[j].state)
    ensures forall j :: 0 <= j < |t.core.items| ==> ItemOk(t, j)
  {
    forall j | 0 <= j < |t.core.items|
      ensures ItemOk(t, j)
    {
      assert ItemOk(s, j);
    }
  }

  lemma StartItem(s: Sys, t: Sys, i: nat)
    requires ItemsOk(s) && s.core.pc.Scanning? && i == s.core.pc.i < |s.core.items|
    requires s.core.items[i].state == READY2GO
    requires t
      == s.(core := s.core.(items := s.core.items[i := s.core.items[i].(state := IN_PROGRESS)],
        pc := Scanning(i + 1, Some(i))))
    ensures ItemsOk(t) && SameRequests(s.core.items, t.core.items)
  {
    var a, b := s.core.items, t.core.items;
    assert ItemOk(s, i);
    ItemsStep(s, t);
    SameLinks(a, b);
    FinishedSame(a, b);
  }

  lemma FinishLinks(a: seq<Item>, b: seq<Item>, i: nat)
    requires WellFormed(a) && LinksOk(a) && WaitingOk(a) && i < |a| && a[i].state == REACHED
    requires b == Released(a, i)[i := Released(a, i)[i].(state := FINISHED)]
    ensures SameRequests(a, b) && LinksOk(b) && WaitingOk(b)
    ensures b[i].state == FINISHED
    ensures forall j :: 0 <= j < |a| && j != i ==>
      b[j] == a[j] || (a[j].state == RESET && b[j] == a[j].(state := READY2GO))
  {
    assert !Triggers(a, i, i);
    forall j | 0 <= j < |a| && Triggers(a, i, j)
      ensures a[j].state == RESET && j != i
    {
    }
    assert forall k, j :: 0 <= k < |a| && 0 <= j < |a| ==> Triggers(a, k, j) == Triggers(b, k, j);
    forall k, j | 0 <= k < |b| && 0 <= j < |b| && Triggers(b, k, j)
      ensures b[j].state != RESET <==> b[k].state == FINISHED
    {
      assert Triggers(a, k, j);
      assert a[j].state != RESET <==> a[k].state == FINISHED;
    }
    forall j | 0 <= j < |b| && b[j].msg.reqTyp == USR_GO && b[j].state != RESET
      ensures exists k :: 0 <= k < |b| && Triggers(b, k, j)
    {
      if Triggers(a, i, j) {
        assert Triggers(b, i, j);
      } else {
        assert a[j].state != RESET;
        var k :| 0 <= k < |a| && Triggers(a, k, j);
        assert Triggers(b, k, j);
      }
    }
  }

  lemma FinishItem(s: Sys, t: Sys, i: nat)
    requires ItemsOk(s) && WellFormed(s.core.items) && s.core.pc.Scanning? && i == s.core.pc.i < |s.core.items|
    requires s.core.items[i].state == REACHED
    requires t.core
      == s.core.(items := t.core.items, allDone := s.core.allDone + 1, pc := Scanning(i + 1, s.core.pc.cur))
    requires t == s.(core := t.core)
    requires t.core.items == Released(s.core.items, i)[i := Released(s.core.items, i)[i].(state := FINISHED)]
    ensures ItemsOk(t) && SameRequests(s.core.items, t.core.items)
  {
    var a, b := s.core.items, t.core.items;
    FinishLinks(a, b, i);
    ItemsStep(s, t);
    FinishedOneMore(a, b, i);
  }

  lemma Rescheduled(s: Sys, t: Sys)
    requires Inv(s) && ItemsOk(t) && SameRequests(s.core.items, t.core.items)
    requires t == s.(core := s.core.(items := t.core.items, allDone := t.core.allDone, pc := t.core.pc))
    ensures Inv(t)
  {
    WellFormedFixed(s.core.items, t.core.items);
    ItemsFrame(s, t);
    ControllerFrame(s, t);
  }

  // What a scan step at an item does.
  lemma NextSchedule(s: Sys, i: nat, cur: Option<nat>)
    requires s.core.pc == Scanning(i, cur) && i < |s.core.items|
    ensures var t, items, item := Next(s, Schedule), s.core.items, s.core.items[i];
      match item.state
      case READY2GO =>
        t == s.(core := s.core.(items := items[i := item.(state := IN_PROGRESS)], pc := Scanning(i + 1, Some(i))))
      case REACHED =>
        var r := Released(items, i);
        t == s.(core := s.core.(items := r[i := r[i].(state := FINISHED)], allDone := s.core.allDone + 1,
          pc := Scanning(i + 1, cur)))
      case NACKED => true
      case _ => t == s.(core := s.core.(pc := Scanning(i + 1, cur)))
  {
  }

  lemma ScheduleStarts(s: Sys, i: nat)
    requires Inv(s) && s.core.pc.Scanning? && i == s.core.pc.i < |s.core.items| && s.core.items[i].state == READY2GO
    ensures Inv(Next(s, Schedule))
  {
    var t := Next(s, Schedule);
    NextSchedule(s, i, s.core.pc.cur);
    StartItem(s, t, i);
    Rescheduled(s, t);
  }

  lemma ScheduleFinishes(s: Sys, i: nat)
    requires Inv(s) && s.core.pc.Scanning? && i == s.core.pc.i < |s.core.items| && s.core.items[i].state == REACHED
    ensures Inv(Next(s, Schedule))
  {
    var t := Next(s, Schedule);
    NextSchedule(s, i, s.core.pc.cur);
    FinishItem(s, t, i);
    Rescheduled(s, t);
  }

  // NACKED, which would raise, does not occur.
  lemma NotNacked(s: Sys, i: nat)
    requires ItemsOk(s) && i < |s.core.items|
    ensures s.core.items[i].state != NACKED
  {
    assert ItemOk(s, i);
  }

  lemma PassesItem(s: Sys, i: nat, cur: Option<nat>)
    requires PcOk(s) && s.core.pc == Scanning(i, cur) && i < |s.core.items|
    ensures PcOk(s.(core := s.core.(pc := Scanning(i + 1, cur))))
  {
  }

  lemma ScheduleSkips(s: Sys, i: nat)
    requires Inv(s) && s.core.pc.Scanning? && i == s.core.pc.i < |s.core.items|
    requires s.core.items[i].state != READY2GO && s.core.items[i].state != REACHED
    ensures Inv(Next(s, Schedule))
    ensures Next(s, Schedule) == s.(core := s.core.(pc := Scanning(i + 1, s.core.pc.cur)))
  {
    var cur := s.core.pc.cur;
    NotNacked(s, i);
    NextSchedule(s, i, cur);
    PassesItem(s, i, cur);
    RequesterMoves(s, s.(core := s.core.(pc := Scanning(i + 1, cur))));
  }

  lemma ScheduleKeeps(s: Sys)
    requires Inv(s)
    ensures Inv(Next(s, Schedule))
  {
    if s.core.pc.Scanning? && s.core.pc.i < |s.core.items| {
      var i := s.core.pc.i;
      match s.core.items[i].state {
        case READY2GO => ScheduleStarts(s, i);
        case REACHED => ScheduleFinishes(s, i);
        case _ => ScheduleSkips(s, i);
      }
    } else {
      RequesterMoves(s, Next(s, Schedule));
    }
  }

  // ---------- every run ----------

  lemma NextKeeps(s: Sys, a: Action)
    requires Inv(s)
    ensures Inv(Next(s, a))
  {
    match a {
      case Schedule => ScheduleKeeps(s);
      case Select(readable) => SelectKeeps(s, readable);
      case Write(writable) => WriteKeeps(s, writable);
      case QuitTest => QuitKeeps(s);
      case NetRead => NetReadKeeps(s);
      case Report => ReportKeeps(s);
      case Stop => StopKeeps(s);
      case _ => ControllerKeeps(s, a);
    }
  }

  lemma {:induction false} NoneFinished(items: seq<Item>)
    requires forall j :: 0 <= j < |items| ==> items[j].state != FINISHED
    ensures Finished(items) == 0
  {
    if items == [] {
    } else {
      NoneFinished(items[..|items| - 1]);
    }
  }

  lemma InitItems(items: seq<Item>)
    requires WellFormed(items) && Unstarted(items)
    ensures ItemsOk(Init(items))
  {
    var s := Init(items);
    NoneFinished(items);
    forall j | 0 <= j < |items|
      ensures ItemOk(s, j)
    {
    }
    assert WaitingOk(items) && LinksOk(items);
  }

  lemma InitControl(items: seq<Item>)
    ensures ChannelsOk(Init(items)) && RepliesOk(Init(items)) && QueuesOk(Init(items))
  {
  }

  lemma InitHolds(items: seq<Item>)
    requires WellFormed(items) && Unstarted(items)
    ensures Inv(Init(items))
  {
    InitItems(items);
    InitControl(items);
  }

  lemma {:induction false} RunKeeps(items: seq<Item>, acts: seq<Action>)
    requires WellFormed(items) && Unstarted(items)
    ensures Inv(Exec(Init(items), acts))
    decreases |acts|
  {
    if acts == [] {
      InitHolds(items);
    } else {
      RunKeeps(items, acts[..|acts| - 1]);
      NextKeeps(Exec(Init(items), acts[..|acts| - 1]), acts[|acts| - 1]);
    }
  }

  // ---------- the requests themselves never change ----------

  lemma ScheduleFixed(c: Core)
    ensures SameRequests(c.items, ScheduleStep(c).items)
  {
  }

  lemma LocalFixed(c: Core, a: Action)
    requires !a.Schedule?
    ensures LocalStep(c, a).items == c.items
  {
  }

  lemma SelectFixed(s: Sys, a: Action)
    requires a.Select?
    ensures SameRequests(s.core.items, Next(s, a).core.items)
  {
  }

  lemma EmitFixed(s: Sys, a: Action)
    ensures EmitStep(s, a).core.items == s.core.items
  {
  }

  // Only a scan and a delivery touch the items.
  lemma ItemsLeft(s: Sys, a: Action)
    requires !a.Schedule? && !a.Select?
    ensures Next(s, a).core.items == s.core.items
  {
    if a.Report? || a.Stop? {
      EmitFixed(s, a);
    } else {
      LocalFixed(s.core, a);
    }
  }

  lemma StepFixed(s: Sys, a: Action)
    ensures SameRequests(s.core.items, Next(s, a).core.items)
  {
    match a {
      case Schedule => ScheduleFixed(s.core);
      case Select(_) => SelectFixed(s, a);
      case _ => ItemsLeft(s, a);
    }
  }

  lemma {:induction false} RequestsFixed(items: seq<Item>, acts: seq<Action>)
    ensures SameRequests(items, Exec(Init(items), acts).core.items)
    decreases |acts|
  {
    if acts == [] {
    } else {
      RequestsFixed(items, acts[..|acts| - 1]);
      StepFixed(Exec(Init(items), acts[..|acts| - 1]), acts[|acts| - 1]);
    }
  }
}
