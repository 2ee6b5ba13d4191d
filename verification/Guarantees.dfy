/**
  What the invariant means: statements about every state of every run.
 */
module Guarantees {
  import opened Bits
  import opened Packets
  import opened NetPackets
  import opened Controller
  import opened Requester
  import opened System
  import opened Safety

  // ---------- each request is in exactly one place ----------

  function Count(rs: seq<Request>, id: word): nat {
    if rs == [] then 0 else Count(rs[..|rs| - 1], id) + if rs[|rs| - 1].msgId == id then 1 else 0
  }

  function CountMsgs(ms: seq<ReqMsg>, id: word): nat {
    if ms == [] then 0 else CountMsgs(ms[..|ms| - 1], id) + if ms[|ms| - 1].msgId == id then 1 else 0
  }

  predicate IsStop(r: Reply, id: word) {
    r.Status? && r.status == STATUS_STOPPED && r.msgId == id
  }

  function CountStops(sent: seq<Reply>, id: word): nat {
    if sent == [] then 0 else CountStops(sent[..|sent| - 1], id) + if IsStop(sent[|sent| - 1], id) then 1 else 0
  }

  // The occurrences of a message id on its way: request channel, net thread, the three queues, in service.
  function Pending(s: Sys, id: word): nat
    requires s.taken <= |s.wrote|
  {
    CountMsgs(s.wrote[s.taken..], id)
    + (if s.core.net.Idle? || s.core.net.r.msgId != id then 0 else 1)
    + Count(s.core.ctrl.up, id) + Count(s.core.ctrl.down, id) + Count(s.core.ctrl.current, id)
    + Count(InService(s.core.car), id)
  }

  lemma {:induction false} CountConcat(a: seq<Request>, b: seq<Request>, id: word)
    ensures Count(a + b, id) == Count(a, id) + Count(b, id)
    decreases |b|
  {
    if b == [] {
      assert a + b == a;
    } else {
      assert (a + b)[..|a| + |b| - 1] == a + b[..|b| - 1];
      CountConcat(a, b[..|b| - 1], id);
    }
  }

  lemma {:induction false} CountMsgsConcat(a: seq<ReqMsg>, b: seq<ReqMsg>, id: word)
    ensures CountMsgs(a + b, id) == CountMsgs(a, id) + CountMsgs(b, id)
    decreases |b|
  {
    if b == [] {
      assert a + b == a;
    } else {
      assert (a + b)[..|a| + |b| - 1] == a + b[..|b| - 1];
      CountMsgsConcat(a, b[..|b| - 1], id);
    }
  }

  lemma {:induction false} CountStopsConcat(a: seq<Reply>, b: seq<Reply>, id: word)
    ensures CountStops(a + b, id) == CountStops(a, id) + CountStops(b, id)
    decreases |b|
  {
    if b == [] {
      assert a + b == a;
    } else {
      assert (a + b)[..|a| + |b| - 1] == a + b[..|b| - 1];
      CountStopsConcat(a, b[..|b| - 1], id);
    }
  }

  lemma TakeOut(front: seq<Request>, x: Request, back: seq<Request>, id: word)
    ensures multiset(front + [x] + back) == multiset(front + back) + multiset{x}
    ensures Count(front + [x] + back, id) == Count(front + back, id) + if x.msgId == id then 1 else 0
  {
    CountConcat(front, back, id);
    CountConcat(front + [x], back, id);
    assert (front + [x])[..|front|] == front;
  }

  lemma LastOut(a: seq<Request>)
    requires a != []
    ensures multiset(a) == multiset(a[..|a| - 1]) + multiset{a[|a| - 1]}
  {
    assert a == a[..|a| - 1] + [a[|a| - 1]];
  }

  lemma Cancel(a: multiset<Request>, b: multiset<Request>, x: Request)
    requires a + multiset{x} == b + multiset{x}
    ensures a == b
  {
    forall y
      ensures a[y] == b[y]
    {
      assert (a + multiset{x})[y] == (b + multiset{x})[y];
    }
  }

  lemma {:induction false} CountPermutation(a: seq<Request>, b: seq<Request>, id: word)
    requires multiset(a) == multiset(b)
    ensures Count(a, id) == Count(b, id)
    decreases |a|
  {
    if a == [] {
      assert |multiset(b)| == 0;
    } else {
      var n := |a| - 1;
      var x := a[n];
      LastOut(a);
      var k := InMultiset(b, x);
      var rest := b[..k] + b[k + 1..];
      assert b == b[..k] + [x] + b[k + 1..];
      TakeOut(b[..k], x, b[k + 1..], id);
      Cancel(multiset(a[..n]), multiset(rest), x);
      CountPermutation(a[..n], rest, id);
    }
  }

  lemma {:induction false} CountMatching(rs: seq<Request>, ms: seq<ReqMsg>, id: word)
    requires |rs| <= |ms| && forall k :: 0 <= k < |rs| ==> Matches(rs[k], ms[k])
    ensures Count(rs, id) == CountMsgs(ms[..|rs|], id)
  {
    if rs == [] {
    } else {
      var n := |rs| - 1;
      CountMatching(rs[..n], ms, id);
      assert ms[..|rs|][..n] == ms[..n];
    }
  }

  lemma AcceptedCount(s: Sys, id: word)
    requires QueuesOk(s)
    ensures var c := s.core;
      Count(c.accepted, id) == Count(c.ctrl.up, id) + Count(c.ctrl.down, id) + Count(c.ctrl.current, id)
                               + Count(InService(c.car), id) + Count(c.served, id)
  {
    var c := s.core;
    var all := c.ctrl.up + c.ctrl.down + c.ctrl.current + InService(c.car) + c.served;
    CountPermutation(c.accepted, all, id);
    CountConcat(c.ctrl.up, c.ctrl.down, id);
    CountConcat(c.ctrl.up + c.ctrl.down, c.ctrl.current, id);
    CountConcat(c.ctrl.up + c.ctrl.down + c.ctrl.current, InService(c.car), id);
    CountConcat(c.ctrl.up + c.ctrl.down + c.ctrl.current + InService(c.car), c.served, id);
  }

  lemma TakenCount(s: Sys, id: word)
    requires AlignOk(s)
    ensures CountMsgs(s.wrote[..s.taken], id)
      == Count(s.core.accepted, id) + (if s.core.net.Idle? || s.core.net.r.msgId != id then 0 else 1)
  {
    CountMatching(s.core.accepted, s.wrote, id);
    if !s.core.net.Idle? {
      assert s.wrote[..s.taken][..s.taken - 1] == s.wrote[..s.taken - 1];
    }
  }

  lemma {:induction false} CountIsHas(rs: seq<Request>, id: word)
    ensures Count(rs, id) > 0 <==> HasId(rs, id)
  {
    if rs == [] {
    } else {
      var n := |rs| - 1;
      CountIsHas(rs[..n], id);
      assert rs == rs[..n] + [rs[n]];
      HasIdAppend(rs[..n], rs[n], id);
    }
  }

  lemma {:induction false} CountWritten(ms: seq<ReqMsg>, id: word)
    requires DistinctIds(ms)
    ensures CountMsgs(ms, id) == if Written(ms, id) then 1 else 0
  {
    if ms == [] {
    } else {
      var n := |ms| - 1;
      CountWritten(ms[..n], id);
      assert ms == ms[..n] + [ms[n]];
      WrittenAppend(ms[..n], ms[n], id);
    }
  }

  lemma {:induction false} StopsOnWire(sent: seq<Reply>, id: word)
    requires WireOf(sent, id) != Bad
    ensures CountStops(sent, id) == if WireOf(sent, id) == Done then 1 else 0
  {
    if sent == [] {
    } else {
      var n := |sent| - 1;
      WirePrefix(sent, n, id);
      StopsOnWire(sent[..n], id);
    }
  }

  // Tokens are conserved: a written request is pending in exactly one place, or its one stop status
  // is in the reply channel, or that status has been received; an unwritten one is nowhere.
  lemma Tokens(items: seq<Item>, acts: seq<Action>, id: word)
    requires WellFormed(items) && Unstarted(items)
    ensures var s := Exec(Init(items), acts);
      && s.taken <= |s.wrote| && s.rcvd <= |s.sent|
      && Pending(s, id) + CountStops(s.sent[s.rcvd..], id) + CountStops(s.sent[..s.rcvd], id)
         == CountMsgs(s.wrote, id)
      && CountMsgs(s.wrote, id) == if Written(s.wrote, id) then 1 else 0
  {
    var s := Exec(Init(items), acts);
    RunKeeps(items, acts);
    TokensAt(s, id);
  }

  lemma TokensAt(s: Sys, id: word)
    requires ChannelsOk(s) && QueuesOk(s) && RepliesOk(s)
    ensures Pending(s, id) + CountStops(s.sent[s.rcvd..], id) + CountStops(s.sent[..s.rcvd], id)
      == CountMsgs(s.wrote, id)
    ensures CountMsgs(s.wrote, id) == if Written(s.wrote, id) then 1 else 0
  {
    assert s.wrote == s.wrote[..s.taken] + s.wrote[s.taken..];
    assert s.sent == s.sent[..s.rcvd] + s.sent[s.rcvd..];
    CountMsgsConcat(s.wrote[..s.taken], s.wrote[s.taken..], id);
    CountStopsConcat(s.sent[..s.rcvd], s.sent[s.rcvd..], id);
    TakenCount(s, id);
    AcceptedCount(s, id);
    CountWritten(s.wrote, id);
    assert WireOf(s.sent, id) == Stage(s, id);
    StopsOnWire(s.sent, id);
    CountIsHas(s.core.served, id);
    if HasId(s.core.served, id) {
      ServedTaken(s, id);
    }
  }

  // ---------- end to end ----------

  // The stop log holds a stop for this item at its floor.
  ghost predicate StoppedFor(served: seq<Request>, item: Item) {
    exists k :: 0 <= k < |served| && served[k].msgId == item.msg.msgId && served[k].floor == item.msg.floor
  }

  lemma DoneIsServed(s: Sys, j: nat)
    requires Inv(s) && j < |s.core.items|
    requires s.core.items[j].state == REACHED || s.core.items[j].state == FINISHED
    ensures StoppedFor(s.core.served, s.core.items[j])
  {
    var item := s.core.items[j];
    var id := item.msg.msgId;
    assert ItemOk(s, j);
    assert WireOf(s.sent, id) == Stage(s, id);
    WirePrefix(s.sent, s.rcvd, id);
    var k :| 0 <= k < |s.core.served| && s.core.served[k].msgId == id;
    assert s.core.served[k] in multiset(s.core.served);
    FloorOfItem(s, s.core.served[k], j);
  }

  // In every reachable state the counter is exact, no exception has been raised, a finished item has
  // really been stopped for at its floor, and the quit test passes exactly when all items are finished.
  lemma EndToEnd(items: seq<Item>, acts: seq<Action>)
    requires WellFormed(items) && Unstarted(items)
    ensures var c := Exec(Init(items), acts).core;
      && c.allDone == Finished(c.items) && !c.pc.Raised?
      && (c.allDone == |c.items| <==> forall j :: 0 <= j < |c.items| ==> c.items[j].state == FINISHED)
      && (forall j :: 0 <= j < |c.items| && c.items[j].state == FINISHED ==> StoppedFor(c.served, c.items[j]))
      && (c.pc.Quit? ==> forall j :: 0 <= j < |c.items| ==>
        c.items[j].state == FINISHED && StoppedFor(c.served, c.items[j]))
  {
    var s := Exec(Init(items), acts);
    RunKeeps(items, acts);
    FinishedBound(s.core.items);
    forall j | 0 <= j < |s.core.items| && s.core.items[j].state == FINISHED
      ensures StoppedFor(s.core.served, s.core.items[j])
    {
      DoneIsServed(s, j);
    }
  }

  // ---------- order of packets for one request ----------

  function PacketsFor(sent: seq<Reply>, id: word): seq<Reply> {
    if sent == [] then []
    else PacketsFor(sent[..|sent| - 1], id) + if sent[|sent| - 1].msgId == id then [sent[|sent| - 1]] else []
  }

  predicate IsMoving(r: Reply) {
    r.Status? && r.status == STATUS_MOVING
  }

  // ACK first, then MOVING statuses only, up to position n.
  predicate AckThenMoving(p: seq<Reply>, n: nat) {
    1 <= n <= |p| && p[0].Control? && p[0].ack && forall k :: 1 <= k < n ==> IsMoving(p[k])
  }

  lemma {:induction false} WireShape(sent: seq<Reply>, id: word)
    ensures var p := PacketsFor(sent, id);
      match WireOf(sent, id)
      case Start => p == []
      case Acked => AckThenMoving(p, |p|)
      case Done => |p| >= 2 && AckThenMoving(p, |p| - 1) && IsStop(p[|p| - 1], id)
      case Bad => true
  {
    if sent == [] {
    } else {
      WireShape(sent[..|sent| - 1], id);
    }
  }

  // Nothing, or ACK and then MOVING statuses, or ACK, MOVING statuses and one final STOPPED status.
  predicate InOrder(sent: seq<Reply>, id: word) {
    var p := PacketsFor(sent, id);
    p == [] || AckThenMoving(p, |p|) || (|p| >= 2 && AckThenMoving(p, |p| - 1) && IsStop(p[|p| - 1], id))
  }

  lemma GoodInOrder(sent: seq<Reply>, id: word)
    requires WireOf(sent, id) != Bad
    ensures InOrder(sent, id)
  {
    WireShape(sent, id);
  }

  // For every message id, in every run, what was sent is in order, and so is what was received.
  lemma WireOrder(items: seq<Item>, acts: seq<Action>, id: word)
    requires WellFormed(items) && Unstarted(items)
    ensures var s := Exec(Init(items), acts);
      s.rcvd <= |s.sent| && InOrder(s.sent, id) && InOrder(s.sent[..s.rcvd], id)
  {
    var s := Exec(Init(items), acts);
    RunKeeps(items, acts);
    assert WireOf(s.sent, id) == Stage(s, id);
    WirePrefix(s.sent, s.rcvd, id);
    GoodInOrder(s.sent, id);
    GoodInOrder(s.sent[..s.rcvd], id);
  }

  // ---------- call before go ----------

  // A go item leaves RESET only when the call that releases it is finished, and its request is
  // written only after the car has stopped for that call.
  lemma CallBeforeGo(items: seq<Item>, acts: seq<Action>, i: nat, j: nat)
    requires WellFormed(items) && Unstarted(items)
    requires i < |items| && j < |items| && Triggers(items, i, j)
    ensures var s := Exec(Init(items), acts);
      && |s.core.items| == |items|
      && (s.core.items[j].state != RESET <==> s.core.items[i].state == FINISHED)
      && (Written(s.wrote, items[j].msg.msgId) ==>
            s.core.items[i].state == FINISHED && StoppedFor(s.core.served, items[i]))
  {
    var s := Exec(Init(items), acts);
    RunKeeps(items, acts);
    RequestsFixed(items, acts);
    assert Triggers(s.core.items, i, j);
    assert ItemOk(s, j);
    if s.core.items[i].state == FINISHED {
      DoneIsServed(s, i);
    }
  }

  // ---------- the controller's queues ----------

  // Conservation and order: every request enqueued is queued, in service or served, exactly as often
  // as it was enqueued; service follows the order of entry into the current queue.
  lemma ControllerOrder(items: seq<Item>, acts: seq<Action>)
    requires WellFormed(items) && Unstarted(items)
    ensures var c := Exec(Init(items), acts).core;
      && multiset(c.accepted) == Everywhere(c)
      && c.served <= c.queued
      && c.queued[|c.served|..] == InService(c.car) + c.ctrl.current
  {
    RunQueued(items, acts);
    OrderMeans(Exec(Init(items), acts).core);
  }

  lemma RunQueued(items: seq<Item>, acts: seq<Action>)
    requires WellFormed(items) && Unstarted(items)
    ensures ConserveOk(Exec(Init(items), acts).core) && OrderOk(Exec(Init(items), acts).core)
  {
    RunKeeps(items, acts);
  }

  lemma OrderMeans(c: Core)
    requires OrderOk(c)
    ensures c.served <= c.queued && c.queued[|c.served|..] == InService(c.car) + c.ctrl.current
  {
    assert c.queued == c.served + (InService(c.car) + c.ctrl.current);
  }

  // ---------- the side queues ----------

  // Each side holds only requests of its own direction.
  ghost predicate SidesSorted(c: Ctrl) {
    && (forall r :: r in multiset(c.up) ==> r.direction == 1)
    && (forall r :: r in multiset(c.down) ==> r.direction != 1)
  }

  lemma AcceptSorted(c: Ctrl, r: Request)
    requires HeapsOk(c) && SidesSorted(c)
    ensures SidesSorted(Accept(c, r))
  {
    AcceptRoutes(c, r);
  }

  lemma EnqueueSorted(s: Sys, now: qword)
    requires HeapsOk(s.core.ctrl) && SidesSorted(s.core.ctrl)
    ensures SidesSorted(Next(s, NetEnqueue(now)).core.ctrl)
  {
    match s.core.net {
      case Routed(r) => AcceptSorted(s.core.ctrl, r.(time := now, cmd := 0));
      case _ => assert Next(s, NetEnqueue(now)) == s;
    }
  }

  lemma DrainSorted(s: Sys, upwards: bool)
    requires SidesSorted(s.core.ctrl)
    ensures SidesSorted(Next(s, PreProcess(upwards)).core.ctrl)
  {
    if !(s.core.car.Parked? && s.core.ctrl.current == []) {
      assert Next(s, PreProcess(upwards)) == s;
    }
  }

  lemma SidesUntouched(s: Sys, a: Action)
    requires !a.NetEnqueue? && !a.PreProcess?
    ensures Next(s, a).core.ctrl.up == s.core.ctrl.up && Next(s, a).core.ctrl.down == s.core.ctrl.down
  {
  }

  lemma NextSorted(s: Sys, a: Action)
    requires Inv(s) && SidesSorted(s.core.ctrl)
    ensures SidesSorted(Next(s, a).core.ctrl)
  {
    match a {
      case NetEnqueue(now) => EnqueueSorted(s, now);
      case PreProcess(upwards) => DrainSorted(s, upwards);
      case _ => SidesUntouched(s, a);
    }
  }

  // In every state of every run the up queue holds only requests upwards, the down queue only others.
  lemma {:induction false} SideQueues(items: seq<Item>, acts: seq<Action>)
    requires WellFormed(items) && Unstarted(items)
    ensures SidesSorted(Exec(Init(items), acts).core.ctrl)
    decreases |acts|
  {
    if acts == [] {
    } else {
      var b := acts[..|acts| - 1];
      SideQueues(items, b);
      RunKeeps(items, b);
      NextSorted(Exec(Init(items), b), acts[|acts| - 1]);
    }
  }

  // ---------- the flag of an item ----------

  predicate Flagged(item: Item) {
    item.isOk <==> item.state == ACKED || item.state == REACHED || item.state == FINISHED
  }

  ghost predicate AllFlagged(items: seq<Item>) {
    forall j :: 0 <= j < |items| ==> Flagged(items[j])
  }

  lemma DeliverFlagged(s: Sys, j: nat)
    requires Inv(s) && s.rcvd < |s.sent| && j < |s.core.items| && Flagged(s.core.items[j])
    ensures Flagged(OnReply(s.core.items, s.sent[s.rcvd])[j])
  {
    var id := s.core.items[j].msg.msgId;
    assert ItemOk(s, j);
    if s.sent[s.rcvd].msgId == id {
      FindIs(s.core.items, j);
      DeliveredItem(s, j);
      DeliveredWire(s, id);
    }
  }

  lemma SelectFlagged(s: Sys, readable: bool)
    requires Inv(s) && AllFlagged(s.core.items)
    ensures AllFlagged(Next(s, Select(readable)).core.items)
  {
    if s.core.pc.Selecting? && readable && s.rcvd < |s.sent| {
      forall j | 0 <= j < |s.core.items|
        ensures Flagged(OnReply(s.core.items, s.sent[s.rcvd])[j])
      {
        DeliverFlagged(s, j);
      }
    }
  }

  lemma FinishFlagged(a: seq<Item>, b: seq<Item>, i: nat)
    requires WellFormed(a) && LinksOk(a) && WaitingOk(a) && i < |a| && a[i].state == REACHED && AllFlagged(a)
    requires b == Released(a, i)[i := Released(a, i)[i].(state := FINISHED)]
    ensures AllFlagged(b)
  {
    FinishLinks(a, b, i);
    forall j | 0 <= j < |b|
      ensures Flagged(b[j])
    {
      assert Flagged(a[j]);
      assert b[j].isOk == a[j].isOk;
    }
  }

  lemma ScheduleFlagged(s: Sys)
    requires Inv(s) && AllFlagged(s.core.items)
    ensures AllFlagged(Next(s, Schedule).core.items)
  {
    var t := Next(s, Schedule);
    if s.core.pc.Scanning? && s.core.pc.i < |s.core.items| {
      var i := s.core.pc.i;
      NextSchedule(s, i, s.core.pc.cur);
      NotNacked(s, i);
      if s.core.items[i].state == REACHED {
        FinishFlagged(s.core.items, t.core.items, i);
      }
    }
  }

  lemma NextFlagged(s: Sys, a: Action)
    requires Inv(s) && AllFlagged(s.core.items)
    ensures AllFlagged(Next(s, a).core.items)
  {
    match a {
      case Schedule => ScheduleFlagged(s);
      case Select(readable) => SelectFlagged(s, readable);
      case _ => ItemsLeft(s, a);
    }
  }

  // In every state of every run an item's flag says whether its request has been acknowledged.
  lemma {:induction false} FlagIsAck(items: seq<Item>, acts: seq<Action>)
    requires WellFormed(items) && Unstarted(items) && forall j :: 0 <= j < |items| ==> !items[j].isOk
    ensures AllFlagged(Exec(Init(items), acts).core.items)
    decreases |acts|
  {
    if acts == [] {
    } else {
      var b := acts[..|acts| - 1];
      FlagIsAck(items, b);
      RunKeeps(items, b);
      NextFlagged(Exec(Init(items), b), acts[|acts| - 1]);
    }
  }
}
