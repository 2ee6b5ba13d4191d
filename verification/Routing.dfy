/**
  Where each request goes when it is enqueued: straight to the current queue, or aside.
 */
module Routing {
  import opened Bits
  import opened NetPackets
  import opened Controller
  import opened Requester
  import opened Runs
  import opened System
  import opened Safety
  import opened Guarantees
  import opened Rides

  // ---------- the lists that can be finished ----------

  ghost predicate OneCall(items: seq<Item>) {
    forall i, j :: 0 <= i < j < |items| ==> !(items[i].msg.reqTyp == USR_CALL && items[j].msg.reqTyp == USR_CALL)
  }

  ghost predicate Linked(items: seq<Item>) {
    forall j :: 0 <= j < |items| && items[j].msg.reqTyp == USR_GO ==>
      exists i :: 0 <= i < |items| && Triggers(items, i, j)
  }

  ghost predicate Finishable(items: seq<Item>) {
    OneCall(items) && Linked(items) && FloorsOk(items)
  }

  lemma FinishableFixed(a: seq<Item>, b: seq<Item>)
    requires Finishable(a) && SameRequests(a, b)
    ensures Finishable(b)
  {
    forall j | 0 <= j < |b| && b[j].msg.reqTyp == USR_GO
      ensures exists i :: 0 <= i < |b| && Triggers(b, i, j)
    {
      var i :| 0 <= i < |a| && Triggers(a, i, j);
      assert Triggers(b, i, j);
    }
  }

  lemma OneGo(items: seq<Item>, i: nat, j: nat)
    requires WellFormed(items) && Finishable(items)
    requires i < |items| && j < |items| && items[i].msg.reqTyp == USR_GO && items[j].msg.reqTyp == USR_GO
    ensures i == j
  {
    var k :| 0 <= k < |items| && Triggers(items, k, i);
    var l :| 0 <= l < |items| && Triggers(items, l, j);
    assert k == l;
  }

  // ---------- what the net thread holds ----------

  ghost predicate NetOk(s: Sys) {
    && s.taken <= |s.wrote|
    && match s.core.net
       case Idle => true
       case Handled(r) => s.taken > 0 && r == RequestOf(s.wrote[s.taken - 1])
       case Routed(r) => s.taken > 0 && r == RequestOf(s.wrote[s.taken - 1]).(direction := r.direction)
                         && (r.cmd == CMD_CALL ==> r.direction == s.wrote[s.taken - 1].direction)
  }

  lemma NetOkLocal(s: Sys, a: Action)
    requires NetOk(s) && (a.NetDispatch? || a.NetEnqueue?)
    ensures NetOk(Next(s, a))
  {
  }

  lemma NetOkRead(s: Sys)
    requires NetOk(s)
    ensures NetOk(Next(s, NetRead))
  {
  }

  lemma NetOkFrame(s: Sys, t: Sys)
    requires NetOk(s) && t.core.net == s.core.net && t.taken == s.taken && s.wrote <= t.wrote
    ensures NetOk(t)
  {
  }

  lemma NetLeft(s: Sys, a: Action)
    requires !a.NetRead? && !a.NetDispatch? && !a.NetEnqueue?
    ensures var t := Next(s, a);
      t.core.net == s.core.net && t.taken == s.taken && s.wrote <= t.wrote && t.core.accepted == s.core.accepted
  {
  }

  lemma NetOkNext(s: Sys, a: Action)
    requires NetOk(s)
    ensures NetOk(Next(s, a))
  {
    match a {
      case NetRead => NetOkRead(s);
      case NetDispatch => NetOkLocal(s, a);
      case NetEnqueue(_) => NetOkLocal(s, a);
      case _ => NetLeft(s, a); NetOkFrame(s, Next(s, a));
    }
  }

  // ---------- where the car is when a request is enqueued ----------

  ghost predicate Accepted(s: Sys, j: nat)
    requires j < |s.core.items|
  {
    HasId(s.core.accepted, s.core.items[j].msg.msgId)
  }

  lemma AcceptedSize(c: Core)
    requires ConserveOk(c)
    ensures |c.accepted| == |c.ctrl.up| + |c.ctrl.down| + |c.ctrl.current| + |InService(c.car)| + |c.served|
  {
    assert |multiset(c.accepted)| == |c.accepted|;
  }

  // The request the net thread holds is that of one item, which has not been enqueued.
  lemma HeldItem(s: Sys) returns (j: nat)
    requires Inv(s) && NetOk(s) && !s.core.net.Idle?
    ensures j < |s.core.items| && s.core.items[j].msg == s.wrote[s.taken - 1]
    ensures s.core.items[j].msg.msgId == s.core.net.r.msgId
    ensures !Accepted(s, j) && Written(s.wrote, s.core.items[j].msg.msgId)
  {
    assert OfItem(s.core.items, s.wrote[s.taken - 1]);
    j :| 0 <= j < |s.core.items| && s.core.items[j].msg == s.wrote[s.taken - 1];
    forall k | 0 <= k < |s.core.accepted|
      ensures s.core.accepted[k].msgId != s.core.items[j].msg.msgId
    {
      assert Matches(s.core.accepted[k], s.wrote[k]);
    }
  }

  // An enqueued request is that of one item, which has been written.
  lemma AcceptedItem(s: Sys, k: nat) returns (i: nat)
    requires Inv(s) && k < |s.core.accepted|
    ensures i < |s.core.items| && Matches(s.core.accepted[k], s.core.items[i].msg) && Accepted(s, i)
    ensures Written(s.wrote, s.core.items[i].msg.msgId)
  {
    assert Matches(s.core.accepted[k], s.wrote[k]);
    assert OfItem(s.core.items, s.wrote[k]);
    i :| 0 <= i < |s.core.items| && s.core.items[i].msg == s.wrote[k];
  }

  // A written go item's call has been stopped for.
  lemma CallServed(s: Sys, j: nat) returns (i: nat)
    requires Inv(s) && j < |s.core.items| && s.core.items[j].msg.reqTyp == USR_GO
    requires Written(s.wrote, s.core.items[j].msg.msgId)
    ensures i < |s.core.items| && Triggers(s.core.items, i, j) && StoppedFor(s.core.served, s.core.items[i])
    ensures Accepted(s, i)
  {
    assert ItemOk(s, j);
    i :| 0 <= i < |s.core.items| && Triggers(s.core.items, i, j);
    DoneIsServed(s, i);
    var k :| 0 <= k < |s.core.served| && s.core.served[k].msgId == s.core.items[i].msg.msgId;
    assert s.core.served[k] in multiset(s.core.served);
    var l := PlacedIsTaken(s, s.core.served[k]);
  }

  lemma OnlyCall(items: seq<Item>, a: nat, b: nat)
    requires OneCall(items) && a < |items| && b < |items|
    requires items[a].msg.reqTyp == USR_CALL && items[b].msg.reqTyp == USR_CALL
    ensures a == b
  {
  }

  lemma OnlyTrigger(items: seq<Item>, a: nat, b: nat, j: nat)
    requires WellFormed(items) && a < |items| && b < |items| && j < |items|
    requires Triggers(items, a, j) && Triggers(items, b, j)
    ensures a == b && items[a].msg.reqTyp == USR_CALL
  {
  }

  // Whatever is enqueued, the call has been enqueued.
  lemma SomeCallAccepted(s: Sys) returns (i: nat)
    requires Inv(s) && s.core.accepted != []
    ensures i < |s.core.items| && s.core.items[i].msg.reqTyp == USR_CALL && Accepted(s, i)
  {
    i := AcceptedItem(s, 0);
    if s.core.items[i].msg.reqTyp == USR_GO {
      var j := i;
      i := CallServed(s, j);
      OnlyTrigger(s.core.items, i, i, j);
    }
  }

  // Nothing is enqueued before the call.
  lemma CallFirst(s: Sys, j: nat)
    requires Inv(s) && OneCall(s.core.items) && j < |s.core.items| && s.core.items[j].msg.reqTyp == USR_CALL
    requires !Accepted(s, j)
    ensures s.core.accepted == []
  {
    if s.core.accepted != [] {
      var i := SomeCallAccepted(s);
      OnlyCall(s.core.items, i, j);
    }
  }

  lemma AcceptedCall(s: Sys, j: nat, k: nat) returns (i: nat)
    requires Inv(s) && Finishable(s.core.items) && j < |s.core.items| && s.core.items[j].msg.reqTyp == USR_GO
    requires !Accepted(s, j) && k < |s.core.accepted|
    ensures i < |s.core.items| && s.core.items[i].msg.reqTyp == USR_CALL
    ensures s.core.accepted[k].msgId == s.core.items[i].msg.msgId
  {
    i := AcceptedItem(s, k);
    if s.core.items[i].msg.reqTyp == USR_GO {
      OneGo(s.core.items, i, j);
    }
  }

  // Only the call is enqueued before the go item.
  lemma GoSecond(s: Sys, j: nat)
    requires Inv(s) && Finishable(s.core.items) && j < |s.core.items| && s.core.items[j].msg.reqTyp == USR_GO
    requires !Accepted(s, j)
    ensures |s.core.accepted| <= 1
  {
    if |s.core.accepted| > 1 {
      var a := AcceptedCall(s, j, 0);
      var b := AcceptedCall(s, j, 1);
      OnlyCall(s.core.items, a, b);
      AcceptedIds(s, 0, 1);
    }
  }

  lemma CallFinds(s: Sys, j: nat)
    requires Inv(s) && TraceOk(s) && OneCall(s.core.items)
    requires j < |s.core.items| && s.core.items[j].msg.reqTyp == USR_CALL && !Accepted(s, j)
    ensures s.core.ctrl.location == 0
  {
    CallFirst(s, j);
    AcceptedSize(s.core);
  }

  // When the request of the go item comes, the call alone has been enqueued, and it has been served.
  lemma CallAlone(s: Sys, i: nat, j: nat)
    requires Inv(s) && Finishable(s.core.items) && i < |s.core.items| && j < |s.core.items|
    requires Triggers(s.core.items, i, j)
    requires Written(s.wrote, s.core.items[j].msg.msgId) && !Accepted(s, j)
    ensures |s.core.served| == 1 && InService(s.core.car) == [] && s.core.served[0].floor == s.core.items[i].msg.floor
  {
    var k := CallServed(s, j);
    OnlyTrigger(s.core.items, k, i, j);
    GoSecond(s, j);
    AcceptedSize(s.core);
  }

  lemma GoFinds(s: Sys, i: nat, j: nat)
    requires Inv(s) && TraceOk(s) && Finishable(s.core.items)
    requires i < |s.core.items| && j < |s.core.items| && Triggers(s.core.items, i, j)
    requires Written(s.wrote, s.core.items[j].msg.msgId) && !Accepted(s, j)
    ensures s.core.ctrl.location == s.core.items[i].msg.floor
  {
    CallAlone(s, i, j);
  }

  // ---------- the direction a request will be enqueued with ----------

  predicate IsRouted(s: Sys, j: nat)
    requires j < |s.core.items|
  {
    s.core.net.Routed? && s.core.net.r.msgId == s.core.items[j].msg.msgId
  }

  function Heading(s: Sys, j: nat): byte
    requires j < |s.core.items|
  {
    if s.core.items[j].msg.reqTyp == USR_CALL then s.core.items[j].msg.direction
    else if IsRouted(s, j) then s.core.net.r.direction
    else s.core.ctrl.direction
  }

  // With the car where it will then be, the request of item j goes straight to the current queue.
  ghost predicate Ahead(s: Sys, j: nat)
    requires j < |s.core.items|
  {
    var m := s.core.items[j].msg;
    if m.reqTyp == USR_CALL then Toward(Heading(s, j), 0, m.floor)
    else forall i :: 0 <= i < |s.core.items| && Triggers(s.core.items, i, j) ==>
      Toward(Heading(s, j), s.core.items[i].msg.floor, m.floor)
  }

  lemma OneTrigger(items: seq<Item>, j: nat) returns (i: nat)
    requires WellFormed(items) && Finishable(items) && j < |items| && items[j].msg.reqTyp == USR_GO
    ensures i < |items| && Triggers(items, i, j)
    ensures forall k :: 0 <= k < |items| && Triggers(items, k, j) ==> k == i
  {
    i :| 0 <= i < |items| && Triggers(items, i, j);
  }

  lemma CallPredicted(s: Sys, r: Request, j: nat)
    requires Inv(s) && NetOk(s) && TraceOk(s) && OneCall(s.core.items) && s.core.net == Routed(r)
    requires j < |s.core.items| && s.core.items[j].msg == s.wrote[s.taken - 1] && !Accepted(s, j)
    requires s.core.items[j].msg.reqTyp == USR_CALL
    ensures OnTheWay(s.core.ctrl.location, r) <==> Ahead(s, j)
  {
    CallFinds(s, j);
  }

  lemma AheadGo(s: Sys, i: nat, j: nat)
    requires i < |s.core.items| && j < |s.core.items| && s.core.items[j].msg.reqTyp == USR_GO
    requires Triggers(s.core.items, i, j)
    requires forall k :: 0 <= k < |s.core.items| && Triggers(s.core.items, k, j) ==> k == i
    ensures Ahead(s, j) <==> Toward(Heading(s, j), s.core.items[i].msg.floor, s.core.items[j].msg.floor)
  {
  }

  lemma HeldFields(s: Sys, r: Request)
    requires NetOk(s) && s.core.net == Routed(r)
    ensures var m := s.wrote[s.taken - 1]; r.floor == m.floor && r.msgId == m.msgId && r.cmd == m.reqTyp
  {
  }

  lemma RoutedHeading(s: Sys, r: Request, j: nat)
    requires s.core.net == Routed(r) && j < |s.core.items|
    requires s.core.items[j].msg.reqTyp == USR_GO && r.msgId == s.core.items[j].msg.msgId
    ensures Heading(s, j) == r.direction
  {
  }

  lemma GoPredicted(s: Sys, r: Request, i: nat, j: nat)
    requires s.core.net == Routed(r)
    requires i < |s.core.items| && j < |s.core.items|
    requires s.core.items[j].msg.msgId == r.msgId && s.core.items[j].msg.floor == r.floor
    requires s.core.items[j].msg.reqTyp == USR_GO && Triggers(s.core.items, i, j)
    requires forall k :: 0 <= k < |s.core.items| && Triggers(s.core.items, k, j) ==> k == i
    requires s.core.ctrl.location == s.core.items[i].msg.floor
    ensures OnTheWay(s.core.ctrl.location, r) <==> Ahead(s, j)
  {
    AheadGo(s, i, j);
    RoutedHeading(s, r, j);
  }

  // The prediction is right: what is enqueued goes to the current queue exactly if it was ahead.
  lemma EnqueuedAsPredicted(s: Sys, r: Request) returns (j: nat)
    requires Inv(s) && NetOk(s) && TraceOk(s) && Finishable(s.core.items) && s.core.net == Routed(r)
    ensures j < |s.core.items| && s.core.items[j].msg.msgId == r.msgId && !Accepted(s, j)
    ensures OnTheWay(s.core.ctrl.location, r) <==> Ahead(s, j)
  {
    j := HeldItem(s);
    HeldFields(s, r);
    if s.core.items[j].msg.reqTyp == USR_CALL {
      CallPredicted(s, r, j);
    } else {
      var i := OneTrigger(s.core.items, j);
      GoFinds(s, i, j);
      GoPredicted(s, r, i, j);
    }
  }

  // ---------- runs in which nothing goes aside ----------

  predicate SidesEmpty(c: Core) {
    c.ctrl.up == [] && c.ctrl.down == []
  }

  ghost predicate AllAhead(s: Sys) {
    forall j :: 0 <= j < |s.core.items| ==> Accepted(s, j) || Ahead(s, j)
  }

  ghost predicate Smooth(s: Sys) {
    NetOk(s) && TraceOk(s) && SidesEmpty(s.core) && AllAhead(s)
  }

  lemma AheadFrame(s: Sys, t: Sys, j: nat)
    requires SameRequests(s.core.items, t.core.items) && j < |s.core.items| && Heading(t, j) == Heading(s, j)
    ensures Ahead(t, j) <==> Ahead(s, j)
  {
    assert forall i :: 0 <= i < |s.core.items| ==> Triggers(s.core.items, i, j) == Triggers(t.core.items, i, j);
  }

  lemma HeadingDispatch(s: Sys, j: nat)
    requires Inv(s) && NetOk(s) && j < |s.core.items|
    ensures Heading(Next(s, NetDispatch), j) == Heading(s, j)
  {
    if s.core.net.Handled? && s.core.net.r.msgId == s.core.items[j].msg.msgId {
      var k := HeldItem(s);
      assert k == j;
    }
  }

  lemma HeadingLeft(s: Sys, a: Action, j: nat)
    requires j < |s.core.items| && !a.PreProcess? && !a.NetDispatch? && !a.NetEnqueue?
    ensures SameRequests(s.core.items, Next(s, a).core.items) && Heading(Next(s, a), j) == Heading(s, j)
  {
    StepFixed(s, a);
  }

  lemma SidesLeft(s: Sys, a: Action)
    requires !a.PreProcess? && !a.NetEnqueue?
    ensures var t := Next(s, a).core;
      t.ctrl.up == s.core.ctrl.up && t.ctrl.down == s.core.ctrl.down && t.accepted == s.core.accepted
        && t.ctrl.direction == s.core.ctrl.direction
  {
  }

  lemma AllAheadLeft(s: Sys, a: Action)
    requires Inv(s) && NetOk(s) && AllAhead(s) && !a.PreProcess? && !a.NetEnqueue?
    ensures AllAhead(Next(s, a)) && SameRequests(s.core.items, Next(s, a).core.items)
  {
    var t := Next(s, a);
    SidesLeft(s, a);
    StepFixed(s, a);
    forall j | 0 <= j < |t.core.items|
      ensures Accepted(t, j) || Ahead(t, j)
    {
      assert Accepted(s, j) || Ahead(s, j);
      if a.NetDispatch? {
        HeadingDispatch(s, j);
      } else {
        HeadingLeft(s, a, j);
      }
      AheadFrame(s, t, j);
    }
  }

  lemma EnqueueAccepts(s: Sys, r: Request, now: qword, j: nat)
    requires s.core.net == Routed(r) && j < |s.core.items|
    ensures var t := Next(s, NetEnqueue(now));
      && t.core.items == s.core.items
      && (Accepted(t, j) <==> Accepted(s, j) || r.msgId == s.core.items[j].msg.msgId)
      && (r.msgId != s.core.items[j].msg.msgId ==> Heading(t, j) == Heading(s, j))
  {
    HasIdAppend(s.core.accepted, r.(time := now, cmd := 0), s.core.items[j].msg.msgId);
  }

  lemma AllAheadEnqueue(s: Sys, r: Request, now: qword)
    requires AllAhead(s) && s.core.net == Routed(r)
    ensures AllAhead(Next(s, NetEnqueue(now)))
  {
    var t := Next(s, NetEnqueue(now));
    forall j | 0 <= j < |t.core.items|
      ensures Accepted(t, j) || Ahead(t, j)
    {
      EnqueueAccepts(s, r, now, j);
      if !Accepted(t, j) {
        assert Ahead(s, j);
        AheadFrame(s, t, j);
      }
    }
  }

  lemma EnqueueSides(c: Core, r: Request, now: qword)
    requires c.net == Routed(r) && OnTheWay(c.ctrl.location, r)
    ensures EnqueueStep(c, now).ctrl == c.ctrl.(current := c.ctrl.current + [r.(time := now, cmd := 0)])
  {
    assert OnTheWay(c.ctrl.location, r.(time := now, cmd := 0));
  }

  lemma SmoothEnqueue(s: Sys, now: qword)
    requires Inv(s) && Finishable(s.core.items) && Smooth(s)
    ensures SidesEmpty(Next(s, NetEnqueue(now)).core) && AllAhead(Next(s, NetEnqueue(now)))
  {
    match s.core.net {
      case Routed(r) =>
        var j := EnqueuedAsPredicted(s, r);
        EnqueueSides(s.core, r, now);
        AllAheadEnqueue(s, r, now);
      case _ =>
        assert Next(s, NetEnqueue(now)) == s;
    }
  }

  lemma SmoothNext(s: Sys, a: Action)
    requires Inv(s) && Finishable(s.core.items) && Smooth(s) && !a.PreProcess?
    ensures Smooth(Next(s, a))
  {
    NetOkNext(s, a);
    NextTraced(s, a);
    if a.NetEnqueue? {
      SmoothEnqueue(s, a.now);
    } else {
      SidesLeft(s, a);
      AllAheadLeft(s, a);
    }
  }

  lemma SmoothStep(s: Sys, a: Action)
    requires Inv(s) && Finishable(s.core.items) && Smooth(s) && !a.PreProcess?
    ensures var t := Next(s, a);
      Inv(t) && Smooth(t) && SameRequests(s.core.items, t.core.items) && Finishable(t.core.items)
  {
    SmoothNext(s, a);
    NextKeeps(s, a);
    StepFixed(s, a);
    FinishableFixed(s.core.items, Next(s, a).core.items);
  }

  // ---------- runs that drain only where there is something to drain ----------

  // Actions that drop no packet: reads happen when there is something to read, writes succeed.
  predicate Willing(a: Action) {
    (a.Select? ==> a.readable) && (a.Write? ==> a.writable)
  }

  predicate Needed(s: Sys, a: Action) {
    Willing(a) && (a.PreProcess? ==> !SidesEmpty(s.core))
  }

  ghost predicate Needful(s: Sys, acts: seq<Action>) {
    Along(Next, Needed, s, acts)
  }

  predicate NoDrain(acts: seq<Action>) {
    forall k :: 0 <= k < |acts| ==> !acts[k].PreProcess?
  }

  lemma NeedfulFirst(s: Sys, a: Action, rest: seq<Action>)
    requires Needed(s, a) && Needful(Next(s, a), rest)
    ensures Needful(s, [a] + rest)
  {
    AlongFirst(Next, Needed, s, a, rest);
  }

  lemma NoDrainAppend(acts: seq<Action>)
    requires acts != [] && NoDrain(acts[..|acts| - 1]) && !acts[|acts| - 1].PreProcess?
    ensures NoDrain(acts)
  {
    assert acts == acts[..|acts| - 1] + [acts[|acts| - 1]];
  }

  // Where every request to come lies ahead, such a run drains nothing, for nothing ever goes aside.
  lemma {:induction false} SmoothRun(s: Sys, acts: seq<Action>)
    requires Inv(s) && Finishable(s.core.items) && Smooth(s) && Needful(s, acts)
    ensures NoDrain(acts)
    ensures var t := Exec(s, acts); Inv(t) && Smooth(t) && Finishable(t.core.items)
    decreases |acts|
  {
    if acts == [] {
    } else {
      var b, a := acts[..|acts| - 1], acts[|acts| - 1];
      AlongLast(Next, Needed, s, acts);
      SmoothRun(s, b);
      SmoothStep(Exec(s, b), a);
      NoDrainAppend(acts);
    }
  }
}
