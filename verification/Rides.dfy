/**
  The car over a whole run: what its status packets say, and in which order requests are served.
 */
module Rides {
  import opened Bits
  import opened NetPackets
  import opened Controller
  import opened Requester
  import opened System
  import opened Safety
  import opened Guarantees

  // ---------- the packets of a list of rides ----------

  function Reports(r: Request, i: byte): seq<Reply>
    requires r.floor != 255
  {
    var floors := Passed(i, r.floor);
    seq(|floors|, k requires 0 <= k < |floors| => Status(r.nodeAddr, r.msgId, floors[k], STATUS_MOVING))
  }

  predicate Reachable(rs: seq<Request>) {
    forall k :: 0 <= k < |rs| ==> rs[k].floor != 255
  }

  // Where the car stands after serving these requests in order; it starts on floor 0.
  function LastStop(served: seq<Request>): byte {
    if served == [] then 0 else served[|served| - 1].floor
  }

  // The status packets of these rides, each starting where the one before it ended.
  function Trips(served: seq<Request>): seq<Reply>
    requires Reachable(served)
  {
    if served == [] then []
    else
      var n := |served| - 1;
      var r := served[n];
      assert r.floor != 255;
      Trips(served[..n]) + Reports(r, LastStop(served[..n])) + [StopOf(r)]
  }

  function Statuses(sent: seq<Reply>): seq<Reply> {
    if sent == [] then []
    else
      var n := |sent| - 1;
      Statuses(sent[..n]) + if sent[n].Status? then [sent[n]] else []
  }

  lemma StatusesAppend(sent: seq<Reply>, r: Reply)
    ensures Statuses(sent + [r]) == Statuses(sent) + if r.Status? then [r] else []
  {
    assert (sent + [r])[..|sent|] == sent;
  }

  lemma TripsAppend(served: seq<Request>, r: Request)
    requires Reachable(served) && r.floor != 255
    ensures Reachable(served + [r]) && LastStop(served + [r]) == r.floor
    ensures Trips(served + [r]) == Trips(served) + Reports(r, LastStop(served)) + [StopOf(r)]
  {
    assert (served + [r])[..|served|] == served;
  }

  lemma ReportsStep(r: Request, i: byte)
    requires r.floor != 255
    ensures i <= r.floor ==> Reports(r, i) == [Status(r.nodeAddr, r.msgId, i, STATUS_MOVING)] + Reports(r, i + 1)
    ensures i > r.floor ==> Reports(r, i) == []
  {
  }

  // The packets of a ride carry exactly what goToFloor emits, the stop included.
  lemma ReportsAreRideLog(r: Request, location: byte, door: Door)
    requires r.floor != 255
    ensures var log := RideLog(r.nodeAddr, r.msgId, location, door, Passed(location, r.floor))
        + [Emission(StoppedAt(r.nodeAddr, r.msgId, r.floor), Open, r.floor)];
      var packets := Reports(r, location) + [StopOf(r)];
      && |packets| == |log|
      && forall k :: 0 <= k < |log| ==>
           var o := log[k].items;
           packets[k] == Status(o.nodeAddr, o.msgId, o.floor, o.status) && o.cmd == 3
  {
  }

  // ---------- the invariant ----------

  ghost predicate Restful(c: Core, door: Door) {
    c.ctrl.location == LastStop(c.served) && c.ctrl.door == door && c.ctrl.motion == Stopped
  }

  ghost predicate TraceOk(s: Sys) {
    var c := s.core;
    var told := Statuses(s.sent);
    && Reachable(c.served)
    && match c.car
       case Parked => Restful(c, Closed) && told == Trips(c.served)
       case Leaving => Restful(c, Open) && told == Trips(c.served)
       case Riding(r, i) =>
         && r.floor != 255 && c.ctrl.location == LastStop(c.served) && c.ctrl.door == Closed && c.ctrl.motion == Moving
         && told + Reports(r, i) == Trips(c.served) + Reports(r, LastStop(c.served))
         && |told| >= |Trips(c.served)| && LastStop(c.served) as int <= i as int
       case Arrived(r) =>
         && r.floor != 255 && c.ctrl.location == r.floor && c.ctrl.door == Open && c.ctrl.motion == Stopped
         && told == Trips(c.served) + Reports(r, LastStop(c.served))
  }

  ghost predicate FloorsOk(items: seq<Item>) {
    forall j :: 0 <= j < |items| ==> items[j].msg.floor != 255
  }

  lemma ReportTraced(s: Sys, t: Sys, r: Request, i: byte)
    requires TraceOk(s) && s.core.car == Riding(r, i) && i <= r.floor
    requires t == s.(core := s.core.(car := Riding(r, i + 1)),
      sent := s.sent + [Status(r.nodeAddr, r.msgId, i, STATUS_MOVING)])
    ensures TraceOk(t)
  {
    var p := Status(r.nodeAddr, r.msgId, i, STATUS_MOVING);
    StatusesAppend(s.sent, p);
    ReportsStep(r, i);
    BelowTop(i, r.floor);
    assert Statuses(t.sent) + Reports(r, i + 1) == Statuses(s.sent) + Reports(r, i);
  }

  lemma StopTraced(s: Sys, t: Sys, r: Request)
    requires TraceOk(s) && s.core.car == Arrived(r)
    requires t == s.(core := s.core.(car := Leaving, served := s.core.served + [r]), sent := s.sent + [StopOf(r)])
    ensures TraceOk(t)
  {
    StatusesAppend(s.sent, StopOf(r));
    TripsAppend(s.core.served, r);
  }

  lemma ArriveTraced(s: Sys, r: Request, i: byte)
    requires TraceOk(s) && s.core.car == Riding(r, i) && i > r.floor
    ensures TraceOk(Next(s, Arrive))
  {
    ReportsStep(r, i);
  }

  lemma PopTraced(s: Sys)
    requires TraceOk(s) && s.core.car.Parked? && s.core.ctrl.current != [] && s.core.ctrl.current[0].floor != 255
    ensures TraceOk(Next(s, Pop))
  {
  }

  // Steps that change neither the car nor its place, door or motion, nor the statuses.
  lemma SameTrace(s: Sys, t: Sys)
    requires TraceOk(s) && t.core.car == s.core.car && t.core.served == s.core.served
    requires t.core.ctrl.location == s.core.ctrl.location && t.core.ctrl.door == s.core.ctrl.door
    requires t.core.ctrl.motion == s.core.ctrl.motion
    requires Statuses(t.sent) == Statuses(s.sent)
    ensures TraceOk(t)
  {
  }

  lemma QueuedFloor(s: Sys, k: nat)
    requires Inv(s) && FloorsOk(s.core.items) && k < |s.core.ctrl.current|
    ensures s.core.ctrl.current[k].floor != 255
  {
    var r := s.core.ctrl.current[k];
    assert r in multiset(s.core.ctrl.current);
    var l := PlacedIsTaken(s, r);
    assert OfItem(s.core.items, s.wrote[l]);
  }

  lemma EnqueueTraced(s: Sys, now: qword)
    requires Inv(s) && TraceOk(s)
    ensures TraceOk(Next(s, NetEnqueue(now)))
  {
    var t := Next(s, NetEnqueue(now));
    if s.core.net.Routed? {
      AcceptConserves(s.core.ctrl, s.core.net.r.(time := now, cmd := 0));
    }
    SameTrace(s, t);
  }

  lemma NetReadTraced(s: Sys)
    requires TraceOk(s)
    ensures TraceOk(Next(s, NetRead))
  {
    if s.core.net.Idle? && s.taken < |s.wrote| {
      StatusesAppend(s.sent, ReplyTo(s.wrote[s.taken]));
    }
    SameTrace(s, Next(s, NetRead));
  }

  lemma ReportStepTraced(s: Sys)
    requires TraceOk(s)
    ensures TraceOk(Next(s, Report))
  {
    match s.core.car {
      case Riding(r, i) =>
        var t := Next(s, Report);
        NextReport(s, r, i);
        if i <= r.floor {
          ReportTraced(s, t, r, i);
        }
      case _ =>
    }
  }

  lemma StopStepTraced(s: Sys)
    requires TraceOk(s)
    ensures TraceOk(Next(s, Stop))
  {
    if s.core.car.Arrived? {
      NextStop(s, s.core.car.r);
      StopTraced(s, Next(s, Stop), s.core.car.r);
    } else {
      assert Next(s, Stop) == s;
    }
  }

  lemma ArriveStepTraced(s: Sys)
    requires TraceOk(s)
    ensures TraceOk(Next(s, Arrive))
  {
    match s.core.car {
      case Riding(r, i) =>
        if i > r.floor {
          ArriveTraced(s, r, i);
        }
      case _ =>
    }
  }

  lemma PopStepTraced(s: Sys)
    requires Inv(s) && TraceOk(s) && FloorsOk(s.core.items)
    ensures TraceOk(Next(s, Pop))
  {
    if s.core.car.Parked? && s.core.ctrl.current != [] {
      QueuedFloor(s, 0);
      PopTraced(s);
    } else {
      assert Next(s, Pop) == s;
    }
  }

  lemma CloseTraced(s: Sys)
    requires TraceOk(s)
    ensures TraceOk(Next(s, CloseDoor))
  {
  }

  lemma OtherTraced(s: Sys, a: Action)
    requires TraceOk(s)
    requires a.Schedule? || a.Select? || a.Write? || a.QuitTest? || a.NetDispatch? || a.PreProcess?
    ensures TraceOk(Next(s, a))
  {
    CarLeft(s, a);
    SameTrace(s, Next(s, a));
  }

  lemma CarLeft(s: Sys, a: Action)
    requires a.Schedule? || a.Select? || a.Write? || a.QuitTest? || a.NetDispatch? || a.PreProcess?
    ensures var t := Next(s, a);
      && t.core.car == s.core.car && t.core.served == s.core.served && t.sent == s.sent
      && t.core.ctrl.location == s.core.ctrl.location && t.core.ctrl.door == s.core.ctrl.door
        && t.core.ctrl.motion == s.core.ctrl.motion
  {
  }

  lemma NextTraced(s: Sys, a: Action)
    requires Inv(s) && TraceOk(s) && FloorsOk(s.core.items)
    ensures TraceOk(Next(s, a))
  {
    match a {
      case NetRead => NetReadTraced(s);
      case NetEnqueue(now) => EnqueueTraced(s, now);
      case Schedule => OtherTraced(s, a);
      case Select(_) => OtherTraced(s, a);
      case Write(_) => OtherTraced(s, a);
      case QuitTest => OtherTraced(s, a);
      case NetDispatch => OtherTraced(s, a);
      case PreProcess(_) => OtherTraced(s, a);
      case CloseDoor => CloseTraced(s);
      case Report => ReportStepTraced(s);
      case Stop => StopStepTraced(s);
      case Arrive => ArriveStepTraced(s);
      case Pop => PopStepTraced(s);
    }
  }

  lemma {:induction false} RunTraced(items: seq<Item>, acts: seq<Action>)
    requires WellFormed(items) && Unstarted(items) && FloorsOk(items)
    ensures TraceOk(Exec(Init(items), acts))
    decreases |acts|
  {
    if acts == [] {
    } else {
      var b := acts[..|acts| - 1];
      RunTraced(items, b);
      RunKeeps(items, b);
      RequestsFixed(items, b);
      NextTraced(Exec(Init(items), b), acts[|acts| - 1]);
    }
  }

  // ---------- what it means ----------

  // In every state the status packets sent so far are those of the rides of the requests served, in the
  // order served, each ride starting at the previous stop, the first on floor 0; while a request is in
  // service they go on as a beginning of its ride.  Between rides the car stands at the last stop.
  lemma RideTrace(items: seq<Item>, acts: seq<Action>)
    requires WellFormed(items) && Unstarted(items) && FloorsOk(items)
    ensures var s := Exec(Init(items), acts);
      && Reachable(s.core.served) && Reachable(s.core.served + InService(s.core.car))
      && (InService(s.core.car) == [] ==>
        Statuses(s.sent) == Trips(s.core.served) && s.core.ctrl.location == LastStop(s.core.served))
      && Trips(s.core.served) <= Statuses(s.sent) <= Trips(s.core.served + InService(s.core.car))
      && (s.core.car.Parked? ==> s.core.ctrl.door == Closed)
  {
    RunTraced(items, acts);
    TraceTold(Exec(Init(items), acts));
  }

  lemma TraceTold(s: Sys)
    requires TraceOk(s)
    ensures Reachable(s.core.served + InService(s.core.car))
    ensures Trips(s.core.served) <= Statuses(s.sent) <= Trips(s.core.served + InService(s.core.car))
  {
    var served := s.core.served;
    match s.core.car {
      case Riding(r, i) =>
        TripsAppend(served, r);
        MidRide(s, r, i);
      case Arrived(r) =>
        TripsAppend(served, r);
      case _ =>
        assert served + [] == served;
    }
  }

  lemma MidRide(s: Sys, r: Request, i: byte)
    requires TraceOk(s) && s.core.car == Riding(r, i)
    ensures Trips(s.core.served) <= Statuses(s.sent) <= Trips(s.core.served) + Reports(r, LastStop(s.core.served))
  {
    var told, all := Statuses(s.sent), Trips(s.core.served) + Reports(r, LastStop(s.core.served));
    assert (told + Reports(r, i))[..|told|] == told;
    assert told == all[..|told|];
  }

  // In every reachable state, a MOVING status is emitted with the door closed, a STOPPED status with
  // the door open and the car at the floor it names.
  lemma DoorAtEmission(items: seq<Item>, acts: seq<Action>, a: Action)
    requires WellFormed(items) && Unstarted(items) && FloorsOk(items)
    ensures var c := Exec(Init(items), acts).core;
      match Emitting(c, a)
      case None => true
      case Some(r) =>
        && (r.status == STATUS_MOVING ==>
          c.ctrl.door == Closed && c.ctrl.motion == Moving && r.floor as int >= c.ctrl.location as int)
        && (r.status == STATUS_STOPPED ==>
          c.ctrl.door == Open && c.ctrl.motion == Stopped && r.floor == c.ctrl.location)
        && (r.status == STATUS_MOVING || r.status == STATUS_STOPPED)
  {
    RunTraced(items, acts);
  }

  // ---------- first in, first out ----------

  lemma LocalGrows(c: Core, a: Action)
    ensures c.queued <= LocalStep(c, a).queued && LocalStep(c, a).served == c.served
  {
  }

  lemma NextGrows(s: Sys, a: Action)
    ensures s.core.queued <= Next(s, a).core.queued && s.core.served <= Next(s, a).core.served
  {
    LocalGrows(s.core, a);
  }

  lemma {:induction false} RunGrows(s: Sys, acts: seq<Action>)
    ensures s.core.queued <= Exec(s, acts).core.queued && s.core.served <= Exec(s, acts).core.served
    decreases |acts|
  {
    if acts == [] {
    } else {
      RunGrows(s, acts[..|acts| - 1]);
      NextGrows(Exec(s, acts[..|acts| - 1]), acts[|acts| - 1]);
    }
  }

  // Between states c and d, the request at position k of c's current queue has moved up by exactly
  // what was taken from the front: it waits, is in service or has been served in its turn.
  predicate InTurn(c: Core, d: Core, k: nat) {
    var turn := |c.served| + |InService(c.car)| + k;
    var here := d.served + InService(d.car) + d.ctrl.current;
    k < |c.ctrl.current| && turn < |here| && here[turn] == c.ctrl.current[k]
  }

  lemma TurnComes(c: Core, d: Core, k: nat)
    requires OrderOk(c) && OrderOk(d) && c.queued <= d.queued && k < |c.ctrl.current|
    ensures InTurn(c, d, k)
  {
    assert c.queued[|c.served| + |InService(c.car)| + k] == c.ctrl.current[k];
  }

  // A request at position k of the current queue is served after those in service and the k ahead of
  // it, whatever is enqueued or drained meanwhile.
  lemma ServedInTurn(items: seq<Item>, acts: seq<Action>, more: seq<Action>, k: nat)
    requires WellFormed(items) && Unstarted(items)
    ensures var c, d := Exec(Init(items), acts).core, Exec(Init(items), acts + more).core;
      k < |c.ctrl.current| ==> c.served <= d.served && InTurn(c, d, k)
  {
    var s, t := Exec(Init(items), acts), Exec(Init(items), acts + more);
    ExecConcat(Init(items), acts, more);
    RunGrows(s, more);
    RunQueued(items, acts);
    RunQueued(items, acts + more);
    if k < |s.core.ctrl.current| {
      TurnComes(s.core, t.core, k);
    }
  }

  // ---------- the machine's ride is the method's ride ----------

  lemma OneReport(sent: seq<Reply>, r: Request, i: byte)
    requires r.floor != 255 && i <= r.floor
    ensures sent + Reports(r, i) == sent + [Status(r.nodeAddr, r.msgId, i, STATUS_MOVING)] + Reports(r, i + 1)
    ensures |Reports(r, i + 1)| < |Reports(r, i)|
  {
    ReportsStep(r, i);
  }

  lemma {:induction false} ReportRuns(s: Sys, r: Request, i: byte) returns (acts: seq<Action>, past: byte)
    requires s.core.car == Riding(r, i) && r.floor != 255
    ensures past > r.floor
    ensures Exec(s, acts) == s.(core := s.core.(car := Riding(r, past)), sent := s.sent + Reports(r, i))
    decreases |Reports(r, i)|
  {
    if i > r.floor {
      ReportsStep(r, i);
      acts, past := [], i;
      assert s.sent + [] == s.sent;
    } else {
      var t := Next(s, Report);
      NextReport(s, r, i);
      OneReport(s.sent, r, i);
      var rest;
      rest, past := ReportRuns(t, r, i + 1);
      acts := [Report] + rest;
      ExecFirst(s, Report, rest);
    }
  }

  lemma NextArrive(s: Sys, r: Request, i: byte)
    requires s.core.car == Riding(r, i) && i > r.floor
    ensures Next(s, Arrive)
      == s.(core := s.core.(car := Arrived(r),
        ctrl := s.core.ctrl.(location := r.floor, door := Open, motion := Stopped)))
  {
  }

  lemma StopRuns(s: Sys, r: Request, i: byte) returns (acts: seq<Action>)
    requires s.core.car == Riding(r, i) && i > r.floor
    ensures Exec(s, acts) == s.(
      core := s.core.(car := Parked, served := s.core.served + [r],
                      ctrl := s.core.ctrl.(location := r.floor, motion := Stopped, door := Closed)),
      sent := s.sent + [StopOf(r)])
  {
    var t := Next(s, Arrive);
    NextArrive(s, r, i);
    NextStop(t, r);
    acts := [Arrive] + [Stop, CloseDoor];
    ExecTwo(t, Stop, CloseDoor);
    ExecFirst(s, Arrive, [Stop, CloseDoor]);
  }

  lemma ServeRuns(s: Sys) returns (acts: seq<Action>)
    requires s.core.car.Parked? && s.core.ctrl.current != [] && s.core.ctrl.current[0].floor != 255
    ensures Exec(s, acts) == Served(s)
  {
    var r := s.core.ctrl.current[0];
    var t := Next(s, Pop);
    var ride, past := ReportRuns(t, r, s.core.ctrl.location);
    var stop := StopRuns(Exec(t, ride), r, past);
    acts := [Pop] + (ride + stop);
    ExecConcat(t, ride, stop);
    ExecFirst(s, Pop, ride + stop);
  }

  function Served(s: Sys): Sys
    requires s.core.ctrl.current != [] && s.core.ctrl.current[0].floor != 255
  {
    var c, r := s.core, s.core.ctrl.current[0];
    var d := c.ctrl.(current := c.ctrl.current[1..], location := r.floor, motion := Stopped, door := Closed);
    s.(core := c.(served := c.served + [r], ctrl := d), sent := s.sent + Reports(r, c.ctrl.location) + [StopOf(r)])
  }

  // Undisturbed, the machine's steps carry out the turn of the process thread that `Process` performs,
  // serving or draining: the same controller state, and packets with the contents of the same emissions.
  lemma ProcessRuns(s: Sys, upwards: bool) returns (acts: seq<Action>)
    requires s.core.car.Parked? && (s.core.ctrl.current != [] ==> s.core.ctrl.current[0].floor != 255)
    requires s.core.ctrl.up == [] && s.core.ctrl.down == [] ==> !upwards
    ensures var d := Drained(s.core.ctrl, upwards);
      Exec(s, acts)
        == if s.core.ctrl.current != [] then Served(s)
           else s.(core := s.core.(ctrl := d, queued := s.core.queued + d.current))
  {
    if s.core.ctrl.current != [] {
      acts := ServeRuns(s);
    } else {
      acts := [PreProcess(upwards)];
      ExecOne(s, PreProcess(upwards));
    }
  }
}
