/**
  From every live state some continuation of the run finishes every item.
 */
module Progress {
  import opened Wrappers
  import opened Bits
  import opened NetPackets
  import opened Controller
  import opened Requester
  import opened System
  import opened Safety
  import opened Rides
  import opened Forward
  import opened Routing

  // ---------- live states ----------

  // Scheduled, never written, and no longer in hand: its packet will never be written.
  ghost predicate Lost(s: Sys, j: nat) {
    && j < |s.core.items| && s.core.items[j].state == IN_PROGRESS
    && !Written(s.wrote, s.core.items[j].msg.msgId) && CurOf(s.core.pc) != Some(j)
  }

  ghost predicate NoneLost(s: Sys) {
    forall j :: 0 <= j < |s.core.items| ==> !Lost(s, j)
  }

  ghost predicate Live(s: Sys) {
    Inv(s) && Finishable(s.core.items) && NoneLost(s)
  }

  predicate Active(state: CallGoState) {
    state != RESET && state != FINISHED
  }

  // With one call, a go item moves only after that call is done with, so one item moves at a time.
  lemma GoFollows(items: seq<Item>, i: nat, j: nat)
    requires WellFormed(items) && LinksOk(items) && WaitingOk(items) && OneCall(items)
    requires i < |items| && j < |items| && items[i].msg.reqTyp == USR_CALL && items[j].msg.reqTyp == USR_GO
    requires items[j].state != RESET
    ensures items[i].state == FINISHED
  {
    var k :| 0 <= k < |items| && Triggers(items, k, j);
    assert k == i;
  }

  lemma OneActive(items: seq<Item>, i: nat, j: nat)
    requires WellFormed(items) && LinksOk(items) && WaitingOk(items) && OneCall(items)
    requires i < |items| && j < |items| && Active(items[i].state) && Active(items[j].state)
    ensures i == j
  {
    if items[i].msg.reqTyp == USR_GO && items[j].msg.reqTyp == USR_GO {
      var k :| 0 <= k < |items| && Triggers(items, k, i);
      var l :| 0 <= l < |items| && Triggers(items, l, j);
      assert k == l;
    } else if items[i].msg.reqTyp == USR_GO {
      GoFollows(items, j, i);
    } else if items[j].msg.reqTyp == USR_GO {
      GoFollows(items, i, j);
    }
  }

  // ---------- live states stay live ----------

  lemma LiveFixed(s: Sys, a: Action)
    requires Live(s) && NoneLost(Next(s, a))
    ensures Live(Next(s, a))
  {
    NextKeeps(s, a);
    StepFixed(s, a);
    FinishableFixed(s.core.items, Next(s, a).core.items);
  }

  lemma SameHand(s: Sys, t: Sys)
    requires NoneLost(s) && t.core.items == s.core.items && t.wrote == s.wrote && CurOf(t.core.pc) == CurOf(s.core.pc)
    ensures NoneLost(t)
  {
    forall j | 0 <= j < |t.core.items|
      ensures !Lost(t, j)
    {
      assert !Lost(s, j);
    }
  }

  lemma StartNotLost(s: Sys, t: Sys, i: nat)
    requires Live(s) && i < |s.core.items| && s.core.items[i].state == READY2GO
    requires t.core.items == s.core.items[i := s.core.items[i].(state := IN_PROGRESS)] && CurOf(t.core.pc) == Some(i)
    ensures NoneLost(t)
  {
    forall j | 0 <= j < |t.core.items|
      ensures !Lost(t, j)
    {
      if j != i && s.core.items[j].state == IN_PROGRESS {
        OneActive(s.core.items, i, j);
      }
    }
  }

  lemma FinishNotLost(s: Sys, t: Sys, i: nat)
    requires Live(s) && i < |s.core.items| && s.core.items[i].state == REACHED
    requires t.core.items == Released(s.core.items, i)[i := Released(s.core.items, i)[i].(state := FINISHED)]
    requires t.wrote == s.wrote && CurOf(t.core.pc) == CurOf(s.core.pc)
    ensures NoneLost(t)
  {
    forall j | 0 <= j < |t.core.items|
      ensures !Lost(t, j)
    {
      assert !Lost(s, j);
    }
  }

  lemma ScheduleNotLost(s: Sys, i: nat, cur: Option<nat>)
    requires Live(s) && s.core.pc == Scanning(i, cur) && i < |s.core.items|
    ensures NoneLost(Next(s, Schedule))
  {
    var t := Next(s, Schedule);
    NextSchedule(s, i, cur);
    match s.core.items[i].state {
      case READY2GO => StartNotLost(s, t, i);
      case REACHED => FinishNotLost(s, t, i);
      case _ => ScheduleSkips(s, i); SameHand(s, t);
    }
  }

  lemma LiveSchedule(s: Sys)
    requires Live(s)
    ensures Live(Next(s, Schedule))
  {
    match s.core.pc {
      case Scanning(i, cur) =>
        if i < |s.core.items| {
          ScheduleNotLost(s, i, cur);
        } else {
          SameHand(s, Next(s, Schedule));
        }
      case _ => SameHand(s, Next(s, Schedule));
    }
    LiveFixed(s, Schedule);
  }

  lemma DeliveryStarts(s: Sys, j: nat)
    requires Inv(s) && s.rcvd < |s.sent| && j < |s.core.items|
    ensures var st := OnReply(s.core.items, s.sent[s.rcvd])[j].state;
      st == IN_PROGRESS ==> s.core.items[j].state == IN_PROGRESS
  {
    var r := s.sent[s.rcvd];
    assert ItemOk(s, j);
    if r.msgId == s.core.items[j].msg.msgId {
      FindIs(s.core.items, j);
      DeliveredItem(s, j);
    }
  }

  lemma SelectNotLost(s: Sys)
    requires Inv(s) && NoneLost(s) && s.core.pc.Selecting?
    ensures NoneLost(Next(s, Select(true)))
  {
    var t := Next(s, Select(true));
    forall j | 0 <= j < |t.core.items|
      ensures !Lost(t, j)
    {
      assert !Lost(s, j);
      if s.rcvd < |s.sent| {
        DeliveryStarts(s, j);
      }
    }
  }

  lemma LiveSelect(s: Sys)
    requires Live(s)
    ensures Live(Next(s, Select(true)))
  {
    if s.core.pc.Selecting? {
      SelectNotLost(s);
    }
    LiveFixed(s, Select(true));
  }

  lemma WriteNotLost(s: Sys)
    requires Inv(s) && NoneLost(s) && s.core.pc.Writing?
    ensures NoneLost(Next(s, Write(true)))
  {
    var t := Next(s, Write(true));
    forall j | 0 <= j < |t.core.items|
      ensures !Lost(t, j)
    {
      assert !Lost(s, j);
      if InHand(s.core).Some? {
        WrittenAppend(s.wrote, InHand(s.core).value, t.core.items[j].msg.msgId);
      }
    }
  }

  lemma LiveWrite(s: Sys)
    requires Live(s)
    ensures Live(Next(s, Write(true)))
  {
    if s.core.pc.Writing? {
      WriteNotLost(s);
    }
    LiveFixed(s, Write(true));
  }

  lemma LiveQuit(s: Sys)
    requires Live(s)
    ensures Live(Next(s, QuitTest))
  {
    SameHand(s, Next(s, QuitTest));
    LiveFixed(s, QuitTest);
  }

  predicate ByController(a: Action) {
    !a.Schedule? && !a.Select? && !a.Write? && !a.QuitTest?
  }

  lemma ControllerLeaves(s: Sys, a: Action)
    requires ByController(a)
    ensures var t := Next(s, a);
      && t.core.items == s.core.items && t.core.pc == s.core.pc && t.core.allDone == s.core.allDone
      && t.wrote == s.wrote && t.rcvd == s.rcvd
  {
  }

  lemma LiveController(s: Sys, a: Action)
    requires Live(s) && ByController(a)
    ensures Live(Next(s, a))
  {
    ControllerLeaves(s, a);
    SameHand(s, Next(s, a));
    LiveFixed(s, a);
  }

  // ---------- the controller settles ----------

  predicate Settled(s: Sys) {
    var c := s.core;
    && c.net.Idle? && s.taken == |s.wrote|
    && c.car.Parked? && c.ctrl.up == [] && c.ctrl.down == [] && c.ctrl.current == []
  }

  function NetRank(net: NetPc): nat {
    match net
    case Handled(_) => 2
    case Routed(_) => 1
    case Idle => 0
  }

  function CarRank(car: CarPc): nat {
    match car
    case Riding(r, i) => 3 + if r.floor == 255 then 0 else |Passed(i, r.floor)|
    case Arrived(_) => 2
    case Leaving => 1
    case Parked => 0
  }

  // Closer to settled, in the order: unread packets, the net thread, the side queues, the current
  // queue, the ride.
  predicate Closer(t: Sys, s: Sys)
    requires s.taken <= |s.wrote| && t.taken <= |t.wrote|
  {
    var t1, s1 := |t.wrote| - t.taken, |s.wrote| - s.taken;
    var t2, s2 := NetRank(t.core.net), NetRank(s.core.net);
    var t3, s3 := |t.core.ctrl.up| + |t.core.ctrl.down|, |s.core.ctrl.up| + |s.core.ctrl.down|;
    var t4, s4 := |t.core.ctrl.current|, |s.core.ctrl.current|;
    var t5, s5 := CarRank(t.core.car), CarRank(s.core.car);
    || t1 < s1
    || (t1 == s1 && t2 < s2)
    || (t1 == s1 && t2 == s2 && t3 < s3)
    || (t1 == s1 && t2 == s2 && t3 == s3 && (t4 < s4 || (t4 == s4 && t5 < s5)))
  }

  // What the controller does next when its net thread goes first and it drains a queue that has requests.
  function Turn(s: Sys): Action {
    var c := s.core;
    match c.net
    case Routed(_) => NetEnqueue(0)
    case Handled(_) => NetDispatch
    case Idle =>
      if s.taken < |s.wrote| then NetRead
      else CarTurn(c)
  }

  function CarTurn(c: Core): Action {
    match c.car
    case Riding(r, i) => if i <= r.floor then Report else Arrive
    case Arrived(_) => Stop
    case Leaving => CloseDoor
    case Parked => if c.ctrl.current != [] then Pop else PreProcess(c.ctrl.up != [])
  }

  lemma InServiceFloor(s: Sys, r: Request)
    requires Inv(s) && FloorsOk(s.core.items) && InService(s.core.car) == [r]
    ensures r.floor != 255
  {
    assert r in multiset([r]);
    var l := PlacedIsTaken(s, r);
    assert OfItem(s.core.items, s.wrote[l]);
  }

  // Draining an empty side queue turns the car round and does nothing else.
  predicate OnlyTurned(t: Sys, s: Sys) {
    t == s.(core := s.core.(ctrl := s.core.ctrl.(direction := t.core.ctrl.direction)))
  }

  lemma NetCloser(s: Sys, a: Action)
    requires Inv(s) && (a.NetRead? || a.NetDispatch? || a.NetEnqueue?)
    ensures var t := Next(s, a); t.taken <= |t.wrote| && (t == s || Closer(t, s))
  {
  }

  lemma RideCloser(s: Sys, r: Request, i: byte)
    requires s.taken <= |s.wrote| && s.core.car == Riding(r, i) && r.floor != 255
    ensures var t := Next(s, Report); t.taken <= |t.wrote| && (t == s || Closer(t, s))
  {
    NextReport(s, r, i);
  }

  lemma ReportCloser(s: Sys)
    requires Inv(s) && FloorsOk(s.core.items)
    ensures var t := Next(s, Report); t.taken <= |t.wrote| && (t == s || Closer(t, s))
  {
    match s.core.car {
      case Riding(r, i) => InServiceFloor(s, r); RideCloser(s, r, i);
      case _ => assert Next(s, Report) == s;
    }
  }

  lemma StopCloser(s: Sys)
    requires Inv(s)
    ensures var t := Next(s, Stop); t.taken <= |t.wrote| && (t == s || Closer(t, s))
  {
    match s.core.car {
      case Arrived(r) => NextStop(s, r);
      case _ =>
    }
  }

  lemma DrainedSides(c: Ctrl, upwards: bool)
    requires c.current == []
    ensures var d := Drained(c, upwards);
      && d == c.(direction := d.direction, up := d.up, down := d.down, current := d.current)
      && d.up == (if upwards then [] else c.up) && d.down == (if upwards then c.down else [])
      && ((if upwards then c.up else c.down) == [] ==> d.current == [])
  {
  }

  lemma NextDrain(s: Sys, upwards: bool, d: Ctrl)
    requires s.core.car.Parked? && s.core.ctrl.current == []
    requires d == Drained(s.core.ctrl, upwards && !(s.core.ctrl.up == [] && s.core.ctrl.down == []))
    ensures Next(s, PreProcess(upwards)) == s.(core := s.core.(ctrl := d, queued := s.core.queued + d.current))
  {
  }

  lemma DrainCloser(s: Sys, upwards: bool)
    requires s.taken <= |s.wrote| && s.core.car.Parked? && s.core.ctrl.current == []
    ensures var t := Next(s, PreProcess(upwards)); t.taken <= |t.wrote| && (OnlyTurned(t, s) || Closer(t, s))
  {
    var up := upwards && !(s.core.ctrl.up == [] && s.core.ctrl.down == []);
    DrainedSides(s.core.ctrl, up);
    NextDrain(s, upwards, Drained(s.core.ctrl, up));
    assert s.core.queued + [] == s.core.queued;
  }

  lemma ParkedCloser(s: Sys, upwards: bool)
    requires Inv(s)
    ensures var t := Next(s, PreProcess(upwards)); t.taken <= |t.wrote| && (OnlyTurned(t, s) || Closer(t, s))
  {
    if s.core.car.Parked? && s.core.ctrl.current == [] {
      DrainCloser(s, upwards);
    } else {
      assert Next(s, PreProcess(upwards)) == s;
    }
  }

  lemma PopCloser(s: Sys)
    requires Inv(s)
    ensures var t := Next(s, Pop); t.taken <= |t.wrote| && (t == s || Closer(t, s))
  {
    if !(s.core.car.Parked? && s.core.ctrl.current != []) {
      assert Next(s, Pop) == s;
    }
  }

  lemma ArriveCloser(s: Sys)
    requires Inv(s)
    ensures var t := Next(s, Arrive); t.taken <= |t.wrote| && (t == s || Closer(t, s))
  {
    match s.core.car {
      case Riding(r, i) =>
      case _ => assert Next(s, Arrive) == s;
    }
  }

  lemma CloseCloser(s: Sys)
    requires Inv(s)
    ensures var t := Next(s, CloseDoor); t.taken <= |t.wrote| && (t == s || Closer(t, s))
  {
    if !s.core.car.Leaving? {
      assert Next(s, CloseDoor) == s;
    }
  }

  // Under any schedule, every step of the controller brings it closer to settled, except that draining
  // an empty queue may turn the car round: no ride and no burst of requests keeps it busy for ever.
  lemma ControllerCloser(s: Sys, a: Action)
    requires Inv(s) && FloorsOk(s.core.items) && ByController(a)
    ensures var t := Next(s, a); t.taken <= |t.wrote| && (OnlyTurned(t, s) || Closer(t, s))
  {
    match a {
      case NetRead => NetCloser(s, a);
      case NetDispatch => NetCloser(s, a);
      case NetEnqueue(_) => NetCloser(s, a);
      case Report => ReportCloser(s);
      case Stop => StopCloser(s);
      case PreProcess(upwards) => ParkedCloser(s, upwards);
      case Pop => PopCloser(s);
      case Arrive => ArriveCloser(s);
      case CloseDoor => CloseCloser(s);
    }
  }

  lemma DrainMoves(s: Sys)
    requires Inv(s) && s.core.car.Parked? && s.core.ctrl.current == []
    requires s.core.ctrl.up != [] || s.core.ctrl.down != []
    ensures !OnlyTurned(Next(s, PreProcess(s.core.ctrl.up != [])), s)
  {
    DrainedConserves(s.core.ctrl, s.core.ctrl.up != []);
  }

  predicate AtRest(c: Core) {
    c.car.Parked? && c.ctrl.current == []
  }

  // A car that is not at rest with an empty current queue has a step of its own.
  lemma RideMoves(s: Sys, r: Request, i: byte)
    requires s.core.car == Riding(r, i)
    ensures Next(s, if i <= r.floor then Report else Arrive).core.car != s.core.car
  {
    NextReport(s, r, i);
    OneMore(i);
  }

  lemma OneMore(i: byte)
    ensures i + 1 != i
  {
  }

  lemma CarMoves(s: Sys)
    requires !AtRest(s.core)
    ensures Next(s, CarTurn(s.core)).core.car != s.core.car
  {
    match s.core.car {
      case Riding(r, i) => RideMoves(s, r, i);
      case Arrived(r) => NextStop(s, r);
      case _ =>
    }
  }

  // Until it is settled, the controller has a step that does more than turn the car round.
  lemma TurnMoves(s: Sys, a: Action)
    requires Inv(s) && !Settled(s) && Kind(a) == Kind(Turn(s))
    ensures !OnlyTurned(Next(s, a), s)
  {
    if s.core.net.Idle? && s.taken == |s.wrote| {
      if AtRest(s.core) {
        DrainMoves(s);
      } else {
        CarMoves(s);
      }
    }
  }

  lemma TurnCloser(s: Sys)
    requires Live(s) && !Settled(s)
    ensures ByController(Turn(s)) && Live(Next(s, Turn(s)))
    ensures Closer(Next(s, Turn(s)), s)
  {
    LiveController(s, Turn(s));
    ControllerCloser(s, Turn(s));
    TurnMoves(s, Turn(s));
  }

  // Left to itself, the controller empties its queues and the request channel.
  lemma {:induction false} Settle(s: Sys) returns (acts: seq<Action>)
    requires Live(s)
    ensures var t := Exec(s, acts);
      Live(t) && Settled(t) && t.core.items == s.core.items && t.core.pc == s.core.pc
    decreases |s.wrote| - s.taken, NetRank(s.core.net), |s.core.ctrl.up| + |s.core.ctrl.down|,
      |s.core.ctrl.current|, CarRank(s.core.car)
  {
    acts := [];
    if !Settled(s) {
      TurnCloser(s);
      ControllerLeaves(s, Turn(s));
      var rest := Settle(Next(s, Turn(s)));
      acts := [Turn(s)] + rest;
      ExecFirst(s, Turn(s), rest);
    }
  }

  // ---------- the measure of a whole state ----------

  predicate Actionable(state: CallGoState) {
    state == READY2GO || state == REACHED
  }

  function HandRank(pc: ReqPc): nat {
    if CurOf(pc).Some? then 1 else 0
  }

  // The requester will do something that counts before it next comes round to the end test.
  ghost predicate Soon(s: Sys) {
    || RankSum(s.core.items) == 0
    || CurOf(s.core.pc).Some?
    || ((s.core.pc.Scanning? || s.core.pc.Selecting?) && s.rcvd < |s.sent|)
    || (s.core.pc.Scanning? && exists k :: s.core.pc.i <= k < |s.core.items| && Actionable(s.core.items[k].state))
  }

  function LapRank(pc: ReqPc, n: nat): nat {
    match pc
    case Scanning(i, _) => if i <= n then n - i + 4 else 4
    case Selecting(_) => 3
    case Writing(_) => 2
    case Testing => 1
    case _ => 0
  }

  // How far the requester is from doing something that counts, once it can only wait for itself.
  ghost function Lap(s: Sys): nat {
    if !Settled(s) then 0
    else LapRank(s.core.pc, |s.core.items|) + if Soon(s) then 0 else |s.core.items| + 10
  }

  predicate SameControl(t: Sys, s: Sys)
    requires s.taken <= |s.wrote| && t.taken <= |t.wrote|
  {
    && |t.wrote| - t.taken == |s.wrote| - s.taken && NetRank(t.core.net) == NetRank(s.core.net)
    && |t.core.ctrl.up| + |t.core.ctrl.down| == |s.core.ctrl.up| + |s.core.ctrl.down|
    && |t.core.ctrl.current| == |s.core.ctrl.current| && CarRank(t.core.car) == CarRank(s.core.car)
  }

  predicate Bounded(s: Sys) {
    s.taken <= |s.wrote| && s.rcvd <= |s.sent|
  }

  // In the order: item states, a packet in hand, the controller, unread replies, the requester's lap.
  ghost predicate Lower(t: Sys, s: Sys)
    requires Bounded(s) && Bounded(t)
  {
    var t1, s1 := RankSum(t.core.items), RankSum(s.core.items);
    var t2, s2 := HandRank(t.core.pc), HandRank(s.core.pc);
    var t3, s3 := |t.sent| - t.rcvd, |s.sent| - s.rcvd;
    || t1 < s1
    || (t1 == s1 && t2 < s2)
    || (t1 == s1 && t2 == s2 && Closer(t, s))
    || (t1 == s1 && t2 == s2 && SameControl(t, s) && (t3 < s3 || (t3 == s3 && Lap(t) < Lap(s))))
  }

  // Nothing has happened but a turn of an idle car or, while the controller is busy, a step of the requester's loop.
  ghost predicate Idled(t: Sys, s: Sys) {
    && t == s.(core := s.core.(pc := t.core.pc, ctrl := s.core.ctrl.(direction := t.core.ctrl.direction)))
    && HandRank(t.core.pc) == HandRank(s.core.pc)
    && (Settled(s) ==> t.core.pc == s.core.pc)
  }

  // The action that brings the state lower: the controller's until it is settled, then the requester's.
  function Helpful(s: Sys): Action {
    if !Settled(s) then Turn(s)
    else
      match s.core.pc
      case Scanning(_, _) => Schedule
      case Selecting(_) => Select(true)
      case Writing(_) => Write(true)
      case _ => QuitTest
  }

  lemma IdledSame(t: Sys, s: Sys)
    requires Bounded(s) && Idled(t, s)
    ensures Bounded(t) && Helpful(t) == Helpful(s) && RankSum(t.core.items) == RankSum(s.core.items)
    ensures HandRank(t.core.pc) == HandRank(s.core.pc) && SameControl(t, s)
    ensures |t.sent| - t.rcvd == |s.sent| - s.rcvd && Lap(t) == Lap(s)
  {
    assert Settled(t) == Settled(s);
    if Settled(s) {
      assert Soon(t) == Soon(s);
    }
  }

  // ---------- steps of the requester ----------

  lemma ActionableMoves(s: Sys, i: nat)
    requires Inv(s) && s.core.pc.Scanning? && s.core.pc.i == i < |s.core.items| && Actionable(s.core.items[i].state)
    ensures RankSum(Next(s, Schedule).core.items) < RankSum(s.core.items)
  {
    NextRank(s, Schedule);
    assert Next(s, Schedule).core.items[i].state != s.core.items[i].state;
  }

  // A scan step moves some item's state, or passes over an item that is not due.
  lemma ScanStep(s: Sys, i: nat, cur: Option<nat>)
    requires Inv(s) && s.core.pc == Scanning(i, cur)
    ensures var t, n := Next(s, Schedule), |s.core.items|;
      || RankSum(t.core.items) < RankSum(s.core.items)
      || (t == s.(core := s.core.(pc := if i < n then Scanning(i + 1, cur) else Selecting(cur)))
          && (i < n ==> !Actionable(s.core.items[i].state)))
  {
    if i < |s.core.items| {
      if Actionable(s.core.items[i].state) {
        ActionableMoves(s, i);
      } else {
        ScheduleSkips(s, i);
      }
    }
  }

  lemma SelectStep(s: Sys, cur: Option<nat>)
    requires Inv(s) && s.core.pc == Selecting(cur)
    ensures var t := Next(s, Select(true));
      && RankSum(t.core.items) <= RankSum(s.core.items)
      && t == s.(core := s.core.(items := t.core.items, pc := Writing(cur)), rcvd := t.rcvd)
      && (if s.rcvd < |s.sent| then t.rcvd == s.rcvd + 1 else t.rcvd == s.rcvd && t.core.items == s.core.items)
  {
    NextRank(s, Select(true));
  }

  lemma WriteStep(s: Sys, cur: Option<nat>)
    requires Inv(s) && s.core.pc == Writing(cur)
    ensures var t := Next(s, Write(true));
      && t == s.(core := s.core.(pc := Testing), wrote := t.wrote)
      && (cur == None ==> t.wrote == s.wrote)
  {
  }

  lemma QuitTestStep(s: Sys)
    requires Inv(s) && s.core.pc == Testing
    ensures var t := Next(s, QuitTest);
      t == s.(core := s.core.(pc := if RankSum(s.core.items) == 0 then Quit else Scanning(0, None)))
  {
    RankZero(s.core.items);
  }

  // A step lowers the measure or idles, and the helpful one does not idle.
  ghost predicate Stepped(s: Sys, a: Action, t: Sys)
    requires Bounded(s)
  {
    Bounded(t) && (t.core.pc.Quit? || Lower(t, s) || (Idled(t, s) && Kind(a) != Kind(Helpful(s))))
  }

  lemma ScheduleLowers(s: Sys)
    requires Inv(s) && Bounded(Next(s, Schedule)) && !s.core.pc.Quit?
    ensures Stepped(s, Schedule, Next(s, Schedule))
  {
    if s.core.pc.Scanning? {
      ScanStep(s, s.core.pc.i, s.core.pc.cur);
      ScanLowers(s, Next(s, Schedule), s.core.pc.i, s.core.pc.cur);
    } else {
      AwayIdles(s, Schedule);
    }
  }

  // Away from its place in the loop a step of the requester does nothing and helps nobody.
  lemma AwayIdles(s: Sys, a: Action)
    requires Bounded(s) && !s.core.pc.Quit? && !s.core.pc.Raised?
    requires a == Schedule || a == Select(true) || a == Write(true) || a == QuitTest
    requires a.Schedule? ==> !s.core.pc.Scanning?
    requires a.Select? ==> !s.core.pc.Selecting?
    requires a.Write? ==> !s.core.pc.Writing?
    requires a.QuitTest? ==> !s.core.pc.Testing?
    ensures Next(s, a) == s && Stepped(s, a, s)
  {
  }

  lemma ScanLowers(s: Sys, t: Sys, i: nat, cur: Option<nat>)
    requires Bounded(s) && Bounded(t) && s.core.pc == Scanning(i, cur)
    requires var n := |s.core.items|;
      || RankSum(t.core.items) < RankSum(s.core.items)
      || (t == s.(core := s.core.(pc := if i < n then Scanning(i + 1, cur) else Selecting(cur)))
          && (i < n ==> !Actionable(s.core.items[i].state)))
    ensures Stepped(s, Schedule, t)
  {
    if RankSum(t.core.items) >= RankSum(s.core.items) && Settled(s) {
      PassedOver(s, t, i, cur);
    }
  }

  lemma PassedOver(s: Sys, t: Sys, i: nat, cur: Option<nat>)
    requires Bounded(s) && Settled(s) && s.core.pc == Scanning(i, cur)
    requires t == s.(core := s.core.(pc := if i < |s.core.items| then Scanning(i + 1, cur) else Selecting(cur)))
    requires i < |s.core.items| ==> !Actionable(s.core.items[i].state)
    ensures Bounded(t) && Lower(t, s)
  {
    if Soon(s) && RankSum(s.core.items) != 0 && cur == None && s.rcvd == |s.sent| {
      var k :| i <= k < |s.core.items| && Actionable(s.core.items[k].state);
      assert i + 1 <= k;
    }
  }

  lemma ReadLowers(s: Sys, t: Sys, cur: Option<nat>)
    requires Bounded(s) && Bounded(t) && s.core.pc == Selecting(cur) && RankSum(t.core.items) <= RankSum(s.core.items)
    requires t == s.(core := s.core.(items := t.core.items, pc := Writing(cur)), rcvd := t.rcvd)
    requires if s.rcvd < |s.sent| then t.rcvd == s.rcvd + 1 else t.rcvd == s.rcvd && t.core.items == s.core.items
    ensures Stepped(s, Select(true), t)
  {
  }

  lemma SelectLowers(s: Sys)
    requires Inv(s) && Bounded(Next(s, Select(true))) && !s.core.pc.Quit?
    ensures Stepped(s, Select(true), Next(s, Select(true)))
  {
    if s.core.pc.Selecting? {
      SelectStep(s, s.core.pc.cur);
      ReadLowers(s, Next(s, Select(true)), s.core.pc.cur);
    } else {
      AwayIdles(s, Select(true));
    }
  }

  lemma SendLowers(s: Sys, t: Sys, cur: Option<nat>)
    requires Bounded(s) && Bounded(t) && s.core.pc == Writing(cur)
    requires t == s.(core := s.core.(pc := Testing), wrote := t.wrote) && (cur == None ==> t.wrote == s.wrote)
    ensures Stepped(s, Write(true), t)
  {
  }

  lemma WriteLowers(s: Sys)
    requires Inv(s) && Bounded(Next(s, Write(true))) && !s.core.pc.Quit?
    ensures Stepped(s, Write(true), Next(s, Write(true)))
  {
    if s.core.pc.Writing? {
      WriteStep(s, s.core.pc.cur);
      SendLowers(s, Next(s, Write(true)), s.core.pc.cur);
    } else {
      AwayIdles(s, Write(true));
    }
  }

  lemma TestLowers(s: Sys, t: Sys)
    requires Bounded(s) && s.core.pc == Testing
    requires t == s.(core := s.core.(pc := if RankSum(s.core.items) == 0 then Quit else Scanning(0, None)))
    requires RankSum(s.core.items) != 0 && Settled(s) ==>
      s.rcvd < |s.sent| || exists k :: 0 <= k < |s.core.items| && Actionable(s.core.items[k].state)
    ensures Stepped(s, QuitTest, t)
  {
    if RankSum(s.core.items) != 0 && Settled(s) {
      NewLap(s, t);
    }
  }

  lemma QuitLowers(s: Sys)
    requires Live(s) && Bounded(Next(s, QuitTest)) && !s.core.pc.Quit?
    ensures Stepped(s, QuitTest, Next(s, QuitTest))
  {
    if s.core.pc.Testing? {
      QuitTestStep(s);
      if RankSum(s.core.items) != 0 && Settled(s) {
        SomethingDue(s);
      }
      TestLowers(s, Next(s, QuitTest));
    } else {
      AwayIdles(s, QuitTest);
    }
  }

  lemma NewLap(s: Sys, t: Sys)
    requires Bounded(s) && Settled(s) && s.core.pc == Testing && t == s.(core := s.core.(pc := Scanning(0, None)))
    requires RankSum(s.core.items) != 0
    requires s.rcvd < |s.sent| || exists k :: 0 <= k < |s.core.items| && Actionable(s.core.items[k].state)
    ensures Bounded(t) && Lower(t, s)
  {
  }

  // ---------- the requester never waits for nothing ----------

  // Settled, nothing in hand and nothing due: then a packet waits to be read.
  lemma SettledServed(s: Sys, id: word)
    requires Inv(s) && Settled(s) && Written(s.wrote, id)
    ensures HasId(s.core.served, id)
  {
    var k :| 0 <= k < |s.wrote| && s.wrote[k].msgId == id;
    var r := s.core.accepted[k];
    assert Matches(r, s.wrote[k]);
    assert r in multiset(s.core.accepted);
    assert multiset(s.core.accepted) == multiset(s.core.served);
    var l := InMultiset(s.core.served, r);
  }

  lemma Awaited(s: Sys, j: nat)
    requires Live(s) && Settled(s) && CurOf(s.core.pc) == None && j < |s.core.items|
    requires s.core.items[j].state == IN_PROGRESS || s.core.items[j].state == ACKED
    ensures s.rcvd < |s.sent|
  {
    var id := s.core.items[j].msg.msgId;
    assert !Lost(s, j) && ItemOk(s, j);
    if s.rcvd == |s.sent| {
      assert s.sent[..s.rcvd] == s.sent;
    }
    assert WireOf(s.sent, id) == Stage(s, id);
    if Written(s.wrote, id) {
      SettledServed(s, id);
    }
    WrittenWhole(s, id);
  }

  lemma WrittenWhole(s: Sys, id: word)
    requires s.taken == |s.wrote|
    ensures Written(s.wrote[..s.taken], id) == Written(s.wrote, id)
  {
    assert s.wrote[..s.taken] == s.wrote;
  }

  // Unless all are finished, some item is neither waiting nor finished.
  lemma SomeActive(items: seq<Item>, j: nat) returns (k: nat)
    requires WellFormed(items) && LinksOk(items) && WaitingOk(items) && Linked(items)
    requires j < |items| && items[j].state != FINISHED
    ensures k < |items| && Active(items[k].state)
  {
    k := j;
    if items[j].state == RESET {
      k :| 0 <= k < |items| && Triggers(items, k, j);
    }
  }

  lemma {:induction false} Unfinished(items: seq<Item>) returns (j: nat)
    requires RankSum(items) != 0
    ensures j < |items| && items[j].state != FINISHED
  {
    j := |items| - 1;
    if items[j].state == FINISHED {
      j := Unfinished(items[..j]);
    }
  }

  // With nothing in hand, unless all is finished, an item is due or a packet waits to be read.
  lemma SomethingDue(s: Sys)
    requires Live(s) && Settled(s) && CurOf(s.core.pc) == None && RankSum(s.core.items) != 0
    ensures s.rcvd < |s.sent| || exists k :: 0 <= k < |s.core.items| && Actionable(s.core.items[k].state)
  {
    var j := Unfinished(s.core.items);
    var k := SomeActive(s.core.items, j);
    assert ItemOk(s, k);
    if s.core.items[k].state == IN_PROGRESS || s.core.items[k].state == ACKED {
      Awaited(s, k);
    }
  }

  // ---------- every step ----------

  // Actions that differ only in the time they are taken at.
  function Kind(a: Action): Action {
    match a
    case NetEnqueue(_) => NetEnqueue(0)
    case _ => a
  }

  lemma LiveNext(s: Sys, a: Action)
    requires Live(s) && Willing(a)
    ensures Live(Next(s, a)) && Bounded(Next(s, a))
  {
    match a {
      case Schedule => LiveSchedule(s);
      case Select(_) => LiveSelect(s);
      case Write(_) => LiveWrite(s);
      case QuitTest => LiveQuit(s);
      case _ => LiveController(s, a);
    }
  }

  lemma ControllerLowers(s: Sys, a: Action)
    requires Inv(s) && FloorsOk(s.core.items) && ByController(a) && !s.core.pc.Quit?
    ensures Stepped(s, a, Next(s, a))
  {
    ControllerCloser(s, a);
    ControllerLeaves(s, a);
    ControllerBound(s, a);
    if !Settled(s) && Kind(a) == Kind(Turn(s)) {
      TurnMoves(s, a);
    }
  }

  lemma ControllerBound(s: Sys, a: Action)
    requires ByController(a)
    ensures |s.sent| <= |Next(s, a).sent|
  {
  }

  // Every step lowers the measure or idles, and the helpful one lowers it.
  lemma StepLowers(s: Sys, a: Action)
    requires Live(s) && Willing(a) && !s.core.pc.Quit?
    ensures Live(Next(s, a)) && Stepped(s, a, Next(s, a))
  {
    LiveNext(s, a);
    match a {
      case Schedule => ScheduleLowers(s);
      case Select(_) => SelectLowers(s);
      case Write(_) => WriteLowers(s);
      case QuitTest => QuitLowers(s);
      case _ => ControllerLowers(s, a);
    }
  }

  lemma HelpfulWilling(s: Sys)
    requires Bounded(s)
    ensures Needed(s, Helpful(s))
  {
    if !Settled(s) && s.core.net.Idle? && s.taken == |s.wrote| && AtRest(s.core) {
      assert !SidesEmpty(s.core);
    }
  }

  // ---------- to the end ----------

  // From every live state the requester can finish, draining only where there is something to drain.
  lemma {:induction false} CanFinish(s: Sys) returns (acts: seq<Action>)
    requires Live(s)
    ensures Exec(s, acts).core.pc.Quit? && Needful(s, acts)
    decreases RankSum(s.core.items), HandRank(s.core.pc), |s.wrote| - s.taken, NetRank(s.core.net),
      |s.core.ctrl.up| + |s.core.ctrl.down|, |s.core.ctrl.current|, CarRank(s.core.car), |s.sent| - s.rcvd, Lap(s)
  {
    acts := [];
    if !s.core.pc.Quit? {
      var a := Helpful(s);
      HelpfulWilling(s);
      StepLowers(s, a);
      var rest := [];
      if !Next(s, a).core.pc.Quit? {
        rest := CanFinish(Next(s, a));
      }
      acts := [a] + rest;
      ExecFirst(s, a, rest);
      NeedfulFirst(s, a, rest);
    }
  }
}
