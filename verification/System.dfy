/**
  Requester and controller as one transition system over two FIFO channels of packets.

  The requester is one thread; the controller has a net thread (answer, then hand the request over)
  and a process thread (pop, ride, report).  Every action is one indivisible step of one of the
  three; a run is any sequence of actions, an action whose guard is false being skipped.
 */
module System {
  import opened Wrappers
  import opened Bits
  import opened Packets
  import opened NetPackets
  import opened Controller
  import opened Requester
  import opened Runs

  // ---------- messages ----------

  // What travels from the controller to the requester: an answer to a request, or a status.
  datatype Reply =
    | Control(ack: bool, txAddr: word, rxAddr: word, msgId: word)
    | Status(nodeAddr: word, msgId: word, floor: byte, status: byte)

  function ReplyTo(m: ReqMsg): Reply {
    Control(m.msgClass == CLASS_DATA, m.rxAddr, m.txAddr, m.msgId)
  }

  function RequestOf(m: ReqMsg): Request {
    Request(m.txAddr, m.msgId, m.timeTag, m.reqTyp, m.floor, m.direction)
  }

  function Received(item: Item, r: Reply): Item {
    match r
    case Control(ack, _, _, _) =>
      if ack then item.(state := ACKED, isOk := true) else item.(state := NACKED, isOk := false)
    case Status(_, _, floor, status) =>
      if item.msg.floor == floor && status == MOVE_STOP then item.(state := REACHED) else item
  }

  function OnReply(items: seq<Item>, r: Reply): (q: seq<Item>)
    ensures |q| == |items|
  {
    var j := Find(items, r.msgId);
    if j < |items| then items[j := Received(items[j], r)] else items
  }

  // ---------- threads ----------

  // The requester's loop: scan the list, wait for the socket, read, write, test for the end.
  datatype ReqPc =
    | Scanning(i: nat, cur: Option<nat>)
    | Selecting(cur: Option<nat>)
    | Writing(cur: Option<nat>)
    | Testing
    | Quit
    | Raised

  // The net thread: answered but not yet handed over; direction fixed but not yet enqueued.
  datatype NetPc = Idle | Handled(r: Request) | Routed(r: Request)

  // The process thread: the ride's loop counter, the stop not yet reported, the door not yet closed.
  datatype CarPc = Parked | Riding(r: Request, i: byte) | Arrived(r: Request) | Leaving

  // The last three fields record history: requests in the order they were enqueued, in the order
  // they entered the current queue, and in the order their stops were reported.
  datatype Core = Core(
    items: seq<Item>, allDone: nat, pc: ReqPc,
    net: NetPc, ctrl: Ctrl, car: CarPc,
    accepted: seq<Request>, queued: seq<Request>, served: seq<Request>)

  datatype Action =
    | Schedule | Select(readable: bool) | Write(writable: bool) | QuitTest
    | NetRead | NetDispatch | NetEnqueue(now: qword)
    | Pop | PreProcess(upwards: bool) | Report | Arrive | Stop | CloseDoor

  // ---------- steps that touch no channel ----------

  function ScheduleStep(c: Core): Core {
    match c.pc
    case Scanning(i, cur) =>
      if i < |c.items| then
        var p := ScheduleItem(Pass(c.items, c.allDone, cur, false), i);
        c.(items := p.items, allDone := p.allDone, pc := if p.raised then Raised else Scanning(i + 1, p.cur))
      else c.(pc := Selecting(cur))
    case _ => c
  }

  function QuitStep(c: Core): Core {
    if c.pc.Testing? then c.(pc := if c.allDone == |c.items| then Quit else Scanning(0, None)) else c
  }

  // input_data_consumer: a go request takes the car's direction, an unknown command is dropped.
  function DispatchStep(c: Core): Core {
    match c.net
    case Handled(r) =>
      if r.cmd == CMD_CALL then c.(net := Routed(r))
      else if r.cmd == CMD_GO then c.(net := Routed(r.(direction := c.ctrl.direction)))
      else c.(net := Idle)
    case _ => c
  }

  function EnqueueStep(c: Core, now: qword): Core {
    match c.net
    case Routed(r) =>
      var q := r.(time := now, cmd := 0);
      var d := Accept(c.ctrl, q);
      c.(net := Idle, ctrl := d, accepted := c.accepted + [q],
         queued := if OnTheWay(c.ctrl.location, q) then c.queued + [q] else c.queued)
    case _ => c
  }

  function PopStep(c: Core): Core {
    if c.car.Parked? && c.ctrl.current != [] then
      c.(ctrl := c.ctrl.(current := c.ctrl.current[1..], motion := Moving),
        car := Riding(c.ctrl.current[0], c.ctrl.location))
    else c
  }

  // With both side queues empty the comparison of time tags picks the downward direction.
  function PreProcessStep(c: Core, upwards: bool): Core {
    if c.car.Parked? && c.ctrl.current == [] then
      var d := Drained(c.ctrl, upwards && !(c.ctrl.up == [] && c.ctrl.down == []));
      c.(ctrl := d, queued := c.queued + d.current)
    else c
  }

  function ArriveStep(c: Core): Core {
    match c.car
    case Riding(r, i) =>
      if i <= r.floor then c
      else c.(ctrl := c.ctrl.(location := r.floor, door := Open, motion := Stopped), car := Arrived(r))
    case _ => c
  }

  function CloseStep(c: Core): Core {
    if c.car.Leaving? then c.(ctrl := c.ctrl.(door := Closed), car := Parked) else c
  }

  function LocalStep(c: Core, a: Action): Core {
    match a
    case Schedule => ScheduleStep(c)
    case QuitTest => QuitStep(c)
    case NetDispatch => DispatchStep(c)
    case NetEnqueue(now) => EnqueueStep(c, now)
    case Pop => PopStep(c)
    case PreProcess(upwards) => PreProcessStep(c, upwards)
    case Arrive => ArriveStep(c)
    case CloseDoor => CloseStep(c)
    case _ => c
  }

  // The item a writing requester has in hand.
  function InHand(c: Core): Option<ReqMsg> {
    match c.pc
    case Writing(Some(k)) => if k < |c.items| then Some(c.items[k].msg) else None
    case _ => None
  }

  // The status a controller step emits, if any.
  function Emitting(c: Core, a: Action): Option<Reply> {
    match (a, c.car)
    case (Report, Riding(r, i)) =>
      if i <= r.floor then Some(Status(r.nodeAddr, r.msgId, i, STATUS_MOVING)) else None
    case (Stop, Arrived(r)) => Some(Status(r.nodeAddr, r.msgId, r.floor, STATUS_STOPPED))
    case _ => None
  }

  function Emitted(c: Core): Core {
    match c.car
    case Riding(r, i) => c.(car := Riding(r, i + 1))
    case Arrived(r) => c.(car := Leaving, served := c.served + [r])
    case _ => c
  }

  // ---------- the system of messages ----------

  // A channel is everything ever written to it and how much of that has been read.
  datatype Sys = Sys(core: Core, wrote: seq<ReqMsg>, taken: nat, sent: seq<Reply>, rcvd: nat)

  function Next(s: Sys, a: Action): Sys {
    var c := s.core;
    match a
    case Select(readable) =>
      if !c.pc.Selecting? then s
      else if readable && s.rcvd < |s.sent| then
        s.(core := c.(items := OnReply(c.items, s.sent[s.rcvd]), pc := Writing(c.pc.cur)), rcvd := s.rcvd + 1)
      else s.(core := c.(pc := Writing(c.pc.cur)))
    case Write(writable) =>
      if !c.pc.Writing? then s
      else if writable && InHand(c).Some? then s.(core := c.(pc := Testing), wrote := s.wrote + [InHand(c).value])
      else s.(core := c.(pc := Testing))
    case NetRead =>
      if c.net.Idle? && s.taken < |s.wrote| then
        var m := s.wrote[s.taken];
        s.(core := c.(net := Handled(RequestOf(m))), taken := s.taken + 1, sent := s.sent + [ReplyTo(m)])
      else s
    case Report => EmitStep(s, a)
    case Stop => EmitStep(s, a)
    case _ => s.(core := LocalStep(c, a))
  }

  function EmitStep(s: Sys, a: Action): Sys {
    match Emitting(s.core, a)
    case Some(r) => s.(core := Emitted(s.core), sent := s.sent + [r])
    case None => s
  }

  function Init(items: seq<Item>): Sys {
    Sys(Core(items, 0, Scanning(0, None), Idle, CTRL_START, Parked, [], [], []), [], 0, [], 0)
  }

  function Exec(s: Sys, acts: seq<Action>): Sys {
    Run(Next, s, acts)
  }

  lemma ExecConcat(s: Sys, a: seq<Action>, b: seq<Action>)
    ensures Exec(s, a + b) == Exec(Exec(s, a), b)
  {
    RunConcat(Next, s, a, b);
  }

  lemma ExecOne(s: Sys, a: Action)
    ensures Exec(s, [a]) == Next(s, a)
  {
    RunOne(Next, s, a);
  }

  lemma ExecFirst(s: Sys, a: Action, rest: seq<Action>)
    ensures Exec(s, [a] + rest) == Exec(Next(s, a), rest)
  {
    ExecOne(s, a);
    ExecConcat(s, [a], rest);
  }

  lemma ExecTwo(s: Sys, a: Action, b: Action)
    ensures Exec(s, [a, b]) == Next(Next(s, a), b)
  {
    ExecOne(Next(s, a), b);
    ExecFirst(s, a, [b]);
    assert [a, b] == [a] + [b];
  }

  // ---------- the net thread's hand-over is the consumer's call ----------

  // Once answered, a request reaches the controller as input_data_consumer passes it on: a call with its
  // own direction, a go with the car's, stamped with the time of arrival; another command is dropped.
  lemma HandOverRuns(s: Sys, r: Request, now: qword)
    requires s.core.net == Handled(r)
    ensures var c, t := s.core.ctrl, Exec(s, [NetDispatch, NetEnqueue(now)]);
      && t.core.net == Idle
      && t.core.ctrl == (
        if r.cmd == 1 then Accept(c, Request(r.nodeAddr, r.msgId, now, 0, r.floor, r.direction))
        else if r.cmd == 2 then Accept(c, Request(r.nodeAddr, r.msgId, now, 0, r.floor, c.direction))
        else c)
  {
    ExecTwo(s, NetDispatch, NetEnqueue(now));
  }

  // ---------- the scheduler's loop is the method's loop ----------

  // Schedule steps alone carry out exactly one call of scheduleElevatorReqList.
  lemma {:induction false} ScheduleRuns(s: Sys, i: nat, cur: Option<nat>) returns (acts: seq<Action>)
    requires s.core.pc == Scanning(i, cur) && i <= |s.core.items|
    ensures var p := ScheduleFrom(Pass(s.core.items, s.core.allDone, cur, false), i);
      var pc := if p.raised then Raised else Selecting(p.cur);
      Exec(s, acts) == s.(core := s.core.(items := p.items, allDone := p.allDone, pc := pc))
    decreases |s.core.items| - i
  {
    var t := Next(s, Schedule);
    ExecOne(s, Schedule);
    acts := [Schedule];
    if i < |s.core.items| {
      var p := ScheduleItem(Pass(s.core.items, s.core.allDone, cur, false), i);
      if !p.raised {
        var rest := ScheduleRuns(t, i + 1, p.cur);
        ExecFirst(s, Schedule, rest);
        acts := [Schedule] + rest;
        assert p == Pass(t.core.items, t.core.allDone, p.cur, false);
      }
    }
  }
}
