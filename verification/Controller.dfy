/**
  The elevator controller: request queues, routing, draining and the ride of the car.
  `Ctrl` is its state as a value; the class updates the same state in place, and every method says
  which function on `Ctrl` it performs.
 */
module Controller {
  import opened Bits
  import opened NetPackets
  import opened Heap

  const UP: byte := 1
  const DOWN: byte := 2
  const CMD_CALL: byte := 1
  const CMD_GO: byte := 2
  const CMD_STATUS: byte := 3
  const STATUS_MOVING: byte := 1
  const STATUS_STOPPED: byte := 2

  datatype Motion = Moving | Stopped
  datatype Door = Open | Closed

  // ---------- comparators ----------

  predicate UpBefore(p: Request, q: Request) {
    p.floor < q.floor
  }

  predicate DownBefore(p: Request, q: Request) {
    p.floor >= q.floor
  }

  predicate NotHigher(p: Request, q: Request) {
    p.floor <= q.floor
  }

  predicate NotLower(p: Request, q: Request) {
    p.floor >= q.floor
  }

  lemma UpRespects()
    ensures Respects(UpBefore, NotHigher)
    ensures forall p: Request :: !UpBefore(p, p)
  {
  }

  // The down comparator holds of a request and itself, so it is no strict order; it still respects floors.
  lemma DownRespects()
    ensures Respects(DownBefore, NotLower)
    ensures forall p: Request :: DownBefore(p, p)
  {
  }

  // ---------- state ----------

  datatype Ctrl = Ctrl(location: byte, direction: byte, motion: Motion, door: Door,
                       up: seq<Request>, down: seq<Request>, current: seq<Request>)

  const CTRL_START: Ctrl := Ctrl(0, UP, Stopped, Closed, [], [], [])

  ghost predicate HeapsOk(c: Ctrl) {
    IsHeap(c.up, NotHigher) && IsHeap(c.down, NotLower)
  }

  // A request the car can serve without turning round goes straight to the current queue.
  predicate OnTheWay(location: byte, r: Request) {
    Toward(r.direction, location, r.floor)
  }

  predicate Toward(direction: byte, location: byte, floor: byte) {
    if direction == UP then floor >= location else floor <= location
  }

  function Accept(c: Ctrl, r: Request): Ctrl {
    if OnTheWay(c.location, r) then c.(current := c.current + [r])
    else if r.direction == UP then c.(up := Push(c.up, r, UpBefore))
    else c.(down := Push(c.down, r, DownBefore))
  }

  // preProcessNextQueue, for an arbitrary outcome of the comparison of time tags.
  function Drained(c: Ctrl, upwards: bool): Ctrl {
    if upwards then c.(direction := UP, up := [], current := c.current + Drain(c.up, UpBefore))
    else c.(direction := DOWN, down := [], current := c.current + Drain(c.down, DownBefore))
  }

  lemma AcceptConserves(c: Ctrl, r: Request)
    requires HeapsOk(c)
    ensures var d := Accept(c, r);
      && HeapsOk(d)
      && multiset(d.up) + multiset(d.down) + multiset(d.current)
         == multiset(c.up) + multiset(c.down) + multiset(c.current) + multiset{r}
      && d == c.(up := d.up, down := d.down, current := d.current)
      && (d.current == c.current || d.current == c.current + [r])
  {
    UpRespects();
    DownRespects();
    PushKeeps(c.up, r, UpBefore, NotHigher);
    PushKeeps(c.down, r, DownBefore, NotLower);
  }

  // Where a request goes: the current queue if it is on the way, else the side of its own direction,
  // which gains just this request; nothing else changes.
  ghost predicate EntersRightly(c: Ctrl, d: Ctrl, r: Request) {
    if (if r.direction == 1 then r.floor >= c.location else r.floor <= c.location) then
      d == c.(current := c.current + [r])
    else if r.direction == 1 then
      d == c.(up := d.up) && multiset(d.up) == multiset(c.up) + multiset{r}
    else
      d == c.(down := d.down) && multiset(d.down) == multiset(c.down) + multiset{r}
  }

  lemma AcceptRoutes(c: Ctrl, r: Request)
    requires HeapsOk(c)
    ensures EntersRightly(c, Accept(c, r), r)
  {
    UpRespects();
    DownRespects();
    PushKeeps(c.up, r, UpBefore, NotHigher);
    PushKeeps(c.down, r, DownBefore, NotLower);
  }

  ghost predicate Enters(c: Ctrl, d: Ctrl, r: Request) {
    HeapsOk(c) ==> EntersRightly(c, d, r)
  }

  lemma Entered(c: Ctrl, d: Ctrl, r: Request)
    requires d == Accept(c, r)
    ensures Enters(c, d, r)
  {
    if HeapsOk(c) {
      AcceptRoutes(c, r);
    }
  }

  lemma DrainedUp(c: Ctrl)
    requires HeapsOk(c) && c.current == []
    ensures var d := Drained(c, true);
      && d == c.(direction := UP, up := [], current := d.current)
      && multiset(d.current) == multiset(c.up) && Descending(d.current, NotHigher)
  {
    UpRespects();
    DrainSorts(c.up, UpBefore, NotHigher);
    assert [] + Drain(c.up, UpBefore) == Drain(c.up, UpBefore);
  }

  lemma DrainedDown(c: Ctrl)
    requires HeapsOk(c) && c.current == []
    ensures var d := Drained(c, false);
      && d == c.(direction := DOWN, down := [], current := d.current)
      && multiset(d.current) == multiset(c.down) && Descending(d.current, NotLower)
  {
    DownRespects();
    DrainSorts(c.down, DownBefore, NotLower);
    assert [] + Drain(c.down, DownBefore) == Drain(c.down, DownBefore);
  }

  // Draining moves one side's requests, in the order the car passes their floors, and loses none.
  lemma DrainedConserves(c: Ctrl, upwards: bool)
    requires HeapsOk(c) && c.current == []
    ensures var d := Drained(c, upwards);
      && HeapsOk(d)
      && multiset(d.up) + multiset(d.down) + multiset(d.current) == multiset(c.up) + multiset(c.down)
      && d == c.(direction := d.direction, up := d.up, down := d.down, current := d.current)
      && (upwards ==> d.direction == 1 && d.up == [] && d.down == c.down && Descending(d.current, NotHigher))
      && (!upwards ==> d.direction == 2 && d.down == [] && d.up == c.up && Descending(d.current, NotLower))
  {
    if upwards {
      DrainedUp(c);
    } else {
      DrainedDown(c);
    }
  }

  // For any sequence of pushes: the up queue empties from the highest floor down, the down queue from
  // the lowest floor up, each as a permutation of what was pushed.
  lemma {:induction false} QueuesSort(xs: seq<Request>)
    ensures var s := Drain(PushAll(xs, UpBefore), UpBefore);
      multiset(s) == multiset(xs) && forall i, j :: 0 <= i < j < |s| ==> s[i].floor >= s[j].floor
    ensures var s := Drain(PushAll(xs, DownBefore), DownBefore);
      multiset(s) == multiset(xs) && forall i, j :: 0 <= i < j < |s| ==> s[i].floor <= s[j].floor
  {
    UpRespects();
    DownRespects();
    HeapSort(xs, UpBefore, NotHigher);
    HeapSort(xs, DownBefore, NotLower);
    var s, t := Drain(PushAll(xs, UpBefore), UpBefore), Drain(PushAll(xs, DownBefore), DownBefore);
    assert forall i, j :: 0 <= i < j < |s| ==> NotHigher(s[j], s[i]);
    assert forall i, j :: 0 <= i < j < |t| ==> NotLower(t[j], t[i]);
  }

  // ---------- the scan for the lowest time tag ----------

  // Time tags are signed 64-bit values.
  predicate Earlier(a: qword, b: qword) {
    (a ^ 0x8000_0000_0000_0000) < (b ^ 0x8000_0000_0000_0000)
  }

  // The loop of getLowestTimeUpQueue and getLowestTimeDownQueue after n turns: it never pops.
  function ScanTurns(queue: seq<Request>, lowest: qword, n: nat): (r: (seq<Request>, qword))
    decreases n
  {
    if n == 0 || queue == [] then (queue, lowest)
    else ScanTurns(queue, if Earlier(queue[0].time, lowest) then queue[0].time else lowest, n - 1)
  }

  // So it reaches its exit exactly on an empty queue.
  lemma ScanEndsIff(queue: seq<Request>, lowest: qword)
    ensures (exists n :: ScanTurns(queue, lowest, n).0 == []) <==> queue == []
  {
    if queue == [] {
      assert ScanTurns(queue, lowest, 0).0 == [];
    }
    forall n: nat
      ensures ScanTurns(queue, lowest, n).0 == queue
    {
      ScanKeeps(queue, lowest, n);
    }
  }

  lemma {:induction false} ScanKeeps(queue: seq<Request>, lowest: qword, n: nat)
    ensures ScanTurns(queue, lowest, n).0 == queue
    decreases n
  {
    if n > 0 && queue != [] {
      ScanKeeps(queue, if Earlier(queue[0].time, lowest) then queue[0].time else lowest, n - 1);
    }
  }

  // The comparison is that of two's complement: negative before non-negative, else by magnitude.
  lemma EarlierIsSigned(a: qword, b: qword)
    ensures Earlier(a, b) <==> if a >> 63 == b >> 63 then a < b else a >> 63 == 1
  {
  }

  // From its first turn on, the scan of a non-empty queue holds the earlier of its start value and the
  // time of the front request.
  lemma ScanLowest(queue: seq<Request>, lowest: qword, n: nat)
    requires queue != []
    ensures var t := ScanTurns(queue, lowest, n).1;
      t == if n > 0 && Earlier(queue[0].time, lowest) then queue[0].time else lowest
    decreases n
  {
    if n == 0 {
    } else {
      var next := if Earlier(queue[0].time, lowest) then queue[0].time else lowest;
      EarlierOnce(queue[0].time, lowest);
      ScanLowest(queue, next, n - 1);
    }
  }

  lemma EarlierOnce(a: qword, b: qword)
    ensures Earlier(a, b) ==> !Earlier(b, a) && !Earlier(a, a)
  {
  }

  // ---------- the ride ----------

  lemma FloorOrder(a: byte, b: byte)
    ensures a <= b <==> a as int <= b as int
  {
  }

  lemma NextFloor(a: byte)
    requires a != 255
    ensures (a + 1) as int == a as int + 1
  {
  }

  lemma FloorBound(a: byte)
    ensures 0 <= a as int <= 255 && (a as int == 255 ==> a == 255)
  {
  }

  lemma BelowTop(i: byte, floor: byte)
    requires i <= floor && floor != 255
    ensures i != 255 && i as int <= floor as int < 255 && (i + 1) as int == i as int + 1
  {
    FloorOrder(i, floor);
    FloorBound(floor);
    FloorBound(i);
    NextFloor(i);
  }

  // The floors a ride reports, from the counter's value on.
  function Passed(i: byte, floor: byte): seq<byte>
    requires floor != 255
    decreases floor as int + 1 - i as int
  {
    if i <= floor then
      BelowTop(i, floor);
      [i] + Passed(i + 1, floor)
    else []
  }

  // A ride upwards reports every floor from the start to the goal in unit steps; a ride downwards none.
  lemma {:induction false} PassedFloors(i: byte, floor: byte)
    requires floor != 255
    ensures i <= floor ==> |Passed(i, floor)| == floor as int - i as int + 1
    ensures i > floor ==> Passed(i, floor) == []
    ensures forall k :: 0 <= k < |Passed(i, floor)| ==> Passed(i, floor)[k] as int == i as int + k
    decreases floor as int + 1 - i as int
  {
    if i <= floor {
      BelowTop(i, floor);
      PassedFloors(i + 1, floor);
      FloorOrder(i + 1, floor);
      FloorOrder(i, floor);
    }
  }

  // The loop counter after n turns, with the wrap-around of an 8-bit increment.
  function Counter(i: byte, n: nat): byte
    decreases n
  {
    if n == 0 then i else Counter(i + 1, n - 1)
  }

  lemma TopFloor(i: byte)
    ensures i <= 255
  {
  }

  lemma {:induction false} CounterReaches(i: byte, floor: byte) returns (n: nat)
    requires floor != 255
    ensures Counter(i, n) > floor
    decreases floor as int + 1 - i as int
  {
    if i <= floor {
      BelowTop(i, floor);
      var m := CounterReaches(i + 1, floor);
      n := m + 1;
    } else {
      n := 0;
    }
  }

  // The reporting loop of goToFloor has an exit for every goal but floor 255.
  lemma RideEndsIff(location: byte, floor: byte)
    ensures (exists n :: Counter(location, n) > floor) <==> floor != 255
  {
    if floor == 255 {
      forall n: nat
        ensures !(Counter(location, n) > floor)
      {
        TopFloor(Counter(location, n));
      }
    } else {
      var n := CounterReaches(location, floor);
    }
  }

  // ---------- the class ----------

  datatype Output = Output(nodeAddr: word, msgId: word, cmd: byte, floor: byte, status: byte)

  // One emission of the status signal, with the door and the location the car had at that moment.
  datatype Emission = Emission(items: Output, door: Door, location: byte)

  function MovingAt(node: word, id: word, floor: byte): Output {
    Output(node, id, CMD_STATUS, floor, STATUS_MOVING)
  }

  function StoppedAt(node: word, id: word, floor: byte): Output {
    Output(node, id, CMD_STATUS, floor, STATUS_STOPPED)
  }

  // What one ride emits.
  function RideLog(node: word, id: word, location: byte, door: Door, floors: seq<byte>): (log: seq<Emission>)
    ensures |log| == |floors|
    ensures forall k :: 0 <= k < |floors| ==> log[k] == Emission(MovingAt(node, id, floors[k]), door, location)
  {
    seq(|floors|, k requires 0 <= k < |floors| => Emission(MovingAt(node, id, floors[k]), door, location))
  }

  // The emissions of one ride: upwards a moving status for every floor from the start to the goal, with
  // the car still at the start; then one stopped status, with the door open at the goal.
  ghost predicate IsRide(log: seq<Emission>, node: word, id: word, start: byte, door: Door, goal: byte) {
    && |log| == (if start <= goal then goal as int - start as int + 2 else 1)
    && (forall k :: 0 <= k < |log| - 1 ==>
          var o := log[k].items;
          && o.nodeAddr == node && o.msgId == id && o.cmd == 3 && o.status == 1 && o.floor as int == start as int + k
          && log[k].door == door && log[k].location == start)
    && log[|log| - 1] == Emission(Output(node, id, 3, goal, 2), Open, goal)
  }

  lemma RideLogIsRide(node: word, id: word, start: byte, door: Door, goal: byte)
    requires goal != 255
    ensures IsRide(
      RideLog(node, id, start, door, Passed(start, goal)) + [Emission(StoppedAt(node, id, goal), Open, goal)],
      node, id, start, door, goal)
  {
    PassedFloors(start, goal);
    FloorOrder(start, goal);
  }

  lemma RideAppended(before: seq<Emission>, after: seq<Emission>, node: word, id: word, start: byte, door: Door,
    goal: byte)
    requires goal != 255
    requires after == before + RideLog(node, id, start, door, Passed(start, goal))
                      + [Emission(StoppedAt(node, id, goal), Open, goal)]
    ensures |after| >= |before| && IsRide(after[|before|..], node, id, start, door, goal)
  {
    RideLogIsRide(node, id, start, door, goal);
    assert after[|before|..] == RideLog(node, id, start, door, Passed(start, goal))
                                + [Emission(StoppedAt(node, id, goal), Open, goal)];
  }

  lemma DrainOne(done: seq<Request>, h: seq<Request>, comp: (Request, Request) -> bool)
    requires h != []
    ensures done + Drain(h, comp) == done + [h[0]] + Drain(Pop(h, comp), comp)
  {
  }

  lemma OneFloor(node: word, id: word, location: byte, door: Door, floor: byte, i: byte,
    floors: seq<byte>, n: nat)
    requires floor != 255 && i <= floor && n <= |floors| && floors[n..] == Passed(i, floor)
    ensures n < |floors| && floors[n + 1..] == Passed(i + 1, floor)
    ensures RideLog(node, id, location, door, floors[..n + 1])
      == RideLog(node, id, location, door, floors[..n]) + [Emission(MovingAt(node, id, i), door, location)]
  {
    assert floors[n..][0] == i && floors[n..][1..] == Passed(i + 1, floor);
  }

  class ElevatorCtrl {
    var location: byte
    var direction: byte
    var motion: Motion
    var door: Door
    var outputItems: Output
    const upQueue: PriorityQueue<Request>
    const downQueue: PriorityQueue<Request>
    var currentQueue: seq<Request>
    var emitted: seq<Emission>

    constructor ()
      ensures fresh(upQueue) && fresh(downQueue) && Valid()
      ensures State() == CTRL_START && emitted == []
    {
      location, direction, motion, door := 0, UP, Stopped, Closed;
      outputItems := Output(0, 0, 0, 0, 0);
      currentQueue, emitted := [], [];
      upQueue := new PriorityQueue(UpBefore);
      downQueue := new PriorityQueue(DownBefore);
    }

    ghost predicate Valid() {
      upQueue != downQueue && upQueue.comp == UpBefore && downQueue.comp == DownBefore
    }

    function State(): Ctrl
      reads this, upQueue, downQueue
    {
      Ctrl(location, direction, motion, door, upQueue.c, downQueue.c, currentQueue)
    }

    method EmitNewData()
      modifies this`emitted
      ensures emitted == old(emitted) + [Emission(outputItems, door, location)]
    {
      emitted := emitted + [Emission(outputItems, door, location)];
    }

    // The new request carries the time of its arrival and no command.
    method Call(node: word, id: word, floor: byte, dir: byte, now: qword)
      requires Valid()
      modifies this`currentQueue, upQueue, downQueue
      ensures State() == Accept(old(State()), Request(node, id, now, 0, floor, dir))
      ensures Enters(old(State()), State(), Request(node, id, now, 0, floor, dir))
    {
      ghost var before := State();
      var r := Request(node, id, now, 0, floor, dir);
      Route(r);
      Entered(before, State(), r);
    }

    method Route(r: Request)
      requires Valid()
      modifies this`currentQueue, upQueue, downQueue
      ensures State() == Accept(old(State()), r)
    {
      ghost var ahead := OnTheWay(location, r);
      if r.direction == UP {
        assert ahead == (r.floor >= location);
        if r.floor >= location {
          EnqueueCurrent(r);
        } else {
          EnqueueUp(r);
        }
      } else {
        assert ahead == (r.floor <= location);
        if r.floor <= location {
          EnqueueCurrent(r);
        } else {
          EnqueueDown(r);
        }
      }
    }

    method EnqueueUp(r: Request)
      requires Valid()
      modifies upQueue
      ensures State() == old(State()).(up := Push(old(State()).up, r, UpBefore))
    {
      upQueue.PushItem(r);
    }

    method EnqueueDown(r: Request)
      requires Valid()
      modifies downQueue
      ensures State() == old(State()).(down := Push(old(State()).down, r, DownBefore))
    {
      downQueue.PushItem(r);
    }

    method EnqueueCurrent(r: Request)
      modifies this`currentQueue
      ensures State() == old(State()).(current := old(State()).current + [r])
    {
      currentQueue := currentQueue + [r];
    }

    method Go(node: word, id: word, floor: byte, now: qword)
      requires Valid()
      modifies this`currentQueue, upQueue, downQueue
      ensures State() == Accept(old(State()), Request(node, id, now, 0, floor, old(direction)))
    {
      Call(node, id, floor, direction, now);
    }

    // An unknown command throws and changes nothing.
    method InputDataConsumer(node: word, id: word, cmd: byte, floor: byte, dir: byte, now: qword) returns (thrown: bool)
      requires Valid()
      modifies this`currentQueue, upQueue, downQueue
      ensures thrown == (cmd != CMD_CALL && cmd != CMD_GO)
      ensures State() == if thrown then old(State())
                         else Accept(old(State()),
                                     Request(node, id, now, 0, floor, if cmd == CMD_CALL then dir else old(direction)))
    {
      thrown := false;
      if cmd == 1 {
        Call(node, id, floor, dir, now);
      } else if cmd == 2 {
        Go(node, id, floor, now);
      } else {
        thrown := true;
      }
    }

    method DrainUp()
      requires Valid()
      modifies this`currentQueue, upQueue
      ensures upQueue.c == [] && currentQueue == old(currentQueue) + Drain(old(upQueue.c), UpBefore)
    {
      ghost var goal := currentQueue + Drain(upQueue.c, UpBefore);
      while upQueue.c != []
        invariant currentQueue + Drain(upQueue.c, UpBefore) == goal
        decreases |upQueue.c|
      {
        DrainOne(currentQueue, upQueue.c, UpBefore);
        currentQueue := currentQueue + [upQueue.c[0]];
        upQueue.PopItem();
      }
      assert currentQueue + [] == currentQueue;
    }

    method DrainDown()
      requires Valid()
      modifies this`currentQueue, downQueue
      ensures downQueue.c == [] && currentQueue == old(currentQueue) + Drain(old(downQueue.c), DownBefore)
    {
      ghost var goal := currentQueue + Drain(downQueue.c, DownBefore);
      while downQueue.c != []
        invariant currentQueue + Drain(downQueue.c, DownBefore) == goal
        decreases |downQueue.c|
      {
        DrainOne(currentQueue, downQueue.c, DownBefore);
        currentQueue := currentQueue + [downQueue.c[0]];
        downQueue.PopItem();
      }
      assert currentQueue + [] == currentQueue;
    }

    method PreProcessNextQueue(upwards: bool)
      requires Valid()
      modifies this`direction, this`currentQueue, upQueue, downQueue
      ensures State() == Drained(old(State()), upwards)
    {
      if upwards {
        direction := UP;
        DrainUp();
      } else {
        direction := DOWN;
        DrainDown();
      }
    }

    // A ride: every floor passed is reported with the door as it was and the location still the old
    // one; the stop is reported with the door open and the location equal to the goal.
    method GoToFloor(node: word, id: word, floor: byte)
      requires floor != 255
      modifies this`location, this`motion, this`door, this`outputItems, this`emitted
      ensures location == floor && motion == Stopped && door == Closed
      ensures emitted == old(emitted) + RideLog(node, id, old(location), old(door), Passed(old(location), floor))
                         + [Emission(StoppedAt(node, id, floor), Open, floor)]
      ensures |emitted| >= |old(emitted)|
      ensures IsRide(emitted[|old(emitted)|..], node, id, old(location), old(door), floor)
    {
      ghost var start, was := location, door;
      motion := Moving;
      var i := location;
      ghost var floors := Passed(location, floor);
      ghost var n := 0;
      assert RideLog(node, id, location, door, floors[..0]) == [];
      while i <= floor
        invariant n <= |floors| && floors[n..] == Passed(i, floor)
        invariant location == old(location) && door == old(door)
        invariant emitted == old(emitted) + RideLog(node, id, location, door, floors[..n])
        decreases |floors| - n
      {
        OneFloor(node, id, location, door, floor, i, floors, n);
        outputItems := MovingAt(node, id, i);
        EmitNewData();
        i := i + 1;
        n := n + 1;
      }
      assert floors[..n] == floors;
      location := floor;
      door := Open;
      motion := Stopped;
      outputItems := StoppedAt(node, id, floor);
      EmitNewData();
      door := Closed;
      RideAppended(old(emitted), emitted, node, id, start, was, floor);
    }

    // One turn of the process thread; `upwards` stands for the comparison of the lowest time tags,
    // which is down when both side queues are empty.
    method Process(upwards: bool)
      requires Valid()
      requires currentQueue != [] ==> currentQueue[0].floor != 255
      requires upQueue.c == [] && downQueue.c == [] ==> !upwards
      modifies this, upQueue, downQueue
      ensures old(currentQueue) == [] ==> State() == Drained(old(State()), upwards) && emitted == old(emitted)
      ensures old(currentQueue) != [] ==>
        var r := old(currentQueue)[0];
        && State() == old(State()).(current := old(currentQueue)[1..], location := r.floor, motion := Stopped,
          door := Closed)
        && emitted == old(emitted)
                      + RideLog(r.nodeAddr, r.msgId, old(location), old(door), Passed(old(location), r.floor))
                      + [Emission(StoppedAt(r.nodeAddr, r.msgId, r.floor), Open, r.floor)]
        && IsRide(emitted[|old(emitted)|..], r.nodeAddr, r.msgId, old(location), old(door), r.floor)
    {
      if currentQueue != [] {
        var r := currentQueue[0];
        currentQueue := currentQueue[1..];
        GoToFloor(r.nodeAddr, r.msgId, r.floor);
      } else {
        PreProcessNextQueue(upwards);
      }
    }
  }
}
