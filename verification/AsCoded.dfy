/**
  The runs the code itself allows.  Preparing the next queue first scans both side queues for their
  lowest time tag, and that scan returns only when they are empty; so a request that has gone aside is
  never served, and whether the requester can finish turns on where each request will be routed.
 */
module AsCoded {
  import opened Bits
  import opened NetPackets
  import opened Heap
  import opened Controller
  import opened Requester
  import opened Runs
  import opened System
  import opened Safety
  import opened Guarantees
  import opened Rides
  import opened Routing
  import opened Progress
  import opened Outcome

  // ---------- runs of the code ----------

  predicate Drains(c: Core, a: Action) {
    a.PreProcess? && AtRest(c)
  }

  predicate Returns(c: Core, a: Action) {
    Drains(c, a) ==> SidesEmpty(c)
  }

  predicate Allowed(s: Sys, a: Action) {
    Returns(s.core, a)
  }

  ghost predicate AsWritten(s: Sys, acts: seq<Action>) {
    Along(Next, Allowed, s, acts)
  }

  // Such a step is allowed exactly where both scans of preProcessNextQueue come to an end.
  lemma ReturnsIffScansEnd(c: Core, upwards: bool, lowest: qword)
    requires c.car.Parked? && c.ctrl.current == []
    ensures Returns(c, PreProcess(upwards)) <==>
      (exists n :: ScanTurns(c.ctrl.up, lowest, n).0 == []) && (exists n :: ScanTurns(c.ctrl.down, lowest, n).0 == [])
  {
    ScanEndsIff(c.ctrl.up, lowest);
    ScanEndsIff(c.ctrl.down, lowest);
  }

  lemma AsWrittenNoDrain(s: Sys, acts: seq<Action>)
    requires NoDrain(acts)
    ensures AsWritten(s, acts)
  {
  }

  // ---------- barred items ----------

  // The request of item j lies in a side queue.
  ghost predicate Aside(s: Sys, j: nat) {
    j < |s.core.items|
      && (HasId(s.core.ctrl.up, s.core.items[j].msg.msgId) || HasId(s.core.ctrl.down, s.core.items[j].msg.msgId))
  }

  // The request of item j is still to come and will go aside; only a car heading up can still turn
  // round for a go item that has not been routed.
  ghost predicate Shut(s: Sys, j: nat) {
    && j < |s.core.items| && !Accepted(s, j) && !Ahead(s, j)
    && (s.core.items[j].msg.reqTyp == USR_CALL || IsRouted(s, j) || s.core.ctrl.direction != UP)
  }

  ghost predicate Clear(s: Sys) {
    forall j :: 0 <= j < |s.core.items| ==> !Aside(s, j) && !Shut(s, j)
  }

  // ---------- barred items stay barred ----------

  lemma PushHasId(h: seq<Request>, r: Request, comp: (Request, Request) -> bool,
    le: (Request, Request) -> bool, id: word)
    requires Respects(comp, le) && IsHeap(h, le) && (HasId(h, id) || r.msgId == id)
    ensures HasId(Push(h, r, comp), id)
  {
    PushKeeps(h, r, comp, le);
    var x := r;
    if HasId(h, id) {
      var k :| 0 <= k < |h| && h[k].msgId == id;
      x := h[k];
      assert x in multiset(h);
    }
    var l := InMultiset(Push(h, r, comp), x);
  }

  lemma AcceptAside(c: Ctrl, r: Request, id: word)
    requires HeapsOk(c)
    requires HasId(c.up, id) || HasId(c.down, id) || (r.msgId == id && !OnTheWay(c.location, r))
    ensures HasId(Accept(c, r).up, id) || HasId(Accept(c, r).down, id)
  {
    UpRespects();
    DownRespects();
    if !OnTheWay(c.location, r) {
      if r.direction == UP {
        if HasId(c.up, id) || r.msgId == id {
          PushHasId(c.up, r, UpBefore, NotHigher, id);
        }
      } else {
        if HasId(c.down, id) || r.msgId == id {
          PushHasId(c.down, r, DownBefore, NotLower, id);
        }
      }
    }
  }

  lemma AsideEnqueue(s: Sys, r: Request, now: qword, j: nat)
    requires Inv(s) && s.core.net == Routed(r) && j < |s.core.items|
    requires Aside(s, j) || (r.msgId == s.core.items[j].msg.msgId && !OnTheWay(s.core.ctrl.location, r))
    ensures Aside(Next(s, NetEnqueue(now)), j)
  {
    var q := r.(time := now, cmd := 0);
    AcceptAside(s.core.ctrl, q, s.core.items[j].msg.msgId);
  }

  lemma AsideNext(s: Sys, a: Action, j: nat)
    requires Inv(s) && Aside(s, j) && Returns(s.core, a)
    ensures Aside(Next(s, a), j)
  {
    StepFixed(s, a);
    if a.NetEnqueue? {
      match s.core.net {
        case Routed(r) => AsideEnqueue(s, r, a.now, j);
        case _ => assert Next(s, a) == s;
      }
    } else if a.PreProcess? {
      assert Next(s, a) == s;
    } else {
      SidesLeft(s, a);
    }
  }

  // Both sides empty: draining only makes the car head down.
  lemma IdleTurn(s: Sys, upwards: bool)
    requires SidesEmpty(s.core) && Drains(s.core, PreProcess(upwards))
    ensures Next(s, PreProcess(upwards)) == s.(core := s.core.(ctrl := s.core.ctrl.(direction := DOWN)))
  {
    assert s.core.queued + [] == s.core.queued;
  }

  lemma ShutPreProcess(s: Sys, upwards: bool, j: nat)
    requires Shut(s, j) && Returns(s.core, PreProcess(upwards))
    ensures Shut(Next(s, PreProcess(upwards)), j)
  {
    if Drains(s.core, PreProcess(upwards)) {
      IdleTurn(s, upwards);
      HeadsDown(s, j);
    } else {
      assert Next(s, PreProcess(upwards)) == s;
    }
  }

  lemma HeadsDown(s: Sys, j: nat)
    requires j < |s.core.items|
    requires s.core.items[j].msg.reqTyp == USR_CALL || IsRouted(s, j) || s.core.ctrl.direction != UP
    ensures Ahead(s.(core := s.core.(ctrl := s.core.ctrl.(direction := DOWN))), j) <==> Ahead(s, j)
  {
    var t := s.(core := s.core.(ctrl := s.core.ctrl.(direction := DOWN)));
    if s.core.items[j].msg.reqTyp == USR_CALL || IsRouted(s, j) {
      AheadFrame(s, t, j);
    } else {
      assert forall l, f :: Toward(Heading(s, j), l, f) == Toward(Heading(t, j), l, f);
    }
  }

  lemma ShutLeft(s: Sys, a: Action, j: nat)
    requires Inv(s) && NetOk(s) && Shut(s, j) && !a.PreProcess? && !a.NetEnqueue?
    ensures Shut(Next(s, a), j)
  {
    var t := Next(s, a);
    SidesLeft(s, a);
    StepFixed(s, a);
    if a.NetDispatch? {
      HeadingDispatch(s, j);
    } else {
      HeadingLeft(s, a, j);
    }
    AheadFrame(s, t, j);
    if IsRouted(s, j) {
      RoutedStays(s, a);
    }
  }

  lemma RoutedStays(s: Sys, a: Action)
    requires s.core.net.Routed? && !a.NetEnqueue?
    ensures Next(s, a).core.net == s.core.net
  {
  }

  lemma ShutApart(s: Sys, r: Request, now: qword, j: nat)
    requires s.core.net == Routed(r) && Shut(s, j) && r.msgId != s.core.items[j].msg.msgId
    ensures Shut(Next(s, NetEnqueue(now)), j)
  {
    EnqueueAccepts(s, r, now, j);
    AheadFrame(s, Next(s, NetEnqueue(now)), j);
    AcceptDirection(s.core.ctrl, r.(time := now, cmd := 0));
  }

  lemma HeldIs(s: Sys, r: Request, j: nat)
    requires Inv(s) && NetOk(s) && TraceOk(s) && Finishable(s.core.items) && s.core.net == Routed(r)
    requires j < |s.core.items| && r.msgId == s.core.items[j].msg.msgId
    ensures OnTheWay(s.core.ctrl.location, r) <==> Ahead(s, j)
  {
    var k := EnqueuedAsPredicted(s, r);
    FindIs(s.core.items, j);
    FindIs(s.core.items, k);
  }

  lemma ShutEnqueue(s: Sys, r: Request, now: qword, j: nat)
    requires Inv(s) && NetOk(s) && TraceOk(s) && Finishable(s.core.items) && s.core.net == Routed(r) && Shut(s, j)
    ensures Aside(Next(s, NetEnqueue(now)), j) || Shut(Next(s, NetEnqueue(now)), j)
  {
    if r.msgId == s.core.items[j].msg.msgId {
      HeldIs(s, r, j);
      AsideEnqueue(s, r, now, j);
    } else {
      ShutApart(s, r, now, j);
    }
  }

  lemma AcceptDirection(c: Ctrl, r: Request)
    ensures Accept(c, r).direction == c.direction
  {
  }

  lemma ShutNext(s: Sys, a: Action, j: nat)
    requires Inv(s) && NetOk(s) && TraceOk(s) && Finishable(s.core.items) && Returns(s.core, a) && Shut(s, j)
    ensures Aside(Next(s, a), j) || Shut(Next(s, a), j)
  {
    if a.PreProcess? {
      ShutPreProcess(s, a.upwards, j);
    } else if a.NetEnqueue? {
      match s.core.net {
        case Routed(r) => ShutEnqueue(s, r, a.now, j);
        case _ => assert Next(s, a) == s;
      }
    } else {
      ShutLeft(s, a, j);
    }
  }

  lemma BarredNext(s: Sys, a: Action, j: nat)
    requires Inv(s) && NetOk(s) && TraceOk(s) && Finishable(s.core.items) && Returns(s.core, a)
    requires Aside(s, j) || Shut(s, j)
    ensures Aside(Next(s, a), j) || Shut(Next(s, a), j)
  {
    if Aside(s, j) {
      AsideNext(s, a, j);
    } else {
      ShutNext(s, a, j);
    }
  }

  lemma FinishedAccepted(s: Sys, j: nat)
    requires Inv(s) && j < |s.core.items| && s.core.items[j].state == FINISHED
    ensures Accepted(s, j) && HasId(s.core.served, s.core.items[j].msg.msgId)
  {
    DoneIsServed(s, j);
    var k :| 0 <= k < |s.core.served| && s.core.served[k].msgId == s.core.items[j].msg.msgId;
    assert s.core.served[k] in multiset(s.core.served);
    var l := PlacedIsTaken(s, s.core.served[k]);
  }

  // A barred item is not finished.
  lemma BarredUnfinished(s: Sys, j: nat)
    requires Inv(s) && (Aside(s, j) || Shut(s, j))
    ensures s.core.items[j].state != FINISHED
  {
    if s.core.items[j].state == FINISHED {
      FinishedAccepted(s, j);
      var k :| 0 <= k < |s.core.served| && s.core.served[k].msgId == s.core.items[j].msg.msgId;
      var r := s.core.served[k];
      var q := SideOf(s, j);
      assert r in multiset(s.core.served);
      PlacedOnce(s, multiset(s.core.ctrl.up) + multiset(s.core.ctrl.down), multiset(s.core.served), q, r);
    }
  }

  lemma SideOf(s: Sys, j: nat) returns (q: Request)
    requires Aside(s, j)
    ensures q.msgId == s.core.items[j].msg.msgId && q in multiset(s.core.ctrl.up) + multiset(s.core.ctrl.down)
  {
    var id := s.core.items[j].msg.msgId;
    if HasId(s.core.ctrl.up, id) {
      var k :| 0 <= k < |s.core.ctrl.up| && s.core.ctrl.up[k].msgId == id;
      q := s.core.ctrl.up[k];
      assert q in multiset(s.core.ctrl.up);
    } else {
      var k :| 0 <= k < |s.core.ctrl.down| && s.core.ctrl.down[k].msgId == id;
      q := s.core.ctrl.down[k];
      assert q in multiset(s.core.ctrl.down);
    }
  }

  // ---------- runs ----------

  ghost predicate Known(s: Sys) {
    Inv(s) && NetOk(s) && TraceOk(s) && Finishable(s.core.items)
  }

  lemma KnownNext(s: Sys, a: Action)
    requires Known(s)
    ensures Known(Next(s, a))
  {
    NextKeeps(s, a);
    NetOkNext(s, a);
    NextTraced(s, a);
    StepFixed(s, a);
    FinishableFixed(s.core.items, Next(s, a).core.items);
  }

  lemma {:induction false} KnownExec(s: Sys, acts: seq<Action>)
    requires Known(s)
    ensures Known(Exec(s, acts))
    decreases |acts|
  {
    if acts == [] {
    } else {
      KnownExec(s, acts[..|acts| - 1]);
      KnownNext(Exec(s, acts[..|acts| - 1]), acts[|acts| - 1]);
    }
  }

  lemma KnownRun(items: seq<Item>, acts: seq<Action>)
    requires WellFormed(items) && Unstarted(items) && Finishable(items)
    ensures Known(Exec(Init(items), acts))
  {
    InitHolds(items);
    KnownExec(Init(items), acts);
  }

  lemma {:induction false} BarredRun(s: Sys, more: seq<Action>, j: nat)
    requires Known(s) && AsWritten(s, more) && (Aside(s, j) || Shut(s, j))
    ensures Known(Exec(s, more)) && (Aside(Exec(s, more), j) || Shut(Exec(s, more), j))
    decreases |more|
  {
    if more == [] {
    } else {
      var b := more[..|more| - 1];
      AlongLast(Next, Allowed, s, more);
      BarredRun(s, b, j);
      BarredNext(Exec(s, b), more[|more| - 1], j);
      KnownNext(Exec(s, b), more[|more| - 1]);
    }
  }

  // ---------- parking the car ----------

  // What only the process thread has touched.
  predicate OnlyCar(t: Sys, s: Sys) {
    && t.core.items == s.core.items && t.core.pc == s.core.pc && t.core.net == s.core.net
      && t.core.accepted == s.core.accepted
    && t.wrote == s.wrote && t.taken == s.taken && t.core.ctrl.direction == s.core.ctrl.direction
    && t.core.ctrl.up == s.core.ctrl.up && t.core.ctrl.down == s.core.ctrl.down
  }

  lemma CarOnly(s: Sys)
    requires !AtRest(s.core)
    ensures !CarTurn(s.core).PreProcess? && ByController(CarTurn(s.core)) && OnlyCar(Next(s, CarTurn(s.core)), s)
  {
  }

  lemma CarCloser(s: Sys)
    requires Inv(s) && FloorsOk(s.core.items) && !AtRest(s.core)
    ensures var t := Next(s, CarTurn(s.core));
      |t.core.ctrl.current| < |s.core.ctrl.current|
      || (|t.core.ctrl.current| == |s.core.ctrl.current| && CarRank(t.core.car) < CarRank(s.core.car))
  {
    CarMoves(s);
    CarOnly(s);
    ControllerCloser(s, CarTurn(s.core));
  }

  lemma {:induction false} ParkCar(s: Sys) returns (acts: seq<Action>)
    requires Live(s)
    ensures AsWritten(s, acts) && Live(Exec(s, acts)) && AtRest(Exec(s, acts).core) && OnlyCar(Exec(s, acts), s)
    decreases |s.core.ctrl.current|, CarRank(s.core.car)
  {
    acts := [];
    if !AtRest(s.core) {
      var a := CarTurn(s.core);
      CarOnly(s);
      CarCloser(s);
      LiveController(s, a);
      var rest := ParkCar(Next(s, a));
      acts := [a] + rest;
      ExecFirst(s, a, rest);
      AlongFirst(Next, Allowed, s, a, rest);
    }
  }

  // ---------- clear states finish ----------

  lemma ClearSides(s: Sys)
    requires Inv(s) && Clear(s)
    ensures SidesEmpty(s.core)
  {
    if !SidesEmpty(s.core) {
      var q := if s.core.ctrl.up != [] then s.core.ctrl.up[0] else s.core.ctrl.down[0];
      assert q in multiset(s.core.ctrl.up) + multiset(s.core.ctrl.down);
      var k := PlacedIsTaken(s, q);
      var j := AcceptedItem(s, k);
      assert HasId(s.core.ctrl.up, q.msgId) || HasId(s.core.ctrl.down, q.msgId);
      assert Aside(s, j);
    }
  }

  lemma TurnedRound(s: Sys, j: nat, k: nat)
    requires Known(s) && Clear(s) && s.core.ctrl.direction == UP && j < |s.core.items| && k < |s.core.items|
    requires !Accepted(s, j) && !Ahead(s, j) && !Accepted(s, k)
    ensures Ahead(s.(core := s.core.(ctrl := s.core.ctrl.(direction := DOWN))), k)
  {
    var t := s.(core := s.core.(ctrl := s.core.ctrl.(direction := DOWN)));
    assert !Shut(s, j) && !Shut(s, k);
    if s.core.items[k].msg.reqTyp == USR_CALL {
      AheadFrame(s, t, k);
    } else {
      OneGo(s.core.items, j, k);
      var i := OneTrigger(s.core.items, j);
      AheadGo(s, i, j);
      AheadGo(t, i, j);
    }
  }

  lemma ClearTurned(s: Sys, j: nat)
    requires Known(s) && Clear(s) && AtRest(s.core) && j < |s.core.items| && !Accepted(s, j) && !Ahead(s, j)
    ensures Smooth(Next(s, PreProcess(false))) && Returns(s.core, PreProcess(false))
  {
    ClearSides(s);
    IdleTurn(s, false);
    assert !Shut(s, j);
    var t := Next(s, PreProcess(false));
    KnownNext(s, PreProcess(false));
    forall k | 0 <= k < |t.core.items|
      ensures Accepted(t, k) || Ahead(t, k)
    {
      if !Accepted(s, k) {
        TurnedRound(s, j, k);
      }
    }
  }

  lemma OnlyCarClear(s: Sys, t: Sys, j: nat)
    requires OnlyCar(t, s) && j < |s.core.items|
    ensures Accepted(t, j) == Accepted(s, j) && Ahead(t, j) == Ahead(s, j) && Aside(t, j) == Aside(s, j)
    ensures Shut(t, j) == Shut(s, j)
  {
    AheadFrame(s, t, j);
  }

  // Reach a state in which every request to come lies ahead, turning the car round if need be.
  lemma Smoothed(s: Sys) returns (acts: seq<Action>)
    requires Known(s) && NoneLost(s) && Clear(s)
    ensures AsWritten(s, acts) && Live(Exec(s, acts)) && Smooth(Exec(s, acts))
  {
    ClearSides(s);
    acts := [];
    if !AllAhead(s) {
      var j :| 0 <= j < |s.core.items| && !Accepted(s, j) && !Ahead(s, j);
      acts := ParkCar(s);
      var t := Exec(s, acts);
      KnownExec(s, acts);
      forall k | 0 <= k < |t.core.items|
        ensures !Aside(t, k) && !Shut(t, k)
      {
        OnlyCarClear(s, t, k);
      }
      OnlyCarClear(s, t, j);
      ClearTurned(t, j);
      LiveController(t, PreProcess(false));
      AsWrittenAppend(s, acts, PreProcess(false));
      acts := acts + [PreProcess(false)];
    }
  }

  lemma AsWrittenAppend(s: Sys, acts: seq<Action>, a: Action)
    requires AsWritten(s, acts) && Returns(Exec(s, acts).core, a)
    ensures AsWritten(s, acts + [a]) && Exec(s, acts + [a]) == Next(Exec(s, acts), a)
  {
    var t := Exec(s, acts);
    AlongFirst(Next, Allowed, t, a, []);
    assert [a] + [] == [a];
    AlongConcat(Next, Allowed, s, acts, [a]);
    RunAppend(Next, s, acts, a);
  }

  lemma CodeCanFinish(s: Sys) returns (acts: seq<Action>)
    requires Known(s) && NoneLost(s) && Clear(s)
    ensures AsWritten(s, acts) && Exec(s, acts).core.pc.Quit?
  {
    var first := Smoothed(s);
    var rest := CanFinish(Exec(s, first));
    acts := first + rest;
    SmoothRun(Exec(s, first), rest);
    AsWrittenNoDrain(Exec(s, first), rest);
    AlongConcat(Next, Allowed, s, first, rest);
    ExecConcat(s, first, rest);
  }

  // ---------- exactly when the code can finish ----------

  // From a reachable state, some continuation that the code allows ends with the requester quitting
  // if and only if the list is finishable, no scheduled packet was dropped and no item is barred.
  lemma CodeFinishesIff(items: seq<Item>, acts: seq<Action>)
    requires WellFormed(items) && Unstarted(items)
    ensures var s := Exec(Init(items), acts);
      (exists more :: AsWritten(s, more) && Exec(s, more).core.pc.Quit?) <==>
        Finishable(items) && NoneLost(s) && Clear(s)
  {
    var s := Exec(Init(items), acts);
    if Finishable(items) && NoneLost(s) && Clear(s) {
      KnownRun(items, acts);
      var more := CodeCanFinish(s);
    }
    if more :| AsWritten(s, more) && Exec(s, more).core.pc.Quit? {
      ExecConcat(Init(items), acts, more);
      FinishesIff(items, acts);
      KnownRun(items, acts);
      forall j | 0 <= j < |s.core.items|
        ensures !Aside(s, j) && !Shut(s, j)
      {
        if Aside(s, j) || Shut(s, j) {
          BarredRun(s, more, j);
          BarredUnfinished(Exec(s, more), j);
          EndToEnd(items, acts + more);
        }
      }
    }
  }

  // ---------- from the start, and after an idle turn ----------

  // Each call goes up, or asks for the floor the car starts on.
  ghost predicate CallsAhead(items: seq<Item>) {
    forall j :: 0 <= j < |items| && items[j].msg.reqTyp == USR_CALL ==>
      items[j].msg.direction == UP || items[j].msg.floor == 0
  }

  predicate NotAbove(go: Item, call: Item) {
    go.msg.floor <= call.msg.floor
  }

  ghost predicate BelowCall(items: seq<Item>, j: nat)
    requires j < |items|
  {
    forall i :: 0 <= i < |items| && Triggers(items, i, j) ==> NotAbove(items[j], items[i])
  }

  // No go item asks for a floor above that of its call.
  ghost predicate GoesBelow(items: seq<Item>) {
    forall j :: 0 <= j < |items| && items[j].msg.reqTyp == USR_GO ==> BelowCall(items, j)
  }

  lemma AtGround(direction: byte, floor: byte)
    ensures Toward(direction, 0, floor) <==> direction == UP || floor == 0
  {
  }

  predicate Untouched(s: Sys) {
    var c := s.core;
    c.net.Idle? && c.accepted == [] && c.ctrl.up == [] && c.ctrl.down == []
  }

  lemma CallShut(s: Sys, j: nat)
    requires Untouched(s) && j < |s.core.items| && s.core.items[j].msg.reqTyp == USR_CALL
    ensures !Aside(s, j)
    ensures Shut(s, j) <==> !(s.core.items[j].msg.direction == UP || s.core.items[j].msg.floor == 0)
  {
    AtGround(s.core.items[j].msg.direction, s.core.items[j].msg.floor);
  }

  lemma TowardDown(direction: byte, go: Item, call: Item)
    requires direction != UP
    ensures Toward(direction, call.msg.floor, go.msg.floor) == NotAbove(go, call)
  {
  }

  lemma AheadBelow(s: Sys, j: nat)
    requires j < |s.core.items| && s.core.items[j].msg.reqTyp == USR_GO && Heading(s, j) != UP
    ensures Ahead(s, j) <==> BelowCall(s.core.items, j)
  {
    var items := s.core.items;
    if Ahead(s, j) {
      forall i | 0 <= i < |items| && Triggers(items, i, j)
        ensures NotAbove(items[j], items[i])
      {
        TowardDown(Heading(s, j), items[j], items[i]);
      }
    }
    if BelowCall(items, j) {
      forall i | 0 <= i < |items| && Triggers(items, i, j)
        ensures Toward(Heading(s, j), items[i].msg.floor, items[j].msg.floor)
      {
        TowardDown(Heading(s, j), items[j], items[i]);
      }
    }
  }

  lemma GoShut(s: Sys, j: nat)
    requires Untouched(s) && j < |s.core.items| && s.core.items[j].msg.reqTyp == USR_GO
    ensures !Aside(s, j)
    ensures Shut(s, j) <==> s.core.ctrl.direction != UP && !BelowCall(s.core.items, j)
  {
    assert !IsRouted(s, j) && Heading(s, j) == s.core.ctrl.direction;
    if s.core.ctrl.direction != UP {
      AheadBelow(s, j);
    }
  }

  // Before anything is enqueued, only the routing of the items to come can bar them.
  lemma ClearAtStart(s: Sys)
    requires WellFormed(s.core.items) && Untouched(s)
    ensures Clear(s) <==> CallsAhead(s.core.items) && (s.core.ctrl.direction == UP || GoesBelow(s.core.items))
  {
    forall j | 0 <= j < |s.core.items|
      ensures !Aside(s, j)
      ensures s.core.items[j].msg.reqTyp == USR_CALL ==>
        (Shut(s, j) <==> !(s.core.items[j].msg.direction == UP || s.core.items[j].msg.floor == 0))
      ensures s.core.items[j].msg.reqTyp == USR_GO ==>
        (Shut(s, j) <==> s.core.ctrl.direction != UP && !BelowCall(s.core.items, j))
    {
      if s.core.items[j].msg.reqTyp == USR_CALL {
        CallShut(s, j);
      } else {
        GoShut(s, j);
      }
    }
  }

  // From the start, the code can finish exactly the finishable lists whose call lies ahead of the car.
  lemma StartFinishesIff(items: seq<Item>)
    requires WellFormed(items) && Unstarted(items)
    ensures (exists acts :: AsWritten(Init(items), acts) && Exec(Init(items), acts).core.pc.Quit?)
      <==> Finishable(items) && CallsAhead(items)
  {
    assert Exec(Init(items), []) == Init(items);
    CodeFinishesIff(items, []);
    ClearAtStart(Init(items));
    assert NoneLost(Init(items));
  }

  // Once the process thread has idled through one turn the car heads down, and then the code can no
  // longer serve a go item above its call.
  lemma IdledFinishesIff(items: seq<Item>, upwards: bool)
    requires WellFormed(items) && Unstarted(items)
    ensures var s := Next(Init(items), PreProcess(upwards));
      (exists more :: AsWritten(s, more) && Exec(s, more).core.pc.Quit?)
      <==> Finishable(items) && CallsAhead(items) && GoesBelow(items)
  {
    ExecOne(Init(items), PreProcess(upwards));
    CodeFinishesIff(items, [PreProcess(upwards)]);
    IdleTurn(Init(items), upwards);
    ClearAtStart(Next(Init(items), PreProcess(upwards)));
    assert NoneLost(Next(Init(items), PreProcess(upwards)));
  }

  // ---------- lists that the code can never bar ----------

  // Each go item asks for exactly the floor of its call.
  ghost predicate Level(items: seq<Item>) {
    forall i, j :: 0 <= i < |items| && 0 <= j < |items| && Triggers(items, i, j) ==>
      items[j].msg.floor == items[i].msg.floor
  }

  ghost predicate Straight(s: Sys) {
    Known(s) && SidesEmpty(s.core) && CallsAhead(s.core.items) && Level(s.core.items)
  }

  lemma StraightAhead(s: Sys)
    requires CallsAhead(s.core.items) && Level(s.core.items)
    ensures AllAhead(s)
  {
    forall j | 0 <= j < |s.core.items|
      ensures Ahead(s, j)
    {
      if s.core.items[j].msg.reqTyp == USR_CALL {
        AtGround(s.core.items[j].msg.direction, s.core.items[j].msg.floor);
      }
    }
  }

  lemma StraightFixed(a: seq<Item>, b: seq<Item>)
    requires SameRequests(a, b) && CallsAhead(a) && Level(a)
    ensures CallsAhead(b) && Level(b)
  {
    assert forall i, j :: 0 <= i < |a| && 0 <= j < |a| ==> Triggers(a, i, j) == Triggers(b, i, j);
  }

  lemma StraightSides(s: Sys, a: Action)
    requires Straight(s) && Returns(s.core, a)
    ensures SidesEmpty(Next(s, a).core)
  {
    if a.PreProcess? {
      if Drains(s.core, a) {
        IdleTurn(s, a.upwards);
      } else {
        assert Next(s, a) == s;
      }
    } else {
      StraightAhead(s);
      SmoothNext(s, a);
    }
  }

  lemma StraightNext(s: Sys, a: Action)
    requires Straight(s) && Returns(s.core, a)
    ensures Straight(Next(s, a))
  {
    KnownNext(s, a);
    StraightSides(s, a);
    StepFixed(s, a);
    StraightFixed(s.core.items, Next(s, a).core.items);
  }

  lemma StraightInit(items: seq<Item>)
    requires WellFormed(items) && Unstarted(items) && Finishable(items) && CallsAhead(items) && Level(items)
    ensures Straight(Init(items))
  {
    InitHolds(items);
  }

  lemma StraightClear(s: Sys)
    requires Straight(s)
    ensures Clear(s)
  {
    StraightAhead(s);
    forall j | 0 <= j < |s.core.items|
      ensures !Aside(s, j) && !Shut(s, j)
    {
    }
  }

  lemma StraightRun(s: Sys, acts: seq<Action>)
    requires Straight(s) && AsWritten(s, acts)
    ensures Clear(Exec(s, acts))
  {
    forall t, a | Straight(t) && Allowed(t, a)
      ensures Straight(Next(t, a))
    {
      StraightNext(t, a);
    }
    AlongKeeps(Next, Allowed, Straight, s, acts);
    StraightClear(Exec(s, acts));
  }

  // ---------- a go item below its call ----------

  // As long as the car heads up, the go item below its call will go aside.
  ghost predicate Bent(s: Sys, j: nat) {
    && j < |s.core.items| && s.core.items[j].msg.reqTyp == USR_GO
    && (exists i ::
      0 <= i < |s.core.items| && Triggers(s.core.items, i, j) && !NotAbove(s.core.items[i], s.core.items[j]))
    && s.core.ctrl.direction == UP
    && StillBent(s, j)
  }

  lemma TowardUp(location: byte, floor: byte)
    requires floor < location
    ensures !Toward(UP, location, floor)
  {
  }

  lemma BentNotAhead(s: Sys, j: nat)
    requires Bent(s, j) && !Aside(s, j)
    ensures !Ahead(s, j)
  {
    var i :| 0 <= i < |s.core.items| && Triggers(s.core.items, i, j) && !NotAbove(s.core.items[i], s.core.items[j]);
    TowardUp(s.core.items[i].msg.floor, s.core.items[j].msg.floor);
  }

  ghost predicate StillBent(s: Sys, j: nat)
    requires j < |s.core.items|
  {
    Aside(s, j) || (!Accepted(s, j) && Heading(s, j) == UP)
  }

  lemma BentEnqueue(s: Sys, r: Request, now: qword, j: nat)
    requires Known(s) && Bent(s, j) && !Aside(s, j) && s.core.net == Routed(r)
    ensures var t := Next(s, NetEnqueue(now)); t.core.items == s.core.items && StillBent(t, j)
  {
    EnqueueAccepts(s, r, now, j);
    if r.msgId == s.core.items[j].msg.msgId {
      HeldIs(s, r, j);
      BentNotAhead(s, j);
      AsideEnqueue(s, r, now, j);
    }
  }

  lemma BentSide(s: Sys, a: Action, j: nat)
    requires Known(s) && Bent(s, j) && !a.PreProcess?
    ensures var t := Next(s, a);
      SameRequests(s.core.items, t.core.items) && StillBent(t, j)
  {
    StepFixed(s, a);
    if Aside(s, j) {
      AsideNext(s, a, j);
    } else if a.NetEnqueue? {
      match s.core.net {
        case Routed(r) => BentEnqueue(s, r, a.now, j);
        case _ => assert Next(s, a) == s;
      }
    } else {
      SidesLeft(s, a);
      if a.NetDispatch? {
        HeadingDispatch(s, j);
      } else {
        HeadingLeft(s, a, j);
      }
    }
  }

  lemma DirectionLeft(s: Sys, a: Action)
    requires !a.PreProcess?
    ensures Next(s, a).core.ctrl.direction == s.core.ctrl.direction
  {
  }

  lemma BentNext(s: Sys, a: Action, j: nat)
    requires Known(s) && Bent(s, j) && !a.PreProcess?
    ensures Bent(Next(s, a), j)
  {
    BentSide(s, a, j);
    DirectionLeft(s, a);
    BentFixed(s, Next(s, a), j);
  }

  lemma BentFixed(s: Sys, t: Sys, j: nat)
    requires Bent(s, j) && SameRequests(s.core.items, t.core.items) && t.core.ctrl.direction == UP
    requires StillBent(t, j)
    ensures Bent(t, j)
  {
    var i :| 0 <= i < |s.core.items| && Triggers(s.core.items, i, j) && !NotAbove(s.core.items[i], s.core.items[j]);
    assert Triggers(t.core.items, i, j);
  }

  lemma BentStep(s: Sys, a: Action, j: nat)
    requires Known(s) && Bent(s, j) && Clear(s) && Needed(s, a)
    ensures Allowed(s, a) && Known(Next(s, a)) && Bent(Next(s, a), j)
  {
    ClearSides(s);
    BentNext(s, a, j);
    KnownNext(s, a);
  }

  // A run that drains only where it must either meets a barred item or drains nothing.
  lemma UntilBarred(s: Sys, run: seq<Action>, j: nat) returns (acts: seq<Action>)
    requires Known(s) && Bent(s, j) && Needful(s, run)
    ensures AsWritten(s, acts) && acts <= run
    ensures !Clear(Exec(s, acts)) || (acts == run && Bent(Exec(s, run), j))
  {
    var inv := (t: Sys) => Known(t) && Bent(t, j);
    forall t, a | inv(t) && Clear(t) && Needed(t, a)
      ensures Allowed(t, a) && inv(Next(t, a))
    {
      BentStep(t, a, j);
    }
    acts := Until(Next, Needed, Allowed, inv, Clear, s, run);
  }

  lemma BentUnfinished(s: Sys, j: nat)
    requires Inv(s) && Bent(s, j)
    ensures s.core.items[j].state != FINISHED
  {
    if s.core.items[j].state == FINISHED {
      FinishedAccepted(s, j);
      BarredUnfinished(s, j);
    }
  }

  lemma LiveInit(items: seq<Item>)
    requires WellFormed(items) && Unstarted(items) && Finishable(items)
    ensures Live(Init(items))
  {
    InitHolds(items);
  }

  predicate AllAreWilling(acts: seq<Action>) {
    forall k :: 0 <= k < |acts| ==> Willing(acts[k])
  }

  lemma NeedfulWilling(s: Sys, run: seq<Action>)
    requires Needful(s, run)
    ensures AllAreWilling(run)
  {
    forall k | 0 <= k < |run|
      ensures Willing(run[k])
    {
      assert Needed(Run(Next, s, run[..k]), run[k]);
    }
  }

  lemma BentNotQuit(items: seq<Item>, run: seq<Action>, j: nat)
    requires WellFormed(items) && Unstarted(items) && Bent(Exec(Init(items), run), j)
    ensures !Exec(Init(items), run).core.pc.Quit?
  {
    EndToEnd(items, run);
    RunKeeps(items, run);
    BentUnfinished(Exec(Init(items), run), j);
  }

  lemma BelowBars(items: seq<Item>, j: nat) returns (acts: seq<Action>)
    requires WellFormed(items) && Unstarted(items) && Finishable(items) && Bent(Init(items), j)
    ensures AsWritten(Init(items), acts) && !Clear(Exec(Init(items), acts)) && AllAreWilling(acts)
  {
    LiveInit(items);
    KnownRun(items, []);
    var run := CanFinish(Init(items));
    NeedfulWilling(Init(items), run);
    acts := UntilBarred(Init(items), run, j);
    PrefixWilling(acts, run);
    if Clear(Exec(Init(items), acts)) {
      BentNotQuit(items, run, j);
    }
  }

  lemma PrefixWilling(acts: seq<Action>, run: seq<Action>)
    requires acts <= run && AllAreWilling(run)
    ensures AllAreWilling(acts)
  {
    assert forall k :: 0 <= k < |acts| ==> acts[k] == run[k];
  }

  lemma AboveBars(items: seq<Item>)
    requires WellFormed(items) && !GoesBelow(items)
    ensures AsWritten(Init(items), [PreProcess(true)]) && !Clear(Exec(Init(items), [PreProcess(true)]))
  {
    assert [PreProcess(true)] + [] == [PreProcess(true)];
    AlongFirst(Next, Allowed, Init(items), PreProcess(true), []);
    ExecOne(Init(items), PreProcess(true));
    IdleTurn(Init(items), true);
    ClearAtStart(Next(Init(items), PreProcess(true)));
  }

  lemma FloorsDiffer(a: byte, b: byte)
    requires a <= b && a != b
    ensures a < b
  {
  }

  lemma GoBelowCall(items: seq<Item>) returns (i: nat, j: nat)
    requires GoesBelow(items) && !Level(items)
    ensures i < |items| && j < |items| && Triggers(items, i, j) && !NotAbove(items[i], items[j])
  {
    i, j :| 0 <= i < |items| && 0 <= j < |items| && Triggers(items, i, j) && items[j].msg.floor != items[i].msg.floor;
    assert BelowCall(items, j);
    FloorsDiffer(items[j].msg.floor, items[i].msg.floor);
  }

  lemma BentAtStart(items: seq<Item>, i: nat, j: nat)
    requires i < |items| && j < |items| && Triggers(items, i, j) && !NotAbove(items[i], items[j])
    ensures Bent(Init(items), j)
  {
  }

  // A list that is not straight can be barred: at once, after an idle turn, or by routing its go too early.
  lemma CanBar(items: seq<Item>) returns (acts: seq<Action>)
    requires WellFormed(items) && Unstarted(items) && Finishable(items) && !(CallsAhead(items) && Level(items))
    ensures AsWritten(Init(items), acts) && !Clear(Exec(Init(items), acts)) && AllAreWilling(acts)
  {
    if !CallsAhead(items) {
      acts := [];
      ClearAtStart(Init(items));
    } else if !GoesBelow(items) {
      acts := [PreProcess(true)];
      AboveBars(items);
    } else {
      var i, j := GoBelowCall(items);
      BentAtStart(items, i, j);
      acts := BelowBars(items, j);
    }
  }

  // The code can never bar an item exactly if the call lies ahead and the go asks for the floor of its call.
  lemma NeverBarredIff(items: seq<Item>)
    requires WellFormed(items) && Unstarted(items) && Finishable(items)
    ensures (forall acts :: AsWritten(Init(items), acts) ==> Clear(Exec(Init(items), acts)))
      <==> CallsAhead(items) && Level(items)
  {
    if CallsAhead(items) && Level(items) {
      StraightInit(items);
      forall acts | AsWritten(Init(items), acts)
        ensures Clear(Exec(Init(items), acts))
      {
        StraightRun(Init(items), acts);
      }
    } else {
      var acts := CanBar(items);
    }
  }
}
