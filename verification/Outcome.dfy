/**
  Exactly when a run can end: the lists and the states from which it cannot.
 */
module Outcome {
  import opened Wrappers
  import opened Controller
  import opened Requester
  import opened System
  import opened Safety
  import opened Rides
  import opened Routing
  import opened Progress
  import opened Guarantees

  // ---------- a lost item stays lost ----------

  lemma LostUnmoved(s: Sys, t: Sys, j: nat)
    requires Lost(s, j) && j < |t.core.items| && t.core.items[j] == s.core.items[j] && t.wrote == s.wrote
    requires CurOf(t.core.pc) != Some(j)
    ensures Lost(t, j)
  {
  }

  lemma FinishTouches(a: seq<Item>, i: nat, j: nat)
    requires WellFormed(a) && LinksOk(a) && WaitingOk(a) && i < |a| && j < |a| && j != i
    requires a[i].state == REACHED && a[j].state != RESET
    ensures Released(a, i)[j] == a[j]
  {
    FinishLinks(a, Released(a, i)[i := Released(a, i)[i].(state := FINISHED)], i);
  }

  // A scan step changes the item it is at and waiting go items, no other.
  lemma ScanTouches(s: Sys, i: nat, cur: Option<nat>, j: nat)
    requires Inv(s) && s.core.pc == Scanning(i, cur) && i < |s.core.items| && j < |s.core.items| && j != i
    requires s.core.items[j].state != RESET
    ensures var t := Next(s, Schedule);
      && |t.core.items| == |s.core.items| && t.core.items[j] == s.core.items[j] && t.wrote == s.wrote
      && t.core.pc == Scanning(i + 1, if s.core.items[i].state == READY2GO then Some(i) else cur)
  {
    NextSchedule(s, i, cur);
    assert s.core.items[i].state != NACKED by {
      assert ItemOk(s, i);
    }
    if s.core.items[i].state == REACHED {
      FinishTouches(s.core.items, i, j);
    }
  }

  lemma ScanPasses(s: Sys, i: nat, cur: Option<nat>)
    requires Inv(s) && s.core.pc == Scanning(i, cur) && i < |s.core.items|
    requires !Actionable(s.core.items[i].state)
    ensures Next(s, Schedule) == s.(core := s.core.(pc := Scanning(i + 1, cur)))
  {
    ScheduleSkips(s, i);
  }

  lemma LostSchedule(s: Sys, j: nat)
    requires Inv(s) && Lost(s, j)
    ensures Lost(Next(s, Schedule), j)
  {
    match s.core.pc {
      case Scanning(i, cur) =>
        if i < |s.core.items| {
          if i == j {
            ScanPasses(s, i, cur);
          } else {
            ScanTouches(s, i, cur, j);
          }
        }
        LostUnmoved(s, Next(s, Schedule), j);
      case _ =>
    }
  }

  lemma LostSelect(s: Sys, readable: bool, j: nat)
    requires Inv(s) && Lost(s, j)
    ensures Lost(Next(s, Select(readable)), j)
  {
    if s.core.pc.Selecting? && readable && s.rcvd < |s.sent| && s.sent[s.rcvd].msgId == s.core.items[j].msg.msgId {
      DeliveredGood(s, s.core.items[j].msg.msgId);
    }
  }

  lemma LostWrite(s: Sys, writable: bool, j: nat)
    requires Inv(s) && Lost(s, j)
    ensures Lost(Next(s, Write(writable)), j)
  {
    match s.core.pc {
      case Writing(Some(k)) =>
        if writable {
          assert k != j && s.core.items[k].msg.msgId != s.core.items[j].msg.msgId;
          WrittenAppend(s.wrote, s.core.items[k].msg, s.core.items[j].msg.msgId);
        }
      case _ =>
    }
  }

  lemma LostNext(s: Sys, a: Action, j: nat)
    requires Inv(s) && Lost(s, j)
    ensures Lost(Next(s, a), j)
  {
    match a {
      case Schedule => LostSchedule(s, j);
      case Select(readable) => LostSelect(s, readable, j);
      case Write(writable) => LostWrite(s, writable, j);
      case QuitTest => LostTest(s, j);
      case _ => ControllerLeaves(s, a);
    }
  }

  lemma LostTest(s: Sys, j: nat)
    requires Lost(s, j)
    ensures Lost(Next(s, QuitTest), j)
  {
  }

  // ---------- sockets that are not ready ----------

  // A reply that is not readable yet stays where it is, and no item changes.
  lemma NotReadable(s: Sys, cur: Option<nat>)
    requires s.core.pc == Selecting(cur)
    ensures Next(s, Select(false)) == s.(core := s.core.(pc := Writing(cur)))
  {
  }

  // An item in hand when the socket takes nothing is lost.
  lemma NotWritable(s: Sys, k: nat)
    requires Inv(s) && s.core.pc == Writing(Some(k))
    ensures Lost(Next(s, Write(false)), k)
  {
  }

  // So in any run whatever, one write that is put off keeps the requester from ever quitting.
  lemma DroppedForGood(items: seq<Item>, acts: seq<Action>, more: seq<Action>, k: nat)
    requires WellFormed(items) && Unstarted(items) && Exec(Init(items), acts).core.pc == Writing(Some(k))
    ensures !Exec(Next(Exec(Init(items), acts), Write(false)), more).core.pc.Quit?
  {
    var s := Exec(Init(items), acts);
    var t := Next(s, Write(false));
    RunKeeps(items, acts);
    NextKeeps(s, Write(false));
    NotWritable(s, k);
    LostRun(t, more, k);
    LostNotQuit(Exec(t, more), k);
  }

  lemma LostNotQuit(s: Sys, k: nat)
    requires Inv(s) && Lost(s, k)
    ensures !s.core.pc.Quit?
  {
    FinishedBound(s.core.items);
  }

  // ---------- two calls: the first is lost ----------

  // Items a and b are calls: still ahead of the first pass; a scheduled and b about to replace it; or a lost.
  ghost predicate Doomed(s: Sys, a: nat, b: nat) {
    var c := s.core;
    && a < b < |c.items| && c.items[a].msg.reqTyp == USR_CALL && c.items[b].msg.reqTyp == USR_CALL
    && match c.pc
       case Scanning(i, _) =>
         || (i <= a && c.items[a].state == READY2GO && c.items[b].state == READY2GO)
         || (a < i <= b && c.items[a].state == IN_PROGRESS && !Written(s.wrote, c.items[a].msg.msgId)
           && c.items[b].state == READY2GO)
         || Lost(s, a)
       case _ => Lost(s, a)
  }

  lemma StartsHere(s: Sys, i: nat, cur: Option<nat>)
    requires Inv(s) && s.core.pc == Scanning(i, cur) && i < |s.core.items| && s.core.items[i].state == READY2GO
    ensures var t := Next(s, Schedule);
      && t.core.items[i].state == IN_PROGRESS && t.core.pc == Scanning(i + 1, Some(i))
      && !Written(t.wrote, s.core.items[i].msg.msgId) && SameRequests(s.core.items, t.core.items)
  {
    assert ItemOk(s, i);
  }

  lemma DoomedScan(s: Sys, a: nat, b: nat, i: nat, cur: Option<nat>)
    requires Inv(s) && Doomed(s, a, b) && s.core.pc == Scanning(i, cur) && !Lost(s, a)
    ensures Doomed(Next(s, Schedule), a, b)
  {
    StepFixed(s, Schedule);
    if i == a {
      StartsHere(s, a, cur);
      ScanTouches(s, a, cur, b);
    } else if i == b {
      StartsHere(s, b, cur);
      ScanTouches(s, b, cur, a);
    } else {
      ScanTouches(s, i, cur, a);
      ScanTouches(s, i, cur, b);
    }
  }

  lemma DoomedLost(s: Sys, t: Sys, a: nat, b: nat)
    requires Doomed(s, a, b) && Lost(t, a) && SameRequests(s.core.items, t.core.items)
    ensures Doomed(t, a, b)
  {
  }

  lemma DoomedNext(s: Sys, act: Action, a: nat, b: nat)
    requires Inv(s) && Doomed(s, a, b)
    ensures Doomed(Next(s, act), a, b)
  {
    if Lost(s, a) {
      LostNext(s, act, a);
      StepFixed(s, act);
      DoomedLost(s, Next(s, act), a, b);
    } else if act.Schedule? {
      DoomedScan(s, a, b, s.core.pc.i, s.core.pc.cur);
    } else if ByController(act) {
      ControllerLeaves(s, act);
    }
  }

  // ---------- floor 255 is never reached ----------

  ghost predicate NeverTop(c: Core) {
    Reachable(c.served) && (c.car.Arrived? ==> c.car.r.floor != 255)
  }

  lemma NeverTopArrive(s: Sys)
    requires NeverTop(s.core)
    ensures NeverTop(Next(s, Arrive).core)
  {
    match s.core.car {
      case Riding(r, i) => TopFloor(i);
      case _ =>
    }
  }

  lemma NeverTopReport(s: Sys)
    requires NeverTop(s.core)
    ensures NeverTop(Next(s, Report).core)
  {
    match s.core.car {
      case Riding(r, i) => NextReport(s, r, i);
      case _ =>
    }
  }

  lemma NeverTopStop(s: Sys)
    requires NeverTop(s.core)
    ensures NeverTop(Next(s, Stop).core)
  {
    match s.core.car {
      case Arrived(r) => NextStop(s, r);
      case _ =>
    }
  }

  lemma NeverTopOther(s: Sys, a: Action)
    requires NeverTop(s.core) && !a.Arrive? && !a.Report? && !a.Stop?
    ensures NeverTop(Next(s, a).core)
  {
    assert Next(s, a).core.served == s.core.served;
  }

  lemma NeverTopNext(s: Sys, a: Action)
    requires NeverTop(s.core)
    ensures NeverTop(Next(s, a).core)
  {
    match a {
      case Arrive => NeverTopArrive(s);
      case Report => NeverTopReport(s);
      case Stop => NeverTopStop(s);
      case _ => NeverTopOther(s, a);
    }
  }

  // ---------- runs ----------

  lemma {:induction false} LostRun(s: Sys, more: seq<Action>, j: nat)
    requires Inv(s) && Lost(s, j)
    ensures Inv(Exec(s, more)) && Lost(Exec(s, more), j)
    decreases |more|
  {
    if more == [] {
    } else {
      LostRun(s, more[..|more| - 1], j);
      NextKeeps(Exec(s, more[..|more| - 1]), more[|more| - 1]);
      LostNext(Exec(s, more[..|more| - 1]), more[|more| - 1], j);
    }
  }

  lemma {:induction false} DoomedRun(items: seq<Item>, acts: seq<Action>, a: nat, b: nat)
    requires WellFormed(items) && Unstarted(items)
    requires a < b < |items| && items[a].msg.reqTyp == USR_CALL && items[b].msg.reqTyp == USR_CALL
    ensures Doomed(Exec(Init(items), acts), a, b)
    decreases |acts|
  {
    if acts == [] {
    } else {
      DoomedRun(items, acts[..|acts| - 1], a, b);
      RunKeeps(items, acts[..|acts| - 1]);
      DoomedNext(Exec(Init(items), acts[..|acts| - 1]), acts[|acts| - 1], a, b);
    }
  }

  lemma {:induction false} NeverTopRun(items: seq<Item>, acts: seq<Action>)
    ensures NeverTop(Exec(Init(items), acts).core)
    decreases |acts|
  {
    if acts == [] {
    } else {
      NeverTopRun(items, acts[..|acts| - 1]);
      NeverTopNext(Exec(Init(items), acts[..|acts| - 1]), acts[|acts| - 1]);
    }
  }

  // ---------- what a run that ends says about its list ----------

  lemma EndedFinishable(items: seq<Item>, acts: seq<Action>)
    requires WellFormed(items) && Unstarted(items) && Exec(Init(items), acts).core.pc.Quit?
    ensures Finishable(items)
  {
    EndedOneCall(items, acts);
    EndedLinked(items, acts);
    EndedFloors(items, acts);
  }

  lemma EndedOneCall(items: seq<Item>, acts: seq<Action>)
    requires WellFormed(items) && Unstarted(items) && Exec(Init(items), acts).core.pc.Quit?
    ensures OneCall(items)
  {
    forall i, j | 0 <= i < |items| && 0 <= j < |items| && items[i].msg.reqTyp == USR_CALL
      && items[j].msg.reqTyp == USR_CALL
      ensures i == j
    {
      if i < j {
        DoomedRun(items, acts, i, j);
        EndedNotLost(items, acts, i);
      } else if j < i {
        DoomedRun(items, acts, j, i);
        EndedNotLost(items, acts, j);
      }
    }
  }

  lemma EndedNotLost(items: seq<Item>, acts: seq<Action>, j: nat)
    requires WellFormed(items) && Unstarted(items) && Exec(Init(items), acts).core.pc.Quit?
    ensures !Lost(Exec(Init(items), acts), j)
  {
    EndToEnd(items, acts);
  }

  lemma EndedLinked(items: seq<Item>, acts: seq<Action>)
    requires WellFormed(items) && Unstarted(items) && Exec(Init(items), acts).core.pc.Quit?
    ensures Linked(items)
  {
    var last := Exec(Init(items), acts).core.items;
    EndToEnd(items, acts);
    RunKeeps(items, acts);
    RequestsFixed(items, acts);
    forall j | 0 <= j < |items| && items[j].msg.reqTyp == USR_GO
      ensures exists i :: 0 <= i < |items| && Triggers(items, i, j)
    {
      assert last[j].state == FINISHED;
      var i :| 0 <= i < |last| && Triggers(last, i, j);
      assert Triggers(items, i, j);
    }
  }

  lemma EndedFloors(items: seq<Item>, acts: seq<Action>)
    requires WellFormed(items) && Unstarted(items) && Exec(Init(items), acts).core.pc.Quit?
    ensures FloorsOk(items)
  {
    var c := Exec(Init(items), acts).core;
    EndToEnd(items, acts);
    RequestsFixed(items, acts);
    NeverTopRun(items, acts);
    forall j | 0 <= j < |items|
      ensures items[j].msg.floor != 255
    {
      assert StoppedFor(c.served, c.items[j]);
    }
  }

  // ---------- exactly when the requester can finish ----------

  // From a reachable state, the run can still be continued until the requester quits if and only if
  // the list has at most one call, links every go item to a call, names no floor 255, and no scheduled
  // packet has been dropped.
  lemma FinishesIff(items: seq<Item>, acts: seq<Action>)
    requires WellFormed(items) && Unstarted(items)
    ensures (exists more :: Exec(Init(items), acts + more).core.pc.Quit?)
      <==> Finishable(items) && NoneLost(Exec(Init(items), acts))
  {
    var s := Exec(Init(items), acts);
    RunKeeps(items, acts);
    RequestsFixed(items, acts);
    if Finishable(items) && NoneLost(s) {
      FinishableFixed(items, s.core.items);
      var more := CanFinish(s);
      ExecConcat(Init(items), acts, more);
    }
    if more :| Exec(Init(items), acts + more).core.pc.Quit? {
      EndedFinishable(items, acts + more);
      ExecConcat(Init(items), acts, more);
      forall j | 0 <= j < |s.core.items|
        ensures !Lost(s, j)
      {
        if Lost(s, j) {
          LostRun(s, more, j);
          EndedNotLost(items, acts + more, j);
        }
      }
    }
  }

  // From the start: the shipped kind of list, one call linked to one go, can finish; no list with two
  // calls ever does.
  lemma SomeRunFinishesIff(items: seq<Item>)
    requires WellFormed(items) && Unstarted(items)
    ensures (exists acts :: Exec(Init(items), acts).core.pc.Quit?) <==> Finishable(items)
  {
    FinishesIff(items, []);
    var s := Exec(Init(items), []);
    assert NoneLost(s);
    if more :| Exec(Init(items), [] + more).core.pc.Quit? {
      assert [] + more == more;
    }
    if acts :| Exec(Init(items), acts).core.pc.Quit? {
      assert [] + acts == acts;
    }
  }
}
