/**
  Inevitability: on every infinite schedule that neglects no action for ever, the requester quits.
 */
module Fairness {
  import opened Requester
  import opened Runs
  import opened System
  import opened Safety
  import opened Forward
  import opened Routing
  import opened Progress
  import opened AsCoded

  // ---------- infinite schedules ----------

  function State(s: Sys, sched: nat -> Action, n: nat): Sys {
    After(Next, s, sched, n)
  }

  ghost predicate Ends(s: Sys, sched: nat -> Action) {
    exists k: nat :: State(s, sched, k).core.pc.Quit?
  }

  ghost predicate Recurs(sched: nat -> Action, a: Action, n: nat) {
    exists m: nat :: m >= n && Kind(sched(m)) == Kind(a)
  }

  // Every action that drops no packet is taken again and again; drains only if they are asked for.
  ghost predicate Fair(sched: nat -> Action, drains: bool) {
    forall a, n: nat :: Willing(a) && (a.PreProcess? ==> drains) ==> Recurs(sched, a, n)
  }

  ghost predicate AllWilling(sched: nat -> Action) {
    forall n: nat :: Willing(sched(n))
  }

  // The schedule drains fairly, or no request ever goes aside.
  ghost predicate SidesServed(s: Sys, sched: nat -> Action) {
    Fair(sched, true) || (Fair(sched, false) && forall n: nat :: SidesEmpty(State(s, sched, n).core))
  }

  lemma HelpfulRecurs(s: Sys, sched: nat -> Action, n: nat)
    requires SidesServed(s, sched) && Bounded(State(s, sched, n))
    ensures Recurs(sched, Helpful(State(s, sched, n)), n)
  {
    var t := State(s, sched, n);
    HelpfulWilling(t);
    assert SidesEmpty(t.core) ==> !Helpful(t).PreProcess?;
  }

  // ---------- waiting for the helpful action ----------

  ghost predicate SameMeasure(t: Sys, s: Sys)
    requires Bounded(s) && Bounded(t)
  {
    && RankSum(t.core.items) == RankSum(s.core.items) && HandRank(t.core.pc) == HandRank(s.core.pc)
    && SameControl(t, s) && |t.sent| - t.rcvd == |s.sent| - s.rcvd && Lap(t) == Lap(s)
  }

  // A lower live state, or the end.
  ghost predicate Fell(t: Sys, s: Sys) {
    t.core.pc.Quit? || (Live(t) && Bounded(s) && Lower(t, s))
  }

  // The same measure, and the same action helps.
  ghost predicate Stays(t: Sys, s: Sys) {
    Bounded(s) && Bounded(t) && SameMeasure(t, s) && Helpful(t) == Helpful(s)
  }

  predicate Helps(s: Sys, a: Action) {
    Kind(a) == Kind(Helpful(s))
  }

  ghost predicate Running(s: Sys) {
    Live(s) && !s.core.pc.Quit?
  }

  lemma FellThenStays(u: Sys, t: Sys, s: Sys)
    requires Fell(u, t) && Stays(t, s)
    ensures Fell(u, s)
  {
  }

  lemma SteppedFell(s: Sys, a: Action, t: Sys)
    requires Bounded(s) && Stepped(s, a, t)
    ensures t.core.pc.Quit? || Lower(t, s) || (Stays(t, s) && !Helps(s, a))
  {
    if !t.core.pc.Quit? && !Lower(t, s) {
      IdledSame(t, s);
    }
  }

  lemma WaitStep(s: Sys, a: Action)
    requires Running(s) && Willing(a)
    ensures var t := Next(s, a); Fell(t, s) || (Running(t) && Stays(t, s) && !Helps(s, a))
  {
    StepLowers(s, a);
    SteppedFell(s, a, Next(s, a));
  }

  lemma SystemWaits()
    ensures Waits(Next, Running, Fell, Stays, Helps, Willing)
  {
    forall s, a | Running(s) && Willing(a)
      ensures Fell(Next(s, a), s) || (Running(Next(s, a)) && Stays(Next(s, a), s) && !Helps(s, a))
    {
      WaitStep(s, a);
    }
    forall u, t, s | Fell(u, t) && Stays(t, s)
      ensures Fell(u, s)
    {
      FellThenStays(u, t, s);
    }
  }

  lemma FallsOrQuits(s: Sys, sched: nat -> Action, n: nat) returns (k: nat)
    requires Running(State(s, sched, n)) && AllWilling(sched) && SidesServed(s, sched)
    ensures Fell(State(s, sched, k), State(s, sched, n))
  {
    HelpfulRecurs(s, sched, n);
    var m: nat :| m >= n && Kind(sched(m)) == Kind(Helpful(State(s, sched, n)));
    SystemWaits();
    k := Wait(Next, Running, Fell, Stays, Helps, Willing, s, sched, n, m);
  }

  lemma {:induction false} QuitsFrom(s: Sys, sched: nat -> Action, n: nat, t: Sys) returns (k: nat)
    requires t == State(s, sched, n) && Live(t) && AllWilling(sched) && SidesServed(s, sched)
    ensures State(s, sched, k).core.pc.Quit?
    decreases RankSum(t.core.items), HandRank(t.core.pc), |t.wrote| - t.taken, NetRank(t.core.net),
      |t.core.ctrl.up| + |t.core.ctrl.down|, |t.core.ctrl.current|, CarRank(t.core.car), |t.sent| - t.rcvd, Lap(t)
  {
    k := n;
    if !t.core.pc.Quit? {
      k := FallsOrQuits(s, sched, n);
      var u := State(s, sched, k);
      if !u.core.pc.Quit? {
        k := QuitsFrom(s, sched, k, u);
      }
    }
  }

  // From every live state, whichever way each drain goes: a fair schedule ends with the requester quitting.
  lemma Inevitable(s: Sys, sched: nat -> Action)
    requires Live(s) && AllWilling(sched) && Fair(sched, true)
    ensures Ends(s, sched)
  {
    var k := QuitsFrom(s, sched, 0, s);
  }

  // ---------- the same in the code, which drains nothing ----------

  ghost predicate SmoothKnown(s: Sys) {
    Inv(s) && Finishable(s.core.items) && Smooth(s)
  }

  predicate NotDraining(s: Sys, a: Action) {
    !a.PreProcess?
  }

  // From a live state in which every request to come lies ahead, without idle turns.
  lemma InevitableAhead(s: Sys, sched: nat -> Action)
    requires Live(s) && Smooth(s) && AllWilling(sched) && Fair(sched, false)
    requires forall n: nat :: !sched(n).PreProcess?
    ensures Ends(s, sched)
  {
    forall t, a | SmoothKnown(t) && NotDraining(t, a)
      ensures SmoothKnown(Next(t, a))
    {
      SmoothStep(t, a);
    }
    forall n: nat
      ensures SidesEmpty(State(s, sched, n).core)
    {
      assert forall k: nat :: Obeys(Next, NotDraining, s, sched, k);
      AfterKeeps(Next, NotDraining, SmoothKnown, s, sched, 0, n);
    }
    var k := QuitsFrom(s, sched, 0, s);
  }

  // A schedule of the code: each drain comes where both scans end.
  ghost predicate AllAllowed(s: Sys, sched: nat -> Action) {
    forall n: nat :: Obeys(Next, Allowed, s, sched, n)
  }

  lemma StraightForever(s: Sys, sched: nat -> Action)
    requires Straight(s) && AllAllowed(s, sched)
    ensures forall n: nat :: SidesEmpty(State(s, sched, n).core)
  {
    forall t, a | Straight(t) && Allowed(t, a)
      ensures Straight(Next(t, a))
    {
      StraightNext(t, a);
    }
    forall n: nat
      ensures SidesEmpty(State(s, sched, n).core)
    {
      AfterKeeps(Next, Allowed, Straight, s, sched, 0, n);
    }
  }

  // ---------- a fair schedule with a given beginning ----------

  // Every kind of action but drains, over and over.
  function Cycle(n: nat): Action {
    match n % 12
    case 0 => Schedule
    case 1 => Select(true)
    case 2 => Write(true)
    case 3 => QuitTest
    case 4 => NetRead
    case 5 => NetDispatch
    case 6 => NetEnqueue(0)
    case 7 => Pop
    case 8 => Report
    case 9 => Arrive
    case 10 => Stop
    case _ => CloseDoor
  }

  function Place(a: Action): nat {
    match a
    case Schedule => 0
    case Select(_) => 1
    case Write(_) => 2
    case QuitTest => 3
    case NetRead => 4
    case NetDispatch => 5
    case NetEnqueue(_) => 6
    case Pop => 7
    case Report => 8
    case Arrive => 9
    case Stop => 10
    case _ => 11
  }

  function Begun(acts: seq<Action>): (sched: nat -> Action) {
    (n: nat) => if n < |acts| then acts[n] else Cycle(n)
  }

  lemma CycleAt(q: nat, a: Action)
    requires Willing(a) && !a.PreProcess?
    ensures Kind(Cycle(12 * q + Place(a))) == Kind(a)
  {
    assert (12 * q + Place(a)) % 12 == Place(a);
  }

  lemma BegunFair(acts: seq<Action>)
    requires AllAreWilling(acts)
    ensures Fair(Begun(acts), false) && AllWilling(Begun(acts))
  {
    var sched := Begun(acts);
    forall a, n: nat | Willing(a) && !a.PreProcess?
      ensures Recurs(sched, a, n)
    {
      var m: nat := 12 * (n + |acts|) + Place(a);
      CycleAt(n + |acts|, a);
      assert Kind(sched(m)) == Kind(a);
    }
  }

  lemma BegunIsRun(s: Sys, acts: seq<Action>, n: nat)
    requires n <= |acts|
    ensures State(s, Begun(acts), n) == Exec(s, acts[..n])
  {
    AfterIsRun(Next, s, Begun(acts), acts, n);
  }

  lemma BegunObeys(s: Sys, acts: seq<Action>, n: nat)
    requires AsWritten(s, acts)
    ensures Obeys(Next, Allowed, s, Begun(acts), n)
  {
    if n < |acts| {
      BegunIsRun(s, acts, n);
      assert Allowed(Run(Next, s, acts[..n]), acts[n]);
    } else {
      assert !Cycle(n).PreProcess?;
    }
  }

  lemma BegunAllowed(s: Sys, acts: seq<Action>)
    requires AsWritten(s, acts)
    ensures AllAllowed(s, Begun(acts)) && State(s, Begun(acts), |acts|) == Exec(s, acts)
  {
    forall n: nat
      ensures Obeys(Next, Allowed, s, Begun(acts), n)
    {
      BegunObeys(s, acts, n);
    }
    BegunIsRun(s, acts, |acts|);
    assert acts[..|acts|] == acts;
  }

  // ---------- exactly when every fair schedule of the code ends ----------

  lemma QuitStays(s: Sys, a: Action)
    requires s.core.pc.Quit?
    ensures Next(s, a).core.pc.Quit?
  {
    if ByController(a) {
      ControllerLeaves(s, a);
    }
  }

  lemma {:induction false} QuitForever(s: Sys, sched: nat -> Action, m: nat, n: nat)
    requires m <= n && State(s, sched, m).core.pc.Quit?
    ensures State(s, sched, n).core.pc.Quit?
    decreases n - m
  {
    if m < n {
      QuitForever(s, sched, m, n - 1);
      AfterNext(Next, s, sched, n - 1);
      QuitStays(State(s, sched, n - 1), sched(n - 1));
    }
  }

  ghost predicate Barred(s: Sys, j: nat) {
    Known(s) && (Aside(s, j) || Shut(s, j))
  }

  lemma BarredForever(s: Sys, sched: nat -> Action, m: nat, n: nat, j: nat)
    requires AllAllowed(s, sched) && m <= n && Barred(State(s, sched, m), j)
    ensures Barred(State(s, sched, n), j)
  {
    var inv := (t: Sys) => Barred(t, j);
    forall t, a | inv(t) && Allowed(t, a)
      ensures inv(Next(t, a))
    {
      KnownNext(t, a);
      BarredNext(t, a, j);
    }
    AfterKeeps(Next, Allowed, inv, s, sched, m, n);
  }

  lemma BarredNotQuit(s: Sys, j: nat)
    requires Barred(s, j)
    ensures !s.core.pc.Quit?
  {
    BarredUnfinished(s, j);
    FinishedBound(s.core.items);
  }

  // A schedule along which some item gets barred never ends.
  lemma NeverEnds(s: Sys, sched: nat -> Action, m: nat, j: nat)
    requires AllAllowed(s, sched) && Barred(State(s, sched, m), j)
    ensures !Ends(s, sched)
  {
    if k: nat :| State(s, sched, k).core.pc.Quit? {
      var n := m + k;
      QuitForever(s, sched, k, n);
      BarredForever(s, sched, m, n, j);
      BarredNotQuit(State(s, sched, n), j);
    }
  }

  lemma SomeNeverEnds(items: seq<Item>) returns (sched: nat -> Action)
    requires WellFormed(items) && Unstarted(items) && Finishable(items) && !(CallsAhead(items) && Level(items))
    ensures AllWilling(sched) && Fair(sched, false) && AllAllowed(Init(items), sched) && !Ends(Init(items), sched)
  {
    var acts := CanBar(items);
    sched := Begun(acts);
    BegunFair(acts);
    BegunAllowed(Init(items), acts);
    KnownRun(items, acts);
    var t := Exec(Init(items), acts);
    var j :| 0 <= j < |t.core.items| && (Aside(t, j) || Shut(t, j));
    NeverEnds(Init(items), sched, |acts|, j);
  }

  lemma StraightEnds(items: seq<Item>, sched: nat -> Action)
    requires WellFormed(items) && Unstarted(items) && Finishable(items) && CallsAhead(items) && Level(items)
    requires AllWilling(sched) && Fair(sched, false) && AllAllowed(Init(items), sched)
    ensures Ends(Init(items), sched)
  {
    StraightInit(items);
    StraightForever(Init(items), sched);
    LiveInit(items);
    var k := QuitsFrom(Init(items), sched, 0, Init(items));
  }

  // For a finishable list: every fair schedule that the code allows and that drops no packet ends with
  // the requester quitting, if and only if the call lies ahead and the go asks for the floor of its call.
  lemma EveryScheduleEndsIff(items: seq<Item>)
    requires WellFormed(items) && Unstarted(items) && Finishable(items)
    ensures (forall sched: nat -> Action ::
               AllWilling(sched) && Fair(sched, false) && AllAllowed(Init(items), sched) ==> Ends(Init(items), sched))
      <==> CallsAhead(items) && Level(items)
  {
    if CallsAhead(items) && Level(items) {
      forall sched: nat -> Action | AllWilling(sched) && Fair(sched, false) && AllAllowed(Init(items), sched)
        ensures Ends(Init(items), sched)
      {
        StraightEnds(items, sched);
      }
    } else {
      var sched := SomeNeverEnds(items);
    }
  }
}
