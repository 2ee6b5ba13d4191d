/**
  Item states only move forward: the measure of progress.
 */
module Forward {
  import opened Requester
  import opened System
  import opened Safety

  // One step forward, in the order of the life of an item; NACKED is never entered.
  predicate Follows(a: CallGoState, b: CallGoState) {
    match a
    case RESET => b == READY2GO
    case READY2GO => b == IN_PROGRESS
    case IN_PROGRESS => b == ACKED
    case ACKED => b == REACHED
    case REACHED => b == FINISHED
    case _ => false
  }

  predicate Advance(a: CallGoState, b: CallGoState) {
    a == b || Follows(a, b)
  }

  function Rank(state: CallGoState): nat {
    match state
    case RESET => 6
    case READY2GO => 5
    case IN_PROGRESS => 4
    case ACKED => 3
    case NACKED => 2
    case REACHED => 1
    case FINISHED => 0
  }

  function RankSum(items: seq<Item>): nat {
    if items == [] then 0 else RankSum(items[..|items| - 1]) + Rank(items[|items| - 1].state)
  }

  ghost predicate Advances(a: seq<Item>, b: seq<Item>) {
    |a| == |b| && forall j :: 0 <= j < |a| ==> Advance(a[j].state, b[j].state)
  }

  ghost predicate SameStates(a: seq<Item>, b: seq<Item>) {
    |a| == |b| && forall j :: 0 <= j < |a| ==> a[j].state == b[j].state
  }

  // The summed rank falls at every change of a state.
  lemma {:induction false} RankFalls(a: seq<Item>, b: seq<Item>)
    requires Advances(a, b)
    ensures RankSum(b) <= RankSum(a)
    ensures RankSum(b) == RankSum(a) <==> SameStates(a, b)
  {
    if a == [] {
    } else {
      var n := |a| - 1;
      RankFalls(a[..n], b[..n]);
      assert Advance(a[n].state, b[n].state);
      if SameStates(a, b) {
        assert SameStates(a[..n], b[..n]);
      }
      if RankSum(b) == RankSum(a) {
        assert forall j :: 0 <= j < n ==> a[..n][j].state == b[..n][j].state;
      }
    }
  }

  lemma {:induction false} RankZero(items: seq<Item>)
    ensures RankSum(items) == 0 <==> Finished(items) == |items|
    ensures Finished(items) <= |items|
  {
    if items == [] {
    } else {
      RankZero(items[..|items| - 1]);
    }
  }

  lemma DeliveryAdvances(s: Sys, j: nat)
    requires Inv(s) && s.rcvd < |s.sent| && j < |s.core.items|
    ensures Advance(s.core.items[j].state, OnReply(s.core.items, s.sent[s.rcvd])[j].state)
  {
    var r := s.sent[s.rcvd];
    var id := s.core.items[j].msg.msgId;
    assert ItemOk(s, j);
    if r.msgId == id {
      FindIs(s.core.items, j);
      DeliveredItem(s, j);
      DeliveredWire(s, id);
    }
  }

  lemma SelectAdvances(s: Sys, readable: bool)
    requires Inv(s)
    ensures Advances(s.core.items, Next(s, Select(readable)).core.items)
  {
    if s.core.pc.Selecting? && readable && s.rcvd < |s.sent| {
      forall j | 0 <= j < |s.core.items|
        ensures Advance(s.core.items[j].state, OnReply(s.core.items, s.sent[s.rcvd])[j].state)
      {
        DeliveryAdvances(s, j);
      }
    }
  }

  lemma ScheduleAdvances(s: Sys)
    requires Inv(s)
    ensures Advances(s.core.items, ScheduleStep(s.core).items)
  {
    if s.core.pc.Scanning? && s.core.pc.i < |s.core.items| {
      var i := s.core.pc.i;
      assert ItemOk(s, i);
      if s.core.items[i].state == REACHED {
        FinishLinks(s.core.items, ScheduleStep(s.core).items, i);
      }
    }
  }

  // Every step of every run moves each item's state one step forward or leaves it.
  lemma NextAdvances(s: Sys, a: Action)
    requires Inv(s)
    ensures Advances(s.core.items, Next(s, a).core.items)
  {
    match a {
      case Schedule => ScheduleAdvances(s);
      case Select(readable) => SelectAdvances(s, readable);
      case _ => ItemsLeft(s, a);
    }
  }

  ghost predicate NotBehind(a: seq<Item>, b: seq<Item>) {
    && |a| == |b| && RankSum(b) <= RankSum(a)
    && forall j :: 0 <= j < |a| ==> Rank(b[j].state) <= Rank(a[j].state)
  }

  lemma NotBehindTrans(a: seq<Item>, b: seq<Item>, c: seq<Item>)
    requires NotBehind(a, b) && NotBehind(b, c)
    ensures NotBehind(a, c)
  {
    assert forall j :: 0 <= j < |a| ==> Rank(b[j].state) <= Rank(a[j].state);
  }

  lemma AdvancesRank(a: seq<Item>, b: seq<Item>)
    requires Advances(a, b)
    ensures NotBehind(a, b)
    ensures !SameStates(a, b) ==> RankSum(b) < RankSum(a)
  {
    RankFalls(a, b);
    forall j | 0 <= j < |a|
      ensures Rank(b[j].state) <= Rank(a[j].state)
    {
      assert Advance(a[j].state, b[j].state);
    }
  }

  lemma NextRank(s: Sys, a: Action)
    requires Inv(s)
    ensures Inv(Next(s, a)) && NotBehind(s.core.items, Next(s, a).core.items)
    ensures !SameStates(s.core.items, Next(s, a).core.items) ==> RankSum(Next(s, a).core.items) < RankSum(s.core.items)
  {
    NextKeeps(s, a);
    NextAdvances(s, a);
    AdvancesRank(s.core.items, Next(s, a).core.items);
  }

  lemma {:induction false} ExecRank(s: Sys, more: seq<Action>)
    requires Inv(s)
    ensures Inv(Exec(s, more)) && NotBehind(s.core.items, Exec(s, more).core.items)
    decreases |more|
  {
    if more == [] {
    } else {
      var t := Exec(s, more[..|more| - 1]);
      var a := more[|more| - 1];
      ExecRank(s, more[..|more| - 1]);
      NextRank(t, a);
      NotBehindTrans(s.core.items, t.core.items, Next(t, a).core.items);
    }
  }

  // Over any stretch of any run no item's state moves back.
  lemma RunRank(items: seq<Item>, acts: seq<Action>, more: seq<Action>)
    requires WellFormed(items) && Unstarted(items)
    ensures NotBehind(Exec(Init(items), acts).core.items, Exec(Init(items), acts + more).core.items)
  {
    RunKeeps(items, acts);
    ExecRank(Exec(Init(items), acts), more);
    ExecConcat(Init(items), acts, more);
  }

  // The quit test succeeds exactly when the measure is used up.
  lemma QuitAtRankZero(items: seq<Item>, acts: seq<Action>)
    requires WellFormed(items) && Unstarted(items)
    ensures var c := Exec(Init(items), acts).core;
      c.allDone == |c.items| <==> RankSum(c.items) == 0
  {
    RunKeeps(items, acts);
    RankZero(Exec(Init(items), acts).core.items);
  }
}
