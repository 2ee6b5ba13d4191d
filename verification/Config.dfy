/**
  The lists a configuration gives, and what becomes of the one that is shipped.
 */
module Config {
  import opened Bits
  import opened Packets
  import opened NetPackets
  import opened Requester
  import opened System
  import opened Safety
  import opened Guarantees
  import opened AsCoded

  // Distinct message ids, non-zero for go items; data class; no go item named by two calls.
  ghost predicate GoodConfig(calls: seq<CallCfg>, goes: seq<GoCfg>) {
    && (forall i, j :: 0 <= i < j < |calls| ==> calls[i].msgId != calls[j].msgId)
    && (forall i, j :: 0 <= i < j < |goes| ==> goes[i].msgId != goes[j].msgId)
    && (forall i, j :: 0 <= i < |calls| && 0 <= j < |goes| ==> calls[i].msgId != goes[j].msgId)
    && (forall i :: 0 <= i < |calls| ==> calls[i].msgClass == CLASS_DATA)
    && (forall j :: 0 <= j < |goes| ==> goes[j].msgClass == CLASS_DATA && goes[j].msgId != 0)
    && (forall i, k, j :: 0 <= i < k < |calls| && 0 <= j < |goes| ==>
      !(Names(calls[i], goes[j]) && Names(calls[k], goes[j])))
  }

  predicate Names(c: CallCfg, g: GoCfg) {
    c.goMsgId == g.msgId
  }

  lemma TriggersNames(calls: seq<CallCfg>, goes: seq<GoCfg>, i: nat, j: nat)
    requires GoodConfig(calls, goes) && i < |calls| + |goes| && j < |calls| + |goes|
    ensures Triggers(InitialItems(calls, goes), i, j) <==> i < |calls| <= j && Names(calls[i], goes[j - |calls|])
  {
    if j >= |calls| {
      assert goes[j - |calls|].msgId != 0;
    }
  }

  lemma DistinctItems(calls: seq<CallCfg>, goes: seq<GoCfg>, i: nat, j: nat)
    requires GoodConfig(calls, goes) && i < j < |calls| + |goes|
    ensures InitialItems(calls, goes)[i].msg.msgId != InitialItems(calls, goes)[j].msg.msgId
  {
    var n := |calls|;
    if j < n {
      assert calls[i].msgId != calls[j].msgId;
    } else if i < n {
      assert calls[i].msgId != goes[j - n].msgId;
    } else {
      assert goes[i - n].msgId != goes[j - n].msgId;
    }
  }

  // A good configuration gives a well-formed list in its initial states.
  lemma GoodConfigWellFormed(calls: seq<CallCfg>, goes: seq<GoCfg>)
    requires GoodConfig(calls, goes)
    ensures WellFormed(InitialItems(calls, goes)) && Unstarted(InitialItems(calls, goes))
  {
    var items := InitialItems(calls, goes);
    forall i, j | 0 <= i < j < |items|
      ensures items[i].msg.msgId != items[j].msg.msgId
    {
      DistinctItems(calls, goes, i, j);
    }
    forall i, j | 0 <= i < |items| && 0 <= j < |items| && Triggers(items, i, j)
      ensures items[i].msg.reqTyp == USR_CALL
    {
      TriggersNames(calls, goes, i, j);
    }
    forall i, k, j | 0 <= i < |items| && 0 <= k < |items| && 0 <= j < |items| && Triggers(items, i, j)
      && Triggers(items, k, j)
      ensures i == k
    {
      TriggersNames(calls, goes, i, j);
      TriggersNames(calls, goes, k, j);
    }
  }

  // ---------- from the configuration to the stops ----------

  // The log holds a stop at this floor for this message id.
  ghost predicate StopLogged(served: seq<Request>, id: word, floor: byte) {
    exists k :: 0 <= k < |served| && served[k].msgId == id && served[k].floor == floor
  }

  lemma LogsStop(served: seq<Request>, item: Item)
    requires StoppedFor(served, item)
    ensures StopLogged(served, item.msg.msgId, item.msg.floor)
  {
    var k :| 0 <= k < |served| && served[k].msgId == item.msg.msgId && served[k].floor == item.msg.floor;
  }

  lemma FinalStop(items: seq<Item>, acts: seq<Action>, j: nat)
    requires WellFormed(items) && Unstarted(items) && j < |items| && Exec(Init(items), acts).core.pc.Quit?
    ensures StopLogged(Exec(Init(items), acts).core.served, items[j].msg.msgId, items[j].msg.floor)
  {
    EndToEnd(items, acts);
    RequestsFixed(items, acts);
    var c := Exec(Init(items), acts).core;
    LogsStop(c.served, c.items[j]);
  }

  // In every run that quits, the car has stopped for every entry of the configuration, at its own floor.
  lemma QuitServesConfig(calls: seq<CallCfg>, goes: seq<GoCfg>, acts: seq<Action>)
    requires GoodConfig(calls, goes) && Exec(Init(InitialItems(calls, goes)), acts).core.pc.Quit?
    ensures var served := Exec(Init(InitialItems(calls, goes)), acts).core.served;
      && (forall i :: 0 <= i < |calls| ==> StopLogged(served, calls[i].msgId, calls[i].floor))
      && (forall j :: 0 <= j < |goes| ==> StopLogged(served, goes[j].msgId, goes[j].floor))
  {
    var items := InitialItems(calls, goes);
    var served := Exec(Init(items), acts).core.served;
    GoodConfigWellFormed(calls, goes);
    forall j | 0 <= j < |items|
      ensures StopLogged(served, items[j].msg.msgId, items[j].msg.floor)
    {
      FinalStop(items, acts, j);
    }
    InitialCarried(calls, goes);
    EntriesLogged(items, calls, goes, served);
  }

  lemma EntriesLogged(items: seq<Item>, calls: seq<CallCfg>, goes: seq<GoCfg>, served: seq<Request>)
    requires Carried(items, calls, goes)
    requires forall j :: 0 <= j < |items| ==> StopLogged(served, items[j].msg.msgId, items[j].msg.floor)
    ensures forall i :: 0 <= i < |calls| ==> StopLogged(served, calls[i].msgId, calls[i].floor)
    ensures forall j :: 0 <= j < |goes| ==> StopLogged(served, goes[j].msgId, goes[j].floor)
  {
    forall i | 0 <= i < |calls|
      ensures StopLogged(served, calls[i].msgId, calls[i].floor)
    {
      assert CallCarried(items[i], calls[i]);
    }
    forall j | 0 <= j < |goes|
      ensures StopLogged(served, goes[j].msgId, goes[j].floor)
    {
      assert GoCarried(items[|calls| + j], goes[j]);
    }
  }

  // ---------- the shipped configuration ----------

  const SHIPPED_CALL: CallCfg := CallCfg(5, 1000, 53, 2, 10, 3, 1, 57)
  const SHIPPED_GO: GoCfg := GoCfg(5, 1000, 57, 2, 20, 5)

  // A call up from floor 3 and its go to floor 5: the code can finish it from the start, but not once
  // the controller has idled through one turn before the first request.
  lemma ShippedOutcome(upwards: bool)
    ensures var s := Init(InitialItems([SHIPPED_CALL], [SHIPPED_GO]));
      && (exists acts :: AsWritten(s, acts) && Exec(s, acts).core.pc.Quit?)
      && !(exists more ::
        AsWritten(Next(s, PreProcess(upwards)), more) && Exec(Next(s, PreProcess(upwards)), more).core.pc.Quit?)
  {
    var items := InitialItems([SHIPPED_CALL], [SHIPPED_GO]);
    GoodConfigWellFormed([SHIPPED_CALL], [SHIPPED_GO]);
    assert Triggers(items, 0, 1);
    StartFinishesIff(items);
    IdledFinishesIff(items, upwards);
  }
}
