/** What the greedy answer means, and previews that resume a bounded plan until it settles. */
module PortPreview {
  import opened Wrappers
  import opened PortSlots
  import opened PortPlanSpec
  import opened PortPlanner
  import opened PortPlanning

  // The greedy answer, read slot by slot --------------------------------------------

  /** An explicit slot, or an automatic slot earlier in key order, has this port. */
  ghost predicate TakenBefore(o: seq<PortSlot>, ports: map<string, u16>, j: nat, port: u16)
    requires j <= |o|
  {
    || port in ExplicitPorts(o)
    || exists k :: 0 <= k < j && Automatic(o[k]) && o[k].key in ports && ports[o[k].key] == port
  }

  /** Automatic slot j has the least port at or above its start that is in range, untaken and free. */
  ghost predicate TakesLeast(o: seq<PortSlot>, insp: Inspector, ports: map<string, u16>, j: nat)
    requires j < |o|
  {
    && o[j].key in ports && Start(o[j]).Some?
    && var port := ports[o[j].key];
    && Start(o[j]).value <= port <= o[j].max && o[j].min <= port
    && insp(0, port) == Free && !TakenBefore(o, ports, j, port)
    && forall q: u16 | Start(o[j]).value <= q < port && o[j].min <= q ::
         TakenBefore(o, ports, j, q) || (insp(0, q).Refused? && insp(0, q).reason != Unavailable)
  }

  lemma UsedIsTaken(o: seq<PortSlot>, j: nat, picks: map<string, u16>, ports: map<string, u16>, port: u16)
    requires WellFormed(o) && j <= |o| && picks.Keys == AutoKeys(o, j)
    requires forall key | key in picks :: key in ports && ports[key] == picks[key]
    ensures port in Used(o, picks) <==> TakenBefore(o, ports, j, port)
  {
    if port in picks.Values {
      var key :| key in picks && picks[key] == port;
      var k :| 0 <= k < j && Automatic(o[k]) && o[k].key == key;
    }
    if k :| 0 <= k < j && Automatic(o[k]) && o[k].key in ports && ports[o[k].key] == port {
      assert o[k].key in AutoKeys(o, j);
      assert picks[o[k].key] == port;
    }
  }

  lemma {:induction false} GreedyKeeps(
    o: seq<PortSlot>, insp: Inspector, i: nat, picks: map<string, u16>, ports: map<string, u16>)
    requires WellFormed(o) && i <= |o| && picks.Keys == AutoKeys(o, i)
    requires GreedyFrom(o, insp, i, picks) == Complete(ports)
    ensures forall key | key in picks :: key in ports && ports[key] == picks[key]
    ensures forall j | i <= j < |o| && Automatic(o[j]) :: TakesLeast(o, insp, ports, j)
    decreases |o| - i
  {
    hide Used, TakenBefore;
    if i < |o| {
      AutoKeysStep(o, i);
      if !Automatic(o[i]) {
        GreedyKeeps(o, insp, i + 1, picks, ports);
      } else {
        var start := Start(o[i]).value;
        var port := FirstDecisive(o[i], Used(o, picks), insp, start).value;
        var grown := picks[o[i].key := port];
        assert o[i].key !in picks;
        GreedyKeeps(o, insp, i + 1, grown, ports);
        assert forall key | key in picks :: key in grown && grown[key] == picks[key];
        LeastHere(o, insp, i, picks, ports);
      }
    }
  }

  lemma LeastHere(
    o: seq<PortSlot>, insp: Inspector, i: nat, picks: map<string, u16>, ports: map<string, u16>)
    requires WellFormed(o) && i < |o| && Automatic(o[i]) && Start(o[i]).Some? && picks.Keys == AutoKeys(o, i)
    requires forall key | key in picks :: key in ports && ports[key] == picks[key]
    requires o[i].key in ports && insp(0, ports[o[i].key]) == Free
    requires FirstDecisive(o[i], Used(o, picks), insp, Start(o[i]).value) == Some(ports[o[i].key])
    ensures TakesLeast(o, insp, ports, i)
  {
    hide Used, TakenBefore;
    var start := Start(o[i]).value;
    FirstDecisiveIsLeast(o[i], Used(o, picks), insp, start);
    forall q: u16 ensures q in Used(o, picks) <==> TakenBefore(o, ports, i, q) {
      UsedIsTaken(o, i, picks, ports, q);
    }
    var port := ports[o[i].key];
    forall q: u16 | start <= q < port && o[i].min <= q
      ensures TakenBefore(o, ports, i, q) || (insp(0, q).Refused? && insp(0, q).reason != Unavailable)
    {
      assert !Decisive(o[i], Used(o, picks), insp, q);
      assert insp(0, q) == if insp(0, q).Free? then Free else Refused(insp(0, q).reason);
    }
  }

  /** A completed greedy plan gives every automatic slot the least port it may have. */
  lemma GreedyTakesLeast(slots: seq<PortSlot>, insp: Inspector)
    requires GreedyPlan(slots, insp).Complete?
    ensures var o, ports := SortByKey(slots), GreedyPlan(slots, insp).ports;
      && WellFormed(o)
      && (forall j | 0 <= j < |o| && Automatic(o[j]) :: TakesLeast(o, insp, ports, j))
      && (forall j | 0 <= j < |o| && !Automatic(o[j]) :: insp(0, ExplicitPort(o[j]).value) == Free)
  {
    var o := SortByKey(slots);
    NoFaultIsWellFormed(o);
    FaultIsRejected(o, 0);
    RefusalIsRejected(o, insp, 0);
    GreedyKeeps(o, insp, 0, map[], GreedyPlan(slots, insp).ports);
  }

  lemma {:induction false} FaultIsRejected(o: seq<PortSlot>, i: nat)
    requires i <= |o|
    ensures FirstFault(o, i).Some? ==> FirstFault(o, i).value.Rejected?
    decreases |o| - i
  {
    if i < |o| { FaultIsRejected(o, i + 1); }
  }

  lemma {:induction false} RefusalIsRejected(o: seq<PortSlot>, insp: Inspector, i: nat)
    requires i <= |o|
    ensures FirstRefusal(o, insp, i).Some? ==> FirstRefusal(o, insp, i).value.Rejected?
    ensures FirstRefusal(o, insp, i).None? ==>
      forall j | i <= j < |o| && ExplicitPort(o[j]).Some? :: insp(0, ExplicitPort(o[j]).value) == Free
    decreases |o| - i
  {
    if i < |o| { RefusalIsRejected(o, insp, i + 1); }
  }

  // Resuming ------------------------------------------------------------------------

  lemma FreshIsResumable(slots: seq<PortSlot>, insp: Inspector)
    ensures Resumable(slots, insp, EMPTY_CURSOR)
  {
    var o := SortByKey(slots);
    assert AtSlot(o, insp, EMPTY_CURSOR, 0);
  }

  /**
   * Repeats one bounded call on the cursor of the one before, however the attempt limits and the
   * deadlines cut the work up.
   */
  method Preview(slots: seq<PortSlot>, insp: Inspector, clocks: nat -> Clock, limits: nat -> nat, rounds: nat)
    returns (plan: PortPlan)
    requires Steady(insp)
    ensures !plan.Incomplete? ==> plan == GreedyPlan(slots, insp)
    ensures plan.Incomplete? ==> Resumable(slots, insp, plan.cursor)
    ensures (forall n :: NeverExpires(clocks(n)) && limits(n) > 0) && rounds > WorkLeft(SortByKey(slots), map[])
      ==> !plan.Incomplete?
  {
    hide Resumable, WorkLeft, NeverExpires, GreedyPlan, Steady, SoundPlan;
    FreshIsResumable(slots, insp);
    var cursor := EMPTY_CURSOR;
    for n := 0 to rounds
      invariant Resumable(slots, insp, cursor)
      invariant (forall k :: NeverExpires(clocks(k)) && limits(k) > 0) ==>
        WorkLeft(SortByKey(slots), cursor.next) + n <= WorkLeft(SortByKey(slots), map[])
    {
      ghost var calls;
      plan, calls := PlanWithBudget(slots, insp, clocks(n), limits(n), cursor);
      if !plan.Incomplete? { return; }
      cursor := plan.cursor;
    }
    plan := Incomplete(cursor);
  }

  /** One call that no deadline and no attempt limit cuts short gives the greedy answer. */
  method PlanUnbounded(slots: seq<PortSlot>, insp: Inspector) returns (plan: PortPlan)
    requires Steady(insp)
    ensures plan == GreedyPlan(slots, insp)
  {
    hide WorkLeft, GreedyPlan, Resumable, Steady, SoundPlan;
    FreshIsResumable(slots, insp);
    ghost var calls;
    var limit := WorkLeft(SortByKey(slots), map[]) + 1;
    plan, calls := PlanWithBudget(slots, insp, n => false, limit, EMPTY_CURSOR);
  }
}
