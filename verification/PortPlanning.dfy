/** One bounded planning call, and the loop that feeds its cursor back until it settles. */
module PortPlanning {
  import opened Wrappers
  import opened PortSlots
  import opened PortPlanSpec
  import opened PortPlanner

  /** What a completed plan gives one slot. */
  ghost predicate SlotHonoured(slot: PortSlot, ports: map<string, u16>, insp: Inspector, calls: seq<u16>) {
    && slot.key in ports
    && if Automatic(slot) then
         Keepable(slot, ports[slot.key]) && InspectedFree(insp, calls, ports[slot.key])
       else
         ExplicitPort(slot) == Some(ports[slot.key]) && slot.min <= ports[slot.key] <= slot.max
  }

  /** What any completed plan guarantees, whatever cursor it was resumed from. */
  ghost predicate SoundPlan(slots: seq<PortSlot>, ports: map<string, u16>, insp: Inspector, calls: seq<u16>) {
    && ports.Keys == (set slot | slot in slots :: slot.key)
    && Injective(ports)
    && forall slot | slot in slots :: SlotHonoured(slot, ports, insp, calls)
  }

  // Retained cursor parts ---------------------------------------------------------

  function RetainChecked(checked: map<string, u16>, planned: map<string, Option<u16>>): map<string, u16> {
    map key | key in checked && key in planned && planned[key] == Some(checked[key]) :: checked[key]
  }

  predicate Retained(o: seq<PortSlot>, key: string, port: u16, explicit: set<u16>) {
    port !in explicit && exists i | 0 <= i < |o| :: o[i].key == key && Keepable(o[i], port)
  }

  function RetainSelected(o: seq<PortSlot>, selected: map<string, u16>, explicit: set<u16>): map<string, u16> {
    map key | key in selected && Retained(o, key, selected[key], explicit) :: selected[key]
  }

  lemma RetainedIsSound(o: seq<PortSlot>, selected: map<string, u16>)
    ensures SoundPicks(o, RetainSelected(o, selected, ExplicitPorts(o)))
    ensures SoundPicks(o, selected) ==> RetainSelected(o, selected, ExplicitPorts(o)) == selected
  {
    if SoundPicks(o, selected) {
      forall key | key in selected ensures Retained(o, key, selected[key], ExplicitPorts(o)) {
        assert selected[key] in selected.Values;
      }
    }
  }

  // Completed plans ---------------------------------------------------------------

  lemma {:induction false} ExplicitMapIs(o: seq<PortSlot>)
    requires DistinctKeys(o)
    ensures forall key :: key in ExplicitMap(o) <==>
      exists i | 0 <= i < |o| :: o[i].key == key && ExplicitPort(o[i]).Some?
    ensures forall i | 0 <= i < |o| && ExplicitPort(o[i]).Some? ::
      o[i].key in ExplicitMap(o) && ExplicitMap(o)[o[i].key] == ExplicitPort(o[i]).value
  {
    if o != [] {
      var rest := o[..|o| - 1];
      ExplicitMapIs(rest);
      forall key ensures key in ExplicitMap(o) <==>
          exists i | 0 <= i < |o| :: o[i].key == key && ExplicitPort(o[i]).Some?
      {
        if i :| 0 <= i < |rest| && rest[i].key == key && ExplicitPort(rest[i]).Some? { assert o[i] == rest[i]; }
        if i :| 0 <= i < |o| && o[i].key == key && ExplicitPort(o[i]).Some? {
          assert i < |rest| ==> rest[i] == o[i];
        }
      }
    }
  }

  function Filled(planned: map<string, Option<u16>>, selected: map<string, u16>): map<string, Option<u16>> {
    map key | key in planned.Keys + selected.Keys ::
      if key in selected then Some(selected[key]) else planned[key]
  }

  function Ports(planned: map<string, Option<u16>>): map<string, u16> {
    map key | key in planned && planned[key].Some? :: planned[key].value
  }

  ghost predicate Plans(o: seq<PortSlot>, planned: map<string, Option<u16>>) {
    && planned.Keys == KeysBefore(o, |o|)
    && forall i | 0 <= i < |o| :: planned[o[i].key] == ExplicitPort(o[i])
  }

  lemma EverySlotPlanned(o: seq<PortSlot>, selected: map<string, u16>)
    requires DistinctKeys(o) && SoundPicks(o, selected) && AutoKeys(o, |o|) <= selected.Keys
    requires forall i | 0 <= i < |o| && !Automatic(o[i]) :: ExplicitPort(o[i]).Some?
    ensures (ExplicitMap(o) + selected).Keys == KeysBefore(o, |o|)
  {
    ExplicitMapIs(o);
    forall key | key in KeysBefore(o, |o|) ensures key in ExplicitMap(o) || key in selected {
      var i :| 0 <= i < |o| && o[i].key == key;
      assert Automatic(o[i]) ==> key in AutoKeys(o, |o|);
    }
  }

  /** What a slot brings to the explicit ports, by its key. */
  lemma ExplicitSlot(o: seq<PortSlot>, i: nat)
    requires DistinctKeys(o) && i < |o|
    ensures o[i].key in ExplicitMap(o) <==> ExplicitPort(o[i]).Some?
    ensures ExplicitPort(o[i]).Some? ==> ExplicitMap(o)[o[i].key] == ExplicitPort(o[i]).value
  {
    ExplicitMapIs(o);
    if o[i].key in ExplicitMap(o) {
      var j :| 0 <= j < |o| && o[j].key == o[i].key && ExplicitPort(o[j]).Some?;
      assert j == i;
    }
  }

  lemma FilledKey(o: seq<PortSlot>, planned: map<string, Option<u16>>, selected: map<string, u16>, key: string)
    requires DistinctKeys(o) && Plans(o, planned) && key in planned && key in ExplicitMap(o) + selected
    ensures Filled(planned, selected)[key] == Some((ExplicitMap(o) + selected)[key])
  {
    hide ExplicitMap;
    assert key in KeysBefore(o, |o|);
    var i :| 0 <= i < |o| && o[i].key == key;
    ExplicitSlot(o, i);
  }

  /** Every slot is filled, so the closing search for an empty slot finds none. */
  lemma FilledIsComplete(o: seq<PortSlot>, planned: map<string, Option<u16>>, selected: map<string, u16>)
    requires DistinctKeys(o) && Plans(o, planned)
    requires (ExplicitMap(o) + selected).Keys == KeysBefore(o, |o|)
    ensures forall key | key in Filled(planned, selected) :: Filled(planned, selected)[key].Some?
    ensures Ports(Filled(planned, selected)) == ExplicitMap(o) + selected
  {
    hide ExplicitMap, KeysBefore, DistinctKeys;
    var filled, ports := Filled(planned, selected), ExplicitMap(o) + selected;
    assert planned.Keys == ports.Keys;
    assert filled.Keys == ports.Keys;
    forall key | key in filled ensures filled[key] == Some(ports[key]) {
      FilledKey(o, planned, selected, key);
    }
  }

  lemma PortsDiffer(o: seq<PortSlot>, selected: map<string, u16>, a: string, b: string)
    requires WellFormed(o) && SoundPicks(o, selected) && Injective(selected) && a != b
    requires a in ExplicitMap(o) + selected && b in ExplicitMap(o) + selected
    ensures (ExplicitMap(o) + selected)[a] != (ExplicitMap(o) + selected)[b]
  {
    ExplicitMapIs(o);
    if a in selected {
      assert selected[a] in selected.Values;
      if b !in selected { var j :| 0 <= j < |o| && o[j].key == b && ExplicitPort(o[j]).Some?; }
    } else {
      var i :| 0 <= i < |o| && o[i].key == a && ExplicitPort(o[i]).Some?;
      if b in selected {
        assert selected[b] in selected.Values;
      } else {
        var j :| 0 <= j < |o| && o[j].key == b && ExplicitPort(o[j]).Some?;
      }
    }
  }

  lemma CompleteIsInjective(o: seq<PortSlot>, selected: map<string, u16>)
    requires WellFormed(o) && SoundPicks(o, selected) && Injective(selected)
    ensures Injective(ExplicitMap(o) + selected)
  {
    hide WellFormed, SoundPicks;
    var ports := ExplicitMap(o) + selected;
    forall a, b | a in ports && b in ports && a != b ensures ports[a] != ports[b] {
      PortsDiffer(o, selected, a, b);
    }
  }

  lemma CompleteHonours(
    o: seq<PortSlot>, insp: Inspector, selected: map<string, u16>, calls: seq<u16>, i: nat)
    requires WellFormed(o) && i < |o| && SoundPicks(o, selected) && AutoKeys(o, |o|) <= selected.Keys
    requires forall key | key in selected :: InspectedFree(insp, calls, selected[key])
    ensures SlotHonoured(o[i], ExplicitMap(o) + selected, insp, calls)
  {
    hide InspectedFree, ExplicitMap, ValidSlot;
    ExplicitSlot(o, i);
    var key := o[i].key;
    if Automatic(o[i]) { assert key in AutoKeys(o, |o|); }
    if key in selected {
      var j :| 0 <= j < |o| && o[j].key == key && Keepable(o[j], selected[key]);
      assert j == i;
    }
  }

  lemma CompleteIsSound(
    slots: seq<PortSlot>, o: seq<PortSlot>, insp: Inspector, selected: map<string, u16>, calls: seq<u16>)
    requires o == SortByKey(slots) && WellFormed(o)
    requires SoundPicks(o, selected) && Injective(selected) && AutoKeys(o, |o|) <= selected.Keys
    requires forall key | key in selected :: InspectedFree(insp, calls, selected[key])
    ensures SoundPlan(slots, ExplicitMap(o) + selected, insp, calls)
  {
    hide SlotHonoured, InspectedFree, SoundPicks, Injective;
    var ports := ExplicitMap(o) + selected;
    SortByKeySorts(slots);
    EverySlotPlanned(o, selected);
    CompleteIsInjective(o, selected);
    forall slot | slot in slots ensures SlotHonoured(slot, ports, insp, calls) {
      assert slot in o;
      var i :| 0 <= i < |o| && o[i] == slot;
      CompleteHonours(o, insp, selected, calls, i);
    }
    KeysOfSlots(slots, o);
  }

  lemma KeysOfSlots(slots: seq<PortSlot>, o: seq<PortSlot>)
    requires forall slot :: slot in o <==> slot in slots
    ensures KeysBefore(o, |o|) == set slot | slot in slots :: slot.key
  {
    forall slot | slot in slots ensures slot.key in KeysBefore(o, |o|) {
      var i :| 0 <= i < |o| && o[i] == slot;
    }
  }

  lemma AtSlotMeans(o: seq<PortSlot>, insp: Inspector, c: PortCursor, t: nat)
    requires t <= |o| && AtSlot(o, insp, c, t)
    ensures Injective(c.selected) && SoundPicks(o, c.selected)
    ensures forall key | key in c.selected :: insp(0, c.selected[key]) == Free
  {
  }

  lemma SameStanding(o: seq<PortSlot>, insp: Inspector, c: PortCursor, c': PortCursor, t: nat)
    requires t <= |o| && AtSlot(o, insp, c, t) && c'.selected == c.selected && c'.next == c.next
    ensures AtSlot(o, insp, c', t)
  {
  }

  lemma AtEnd(o: seq<PortSlot>, insp: Inspector, c: PortCursor)
    requires AtSlot(o, insp, c, |o|)
    ensures GreedyFrom(o, insp, 0, map[]) == Complete(ExplicitMap(o) + c.selected)
  {
  }

  lemma StillSound(o: seq<PortSlot>, before: map<string, u16>, after: map<string, u16>)
    requires SoundPicks(o, before) && after.Keys <= before.Keys
    requires forall key | key in after :: after[key] == before[key]
    ensures SoundPicks(o, after)
  {
    forall port | port in after.Values ensures port in before.Values {
      var key :| key in after && after[key] == port;
      assert before[key] == port;
    }
  }

  // One bounded call --------------------------------------------------------------

  /** The part of a call after the explicit ports: re-check, then fill, then assemble. */
  method PlanAutomatic(
    o: seq<PortSlot>, explicit: set<u16>, insp: Inspector, clock: Clock, limit: nat, cursor: PortCursor,
    log0: Log, ghost t: nat)
    returns (stop: Stop, c: PortCursor, log: Log, ghost t': nat)
    requires WellFormed(o) && SoundPicks(o, cursor.selected) && explicit == ExplicitPorts(o) && t <= |o|
    ensures c.checkedExplicit == cursor.checkedExplicit && Advances(cursor.next, c.next)
    ensures stop.Answer? ==> stop.plan.NeedsInput? || stop.plan.Rejected?
    ensures stop.OutOfTime? && NeverExpires(clock) ==> WorkLeft(o, c.next) + limit <= WorkLeft(o, cursor.next)
    ensures stop.Go? ==>
      && SoundPicks(o, c.selected) && Injective(c.selected) && AutoKeys(o, |o|) <= c.selected.Keys
      && forall key | key in c.selected :: InspectedFree(insp, log.calls, c.selected[key])
    ensures Steady(insp) && AtSlot(o, insp, cursor, t) ==>
      && (stop.Answer? ==> GreedyFrom(o, insp, 0, map[]) == stop.plan)
      && (stop.Go? ==> AtSlot(o, insp, c, |o|))
      && (stop.OutOfTime? ==> t' <= |o| && AtSlot(o, insp, c, t'))
  {
    hide AtSlot, InspectedFree, WorkLeft, Used, GreedyFrom, Keepable, ExplicitPorts, AutoKeys;
    t' := t;
    ghost var resumed := Steady(insp) && AtSlot(o, insp, cursor, t);
    if resumed { AtSlotMeans(o, insp, cursor, t); }
    stop, c, log := Revalidate(o, insp, clock, cursor, log0);
    if !stop.Go? { return; }
    StillSound(o, cursor.selected, c.selected);
    WorkFalls(o, cursor.next, c.next);
    var used;
    stop, used := CollectUsed(o, c.selected, explicit);
    if !stop.Go? { return; }
    ghost var calls := log.calls;
    stop, c, log, t' := FillAutomatic(o, insp, clock, limit, c, used, log, t);
    FreeStaysInspected(insp, calls, log.calls);
  }

  /** One call over slots without a fault. */
  method PlanValid(
    slots: seq<PortSlot>, o: seq<PortSlot>, planned: map<string, Option<u16>>, explicit: set<u16>,
    insp: Inspector, clock: Clock, limit: nat, cursor: PortCursor)
    returns (stop: Stop, c: PortCursor, log: Log)
    requires o == SortByKey(slots) && WellFormed(o) && explicit == ExplicitPorts(o)
    ensures stop.Answer? ==> stop.plan.NeedsInput? || stop.plan.Rejected?
    ensures stop.Go? ==>
      && SoundPicks(o, c.selected) && Injective(c.selected) && AutoKeys(o, |o|) <= c.selected.Keys
      && forall key | key in c.selected :: InspectedFree(insp, log.calls, c.selected[key])
    ensures Advances(cursor.next, c.next)
    ensures stop.OutOfTime? && NeverExpires(clock) ==> WorkLeft(o, c.next) + limit <= WorkLeft(o, cursor.next)
    ensures Steady(insp) && Resumable(slots, insp, cursor) ==>
      match stop
      case OutOfTime => Resumable(slots, insp, c)
      case Answer(plan) => plan == Settlement(o, insp)
      case Go => Settlement(o, insp) == Complete(ExplicitMap(o) + c.selected)
  {
    hide AtSlot, WorkLeft, WellFormed, GreedyFrom, SoundPicks, Retained, InspectedFree, Injective;
    ghost var resumed := Steady(insp) && Resumable(slots, insp, cursor);
    ghost var t: nat := 0;
    if resumed {
      t :| t <= |o| && AtSlot(o, insp, cursor, t);
      AtSlotMeans(o, insp, cursor, t);
    }
    RetainedIsSound(o, cursor.selected);
    c := cursor.(
      checkedExplicit := RetainChecked(cursor.checkedExplicit, planned),
      selected := RetainSelected(o, cursor.selected, explicit));
    var checked;
    stop, checked, log := CheckExplicit(o, insp, clock, c.checkedExplicit);
    c := c.(checkedExplicit := checked);
    if resumed { SameStanding(o, insp, cursor, c, t); }
    if stop.Go? {
      stop, c, log, t := PlanAutomatic(o, explicit, insp, clock, limit, c, log, t);
      if resumed && stop.Go? { AtEnd(o, insp, c); }
    }
  }

  /** One call: a deterministic scan bounded by a number of attempts and a deadline. */
  method PlanWithBudget(slots: seq<PortSlot>, insp: Inspector, clock: Clock, limit: nat, cursor: PortCursor)
    returns (plan: PortPlan, ghost calls: seq<u16>)
    ensures plan.Complete? ==> SoundPlan(slots, plan.ports, insp, calls)
    ensures plan.Incomplete? ==> Advances(cursor.next, plan.cursor.next)
    ensures plan.Incomplete? && NeverExpires(clock) ==>
      WorkLeft(SortByKey(slots), plan.cursor.next) + limit <= WorkLeft(SortByKey(slots), cursor.next)
    ensures Steady(insp) && Resumable(slots, insp, cursor) ==>
      if plan.Incomplete? then Resumable(slots, insp, plan.cursor) else plan == GreedyPlan(slots, insp)
  {
    hide Resumable, SoundPlan, Advances, WorkLeft, WellFormed, SoundPicks, InspectedFree, Injective;
    calls := [];
    var o := SortByKey(slots);
    var fault, planned, explicit := Validate(o);
    if fault.Some? { return fault.value, calls; }
    var stop, c, log := PlanValid(slots, o, planned, explicit, insp, clock, limit, cursor);
    calls := log.calls;
    match stop {
      case OutOfTime => plan := Incomplete(c);
      case Answer(answer) => plan := answer;
      case Go =>
        CompleteIsSound(slots, o, insp, c.selected, calls);
        EverySlotPlanned(o, c.selected);
        FilledIsComplete(o, planned, c.selected);
        plan := Complete(Ports(Filled(planned, c.selected)));
    }
  }
}
