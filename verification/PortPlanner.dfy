/** The bounded, resumable scan that proposes host ports for every slot. */
module PortPlanner {
  import opened Wrappers
  import opened PortSlots
  import opened PortPlanSpec

  /** Ports inspected so far in this call, and the number of clock readings. */
  datatype Log = Log(calls: seq<u16>, ticks: nat)

  /** Whether one phase lets the next one run. */
  datatype Stop = Go | OutOfTime | Answer(plan: PortPlan)

  ghost predicate InspectedFree(insp: Inspector, calls: seq<u16>, port: u16) {
    exists n | 0 <= n < |calls| :: calls[n] == port && insp(n, port) == Free
  }

  ghost predicate NeverExpires(clock: Clock) { forall n :: !clock(n) }

  // Resumable state --------------------------------------------------------------

  ghost function AutoKeys(o: seq<PortSlot>, t: nat): set<string>
    requires t <= |o|
  {
    set i | 0 <= i < t && Automatic(o[i]) :: o[i].key
  }

  /** A port an automatic slot may keep. */
  predicate Keepable(slot: PortSlot, port: u16) {
    Automatic(slot) && slot.min <= port <= slot.max && (slot.source.Some? ==> port > slot.source.value)
  }

  ghost predicate SoundPicks(o: seq<PortSlot>, picks: map<string, u16>) {
    && picks.Values !! ExplicitPorts(o)
    && forall key | key in picks :: exists i | 0 <= i < |o| :: o[i].key == key && Keepable(o[i], picks[key])
  }

  ghost predicate Injective(m: map<string, u16>) {
    forall a, b | a in m && b in m && a != b :: m[a] != m[b]
  }

  /** Slots before t are settled as the greedy plan settles them. */
  ghost predicate Settled(o: seq<PortSlot>, insp: Inspector, picks: map<string, u16>, t: nat)
    requires t <= |o|
  {
    && picks.Keys == AutoKeys(o, t)
    && SoundPicks(o, picks) && Injective(picks)
    && (forall key | key in picks :: insp(0, picks[key]) == Free)
    && GreedyFrom(o, insp, 0, map[]) == GreedyFrom(o, insp, t, picks)
  }

  /** Candidates skipped for slot t cannot settle it, and no later slot was begun. */
  ghost predicate Standing(o: seq<PortSlot>, insp: Inspector, c: PortCursor, t: nat)
    requires t <= |o|
  {
    && (forall j | t < j < |o| :: o[j].key !in c.next)
    && (t < |o| && o[t].key in c.next ==>
          && Automatic(o[t]) && Start(o[t]).Some? && Start(o[t]).value <= c.next[o[t].key]
          && FirstDecisive(o[t], Used(o, c.selected), insp, c.next[o[t].key])
             == FirstDecisive(o[t], Used(o, c.selected), insp, Start(o[t]).value))
  }

  ghost predicate AtSlot(o: seq<PortSlot>, insp: Inspector, c: PortCursor, t: nat)
    requires t <= |o|
  {
    Settled(o, insp, c.selected, t) && Standing(o, insp, c, t)
  }

  /** A cursor some earlier bounded call over the same slots and a steady inspector may have returned. */
  ghost predicate Resumable(slots: seq<PortSlot>, insp: Inspector, c: PortCursor) {
    var o := SortByKey(slots);
    && (forall key | key in c.checkedExplicit :: insp(0, c.checkedExplicit[key]) == Free)
    && exists t | 0 <= t <= |o| :: AtSlot(o, insp, c, t)
  }

  // Work left ----------------------------------------------------------------------

  function Left(slot: PortSlot, next: map<string, u32>): nat {
    if !Automatic(slot) || Start(slot).None? then 0
    else
      var start := Start(slot).value;
      var from := if slot.key in next && next[slot.key] > start then next[slot.key] else start;
      if from <= slot.max then slot.max + 1 - from else 0
  }

  /** Candidates not yet examined, over all automatic slots. */
  function WorkLeft(o: seq<PortSlot>, next: map<string, u32>): nat {
    if o == [] then 0 else WorkLeft(o[..|o| - 1], next) + Left(o[|o| - 1], next)
  }

  ghost predicate Advances(before: map<string, u32>, after: map<string, u32>) {
    forall key | key in before :: key in after && before[key] <= after[key]
  }

  lemma {:induction false} WorkFalls(o: seq<PortSlot>, before: map<string, u32>, after: map<string, u32>)
    requires Advances(before, after)
    ensures WorkLeft(o, after) <= WorkLeft(o, before)
  {
    if o != [] { WorkFalls(o[..|o| - 1], before, after); }
  }

  lemma {:induction false} WorkFallsAt(
    o: seq<PortSlot>, i: nat, before: map<string, u32>, after: map<string, u32>)
    requires i < |o| && Advances(before, after)
    ensures WorkLeft(o, after) + Left(o[i], before) <= WorkLeft(o, before) + Left(o[i], after)
  {
    if i == |o| - 1 {
      WorkFalls(o[..i], before, after);
    } else {
      WorkFallsAt(o[..|o| - 1], i, before, after);
    }
  }

  // The scan ------------------------------------------------------------------------

  ghost function KeysBefore(o: seq<PortSlot>, i: nat): set<string>
    requires i <= |o|
  {
    set j | 0 <= j < i :: o[j].key
  }

  /** The maps built so far agree with the slots before i. */
  ghost predicate Examined(
    o: seq<PortSlot>, i: nat, planned: map<string, Option<u16>>, owners: map<u16, string>)
    requires i <= |o|
  {
    && planned.Keys == KeysBefore(o, i)
    && (forall j | 0 <= j < i :: planned[o[j].key] == ExplicitPort(o[j]))
    && (forall p: u16 :: OwnerBefore(o, i, p) == if p in owners then Some(owners[p]) else None)
  }

  method ValidateSlot(
    o: seq<PortSlot>, i: nat, planned: map<string, Option<u16>>, owners: map<u16, string>)
    returns (fault: Option<PortPlan>, planned': map<string, Option<u16>>, owners': map<u16, string>)
    requires i < |o| && Examined(o, i, planned, owners)
    ensures fault == FaultAt(o, i)
    ensures fault.Some? ==> fault.value.Rejected?
    ensures fault.None? ==> Examined(o, i + 1, planned', owners')
  {
    var slot := o[i];
    planned', owners' := planned, owners;
    assert slot.key in planned <==> exists j | 0 <= j < i :: o[j].key == slot.key;
    if !ValidSlot(slot) || slot.key in planned {
      return Some(Invalid(slot.key)), planned, owners;
    }
    planned' := planned[slot.key := None];
    fault := None;
    if slot.explicit.Some? {
      var parsed := ParseU16(slot.explicit.value);
      if parsed.None? {
        fault := Some(Invalid(slot.key));
      } else if parsed.value < slot.min || parsed.value > slot.max {
        fault := Some(Invalid(slot.key));
      } else if parsed.value in owners {
        fault := Some(Rejected(slot.key, Some(owners[parsed.value]), DuplicateInput, None));
      } else {
        owners' := owners[parsed.value := slot.key];
        planned' := planned[slot.key := Some(parsed.value)];
      }
    }
  }

  method Validate(o: seq<PortSlot>)
    returns (fault: Option<PortPlan>, planned: map<string, Option<u16>>, explicit: set<u16>)
    ensures fault == FirstFault(o, 0)
    ensures fault.Some? ==> fault.value.Rejected?
    ensures fault.None? ==>
      && WellFormed(o) && planned.Keys == KeysBefore(o, |o|) && explicit == ExplicitPorts(o)
      && forall i | 0 <= i < |o| :: planned[o[i].key] == ExplicitPort(o[i])
  {
    planned := map[];
    var owners: map<u16, string> := map[];
    for i := 0 to |o|
      invariant FirstFault(o, 0) == FirstFault(o, i)
      invariant Examined(o, i, planned, owners)
    {
      fault, planned, owners := ValidateSlot(o, i, planned, owners);
      if fault.Some? { return fault, planned, {}; }
    }
    fault := None;
    explicit := owners.Keys;
    NoFaultIsWellFormed(o);
    forall p: u16 ensures p in explicit <==> p in ExplicitPorts(o) {
      OwnerBeforeNone(o, |o|, p);
    }
  }

  /** Checks every explicit port not already checked in this preview. */
  method CheckExplicit(
    o: seq<PortSlot>, insp: Inspector, clock: Clock, already: map<string, u16>)
    returns (stop: Stop, checked: map<string, u16>, log: Log)
    requires WellFormed(o)
    ensures Steady(insp) && (forall key | key in already :: insp(0, already[key]) == Free) ==>
      && (forall key | key in checked :: insp(0, checked[key]) == Free)
      && (stop.Go? ==> FirstRefusal(o, insp, 0).None?)
      && (stop.Answer? ==> FirstRefusal(o, insp, 0) == Some(stop.plan))
    ensures stop.Answer? ==> stop.plan.Rejected?
    ensures NeverExpires(clock) ==> !stop.OutOfTime?
  {
    checked, log := already, Log([], 0);
    for i := 0 to |o|
      invariant Steady(insp) && (forall key | key in already :: insp(0, already[key]) == Free) ==>
        && (forall key | key in checked :: insp(0, checked[key]) == Free)
        && FirstRefusal(o, insp, 0) == FirstRefusal(o, insp, i)
    {
      var slot := o[i];
      if ExplicitPort(slot).Some? {
        var port := ExplicitPort(slot).value;
        if slot.key in checked && checked[slot.key] == port { continue; }
        log := log.(ticks := log.ticks + 1);
        if clock(log.ticks - 1) { return OutOfTime, checked, log; }
        var check := insp(|log.calls|, port);
        log := log.(calls := log.calls + [port]);
        if check.Refused? {
          return Answer(Rejected(slot.key, None, check.reason, Some(check))), checked, log;
        }
        checked := checked[slot.key := port];
      }
    }
    stop := Go;
  }

  ghost predicate DistinctKeys(o: seq<PortSlot>) {
    forall i, j | 0 <= i < j < |o| :: o[i].key != o[j].key
  }

  /** Where the scan for a slot goes on once its selection was taken: above it, and never back. */
  function Above(cursor: PortCursor, key: string): u32
    requires key in cursor.selected
  {
    var above: u32 := cursor.selected[key] as int + 1;
    if key in cursor.next && cursor.next[key] > above then cursor.next[key] else above
  }

  /** Some question of this call about a port was answered that it is taken. */
  ghost predicate InspectedTaken(insp: Inspector, calls: seq<u16>, port: u16) {
    exists n :: 0 <= n < |calls| && calls[n] == port && insp(n, port).Refused? && insp(n, port).reason != Unavailable
  }

  lemma LastTaken(insp: Inspector, calls: seq<u16>)
    requires calls != [] && insp(|calls| - 1, calls[|calls| - 1]).Refused?
    requires insp(|calls| - 1, calls[|calls| - 1]).reason != Unavailable
    ensures InspectedTaken(insp, calls, calls[|calls| - 1])
  {
  }

  lemma TakenStaysInspected(insp: Inspector, before: seq<u16>, after: seq<u16>)
    requires before <= after
    ensures forall p: u16 | InspectedTaken(insp, before, p) :: InspectedTaken(insp, after, p)
  {
    forall p: u16 | InspectedTaken(insp, before, p) ensures InspectedTaken(insp, after, p) {
      var n :| 0 <= n < |before| && before[n] == p && insp(n, p).Refused? && insp(n, p).reason != Unavailable;
      assert after[n] == p;
    }
  }

  /** What was given up was seen to be taken and goes on above; for every other slot the scan stays where it was. */
  ghost predicate Restarted(before: PortCursor, after: PortCursor, insp: Inspector, calls: seq<u16>) {
    && (forall key | key in before.selected && key !in after.selected ::
          key in after.next && after.next[key] == Above(before, key) && InspectedTaken(insp, calls, before.selected[key]))
    && (forall key | key in after.next && (key in after.selected || key !in before.selected) ::
          key in before.next && after.next[key] == before.next[key])
    && (forall key | key in after.selected :: key in before.selected && after.selected[key] == before.selected[key])
    && before.next.Keys <= after.next.Keys
  }

  lemma NoneRestarted(c: PortCursor, insp: Inspector, calls: seq<u16>)
    ensures Restarted(c, c, insp, calls) && Advances(c.next, c.next)
  {
  }

  lemma OneRestarted(before: PortCursor, c: PortCursor, insp: Inspector, calls: seq<u16>, key: string)
    requires Restarted(before, c, insp, calls) && key in c.selected && InspectedTaken(insp, calls, c.selected[key])
    requires Advances(before.next, c.next)
    ensures Restarted(before, c.(selected := c.selected - {key}, next := c.next[key := Above(c, key)]), insp, calls)
    ensures Advances(before.next, c.next[key := Above(c, key)])
  {
    hide InspectedTaken;
  }

  lemma StillRestarted(before: PortCursor, c: PortCursor, insp: Inspector, earlier: seq<u16>, calls: seq<u16>)
    requires Restarted(before, c, insp, earlier) && earlier <= calls
    ensures Restarted(before, c, insp, calls)
  {
    forall port: u16 | InspectedTaken(insp, earlier, port) ensures InspectedTaken(insp, calls, port) {
      TakenStaysInspected(insp, earlier, calls);
    }
  }

  /** The inspector's answer to the latest question, in whose light a selection is kept or given up. */
  method Recheck(insp: Inspector, clock: Clock, c0: PortCursor, key: string, log0: Log)
    returns (stop: Stop, c: PortCursor, log: Log)
    requires key in c0.selected
    ensures log0.calls <= log.calls && (stop != Go ==> c == c0)
    ensures stop.Answer? ==> stop.plan.Rejected? && insp(|log0.calls|, c0.selected[key]) != Free
    ensures NeverExpires(clock) ==> !stop.OutOfTime?
    ensures stop.Go? && c == c0 ==> InspectedFree(insp, log.calls, c0.selected[key])
    ensures stop.Go? && c != c0 ==>
      c == c0.(selected := c0.selected - {key}, next := c0.next[key := Above(c0, key)])
      && InspectedTaken(insp, log.calls, c0.selected[key]) && insp(|log0.calls|, c0.selected[key]) != Free
  {
    hide InspectedFree, InspectedTaken;
    var port := c0.selected[key];
    c, log := c0, log0.(ticks := log0.ticks + 1);
    if clock(log.ticks - 1) { return OutOfTime, c, log; }
    var check := insp(|log.calls|, port);
    log := log.(calls := log.calls + [port]);
    stop := Go;
    match check {
      case Free => LastInspected(insp, log.calls);
      case Refused(reason) =>
        if reason == Unavailable {
          return Answer(Rejected(key, None, Unavailable, Some(check))), c, log;
        }
        LastTaken(insp, log.calls);
        var above: u32 := port + 1;
        var next := if key in c.next && c.next[key] > above then c.next[key] else above;
        c := c.(selected := c.selected - {key}, next := c.next[key := next]);
    }
  }

  /** Checks earlier automatic selections again, in key order; one that is taken restarts above it. */
  method Revalidate(
    o: seq<PortSlot>, insp: Inspector, clock: Clock, cursor: PortCursor, log0: Log)
    returns (stop: Stop, c: PortCursor, log: Log)
    requires SoundPicks(o, cursor.selected)
    ensures log0.calls <= log.calls
    ensures c.selected.Keys <= cursor.selected.Keys && c.checkedExplicit == cursor.checkedExplicit
    ensures forall key | key in c.selected :: c.selected[key] == cursor.selected[key]
    ensures Advances(cursor.next, c.next)
    ensures stop.Go? ==> forall key | key in c.selected :: InspectedFree(insp, log.calls, c.selected[key])
    ensures Restarted(cursor, c, insp, log.calls)
    ensures stop.Answer? ==> stop.plan.Rejected?
    ensures NeverExpires(clock) ==> !stop.OutOfTime?
    ensures Steady(insp) && (forall key | key in cursor.selected :: insp(0, cursor.selected[key]) == Free) ==>
      !stop.Answer? && c == cursor
  {
    hide InspectedFree, InspectedTaken, Restarted, Advances, Above;
    c, log := cursor, log0;
    NoneRestarted(c, insp, log.calls);
    ghost var done := {};
    for i := 0 to |o|
      invariant log0.calls <= log.calls
      invariant c.selected.Keys <= cursor.selected.Keys && c.checkedExplicit == cursor.checkedExplicit
      invariant forall key | key in c.selected :: c.selected[key] == cursor.selected[key]
      invariant Advances(cursor.next, c.next)
      invariant Restarted(cursor, c, insp, log.calls)
      invariant forall j | 0 <= j < i :: o[j].key in done
      invariant forall key | key in c.selected && key in done :: InspectedFree(insp, log.calls, c.selected[key])
      invariant Steady(insp) && (forall key | key in cursor.selected :: insp(0, cursor.selected[key]) == Free) ==>
        c == cursor
    {
      var key := o[i].key;
      done := done + {key};
      if key !in c.selected { continue; }
      ghost var c0, before := c, log.calls;
      stop, c, log := Recheck(insp, clock, c, key, log);
      StillRestarted(cursor, c0, insp, before, log.calls);
      FreeStaysInspected(insp, before, log.calls);
      if stop != Go { return; }
      if c != c0 { OneRestarted(cursor, c0, insp, log.calls, key); }
    }
    stop := Go;
  }

  lemma LastInspected(insp: Inspector, calls: seq<u16>)
    requires calls != [] && insp(|calls| - 1, calls[|calls| - 1]) == Free
    ensures InspectedFree(insp, calls, calls[|calls| - 1])
  {
  }

  lemma FreeStaysInspected(insp: Inspector, before: seq<u16>, after: seq<u16>)
    requires before <= after
    ensures forall p: u16 | InspectedFree(insp, before, p) :: InspectedFree(insp, after, p)
  {
    forall p: u16 | InspectedFree(insp, before, p) ensures InspectedFree(insp, after, p) {
      var n :| 0 <= n < |before| && before[n] == p && insp(n, p) == Free;
      assert after[n] == p;
    }
  }

  /** Adds the kept selections to the used ports; two of them may not share a port. */
  method CollectUsed(o: seq<PortSlot>, selected: map<string, u16>, explicit: set<u16>)
    returns (stop: Stop, used: set<u16>)
    requires SoundPicks(o, selected) && explicit == ExplicitPorts(o)
    requires DistinctKeys(o)
    ensures !stop.OutOfTime?
    ensures stop.Answer? ==> stop.plan.Rejected? && !Injective(selected)
    ensures stop.Go? ==> Injective(selected) && used == Used(o, selected)
  {
    used := explicit;
    ghost var taken: map<string, u16> := map[];
    for i := 0 to |o|
      invariant forall j | i <= j < |o| :: o[j].key !in taken
      invariant used == explicit + taken.Values
      invariant forall key | key in taken :: key in selected && taken[key] == selected[key]
      invariant forall j | 0 <= j < i && o[j].key in selected :: o[j].key in taken
      invariant Injective(taken)
    {
      var key := o[i].key;
      if key in selected {
        if selected[key] in used {
          assert selected[key] in selected.Values;
          ghost var other :| other in taken && taken[other] == selected[key];
          return Answer(Rejected(key, None, Planned, None)), used;
        }
        used := used + {selected[key]};
        ValuesGrow(taken, key, selected[key]);
        taken := taken[key := selected[key]];
      }
    }
    stop := Go;
    assert taken == selected;
  }

  lemma ValuesGrow(m: map<string, u16>, key: string, port: u16)
    requires key !in m
    ensures m[key := port].Values == m.Values + {port}
  {
    var grown := m[key := port];
    forall p | p in m.Values + {port} ensures p in grown.Values {
      if p == port { assert grown[key] == port; } else {
        var other :| other in m && m[other] == p;
        assert grown[other] == p;
      }
    }
  }

  datatype Scan = Found(port: u16) | Exhausted | OutOfBudget | Blocked | NoStart

  /** Examines one slot's candidates upwards from the first one not yet examined. */
  method ScanSlot(
    slot: PortSlot, used: set<u16>, insp: Inspector, clock: Clock, limit: nat,
    first: u32, attempts0: nat, next0: map<string, u32>, log0: Log)
    returns (scan: Scan, attempts: nat, next: map<string, u32>, log: Log)
    requires ValidSlot(slot)
    requires slot.key in next0 && next0[slot.key] <= first
    ensures log0.calls <= log.calls
    ensures next.Keys == next0.Keys && forall key | key in next && key != slot.key :: next[key] == next0[key]
    ensures next[slot.key] == next0[slot.key] || first <= next[slot.key] <= slot.max + 1
    ensures next0[slot.key] <= next[slot.key]
    ensures attempts == attempts0 + (if next[slot.key] > first then next[slot.key] - first else 0)
    ensures scan.Found? ==>
      && first <= scan.port && slot.min <= scan.port <= slot.max && scan.port !in used
      && InspectedFree(insp, log.calls, scan.port)
    ensures scan.OutOfBudget? ==>
      first <= next[slot.key] <= slot.max && (NeverExpires(clock) ==> attempts >= limit)
    ensures Steady(insp) ==>
      FirstDecisive(slot, used, insp, first) ==
        match scan
        case Found(port) => Some(port)
        case Exhausted => None
        case OutOfBudget => FirstDecisive(slot, used, insp, next[slot.key])
        case _ => FirstDecisive(slot, used, insp, first)
    ensures Steady(insp) && scan.Found? ==> insp(0, scan.port) == Free
    ensures !scan.NoStart?
    ensures Steady(insp) && scan.Blocked? ==>
      && FirstDecisive(slot, used, insp, first).Some?
      && insp(0, FirstDecisive(slot, used, insp, first).value) == Refused(Unavailable)
  {
    attempts, next, log := attempts0, next0, log0;
    var candidate: u32 := first;
    while candidate <= slot.max
      invariant first <= candidate && (candidate <= slot.max + 1 || candidate == first)
      invariant log0.calls <= log.calls
      invariant next == if candidate == first then next0 else next0[slot.key := candidate]
      invariant attempts == attempts0 + (candidate - first)
      invariant Steady(insp) ==>
        FirstDecisive(slot, used, insp, first) == FirstDecisive(slot, used, insp, candidate)
      decreases slot.max + 1 - candidate
    {
      log := log.(ticks := log.ticks + 1);
      if attempts >= limit || clock(log.ticks - 1) {
        next := next[slot.key := candidate];
        return OutOfBudget, attempts, next, log;
      }
      var port: u16 := candidate;
      candidate := candidate + 1;
      next := next[slot.key := candidate];
      attempts := attempts + 1;
      if port < slot.min || port in used { continue; }
      var check := insp(|log.calls|, port);
      log := log.(calls := log.calls + [port]);
      match check {
        case Free =>
          assert log.calls[|log.calls| - 1] == port;
          return Found(port), attempts, next, log;
        case Refused(reason) =>
          if reason == Unavailable { return Blocked, attempts, next, log; }
      }
    }
    scan := Exhausted;
  }

  lemma AutoKeysStep(o: seq<PortSlot>, i: nat)
    requires i < |o|
    ensures AutoKeys(o, i + 1) == if Automatic(o[i]) then AutoKeys(o, i) + {o[i].key} else AutoKeys(o, i)
  {
  }

  /** Where the cursor stands after slot i, which needs no scan. */
  ghost function Past(o: seq<PortSlot>, i: nat, t: nat): nat
    requires i < |o|
  {
    if t == i && !Automatic(o[i]) then i + 1 else t
  }

  lemma PassSlot(o: seq<PortSlot>, insp: Inspector, c: PortCursor, i: nat, t: nat)
    requires DistinctKeys(o) && i <= t <= |o| && i < |o| && AtSlot(o, insp, c, t)
    requires Automatic(o[i]) ==> o[i].key in c.selected
    ensures i < Past(o, i, t) <= |o| && AtSlot(o, insp, c, Past(o, i, t))
  {
    AutoKeysStep(o, i);
  }

  lemma StandsHere(o: seq<PortSlot>, insp: Inspector, c: PortCursor, i: nat, t: nat)
    requires i <= t <= |o| && i < |o| && AtSlot(o, insp, c, t)
    requires Automatic(o[i]) && o[i].key !in c.selected
    ensures t == i
  {
  }

  lemma AddPick(o: seq<PortSlot>, picks: map<string, u16>, i: nat, port: u16)
    requires i < |o| && SoundPicks(o, picks) && Injective(picks) && o[i].key !in picks
    requires Keepable(o[i], port) && port !in Used(o, picks)
    ensures SoundPicks(o, picks[o[i].key := port]) && Injective(picks[o[i].key := port])
    ensures Used(o, picks[o[i].key := port]) == Used(o, picks) + {port}
  {
    var key := o[i].key;
    var grown := picks[key := port];
    ValuesGrow(picks, key, port);
    forall k | k in grown ensures exists j | 0 <= j < |o| :: o[j].key == k && Keepable(o[j], grown[k]) {
      if k == key { assert o[i].key == k && Keepable(o[i], port); }
    }
    forall a, b | a in grown && b in grown && a != b ensures grown[a] != grown[b] {
      assert a in picks ==> picks[a] in picks.Values;
      assert b in picks ==> picks[b] in picks.Values;
    }
  }

  lemma GreedyTakes(o: seq<PortSlot>, insp: Inspector, picks: map<string, u16>, t: nat, port: u16)
    requires t < |o| && Automatic(o[t]) && Start(o[t]).Some? && insp(0, port) == Free
    requires FirstDecisive(o[t], Used(o, picks), insp, Start(o[t]).value) == Some(port)
    ensures GreedyFrom(o, insp, t, picks) == GreedyFrom(o, insp, t + 1, picks[o[t].key := port])
  {
  }

  lemma PickSettles(o: seq<PortSlot>, insp: Inspector, picks: map<string, u16>, t: nat, port: u16)
    requires t < |o| && Settled(o, insp, picks, t) && Automatic(o[t]) && insp(0, port) == Free
    requires GreedyFrom(o, insp, t, picks) == GreedyFrom(o, insp, t + 1, picks[o[t].key := port])
    requires SoundPicks(o, picks[o[t].key := port]) && Injective(picks[o[t].key := port])
    ensures Settled(o, insp, picks[o[t].key := port], t + 1)
  {
    assert AutoKeys(o, t + 1) == AutoKeys(o, t) + {o[t].key};
  }

  function AfterScan(key: string, scan: Scan): Stop {
    match scan
    case Found(_) => Go
    case OutOfBudget => OutOfTime
    case Blocked => Answer(Unchecked(key))
    case Exhausted => Answer(NeedsInput(key))
    case NoStart => Answer(NeedsInput(key))
  }

  /** What the outcome for slot i contributes to the greedy plan. */
  ghost predicate Contributes(
    o: seq<PortSlot>, i: nat, insp: Inspector, c: PortCursor, scan: Scan, next: map<string, u32>)
    requires i < |o|
  {
    match scan
    case Found(port) => AtSlot(o, insp, c.(next := next, selected := c.selected[o[i].key := port]), i + 1)
    case OutOfBudget => AtSlot(o, insp, c.(next := next), i)
    case _ => AfterScan(o[i].key, scan) == Answer(GreedyFrom(o, insp, 0, map[]))
  }

  lemma NoStartNeedsInput(o: seq<PortSlot>, i: nat, insp: Inspector, c: PortCursor)
    requires i < |o| && Automatic(o[i]) && Start(o[i]).None? && AtSlot(o, insp, c, i)
    ensures GreedyFrom(o, insp, 0, map[]) == NeedsInput(o[i].key)
  {
  }

  lemma ScanIsGreedy(
    o: seq<PortSlot>, i: nat, insp: Inspector, c: PortCursor, scan: Scan, first: u32, next: map<string, u32>)
    requires WellFormed(o) && i < |o| && Automatic(o[i]) && AtSlot(o, insp, c, i)
    requires Start(o[i]).Some? && o[i].key in next && next.Keys == c.next.Keys + {o[i].key}
    requires first == var start := Start(o[i]).value;
      if o[i].key in c.next && c.next[o[i].key] > start then c.next[o[i].key] else start
    requires scan.OutOfBudget? ==> first <= next[o[i].key]
    requires FirstDecisive(o[i], Used(o, c.selected), insp, first) ==
      match scan
      case Found(port) => Some(port)
      case Exhausted => None
      case OutOfBudget => FirstDecisive(o[i], Used(o, c.selected), insp, next[o[i].key])
      case _ => FirstDecisive(o[i], Used(o, c.selected), insp, first)
    requires scan.Blocked? ==>
      && FirstDecisive(o[i], Used(o, c.selected), insp, first).Some?
      && insp(0, FirstDecisive(o[i], Used(o, c.selected), insp, first).value) == Refused(Unavailable)
    requires scan.Found? ==>
      insp(0, scan.port) == Free && Keepable(o[i], scan.port) && scan.port !in Used(o, c.selected)
    requires !scan.NoStart?
    ensures Contributes(o, i, insp, c, scan, next)
  {
    assert FirstDecisive(o[i], Used(o, c.selected), insp, first)
      == FirstDecisive(o[i], Used(o, c.selected), insp, Start(o[i]).value);
    if scan.Found? {
      var picks := c.selected[o[i].key := scan.port];
      GreedyTakes(o, insp, c.selected, i, scan.port);
      AddPick(o, c.selected, i, scan.port);
      PickSettles(o, insp, c.selected, i, scan.port);
      assert Standing(o, insp, c.(next := next, selected := picks), i + 1);
    }
  }

  /** Every pick was either kept from before or inspected and found free in this call. */
  ghost predicate PicksInspected(
    insp: Inspector, kept: map<string, u16>, picks: map<string, u16>, calls: seq<u16>)
  {
    forall key | key in picks ::
      (key in kept && kept[key] == picks[key]) || InspectedFree(insp, calls, picks[key])
  }

  /** Selections in use at some point of the call, with the ports they and the explicit slots take. */
  ghost predicate Usable(
    o: seq<PortSlot>, insp: Inspector, kept: map<string, u16>,
    picks: map<string, u16>, used: set<u16>, calls: seq<u16>)
  {
    && SoundPicks(o, picks) && Injective(picks) && used == Used(o, picks)
    && PicksInspected(insp, kept, picks, calls)
  }

  lemma UsableStays(
    o: seq<PortSlot>, insp: Inspector, kept: map<string, u16>, picks: map<string, u16>, used: set<u16>,
    before: seq<u16>, after: seq<u16>)
    requires Usable(o, insp, kept, picks, used, before) && before <= after
    ensures Usable(o, insp, kept, picks, used, after)
  {
    FreeStaysInspected(insp, before, after);
  }

  lemma UsableGrows(
    o: seq<PortSlot>, insp: Inspector, kept: map<string, u16>, picks: map<string, u16>, used: set<u16>,
    calls: seq<u16>, i: nat, port: u16)
    requires Usable(o, insp, kept, picks, used, calls)
    requires i < |o| && o[i].key !in picks && Keepable(o[i], port) && port !in used
    requires InspectedFree(insp, calls, port)
    ensures Usable(o, insp, kept, picks[o[i].key := port], used + {port}, calls)
  {
    AddPick(o, picks, i, port);
  }

  /** Looks for a port for one automatic slot not yet settled, within the budget. */
  method FillSlot(
    o: seq<PortSlot>, i: nat, insp: Inspector, clock: Clock, limit: nat,
    c: PortCursor, used: set<u16>, attempts: nat, log: Log)
    returns (scan: Scan, next: map<string, u32>, attempts': nat, log': Log)
    requires WellFormed(o) && i < |o| && Automatic(o[i]) && used == Used(o, c.selected)
    ensures Advances(c.next, next) && log.calls <= log'.calls
    ensures WorkLeft(o, next) + attempts' <= WorkLeft(o, c.next) + attempts
    ensures scan.OutOfBudget? && NeverExpires(clock) ==> attempts' >= limit
    ensures scan.Found? ==>
      Keepable(o[i], scan.port) && scan.port !in used && InspectedFree(insp, log'.calls, scan.port)
    ensures Steady(insp) && AtSlot(o, insp, c, i) ==> Contributes(o, i, insp, c, scan, next)
  {
    hide AtSlot, InspectedFree, GreedyFrom, WorkLeft, Used;
    var slot := o[i];
    next, attempts', log' := c.next, attempts, log;
    var from := Start(slot);
    if from.None? {
      if AtSlot(o, insp, c, i) { NoStartNeedsInput(o, i, insp, c); }
      return NoStart, next, attempts, log;
    }
    var start := from.value;
    var entered := if slot.key in c.next then c.next else c.next[slot.key := start];
    var first := if entered[slot.key] > start then entered[slot.key] else start;
    scan, attempts', next, log' := ScanSlot(slot, used, insp, clock, limit, first, attempts, entered, log);
    WorkFallsAt(o, i, c.next, next);
    if Steady(insp) && AtSlot(o, insp, c, i) { ScanIsGreedy(o, i, insp, c, scan, first, next); }
  }

  /** Picks a port for every automatic slot not yet settled, within the budget. */
  method FillAutomatic(
    o: seq<PortSlot>, insp: Inspector, clock: Clock, limit: nat,
    cursor: PortCursor, used0: set<u16>, log0: Log, ghost t: nat)
    returns (stop: Stop, c: PortCursor, log: Log, ghost t': nat)
    requires WellFormed(o) && t <= |o|
    requires Usable(o, insp, cursor.selected, cursor.selected, used0, log0.calls)
    ensures c.checkedExplicit == cursor.checkedExplicit && Advances(cursor.next, c.next)
    ensures log0.calls <= log.calls
    ensures stop.Answer? ==> stop.plan.NeedsInput? || stop.plan.Rejected?
    ensures stop.OutOfTime? && NeverExpires(clock) ==>
      WorkLeft(o, c.next) + limit <= WorkLeft(o, cursor.next)
    ensures stop.Go? ==> AutoKeys(o, |o|) <= c.selected.Keys
    ensures Usable(o, insp, cursor.selected, c.selected, Used(o, c.selected), log.calls)
    ensures Steady(insp) && AtSlot(o, insp, cursor, t) ==>
      && (stop.Answer? ==> GreedyFrom(o, insp, 0, map[]) == stop.plan)
      && (stop.Go? ==> AtSlot(o, insp, c, |o|))
      && (stop.OutOfTime? ==> t' <= |o| && AtSlot(o, insp, c, t'))
  {
    hide AtSlot, InspectedFree, Keepable, PicksInspected, SoundPicks, Injective, Used, WorkLeft, GreedyFrom;
    c, log, t' := cursor, log0, t;
    var used := used0;
    var attempts := 0;
    ghost var resumed := Steady(insp) && AtSlot(o, insp, cursor, t);
    for i := 0 to |o|
      invariant c.checkedExplicit == cursor.checkedExplicit && Advances(cursor.next, c.next)
      invariant WorkLeft(o, c.next) + attempts <= WorkLeft(o, cursor.next)
      invariant log0.calls <= log.calls
      invariant AutoKeys(o, i) <= c.selected.Keys
      invariant Usable(o, insp, cursor.selected, c.selected, used, log.calls)
      invariant resumed ==> i <= t' <= |o| && AtSlot(o, insp, c, t')
    {
      var slot := o[i];
      AutoKeysStep(o, i);
      if slot.explicit.Some? || slot.key in c.selected {
        if resumed { PassSlot(o, insp, c, i, t'); }
        t' := Past(o, i, t');
        continue;
      }
      if resumed { StandsHere(o, insp, c, i, t'); }
      ghost var calls := log.calls;
      var scan, next;
      scan, next, attempts, log := FillSlot(o, i, insp, clock, limit, c, used, attempts, log);
      UsableStays(o, insp, cursor.selected, c.selected, used, calls, log.calls);
      if !scan.Found? {
        c := c.(next := next);
        return AfterScan(slot.key, scan), c, log, t';
      }
      UsableGrows(o, insp, cursor.selected, c.selected, used, log.calls, i, scan.port);
      used := used + {scan.port};
      c := c.(next := next, selected := c.selected[slot.key := scan.port]);
      t' := i + 1;
    }
    stop := Go;
  }
}
