/** What a port plan must be: one greedy choice per automatic slot, in key order. */
module PortPlanSpec {
  import opened Wrappers
  import opened PortSlots

  // Input faults ----------------------------------------------------------------

  /** Key of the last slot before i that asks for this port. */
  function OwnerBefore(o: seq<PortSlot>, i: nat, port: u16): Option<string>
    requires i <= |o|
  {
    if i == 0 then None
    else if ExplicitPort(o[i - 1]) == Some(port) then Some(o[i - 1].key)
    else OwnerBefore(o, i - 1, port)
  }

  function Invalid(key: string): PortPlan {
    Rejected(key, None, InvalidInput, None)
  }

  function FaultAt(o: seq<PortSlot>, i: nat): Option<PortPlan>
    requires i < |o|
  {
    var slot := o[i];
    if !ValidSlot(slot) || (exists j | 0 <= j < i :: o[j].key == slot.key) then Some(Invalid(slot.key))
    else if Automatic(slot) then None
    else
      match ExplicitPort(slot)
      case None => Some(Invalid(slot.key))
      case Some(port) =>
        if port < slot.min || port > slot.max then Some(Invalid(slot.key))
        else
          match OwnerBefore(o, i, port)
          case Some(other) => Some(Rejected(slot.key, Some(other), DuplicateInput, None))
          case None => None
  }

  /** The first fault at or after slot i. */
  function FirstFault(o: seq<PortSlot>, i: nat): Option<PortPlan>
    requires i <= |o|
    decreases |o| - i
  {
    if i == |o| then None
    else if FaultAt(o, i).Some? then FaultAt(o, i)
    else FirstFault(o, i + 1)
  }

  ghost predicate WellFormed(o: seq<PortSlot>) {
    && (forall i | 0 <= i < |o| :: ValidSlot(o[i]))
    && (forall i, j | 0 <= i < j < |o| :: o[i].key != o[j].key)
    && (forall i | 0 <= i < |o| && !Automatic(o[i]) ::
          ExplicitPort(o[i]).Some? && o[i].min <= ExplicitPort(o[i]).value <= o[i].max)
    && (forall i, j | 0 <= i < j < |o| && ExplicitPort(o[i]).Some? :: ExplicitPort(o[i]) != ExplicitPort(o[j]))
  }

  lemma {:induction false} OwnerBeforeNone(o: seq<PortSlot>, i: nat, port: u16)
    requires i <= |o|
    ensures OwnerBefore(o, i, port).None? <==> forall j | 0 <= j < i :: ExplicitPort(o[j]) != Some(port)
  {
    if i > 0 { OwnerBeforeNone(o, i - 1, port); }
  }

  /** Inputs without a fault are exactly the well-formed ones. */
  lemma {:induction false} NoFaultIsWellFormed(o: seq<PortSlot>)
    ensures FirstFault(o, 0).None? <==> WellFormed(o)
  {
    NoFaultMeans(o, 0);
    if WellFormed(o) {
      forall i | 0 <= i < |o| ensures FaultAt(o, i).None? {
        if ExplicitPort(o[i]).Some? { OwnerBeforeNone(o, i, ExplicitPort(o[i]).value); }
      }
    } else if FirstFault(o, 0).None? {
      forall i | 0 <= i < |o| && ExplicitPort(o[i]).Some?
        ensures forall j | 0 <= j < i :: ExplicitPort(o[j]) != ExplicitPort(o[i])
      {
        assert FaultAt(o, i).None?;
        OwnerBeforeNone(o, i, ExplicitPort(o[i]).value);
      }
      forall i | 0 <= i < |o| ensures ValidSlot(o[i]) && forall j | 0 <= j < i :: o[j].key != o[i].key {
        assert FaultAt(o, i).None?;
      }
      forall i | 0 <= i < |o| && !Automatic(o[i])
        ensures ExplicitPort(o[i]).Some? && o[i].min <= ExplicitPort(o[i]).value <= o[i].max
      {
        assert FaultAt(o, i).None?;
      }
      assert false;
    }
  }

  lemma {:induction false} NoFaultMeans(o: seq<PortSlot>, i: nat)
    requires i <= |o|
    ensures FirstFault(o, i).None? <==> forall j | i <= j < |o| :: FaultAt(o, j).None?
    decreases |o| - i
  {
    if i < |o| { NoFaultMeans(o, i + 1); }
  }

  // The greedy plan ---------------------------------------------------------------

  ghost function ExplicitPorts(o: seq<PortSlot>): set<u16> {
    set i | 0 <= i < |o| && ExplicitPort(o[i]).Some? :: ExplicitPort(o[i]).value
  }

  ghost function ExplicitMap(o: seq<PortSlot>): map<string, u16> {
    if o == [] then map[]
    else
      var last := o[|o| - 1];
      var rest := ExplicitMap(o[..|o| - 1]);
      if ExplicitPort(last).Some? then rest[last.key := ExplicitPort(last).value] else rest
  }

  ghost function Used(o: seq<PortSlot>, picks: map<string, u16>): set<u16> {
    ExplicitPorts(o) + picks.Values
  }

  /** A port that settles an automatic slot: an unused one that is free, or cannot be checked. */
  ghost predicate Decisive(slot: PortSlot, used: set<u16>, insp: Inspector, port: u16) {
    slot.min <= port && port !in used && insp(0, port) in {Free, Refused(Unavailable)}
  }

  ghost function FirstDecisive(slot: PortSlot, used: set<u16>, insp: Inspector, from: nat): Option<u16>
    decreases 0x1_0000 - from
  {
    if from > slot.max then None
    else if Decisive(slot, used, insp, from) then Some(from)
    else FirstDecisive(slot, used, insp, from + 1)
  }

  lemma {:induction false} FirstDecisiveIsLeast(slot: PortSlot, used: set<u16>, insp: Inspector, from: nat)
    ensures match FirstDecisive(slot, used, insp, from)
      case None => forall p: u16 | from <= p <= slot.max :: !Decisive(slot, used, insp, p)
      case Some(q) =>
        (from <= q <= slot.max && Decisive(slot, used, insp, q) &&
         forall p: u16 | from <= p < q :: !Decisive(slot, used, insp, p))
    decreases 0x1_0000 - from
  {
    if from <= slot.max && !Decisive(slot, used, insp, from) {
      FirstDecisiveIsLeast(slot, used, insp, from + 1);
    }
  }

  function Unchecked(key: string): PortPlan {
    Rejected(key, None, Unavailable, Some(Refused(Unavailable)))
  }

  /** The plan from slot i on, given what earlier automatic slots took. */
  ghost function GreedyFrom(o: seq<PortSlot>, insp: Inspector, i: nat, picks: map<string, u16>): PortPlan
    requires i <= |o|
    decreases |o| - i
  {
    if i == |o| then Complete(ExplicitMap(o) + picks)
    else if !Automatic(o[i]) then GreedyFrom(o, insp, i + 1, picks)
    else
      match Start(o[i])
      case None => NeedsInput(o[i].key)
      case Some(start) =>
        match FirstDecisive(o[i], Used(o, picks), insp, start)
        case None => NeedsInput(o[i].key)
        case Some(port) =>
          if insp(0, port) == Free then GreedyFrom(o, insp, i + 1, picks[o[i].key := port])
          else Unchecked(o[i].key)
  }

  ghost function FirstRefusal(o: seq<PortSlot>, insp: Inspector, i: nat): Option<PortPlan>
    requires i <= |o|
    decreases |o| - i
  {
    if i == |o| then None
    else if ExplicitPort(o[i]).Some? && insp(0, ExplicitPort(o[i]).value).Refused? then
      var check := insp(0, ExplicitPort(o[i]).value);
      Some(Rejected(o[i].key, None, check.reason, Some(check)))
    else FirstRefusal(o, insp, i + 1)
  }

  /** The answer once the inputs are known to be well formed. */
  ghost function Settlement(o: seq<PortSlot>, insp: Inspector): PortPlan {
    match FirstRefusal(o, insp, 0)
    case Some(refusal) => refusal
    case None => GreedyFrom(o, insp, 0, map[])
  }

  /** The one answer for these slots when the inspector never changes its mind. */
  ghost function GreedyPlan(slots: seq<PortSlot>, insp: Inspector): PortPlan {
    var o := SortByKey(slots);
    match FirstFault(o, 0)
    case Some(fault) => fault
    case None => Settlement(o, insp)
  }

  ghost predicate Steady(insp: Inspector) {
    forall n: nat, port: u16 :: insp(n, port) == insp(0, port)
  }
}
