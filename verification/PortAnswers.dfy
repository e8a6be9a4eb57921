/** What the answers other than a complete plan say about the slots. */
module PortAnswers {
  import opened Wrappers
  import opened PortSlots
  import opened PortPlanSpec
  import opened PortPlanner
  import opened PortPreview

  // Faults and refusals ---------------------------------------------------------------------------------

  lemma {:induction false} FaultIsFirst(o: seq<PortSlot>, i: nat) returns (j: nat)
    requires i <= |o| && FirstFault(o, i).Some?
    ensures i <= j < |o| && FirstFault(o, i) == FaultAt(o, j) && forall k | i <= k < j :: FaultAt(o, k).None?
    decreases |o| - i
  {
    if FaultAt(o, i).Some? { j := i; } else { j := FaultIsFirst(o, i + 1); }
  }

  lemma {:induction false} OwnerIsEarlier(o: seq<PortSlot>, i: nat, port: u16) returns (j: nat)
    requires i <= |o| && OwnerBefore(o, i, port).Some?
    ensures j < i && OwnerBefore(o, i, port) == Some(o[j].key) && ExplicitPort(o[j]) == Some(port)
  {
    if ExplicitPort(o[i - 1]) == Some(port) { j := i - 1; } else { j := OwnerIsEarlier(o, i - 1, port); }
  }

  lemma PrefixFaults(o: seq<PortSlot>, n: nat)
    requires n <= |o| && forall k | 0 <= k < n :: FaultAt(o, k).None?
    ensures WellFormed(o[..n])
  {
    hide WellFormed;
    var p := o[..n];
    forall k | 0 <= k < n ensures FaultAt(p, k).None? {
      SameFault(o, n, k);
    }
    NoFaultMeans(p, 0);
    NoFaultIsWellFormed(p);
  }

  lemma SameFault(o: seq<PortSlot>, n: nat, k: nat)
    requires k < n <= |o|
    ensures FaultAt(o[..n], k) == FaultAt(o, k)
  {
    if ExplicitPort(o[k]).Some? { SameOwner(o, n, k, ExplicitPort(o[k]).value); }
    assert (exists j | 0 <= j < k :: o[..n][j].key == o[..n][k].key) <==> (exists j | 0 <= j < k :: o[j].key == o[k].key) by {
      if j :| 0 <= j < k && o[j].key == o[k].key { assert o[..n][j].key == o[..n][k].key; }
    }
  }

  lemma {:induction false} SameOwner(o: seq<PortSlot>, n: nat, i: nat, port: u16)
    requires i <= n <= |o|
    ensures OwnerBefore(o[..n], i, port) == OwnerBefore(o, i, port)
  {
    if i > 0 { SameOwner(o, n, i - 1, port); }
  }

  /**
   * A fault names the first slot in key order that has one: the later of two that ask for one port, with the
   * earlier as the one in conflict, or one that is invalid in itself.
   */
  lemma FaultIsNamed(o: seq<PortSlot>) returns (j: nat, earlier: Option<nat>)
    requires FirstFault(o, 0).Some?
    ensures j < |o| && WellFormed(o[..j]) && FirstFault(o, 0).value.Rejected?
    ensures var fault := FirstFault(o, 0).value;
      && fault.slot == o[j].key && fault.check == None
      && (earlier.Some? ==>
            && earlier.value < j && ExplicitPort(o[j]).Some? && ExplicitPort(o[earlier.value]) == ExplicitPort(o[j])
            && fault.conflicting == Some(o[earlier.value].key) && fault.reason == DuplicateInput)
      && (earlier.None? ==>
            && fault.conflicting == None && fault.reason == InvalidInput
            && (!ValidSlot(o[j]) || (exists k | 0 <= k < j :: o[k].key == o[j].key)
                || (o[j].explicit.Some? && (ExplicitPort(o[j]).None?
                      || !(o[j].min <= ExplicitPort(o[j]).value <= o[j].max)))))
  {
    j := FaultIsFirst(o, 0);
    PrefixFaults(o, j);
    earlier := None;
    if FirstFault(o, 0).value.reason == DuplicateInput {
      var k := OwnerIsEarlier(o, j, ExplicitPort(o[j]).value);
      earlier := Some(k);
    }
  }

  /** The first explicit port in key order that is refused is the one answered, with its reason and check. */
  lemma {:induction false} RefusalIsFirst(o: seq<PortSlot>, insp: Inspector, i: nat) returns (j: nat)
    requires i <= |o| && FirstRefusal(o, insp, i).Some?
    ensures i <= j < |o| && ExplicitPort(o[j]).Some? && insp(0, ExplicitPort(o[j]).value).Refused?
    ensures var check := insp(0, ExplicitPort(o[j]).value);
      FirstRefusal(o, insp, i) == Some(Rejected(o[j].key, None, check.reason, Some(check)))
    ensures forall k | i <= k < j && ExplicitPort(o[k]).Some? :: insp(0, ExplicitPort(o[k]).value) == Free
    decreases |o| - i
  {
    if ExplicitPort(o[i]).Some? && insp(0, ExplicitPort(o[i]).value).Refused? {
      j := i;
    } else {
      j := RefusalIsFirst(o, insp, i + 1);
    }
  }

  // Where the greedy plan stops ---------------------------------------------------------------------------

  /** Candidates begin just above the port a slot has now, or at the recommended one; without either there are none. */
  lemma CandidatesBegin(slot: PortSlot)
    ensures Start(slot).None? <==> slot.source.None? && slot.recommended.None?
    ensures slot.source.Some? ==> Start(slot) == Some(slot.source.value as int + 1)
    ensures slot.source.None? && slot.recommended.Some? ==> Start(slot).Some? && Start(slot).value == slot.recommended.value
  {
  }

  /** Automatic slots before j all have the least port they may have. */
  ghost predicate LeastBefore(o: seq<PortSlot>, insp: Inspector, taken: map<string, u16>, j: nat)
    requires j <= |o|
  {
    taken.Keys == AutoKeys(o, j) && forall k | 0 <= k < j && Automatic(o[k]) :: TakesLeast(o, insp, taken, k)
  }

  /** No candidate is left for a slot: there never was one, or each is taken or refused. */
  ghost predicate NothingLeft(o: seq<PortSlot>, insp: Inspector, taken: map<string, u16>, j: nat)
    requires j < |o|
  {
    Start(o[j]).Some? ==> forall q: u16 | Start(o[j]).value <= q <= o[j].max && o[j].min <= q ::
      TakenBefore(o, taken, j, q) || (insp(0, q).Refused? && insp(0, q).reason != Unavailable)
  }

  /** The least candidate that is neither taken nor refused cannot be checked. */
  ghost predicate CannotCheck(o: seq<PortSlot>, insp: Inspector, taken: map<string, u16>, j: nat, port: u16)
    requires j < |o|
  {
    && Start(o[j]).Some? && Start(o[j]).value <= port <= o[j].max && o[j].min <= port
    && !TakenBefore(o, taken, j, port) && insp(0, port) == Refused(Unavailable)
    && forall q: u16 | Start(o[j]).value <= q < port && o[j].min <= q ::
         TakenBefore(o, taken, j, q) || (insp(0, q).Refused? && insp(0, q).reason != Unavailable)
  }

  /** A later pick takes nothing away from earlier slots. */
  lemma SameTaken(
    o: seq<PortSlot>, picks: map<string, u16>, grown: map<string, u16>, i: nat, k: nat, q: u16)
    requires WellFormed(o) && k <= i < |o| && picks.Keys == AutoKeys(o, i) && o[i].key in grown
    requires grown == picks[o[i].key := grown[o[i].key]]
    ensures TakenBefore(o, grown, k, q) <==> TakenBefore(o, picks, k, q)
  {
    hide ExplicitPorts;
    forall m | 0 <= m < k && Automatic(o[m]) ensures o[m].key in picks && grown[o[m].key] == picks[o[m].key] {
      assert o[m].key in AutoKeys(o, i) && o[m].key != o[i].key;
    }
  }

  lemma StillLeast(o: seq<PortSlot>, insp: Inspector, picks: map<string, u16>, i: nat, port: u16)
    requires WellFormed(o) && i < |o| && Automatic(o[i]) && LeastBefore(o, insp, picks, i) && Start(o[i]).Some?
    requires FirstDecisive(o[i], Used(o, picks), insp, Start(o[i]).value) == Some(port) && insp(0, port) == Free
    ensures LeastBefore(o, insp, picks[o[i].key := port], i + 1)
  {
    hide Used, TakenBefore, FirstDecisive;
    var grown := picks[o[i].key := port];
    AutoKeysStep(o, i);
    assert o[i].key !in picks;
    LeastHere(o, insp, i, picks, grown);
    hide WellFormed, TakesLeast;
    forall k | 0 <= k < i && Automatic(o[k]) ensures TakesLeast(o, insp, grown, k) {
      LeastStays(o, insp, picks, grown, i, k);
    }
  }

  lemma LeastStays(
    o: seq<PortSlot>, insp: Inspector, picks: map<string, u16>, grown: map<string, u16>, i: nat, k: nat)
    requires WellFormed(o) && k < i < |o| && Automatic(o[k]) && picks.Keys == AutoKeys(o, i) && o[i].key in grown
    requires grown == picks[o[i].key := grown[o[i].key]] && TakesLeast(o, insp, picks, k)
    ensures TakesLeast(o, insp, grown, k)
  {
    hide TakenBefore;
    assert o[k].key in AutoKeys(o, i) && o[k].key != o[i].key;
    forall q: u16 ensures TakenBefore(o, grown, k, q) <==> TakenBefore(o, picks, k, q) {
      SameTaken(o, picks, grown, i, k, q);
    }
  }

  lemma NoneDecides(o: seq<PortSlot>, insp: Inspector, picks: map<string, u16>, i: nat)
    requires WellFormed(o) && i < |o| && picks.Keys == AutoKeys(o, i) && Start(o[i]).Some?
    requires FirstDecisive(o[i], Used(o, picks), insp, Start(o[i]).value).None?
    ensures NothingLeft(o, insp, picks, i)
  {
    hide Used, TakenBefore;
    FirstDecisiveIsLeast(o[i], Used(o, picks), insp, Start(o[i]).value);
    forall q: u16 | Start(o[i]).value <= q <= o[i].max && o[i].min <= q
      ensures TakenBefore(o, picks, i, q) || (insp(0, q).Refused? && insp(0, q).reason != Unavailable)
    {
      UsedIsTaken(o, i, picks, picks, q);
      assert !Decisive(o[i], Used(o, picks), insp, q);
      assert insp(0, q) == if insp(0, q).Free? then Free else Refused(insp(0, q).reason);
    }
  }

  lemma UncheckedDecides(o: seq<PortSlot>, insp: Inspector, picks: map<string, u16>, i: nat, port: u16)
    requires WellFormed(o) && i < |o| && picks.Keys == AutoKeys(o, i) && Start(o[i]).Some?
    requires FirstDecisive(o[i], Used(o, picks), insp, Start(o[i]).value) == Some(port) && insp(0, port) != Free
    ensures CannotCheck(o, insp, picks, i, port)
  {
    hide Used, TakenBefore;
    FirstDecisiveIsLeast(o[i], Used(o, picks), insp, Start(o[i]).value);
    UsedIsTaken(o, i, picks, picks, port);
    forall q: u16 | Start(o[i]).value <= q < port && o[i].min <= q
      ensures TakenBefore(o, picks, i, q) || (insp(0, q).Refused? && insp(0, q).reason != Unavailable)
    {
      UsedIsTaken(o, i, picks, picks, q);
      assert !Decisive(o[i], Used(o, picks), insp, q);
      assert insp(0, q) == if insp(0, q).Free? then Free else Refused(insp(0, q).reason);
    }
  }

  /**
   * A greedy plan that is not complete stops at the first automatic slot without a candidate left, or whose
   * least candidate cannot be checked; every automatic slot before it has the least port it may have.
   */
  lemma {:induction false} GreedyStops(o: seq<PortSlot>, insp: Inspector, i: nat, picks: map<string, u16>)
    returns (j: nat, taken: map<string, u16>, port: Option<u16>)
    requires WellFormed(o) && i <= |o| && LeastBefore(o, insp, picks, i)
    requires !GreedyFrom(o, insp, i, picks).Complete?
    ensures i <= j < |o| && Automatic(o[j]) && LeastBefore(o, insp, taken, j)
    ensures port.None? ==> GreedyFrom(o, insp, i, picks) == NeedsInput(o[j].key) && NothingLeft(o, insp, taken, j)
    ensures port.Some? ==> CannotCheck(o, insp, taken, j, port.value)
    ensures port.Some? ==>
      GreedyFrom(o, insp, i, picks) == Rejected(o[j].key, None, Unavailable, Some(Refused(Unavailable)))
    decreases |o| - i
  {
    hide LeastBefore, NothingLeft, CannotCheck, FirstDecisive;
    assert picks.Keys == AutoKeys(o, i) by { LeastKeys(o, insp, picks, i); }
    if !Automatic(o[i]) {
      NoPickHere(o, insp, picks, i);
      j, taken, port := GreedyStops(o, insp, i + 1, picks);
    } else if Start(o[i]).None? {
      j, taken, port := i, picks, None;
      assert NothingLeft(o, insp, picks, i) by { NoCandidates(o, insp, picks, i); }
    } else {
      var first := FirstDecisive(o[i], Used(o, picks), insp, Start(o[i]).value);
      if first.None? {
        NoneDecides(o, insp, picks, i);
        j, taken, port := i, picks, None;
      } else if insp(0, first.value) == Free {
        StillLeast(o, insp, picks, i, first.value);
        j, taken, port := GreedyStops(o, insp, i + 1, picks[o[i].key := first.value]);
      } else {
        UncheckedDecides(o, insp, picks, i, first.value);
        j, taken, port := i, picks, first;
      }
    }
  }

  lemma LeastKeys(o: seq<PortSlot>, insp: Inspector, picks: map<string, u16>, i: nat)
    requires i <= |o| && LeastBefore(o, insp, picks, i)
    ensures picks.Keys == AutoKeys(o, i)
  {
  }

  lemma NoPickHere(o: seq<PortSlot>, insp: Inspector, picks: map<string, u16>, i: nat)
    requires i < |o| && !Automatic(o[i]) && LeastBefore(o, insp, picks, i)
    ensures LeastBefore(o, insp, picks, i + 1)
  {
    AutoKeysStep(o, i);
  }

  lemma NoCandidates(o: seq<PortSlot>, insp: Inspector, picks: map<string, u16>, i: nat)
    requires i < |o| && Start(o[i]).None?
    ensures NothingLeft(o, insp, picks, i)
  {
  }
}
