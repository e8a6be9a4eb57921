/** Inputs and outcomes of host port planning, and the order in which slots are examined. */
module PortSlots {
  import opened Wrappers

  datatype PortReason = Reserved | Planned | Docker | Host | Unavailable | InvalidInput | DuplicateInput

  datatype PortCheck = Free | Refused(reason: PortReason)

  datatype PortSlot = PortSlot(
    key: string,
    source: Option<u16>,
    recommended: Option<u16>,
    explicit: Option<string>,
    min: u16,
    max: u16)

  datatype PortCursor = PortCursor(
    next: map<string, u32>,
    selected: map<string, u16>,
    checkedExplicit: map<string, u16>)

  const EMPTY_CURSOR := PortCursor(map[], map[], map[])

  datatype PortPlan =
    | Complete(ports: map<string, u16>)
    | Incomplete(cursor: PortCursor)
    | NeedsInput(slot: string)
    | Rejected(slot: string, conflicting: Option<string>, reason: PortReason, check: Option<PortCheck>)

  /** The answer an inspector gives to its n-th question; it may change its mind at every call. */
  type Inspector = (nat, u16) -> PortCheck

  /** Whether the deadline has passed at the n-th reading of the clock. */
  type Clock = nat -> bool

  predicate ValidKey(key: string) {
    && 0 < |key| <= 32
    && 'a' <= key[0] <= 'z'
    && forall i | 0 <= i < |key| :: 'a' <= key[i] <= 'z' || IsDigit(key[i]) || key[i] == '-'
  }

  predicate ValidSlot(slot: PortSlot) {
    ValidKey(slot.key) && 1024 <= slot.min <= slot.max
  }

  function DigitsValue(s: string): nat
    requires forall i | 0 <= i < |s| :: IsDigit(s[i])
  {
    if s == [] then 0
    else
      assert IsDigit(s[|s| - 1]);
      DigitsValue(s[..|s| - 1]) * 10 + (s[|s| - 1] as int - '0' as int)
  }

  /** Decimal text as an unsigned 16-bit number; one leading plus sign is tolerated. */
  function ParseU16(text: string): Option<u16> {
    var digits := if |text| > 0 && text[0] == '+' then text[1..] else text;
    if digits == [] || (exists i | 0 <= i < |digits| :: !IsDigit(digits[i])) then None
    else
      var value := DigitsValue(digits);
      if value < 0x1_0000 then Some(value) else None
  }

  function ExplicitPort(slot: PortSlot): Option<u16> {
    match slot.explicit
    case Some(text) => ParseU16(text)
    case None => None
  }

  predicate Automatic(slot: PortSlot) { slot.explicit.None? }

  /** First automatic candidate: just above the source port, else the recommendation. */
  function Start(slot: PortSlot): Option<u32> {
    match slot.source
    case Some(port) => Some(port + 1)
    case None =>
      match slot.recommended
      case Some(port) => Some(port)
      case None => None
  }

  // Key order -----------------------------------------------------------------

  /** Strict lexicographic order of keys. */
  predicate Below(a: string, b: string) {
    b != [] && (a == [] || a[0] < b[0] || (a[0] == b[0] && Below(a[1..], b[1..])))
  }

  lemma {:induction false} BelowTransitive(a: string, b: string, c: string)
    requires !Below(b, a) && !Below(c, b)
    ensures !Below(c, a)
  {
    if a != [] && b != [] && c != [] && a[0] == b[0] == c[0] {
      BelowTransitive(a[1..], b[1..], c[1..]);
    }
  }

  lemma {:induction false} BelowTotal(a: string, b: string)
    ensures !(Below(a, b) && Below(b, a))
    ensures Below(a, b) || Below(b, a) || a == b
  {
    if a != [] && b != [] && a[0] == b[0] {
      BelowTotal(a[1..], b[1..]);
      assert a == [a[0]] + a[1..] && b == [b[0]] + b[1..];
    }
  }

  predicate KeySorted(slots: seq<PortSlot>) {
    forall i, j | 0 <= i < j < |slots| :: !Below(slots[j].key, slots[i].key)
  }

  function Insert(slot: PortSlot, sorted: seq<PortSlot>): seq<PortSlot> {
    if sorted == [] then [slot]
    else if Below(sorted[0].key, slot.key) then [sorted[0]] + Insert(slot, sorted[1..])
    else [slot] + sorted
  }

  /** Stable sort by key. */
  function SortByKey(slots: seq<PortSlot>): seq<PortSlot> {
    if slots == [] then [] else Insert(slots[0], SortByKey(slots[1..]))
  }

  lemma {:induction false} InsertKeeps(slot: PortSlot, sorted: seq<PortSlot>)
    ensures multiset(Insert(slot, sorted)) == multiset{slot} + multiset(sorted)
  {
    if sorted != [] && Below(sorted[0].key, slot.key) {
      InsertKeeps(slot, sorted[1..]);
      assert sorted == [sorted[0]] + sorted[1..];
    }
  }

  lemma {:induction false} InsertSorts(slot: PortSlot, sorted: seq<PortSlot>)
    requires KeySorted(sorted)
    ensures KeySorted(Insert(slot, sorted))
  {
    if sorted == [] {
    } else if Below(sorted[0].key, slot.key) {
      var rest, placed := sorted[1..], Insert(slot, sorted[1..]);
      InsertSorts(slot, rest);
      InsertKeeps(slot, rest);
      BelowTotal(sorted[0].key, slot.key);
      forall j | 0 <= j < |placed| ensures !Below(placed[j].key, sorted[0].key) {
        assert placed[j] in multiset(placed);
        assert placed[j] != slot ==> placed[j] in rest;
      }
    } else {
      forall j | 0 <= j < |sorted| ensures !Below(sorted[j].key, slot.key) {
        if j > 0 { BelowTransitive(slot.key, sorted[0].key, sorted[j].key); }
      }
    }
  }

  lemma {:induction false} SortByKeySorts(slots: seq<PortSlot>)
    ensures KeySorted(SortByKey(slots))
    ensures multiset(SortByKey(slots)) == multiset(slots)
    ensures forall slot :: slot in SortByKey(slots) <==> slot in slots
  {
    if slots != [] {
      SortByKeySorts(slots[1..]);
      InsertSorts(slots[0], SortByKey(slots[1..]));
      InsertKeeps(slots[0], SortByKey(slots[1..]));
      assert slots == [slots[0]] + slots[1..];
    }
    forall slot ensures slot in SortByKey(slots) <==> slot in slots {
      assert slot in multiset(SortByKey(slots)) <==> slot in multiset(slots);
    }
  }
}
