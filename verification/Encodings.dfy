/** The byte strings whose digests confirm a port map and a recovery from external edits. */
module Encodings {
  import opened Wrappers

  // Port maps -----------------------------------------------------------------------------------

  /** One entry of a port map, with its texts as bytes. */
  datatype Row = Row(slot: Bytes, ip: Bytes, host: u16, container: u16)

  function Be16(n: u16): Bytes { [(n / 256) as byte, (n % 256) as byte] }

  function FromBe16(bytes: Bytes): u16
    requires |bytes| == 2
  {
    bytes[0] as int * 256 + bytes[1] as int
  }

  function EncodeRow(row: Row): Bytes {
    row.slot + [0] + row.ip + [0] + Be16(row.host) + Be16(row.container)
  }

  function EncodeRows(rows: seq<Row>): Bytes {
    if rows == [] then [] else EncodeRow(rows[0]) + EncodeRows(rows[1..])
  }

  predicate NoZero(row: Row) { 0 !in row.slot && 0 !in row.ip }

  /** The text before the first zero byte and what follows it. */
  function SplitAtZero(bytes: Bytes): Option<(Bytes, Bytes)> {
    if bytes == [] then None
    else if bytes[0] == 0 then Some(([], bytes[1..]))
    else
      match SplitAtZero(bytes[1..])
      case None => None
      case Some((text, rest)) => Some(([bytes[0]] + text, rest))
  }

  lemma {:induction false} SplitSizes(bytes: Bytes)
    ensures SplitAtZero(bytes).Some? ==>
      |SplitAtZero(bytes).value.0| + |SplitAtZero(bytes).value.1| + 1 == |bytes|
  {
    if bytes != [] && bytes[0] != 0 { SplitSizes(bytes[1..]); }
  }

  lemma {:induction false} SplitFinds(text: Bytes, rest: Bytes)
    requires 0 !in text
    ensures SplitAtZero(text + [0] + rest) == Some((text, rest))
  {
    if text == [] {
      assert text + [0] + rest == [0] + rest;
    } else {
      SplitFinds(text[1..], rest);
      assert (text + [0] + rest)[1..] == text[1..] + [0] + rest;
      assert text == [text[0]] + text[1..];
    }
  }

  function DecodeRows(bytes: Bytes): Option<seq<Row>>
    decreases |bytes|
  {
    if bytes == [] then Some([])
    else
      SplitSizes(bytes);
      match SplitAtZero(bytes)
      case None => None
      case Some((slot, afterSlot)) =>
        SplitSizes(afterSlot);
        match SplitAtZero(afterSlot)
        case None => None
        case Some((ip, numbers)) =>
          if |numbers| < 4 then None
          else
            match DecodeRows(numbers[4..])
            case None => None
            case Some(rows) => Some([Row(slot, ip, FromBe16(numbers[..2]), FromBe16(numbers[2..4]))] + rows)
  }

  lemma Be16Inverts(n: u16)
    ensures FromBe16(Be16(n)) == n
  {
  }

  /** Every port map without zero bytes in its texts can be read back from its encoding. */
  lemma {:induction false} RowsDecode(rows: seq<Row>)
    requires forall i | 0 <= i < |rows| :: NoZero(rows[i])
    ensures DecodeRows(EncodeRows(rows)) == Some(rows)
  {
    if rows != [] {
      var row, rest := rows[0], EncodeRows(rows[1..]);
      RowsDecode(rows[1..]);
      var numbers := Be16(row.host) + Be16(row.container) + rest;
      var bytes := EncodeRows(rows);
      assert bytes == row.slot + [0] + (row.ip + [0] + numbers);
      SplitFinds(row.slot, row.ip + [0] + numbers);
      SplitFinds(row.ip, numbers);
      assert numbers[..2] == Be16(row.host) && numbers[2..4] == Be16(row.container) && numbers[4..] == rest;
      Be16Inverts(row.host);
      Be16Inverts(row.container);
      assert rows == [row] + rows[1..];
    }
  }

  lemma EncodeRowsInjective(a: seq<Row>, b: seq<Row>)
    requires forall i | 0 <= i < |a| :: NoZero(a[i])
    requires forall i | 0 <= i < |b| :: NoZero(b[i])
    requires EncodeRows(a) == EncodeRows(b)
    ensures a == b
  {
    RowsDecode(a);
    RowsDecode(b);
  }

  /** Rows list a map: one row for each slot and nothing else. */
  ghost predicate Lists(rows: seq<Row>, ports: map<Bytes, Row>) {
    && (forall i | 0 <= i < |rows| :: rows[i].slot in ports && ports[rows[i].slot] == rows[i])
    && forall slot | slot in ports :: exists i :: 0 <= i < |rows| && rows[i].slot == slot
  }

  /** Under a collision-free digest, equal confirmation hashes mean the same port map. */
  lemma SameBytesSamePorts(a: seq<Row>, b: seq<Row>, portsA: map<Bytes, Row>, portsB: map<Bytes, Row>)
    requires Lists(a, portsA) && Lists(b, portsB) && EncodeRows(a) == EncodeRows(b)
    requires forall i | 0 <= i < |a| :: NoZero(a[i])
    requires forall i | 0 <= i < |b| :: NoZero(b[i])
    ensures portsA == portsB
  {
    hide EncodeRows, NoZero;
    EncodeRowsInjective(a, b);
    forall slot | slot in portsA ensures slot in portsB && portsB[slot] == portsA[slot] {
      var i :| 0 <= i < |a| && a[i].slot == slot;
    }
    forall slot | slot in portsB ensures slot in portsA {
      var i :| 0 <= i < |b| && b[i].slot == slot;
    }
  }

  lemma SplitHere(text: Bytes)
    requires 0 in text
    ensures exists before, after :: text == before + [0] + after
  {
    var i :| 0 <= i < |text| && text[i] == 0;
    assert text == text[..i] + [0] + text[i + 1..];
  }

  /** An entry is the only one with its encoding exactly when its texts hold no zero byte. */
  lemma UniqueIffNoZero(row: Row)
    ensures (forall other :: EncodeRow(other) == EncodeRow(row) ==> other == row) <==> NoZero(row)
  {
    if NoZero(row) {
      forall other | EncodeRow(other) == EncodeRow(row) ensures other == row {
        SameTexts(row, other);
      }
    } else if 0 in row.slot {
      SplitHere(row.slot);
      var before, after :| row.slot == before + [0] + after;
      var other := Row(before, after + [0] + row.ip, row.host, row.container);
      assert EncodeRow(other) == EncodeRow(row);
      assert |other.slot| < |row.slot|;
    } else {
      SplitHere(row.ip);
      var before, after :| row.ip == before + [0] + after;
      var other := Row(row.slot + [0] + before, after, row.host, row.container);
      assert EncodeRow(other) == EncodeRow(row);
      assert |other.slot| > |row.slot|;
    }
  }

  /** Without zero bytes on one side, equal encodings leave no room for any on the other. */
  lemma SameTexts(row: Row, other: Row)
    requires NoZero(row) && EncodeRow(other) == EncodeRow(row)
    ensures other == row
  {
    var bytes, tail := EncodeRow(row), Be16(row.host) + Be16(row.container);
    var n := |row.slot| + |row.ip| + 2;
    assert bytes == row.slot + [0] + (row.ip + [0] + tail) && |bytes| == n + 4;
    assert |other.slot| + |other.ip| + 2 == n;
    assert bytes[|other.slot|] == 0;
    assert bytes[|row.slot|] == 0;
    forall i | 0 <= i < n - 1 && i != |row.slot| ensures bytes[i] != 0 {
      if i < |row.slot| {
        assert bytes[i] == row.slot[i];
      } else {
        assert bytes[i] == row.ip[i - |row.slot| - 1];
      }
    }
    assert |other.slot| == |row.slot|;
    assert other.slot == bytes[..|row.slot|] == row.slot;
    assert other.ip == bytes[|row.slot| + 1..n - 1] == row.ip;
    assert bytes[n..n + 2] == Be16(row.host) == Be16(other.host);
    assert bytes[n + 2..] == Be16(row.container) == Be16(other.container);
    Be16Inverts(row.host);
    Be16Inverts(other.host);
    Be16Inverts(row.container);
    Be16Inverts(other.container);
  }

  // Recovery requests ---------------------------------------------------------------------------

  function Le(n: nat, width: nat): Bytes {
    if width == 0 then [] else [(n % 256) as byte] + Le(n / 256, width - 1)
  }

  function FromLe(bytes: Bytes): nat {
    if bytes == [] then 0 else bytes[0] as int + 256 * FromLe(bytes[1..])
  }

  function Power256(width: nat): nat { if width == 0 then 1 else 256 * Power256(width - 1) }

  lemma {:induction false} LeInverts(n: nat, width: nat)
    requires n < Power256(width)
    ensures |Le(n, width)| == width && FromLe(Le(n, width)) == n
  {
    if width > 0 {
      LeInverts(n / 256, width - 1);
      assert Le(n, width)[1..] == Le(n / 256, width - 1);
    }
  }

  lemma Power256Of8()
    ensures Power256(8) == 0x1_0000_0000_0000_0000
  {
    assert Power256(4) == 0x1_0000_0000;
    assert Power256(6) == 256 * Power256(5) == 256 * 256 * Power256(4);
    assert Power256(8) == 256 * Power256(7) == 256 * 256 * Power256(6);
  }

  /** Each field is preceded by its length in eight bytes. */
  function EncodeFields(fields: seq<Bytes>): Bytes {
    if fields == [] then [] else Le(|fields[0]|, 8) + fields[0] + EncodeFields(fields[1..])
  }

  function DecodeFields(bytes: Bytes): Option<seq<Bytes>>
    decreases |bytes|
  {
    if bytes == [] then Some([])
    else if |bytes| < 8 then None
    else
      var n := FromLe(bytes[..8]);
      if |bytes| < 8 + n then None
      else
        match DecodeFields(bytes[8 + n..])
        case None => None
        case Some(fields) => Some([bytes[8..8 + n]] + fields)
  }

  lemma {:induction false} FieldsDecode(fields: seq<Bytes>)
    requires forall i | 0 <= i < |fields| :: |fields[i]| < 0x1_0000_0000_0000_0000
    ensures DecodeFields(EncodeFields(fields)) == Some(fields)
  {
    if fields != [] {
      var field, rest := fields[0], EncodeFields(fields[1..]);
      Power256Of8();
      LeInverts(|field|, 8);
      FieldsDecode(fields[1..]);
      var bytes := EncodeFields(fields);
      assert bytes[..8] == Le(|field|, 8);
      assert bytes[8..8 + |field|] == field;
      assert bytes[8 + |field|..] == rest;
      assert fields == [field] + fields[1..];
    }
  }

  // Revisions as decimal text ---------------------------------------------------------------------

  function Digits(n: nat): Bytes {
    if n < 10 then [(48 + n) as byte] else Digits(n / 10) + [(48 + n % 10) as byte]
  }

  function Value(text: Bytes): int {
    if text == [] then 0 else Value(text[..|text| - 1]) * 10 + (text[|text| - 1] as int - 48)
  }

  lemma {:induction false} DigitsValue(n: nat)
    ensures Digits(n) != [] && Value(Digits(n)) == n
  {
    if n >= 10 {
      DigitsValue(n / 10);
      assert Digits(n)[..|Digits(n)| - 1] == Digits(n / 10);
    } else {
      assert Digits(n)[..0] == [];
    }
  }

  /** What a recovery request confirms. */
  datatype RecoveryFields = RecoveryFields(
    scope: Bytes, instance: Bytes, confirmed: u64, spec: u64, artifact: Bytes, confirmation: Bytes)

  function FieldsOf(r: RecoveryFields): seq<Bytes> {
    [r.scope, r.instance, Digits(r.confirmed), Digits(r.spec), r.artifact, r.confirmation]
  }

  predicate Addressable(r: RecoveryFields) {
    forall i | 0 <= i < 6 :: |FieldsOf(r)[i]| < 0x1_0000_0000_0000_0000
  }

  /** Under a collision-free digest, equal request hashes mean the same scope, revisions, file and files. */
  lemma SameBytesSameRequest(a: RecoveryFields, b: RecoveryFields)
    requires Addressable(a) && Addressable(b) && EncodeFields(FieldsOf(a)) == EncodeFields(FieldsOf(b))
    ensures a == b
  {
    FieldsDecode(FieldsOf(a));
    FieldsDecode(FieldsOf(b));
    assert FieldsOf(a) == FieldsOf(b);
    assert forall i | 0 <= i < 6 :: FieldsOf(a)[i] == FieldsOf(b)[i];
    assert FieldsOf(a)[2] == Digits(a.confirmed) && FieldsOf(b)[2] == Digits(b.confirmed);
    assert FieldsOf(a)[3] == Digits(a.spec) && FieldsOf(b)[3] == Digits(b.spec);
    assert FieldsOf(a)[4] == a.artifact && FieldsOf(b)[4] == b.artifact;
    assert FieldsOf(a)[5] == a.confirmation && FieldsOf(b)[5] == b.confirmation;
    DigitsValue(a.confirmed);
    DigitsValue(b.confirmed);
    DigitsValue(a.spec);
    DigitsValue(b.spec);
  }
}
