/** Rewriting the rows of one instance, above all the journal row of one operation. */
module StoreRows {
  import opened Wrappers
  import opened LedgerTypes
  import opened LedgerStore
  import Journal

  predicate Names(db: Db, instance: string, op: string) {
    && instance in db.cells && op in db.cells[instance].ops && op in db.owner && db.owner[op] == instance
  }

  function At(db: Db, instance: string, c: Cell): Db { db.(cells := db.cells[instance := c]) }

  function WithRow(c: Cell, op: string, o: Operation): Cell { c.(ops := c.ops[op := o]) }

  /** A journal call on a store in which only this row was rewritten. */
  lemma WriteIs(start: Db, instance: string, op: string, o: Operation, call: Journal.Call, after: Operation)
    requires Names(start, instance, op) && Journal.Apply(o, call) == Ok(after)
    ensures var now := At(start, instance, WithRow(start.cells[instance], op, o));
      var next := At(start, instance, WithRow(start.cells[instance], op, after));
      Names(now, instance, op) && Names(next, instance, op)
      && LedgerStore.Apply(now, Write(op, call)) == Ok(next) && Next(now, Write(op, call)) == next
  {
    hide Journal.Apply;
    var now, next := At(start, instance, WithRow(start.cells[instance], op, o)),
      At(start, instance, WithRow(start.cells[instance], op, after));
    assert WithRow(now.cells[instance], op, after) == WithRow(start.cells[instance], op, after);
    assert At(now, instance, WithRow(now.cells[instance], op, after)) == next;
  }

  lemma SameAt(db: Db, instance: string, op: string)
    requires Names(db, instance, op)
    ensures At(db, instance, WithRow(db.cells[instance], op, db.cells[instance].ops[op])) == db
  {
    assert WithRow(db.cells[instance], op, db.cells[instance].ops[op]) == db.cells[instance];
  }

  lemma AtAt(db: Db, instance: string, c: Cell, d: Cell)
    ensures At(At(db, instance, c), instance, d) == At(db, instance, d)
  {
  }

  lemma CellStays(db: Db, instance: string)
    requires instance in db.cells
    ensures At(db, instance, db.cells[instance]) == db
  {
  }
}
