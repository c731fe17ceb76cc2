/**
 * The table of billing records and the three writes the handlers make to it:
 * `index` adds a record, `update` rewrites one by id, `delete` removes one by id.
 * The database is abstracted as a map from id to record held by one object.
 */
module Records {
  import opened Results
  import opened Tariff
  import opened Calendar
  import opened Billing

  /** One row of the `Electricity` table, without its id. */
  datatype Record = Record(
    lastReadingDate: Date, lastReading: int,
    currentReadingDate: Date, currentReading: int,
    totalUnits: int, totalCharge: real, billingPeriod: string)

  /** The row stored for a submission and what was derived from it. */
  function RecordOf(p: ReadingPair, d: Derived): Record
  {
    Record(p.lastReadingDate, p.lastReading, p.currentReadingDate, p.currentReading,
           d.totalUnits, d.totalCharge, d.billingPeriod)
  }

  /** The submission a stored row was made from. */
  function PairOf(r: Record): ReadingPair
  {
    ReadingPair(r.lastReadingDate, r.lastReading, r.currentReadingDate, r.currentReading)
  }

  /** The invariants every stored row satisfies, stated directly on its fields. */
  predicate Consistent(r: Record)
  {
    && r.lastReading <= r.currentReading
    && !Before(r.currentReadingDate, r.lastReadingDate)
    && r.totalUnits == r.currentReading - r.lastReading
    && r.totalCharge == (r.totalUnits as real) * Rate(r.totalUnits)
    && r.billingPeriod == Period(r.lastReadingDate, r.currentReadingDate)
  }

  /** A row is consistent exactly when submitting its readings again would be
      accepted and would derive the fields it already has. */
  lemma ConsistentIsRevalidation(r: Record)
    ensures Consistent(r) <==> ValidateAndDerive(PairOf(r)).Ok?
                               && RecordOf(PairOf(r), ValidateAndDerive(PairOf(r)).value) == r
  {
    var p := PairOf(r);
    if p.lastReading <= p.currentReading && !Before(p.currentReadingDate, p.lastReadingDate) {
      var units := p.currentReading - p.lastReading;
      assert ValidateAndDerive(p)
             == Ok(Derived(units, Charge(units), Period(p.lastReadingDate, p.currentReadingDate)));
    }
  }

  /** Whatever an accepted submission derives makes a consistent row. */
  lemma AcceptedIsConsistent(p: ReadingPair)
    requires ValidateAndDerive(p).Ok?
    ensures Consistent(RecordOf(p, ValidateAndDerive(p).value))
  {
  }

  /** Why a write by id did not happen. */
  datatype StoreError = NotFound | Rejected(reason: ValidationError)

  class Table {
    /** The stored rows by id. */
    var rows: map<int, Record>
    /** The id the next insertion receives; ids are never reused. */
    var nextId: int

    ghost predicate Valid()
      reads this
    {
      && 1 <= nextId
      && forall id :: id in rows ==> 1 <= id < nextId && Consistent(rows[id])
    }

    /** An empty table. */
    constructor ()
      ensures Valid() && rows == map[]
    {
      rows := map[];
      nextId := 1;
    }

    /**
     * The POST branch of `index`: a refused submission leaves the table as it
     * was; an accepted one adds exactly one row, under an id not used before.
     */
    method Create(p: ReadingPair) returns (res: Result<int, ValidationError>)
      requires Valid()
      modifies this
      ensures Valid()
      ensures match ValidateAndDerive(p)
        case Err(e) => res == Err(e) && rows == old(rows)
        case Ok(d) => res.Ok? && res.value !in old(rows) && rows == old(rows)[res.value := RecordOf(p, d)]
    {
      match ValidateAndDerive(p)
      case Err(e) =>
        res := Err(e);
      case Ok(d) =>
        AcceptedIsConsistent(p);
        var id := nextId;
        rows := rows[id := RecordOf(p, d)];
        nextId := nextId + 1;
        res := Ok(id);
    }

    /**
     * The POST branch of `update`: an unknown id is not found (before any
     * validation); a refused submission leaves the table as it was; an accepted
     * one rewrites every field of that row, re-deriving the computed ones, and
     * leaves every other row as it was.
     */
    method Update(id: int, p: ReadingPair) returns (res: Result<(), StoreError>)
      requires Valid()
      modifies this
      ensures Valid() && nextId == old(nextId)
      ensures id !in old(rows) ==> res == Err(NotFound) && rows == old(rows)
      ensures id in old(rows) ==> match ValidateAndDerive(p)
        case Err(e) => res == Err(Rejected(e)) && rows == old(rows)
        case Ok(d) => res == Ok(()) && rows == old(rows)[id := RecordOf(p, d)]
    {
      if id !in rows {
        return Err(NotFound);
      }
      match ValidateAndDerive(p)
      case Err(e) =>
        res := Err(Rejected(e));
      case Ok(d) =>
        AcceptedIsConsistent(p);
        rows := rows[id := RecordOf(p, d)];
        res := Ok(());
    }

    /** `delete`: an unknown id is not found; a known one is removed and no other row changes. */
    method Delete(id: int) returns (res: Result<(), StoreError>)
      requires Valid()
      modifies this
      ensures Valid() && nextId == old(nextId)
      ensures id !in old(rows) ==> res == Err(NotFound) && rows == old(rows)
      ensures id in old(rows) ==> res == Ok(()) && rows == old(rows) - {id}
    {
      if id !in rows {
        return Err(NotFound);
      }
      rows := rows - {id};
      res := Ok(());
    }
  }

  /** A client run: one accepted entry, a rejected update, then its deletion. */
  method Session(p: ReadingPair, bad: ReadingPair)
    requires ValidateAndDerive(p).Ok?
    requires bad.currentReading < bad.lastReading
  {
    var t := new Table();
    var created := t.Create(p);
    var id := created.value;
    assert t.rows == map[id := RecordOf(p, ValidateAndDerive(p).value)];
    assert Consistent(t.rows[id]);
    var updated := t.Update(id, bad);
    assert updated == Err(Rejected(NonIncreasingReading));
    assert t.rows == map[id := RecordOf(p, ValidateAndDerive(p).value)];
    var deleted := t.Delete(id);
    assert deleted.Ok? && t.rows == map[];
  }
}
