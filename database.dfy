/** The data-access layer: one method per exported function of the database
    library, each an operation on the two in-memory tables. */
module Database {
  import opened Billing
  import opened Tables

  /** The meter_readings and payment_records tables, with the counters from
      which the store assigns row ids. */
  class Store {
    var readings: seq<Reading>
    var payments: seq<Payment>
    var nextReadingId: Id
    var nextPaymentId: Id

    /** Ids are unique within a table and were all handed out before. */
    ghost predicate Valid()
      reads this
    {
      && DistinctIds(readings, ReadingId) && IdsBelow(readings, ReadingId, nextReadingId)
      && DistinctIds(payments, PaymentId) && IdsBelow(payments, PaymentId, nextPaymentId)
    }

    /** Two empty tables. */
    constructor ()
      ensures Valid()
      ensures readings == [] && payments == []
    {
      readings, payments := [], [];
      nextReadingId, nextPaymentId := 0, 0;
    }

    /** SELECT * FROM meter_readings ORDER BY reading_date DESC: every reading,
        once each, newest first. */
    method FetchMeterReadings() returns (rows: seq<Reading>)
      ensures multiset(rows) == multiset(readings)
      ensures NewestFirst(rows, ReadingDate)
    {
      rows := SortNewestFirst(readings, ReadingDate);
    }

    /** INSERT INTO meter_readings ... RETURNING *: exactly one new row with the
        ten supplied values and a fresh id, which is returned. */
    method AddMeterReading(f: Fields) returns (row: Reading)
      requires Valid()
      modifies this
      ensures Valid()
      ensures row == Reading(old(nextReadingId), f.billing, f.paymentStatus, f.paidAmount)
      ensures forall r :: r in old(readings) ==> r.id != row.id
      ensures readings == old(readings) + [row]
      ensures nextReadingId == old(nextReadingId) + 1
      ensures payments == old(payments) && nextPaymentId == old(nextPaymentId)
    {
      row := Reading(nextReadingId, f.billing, f.paymentStatus, f.paidAmount);
      AppendKeepsIds(readings, row, ReadingId, nextReadingId);
      readings := readings + [row];
      nextReadingId := nextReadingId + 1;
    }

    /** UPDATE meter_readings SET <eight columns> = $1..$8, payment_status =
        COALESCE($9, payment_status), paid_amount = COALESCE($10, paid_amount)
        WHERE id = $11 RETURNING *. Only the row with that id changes; an
        unknown id changes nothing and returns no row, without an error. */
    method EditMeterReading(id: Id, f: Fields) returns (data: Option<Reading>)
      requires Valid()
      modifies this`readings
      ensures Valid()
      ensures readings == UpdateWhere(old(readings), id, Merge(f))
      ensures data.None? <==> old(Find(readings, id)).None?
      ensures data.Some? ==> data.value == Apply(old(Find(readings, id)).value, Merge(f))
    {
      UpdateKeepsIds(readings, id, Merge(f), nextReadingId);
      FindAfterUpdate(readings, id, Merge(f));
      readings := UpdateWhere(readings, id, Merge(f));
      data := Find(readings, id);
    }

    /** DELETE FROM meter_readings WHERE id = $1: the reading goes, the
        payment records stay, and the answer is always true. */
    method RemoveMeterReading(id: Id) returns (data: bool)
      requires Valid()
      modifies this`readings
      ensures Valid()
      ensures data
      ensures readings == DeleteWhere(old(readings), id)
      ensures Find(readings, id).None?
    {
      DeleteKeepsIds(readings, id, nextReadingId);
      readings := DeleteWhere(readings, id);
      data := true;
    }

    /** INSERT INTO payment_records ... RETURNING *: one record appended with a
        fresh id; the readings are not touched. */
    method AddPayment(meterReadingId: Id, amount: Option<int>, paymentDate: Option<Date>,
                      paymentMethod: Option<string>, notes: Option<string>)
      returns (record: Payment)
      requires Valid()
      modifies this`payments, this`nextPaymentId
      ensures Valid()
      ensures record == Payment(old(nextPaymentId), meterReadingId, amount, paymentDate, paymentMethod, notes)
      ensures forall p :: p in old(payments) ==> p.id != record.id
      ensures payments == old(payments) + [record]
      ensures nextPaymentId == old(nextPaymentId) + 1
    {
      record := Payment(nextPaymentId, meterReadingId, amount, paymentDate, paymentMethod, notes);
      AppendKeepsIds(payments, record, PaymentId, nextPaymentId);
      payments := payments + [record];
      nextPaymentId := nextPaymentId + 1;
    }
  }
}
