/** The reconciliation service: the server actions that turn a form into a
    reading, and a payment or a forced status into payment records and an
    updated reading, each a short sequence of calls on the store. The store
    never fails here, so the failure replies of the catch branches do not
    arise. */
module Actions {
  import opened Billing
  import opened Tables
  import opened Ledger
  import opened Database

  /** The { success, error } reply of an action that returns no data. */
  datatype Outcome = Success | Failure(error: string)

  /** The notes of a payment: the given text, or the empty text when none is given. */
  function NotesOrEmpty(notes: Option<string>): (n: string)
    ensures notes.Some? ==> n == notes.value
    ensures notes.None? ==> n == ""
  {
    if notes.Some? then notes.value else ""
  }

  /** The date of a top-up: the given one, or today when none is given. */
  function DateOr(paymentDate: Option<Date>, today: Date): (d: Date)
    ensures paymentDate.Some? ==> d == paymentDate.value
    ensures paymentDate.None? ==> d == today
  {
    if paymentDate.Some? then paymentDate.value else today
  }

  /** The notes of a top-up: the given text, or a generated one when it is
      missing or empty, which names the requested status. A top-up record
      never carries empty notes. */
  function StatusNotes(notes: Option<string>, status: string): (n: string)
    ensures n != ""
    ensures notes.Some? && notes.value != "" ==> n == notes.value
    ensures notes.None? || notes.value == "" ==>
              |n| == |status| + 30 && n[18..|status| + 18] == status
  {
    assert |"Status updated to "| == 18 && |" by landlord"| == 12;
    if notes.Some? && notes.value != "" then notes.value
    else "Status updated to " + status + " by landlord"
  }

  /** Every reading, newest first. */
  method FetchMeterReadings(db: Store) returns (rows: seq<Reading>)
    ensures multiset(rows) == multiset(db.readings)
    ensures NewestFirst(rows, ReadingDate)
  {
    rows := db.FetchMeterReadings();
  }

  /** A new reading: billed by the calculator, unpaid, nothing paid. */
  method AddMeterReading(db: Store, form: ReadingForm) returns (row: Reading)
    requires db.Valid()
    modifies db
    ensures db.Valid()
    ensures db.readings == old(db.readings) + [row]
    ensures db.payments == old(db.payments)
    ensures forall r :: r in old(db.readings) ==> r.id != row.id
    ensures row.billing == Columns(form)
    ensures row.paymentStatus == Some(Unpaid) && row.paidAmount == Some(0)
    ensures db.nextReadingId == old(db.nextReadingId) + 1 && db.nextPaymentId == old(db.nextPaymentId)
  {
    row := db.AddMeterReading(Fields(Columns(form), Some(Unpaid), Some(0)));
  }

  /** An edited reading: the form's values and a recomputed bill replace the
      billing columns of the reading with that id; its payment columns, and
      every other reading, stay as they were. An unknown id changes nothing
      and returns no row. */
  method EditMeterReading(db: Store, id: Id, form: ReadingForm) returns (data: Option<Reading>)
    requires db.Valid()
    modifies db
    ensures db.Valid()
    ensures db.payments == old(db.payments)
    ensures |db.readings| == |old(db.readings)|
    ensures forall i :: 0 <= i < |db.readings| ==>
              db.readings[i] == if old(db.readings)[i].id == id
                                then old(db.readings)[i].(billing := Columns(form))
                                else old(db.readings)[i]
    ensures data.None? <==> old(Find(db.readings, id)).None?
    ensures data.Some? ==> data.value == old(Find(db.readings, id)).value.(billing := Columns(form))
    ensures db.nextReadingId == old(db.nextReadingId) && db.nextPaymentId == old(db.nextPaymentId)
  {
    data := db.EditMeterReading(id, Fields(Columns(form), None, None));
  }

  /** Deleting a reading always reports success; its payment records stay. */
  method RemoveMeterReading(db: Store, id: Id) returns (res: Outcome)
    requires db.Valid()
    modifies db
    ensures db.Valid()
    ensures res == Success
    ensures db.readings == DeleteWhere(old(db.readings), id)
    ensures db.payments == old(db.payments)
    ensures db.nextReadingId == old(db.nextReadingId) && db.nextPaymentId == old(db.nextPaymentId)
  {
    var _ := db.RemoveMeterReading(id);
    res := Success;
  }

  /** Recording a payment: one record is appended first, whether or not a
      reading has that id; then the reading with that id, if any, has the
      amount added to its paid amount and takes the ladder status, through the
      edit query (which blanks its billing columns). Always a success. */
  method AddPayment(db: Store, readingId: Id, amount: int, paymentDate: Option<Date>,
                    paymentMethod: Option<string>, notes: Option<string>)
    returns (res: Outcome)
    requires db.Valid()
    modifies db
    ensures db.Valid()
    ensures res == Success
    ensures db.payments == old(db.payments)
              + [Payment(old(db.nextPaymentId), readingId, Some(amount), paymentDate,
                         paymentMethod, Some(NotesOrEmpty(notes)))]
    ensures db.readings == RecordInTable(old(db.readings), readingId, amount)
    ensures db.nextReadingId == old(db.nextReadingId) && db.nextPaymentId == old(db.nextPaymentId) + 1
  {
    var noteText := NotesOrEmpty(notes);
    var _ := db.AddPayment(readingId, Some(amount), paymentDate, paymentMethod, Some(noteText));

    var rows := db.FetchMeterReadings();
    FindInReordering(db.readings, rows, readingId);
    var reading := Find(rows, readingId);

    if reading.Some? {
      var newPaidAmount := Num(reading.value.paidAmount) + amount;
      var paymentStatus := LadderStatus(newPaidAmount, Num(reading.value.billing.totalAmount));
      assert Fields(Blank, Some(paymentStatus), Some(newPaidAmount)) == PaymentFields(reading.value, amount);
      var _ := db.EditMeterReading(readingId, Fields(Blank, Some(paymentStatus), Some(newPaidAmount)));
    }
    res := Success;
  }

  /** Forcing a status: an unknown id is reported and nothing is written.
      Otherwise a top-up record of method "other" is appended when the
      decided difference is positive, and the reading with that id takes the
      requested status and the decided paid amount through the edit query
      (which blanks its billing columns). */
  method UpdatePaymentStatus(db: Store, readingId: Id, status: string, partialAmount: Option<int>,
                             paymentDate: Option<Date>, notes: Option<string>, today: Date)
    returns (res: Outcome)
    requires db.Valid()
    modifies db
    ensures db.Valid()
    ensures old(Find(db.readings, readingId)).None? ==>
              && res == Failure("Reading not found")
              && db.readings == old(db.readings)
              && db.payments == old(db.payments)
    ensures old(Find(db.readings, readingId)).Some? ==> res == Success
    ensures old(Find(db.readings, readingId)).Some? ==>
              var topUp := ForcedChange(old(Find(db.readings, readingId)).value, ParseStatus(status), partialAmount).topUp;
              db.payments == old(db.payments)
                + if topUp > 0
                  then [Payment(old(db.nextPaymentId), readingId, Some(topUp), Some(DateOr(paymentDate, today)),
                                Some("other"), Some(StatusNotes(notes, status)))]
                  else []
    ensures db.readings == ForceInTable(old(db.readings), readingId, ParseStatus(status), partialAmount)
    ensures db.nextReadingId == old(db.nextReadingId)
    ensures db.nextPaymentId == old(db.nextPaymentId) + (|db.payments| - |old(db.payments)|)
  {
    var requested := ParseStatus(status);
    var rows := db.FetchMeterReadings();
    FindInReordering(db.readings, rows, readingId);
    var reading := Find(rows, readingId);
    if reading.None? {
      return Failure("Reading not found");
    }
    var r := reading.value;

    var newPaidAmount := r.paidAmount;
    var paymentToAdd := 0;
    if requested == Paid {
      paymentToAdd := Num(r.billing.totalAmount) - Num(r.paidAmount);
      newPaidAmount := r.billing.totalAmount;
    } else if requested == Partial && partialAmount.Some? {
      paymentToAdd := partialAmount.value - Num(r.paidAmount);
      newPaidAmount := partialAmount;
    } else if requested == Unpaid {
      newPaidAmount := r.paidAmount;
    }
    assert Forced(newPaidAmount, paymentToAdd) == ForcedChange(r, requested, partialAmount);

    if paymentToAdd > 0 {
      var _ := db.AddPayment(readingId, Some(paymentToAdd), Some(DateOr(paymentDate, today)),
                             Some("other"), Some(StatusNotes(notes, status)));
    }
    var _ := db.EditMeterReading(readingId, Fields(Blank, Some(requested), newPaidAmount));
    res := Success;
  }
}
