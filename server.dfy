/** The HTTP route handlers, each modelled as the table read or write it
    performs on the same store the actions use. Three of them issue their own
    SQL and so diverge from the actions: the edit route never touches the
    payment columns, the payments route records a payment without updating
    its reading, and the status route writes both payment columns verbatim. */
module Server {
  import opened Billing
  import opened Tables
  import opened Ledger
  import opened Database

  /** The status column as the status route writes it: the body's text
      verbatim, or NULL when the body has none. */
  function StatusColumn(text: Option<string>): (s: Option<Status>)
    ensures s.None? <==> text.None?
    ensures s.Some? ==> Label(s.value) == text.value && Canonical(s.value)
  {
    if text.Some? then Some(ParseStatus(text.value)) else None
  }

  /** GET /api/readings: every reading, newest reading date first. */
  method GetReadings(db: Store) returns (rows: seq<Reading>)
    ensures multiset(rows) == multiset(db.readings)
    ensures NewestFirst(rows, ReadingDate)
  {
    rows := db.FetchMeterReadings();
  }

  /** POST /api/readings: a new row billed by the calculator, 'unpaid', 0 paid. */
  method PostReading(db: Store, form: ReadingForm) returns (row: Reading)
    requires db.Valid()
    modifies db
    ensures db.Valid()
    ensures db.readings == old(db.readings) + [row]
    ensures db.payments == old(db.payments)
    ensures forall r :: r in old(db.readings) ==> r.id != row.id
    ensures row.billing == Columns(form)
    ensures row.paymentStatus == Some(Unpaid) && row.paidAmount == Some(0)
    ensures db.nextReadingId == old(db.nextReadingId) + 1 && db.nextPaymentId == old(db.nextPaymentId)
  {
    row := db.AddMeterReading(Fields(Columns(form), Some(Unpaid), Some(0)));
  }

  /** PUT /api/readings/:id: the eight billing columns of the row with that id
      are recomputed from the body; its payment columns are not in the SET
      clause and stay. An unknown id changes nothing and answers with no row. */
  method PutReading(db: Store, id: Id, form: ReadingForm) returns (row: Option<Reading>)
    requires db.Valid()
    modifies db`readings
    ensures db.Valid()
    ensures db.readings == UpdateWhere(old(db.readings), id, SetBilling(Columns(form)))
    ensures forall i :: 0 <= i < |db.readings| ==>
              db.readings[i].paymentStatus == old(db.readings)[i].paymentStatus
              && db.readings[i].paidAmount == old(db.readings)[i].paidAmount
    ensures row.None? <==> old(Find(db.readings, id)).None?
    ensures row.Some? ==> row.value == old(Find(db.readings, id)).value.(billing := Columns(form))
  {
    UpdateKeepsIds(db.readings, id, SetBilling(Columns(form)), db.nextReadingId);
    FindAfterUpdate(db.readings, id, SetBilling(Columns(form)));
    db.readings := UpdateWhere(db.readings, id, SetBilling(Columns(form)));
    row := Find(db.readings, id);
  }

  /** DELETE /api/readings/:id: always { success: true }, whether or not a row
      had that id; payment records stay. */
  method DeleteReading(db: Store, id: Id) returns (success: bool)
    requires db.Valid()
    modifies db
    ensures db.Valid()
    ensures success
    ensures db.readings == DeleteWhere(old(db.readings), id)
    ensures db.payments == old(db.payments)
    ensures db.nextReadingId == old(db.nextReadingId) && db.nextPaymentId == old(db.nextPaymentId)
  {
    success := db.RemoveMeterReading(id);
  }

  /** POST /api/payments: one record appended, and no reading touched, so the
      reading's paid amount and status do not follow the payment. */
  method PostPayment(db: Store, meterReadingId: Id, amount: Option<int>, paymentDate: Option<Date>,
                     paymentMethod: Option<string>, notes: Option<string>)
    returns (record: Payment)
    requires db.Valid()
    modifies db
    ensures db.Valid()
    ensures record == Payment(old(db.nextPaymentId), meterReadingId, amount, paymentDate, paymentMethod, notes)
    ensures db.payments == old(db.payments) + [record]
    ensures db.readings == old(db.readings)
    ensures db.nextPaymentId == old(db.nextPaymentId) + 1 && db.nextReadingId == old(db.nextReadingId)
  {
    record := db.AddPayment(meterReadingId, amount, paymentDate, paymentMethod, notes);
  }

  /** PUT /api/readings/:id/payment-status: both payment columns of the row
      with that id take the body's values verbatim (an absent one becomes
      NULL), with no check against the total and no payment record. */
  method PutPaymentStatus(db: Store, id: Id, paymentStatus: Option<string>, paidAmount: Option<int>)
    returns (row: Option<Reading>)
    requires db.Valid()
    modifies db`readings
    ensures db.Valid()
    ensures db.readings == UpdateWhere(old(db.readings), id, SetPayment(StatusColumn(paymentStatus), paidAmount))
    ensures forall i :: 0 <= i < |db.readings| ==> db.readings[i].billing == old(db.readings)[i].billing
    ensures forall i :: 0 <= i < |db.readings| && db.readings[i].id == id ==>
              db.readings[i].paymentStatus == StatusColumn(paymentStatus)
              && db.readings[i].paidAmount == paidAmount
    ensures row.None? <==> old(Find(db.readings, id)).None?
    ensures row.Some? ==> row.value == old(Find(db.readings, id)).value.(paymentStatus := StatusColumn(paymentStatus),
                                                                         paidAmount := paidAmount)
  {
    var column := StatusColumn(paymentStatus);
    UpdateKeepsIds(db.readings, id, SetPayment(column, paidAmount), db.nextReadingId);
    FindAfterUpdate(db.readings, id, SetPayment(column, paidAmount));
    PaymentUpdateKeepsBilling(db.readings, id, column, paidAmount);
    db.readings := UpdateWhere(db.readings, id, SetPayment(column, paidAmount));
    row := Find(db.readings, id);
  }

  /** The status route's UPDATE leaves every bill alone and gives the rows
      with that id exactly the two values it was sent. */
  lemma PaymentUpdateKeepsBilling(rows: seq<Reading>, id: Id, status: Option<Status>, paid: Option<int>)
    ensures var after := UpdateWhere(rows, id, SetPayment(status, paid));
            && (forall i :: 0 <= i < |after| ==> after[i].billing == rows[i].billing)
            && (forall i :: 0 <= i < |after| && after[i].id == id ==>
                  after[i].paymentStatus == status && after[i].paidAmount == paid)
  {
  }

  /** GET /api/payments/:meterReadingId: exactly the records of that reading,
      newest payment date first. */
  method GetPayments(db: Store, meterReadingId: Id) returns (records: seq<Payment>)
    ensures multiset(records) == multiset(SelectByReading(db.payments, meterReadingId))
    ensures forall p :: p in records <==> p in db.payments && p.meterReadingId == meterReadingId
    ensures NewestFirst(records, PaymentDate)
  {
    records := SortNewestFirst(SelectByReading(db.payments, meterReadingId), PaymentDate);
    assert forall p :: p in records <==> p in multiset(records);
  }

  /** The edit route and the edit action leave the same row: the action's
      absent payment fields are COALESCEd back to the stored ones. */
  lemma EditRouteMatchesEditAction(r: Reading, form: ReadingForm)
    ensures Apply(r, SetBilling(Columns(form))) == Apply(r, Merge(Fields(Columns(form), None, None)))
  {
  }

  /** The status route can store a status the ladder contradicts, which the
      ledger never does for a recorded payment. */
  lemma StatusRouteSkipsLadder(r: Reading, amount: int)
    requires Num(r.billing.totalAmount) > 0
    ensures !Consistent(Apply(r, SetPayment(Some(Paid), Some(0))))
    ensures Consistent(Settle(r, amount))
  {
  }
}
