/** The payment ledger: what the service writes to a reading when a payment is
    recorded or a status is forced, both as the service writes it and as it is
    evidently meant, and how the cached paid-to-date amount relates to the
    payment records. */
module Ledger {
  import opened Billing
  import opened Tables

  /** The reading form posted to create or edit a reading. */
  datatype ReadingForm = ReadingForm(
    unitNumber: Option<string>,
    previousReading: int,
    currentReading: int,
    pricePerUnit: int,
    readingDate: Option<Date>,
    dueDate: Option<Date>)

  /** The eight billing columns a form produces: its own values plus the
      consumption and the amount the calculator derives from them. */
  function Columns(form: ReadingForm): (c: BillingColumns)
    ensures c.unitsConsumed.Some? && c.unitsConsumed.value >= 0
    ensures form.previousReading <= form.currentReading ==>
              c.unitsConsumed == Some(form.currentReading - form.previousReading)
    ensures c.totalAmount.Some? && c.totalAmount.value == c.unitsConsumed.value * form.pricePerUnit
    ensures form.currentReading <= form.previousReading ==> c.unitsConsumed == c.totalAmount == Some(0)
    ensures c.previousReading == Some(form.previousReading) && c.currentReading == Some(form.currentReading)
    ensures c.pricePerUnit == Some(form.pricePerUnit)
    ensures c.unitNumber == form.unitNumber && c.readingDate == form.readingDate && c.dueDate == form.dueDate
  {
    var bill := ComputeBilling(form.previousReading, form.currentReading, form.pricePerUnit);
    BillingColumns(form.unitNumber, Some(form.previousReading), Some(form.currentReading),
                   Some(bill.unitsConsumed), Some(form.pricePerUnit), Some(bill.totalAmount),
                   form.readingDate, form.dueDate)
  }

  /** A reading whose status is the one the ladder gives for its paid amount
      against its total. */
  predicate Consistent(r: Reading)
  {
    r.paymentStatus == Some(LadderStatus(Num(r.paidAmount), Num(r.billing.totalAmount)))
  }

  // ---------------------------------------------------------------------------
  // Recording a payment

  /** The new paid-to-date amount after a payment: null counts as 0. */
  function PaidAfter(r: Reading, amount: int): int
  {
    Num(r.paidAmount) + amount
  }

  /** The object addPayment hands to the reading edit for a found reading: the
      new paid amount and its ladder status, and no billing value at all. */
  function PaymentFields(r: Reading, amount: int): Fields
  {
    Fields(Blank, Some(LadderStatus(PaidAfter(r, amount), Num(r.billing.totalAmount))),
           Some(PaidAfter(r, amount)))
  }

  /** The row addPayment leaves behind, as written: the edit query overwrites
      the eight billing columns it was not given with NULL. */
  function Recorded(r: Reading, amount: int): (s: Reading)
    ensures s.id == r.id && s.billing == Blank
    ensures s.paidAmount == Some(Num(r.paidAmount) + amount)
    ensures s.paymentStatus == Some(LadderStatus(Num(r.paidAmount) + amount, Num(r.billing.totalAmount)))
  {
    Apply(r, Merge(PaymentFields(r, amount)))
  }

  /** The row addPayment evidently means to leave: the payment columns move,
      the bill stays. */
  function Settle(r: Reading, amount: int): Reading
  {
    r.(paidAmount := Some(PaidAfter(r, amount)),
       paymentStatus := Some(LadderStatus(PaidAfter(r, amount), Num(r.billing.totalAmount))))
  }

  /** Both agree on the payment columns; only the bill differs. */
  lemma RecordedAgreesOnPayment(r: Reading, amount: int)
    ensures Recorded(r, amount) == Settle(r, amount).(billing := Blank)
    ensures Consistent(Settle(r, amount))
  {
  }

  /** The readings table after addPayment, as written: the reading with that
      id, if there is one, is Recorded, and every other row stays. */
  function RecordInTable(rows: seq<Reading>, id: Id, amount: int): (after: seq<Reading>)
    requires DistinctIds(rows, ReadingId)
    ensures |after| == |rows|
    ensures forall i :: 0 <= i < |rows| ==>
              after[i] == if rows[i].id == id then Recorded(rows[i], amount) else rows[i]
  {
    var found := Find(rows, id);
    if found.None? then rows
    else
      FindDistinctAll(rows, id);
      UpdateWhere(rows, id, Merge(PaymentFields(found.value, amount)))
  }

  function Sum(amounts: seq<int>): int
  {
    if amounts == [] then 0 else Sum(amounts[..|amounts| - 1]) + amounts[|amounts| - 1]
  }

  /** A run of payments against one reading, as written. */
  function RecordAll(r: Reading, amounts: seq<int>): Reading
  {
    if amounts == [] then r
    else Recorded(RecordAll(r, amounts[..|amounts| - 1]), amounts[|amounts| - 1])
  }

  /** A run of payments against one reading, as intended. */
  function SettleAll(r: Reading, amounts: seq<int>): Reading
  {
    if amounts == [] then r
    else Settle(SettleAll(r, amounts[..|amounts| - 1]), amounts[|amounts| - 1])
  }

  /** Ledger round trip, as intended: after any run of payments the reading
      keeps its bill, has paid the sum of the payments on top of what it had,
      and shows the ladder status of that sum against its total. */
  lemma {:induction false} SettleAllPaysSum(r: Reading, amounts: seq<int>)
    requires amounts != []
    ensures SettleAll(r, amounts).id == r.id
    ensures SettleAll(r, amounts).billing == r.billing
    ensures SettleAll(r, amounts).paidAmount == Some(Num(r.paidAmount) + Sum(amounts))
    ensures SettleAll(r, amounts).paymentStatus
         == Some(LadderStatus(Num(r.paidAmount) + Sum(amounts), Num(r.billing.totalAmount)))
  {
    var init := amounts[..|amounts| - 1];
    if init != [] {
      SettleAllPaysSum(r, init);
    }
  }

  /** From nothing paid: payments adding up to the total give paid, a positive
      sum short of it gives partial, and a zero sum against a positive total
      gives unpaid. */
  lemma LedgerRoundTrip(r: Reading, amounts: seq<int>)
    requires amounts != [] && r.paidAmount == Some(0)
    ensures Sum(amounts) == Num(r.billing.totalAmount) ==> SettleAll(r, amounts).paymentStatus == Some(Paid)
    ensures 0 < Sum(amounts) < Num(r.billing.totalAmount) ==> SettleAll(r, amounts).paymentStatus == Some(Partial)
    ensures Sum(amounts) == 0 < Num(r.billing.totalAmount) ==> SettleAll(r, amounts).paymentStatus == Some(Unpaid)
  {
    SettleAllPaysSum(r, amounts);
  }

  /** As written, the first payment blanks the bill, so every later payment is
      weighed against a NULL total, which counts as 0: from the second payment
      on, the status is paid as soon as the sum paid is not negative. */
  lemma {:induction false} RecordAllForgetsTotal(r: Reading, amounts: seq<int>)
    requires |amounts| >= 2
    ensures RecordAll(r, amounts).billing == Blank
    ensures RecordAll(r, amounts).paidAmount == Some(Num(r.paidAmount) + Sum(amounts))
    ensures RecordAll(r, amounts).paymentStatus == Some(LadderStatus(Num(r.paidAmount) + Sum(amounts), 0))
  {
    var init := amounts[..|amounts| - 1];
    if |init| >= 2 {
      RecordAllForgetsTotal(r, init);
    } else {
      assert init == [amounts[0]] && init[..0] == [];
      assert RecordAll(r, init) == Recorded(r, amounts[0]);
      assert Sum(init) == amounts[0];
    }
  }

  /** The reading of the worked example: 100 to 150 at 20 a unit, nothing paid. */
  function ExampleReading(): Reading
  {
    Reading(1, BillingColumns(Some("A1"), Some(100), Some(150), Some(50), Some(20), Some(1000), Some(0), Some(30)),
            Some(Unpaid), Some(0))
  }

  /** The discrepancy on the worked example: paying 400 and then 100 of a
      1000 bill shows paid as written, and partial as intended. */
  lemma BlankedTotalMarksPaid()
    ensures Recorded(ExampleReading(), 400).billing == Blank
    ensures RecordAll(ExampleReading(), [400, 100]).paymentStatus == Some(Paid)
    ensures RecordAll(ExampleReading(), [400, 100]).paidAmount == Some(500)
    ensures SettleAll(ExampleReading(), [400, 100]).paymentStatus == Some(Partial)
    ensures SettleAll(ExampleReading(), [400, 100]).billing.totalAmount == Some(1000)
  {
    RecordAllForgetsTotal(ExampleReading(), [400, 100]);
    SettleAllPaysSum(ExampleReading(), [400, 100]);
    assert Sum([400, 100]) == 500 by { assert [400, 100][..1] == [400]; assert [400][..0] == []; }
  }

  // ---------------------------------------------------------------------------
  // Forcing a status

  /** What updatePaymentStatus decides for a found reading: the paid amount it
      writes back (absent keeps the stored one) and the top-up it would record. */
  datatype Forced = Forced(newPaid: Option<int>, topUp: int)

  /** "paid" settles the total and tops up the difference; "partial" with an
      amount sets that amount and tops up the difference; anything else keeps
      the paid amount and tops up nothing. */
  function ForcedChange(r: Reading, status: Status, partialAmount: Option<int>): (d: Forced)
    ensures Num(d.newPaid) == Num(r.paidAmount) + d.topUp
    ensures status == Paid ==> d.newPaid == r.billing.totalAmount
    ensures status == Partial && partialAmount.Some? ==> d.newPaid == partialAmount
    ensures status != Paid && !(status == Partial && partialAmount.Some?) ==>
              d.newPaid == r.paidAmount && d.topUp == 0
  {
    if status == Paid then
      Forced(r.billing.totalAmount, Num(r.billing.totalAmount) - Num(r.paidAmount))
    else if status == Partial && partialAmount.Some? then
      Forced(partialAmount, partialAmount.value - Num(r.paidAmount))
    else
      Forced(r.paidAmount, 0)
  }

  /** The object updatePaymentStatus hands to the reading edit: the requested
      status and the decided paid amount, and no billing value at all. */
  function ForcedFields(r: Reading, status: Status, partialAmount: Option<int>): Fields
  {
    Fields(Blank, Some(status), ForcedChange(r, status, partialAmount).newPaid)
  }

  /** The row updatePaymentStatus leaves behind, as written. */
  function Forcing(r: Reading, status: Status, partialAmount: Option<int>): (s: Reading)
    ensures s.id == r.id && s.billing == Blank
    ensures s.paymentStatus == Some(status)
    ensures s.paidAmount == Coalesce(ForcedChange(r, status, partialAmount).newPaid, r.paidAmount)
  {
    Apply(r, Merge(ForcedFields(r, status, partialAmount)))
  }

  /** The readings table after updatePaymentStatus found the reading, as
      written: the reading with that id is Forced, and every other row stays. */
  function ForceInTable(rows: seq<Reading>, id: Id, status: Status, partialAmount: Option<int>)
    : (after: seq<Reading>)
    requires DistinctIds(rows, ReadingId)
    ensures |after| == |rows|
    ensures forall i :: 0 <= i < |rows| ==>
              after[i] == if rows[i].id == id then Forcing(rows[i], status, partialAmount) else rows[i]
  {
    var found := Find(rows, id);
    if found.None? then rows
    else
      FindDistinctAll(rows, id);
      UpdateWhere(rows, id, Merge(ForcedFields(found.value, status, partialAmount)))
  }

  /** The row updatePaymentStatus evidently means to leave: the bill stays. */
  function ForcedSettle(r: Reading, status: Status, partialAmount: Option<int>): Reading
  {
    r.(paymentStatus := Some(status),
       paidAmount := Coalesce(ForcedChange(r, status, partialAmount).newPaid, r.paidAmount))
  }

  /** What every forced status does to the paid amount, in both versions: the
      requested status is stored; "paid" reaches the total, "partial" with an
      amount reaches that amount even downwards, and "unpaid" or "partial"
      without an amount keep the paid amount. */
  lemma ForcedOutcome(r: Reading, status: Status, partialAmount: Option<int>)
    ensures Forcing(r, status, partialAmount).paymentStatus == Some(status)
    ensures ForcedSettle(r, status, partialAmount).paymentStatus == Some(status)
    ensures Forcing(r, status, partialAmount).paidAmount == ForcedSettle(r, status, partialAmount).paidAmount
    ensures status == Paid && r.billing.totalAmount.Some? ==>
              ForcedSettle(r, status, partialAmount).paidAmount == r.billing.totalAmount
    ensures status == Partial && partialAmount.Some? ==>
              ForcedSettle(r, status, partialAmount).paidAmount == partialAmount
    ensures (status == Unpaid || (status == Partial && partialAmount.None?)) ==>
              ForcedSettle(r, status, partialAmount).paidAmount == r.paidAmount
  {
  }

  /** Forcing "paid" twice, as intended: the second call tops up nothing and
      leaves the reading as the first left it. */
  lemma ForcedPaidIdempotent(r: Reading, first: Option<int>, second: Option<int>)
    requires r.billing.totalAmount.Some? || Num(r.paidAmount) >= 0
    ensures ForcedChange(ForcedSettle(r, Paid, first), Paid, second).topUp <= 0
    ensures ForcedSettle(ForcedSettle(r, Paid, first), Paid, second) == ForcedSettle(r, Paid, first)
  {
  }

  /** Forcing "paid" twice, as written: the second call also tops up nothing,
      as long as neither the total nor the paid amount was negative. */
  lemma ForcedPaidTwiceAddsNothing(r: Reading, first: Option<int>, second: Option<int>)
    requires Num(r.billing.totalAmount) >= 0 && Num(r.paidAmount) >= 0
    ensures ForcedChange(Forcing(r, Paid, first), Paid, second).topUp <= 0
    ensures Forcing(Forcing(r, Paid, first), Paid, second).paidAmount == Forcing(r, Paid, first).paidAmount
  {
  }

  /** "unpaid" is an operator override: a reading that has paid its positive
      total can be forced to show unpaid. */
  lemma UnpaidOverrideIsInconsistent(r: Reading, partialAmount: Option<int>)
    requires 0 < Num(r.billing.totalAmount) <= Num(r.paidAmount)
    ensures !Consistent(ForcedSettle(r, Unpaid, partialAmount))
    ensures !Consistent(Forcing(r, Unpaid, partialAmount))
  {
  }

  // ---------------------------------------------------------------------------
  // The cached paid amount against the payment records

  /** The reading's cached paid amount equals what its records add up to. */
  predicate Reconciled(r: Reading, records: seq<Payment>)
  {
    Num(r.paidAmount) == PaidTotal(records, r.id)
  }

  /** Recording a payment appends its record and adds its amount, so a
      reconciled reading stays reconciled, as written and as intended. */
  lemma PaymentKeepsReconciled(r: Reading, records: seq<Payment>, p: Payment, amount: int)
    requires Reconciled(r, records)
    requires p.meterReadingId == r.id && p.amount == Some(amount)
    ensures Reconciled(Recorded(r, amount), records + [p])
    ensures Reconciled(Settle(r, amount), records + [p])
  {
    PaidTotalAppend(records, p, r.id);
  }

  /** A record for another reading leaves this reading's sum alone. */
  lemma OtherRecordKeepsReconciled(r: Reading, records: seq<Payment>, p: Payment)
    requires Reconciled(r, records) && p.meterReadingId != r.id
    ensures Reconciled(r, records + [p])
  {
    PaidTotalAppend(records, p, r.id);
  }

  /** A record appended without touching the reading (the payments route)
      breaks reconciliation whenever its amount is not zero. */
  lemma RecordOnlyBreaksReconciled(r: Reading, records: seq<Payment>, p: Payment)
    requires Reconciled(r, records)
    requires p.meterReadingId == r.id && Num(p.amount) != 0
    ensures !Reconciled(r, records + [p])
  {
    PaidTotalAppend(records, p, r.id);
  }

  /** Forcing a status keeps reconciliation exactly when its paid amount moves
      up by the top-up it records: a positive top-up is recorded, and a
      non-positive one is not, so any downward move breaks reconciliation. */
  lemma ForcedReconciliation(r: Reading, records: seq<Payment>, status: Status,
                             partialAmount: Option<int>, p: Payment)
    requires Reconciled(r, records)
    requires p.meterReadingId == r.id
    requires p.amount == Some(ForcedChange(r, status, partialAmount).topUp)
    requires ForcedChange(r, status, partialAmount).newPaid.Some?
    ensures var after := ForcedSettle(r, status, partialAmount);
            var logged := if ForcedChange(r, status, partialAmount).topUp > 0 then records + [p] else records;
            Reconciled(after, logged) <==> ForcedChange(r, status, partialAmount).topUp >= 0
  {
    PaidTotalAppend(records, p, r.id);
  }
}
