/** The consumption calculator and the payment-status ladder: the pure
    arithmetic that turns two meter values and a unit price into a bill, and a
    paid-to-date amount into a payment status. */
module Billing {

  /** The value of a reading's payment_status column. The service writes the
      three labels it knows; a status requested by a caller, or written by the
      raw status route, is stored verbatim, so any other label is kept as Other. */
  datatype Status = Unpaid | Partial | Paid | Other(name: string)

  /** The text stored in the column (and spliced into generated notes). */
  function Label(s: Status): string
  {
    match s
    case Unpaid => "unpaid"
    case Partial => "partial"
    case Paid => "paid"
    case Other(l) => l
  }

  /** A status is canonical when an Other does not carry one of the three known labels. */
  predicate Canonical(s: Status)
  {
    s.Other? ==> s.name != "unpaid" && s.name != "partial" && s.name != "paid"
  }

  /** Reads a status label back; the label text is never lost. */
  function ParseStatus(text: string): (s: Status)
    ensures Label(s) == text
    ensures Canonical(s)
  {
    if text == "unpaid" then Unpaid
    else if text == "partial" then Partial
    else if text == "paid" then Paid
    else Other(text)
  }

  lemma LabelRoundTrip(s: Status)
    requires Canonical(s)
    ensures ParseStatus(Label(s)) == s
  {
  }

  /** Units consumed and amount owed for one reading. */
  datatype Bill = Bill(unitsConsumed: int, totalAmount: int)

  /** Consumption is the meter delta clamped at zero (Math.max(0, current -
      previous)); the amount owed is consumption times the unit price. A meter
      that went backwards bills nothing. */
  function ComputeBilling(previous: int, current: int, price: int): (b: Bill)
    ensures b.unitsConsumed >= 0
    ensures b.unitsConsumed >= current - previous
    ensures b.unitsConsumed == 0 || b.unitsConsumed == current - previous
    ensures previous <= current ==> b == Bill(current - previous, (current - previous) * price)
    ensures current <= previous ==> b == Bill(0, 0)
    ensures price >= 0 ==> b.totalAmount >= 0
  {
    var units := if current - previous > 0 then current - previous else 0;
    Bill(units, units * price)
  }

  /** At a non-negative price, a higher current reading never bills less. */
  lemma BillingMonotone(previous: int, current: int, later: int, price: int)
    requires current <= later && price >= 0
    ensures ComputeBilling(previous, current, price).totalAmount
         <= ComputeBilling(previous, later, price).totalAmount
  {
    var u := ComputeBilling(previous, current, price).unitsConsumed;
    var v := ComputeBilling(previous, later, price).unitsConsumed;
    assert u <= v;
    assert (v - u) * price >= 0;
    assert v * price == u * price + (v - u) * price;
  }

  /** Billing a period in two consecutive readings costs the same as billing it
      in one, as long as the meter only moved forward. */
  lemma BillingSplits(previous: int, middle: int, current: int, price: int)
    requires previous <= middle <= current
    ensures ComputeBilling(previous, current, price).totalAmount
         == ComputeBilling(previous, middle, price).totalAmount
          + ComputeBilling(middle, current, price).totalAmount
  {
    assert (current - previous) * price == (middle - previous) * price + (current - middle) * price;
  }

  /** The status ladder: paid once the paid-to-date amount reaches the total,
      partial while it is positive but short, unpaid otherwise. */
  function LadderStatus(paid: int, total: int): (s: Status)
    ensures s == Paid <==> paid >= total
    ensures s == Partial <==> 0 < paid < total
    ensures s == Unpaid <==> paid <= 0 && paid < total
    ensures Canonical(s) && !s.Other?
  {
    if paid >= total then Paid
    else if paid > 0 then Partial
    else Unpaid
  }

  /** The ladder moves only upwards as more is paid against the same total. */
  lemma LadderMonotone(paid: int, more: int, total: int)
    requires paid <= more
    ensures Rank(LadderStatus(paid, total)) <= Rank(LadderStatus(more, total))
  {
  }

  /** Position of a ladder status: unpaid, then partial, then paid. */
  function Rank(s: Status): nat
  {
    match s
    case Unpaid => 0
    case Partial => 1
    case Paid => 2
    case Other(_) => 0
  }
}
