/** The two tables, meter_readings and payment_records, as sequences of rows,
    and what the SQL statements of the service do to them: find a row by id,
    update or delete the rows whose id matches, select the payments of one
    reading, and order rows by a date column, newest first. */
module Tables {
  import opened Billing

  datatype Option<T> = None | Some(value: T)

  /** Calendar dates are opaque and ordered; an ISO yyyy-mm-dd text compares
      in day order, so a day number stands for it. */
  type Date = int

  /** Row ids are assigned by the store. */
  type Id = nat

  /** How JavaScript reads a nullable numeric column: a NULL arrives as null,
      which counts as 0 in +, - and in comparisons. */
  function Num(x: Option<int>): int
  {
    if x.Some? then x.value else 0
  }

  /** The eight billing columns of meter_readings; every one is nullable. */
  datatype BillingColumns = BillingColumns(
    unitNumber: Option<string>,
    previousReading: Option<int>,
    currentReading: Option<int>,
    unitsConsumed: Option<int>,
    pricePerUnit: Option<int>,
    totalAmount: Option<int>,
    readingDate: Option<Date>,
    dueDate: Option<Date>)

  /** The billing columns of an update that names none of them. */
  const Blank := BillingColumns(None, None, None, None, None, None, None, None)

  /** One row of meter_readings. */
  datatype Reading = Reading(
    id: Id,
    billing: BillingColumns,
    paymentStatus: Option<Status>,
    paidAmount: Option<int>)

  /** The object handed to the reading insert and the reading edit: ten
      values, each of which may be absent. */
  datatype Fields = Fields(
    billing: BillingColumns,
    paymentStatus: Option<Status>,
    paidAmount: Option<int>)

  /** One row of payment_records. */
  datatype Payment = Payment(
    id: Id,
    meterReadingId: Id,
    amount: Option<int>,
    paymentDate: Option<Date>,
    paymentMethod: Option<string>,
    notes: Option<string>)

  /** The SET clauses of the three UPDATE statements on meter_readings. */
  datatype SetClause =
      /** The edit query: eight columns overwritten, the two payment columns COALESCEd. */
    | Merge(fields: Fields)
      /** The edit route: the eight billing columns, nothing else. */
    | SetBilling(columns: BillingColumns)
      /** The status route: the two payment columns, verbatim. */
    | SetPayment(status: Option<Status>, paid: Option<int>)

  /** COALESCE(given, existing). */
  function Coalesce<T>(given: Option<T>, existing: Option<T>): (v: Option<T>)
    ensures given.Some? ==> v == given
    ensures given.None? ==> v == existing
  {
    if given.Some? then given else existing
  }

  /** The row an UPDATE leaves behind. */
  function Apply(r: Reading, c: SetClause): (s: Reading)
    ensures s.id == r.id
    ensures c.Merge? ==>
              && s.billing == c.fields.billing
              && s.paymentStatus == Coalesce(c.fields.paymentStatus, r.paymentStatus)
              && s.paidAmount == Coalesce(c.fields.paidAmount, r.paidAmount)
    ensures c.SetBilling? ==> s == r.(billing := c.columns)
    ensures c.SetPayment? ==> s == r.(paymentStatus := c.status, paidAmount := c.paid)
  {
    match c
    case Merge(f) =>
      Reading(r.id, f.billing, Coalesce(f.paymentStatus, r.paymentStatus),
              Coalesce(f.paidAmount, r.paidAmount))
    case SetBilling(b) => r.(billing := b)
    case SetPayment(st, p) => r.(paymentStatus := st, paidAmount := p)
  }

  function ReadingId(r: Reading): Id { r.id }
  function PaymentId(p: Payment): Id { p.id }
  function ReadingDate(r: Reading): Option<Date> { r.billing.readingDate }
  function PaymentDate(p: Payment): Option<Date> { p.paymentDate }

  /** No two rows share an id. */
  predicate DistinctIds<T>(s: seq<T>, idOf: T -> Id)
  {
    forall i, j :: 0 <= i < j < |s| ==> idOf(s[i]) != idOf(s[j])
  }

  /** Every id is below the next one the store will hand out. */
  predicate IdsBelow<T>(s: seq<T>, idOf: T -> Id, next: Id)
  {
    forall i :: 0 <= i < |s| ==> idOf(s[i]) < next
  }

  /** The first row with the given id (Array.prototype.find). */
  function Find(rows: seq<Reading>, id: Id): (found: Option<Reading>)
    ensures found.None? <==> forall i :: 0 <= i < |rows| ==> rows[i].id != id
    ensures found.Some? ==> found.value.id == id && found.value in rows
    ensures found.Some? ==> exists i :: 0 <= i < |rows| && rows[i] == found.value
                                       && forall j :: 0 <= j < i ==> rows[j].id != id
  {
    if rows == [] then None
    else if rows[0].id == id then Some(rows[0])
    else
      var rest := Find(rows[1..], id);
      assert rest.Some? ==> exists i :: 1 <= i < |rows| && rows[i] == rest.value
                                       && forall j :: 1 <= j < i ==> rows[j].id != id by {
        if rest.Some? {
          var k :| 0 <= k < |rows[1..]| && rows[1..][k] == rest.value
                   && forall j :: 0 <= j < k ==> rows[1..][j].id != id;
          assert rows[k + 1] == rest.value;
          assert forall j :: 1 <= j < k + 1 ==> rows[j].id != id by {
            forall j | 1 <= j < k + 1 ensures rows[j].id != id {
              assert rows[j] == rows[1..][j - 1];
            }
          }
        }
      }
      rest
  }

  /** UPDATE meter_readings SET ... WHERE id = $id: every matching row is
      rewritten by the clause, every other row is kept, and the order stays. */
  function UpdateWhere(rows: seq<Reading>, id: Id, c: SetClause): (updated: seq<Reading>)
    ensures |updated| == |rows|
    ensures forall i :: 0 <= i < |rows| ==>
      updated[i] == if rows[i].id == id then Apply(rows[i], c) else rows[i]
  {
    if rows == [] then []
    else [if rows[0].id == id then Apply(rows[0], c) else rows[0]] + UpdateWhere(rows[1..], id, c)
  }

  /** DELETE FROM meter_readings WHERE id = $id: the rows with another id
      survive, in their order, and nothing else does. */
  function DeleteWhere(rows: seq<Reading>, id: Id): (kept: seq<Reading>)
    ensures forall r :: r in kept <==> r in rows && r.id != id
    ensures multiset(kept) <= multiset(rows)
    ensures (forall i :: 0 <= i < |rows| ==> rows[i].id != id) ==> kept == rows
  {
    if rows == [] then []
    else
      assert rows == [rows[0]] + rows[1..];
      if rows[0].id == id then DeleteWhere(rows[1..], id)
      else [rows[0]] + DeleteWhere(rows[1..], id)
  }

  /** SELECT * FROM payment_records WHERE meter_reading_id = $id. */
  function SelectByReading(records: seq<Payment>, id: Id): (selected: seq<Payment>)
    ensures forall p :: p in selected <==> p in records && p.meterReadingId == id
    ensures multiset(selected) <= multiset(records)
  {
    if records == [] then []
    else
      assert records == [records[0]] + records[1..];
      if records[0].meterReadingId == id then [records[0]] + SelectByReading(records[1..], id)
      else SelectByReading(records[1..], id)
  }

  /** A DELETE removes every copy of a row with that id and keeps every other
      row exactly as often as it was there. */
  lemma {:induction false} DeleteWhereCounts(rows: seq<Reading>, id: Id)
    ensures forall r :: multiset(DeleteWhere(rows, id))[r] == if r.id == id then 0 else multiset(rows)[r]
  {
    if rows != [] {
      DeleteWhereCounts(rows[1..], id);
      assert rows == [rows[0]] + rows[1..];
    }
  }

  /** A SELECT by reading keeps every record of that reading exactly as often
      as it is stored, and no other record. */
  lemma {:induction false} SelectByReadingCounts(records: seq<Payment>, id: Id)
    ensures forall p :: multiset(SelectByReading(records, id))[p]
                     == if p.meterReadingId == id then multiset(records)[p] else 0
  {
    if records != [] {
      SelectByReadingCounts(records[1..], id);
      assert records == [records[0]] + records[1..];
    }
  }

  /** ORDER BY date DESC in PostgreSQL: a later date comes first, and a NULL
      date counts as later than every date. `NotOlder(a, b)` says a row dated
      a may come before a row dated b. */
  predicate NotOlder(a: Option<Date>, b: Option<Date>)
  {
    a.None? || (b.Some? && a.value >= b.value)
  }

  /** The rows are in ORDER BY date DESC order; rows with equal dates may come
      in any order. */
  predicate NewestFirst<T>(s: seq<T>, dateOf: T -> Option<Date>)
  {
    forall i, j :: 0 <= i < j < |s| ==> NotOlder(dateOf(s[i]), dateOf(s[j]))
  }

  function InsertByDate<T(==)>(x: T, s: seq<T>, dateOf: T -> Option<Date>): (r: seq<T>)
    requires NewestFirst(s, dateOf)
    ensures NewestFirst(r, dateOf)
    ensures multiset(r) == multiset(s) + multiset{x}
    ensures |r| == |s| + 1
    ensures forall y :: y in r ==> y == x || y in s
  {
    if s == [] then [x]
    else if NotOlder(dateOf(x), dateOf(s[0])) then [x] + s
    else
      var rest := InsertByDate(x, s[1..], dateOf);
      assert s == [s[0]] + s[1..];
      assert forall k :: 0 <= k < |rest| ==> NotOlder(dateOf(s[0]), dateOf(rest[k])) by {
        forall k | 0 <= k < |rest| ensures NotOlder(dateOf(s[0]), dateOf(rest[k])) {
          if rest[k] != x {
            assert rest[k] in rest;
            var m :| 0 <= m < |s[1..]| && s[1..][m] == rest[k];
            assert s[m + 1] == rest[k];
          }
        }
      }
      ConsNewestFirst(s[0], rest, dateOf);
      [s[0]] + rest
  }

  /** A row no older than every row of a newest-first list may go in front. */
  lemma ConsNewestFirst<T>(a: T, rest: seq<T>, dateOf: T -> Option<Date>)
    requires NewestFirst(rest, dateOf)
    requires forall k :: 0 <= k < |rest| ==> NotOlder(dateOf(a), dateOf(rest[k]))
    ensures NewestFirst([a] + rest, dateOf)
  {
    forall i, j | 0 <= i < j < |rest| + 1
      ensures NotOlder(dateOf(([a] + rest)[i]), dateOf(([a] + rest)[j]))
    {
      if i > 0 {
        assert ([a] + rest)[i] == rest[i - 1];
      }
      assert ([a] + rest)[j] == rest[j - 1];
    }
  }

  /** The rows of a table, newest first. */
  function SortNewestFirst<T(==)>(s: seq<T>, dateOf: T -> Option<Date>): (r: seq<T>)
    ensures NewestFirst(r, dateOf)
    ensures multiset(r) == multiset(s)
  {
    if s == [] then []
    else
      assert s == [s[0]] + s[1..];
      InsertByDate(s[0], SortNewestFirst(s[1..], dateOf), dateOf)
  }

  /** What the records of one reading add up to: the paid-to-date amount the
      reading would show if it were derived from its payment history. */
  function PaidTotal(records: seq<Payment>, id: Id): int
  {
    if records == [] then 0
    else
      var last := records[|records| - 1];
      PaidTotal(records[..|records| - 1], id) + (if last.meterReadingId == id then Num(last.amount) else 0)
  }

  /** Appending a record moves only its own reading's total, by its amount. */
  lemma PaidTotalAppend(records: seq<Payment>, p: Payment, id: Id)
    ensures PaidTotal(records + [p], id)
         == PaidTotal(records, id) + (if p.meterReadingId == id then Num(p.amount) else 0)
  {
    assert (records + [p])[..|records|] == records;
  }

  /** RETURNING * after an UPDATE by id: the first matching row, rewritten. */
  lemma {:induction false} FindAfterUpdate(rows: seq<Reading>, id: Id, c: SetClause)
    ensures Find(UpdateWhere(rows, id, c), id)
         == if Find(rows, id).Some? then Some(Apply(Find(rows, id).value, c)) else None
  {
    if rows != [] && rows[0].id != id {
      FindAfterUpdate(rows[1..], id, c);
      assert UpdateWhere(rows, id, c)[1..] == UpdateWhere(rows[1..], id, c);
    }
  }

  /** With distinct ids, any reordering of a table finds the same row: the
      lookup on the sorted listing agrees with the lookup on the table. */
  lemma FindInReordering(rows: seq<Reading>, listing: seq<Reading>, id: Id)
    requires DistinctIds(rows, ReadingId)
    requires multiset(listing) == multiset(rows)
    ensures Find(listing, id) == Find(rows, id)
  {
    var a, b := Find(listing, id), Find(rows, id);
    if b.Some? {
      assert b.value in multiset(listing);
      var k :| 0 <= k < |listing| && listing[k] == b.value;
      assert a.Some?;
      assert a.value in multiset(rows);
      var i :| 0 <= i < |rows| && rows[i] == a.value;
      var j :| 0 <= j < |rows| && rows[j] == b.value;
      assert ReadingId(rows[i]) == ReadingId(rows[j]);
      assert i == j;
    }
  }

  /** With distinct ids, looking a row's id up finds that very row. */
  lemma FindDistinct(rows: seq<Reading>, i: nat)
    requires DistinctIds(rows, ReadingId) && i < |rows|
    ensures Find(rows, rows[i].id) == Some(rows[i])
  {
    var found := Find(rows, rows[i].id);
    assert found.Some? by {
      assert !(forall j :: 0 <= j < |rows| ==> rows[j].id != rows[i].id);
    }
    var k :| 0 <= k < |rows| && rows[k] == found.value;
    assert ReadingId(rows[k]) == ReadingId(rows[i]);
  }

  /** With distinct ids, every row carrying the id is the one the lookup finds. */
  lemma FindDistinctAll(rows: seq<Reading>, id: Id)
    requires DistinctIds(rows, ReadingId)
    ensures forall i :: 0 <= i < |rows| && rows[i].id == id ==> Find(rows, id) == Some(rows[i])
  {
    forall i | 0 <= i < |rows| && rows[i].id == id
      ensures Find(rows, id) == Some(rows[i])
    {
      FindDistinct(rows, i);
    }
  }

  /** An UPDATE never changes ids, so distinct ids below the counter stay so. */
  lemma UpdateKeepsIds(rows: seq<Reading>, id: Id, c: SetClause, next: Id)
    requires DistinctIds(rows, ReadingId) && IdsBelow(rows, ReadingId, next)
    ensures DistinctIds(UpdateWhere(rows, id, c), ReadingId)
    ensures IdsBelow(UpdateWhere(rows, id, c), ReadingId, next)
  {
    var u := UpdateWhere(rows, id, c);
    assert forall i :: 0 <= i < |u| ==> ReadingId(u[i]) == ReadingId(rows[i]);
  }

  /** Appending a row with a fresh id keeps ids distinct and below the bumped counter. */
  lemma AppendKeepsIds<T>(s: seq<T>, x: T, idOf: T -> Id, next: Id)
    requires DistinctIds(s, idOf) && IdsBelow(s, idOf, next)
    requires idOf(x) == next
    ensures DistinctIds(s + [x], idOf) && IdsBelow(s + [x], idOf, next + 1)
  {
  }

  /** Deleting rows keeps ids distinct and below the counter. */
  lemma {:induction false} DeleteKeepsIds(rows: seq<Reading>, id: Id, next: Id)
    requires DistinctIds(rows, ReadingId) && IdsBelow(rows, ReadingId, next)
    ensures DistinctIds(DeleteWhere(rows, id), ReadingId)
    ensures IdsBelow(DeleteWhere(rows, id), ReadingId, next)
  {
    if rows != [] {
      DeleteKeepsIds(rows[1..], id, next);
      var rest := DeleteWhere(rows[1..], id);
      if rows[0].id != id {
        assert DeleteWhere(rows, id) == [rows[0]] + rest;
        forall k | 0 <= k < |rest| ensures rest[k].id != rows[0].id {
          assert rest[k] in rows[1..];
          var m :| 0 <= m < |rows| - 1 && rows[1..][m] == rest[k];
          assert rows[m + 1] == rest[k];
        }
      } else {
        assert DeleteWhere(rows, id) == rest;
      }
    }
  }
}
