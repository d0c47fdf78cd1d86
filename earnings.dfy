/** The monthly-earnings aggregator of the analytics dashboard
    (calculateMonthlyEarnings in frontend/src/components/Chart.jsx).

    The dashboard turns the list of payments into a 12-entry table, one entry per
    month of the trailing year, oldest first and ending at the current month.
    The clock read is replaced by the parameter `current`, the month number (0..11)
    the clock would have returned. */
module MonthlyEarnings {

  /** A month number as JavaScript's Date.getMonth returns it: 0 is January. */
  type Month = m: int | 0 <= m < 12

  /** The short English month names used as chart labels. */
  const MonthNames: seq<string> :=
    ["Jan", "Feb", "Mar", "Apr", "May", "Jun", "Jul", "Aug", "Sep", "Oct", "Nov", "Dec"]

  datatype Option<T> = None | Some(value: T)

  /** The calendar part of a parsed payment date. The year is carried only so that
      its irrelevance can be stated. */
  datatype Date = Date(year: int, month: Month)

  /** A payment record as the aggregator receives it: a date that may fail to parse
      (None stands for a missing or unparseable date, for which getMonth() is NaN)
      and an amount, taken to be an integer. */
  datatype PaymentRecord = PaymentRecord(date: Option<Date>, amount: int)

  /** A payment whose date parsed: its year, its calendar month and its amount. */
  datatype Payment = Payment(year: int, month: Month, amount: int)

  /** Why the aggregator fails: the record at `index` has no valid date, so its slot
      index is NaN and the update of a non-existent slot throws a TypeError. */
  datatype Error = InvalidDate(index: nat)

  datatype Result<T> = Ok(value: T) | Err(error: Error)

  /** Every record's date parsed. */
  predicate AllDated(records: seq<PaymentRecord>)
  {
    forall i :: 0 <= i < |records| ==> records[i].date.Some?
  }

  /** The payments of records whose dates all parsed, in order. */
  function Parsed(records: seq<PaymentRecord>): (payments: seq<Payment>)
    requires AllDated(records)
  {
    seq(|records|, i requires 0 <= i < |records| =>
      Payment(records[i].date.value.year, records[i].date.value.month, records[i].amount))
  }

  /** One entry of the earnings table: a month label and the earnings booked to it. */
  datatype MonthBucket = MonthBucket(month: string, earnings: int)

  /** Sum of the amounts of the payments made in calendar month `m`, in any year. */
  function MonthTotal(payments: seq<Payment>, m: Month): int
  {
    if payments == [] then 0
    else
      var last := payments[|payments| - 1];
      MonthTotal(payments[..|payments| - 1], m) + (if last.month == m then last.amount else 0)
  }

  /** Sum of all payment amounts. */
  function SumAmounts(payments: seq<Payment>): int
  {
    if payments == [] then 0
    else SumAmounts(payments[..|payments| - 1]) + payments[|payments| - 1].amount
  }

  /** Sum of the earnings over a table. */
  function Total(table: seq<MonthBucket>): int
  {
    if table == [] then 0 else Total(table[..|table| - 1]) + table[|table| - 1].earnings
  }

  /** The labels of a table, in order. */
  function Labels(table: seq<MonthBucket>): seq<string>
  {
    seq(|table|, j requires 0 <= j < |table| => table[j].month)
  }

  /** Month number of entry `j` of the finished table: entry 0 is the month after
      `current` (eleven months back), entry 11 is `current` itself. */
  function MonthAt(current: Month, j: int): Month
    requires 0 <= j < 12
  {
    Wrap(current + 1 + j);
    (current + 1 + j) % 12
  }

  /** The reference definition of the finished table: entry `j` is labelled with
      the name of month MonthAt(current, j) and holds the total of the payments
      made in that calendar month. */
  function Series(payments: seq<Payment>, current: Month): (table: seq<MonthBucket>)
    ensures |table| == 12
  {
    seq(12, j requires 0 <= j < 12 =>
      MonthBucket(MonthNames[MonthAt(current, j)], MonthTotal(payments, MonthAt(current, j))))
  }

  /** Reduction modulo 12 of a value below two years, without division. */
  lemma Wrap(x: int)
    requires 0 <= x < 24
    ensures x % 12 == if x < 12 then x else x - 12
  {
  }

  /** Month number labelling slot `i` of the table while it is being built, before
      it is reversed: slot 0 is the current month, slot i is i months earlier. */
  function SlotMonth(current: Month, i: int): (m: int)
    requires 0 <= i < 12
    ensures 0 <= m < 12
    ensures m == if i <= current then current - i else current - i + 12
  {
    Wrap(current - i + 12);
    (current - i + 12) % 12
  }

  /** The slot a payment made in month `paid` is added to. It is always a valid
      index, its slot is labelled with `paid`, and no other slot is. */
  function SlotIndex(current: Month, paid: Month): (k: int)
    ensures 0 <= k < 12
    ensures SlotMonth(current, k) == paid
    ensures forall i :: 0 <= i < 12 && SlotMonth(current, i) == paid ==> i == k
  {
    Wrap(current - paid + 12);
    (current - paid + 12) % 12
  }

  /** Reverses an array in place, as Array.prototype.reverse does. */
  method Reverse<T>(a: array<T>)
    modifies a
    ensures forall k :: 0 <= k < a.Length ==> a[k] == old(a[a.Length - 1 - k])
  {
    var n := a.Length;
    var i := 0;
    while i < n / 2
      invariant 0 <= i <= n / 2
      invariant forall k :: 0 <= k < i ==> a[k] == old(a[n - 1 - k]) && a[n - 1 - k] == old(a[k])
      invariant forall k :: i <= k < n - i ==> a[k] == old(a[k])
    {
      a[i], a[n - 1 - i] := a[n - 1 - i], a[i];
      i := i + 1;
    }
  }

  /** The aggregator: build the twelve slots newest first with zero earnings, add
      each payment's amount into the slot of its calendar month, then reverse the
      table so that it reads oldest first. The first record without a valid date
      aborts the whole computation (the source throws a TypeError there); otherwise
      the result is the reference table of the parsed payments. */
  method CalculateMonthlyEarnings(records: seq<PaymentRecord>, current: Month)
    returns (r: Result<seq<MonthBucket>>)
    ensures r.Ok? <==> AllDated(records)
    ensures r.Ok? ==> |r.value| == 12 && r.value == Series(Parsed(records), current)
    ensures r.Err? ==>
      r.error.index < |records| && records[r.error.index].date.None? &&
      AllDated(records[..r.error.index])
  {
    var earnings := new MonthBucket[12];
    for i := 0 to 12
      invariant forall k :: 0 <= k < i ==>
        earnings[k] == MonthBucket(MonthNames[SlotMonth(current, k)], 0)
    {
      earnings[i] := MonthBucket(MonthNames[SlotMonth(current, i)], 0);
    }

    for n := 0 to |records|
      invariant AllDated(records[..n])
      invariant forall k :: 0 <= k < 12 ==>
        earnings[k] == MonthBucket(MonthNames[SlotMonth(current, k)],
                                   MonthTotal(Parsed(records[..n]), SlotMonth(current, k)))
    {
      var record := records[n];
      if record.date.None? {
        return Err(InvalidDate(n));
      }
      var k := SlotIndex(current, record.date.value.month);
      earnings[k] := earnings[k].(earnings := earnings[k].earnings + record.amount);
      assert AllDated(records[..n + 1]);
      assert Parsed(records[..n + 1])[..n] == Parsed(records[..n]);
    }
    assert records[..|records|] == records;

    Reverse(earnings);
    var table := earnings[..];
    forall j | 0 <= j < 12
      ensures table[j] == Series(Parsed(records), current)[j]
    {
      assert SlotMonth(current, 11 - j) == MonthAt(current, j);
    }
    r := Ok(table);
  }
}
