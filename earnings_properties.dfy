/** What the earnings table promises, proved about its reference definition
    MonthlyEarnings.Series (which CalculateMonthlyEarnings is proved to return):
    the labels are a rotation of the calendar ending at the current month, each
    payment lands in the entry named after its own month whatever its year, the
    total is conserved, and the order of the payments does not matter. */
module EarningsProperties {
  import opened MonthlyEarnings

  /** The twelve month names are pairwise different. */
  lemma MonthNamesDistinct()
    ensures |MonthNames| == 12
    ensures forall a, b :: 0 <= a < b < 12 ==> MonthNames[a] != MonthNames[b]
  {
  }

  /** Entry `j` of the finished table is the slot 11 - j of the table under
      construction: reversing turns "i months back" into "oldest first". */
  lemma MonthAtIsReversedSlot(current: Month, j: int)
    requires 0 <= j < 12
    ensures MonthAt(current, j) == SlotMonth(current, 11 - j)
    ensures MonthAt(current, j) == if current + 1 + j < 12 then current + 1 + j else current + 1 + j - 12
  {
    Wrap(current + 1 + j);
  }

  /** The labels are the calendar rotated so that it ends at the current month:
      the last entry is the current month, the first the month after it. */
  lemma {:induction false} LabelsRotate(payments: seq<Payment>, current: Month)
    ensures Labels(Series(payments, current)) == MonthNames[current + 1..] + MonthNames[..current + 1]
    ensures Series(payments, current)[11].month == MonthNames[current]
    ensures Series(payments, current)[0].month == MonthNames[(current + 1) % 12]
  {
    var s := Series(payments, current);
    var rotated := MonthNames[current + 1..] + MonthNames[..current + 1];
    forall j | 0 <= j < 12
      ensures Labels(s)[j] == rotated[j]
    {
      MonthAtIsReversedSlot(current, j);
    }
    MonthAtIsReversedSlot(current, 0);
    MonthAtIsReversedSlot(current, 11);
    Wrap(current + 1);
  }

  /** The labels depend only on the current month, never on the payments. */
  lemma LabelsIgnorePayments(p1: seq<Payment>, p2: seq<Payment>, current: Month)
    ensures Labels(Series(p1, current)) == Labels(Series(p2, current))
  {
  }

  /** All twelve month names appear, each exactly once: the labels are a
      permutation of the calendar ... */
  lemma {:induction false} EveryNameOnce(payments: seq<Payment>, current: Month)
    ensures multiset(Labels(Series(payments, current))) == multiset(MonthNames)
  {
    LabelsRotate(payments, current);
    var k := current + 1;
    assert MonthNames == MonthNames[..k] + MonthNames[k..];
    assert multiset(MonthNames[k..] + MonthNames[..k]) == multiset(MonthNames[..k] + MonthNames[k..]);
  }

  /** ... and no two entries carry the same label. */
  lemma {:induction false} LabelsDistinct(payments: seq<Payment>, current: Month)
    ensures forall i, j :: 0 <= i < j < 12 ==>
      Series(payments, current)[i].month != Series(payments, current)[j].month
  {
    MonthNamesDistinct();
    forall i, j | 0 <= i < j < 12
      ensures Series(payments, current)[i].month != Series(payments, current)[j].month
    {
      MonthAtIsReversedSlot(current, i);
      MonthAtIsReversedSlot(current, j);
    }
  }

  /** The calendar's succession of month names, written out as a table:
      December is followed by January. */
  function NextName(name: string): string
  {
    match name
    case "Jan" => "Feb"
    case "Feb" => "Mar"
    case "Mar" => "Apr"
    case "Apr" => "May"
    case "May" => "Jun"
    case "Jun" => "Jul"
    case "Jul" => "Aug"
    case "Aug" => "Sep"
    case "Sep" => "Oct"
    case "Oct" => "Nov"
    case "Nov" => "Dec"
    case "Dec" => "Jan"
    case _ => name
  }

  /** Consecutive entries are consecutive calendar months. */
  lemma {:induction false} ConsecutiveMonths(payments: seq<Payment>, current: Month)
    ensures forall j {:trigger Series(payments, current)[j]} :: 0 <= j < 11 ==>
      Series(payments, current)[j + 1].month == NextName(Series(payments, current)[j].month)
  {
    var s := Series(payments, current);
    forall j | 0 <= j < 11
      ensures s[j + 1].month == NextName(s[j].month)
    {
      MonthAtIsReversedSlot(current, j);
      MonthAtIsReversedSlot(current, j + 1);
    }
  }

  /** With no payments every entry earns zero. */
  lemma NoPaymentsAllZero(current: Month)
    ensures forall j :: 0 <= j < 12 ==> Series([], current)[j].earnings == 0
  {
  }

  /** The per-month total of a concatenation is the sum of the per-month totals. */
  lemma {:induction false} MonthTotalAppend(a: seq<Payment>, b: seq<Payment>, m: Month)
    ensures MonthTotal(a + b, m) == MonthTotal(a, m) + MonthTotal(b, m)
  {
    if b != [] {
      var b' := b[..|b| - 1];
      assert (a + b)[..|a + b| - 1] == a + b';
      MonthTotalAppend(a, b', m);
    } else {
      assert a + b == a;
    }
  }

  /** Adding one payment changes only the entry named after the payment's month,
      by exactly the payment's amount; the labels stay as they were. */
  lemma {:induction false} AddPayment(payments: seq<Payment>, p: Payment, current: Month)
    ensures Labels(Series(payments + [p], current)) == Labels(Series(payments, current))
    ensures var before, after := Series(payments, current), Series(payments + [p], current);
      forall j :: 0 <= j < 12 ==>
        after[j].earnings ==
          before[j].earnings + (if before[j].month == MonthNames[p.month] then p.amount else 0)
  {
    assert (payments + [p])[..|payments|] == payments;
    MonthNamesDistinct();
  }

  /** Raising one entry of a table by `x` raises its total by `x`. */
  lemma {:induction false} TotalOfUpdate(a: seq<MonthBucket>, b: seq<MonthBucket>, k: nat, x: int)
    requires |a| == |b| && k < |a|
    requires forall j :: 0 <= j < |a| && j != k ==> b[j].earnings == a[j].earnings
    requires b[k].earnings == a[k].earnings + x
    ensures Total(b) == Total(a) + x
  {
    var n := |a| - 1;
    if k == n {
      TotalOfEqual(a[..n], b[..n]);
    } else {
      TotalOfUpdate(a[..n], b[..n], k, x);
    }
  }

  /** Tables with the same earnings have the same total. */
  lemma {:induction false} TotalOfEqual(a: seq<MonthBucket>, b: seq<MonthBucket>)
    requires |a| == |b|
    requires forall j :: 0 <= j < |a| ==> b[j].earnings == a[j].earnings
    ensures Total(b) == Total(a)
  {
    if a != [] {
      TotalOfEqual(a[..|a| - 1], b[..|b| - 1]);
    }
  }

  /** A table whose entries all earn zero totals zero. */
  lemma {:induction false} TotalOfZeros(t: seq<MonthBucket>)
    requires forall j :: 0 <= j < |t| ==> t[j].earnings == 0
    ensures Total(t) == 0
  {
    if t != [] {
      TotalOfZeros(t[..|t| - 1]);
    }
  }

  /** Every payment lands in exactly one entry, so the table's total is the sum
      of all payment amounts. */
  lemma {:induction false} SumConserved(payments: seq<Payment>, current: Month)
    ensures Total(Series(payments, current)) == SumAmounts(payments)
  {
    if payments == [] {
      TotalOfZeros(Series(payments, current));
    } else {
      var init, p := payments[..|payments| - 1], payments[|payments| - 1];
      assert payments == init + [p];
      SumConserved(init, current);
      var before, after := Series(init, current), Series(payments, current);
      var k := SlotIndex(current, p.month);
      MonthAtIsReversedSlot(current, 11 - k);
      forall j | 0 <= j < 12 && j != 11 - k
        ensures after[j].earnings == before[j].earnings
      {
        MonthAtIsReversedSlot(current, j);
      }
      TotalOfUpdate(before, after, 11 - k, p.amount);
    }
  }

  /** Per-month totals depend only on the multiset of payments. */
  lemma {:induction false} MonthTotalPermutation(p1: seq<Payment>, p2: seq<Payment>, m: Month)
    requires multiset(p1) == multiset(p2)
    ensures MonthTotal(p1, m) == MonthTotal(p2, m)
    decreases |p1|
  {
    if p1 != [] {
      var n := |p1| - 1;
      var x := p1[n];
      assert p1 == p1[..n] + [x];
      assert x in multiset(p2);
      var i :| 0 <= i < |p2| && p2[i] == x;
      var rest := p2[..i] + p2[i + 1..];
      assert p2 == p2[..i] + [x] + p2[i + 1..];
      assert multiset(rest) == multiset(p2) - multiset{x};
      assert multiset(p1[..n]) == multiset(p1) - multiset{x};
      MonthTotalPermutation(p1[..n], rest, m);
      MonthTotalAppend(p2[..i] + [x], p2[i + 1..], m);
      MonthTotalAppend(p2[..i], [x], m);
      MonthTotalAppend(p2[..i], p2[i + 1..], m);
      MonthTotalAppend(p1[..n], [x], m);
      assert [x][..0] == [];
    }
  }

  /** Reordering the payments does not change the table. */
  lemma {:induction false} OrderIrrelevant(p1: seq<Payment>, p2: seq<Payment>, current: Month)
    requires multiset(p1) == multiset(p2)
    ensures Series(p1, current) == Series(p2, current)
  {
    forall j | 0 <= j < 12
      ensures Series(p1, current)[j] == Series(p2, current)[j]
    {
      MonthTotalPermutation(p1, p2, MonthAt(current, j));
    }
  }

  /** Per-month totals read only each payment's month and amount. */
  lemma {:induction false} MonthTotalIgnoresYear(p1: seq<Payment>, p2: seq<Payment>, m: Month)
    requires |p1| == |p2|
    requires forall i :: 0 <= i < |p1| ==> p1[i].month == p2[i].month && p1[i].amount == p2[i].amount
    ensures MonthTotal(p1, m) == MonthTotal(p2, m)
  {
    if p1 != [] {
      MonthTotalIgnoresYear(p1[..|p1| - 1], p2[..|p2| - 1], m);
    }
  }

  /** The year of a payment plays no part: payment lists that agree on months and
      amounts give the same table, so a payment from a year ago lands in the same
      entry as one from this year's same month. */
  lemma {:induction false} YearIgnored(p1: seq<Payment>, p2: seq<Payment>, current: Month)
    requires |p1| == |p2|
    requires forall i :: 0 <= i < |p1| ==> p1[i].month == p2[i].month && p1[i].amount == p2[i].amount
    ensures Series(p1, current) == Series(p2, current)
  {
    forall j | 0 <= j < 12
      ensures Series(p1, current)[j] == Series(p2, current)[j]
    {
      MonthTotalIgnoresYear(p1, p2, MonthAt(current, j));
    }
  }

  /** Current month March; payments of 100 in March 2024, 50 in February 2024 and
      25 in March 2023 (months as getMonth() reports them): "Mar" holds 125,
      "Feb" 50, every other entry 0. */
  lemma MarchScenario()
    ensures var s := Series([Payment(2024, 2, 100), Payment(2024, 1, 50), Payment(2023, 2, 25)], 2);
      s[11] == MonthBucket("Mar", 125) && s[10] == MonthBucket("Feb", 50) &&
      forall j :: 0 <= j < 10 ==> s[j].earnings == 0
  {
    var one := [Payment(2024, 2, 100)];
    var two := one + [Payment(2024, 1, 50)];
    var ps := two + [Payment(2023, 2, 25)];
    assert one[..0] == [] && two[..1] == one && ps[..2] == two;
    assert ps == [Payment(2024, 2, 100), Payment(2024, 1, 50), Payment(2023, 2, 25)];
    forall m: Month
      ensures MonthTotal(ps, m) == if m == 2 then 125 else if m == 1 then 50 else 0
    {
      assert MonthTotal(one, m) == if m == 2 then 100 else 0;
      assert MonthTotal(two, m) == if m == 2 then 100 else if m == 1 then 50 else 0;
    }
    forall j | 0 <= j < 12
      ensures MonthAt(2, j) == if j < 9 then j + 3 else j - 9
    {
      MonthAtIsReversedSlot(2, j);
    }
  }

  /** Current month January; one payment of 10 in December of the previous year
      (as getMonth() reports it): it lands in "Dec", the entry just before the
      current month "Jan". */
  lemma JanuaryScenario()
    ensures var s := Series([Payment(2023, 11, 10)], 0);
      s[10] == MonthBucket("Dec", 10) && s[11] == MonthBucket("Jan", 0)
  {
    MonthAtIsReversedSlot(0, 10);
    MonthAtIsReversedSlot(0, 11);
  }
}
