/** The sales-by-channel template: its two months and what its conditional sums compute. */
module MonthComparison {
  import opened Basics

  datatype Date = Date(year: int, month: int, day: int)

  predicate Calendar(d: Date) { 1 <= d.month <= 12 && 1 <= d.day <= 31 }

  predicate Before(a: Date, b: Date) {
    a.year < b.year || (a.year == b.year && (a.month < b.month || (a.month == b.month && a.day < b.day)))
  }

  /** `d >= start AND d < end` */
  predicate Within(d: Date, start: Date, end: Date) { !Before(d, start) && Before(d, end) }

  datatype Windows = Windows(previousStart: Date, currentStart: Date, currentEnd: Date)

  function WindowsOf(year: int, month: int): Windows
    requires 1 <= month <= 12
  {
    var start := Date(year, month, 1);
    var end := if month == 12 then Date(year + 1, 1, 1) else Date(year, month + 1, 1);
    var previousYear := if month == 1 then year - 1 else year;
    var previousMonth := if month == 1 then 12 else month - 1;
    Windows(Date(previousYear, previousMonth, 1), start, end)
  }

  /** Months counted from year 0. */
  function MonthIndex(year: int, month: int): int { 12 * year + month - 1 }

  predicate InMonth(d: Date, index: int) { MonthIndex(d.year, d.month) == index }

  /** The windows are exactly the month and the one before, for every month of every year,
      and they partition the range of the WHERE clause. */
  lemma WindowsAreMonths(year: int, month: int, d: Date)
    requires 1 <= month <= 12 && Calendar(d)
    ensures var w, index := WindowsOf(year, month), MonthIndex(year, month);
      && (Within(d, w.currentStart, w.currentEnd) <==> InMonth(d, index))
      && (Within(d, w.previousStart, w.currentStart) <==> InMonth(d, index - 1))
      && (Within(d, w.previousStart, w.currentEnd) <==> InMonth(d, index) || InMonth(d, index - 1))
  {
  }

  // ---- the aggregation ----

  datatype Sale = Sale(channel: nat, date: Date, amount: real, quantity: real)

  datatype Field = Amount | Quantity

  function FieldOf(s: Sale, f: Field): real { if f.Amount? then s.amount else s.quantity }

  /** SUM(CASE WHEN in the window THEN field ELSE 0 END) over one group. */
  function CaseSum(sales: seq<Sale>, start: Date, end: Date, f: Field): real {
    if sales == [] then 0.0
    else
      var last := sales[|sales| - 1];
      CaseSum(sales[..|sales| - 1], start, end, f) + if Within(last.date, start, end) then FieldOf(last, f) else 0.0
  }

  /** The rows of one group: joined to a known channel, WHERE the whole range, GROUP BY channel. */
  function GroupOf(sales: seq<Sale>, known: set<nat>, channel: nat, w: Windows): seq<Sale> {
    if sales == [] then []
    else
      var init, last := GroupOf(sales[..|sales| - 1], known, channel, w), sales[|sales| - 1];
      if last.channel == channel && channel in known && Within(last.date, w.previousStart, w.currentEnd)
      then init + [last]
      else init
  }

  datatype ChannelRow = ChannelRow(channel: nat, currentAmount: real, previousAmount: real,
                                   currentQuantity: real, previousQuantity: real, changeRatePct: Option<real>)

  /** ROUND(x, 2): to the nearest hundredth, halves away from zero. */
  function Rounded(x: real): real {
    if x < 0.0 then -((-x * 100.0 + 0.5).Floor as real) / 100.0 else (x * 100.0 + 0.5).Floor as real / 100.0
  }

  /** The row of a channel; None when the template gives it no row. */
  function RowOf(sales: seq<Sale>, known: set<nat>, channel: nat, year: int, month: int): Option<ChannelRow>
    requires 1 <= month <= 12
  {
    var w := WindowsOf(year, month);
    var g := GroupOf(sales, known, channel, w);
    var now := CaseSum(g, w.currentStart, w.currentEnd, Amount);
    var before := CaseSum(g, w.previousStart, w.currentStart, Amount);
    if g == [] then None
    else
      Some(ChannelRow(
        channel, now, before,
        CaseSum(g, w.currentStart, w.currentEnd, Quantity), CaseSum(g, w.previousStart, w.currentStart, Quantity),
        if before == 0.0 then None else Some(Rounded((now - before) / before * 100.0))))
  }

  /** The sum of one channel in one month, computed by itself. */
  function MonthSum(sales: seq<Sale>, channel: nat, index: int, f: Field): real {
    if sales == [] then 0.0
    else
      var last := sales[|sales| - 1];
      MonthSum(sales[..|sales| - 1], channel, index, f)
      + if last.channel == channel && InMonth(last.date, index) then FieldOf(last, f) else 0.0
  }

  predicate Dated(sales: seq<Sale>) { forall i :: 0 <= i < |sales| ==> Calendar(sales[i].date) }

  /** The channel sold something in the month or the one before. */
  predicate Sold(sales: seq<Sale>, channel: nat, index: int) {
    exists i :: 0 <= i < |sales| && sales[i].channel == channel
      && (InMonth(sales[i].date, index) || InMonth(sales[i].date, index - 1))
  }

  lemma {:induction false} CaseSumIsMonthSum(
      sales: seq<Sale>, known: set<nat>, channel: nat, year: int, month: int, f: Field)
    requires 1 <= month <= 12 && Dated(sales) && channel in known
    ensures var w, index := WindowsOf(year, month), MonthIndex(year, month);
      var g := GroupOf(sales, known, channel, w);
      && CaseSum(g, w.currentStart, w.currentEnd, f) == MonthSum(sales, channel, index, f)
      && CaseSum(g, w.previousStart, w.currentStart, f) == MonthSum(sales, channel, index - 1, f)
  {
    if sales != [] {
      var init, last := sales[..|sales| - 1], sales[|sales| - 1];
      CaseSumIsMonthSum(init, known, channel, year, month, f);
      WindowsAreMonths(year, month, last.date);
      var w := WindowsOf(year, month);
      var g := GroupOf(sales, known, channel, w);
      if last.channel == channel && Within(last.date, w.previousStart, w.currentEnd) {
        assert g[..|g| - 1] == GroupOf(init, known, channel, w);
      }
    }
  }

  lemma {:induction false} GroupNonEmptyIff(sales: seq<Sale>, known: set<nat>, channel: nat, year: int, month: int)
    requires 1 <= month <= 12 && Dated(sales)
    ensures GroupOf(sales, known, channel, WindowsOf(year, month)) != [] <==>
            channel in known && Sold(sales, channel, MonthIndex(year, month))
  {
    if sales != [] {
      var init, last := sales[..|sales| - 1], sales[|sales| - 1];
      GroupNonEmptyIff(init, known, channel, year, month);
      WindowsAreMonths(year, month, last.date);
      assert forall i :: 0 <= i < |init| ==> init[i] == sales[i];
      assert sales[|sales| - 1] == last;
    }
  }

  /** The change of the month over the one before, in percent. */
  function ChangePct(now: real, before: real): real
    requires before != 0.0
  {
    (now - before) / before * 100.0
  }

  /** The nearest hundredth to the change; absent when the month before sums to zero. */
  predicate RateOf(rate: Option<real>, now: real, before: real) {
    && (rate.None? <==> before == 0.0)
    && (rate.Some? ==>
          && Abs(rate.value - ChangePct(now, before)) <= 0.005
          && rate.value * 100.0 == (rate.value * 100.0).Floor as real)
  }

  lemma RoundedNear(x: real)
    ensures Abs(Rounded(x) - x) <= 0.005
    ensures Rounded(x) * 100.0 == (Rounded(x) * 100.0).Floor as real
  {
    HundredthNear(Abs(x), (Abs(x) * 100.0 + 0.5).Floor);
    WholeHundredths(x);
  }

  lemma HundredthNear(x: real, k: int)
    requires k as real <= x * 100.0 + 0.5 < k as real + 1.0
    ensures Abs(k as real / 100.0 - x) <= 0.005
  {
    var d := k as real / 100.0 - x;
    assert d * 100.0 == k as real - x * 100.0;
  }

  lemma WholeHundredths(x: real)
    ensures Rounded(x) * 100.0 == (Rounded(x) * 100.0).Floor as real
  {
    var k := (Abs(x) * 100.0 + 0.5).Floor;
    assert Rounded(x) * 100.0 == (if x < 0.0 then -k else k) as real;
  }

  /** A channel has a row exactly when it is known and sold in one of the two months; its
      four sums are then the separate sums of those months, and its rate is their change in
      percent to the nearest hundredth, absent exactly when the month before sums to zero. */
  lemma {:induction false} TemplateComparesMonths(sales: seq<Sale>, known: set<nat>, channel: nat,
                                                  year: int, month: int)
    requires 1 <= month <= 12 && Dated(sales)
    ensures var row, index := RowOf(sales, known, channel, year, month), MonthIndex(year, month);
      && (row.Some? <==> channel in known && Sold(sales, channel, index))
      && (row.Some? ==>
            && row.value.currentAmount == MonthSum(sales, channel, index, Amount)
            && row.value.previousAmount == MonthSum(sales, channel, index - 1, Amount)
            && row.value.currentQuantity == MonthSum(sales, channel, index, Quantity)
            && row.value.previousQuantity == MonthSum(sales, channel, index - 1, Quantity)
            && RateOf(row.value.changeRatePct, row.value.currentAmount, row.value.previousAmount))
  {
    GroupNonEmptyIff(sales, known, channel, year, month);
    if RowOf(sales, known, channel, year, month).Some? {
      var row := RowOf(sales, known, channel, year, month).value;
      if row.previousAmount != 0.0 { RoundedNear(ChangePct(row.currentAmount, row.previousAmount)); }
    }
    if channel in known {
      CaseSumIsMonthSum(sales, known, channel, year, month, Amount);
      CaseSumIsMonthSum(sales, known, channel, year, month, Quantity);
    }
  }
}
