/** Which values of a dimension a metric's change comes from, and the structure of its
    total: build_dimension_changes and build_structures, over exact reals. */
module Changes {
  import opened Basics
  import opened Ranking

  /** One data row: its dimension values as text; a missing date or number is None. */
  datatype Row = Row(dims: map<string, string>, month: Option<int>, value: Option<real>)

  datatype Cell = Cell(name: string, amount: real)

  function NameIn(row: Row, dimension: string): string {
    if dimension in row.dims then row.dims[dimension] else "nan"
  }

  /** The cells of the rows that count in a month. */
  function InMonth(rows: seq<Row>, dimension: string, month: int): seq<Cell> {
    if rows == [] then []
    else
      var init, row := InMonth(rows[..|rows| - 1], dimension, month), rows[|rows| - 1];
      if row.month == Some(month) && row.value.Some? then init + [Cell(NameIn(row, dimension), row.value.value)]
      else init
  }

  /** The cells of all rows with a number. */
  function Present(rows: seq<Row>, dimension: string): seq<Cell> {
    if rows == [] then []
    else
      var init, row := Present(rows[..|rows| - 1], dimension), rows[|rows| - 1];
      if row.value.Some? then init + [Cell(NameIn(row, dimension), row.value.value)] else init
  }

  /** groupby(name).sum() of one name. */
  function SumOf(cells: seq<Cell>, name: string): real {
    if cells == [] then 0.0
    else
      var last := cells[|cells| - 1];
      SumOf(cells[..|cells| - 1], name) + if last.name == name then last.amount else 0.0
  }

  function Total(cells: seq<Cell>): real {
    if cells == [] then 0.0 else Total(cells[..|cells| - 1]) + cells[|cells| - 1].amount
  }

  /** The names of the cells that are not listed yet, each once. */
  function Names(known: seq<string>, cells: seq<Cell>): seq<string> {
    if cells == [] then known
    else
      var init, name := Names(known, cells[..|cells| - 1]), cells[|cells| - 1].name;
      if name in init then init else init + [name]
  }

  datatype Item = Item(name: string, current: real, baseline: real, change: real, rate: Option<real>, share: real)

  function ChangeOf(current: seq<Cell>, previous: seq<Cell>, name: string): real {
    SumOf(current, name) - SumOf(previous, name)
  }

  function TotalChange(current: seq<Cell>, previous: seq<Cell>, names: seq<string>): real {
    if names == [] then 0.0
    else TotalChange(current, previous, names[..|names| - 1]) + ChangeOf(current, previous, names[|names| - 1])
  }

  function ItemOf(current: seq<Cell>, previous: seq<Cell>, total: real, name: string): Item {
    var now, before, change := SumOf(current, name), SumOf(previous, name), ChangeOf(current, previous, name);
    Item(name, now, before, change, if before != 0.0 then Some(change / before) else None,
         if total != 0.0 then change / total else 0.0)
  }

  function Items(current: seq<Cell>, previous: seq<Cell>, total: real, names: seq<string>): (r: seq<Item>)
    ensures |r| == |names| && forall i :: 0 <= i < |r| ==> r[i] == ItemOf(current, previous, total, names[i])
  {
    seq(|names|, i requires 0 <= i < |names| => ItemOf(current, previous, total, names[i]))
  }

  function SizeOf(item: Item): real { Abs(item.change) }

  function AllNames(current: seq<Cell>, previous: seq<Cell>): seq<string> { Names(Names([], current), previous) }

  /** The joined rows of both months, before sorting. */
  function Joined(current: seq<Cell>, previous: seq<Cell>): seq<Item> {
    var names := AllNames(current, previous);
    Items(current, previous, TotalChange(current, previous, names), names)
  }

  const KEPT := 20

  datatype Output = Output(dimension: string, totalChange: real, items: seq<Item>)

  function OutputOf(dimension: string, current: seq<Cell>, previous: seq<Cell>): Output {
    Output(dimension, TotalChange(current, previous, AllNames(current, previous)),
           First(SortDesc(Joined(current, previous), SizeOf), KEPT))
  }

  function BaselineMonth(target: int, baseline: string): Option<int> {
    if baseline == "previous_period" then Some(target - 1)
    else if baseline == "year_over_year" then Some(target - 12)
    else None
  }

  function Outputs(rows: seq<Row>, dimensions: seq<string>, target: int, before: int): seq<Output> {
    if dimensions == [] then []
    else
      var init := Outputs(rows, dimensions[..|dimensions| - 1], target, before);
      var dimension := dimensions[|dimensions| - 1];
      var current, previous := InMonth(rows, dimension, target), InMonth(rows, dimension, before);
      if current == [] || previous == [] then init else init + [OutputOf(dimension, current, previous)]
  }

  // ---- the groups partition the rows ----

  predicate HasCell(cells: seq<Cell>, name: string) { exists i :: 0 <= i < |cells| && cells[i].name == name }

  lemma HasCellSnoc(cells: seq<Cell>, cell: Cell, name: string)
    ensures HasCell(cells + [cell], name) <==> HasCell(cells, name) || cell.name == name
  {
    var more := cells + [cell];
    assert more[|cells|] == cell && forall i :: 0 <= i < |cells| ==> more[i] == cells[i];
  }

  lemma {:induction false} NamesCover(known: seq<string>, cells: seq<Cell>)
    requires Distinct(known)
    ensures Distinct(Names(known, cells))
    ensures forall name :: name in Names(known, cells) <==>
              name in known || HasCell(cells, name)
  {
    if cells != [] {
      NamesCover(known, cells[..|cells| - 1]);
      var init, last := cells[..|cells| - 1], cells[|cells| - 1];
      assert cells == init + [last];
      forall name ensures HasCell(cells, name) <==> HasCell(init, name) || last.name == name {
        HasCellSnoc(init, last, name);
      }
    }
  }

  function SumOver(cells: seq<Cell>, names: seq<string>): real {
    if names == [] then 0.0 else SumOver(cells, names[..|names| - 1]) + SumOf(cells, names[|names| - 1])
  }

  /** One more cell adds its amount to one group. */
  lemma {:induction false} OneCell(init: seq<Cell>, cell: Cell, names: seq<string>)
    requires Distinct(names)
    ensures SumOver(init + [cell], names) == SumOver(init, names) + if cell.name in names then cell.amount else 0.0
  {
    if names != [] {
      var rest, last := names[..|names| - 1], names[|names| - 1];
      OneCell(init, cell, rest);
      assert (init + [cell])[..|init|] == init;
      assert names == rest + [last];
    }
  }

  lemma {:induction false} NoCells(names: seq<string>)
    ensures SumOver([], names) == 0.0
  {
    if names != [] { NoCells(names[..|names| - 1]); }
  }

  /** Group sums over distinct names that cover the cells add up to the total. */
  lemma {:induction false} GroupsPartition(cells: seq<Cell>, names: seq<string>)
    requires Distinct(names) && forall i :: 0 <= i < |cells| ==> cells[i].name in names
    ensures SumOver(cells, names) == Total(cells)
  {
    if cells == [] {
      NoCells(names);
    } else {
      var init, last := cells[..|cells| - 1], cells[|cells| - 1];
      GroupsPartition(init, names);
      OneCell(init, last, names);
      assert cells == init + [last];
    }
  }

  lemma {:induction false} ChangeIsDifference(current: seq<Cell>, previous: seq<Cell>, names: seq<string>)
    ensures TotalChange(current, previous, names) == SumOver(current, names) - SumOver(previous, names)
  {
    if names != [] { ChangeIsDifference(current, previous, names[..|names| - 1]); }
  }

  /** The changes of all values sum to the target month's total less the baseline's. */
  lemma ChangesSumToTotals(current: seq<Cell>, previous: seq<Cell>)
    ensures TotalChange(current, previous, AllNames(current, previous)) == Total(current) - Total(previous)
  {
    var names := AllNames(current, previous);
    NamesCover([], current);
    NamesCover(Names([], current), previous);
    forall i | 0 <= i < |current| ensures current[i].name in names { assert current[i].name in Names([], current); }
    forall i | 0 <= i < |previous| ensures previous[i].name in names { }
    GroupsPartition(current, names);
    GroupsPartition(previous, names);
    ChangeIsDifference(current, previous, names);
  }

  function ShareSum(items: seq<Item>): real {
    if items == [] then 0.0 else ShareSum(items[..|items| - 1]) + items[|items| - 1].share
  }

  lemma DivideSum(a: real, b: real, t: real)
    requires t != 0.0
    ensures a / t + b / t == (a + b) / t
  {
  }

  lemma DivideSelf(t: real)
    requires t != 0.0
    ensures t / t == 1.0
  {
  }

  lemma {:induction false} SharesOver(current: seq<Cell>, previous: seq<Cell>, total: real, names: seq<string>)
    ensures ShareSum(Items(current, previous, total, names)) ==
            if total != 0.0 then TotalChange(current, previous, names) / total else 0.0
  {
    if names != [] {
      var init := names[..|names| - 1];
      SharesOver(current, previous, total, init);
      assert Items(current, previous, total, names)[..|init|] == Items(current, previous, total, init);
      if total != 0.0 {
        DivideSum(TotalChange(current, previous, init), ChangeOf(current, previous, names[|names| - 1]), total);
      }
    }
  }

  /** The impact shares of all values sum to one when the total changed, and are zero
      otherwise. */
  lemma SharesSumToOne(current: seq<Cell>, previous: seq<Cell>)
    ensures ShareSum(Joined(current, previous)) == if Total(current) != Total(previous) then 1.0 else 0.0
  {
    var names := AllNames(current, previous);
    var total := TotalChange(current, previous, names);
    assert total == Total(current) - Total(previous) by { ChangesSumToTotals(current, previous); }
    assert ShareSum(Joined(current, previous)) == if total != 0.0 then total / total else 0.0 by {
      SharesOver(current, previous, total, names);
    }
    if total != 0.0 { DivideSelf(total); }
  }

  /** With at most 20 values none is left out. */
  lemma FewAllKept(dimension: string, current: seq<Cell>, previous: seq<Cell>)
    requires |Joined(current, previous)| <= KEPT
    ensures multiset(OutputOf(dimension, current, previous).items) == multiset(Joined(current, previous))
  {
    TopIsAll(Joined(current, previous), SizeOf, KEPT);
  }

  /** The 20 kept items are values of the data, and no value left out changed more than any
      of them. */
  lemma KeptDominate(dimension: string, current: seq<Cell>, previous: seq<Cell>)
    ensures var kept, all := OutputOf(dimension, current, previous).items, Joined(current, previous);
      && |kept| == Min(KEPT, |all|)
      && (forall x :: x in kept ==> x in all)
      && (forall x, y :: x in kept && y in all && y !in kept ==> Abs(x.change) >= Abs(y.change))
  {
    TopDominates(Joined(current, previous), SizeOf, KEPT);
  }

  // ---- what is reported about the rows ----

  /** The row has a number in that month. */
  predicate Counts(row: Row, month: int) { row.month == Some(month) && row.value.Some? }

  predicate AnyCounts(rows: seq<Row>, month: int) { exists i :: 0 <= i < |rows| && Counts(rows[i], month) }

  /** The row has that value of the dimension; a row without one has "nan". */
  predicate HasName(row: Row, dimension: string, name: string) {
    if dimension in row.dims then row.dims[dimension] == name else name == "nan"
  }

  predicate Occurs(rows: seq<Row>, dimension: string, month: int, name: string) {
    exists i :: 0 <= i < |rows| && Counts(rows[i], month) && HasName(rows[i], dimension, name)
  }

  function MonthSum(rows: seq<Row>, month: int): real {
    if rows == [] then 0.0
    else
      MonthSum(rows[..|rows| - 1], month)
      + if Counts(rows[|rows| - 1], month) then rows[|rows| - 1].value.value else 0.0
  }

  /** The sum of one value of a dimension in a month. */
  function NameSum(rows: seq<Row>, dimension: string, month: int, name: string): real {
    if rows == [] then 0.0
    else
      var row := rows[|rows| - 1];
      NameSum(rows[..|rows| - 1], dimension, month, name)
      + if Counts(row, month) && HasName(row, dimension, name) then row.value.value else 0.0
  }

  lemma {:induction false} CellSums(rows: seq<Row>, dimension: string, month: int, name: string)
    ensures SumOf(InMonth(rows, dimension, month), name) == NameSum(rows, dimension, month, name)
    ensures Total(InMonth(rows, dimension, month)) == MonthSum(rows, month)
  {
    if rows != [] { CellSums(rows[..|rows| - 1], dimension, month, name); }
  }

  lemma OccursSnoc(rows: seq<Row>, dimension: string, month: int, name: string)
    requires rows != []
    ensures var init, row := rows[..|rows| - 1], rows[|rows| - 1];
      Occurs(rows, dimension, month, name) <==>
      Occurs(init, dimension, month, name) || (Counts(row, month) && HasName(row, dimension, name))
  {
    var init := rows[..|rows| - 1];
    assert forall i :: 0 <= i < |init| ==> init[i] == rows[i];
  }

  lemma {:induction false} CellNames(rows: seq<Row>, dimension: string, month: int, name: string)
    ensures HasCell(InMonth(rows, dimension, month), name) <==> Occurs(rows, dimension, month, name)
  {
    if rows != [] {
      var init, row := rows[..|rows| - 1], rows[|rows| - 1];
      CellNames(init, dimension, month, name);
      OccursSnoc(rows, dimension, month, name);
      if Counts(row, month) {
        HasCellSnoc(InMonth(init, dimension, month), Cell(NameIn(row, dimension), row.value.value), name);
      }
    }
  }

  lemma {:induction false} CellsThere(rows: seq<Row>, dimension: string, month: int)
    ensures InMonth(rows, dimension, month) != [] <==> AnyCounts(rows, month)
  {
    if rows != [] {
      var init, row := rows[..|rows| - 1], rows[|rows| - 1];
      CellsThere(init, dimension, month);
      assert forall i :: 0 <= i < |init| ==> init[i] == rows[i];
      assert Counts(row, month) ==> AnyCounts(rows, month);
    }
  }

  lemma CellsAreRows(rows: seq<Row>, dimension: string, month: int, name: string)
    ensures var cells := InMonth(rows, dimension, month);
      && SumOf(cells, name) == NameSum(rows, dimension, month, name)
      && Total(cells) == MonthSum(rows, month)
      && (cells != [] <==> AnyCounts(rows, month))
      && (HasCell(cells, name) <==> Occurs(rows, dimension, month, name))
  {
    CellSums(rows, dimension, month, name);
    CellNames(rows, dimension, month, name);
    CellsThere(rows, dimension, month);
  }

  /** One reported value: its sums in the two months, their difference, its rate on the
      earlier one, and its share of the whole change. */
  predicate ItemRight(rows: seq<Row>, dimension: string, target: int, before: int, total: real, x: Item) {
    && x.current == NameSum(rows, dimension, target, x.name) && x.baseline == NameSum(rows, dimension, before, x.name)
    && x.change == x.current - x.baseline
    && (x.rate.None? <==> x.baseline == 0.0) && (x.rate.Some? ==> x.rate.value == x.change / x.baseline)
    && x.share == (if total == 0.0 then 0.0 else x.change / total)
    && (Occurs(rows, dimension, target, x.name) || Occurs(rows, dimension, before, x.name))
  }

  predicate Listed(items: seq<Item>, name: string) { exists i :: 0 <= i < |items| && items[i].name == name }

  /** A value is listed, or there are 20 that changed at least as much. */
  predicate ListedOrSmaller(rows: seq<Row>, dimension: string, target: int, before: int, items: seq<Item>,
                            name: string) {
    Listed(items, name)
    || (|items| == 20 && forall i :: 0 <= i < |items| ==>
          Abs(items[i].change)
          >= Abs(NameSum(rows, dimension, target, name) - NameSum(rows, dimension, before, name)))
  }

  /** What is reported of a dimension: the change of the monthly sum, and the values that
      occur in one of the months, each once, largest change first, at most 20. */
  ghost predicate OutputRight(rows: seq<Row>, dimension: string, target: int, before: int, out: Output) {
    && out.dimension == dimension && out.totalChange == MonthSum(rows, target) - MonthSum(rows, before)
    && |out.items| <= 20
    && (forall i :: 0 <= i < |out.items| ==>
          ItemRight(rows, dimension, target, before, out.totalChange, out.items[i]))
    && (forall i, j :: 0 <= i < j < |out.items| ==>
          out.items[i].name != out.items[j].name && Abs(out.items[i].change) >= Abs(out.items[j].change))
    && (forall name :: Occurs(rows, dimension, target, name) || Occurs(rows, dimension, before, name) ==>
          ListedOrSmaller(rows, dimension, target, before, out.items, name))
  }

  function NameOf(x: Item): string { x.name }

  lemma NamesOccur(rows: seq<Row>, dimension: string, target: int, before: int, name: string)
    ensures name in AllNames(InMonth(rows, dimension, target), InMonth(rows, dimension, before)) <==>
            Occurs(rows, dimension, target, name) || Occurs(rows, dimension, before, name)
  {
    var current, previous := InMonth(rows, dimension, target), InMonth(rows, dimension, before);
    NamesCover([], current);
    NamesCover(Names([], current), previous);
    CellsAreRows(rows, dimension, target, name);
    CellsAreRows(rows, dimension, before, name);
  }

  lemma JoinedRight(rows: seq<Row>, dimension: string, target: int, before: int, x: Item)
    requires x in Joined(InMonth(rows, dimension, target), InMonth(rows, dimension, before))
    ensures ItemRight(rows, dimension, target, before, MonthSum(rows, target) - MonthSum(rows, before), x)
  {
    var current, previous := InMonth(rows, dimension, target), InMonth(rows, dimension, before);
    ChangesSumToTotals(current, previous);
    CellsAreRows(rows, dimension, target, x.name);
    CellsAreRows(rows, dimension, before, x.name);
    NamesOccur(rows, dimension, target, before, x.name);
    assert x.name in AllNames(current, previous);
  }

  lemma JoinedNamed(rows: seq<Row>, dimension: string, target: int, before: int)
    ensures var all := Joined(InMonth(rows, dimension, target), InMonth(rows, dimension, before));
      && Apart(all, NameOf)
      && forall name :: Occurs(rows, dimension, target, name) || Occurs(rows, dimension, before, name) ==>
           Listed(all, name)
  {
    var current, previous := InMonth(rows, dimension, target), InMonth(rows, dimension, before);
    var names, all := AllNames(current, previous), Joined(current, previous);
    NamesCover([], current);
    NamesCover(Names([], current), previous);
    forall name | Occurs(rows, dimension, target, name) || Occurs(rows, dimension, before, name)
      ensures Listed(all, name)
    {
      NamesOccur(rows, dimension, target, before, name);
      var i :| 0 <= i < |names| && names[i] == name;
      assert all[i].name == name;
    }
  }

  lemma NameListed(rows: seq<Row>, dimension: string, target: int, before: int, name: string)
    requires Occurs(rows, dimension, target, name) || Occurs(rows, dimension, before, name)
    ensures ListedOrSmaller(rows, dimension, target, before,
              OutputOf(dimension, InMonth(rows, dimension, target), InMonth(rows, dimension, before)).items, name)
  {
    var current, previous := InMonth(rows, dimension, target), InMonth(rows, dimension, before);
    var all, kept := Joined(current, previous), OutputOf(dimension, current, previous).items;
    JoinedNamed(rows, dimension, target, before);
    var k :| 0 <= k < |all| && all[k].name == name;
    JoinedRight(rows, dimension, target, before, all[k]);
    if all[k] in kept {
      var i :| 0 <= i < |kept| && kept[i] == all[k];
      assert Listed(kept, name);
    } else {
      LeftOut(dimension, current, previous, all[k]);
    }
  }

  lemma LeftOut(dimension: string, current: seq<Cell>, previous: seq<Cell>, x: Item)
    requires x in Joined(current, previous) && x !in OutputOf(dimension, current, previous).items
    ensures var kept := OutputOf(dimension, current, previous).items;
      |kept| == KEPT && forall i :: 0 <= i < |kept| ==> Abs(kept[i].change) >= Abs(x.change)
  {
    var all, kept := Joined(current, previous), OutputOf(dimension, current, previous).items;
    KeptDominate(dimension, current, previous);
    if |all| <= KEPT { FewKept(dimension, current, previous, x); }
    forall i | 0 <= i < |kept| ensures Abs(kept[i].change) >= Abs(x.change) { assert kept[i] in kept; }
  }

  lemma FewKept(dimension: string, current: seq<Cell>, previous: seq<Cell>, x: Item)
    requires x in Joined(current, previous) && |Joined(current, previous)| <= KEPT
    ensures x in OutputOf(dimension, current, previous).items
  {
    FewAllKept(dimension, current, previous);
    SameMultisetIn(OutputOf(dimension, current, previous).items, Joined(current, previous), x);
  }

  /** The output made of the cells of two months is right about the rows. */
  lemma OutputIsRight(rows: seq<Row>, dimension: string, target: int, before: int)
    ensures OutputRight(rows, dimension, target, before, OutputFor(rows, dimension, target, before))
  {
    var current, previous := InMonth(rows, dimension, target), InMonth(rows, dimension, before);
    var all, out := Joined(current, previous), OutputOf(dimension, current, previous);
    ChangesSumToTotals(current, previous);
    CellsAreRows(rows, dimension, target, "");
    CellsAreRows(rows, dimension, before, "");
    JoinedNamed(rows, dimension, target, before);
    KeptDominate(dimension, current, previous);
    RankingApart(all, SizeOf, NameOf, KEPT);
    forall i | 0 <= i < |out.items|
      ensures ItemRight(rows, dimension, target, before, out.totalChange, out.items[i])
    {
      assert out.items[i] in out.items;
      JoinedRight(rows, dimension, target, before, out.items[i]);
    }
    forall i, j | 0 <= i < j < |out.items|
      ensures out.items[i].name != out.items[j].name && Abs(out.items[i].change) >= Abs(out.items[j].change)
    {
      assert NameOf(out.items[i]) != NameOf(out.items[j]) && SizeOf(out.items[i]) >= SizeOf(out.items[j]);
    }
    forall name | Occurs(rows, dimension, target, name) || Occurs(rows, dimension, before, name)
      ensures ListedOrSmaller(rows, dimension, target, before, out.items, name)
    {
      NameListed(rows, dimension, target, before, name);
    }
  }

  /** Every dimension has an output when both months have a counted row, and otherwise none. */
  ghost predicate OutputsRight(rows: seq<Row>, dimensions: seq<string>, target: int, before: int,
                               outputs: seq<Output>) {
    if AnyCounts(rows, target) && AnyCounts(rows, before) then
      && |outputs| == |dimensions|
      && forall i :: 0 <= i < |outputs| ==> OutputRight(rows, dimensions[i], target, before, outputs[i])
    else outputs == []
  }

  function OutputFor(rows: seq<Row>, dimension: string, target: int, before: int): Output {
    OutputOf(dimension, InMonth(rows, dimension, target), InMonth(rows, dimension, before))
  }

  function Reporter(rows: seq<Row>, target: int, before: int): string -> Output {
    (dimension: string) => OutputFor(rows, dimension, target, before)
  }

  lemma {:induction false} OutputsEach(rows: seq<Row>, dimensions: seq<string>, target: int, before: int)
    requires AnyCounts(rows, target) && AnyCounts(rows, before)
    ensures Outputs(rows, dimensions, target, before) == Map(dimensions, Reporter(rows, target, before))
  {
    if dimensions != [] {
      OutputsEach(rows, dimensions[..|dimensions| - 1], target, before);
      OneMoreOutput(rows, dimensions, target, before);
      MapSnoc(dimensions, Reporter(rows, target, before));
    }
  }

  lemma OneMoreOutput(rows: seq<Row>, dimensions: seq<string>, target: int, before: int)
    requires dimensions != [] && AnyCounts(rows, target) && AnyCounts(rows, before)
    ensures var init, last := dimensions[..|dimensions| - 1], dimensions[|dimensions| - 1];
      Outputs(rows, dimensions, target, before)
      == Outputs(rows, init, target, before) + [OutputFor(rows, last, target, before)]
  {
    var last := dimensions[|dimensions| - 1];
    CellsThere(rows, last, target);
    CellsThere(rows, last, before);
  }

  lemma {:induction false} OutputsNone(rows: seq<Row>, dimensions: seq<string>, target: int, before: int)
    requires !(AnyCounts(rows, target) && AnyCounts(rows, before))
    ensures Outputs(rows, dimensions, target, before) == []
  {
    if dimensions != [] {
      var last := dimensions[|dimensions| - 1];
      OutputsNone(rows, dimensions[..|dimensions| - 1], target, before);
      CellsThere(rows, last, target);
      CellsThere(rows, last, before);
    }
  }

  lemma OutputsAreRight(rows: seq<Row>, dimensions: seq<string>, target: int, before: int)
    ensures OutputsRight(rows, dimensions, target, before, Outputs(rows, dimensions, target, before))
  {
    var outputs := Outputs(rows, dimensions, target, before);
    if AnyCounts(rows, target) && AnyCounts(rows, before) {
      OutputsEach(rows, dimensions, target, before);
      forall i | 0 <= i < |outputs| ensures OutputRight(rows, dimensions[i], target, before, outputs[i]) {
        OutputIsRight(rows, dimensions[i], target, before);
      }
    } else {
      OutputsNone(rows, dimensions, target, before);
    }
  }

  /** For every dimension, the change from the month before, or from the same month a year
      before; any other baseline, or no target month, reports nothing. */
  method BuildDimensionChanges(rows: seq<Row>, dimensions: seq<string>, target: Option<int>, baseline: string)
    returns (outputs: seq<Output>)
    ensures outputs ==
            if target.Some? && BaselineMonth(target.value, baseline).Some? then
              Outputs(rows, dimensions, target.value, BaselineMonth(target.value, baseline).value)
            else []
    ensures target.Some? && baseline == "previous_period" ==>
              OutputsRight(rows, dimensions, target.value, target.value - 1, outputs)
    ensures target.Some? && baseline == "year_over_year" ==>
              OutputsRight(rows, dimensions, target.value, target.value - 12, outputs)
    ensures target.None? || (baseline != "previous_period" && baseline != "year_over_year") ==> outputs == []
  {
    outputs := [];
    if target.None? { return; }
    var month := BaselineMonth(target.value, baseline);
    if month.None? { return; }
    for i := 0 to |dimensions|
      invariant outputs == Outputs(rows, dimensions[..i], target.value, month.value)
    {
      assert dimensions[..i + 1][..i] == dimensions[..i];
      var current := InMonth(rows, dimensions[i], target.value);
      var previous := InMonth(rows, dimensions[i], month.value);
      if current == [] || previous == [] { continue; }
      outputs := outputs + [OutputOf(dimensions[i], current, previous)];
    }
    assert dimensions[..|dimensions|] == dimensions;
    OutputsAreRight(rows, dimensions, target.value, month.value);
  }

  // ---- structures ----

  datatype Group = Group(name: string, value: real)

  datatype Share = Share(name: string, value: real, share: real)

  function Groups(cells: seq<Cell>, names: seq<string>): (r: seq<Group>)
    ensures |r| == |names| && forall i :: 0 <= i < |r| ==> r[i] == Group(names[i], SumOf(cells, names[i]))
  {
    seq(|names|, i requires 0 <= i < |names| => Group(names[i], SumOf(cells, names[i])))
  }

  function ValueOf(g: Group): real { g.value }

  function KeptGroups(cells: seq<Cell>): seq<Group> { First(SortDesc(Groups(cells, Names([], cells)), ValueOf), KEPT) }

  function GroupTotal(groups: seq<Group>): real {
    if groups == [] then 0.0 else GroupTotal(groups[..|groups| - 1]) + groups[|groups| - 1].value
  }

  function WithShares(groups: seq<Group>, total: real): (r: seq<Share>)
    ensures |r| == |groups|
    ensures forall i :: 0 <= i < |r| ==>
              r[i] == Share(groups[i].name, groups[i].value, if total != 0.0 then groups[i].value / total else 0.0)
  {
    seq(|groups|, i requires 0 <= i < |groups| =>
      Share(groups[i].name, groups[i].value, if total != 0.0 then groups[i].value / total else 0.0))
  }

  datatype Structure = Structure(dimension: string, items: seq<Share>)

  function StructureOf(rows: seq<Row>, dimension: string): Structure {
    var kept := KeptGroups(Present(rows, dimension));
    Structure(dimension, WithShares(kept, GroupTotal(kept)))
  }

  function KeptShares(shares: seq<Share>): real {
    if shares == [] then 0.0 else KeptShares(shares[..|shares| - 1]) + shares[|shares| - 1].share
  }

  lemma {:induction false} SharesOfGroups(groups: seq<Group>, total: real)
    ensures KeptShares(WithShares(groups, total)) == if total != 0.0 then GroupTotal(groups) / total else 0.0
  {
    if groups != [] {
      var init := groups[..|groups| - 1];
      SharesOfGroups(init, total);
      assert WithShares(groups, total)[..|init|] == WithShares(init, total);
      if total != 0.0 { DivideSum(GroupTotal(init), groups[|groups| - 1].value, total); }
    }
  }

  lemma StructureShares(groups: seq<Group>)
    ensures KeptShares(WithShares(groups, GroupTotal(groups))) == if GroupTotal(groups) != 0.0 then 1.0 else 0.0
  {
    SharesOfGroups(groups, GroupTotal(groups));
    if GroupTotal(groups) != 0.0 { DivideSelf(GroupTotal(groups)); }
  }

  lemma KeptGroupsDominate(cells: seq<Cell>)
    ensures var kept, all := KeptGroups(cells), Groups(cells, Names([], cells));
      && (forall g :: g in kept ==> g.value == SumOf(cells, g.name))
      && (forall g, h :: g in kept && h in all && h !in kept ==> g.value >= h.value)
  {
    var kept, all := KeptGroups(cells), Groups(cells, Names([], cells));
    TopDominates(all, ValueOf, KEPT);
    forall g | g in kept ensures g.value == SumOf(cells, g.name) { assert g in all; }
    forall g, h | g in kept && h in all && h !in kept ensures g.value >= h.value { assert ValueOf(g) >= ValueOf(h); }
  }

  /** The shares of a structure sum to one when the kept total is not zero; no value left
      out is larger than a kept one, and each kept value is its group's sum. */
  lemma StructureSharesSumToOne(rows: seq<Row>, dimension: string)
    ensures var cells := Present(rows, dimension);
      var kept, all := KeptGroups(cells), Groups(cells, Names([], cells));
      && KeptShares(StructureOf(rows, dimension).items) == (if GroupTotal(kept) != 0.0 then 1.0 else 0.0)
      && (forall g :: g in kept ==> g.value == SumOf(cells, g.name))
      && (forall g, h :: g in kept && h in all && h !in kept ==> g.value >= h.value)
  {
    KeptGroupsDominate(Present(rows, dimension));
    StructureShares(KeptGroups(Present(rows, dimension)));
  }

  // ---- what a structure says of the rows ----

  /** The sum of one value of a dimension over the rows with a number. */
  function NameTotal(rows: seq<Row>, dimension: string, name: string): real {
    if rows == [] then 0.0
    else
      var row := rows[|rows| - 1];
      NameTotal(rows[..|rows| - 1], dimension, name)
      + if row.value.Some? && HasName(row, dimension, name) then row.value.value else 0.0
  }

  predicate InData(rows: seq<Row>, dimension: string, name: string) {
    exists i :: 0 <= i < |rows| && rows[i].value.Some? && HasName(rows[i], dimension, name)
  }

  lemma {:induction false} PresentSums(rows: seq<Row>, dimension: string, name: string)
    ensures SumOf(Present(rows, dimension), name) == NameTotal(rows, dimension, name)
  {
    if rows != [] { PresentSums(rows[..|rows| - 1], dimension, name); }
  }

  lemma {:induction false} PresentNames(rows: seq<Row>, dimension: string, name: string)
    ensures HasCell(Present(rows, dimension), name) <==> InData(rows, dimension, name)
  {
    if rows != [] {
      var init, row := rows[..|rows| - 1], rows[|rows| - 1];
      PresentNames(init, dimension, name);
      assert forall i :: 0 <= i < |init| ==> init[i] == rows[i];
      assert row.value.Some? && HasName(row, dimension, name) ==> InData(rows, dimension, name);
      if row.value.Some? { HasCellSnoc(Present(init, dimension), Cell(NameIn(row, dimension), row.value.value), name); }
    }
  }

  function ShareTotal(items: seq<Share>): real {
    if items == [] then 0.0 else ShareTotal(items[..|items| - 1]) + items[|items| - 1].value
  }

  predicate ShareRight(rows: seq<Row>, dimension: string, total: real, x: Share) {
    && x.value == NameTotal(rows, dimension, x.name) && InData(rows, dimension, x.name)
    && x.share == if total == 0.0 then 0.0 else x.value / total
  }

  predicate SharedOrSmaller(rows: seq<Row>, dimension: string, items: seq<Share>, name: string) {
    || (exists i :: 0 <= i < |items| && items[i].name == name)
    || (|items| == 20 && forall i :: 0 <= i < |items| ==> items[i].value >= NameTotal(rows, dimension, name))
  }

  /** A structure: the values that occur, each once with its sum, largest first, at most 20,
      and each with its share of what is listed. */
  ghost predicate StructureRight(rows: seq<Row>, dimension: string, s: Structure) {
    && s.dimension == dimension && |s.items| <= 20
    && (forall i :: 0 <= i < |s.items| ==> ShareRight(rows, dimension, ShareTotal(s.items), s.items[i]))
    && (forall i, j :: 0 <= i < j < |s.items| ==>
          s.items[i].name != s.items[j].name && s.items[i].value >= s.items[j].value)
    && (forall name :: InData(rows, dimension, name) ==> SharedOrSmaller(rows, dimension, s.items, name))
  }

  function GroupName(g: Group): string { g.name }

  lemma {:induction false} TotalOfShares(groups: seq<Group>, total: real)
    ensures ShareTotal(WithShares(groups, total)) == GroupTotal(groups)
  {
    if groups != [] {
      var init := groups[..|groups| - 1];
      TotalOfShares(init, total);
      assert WithShares(groups, total)[..|init|] == WithShares(init, total);
    }
  }

  lemma GroupRight(rows: seq<Row>, dimension: string, g: Group)
    requires var cells := Present(rows, dimension); g in Groups(cells, Names([], cells))
    ensures g.value == NameTotal(rows, dimension, g.name) && InData(rows, dimension, g.name)
  {
    var cells := Present(rows, dimension);
    NamesCover([], cells);
    PresentSums(rows, dimension, g.name);
    PresentNames(rows, dimension, g.name);
    assert g.name in Names([], cells);
  }

  lemma GroupsNamed(rows: seq<Row>, dimension: string, name: string)
    requires InData(rows, dimension, name)
    ensures var cells := Present(rows, dimension);
      Group(name, NameTotal(rows, dimension, name)) in Groups(cells, Names([], cells))
  {
    var cells := Present(rows, dimension);
    var names := Names([], cells);
    NamesCover([], cells);
    PresentSums(rows, dimension, name);
    PresentNames(rows, dimension, name);
    assert name in names;
    var i :| 0 <= i < |names| && names[i] == name;
    assert Groups(cells, names)[i] == Group(name, NameTotal(rows, dimension, name));
  }

  lemma NameShared(rows: seq<Row>, dimension: string, name: string)
    requires InData(rows, dimension, name)
    ensures SharedOrSmaller(rows, dimension, StructureOf(rows, dimension).items, name)
  {
    var cells := Present(rows, dimension);
    var all, kept := Groups(cells, Names([], cells)), KeptGroups(cells);
    var g := Group(name, NameTotal(rows, dimension, name));
    GroupsNamed(rows, dimension, name);
    TopDominates(all, ValueOf, KEPT);
    if g in kept {
      var i :| 0 <= i < |kept| && kept[i] == g;
      assert StructureOf(rows, dimension).items[i].name == name;
    } else {
      if |all| <= KEPT {
        TopIsAll(all, ValueOf, KEPT);
        SameMultisetIn(kept, all, g);
      }
      forall i | 0 <= i < |kept| ensures kept[i].value >= g.value {
        assert kept[i] in kept && ValueOf(kept[i]) >= ValueOf(g);
      }
    }
  }

  lemma StructureIsRight(rows: seq<Row>, dimension: string)
    ensures StructureRight(rows, dimension, StructureOf(rows, dimension))
  {
    var cells := Present(rows, dimension);
    var all, kept, items := Groups(cells, Names([], cells)), KeptGroups(cells), StructureOf(rows, dimension).items;
    NamesCover([], cells);
    TopDominates(all, ValueOf, KEPT);
    RankingApart(all, ValueOf, GroupName, KEPT);
    TotalOfShares(kept, GroupTotal(kept));
    forall i | 0 <= i < |items| ensures ShareRight(rows, dimension, ShareTotal(items), items[i]) {
      assert kept[i] in kept;
      GroupRight(rows, dimension, kept[i]);
    }
    forall i, j | 0 <= i < j < |items| ensures items[i].name != items[j].name && items[i].value >= items[j].value {
      assert GroupName(kept[i]) != GroupName(kept[j]) && ValueOf(kept[i]) >= ValueOf(kept[j]);
    }
    forall name | InData(rows, dimension, name) ensures SharedOrSmaller(rows, dimension, items, name) {
      NameShared(rows, dimension, name);
    }
  }

  /** One structure for each dimension. */
  method BuildStructures(rows: seq<Row>, dimensions: seq<string>) returns (structures: seq<Structure>)
    ensures |structures| == |dimensions|
    ensures forall i :: 0 <= i < |dimensions| ==> structures[i] == StructureOf(rows, dimensions[i])
    ensures forall i :: 0 <= i < |dimensions| ==> StructureRight(rows, dimensions[i], structures[i])
  {
    structures := [];
    for i := 0 to |dimensions|
      invariant |structures| == i && forall k :: 0 <= k < i ==> structures[k] == StructureOf(rows, dimensions[k])
    {
      var grouped := KeptGroups(Present(rows, dimensions[i]));
      var total := GroupTotal(grouped);
      structures := structures + [Structure(dimensions[i], WithShares(grouped, total))];
    }
    forall i | 0 <= i < |dimensions| ensures StructureRight(rows, dimensions[i], structures[i]) {
      StructureIsRight(rows, dimensions[i]);
    }
  }
}
