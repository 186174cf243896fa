/**
 * The data-view check and the conversion of the host's categorical data view
 * into a Bar3DChartDataModel: two category index maps, one bar per value row,
 * and the value range copied from the value column.
 */
module ChartData {
  import opened Wrappers
  import opened Categories
  import Decimal

  /** Column metadata; only its presence matters to the check. */
  datatype ColumnSource = ColumnSource(displayName: string)

  datatype CategoryColumn = CategoryColumn(source: Option<ColumnSource>, values: seq<Label>)

  /** A measure column with the minimum and maximum the host reports for it. */
  datatype ValueColumn = ValueColumn(values: seq<real>, minLocal: real, maxLocal: real)

  /** `categorical` of a data view; a None field is a missing (null or undefined) property. */
  datatype Categorical = Categorical(categories: Option<seq<CategoryColumn>>, values: Option<seq<ValueColumn>>)

  datatype DataView = DataView(categorical: Option<Categorical>)

  /** One bar per value row; `x`/`y` are None where the key lookup yields undefined. */
  datatype Bar = Bar(categoryX: Label, categoryY: Label, value: real, x: Option<nat>, y: Option<nat>, color: string)

  datatype ChartModel = ChartModel(
    bars: seq<Bar>,
    categoryIndexX: CategoryIndex,
    categoryIndexY: CategoryIndex,
    minLocal: real,
    maxLocal: real)

  /** Outcome of checkDataView: true, false, or a TypeError thrown while probing. */
  datatype Check = Usable | Unusable | Throws

  /** Outcome of convertData: a model, null, or a thrown TypeError. */
  datatype Conversion = Model(model: ChartModel) | NoModel | Threw

  const DataViewIndex: nat := 0
  const CategoryXIndex: nat := 1
  const CategoryYIndex: nat := 0
  const ValuesIndex: nat := 0

  /** The element an array read yields: past the end, JavaScript gives undefined. */
  function Cell(column: seq<Label>, i: nat): Label {
    if i < |column| then column[i] else Undefined
  }

  /** Reading a property of the index object: None is undefined. */
  function Lookup(index: CategoryIndex, key: string): Option<nat> {
    if key in index then Some(index[key]) else None
  }

  /**
   * What the check promises to the conversion: a first data view with a
   * categorical part, at least two category columns of which columns 1 and 0
   * carry source metadata, and a values array.
   */
  ghost predicate WellFormed(dataViews: Option<seq<DataView>>) {
    && dataViews.Some?
    && |dataViews.value| > DataViewIndex
    && dataViews.value[DataViewIndex].categorical.Some?
    && var c := dataViews.value[DataViewIndex].categorical.value;
    && c.categories.Some?
    && |c.categories.value| > CategoryXIndex
    && c.categories.value[CategoryXIndex].source.Some?
    && c.categories.value[CategoryYIndex].source.Some?
    && c.values.Some?
  }

  /** The check reaches `categories[1].source` on a categories array with fewer than two columns. */
  ghost predicate ProbesMissingColumn(dataViews: Option<seq<DataView>>) {
    && dataViews.Some?
    && |dataViews.value| > DataViewIndex
    && dataViews.value[DataViewIndex].categorical.Some?
    && dataViews.value[DataViewIndex].categorical.value.categories.Some?
    && |dataViews.value[DataViewIndex].categorical.value.categories.value| <= CategoryXIndex
  }

  /**
   * checkDataView: a chain of falsy tests. An empty array is truthy, so empty
   * columns pass; reading `.source` of a missing second column throws.
   */
  function CheckDataView(dataViews: Option<seq<DataView>>): (c: Check)
    ensures c == Usable <==> WellFormed(dataViews)
    ensures c == Throws <==> ProbesMissingColumn(dataViews)
  {
    if dataViews.None? || |dataViews.value| <= DataViewIndex then Unusable
    else
      var dv := dataViews.value[DataViewIndex];
      if dv.categorical.None? then Unusable
      else
        var c := dv.categorical.value;
        if c.categories.None? then Unusable
        else if |c.categories.value| <= CategoryXIndex then Throws
        else if c.categories.value[CategoryXIndex].source.None? then Unusable
        else if c.categories.value[CategoryYIndex].source.None? then Unusable
        else if c.values.None? then Unusable
        else Usable
  }

  /** The bar for value row `i`: labels and coordinates looked up by property key, colour from the palette keyed by the row ordinal. */
  function MakeBar(xs: seq<Label>, ys: seq<Label>, values: seq<real>, i: nat,
                   indexX: CategoryIndex, indexY: CategoryIndex, palette: string -> string): Bar
    requires i < |values|
  {
    Bar(Cell(xs, i), Cell(ys, i), values[i],
        Lookup(indexX, Key(Cell(xs, i))), Lookup(indexY, Key(Cell(ys, i))),
        palette(Decimal.Show(i)))
  }

  /** The bar loop: one bar per entry of the value column, in row order. */
  function BuildBars(xs: seq<Label>, ys: seq<Label>, values: seq<real>,
                     indexX: CategoryIndex, indexY: CategoryIndex, palette: string -> string): seq<Bar>
  {
    seq(|values|, i requires 0 <= i < |values| => MakeBar(xs, ys, values, i, indexX, indexY, palette))
  }

  /** Builds the chart model from a checked data view. */
  function Convert(xs: seq<Label>, ys: seq<Label>, column: ValueColumn, palette: string -> string): ChartModel {
    var indexX := IndexColumn(xs);
    var indexY := IndexColumn(ys);
    ChartModel(BuildBars(xs, ys, column.values, indexX, indexY, palette),
               indexX, indexY, column.minLocal, column.maxLocal)
  }

  /**
   * convertData: null when the check fails, a TypeError when it throws or when
   * the values array has no column 0, otherwise the model of category column 1
   * (X), category column 0 (Y) and value column 0.
   */
  function ConvertData(dataViews: Option<seq<DataView>>, palette: string -> string): (r: Conversion)
    ensures r.NoModel? <==> CheckDataView(dataViews) == Unusable
    ensures r.Model? <==> WellFormed(dataViews) && |dataViews.value[DataViewIndex].categorical.value.values.value| > ValuesIndex
    ensures r.Model? ==>
      var c := dataViews.value[DataViewIndex].categorical.value;
      var xs := c.categories.value[CategoryXIndex].values;
      var ys := c.categories.value[CategoryYIndex].values;
      var column := c.values.value[ValuesIndex];
      && |r.model.bars| == |column.values|
      && r.model.minLocal == column.minLocal
      && r.model.maxLocal == column.maxLocal
      && r.model.categoryIndexX.Keys == KeysOf(xs)
      && r.model.categoryIndexY.Keys == KeysOf(ys)
      && forall i :: 0 <= i < |column.values| ==>
           && r.model.bars[i].value == column.values[i]
           && r.model.bars[i].categoryX == Cell(xs, i)
           && r.model.bars[i].categoryY == Cell(ys, i)
  {
    match CheckDataView(dataViews)
    case Unusable => NoModel
    case Throws => Threw
    case Usable =>
      var c := dataViews.value[DataViewIndex].categorical.value;
      if |c.values.value| <= ValuesIndex then Threw
      else
        var xs := c.categories.value[CategoryXIndex].values;
        var ys := c.categories.value[CategoryYIndex].values;
        assert KeysOf(Uniq(xs)) == KeysOf(xs);
        assert KeysOf(Uniq(ys)) == KeysOf(ys);
        Model(Convert(xs, ys, c.values.value[ValuesIndex], palette))
  }

  /**
   * With columns at least as long as the value column and keys that tell the
   * labels apart, every bar finds its coordinates, each coordinate is its
   * label's first-occurrence rank, and indexing the deduplicated column with
   * it gives back the bar's label.
   */
  lemma BarsPlaced(xs: seq<Label>, ys: seq<Label>, column: ValueColumn, palette: string -> string)
    requires |column.values| <= |xs| && |column.values| <= |ys|
    requires KeysDistinguishLabels(xs) && KeysDistinguishLabels(ys)
    ensures |Uniq(xs)| == |Elements(xs)| && |Uniq(ys)| == |Elements(ys)|
    ensures var bars := Convert(xs, ys, column, palette).bars;
      forall i :: 0 <= i < |bars| ==>
        && bars[i].x.Some? && bars[i].y.Some?
        && bars[i].x.value < |Uniq(xs)| && bars[i].y.value < |Uniq(ys)|
        && Uniq(xs)[bars[i].x.value] == xs[i]
        && Uniq(ys)[bars[i].y.value] == ys[i]
  {
    var bars := Convert(xs, ys, column, palette).bars;
    UniqCount(xs);
    UniqCount(ys);
    forall i | 0 <= i < |bars|
      ensures && bars[i].x.Some? && bars[i].y.Some?
              && bars[i].x.value < |Uniq(xs)| && bars[i].y.value < |Uniq(ys)|
              && Uniq(xs)[bars[i].x.value] == xs[i]
              && Uniq(ys)[bars[i].y.value] == ys[i]
    {
      LookupRow(xs, i);
      LookupRow(ys, i);
    }
  }

  /** Looking up the key of a row inside the column finds the label's position in the deduplicated column. */
  lemma {:induction false} LookupRow(xs: seq<Label>, i: nat)
    requires i < |xs|
    requires KeysDistinguishLabels(xs)
    ensures |Uniq(xs)| == |Elements(xs)|
    ensures var r := Lookup(IndexColumn(xs), Key(Cell(xs, i)));
      r.Some? && r.value < |Uniq(xs)| && Uniq(xs)[r.value] == xs[i]
  {
    assert xs[i] in xs;
    ColumnIndexIsRank(xs);
    UniqCount(xs);
    UniqRank(xs, xs[i]);
  }

  /**
   * A bar's X coordinate is defined exactly when its row is inside the X
   * column, or the column itself holds a label whose key is "undefined".
   */
  lemma {:induction false} BarXDefinedIff(xs: seq<Label>, ys: seq<Label>, column: ValueColumn, palette: string -> string, i: nat)
    requires i < |column.values|
    ensures Convert(xs, ys, column, palette).bars[i].x.Some? <==>
      i < |xs| || Undefined in xs || Text("undefined") in xs
  {
    var bar := Convert(xs, ys, column, palette).bars[i];
    assert bar.x == Lookup(IndexColumn(xs), Key(Cell(xs, i)));
    assert IndexColumn(xs).Keys == KeysOf(xs);
    if i < |xs| {
      assert xs[i] in xs;
    } else {
      UndefinedKeyIff(xs);
    }
  }

  lemma {:induction false} UndefinedKeyIff(xs: seq<Label>)
    ensures "undefined" in KeysOf(xs) <==> Undefined in xs || Text("undefined") in xs
  {
    if "undefined" in KeysOf(xs) {
      var l :| l in xs && Key(l) == "undefined";
      KeyCollision(l, Undefined);
    }
  }

  /** Bar `i` takes the palette colour keyed by the decimal text of `i`; distinct rows ask for distinct keys. */
  lemma {:induction false} BarColors(xs: seq<Label>, ys: seq<Label>, column: ValueColumn, palette: string -> string)
    ensures var bars := Convert(xs, ys, column, palette).bars;
      forall i :: 0 <= i < |bars| ==> bars[i].color == palette(Decimal.Show(i))
    ensures forall i: nat, j: nat :: i != j ==> Decimal.Show(i) != Decimal.Show(j)
  {
    forall i: nat, j: nat | i != j
      ensures Decimal.Show(i) != Decimal.Show(j)
    {
      Decimal.ShowInjective(i, j);
    }
  }

  /** Rows with distinct label pairs land on distinct grid cells. */
  lemma {:induction false} DistinctRowsDistinctCells(xs: seq<Label>, ys: seq<Label>, column: ValueColumn, palette: string -> string)
    requires |column.values| <= |xs| && |column.values| <= |ys|
    requires KeysDistinguishLabels(xs) && KeysDistinguishLabels(ys)
    requires forall i, j :: 0 <= i < j < |column.values| ==> (xs[i], ys[i]) != (xs[j], ys[j])
    ensures var bars := Convert(xs, ys, column, palette).bars;
      forall i, j :: 0 <= i < j < |bars| ==> (bars[i].x, bars[i].y) != (bars[j].x, bars[j].y)
  {
    BarsPlaced(xs, ys, column, palette);
  }
}
