/** A worked example: three rows over two X labels and two Y labels. */
module Scenario {
  import opened Wrappers
  import opened Categories
  import opened ChartData
  import Visual
  import DepthScale

  const East := Text("east")
  const West := Text("west")
  const Q1 := Text("q1")
  const Q2 := Text("q2")

  function Sample(): Option<seq<DataView>> {
    Some([DataView(Some(Categorical(
      Some([CategoryColumn(Some(ColumnSource("quarter")), [Q1, Q1, Q2]),
            CategoryColumn(Some(ColumnSource("region")), [East, West, East])]),
      Some([ValueColumn([10.0, 20.0, 5.0], 5.0, 20.0)]))))])
  }

  lemma SampleIndexX()
    ensures IndexColumn([East, West, East]) == map["east" := 0, "west" := 1]
  {
    UniqSnoc([], East);
    assert [] + [East] == [East];
    UniqSnoc([East], West);
    assert [East] + [West] == [East, West];
    UniqSnoc([East, West], East);
    assert [East, West] + [East] == [East, West, East];
    assert Uniq([East, West, East]) == [East, West];
    BuildIndexSnoc([], East);
    assert BuildIndex([East]) == map["east" := 0];
    BuildIndexSnoc([East], West);
    assert BuildIndex([East, West]) == map["east" := 0]["west" := 1];
  }

  lemma SampleIndexY()
    ensures IndexColumn([Q1, Q1, Q2]) == map["q1" := 0, "q2" := 1]
  {
    UniqSnoc([], Q1);
    assert [] + [Q1] == [Q1];
    UniqSnoc([Q1], Q1);
    assert [Q1] + [Q1] == [Q1, Q1];
    UniqSnoc([Q1, Q1], Q2);
    assert [Q1, Q1] + [Q2] == [Q1, Q1, Q2];
    assert [Q1] + [Q2] == [Q1, Q2];
    assert Uniq([Q1, Q1, Q2]) == [Q1, Q2];
    BuildIndexSnoc([], Q1);
    assert BuildIndex([Q1]) == map["q1" := 0];
    BuildIndexSnoc([Q1], Q2);
    assert BuildIndex([Q1, Q2]) == map["q1" := 0]["q2" := 1];
  }

  const SampleColumn := ValueColumn([10.0, 20.0, 5.0], 5.0, 20.0)

  lemma SampleIsUsable(palette: string -> string)
    ensures ConvertData(Sample(), palette) == Model(Convert([East, West, East], [Q1, Q1, Q2], SampleColumn, palette))
  {
  }

  /** The bar loop over the sample, given its two index maps. */
  lemma SampleBarList(palette: string -> string)
    ensures var b := BuildBars([East, West, East], [Q1, Q1, Q2], SampleColumn.values,
                               map["east" := 0, "west" := 1], map["q1" := 0, "q2" := 1], palette);
      && |b| == 3
      && b[0].x == Some(0) && b[1].x == Some(1) && b[2].x == Some(0)
      && b[0].y == Some(0) && b[1].y == Some(0) && b[2].y == Some(1)
      && b[0].value == 10.0 && b[1].value == 20.0 && b[2].value == 5.0
  {
    var xs, ys := [East, West, East], [Q1, Q1, Q2];
    var ix, iy := map["east" := 0, "west" := 1], map["q1" := 0, "q2" := 1];
    var b := BuildBars(xs, ys, SampleColumn.values, ix, iy, palette);
    assert b[0] == MakeBar(xs, ys, SampleColumn.values, 0, ix, iy, palette);
    assert b[1] == MakeBar(xs, ys, SampleColumn.values, 1, ix, iy, palette);
    assert b[2] == MakeBar(xs, ys, SampleColumn.values, 2, ix, iy, palette);
  }

  /** The bars keep row order and take their coordinates from the first-appearance indices. */
  lemma SampleBars(palette: string -> string)
    ensures var m := Convert([East, West, East], [Q1, Q1, Q2], SampleColumn, palette);
      && m.categoryIndexX == map["east" := 0, "west" := 1]
      && m.categoryIndexY == map["q1" := 0, "q2" := 1]
      && m.bars == BuildBars([East, West, East], [Q1, Q1, Q2], SampleColumn.values,
                             map["east" := 0, "west" := 1], map["q1" := 0, "q2" := 1], palette)
      && m.maxLocal == 20.0
  {
    SampleIndexX();
    SampleIndexY();
  }

  /** Depths scale from 0, not from minLocal: the smallest value does not give a flat bar. */
  lemma SampleDepths(palette: string -> string, dims: Visual.Dimensions)
    ensures var objs := Visual.DrawBars(Convert([East, West, East], [Q1, Q1, Q2], SampleColumn, palette), dims);
      && |objs| == 3
      && objs[0].mesh.depth == dims.barSizeHeight / 2.0
      && objs[1].mesh.depth == dims.barSizeHeight
      && objs[2].mesh.depth == dims.barSizeHeight / 4.0
  {
    SampleBars(palette);
    SampleBarList(palette);
    var m := Convert([East, West, East], [Q1, Q1, Q2], SampleColumn, palette);
    var objs := Visual.DrawBars(m, dims);
    assert objs[0].mesh.depth == DepthScale.Depth(20.0, dims.barSizeHeight, 10.0);
    assert objs[1].mesh.depth == DepthScale.Depth(20.0, dims.barSizeHeight, 20.0);
    assert objs[2].mesh.depth == DepthScale.Depth(20.0, dims.barSizeHeight, 5.0);
  }
}
