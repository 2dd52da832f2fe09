/** Worked examples of the chart data aggregation on small tables. */
module AggregationScenarios {
  import opened Wrappers
  import opened Text
  import opened Aggregation

  function CitySales(): seq<Row>
  {
    [map["city" := "A", "sales" := "10"],
     map["city" := "A", "sales" := "20"],
     map["city" := "B", "sales" := "5"]]
  }

  lemma CitySalesGroups()
    ensures GroupLabels(CitySales(), "city") == ["A", "B"]
    ensures GroupBy(CitySales(), "city").members["A"] == CitySales()[..2]
    ensures GroupBy(CitySales(), "city").members["B"] == CitySales()[2..]
  {
    var rows := CitySales();
    assert rows[..2][..1] == [rows[0]];
    assert rows[..2] == [rows[0]] + [rows[1]];
    assert GroupBy(rows[..1], "city") == Groups(["A"], map["A" := [rows[0]]]);
    assert GroupBy(rows[..2], "city") == Groups(["A"], map["A" := rows[..2]]);
    assert GroupBy(rows, "city") == Groups(["A", "B"], map["A" := rows[..2], "B" := rows[2..]]);
    assert !IsArrayIndex("A") && !IsArrayIndex("B");
    ObjectKeysWithoutIndices(["A", "B"]);
  }

  /** The reference groups: the two A rows, then the B row. */
  lemma CitySalesGroupRows()
    ensures Group(CitySales(), "city", "A") == CitySales()[..2]
    ensures Group(CitySales(), "city", "B") == CitySales()[2..]
  {
    var rows := CitySales();
    assert rows[..2][..1] == [rows[0]];
    assert rows[..1][..0] == [];
    assert Group(rows[..1], "city", "A") == [rows[0]];
    assert Group(rows[..2], "city", "A") == rows[..2];
    assert Group(rows[..2], "city", "B") == [];
    assert rows[2..] == [rows[2]];
  }

  /** The coerced sales of each city's group: 10 + 20 for A, 5 for B. */
  lemma CitySalesSums(parse: Parser)
    requires parse("10") == Some(10.0) && parse("20") == Some(20.0) && parse("5") == Some(5.0)
    ensures SumBy(CitySales()[..2], "sales", parse) == 30.0
    ensures SumBy(CitySales()[2..], "sales", parse) == 5.0
  {
    var rows := CitySales();
    assert rows[..2][..1] == [rows[0]];
    assert Coerced(rows[0], "sales", parse) == 10.0;
    assert Coerced(rows[1], "sales", parse) == 20.0;
    assert Coerced(rows[2], "sales", parse) == 5.0;
    assert SumBy(rows[..1], "sales", parse) == 10.0;
    assert rows[2..] == [rows[2]];
  }

  /** A table with two label groups charts as two slices, each its group's sum. */
  lemma TwoPieSlices(rows: seq<Row>, labelColumn: string, valueColumn: string, parse: Parser, a: string, b: string)
    requires GroupLabels(rows, labelColumn) == [a, b]
    ensures PreparePie(rows, labelColumn, valueColumn, parse).labels == [a, b]
    ensures PreparePie(rows, labelColumn, valueColumn, parse).values ==
      [SumBy(Group(rows, labelColumn, a), valueColumn, parse), SumBy(Group(rows, labelColumn, b), valueColumn, parse)]
  {
    var data := PreparePie(rows, labelColumn, valueColumn, parse);
    assert data.labels == [a, b];
    assert data.labels[0] == a && data.labels[1] == b;
  }

  /** A table with two x groups charts as two bars, each its group's mean. */
  lemma TwoBars(rows: seq<Row>, xColumn: string, yColumn: string, parse: Parser, a: string, b: string)
    requires GroupLabels(rows, xColumn) == [a, b]
    ensures PrepareAxis(Bar, rows, xColumn, yColumn, parse).labels == [a, b]
    ensures Group(rows, xColumn, a) != [] && Group(rows, xColumn, b) != []
    ensures var ga, gb := Group(rows, xColumn, a), Group(rows, xColumn, b);
      PrepareAxis(Bar, rows, xColumn, yColumn, parse).values ==
        [SumBy(ga, yColumn, parse) / (|ga| as real), SumBy(gb, yColumn, parse) / (|gb| as real)]
  {
    var data := PrepareAxis(Bar, rows, xColumn, yColumn, parse);
    assert data.labels[0] == a && data.labels[1] == b;
    assert |data.values| == 2;
  }

  /** The mean sales of each city's group: 30 / 2 for A, 5 / 1 for B. */
  lemma CitySalesMeans(parse: Parser)
    requires parse("10") == Some(10.0) && parse("20") == Some(20.0) && parse("5") == Some(5.0)
    ensures var a := CitySales()[..2]; SumBy(a, "sales", parse) / (|a| as real) == 15.0
    ensures var b := CitySales()[2..]; SumBy(b, "sales", parse) / (|b| as real) == 5.0
  {
    CitySalesSums(parse);
    assert |CitySales()[..2]| == 2 && |CitySales()[2..]| == 1;
  }

  /** A pie chart of sales by city adds up each city's sales. */
  lemma PieScenario(parse: Parser)
    requires parse("10") == Some(10.0) && parse("20") == Some(20.0) && parse("5") == Some(5.0)
    ensures PreparePie(CitySales(), "city", "sales", parse).labels == ["A", "B"]
    ensures PreparePie(CitySales(), "city", "sales", parse).values == [30.0, 5.0]
  {
    CitySalesGroups();
    CitySalesGroupRows();
    CitySalesSums(parse);
    TwoPieSlices(CitySales(), "city", "sales", parse, "A", "B");
  }

  /** A bar chart of the same table averages each city's sales. */
  lemma BarScenario(parse: Parser)
    requires parse("10") == Some(10.0) && parse("20") == Some(20.0) && parse("5") == Some(5.0)
    ensures PrepareAxis(Bar, CitySales(), "city", "sales", parse).labels == ["A", "B"]
    ensures PrepareAxis(Bar, CitySales(), "city", "sales", parse).values == [15.0, 5.0]
  {
    CitySalesGroups();
    CitySalesGroupRows();
    CitySalesMeans(parse);
    TwoBars(CitySales(), "city", "sales", parse, "A", "B");
  }

  lemma SampleKeyKinds()
    ensures IsArrayIndex("2") && IndexValue("2") == 2
    ensures IsArrayIndex("1") && IndexValue("1") == 1
    ensures !IsArrayIndex("a") && !IsArrayIndex("b")
  {
    assert DecimalValue("2") == 2 && DecimalValue("1") == 1;
  }

  lemma SampleKeySplit()
    ensures IndexKeys(["b", "2", "a", "1"]) == ["2", "1"]
    ensures OtherKeys(["b", "2", "a", "1"]) == ["b", "a"]
  {
    SampleKeyKinds();
    var keys := ["b", "2", "a", "1"];
    assert keys[..3] == ["b", "2", "a"] && keys[..3][..2] == ["b", "2"];
    assert keys[..3][..2][..1] == ["b"];
    assert IndexKeys(["b"]) == [] && OtherKeys(["b"]) == ["b"];
    assert IndexKeys(["b", "2"]) == ["2"] && OtherKeys(["b", "2"]) == ["b"];
    assert IndexKeys(["b", "2", "a"]) == ["2"] && OtherKeys(["b", "2", "a"]) == ["b", "a"];
  }

  /** Sorting the index names "2", "1" by numeric value. */
  lemma SampleIndexSort()
    ensures SortBy(["2", "1"], IndexValue) == ["1", "2"]
  {
    SampleKeyKinds();
    assert ["2", "1"][..1] == ["2"];
    assert SortBy(["2"], IndexValue) == ["2"];
  }

  /** Keys that read as array indices come first, in numeric order; the rest keep their order. */
  lemma NumericLabelsFirst()
    ensures ObjectKeys(["b", "2", "a", "1"]) == ["1", "2", "b", "a"]
  {
    SampleKeySplit();
    SampleIndexSort();
  }
}
