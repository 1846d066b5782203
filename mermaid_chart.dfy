/** The Mermaid xychart builder: a title, optional x-axis labels, an optional
    y-axis (title and range) and an ordered list of bar and line datasets.
    Chart values are float64 in the builder; here they are integers, whose
    `%.1f` and `%.0f` renderings are the decimal digits followed by ".0" and
    the bare digits. */
module MermaidChart {
  import opened StrUtil
  import opened MermaidCommon

  datatype Dataset = Dataset(kind: string, values: seq<int>)

  const InitLine: string := "%%{init: {'theme':'neutral'}}%%"

  function TitleLine(title: string): string {
    Indent + "title \"" + title + "\""
  }

  /** Each label in double quotes. */
  function Quoted(labels: seq<string>): (r: seq<string>)
    ensures |r| == |labels|
    ensures forall i :: 0 <= i < |labels| ==> r[i] == "\"" + labels[i] + "\""
  {
    if labels == [] then [] else ["\"" + labels[0] + "\""] + Quoted(labels[1..])
  }

  function XAxisLine(labels: seq<string>): string {
    Indent + "x-axis [" + Join(Quoted(labels), ", ") + "]"
  }

  /** `%.0f` of an integral value. */
  function WholeText(v: int): string { IntToString(v) }

  /** `%.1f` of an integral value. */
  function OneDecimalText(v: int): string { IntToString(v) + ".0" }

  function YAxisLine(title: string, lo: int, hi: int): string {
    Indent + "y-axis \"" + title + "\" " + WholeText(lo) + " --> " + WholeText(hi)
  }

  function ValueTexts(values: seq<int>): (r: seq<string>)
    ensures |r| == |values|
  {
    if values == [] then [] else [OneDecimalText(values[0])] + ValueTexts(values[1..])
  }

  function DatasetLine(ds: Dataset): string {
    Indent + ds.kind + " [" + Join(ValueTexts(ds.values), ", ") + "]"
  }

  function DatasetLines(datasets: seq<Dataset>): (r: seq<string>)
    ensures |r| == |datasets|
  {
    if datasets == [] then [] else [DatasetLine(datasets[0])] + DatasetLines(datasets[1..])
  }

  /** The lines of a rendered chart: the init line, `xychart-beta` and the
      title always come first; the x-axis line is present exactly when there
      are labels, the y-axis line exactly when the y title is non-empty; one
      line per dataset closes the chart, in insertion order. */
  function ChartLines(title: string, xLabels: seq<string>, yTitle: string, yMin: int, yMax: int,
                      datasets: seq<Dataset>): (r: seq<string>)
    ensures |r| == 3 + (if xLabels != [] then 1 else 0) + (if yTitle != "" then 1 else 0) + |datasets|
    ensures r[..3] == [InitLine, "xychart-beta", TitleLine(title)]
    ensures xLabels != [] ==> r[3] == XAxisLine(xLabels)
    ensures yTitle != "" ==> r[|r| - |datasets| - 1] == YAxisLine(yTitle, yMin, yMax)
    ensures r[|r| - |datasets|..] == DatasetLines(datasets)
  {
    [InitLine, "xychart-beta", TitleLine(title)]
    + (if xLabels != [] then [XAxisLine(xLabels)] else [])
    + (if yTitle != "" then [YAxisLine(yTitle, yMin, yMax)] else [])
    + DatasetLines(datasets)
  }

  /** The loop that quotes the x-axis labels one by one. */
  method QuoteLabels(labels: seq<string>) returns (quoted: seq<string>)
    ensures quoted == Quoted(labels)
  {
    quoted := [];
    for i := 0 to |labels|
      invariant quoted == Quoted(labels[..i])
    {
      QuotedSnoc(labels[..i], labels[i]);
      assert labels[..i + 1] == labels[..i] + [labels[i]];
      quoted := quoted + ["\"" + labels[i] + "\""];
    }
    assert labels[..|labels|] == labels;
  }

  lemma QuotedSnoc(labels: seq<string>, l: string)
    ensures Quoted(labels + [l]) == Quoted(labels) + ["\"" + l + "\""]
  {
  }

  /** The loop that formats a dataset's values one by one. */
  method FormatValues(values: seq<int>) returns (vals: seq<string>)
    ensures vals == ValueTexts(values)
  {
    vals := [];
    for i := 0 to |values|
      invariant vals == ValueTexts(values[..i])
    {
      ValueTextsStep(values, i);
      vals := vals + [OneDecimalText(values[i])];
    }
    assert values[..|values|] == values;
  }

  lemma {:induction false} DatasetLinesSnoc(datasets: seq<Dataset>, ds: Dataset)
    ensures DatasetLines(datasets + [ds]) == DatasetLines(datasets) + [DatasetLine(ds)]
  {
    if datasets != [] {
      assert (datasets + [ds])[1..] == datasets[1..] + [ds];
      DatasetLinesSnoc(datasets[1..], ds);
    }
  }

  lemma DatasetLinesStep(datasets: seq<Dataset>, d: int)
    requires 0 <= d < |datasets|
    ensures Terminated(DatasetLines(datasets[..d + 1])) == Terminated(DatasetLines(datasets[..d])) + DatasetLine(datasets[d]) + "\n"
  {
    DatasetLinesSnoc(datasets[..d], datasets[d]);
    assert datasets[..d + 1] == datasets[..d] + [datasets[d]];
    TerminatedSnoc(DatasetLines(datasets[..d]), DatasetLine(datasets[d]));
  }

  lemma ValueTextsStep(values: seq<int>, i: int)
    requires 0 <= i < |values|
    ensures ValueTexts(values[..i + 1]) == ValueTexts(values[..i]) + [OneDecimalText(values[i])]
  {
    ValueTextsSnoc(values[..i], values[i]);
    assert values[..i + 1] == values[..i] + [values[i]];
  }

  lemma {:induction false} ValueTextsSnoc(values: seq<int>, v: int)
    ensures ValueTexts(values + [v]) == ValueTexts(values) + [OneDecimalText(v)]
  {
    if values != [] {
      assert (values + [v])[1..] == values[1..] + [v];
      ValueTextsSnoc(values[1..], v);
    }
  }

  /** A line that is written only when `present` holds. */
  function OptionalLine(present: bool, line: string): seq<string> {
    if present then [line] else []
  }

  function HeadLines(title: string): seq<string> {
    [InitLine, "xychart-beta", TitleLine(title)]
  }

  /** The lines before the datasets. */
  function AxisLines(title: string, xLabels: seq<string>, yTitle: string, yMin: int, yMax: int): seq<string> {
    HeadLines(title)
    + OptionalLine(xLabels != [], XAxisLine(xLabels))
    + OptionalLine(yTitle != "", YAxisLine(yTitle, yMin, yMax))
  }

  /** The first part of `XYChart.Render`: the fixed header and the axes. */
  method RenderAxes(title: string, xLabels: seq<string>, yTitle: string, yMin: int, yMax: int)
    returns (out: string)
    ensures out == Terminated(AxisLines(title, xLabels, yTitle, yMin, yMax))
  {
    ghost var written: seq<string> := [];
    var line := InitLine;
    TerminatedSnoc(written, line);
    out := line + "\n";
    written := written + [line];
    assert out == Terminated(written);
    line := "xychart-beta";
    TerminatedSnoc(written, line);
    out := out + line + "\n";
    written := written + [line];
    assert out == Terminated(written);
    line := TitleLine(title);
    TerminatedSnoc(written, line);
    out := out + line + "\n";
    written := written + [line];
    assert out == Terminated(written);
    ghost var head := written;

    if |xLabels| > 0 {
      var quoted := QuoteLabels(xLabels);
      line := Indent + "x-axis [" + Join(quoted, ", ") + "]";
      TerminatedSnoc(written, line);
      out := out + line + "\n";
      written := written + [line];
      assert out == Terminated(written);
    }
    ghost var withX := written;

    if yTitle != "" {
      line := YAxisLine(yTitle, yMin, yMax);
      TerminatedSnoc(written, line);
      out := out + line + "\n";
      written := written + [line];
      assert out == Terminated(written);
    }
    assert head == HeadLines(title);
    assert withX == head + OptionalLine(xLabels != [], XAxisLine(xLabels));
    assert written == withX + OptionalLine(yTitle != "", YAxisLine(yTitle, yMin, yMax));
    assert written == AxisLines(title, xLabels, yTitle, yMin, yMax);
    assert out == Terminated(written);
  }

  /** The second part of `XYChart.Render`: one line per dataset. */
  method RenderDatasets(datasets: seq<Dataset>) returns (out: string)
    ensures out == Terminated(DatasetLines(datasets))
  {
    out := "";
    for d := 0 to |datasets|
      invariant out == Terminated(DatasetLines(datasets[..d]))
    {
      var vals := FormatValues(datasets[d].values);
      var line := Indent + datasets[d].kind + " [" + Join(vals, ", ") + "]";
      assert line == DatasetLine(datasets[d]);
      DatasetLinesStep(datasets, d);
      out := out + line + "\n";
    }
    assert datasets[..|datasets|] == datasets;
  }

  class XYChart {
    var title: string
    var xLabels: seq<string>
    var yTitle: string
    var yMin: int
    var yMax: int
    var datasets: seq<Dataset>

    constructor(title: string)
      ensures this.title == title && xLabels == [] && yTitle == "" && yMin == 0 && yMax == 0
      ensures datasets == []
    {
      this.title := title;
      xLabels := [];
      yTitle := "";
      yMin := 0;
      yMax := 0;
      datasets := [];
    }

    /** Replaces the labels; the last call wins. */
    method SetXAxis(labels: seq<string>)
      modifies this
      ensures xLabels == labels
      ensures title == old(title) && yTitle == old(yTitle) && yMin == old(yMin) && yMax == old(yMax)
      ensures datasets == old(datasets)
    {
      xLabels := labels;
    }

    /** Replaces the y title and range; the last call wins. */
    method SetYAxis(t: string, lo: int, hi: int)
      modifies this
      ensures yTitle == t && yMin == lo && yMax == hi
      ensures title == old(title) && xLabels == old(xLabels) && datasets == old(datasets)
    {
      yTitle := t;
      yMin := lo;
      yMax := hi;
    }

    method AddBar(values: seq<int>)
      modifies this
      ensures datasets == old(datasets) + [Dataset("bar", values)]
      ensures title == old(title) && xLabels == old(xLabels) && yTitle == old(yTitle)
      ensures yMin == old(yMin) && yMax == old(yMax)
    {
      datasets := datasets + [Dataset("bar", values)];
    }

    method AddLine(values: seq<int>)
      modifies this
      ensures datasets == old(datasets) + [Dataset("line", values)]
      ensures title == old(title) && xLabels == old(xLabels) && yTitle == old(yTitle)
      ensures yMin == old(yMin) && yMax == old(yMax)
    {
      datasets := datasets + [Dataset("line", values)];
    }

    method Render() returns (out: string)
      ensures out == Terminated(ChartLines(title, xLabels, yTitle, yMin, yMax, datasets))
    {
      var axes := RenderAxes(title, xLabels, yTitle, yMin, yMax);
      var body := RenderDatasets(datasets);
      TerminatedAppend(AxisLines(title, xLabels, yTitle, yMin, yMax), DatasetLines(datasets));
      out := axes + body;
    }

    method RenderBlock() returns (out: string)
      ensures out == WrapBlock(Terminated(ChartLines(title, xLabels, yTitle, yMin, yMax, datasets)))
    {
      var text := Render();
      out := WrapBlock(text);
    }
  }
}
