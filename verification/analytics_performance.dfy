/**
 * The performance overview of an analytics report: every numeric entry
 * becomes a card in grid column 2 and every histogram a chart in column 0,
 * each kind stacked downwards by its own counter; the series of a histogram
 * get cycling colours, readable labels and numeric data.
 */
module AnalyticsPerformance {
  import opened Common

  datatype ViewType = Numeric | Histogram | OtherView

  /** A data point's value: a number, an object of numeric fields, or anything else. */
  datatype PointValue = Number(x: int) | Record(fields: seq<int>) | OtherValue

  datatype Series = Series(key: string, points: seq<PointValue>)

  datatype Entry = Entry(name: string, title: Option<string>, viewType: ViewType, dataSeries: seq<Series>)

  datatype Report = Report(statistics: seq<Entry>)

  /** A placement in the grid: key, column, row, width and height. */
  datatype LayoutItem = LayoutItem(i: string, x: int, y: int, w: int, h: int)

  datatype Dataset = Dataset(seriesLabel: string, data: seq<int>, backgroundColor: string)

  datatype View =
    | Card(key: string, cardTitle: string, value: int)
    | Chart(key: string, chartTitle: Option<string>, datasets: seq<Dataset>)

  const Colors: seq<string> := [
    "rgba(255, 99, 132, 0.5)",
    "rgba(53, 162, 235, 0.5)",
    "rgba(170, 83, 85, 0.5)",
    "rgba(44, 70, 94, 0.5)",
    "rgba(28, 66, 98, 0.5)"
  ]

  /**
   * The entries the overview can read: a numeric entry needs a title and a
   * first series with a first point, a histogram needs a first series (the
   * component dereferences these unguarded).
   */
  predicate Displayable(e: Entry)
  {
    (e.viewType == Numeric ==> e.title.Some? && |e.dataSeries| >= 1 && |e.dataSeries[0].points| >= 1) &&
    (e.viewType == Histogram ==> |e.dataSeries| >= 1)
  }

  // ---------------------------------------------------------------------------
  // Series values and labels

  function Sum(xs: seq<int>): int
  {
    if |xs| == 0 then 0 else Sum(xs[..|xs| - 1]) + xs[|xs| - 1]
  }

  lemma {:induction false} SumAppend(a: seq<int>, b: seq<int>)
    ensures Sum(a + b) == Sum(a) + Sum(b)
    decreases |b|
  {
    if |b| == 0 {
      assert a + b == a;
    } else {
      assert (a + b)[..|a + b| - 1] == a + b[..|b| - 1];
      SumAppend(a, b[..|b| - 1]);
    }
  }

  /** A number stands for itself, an object for the sum of its fields, anything else for 0. */
  function PointNumber(p: PointValue): (n: int)
    ensures p.Number? ==> n == p.x
    ensures p.Record? && |p.fields| == 1 ==> n == p.fields[0]
    ensures p.OtherValue? || (p.Record? && p.fields == []) ==> n == 0
  {
    match p
    case Number(x) => x
    case Record(fields) =>
      assert |fields| == 1 ==> fields[..0] == [] && Sum(fields) == Sum(fields[..0]) + fields[0];
      Sum(fields)
    case OtherValue => 0
  }

  /** An object's value adds up over a split of its fields. */
  lemma PointNumberSplits(a: seq<int>, b: seq<int>)
    ensures PointNumber(Record(a + b)) == PointNumber(Record(a)) + PointNumber(Record(b))
  {
    SumAppend(a, b);
  }

  /** The data of a series: one number per point, in order. */
  function SeriesData(points: seq<PointValue>): (data: seq<int>)
    ensures |data| == |points|
    ensures forall k :: 0 <= k < |points| ==> data[k] == PointNumber(points[k])
  {
    seq(|points|, k requires 0 <= k < |points| => PointNumber(points[k]))
  }

  /** The label of a series: underscores become spaces, then four first-occurrence translations. */
  function SeriesLabel(key: string): string
  {
    var spaced := Join(Split(key, '_'), ' ');
    ReplaceFirst(ReplaceFirst(ReplaceFirst(ReplaceFirst(spaced, "annotation speed", "注释速度"),
                                           "created", "添加"), "deleted", "删除"), "updated", "更新")
  }

  /** No label keeps an underscore. */
  lemma SeriesLabelHasNoUnderscore(key: string)
    ensures '_' !in SeriesLabel(key)
  {
    var spaced := Join(Split(key, '_'), ' ');
    SplitJoinSubstitutes(key, '_', ' ');
    assert '_' !in spaced by {
      forall i | 0 <= i < |spaced| ensures spaced[i] != '_' {}
    }
    var a := ReplaceFirst(spaced, "annotation speed", "注释速度");
    ReplaceFirstKeepsOut(spaced, "annotation speed", "注释速度", '_');
    var b := ReplaceFirst(a, "created", "添加");
    ReplaceFirstKeepsOut(a, "created", "添加", '_');
    var c := ReplaceFirst(b, "deleted", "删除");
    ReplaceFirstKeepsOut(b, "deleted", "删除", '_');
    ReplaceFirstKeepsOut(c, "updated", "更新", '_');
  }

  /** The title of a numeric card, with its three known phrases translated. */
  function CardTitle(title: string): string
  {
    ReplaceFirst(ReplaceFirst(ReplaceFirst(title, "Annotation time (hours)", "注释时间（小时）"),
                              "Total Object Count", "对象总数"),
                 "Total Annotation Speed (objects per hour)", "总注释速度（对象/小时）")
  }

  /** A title holding none of the three phrases is shown as it is. */
  lemma CardTitleKeepsOtherTitles(title: string)
    requires forall i :: 0 <= i <= |title| ==>
      && !OccursAt(title, "Annotation time (hours)", i)
      && !OccursAt(title, "Total Object Count", i)
      && !OccursAt(title, "Total Annotation Speed (objects per hour)", i)
    ensures CardTitle(title) == title
  {
    ReplaceFirstAbsent(title, "Annotation time (hours)", "注释时间（小时）");
    ReplaceFirstAbsent(title, "Total Object Count", "对象总数");
    ReplaceFirstAbsent(title, "Total Annotation Speed (objects per hour)", "总注释速度（对象/小时）");
  }

  /** The annotation-time title is shown translated. */
  lemma CardTitleTranslatesTime()
    ensures CardTitle("Annotation time (hours)") == "注释时间（小时）"
  {
    var t := "Annotation time (hours)";
    var r := "注释时间（小时）";
    assert t[|t|..] == [];
    var a := ReplaceFirst(t, t, r);
    assert a == r;
    ShorterNeverOccurs(r, "Total Object Count", "对象总数");
    ShorterNeverOccurs(r, "Total Annotation Speed (objects per hour)", "总注释速度（对象/小时）");
  }

  /** The object-count title is shown translated. */
  lemma CardTitleTranslatesObjectCount(t: string, r: string)
    requires t == "Total Object Count" && r == "对象总数"
    ensures CardTitle(t) == r
  {
    ShorterNeverOccurs(t, "Annotation time (hours)", "注释时间（小时）");
    var a := ReplaceFirst(t, "Annotation time (hours)", "注释时间（小时）");
    assert a == t;
    assert t[|t|..] == [];
    var b := ReplaceFirst(a, t, r);
    assert b == r;
    ShorterNeverOccurs(r, "Total Annotation Speed (objects per hour)", "总注释速度（对象/小时）");
  }

  /** The annotation-speed title is shown translated. */
  lemma CardTitleTranslatesSpeed(t: string, r: string)
    requires t == "Total Annotation Speed (objects per hour)" && r == "总注释速度（对象/小时）"
    ensures CardTitle(t) == r
  {
    SpeedTitleLacksTimeTitle(t, "Annotation time (hours)", "注释时间（小时）");
    SpeedTitleLacksCountTitle(t, "Total Object Count", "对象总数");
    assert t[|t|..] == [];
    assert ReplaceFirst(t, t, r) == r;
  }

  /** The annotation-time phrase does not occur in the speed title. */
  lemma SpeedTitleLacksTimeTitle(t: string, pat: string, rep: string)
    requires t == "Total Annotation Speed (objects per hour)" && pat == "Annotation time (hours)"
    ensures ReplaceFirst(t, pat, rep) == t
  {
    forall i | 0 <= i <= |t| ensures !OccursAt(t, pat, i) {
      if i + |pat| > |t| {
        MismatchNotOccurs(t, pat, i, |pat| - 1);
      } else if i == 6 {
        MismatchNotOccurs(t, pat, i, 11);
      } else {
        MismatchNotOccurs(t, pat, i, 0);
      }
    }
    ReplaceFirstAbsent(t, pat, rep);
  }

  /** The object-count phrase does not occur in the speed title. */
  lemma SpeedTitleLacksCountTitle(t: string, pat: string, rep: string)
    requires t == "Total Annotation Speed (objects per hour)" && pat == "Total Object Count"
    ensures ReplaceFirst(t, pat, rep) == t
  {
    forall i | 0 <= i <= |t| ensures !OccursAt(t, pat, i) {
      if i + |pat| > |t| {
        MismatchNotOccurs(t, pat, i, |pat| - 1);
      } else if i == 0 {
        MismatchNotOccurs(t, pat, i, 6);
      } else {
        MismatchNotOccurs(t, pat, i, 0);
      }
    }
    ReplaceFirstAbsent(t, pat, rep);
  }

  /** A pattern longer than the text occurs nowhere in it, so `replace` keeps the text. */
  lemma ShorterNeverOccurs(s: string, pat: string, rep: string)
    requires |s| < |pat|
    ensures ReplaceFirst(s, pat, rep) == s
  {
    ReplaceFirstAbsent(s, pat, rep);
  }

  /** The title of a chart, with its two known phrases translated; a missing title stays missing. */
  function ChartTitle(title: Option<string>): (t: Option<string>)
    ensures t.Some? <==> title.Some?
  {
    if title.None? then None
    else Some(ReplaceFirst(ReplaceFirst(title.value, "Objects", "对象"),
                           "Annotation speed (objects per hour)", "注释速度（对象/小时）"))
  }

  /** The value a card shows: the first point of the first series if it is a number, else 0. */
  function CardValue(e: Entry): (v: int)
    requires |e.dataSeries| >= 1 && |e.dataSeries[0].points| >= 1
    ensures e.dataSeries[0].points[0].Number? ==> v == e.dataSeries[0].points[0].x
    ensures !e.dataSeries[0].points[0].Number? ==> v == 0
  {
    var p := e.dataSeries[0].points[0];
    if p.Number? then p.x else 0
  }

  // ---------------------------------------------------------------------------
  // Datasets of a histogram

  /** The datasets of a histogram: the j-th series gets colour j mod 5. */
  function DatasetsFor(series: seq<Series>): (ds: seq<Dataset>)
    ensures |ds| == |series|
    ensures forall j :: 0 <= j < |series| ==>
      ds[j] == Dataset(SeriesLabel(series[j].key), SeriesData(series[j].points), Colors[j % 5])
  {
    seq(|series|, j requires 0 <= j < |series| =>
      Dataset(SeriesLabel(series[j].key), SeriesData(series[j].points), Colors[j % 5]))
  }

  /** Consecutive series get consecutive colours, wrapping after the fifth. */
  lemma DatasetColoursCycle(series: seq<Series>, j: nat)
    requires j + 5 < |series|
    ensures DatasetsFor(series)[j + 5].backgroundColor == DatasetsFor(series)[j].backgroundColor
  {
    assert (j + 5) % 5 == j % 5;
  }

  lemma DatasetsForStep(series: seq<Series>, j: nat)
    requires j < |series|
    ensures DatasetsFor(series[..j + 1]) ==
      DatasetsFor(series[..j]) + [Dataset(SeriesLabel(series[j].key), SeriesData(series[j].points), Colors[j % 5])]
  {
    assert series[..j + 1][..j] == series[..j];
  }

  /** The colour index after the j-th series: one step on from the previous, wrapping after the fifth colour. */
  lemma NextColourIndex(j: nat)
    ensures (var prev := if j == 0 then -1 else (j - 1) % 5;
             if prev >= 4 then 0 else prev + 1) == j % 5
  {
  }

  /** The `dataSeries` map with the colour index carried from one series to the next. */
  method BuildDatasets(series: seq<Series>) returns (datasets: seq<Dataset>)
    ensures datasets == DatasetsFor(series)
  {
    var colorIndex := -1;
    datasets := [];
    var j := 0;
    while j < |series|
      invariant 0 <= j <= |series|
      invariant colorIndex == if j == 0 then -1 else (j - 1) % 5
      invariant datasets == DatasetsFor(series[..j])
    {
      var seriesLabel := SeriesLabel(series[j].key);
      var data := SeriesData(series[j].points);
      NextColourIndex(j);
      colorIndex := if colorIndex >= |Colors| - 1 then 0 else colorIndex + 1;
      datasets := datasets + [Dataset(seriesLabel, data, Colors[colorIndex])];
      DatasetsForStep(series, j);
      j := j + 1;
    }
    assert series[..j] == series;
  }

  // ---------------------------------------------------------------------------
  // Layout and views

  /** How many entries of a view type `entries` holds. */
  function CountOfKind(entries: seq<Entry>, kind: ViewType): nat
  {
    if |entries| == 0 then 0
    else CountOfKind(entries[..|entries| - 1], kind) + (if entries[|entries| - 1].viewType == kind then 1 else 0)
  }

  /** The entries the overview shows: the numeric ones and the histograms, in order. */
  function Shown(entries: seq<Entry>): seq<Entry>
  {
    if |entries| == 0 then []
    else
      var last := entries[|entries| - 1];
      Shown(entries[..|entries| - 1]) + (if last.viewType != OtherView then [last] else [])
  }

  /** The layout of the entries: the k-th numeric entry at (2, k), the k-th histogram at (0, k). */
  function LayoutFor(entries: seq<Entry>): (layout: seq<LayoutItem>)
    ensures |layout| == |Shown(entries)|
    ensures forall k :: 0 <= k < |layout| ==> layout[k].i == Shown(entries)[k].name
    ensures forall k :: 0 <= k < |layout| ==> layout[k].w == 2 && layout[k].h == 1
    ensures forall k :: 0 <= k < |layout| ==>
      (layout[k].x == 2 <==> Shown(entries)[k].viewType == Numeric) &&
      (layout[k].x == 0 <==> Shown(entries)[k].viewType == Histogram)
  {
    if |entries| == 0 then []
    else
      var init := entries[..|entries| - 1];
      var e := entries[|entries| - 1];
      LayoutFor(init) +
        (match e.viewType
         case Numeric => [LayoutItem(e.name, 2, CountOfKind(init, Numeric), 2, 1)]
         case Histogram => [LayoutItem(e.name, 0, CountOfKind(init, Histogram), 2, 1)]
         case OtherView => [])
  }

  /** The view of one shown entry. */
  function ViewOf(e: Entry): (v: View)
    requires Displayable(e) && e.viewType != OtherView
    ensures v.key == e.name
  {
    if e.viewType == Numeric then Card(e.name, CardTitle(e.title.value), CardValue(e))
    else Chart(e.name, ChartTitle(e.title), DatasetsFor(e.dataSeries))
  }

  /** The views of the entries, one per shown entry, in order. */
  function ViewsFor(entries: seq<Entry>): (views: seq<View>)
    requires forall k :: 0 <= k < |entries| ==> Displayable(entries[k])
    ensures |views| == |Shown(entries)|
    ensures forall k :: 0 <= k < |views| ==> views[k].key == Shown(entries)[k].name
  {
    if |entries| == 0 then []
    else
      var init := entries[..|entries| - 1];
      var e := entries[|entries| - 1];
      ViewsFor(init) + (if e.viewType != OtherView then [ViewOf(e)] else [])
  }

  /** The rows of one kind's items are exactly 0, 1, 2, ... below the number of such entries. */
  lemma {:induction false} LayoutRowsBelowCount(entries: seq<Entry>, k: nat)
    requires k < |LayoutFor(entries)|
    ensures LayoutFor(entries)[k].x == 2 ==> 0 <= LayoutFor(entries)[k].y < CountOfKind(entries, Numeric)
    ensures LayoutFor(entries)[k].x == 0 ==> 0 <= LayoutFor(entries)[k].y < CountOfKind(entries, Histogram)
  {
    var init := entries[..|entries| - 1];
    if k < |LayoutFor(init)| {
      LayoutRowsBelowCount(init, k);
      assert LayoutFor(entries)[k] == LayoutFor(init)[k];
    }
  }

  /** Dropping the entries that are not shown does not change the count of a shown kind. */
  lemma {:induction false} CountOfKindShown(entries: seq<Entry>, kind: ViewType)
    requires kind != OtherView
    ensures CountOfKind(Shown(entries), kind) == CountOfKind(entries, kind)
  {
    if |entries| > 0 {
      var init := entries[..|entries| - 1];
      var e := entries[|entries| - 1];
      CountOfKindShown(init, kind);
      if e.viewType != OtherView {
        var shown := Shown(init) + [e];
        assert Shown(entries) == shown;
        assert shown[..|shown| - 1] == Shown(init) && shown[|shown| - 1] == e;
        assert CountOfKind(shown, kind) == CountOfKind(Shown(init), kind) + (if e.viewType == kind then 1 else 0);
      } else {
        assert Shown(entries) == Shown(init);
      }
      assert CountOfKind(entries, kind) == CountOfKind(init, kind) + (if e.viewType == kind then 1 else 0);
    }
  }

  /** The k-th shown item's row is the number of shown items of its kind before it. */
  lemma {:induction false} LayoutRowIsRank(entries: seq<Entry>, k: nat)
    requires k < |LayoutFor(entries)|
    ensures LayoutFor(entries)[k].y == CountOfKind(Shown(entries)[..k], Shown(entries)[k].viewType)
  {
    var init := entries[..|entries| - 1];
    var e := entries[|entries| - 1];
    if k < |LayoutFor(init)| {
      LayoutRowIsRank(init, k);
      assert LayoutFor(entries)[k] == LayoutFor(init)[k];
      assert Shown(entries)[..k] == Shown(init)[..k];
      assert Shown(entries)[k] == Shown(init)[k];
    } else {
      CountOfKindShown(init, e.viewType);
      assert Shown(entries)[..k] == Shown(init);
    }
  }

  /** No two cards or charts are placed in the same grid cell. */
  lemma {:induction false} LayoutNoOverlap(entries: seq<Entry>)
    ensures forall a, b :: 0 <= a < b < |LayoutFor(entries)| ==>
      (LayoutFor(entries)[a].x, LayoutFor(entries)[a].y) != (LayoutFor(entries)[b].x, LayoutFor(entries)[b].y)
  {
    if |entries| > 0 {
      var init := entries[..|entries| - 1];
      LayoutNoOverlap(init);
      var l := LayoutFor(entries);
      var li := LayoutFor(init);
      forall a, b | 0 <= a < b < |l| ensures (l[a].x, l[a].y) != (l[b].x, l[b].y) {
        if b < |li| {
          assert l[a] == li[a] && l[b] == li[b];
        } else {
          assert l[a] == li[a];
          LayoutRowsBelowCount(init, a);
        }
      }
    }
  }

  /**
   * The overview's loop over `report.statistics`: nothing for a missing
   * report; otherwise a layout item and a view for each numeric or
   * histogram entry, with one row counter per kind.
   */
  method BuildOverview(report: Option<Report>) returns (r: Option<(seq<LayoutItem>, seq<View>)>)
    requires report.Some? ==> forall k :: 0 <= k < |report.value.statistics| ==> Displayable(report.value.statistics[k])
    ensures report.None? <==> r.None?
    ensures r.Some? ==> r.value.0 == LayoutFor(report.value.statistics)
    ensures r.Some? ==> r.value.1 == ViewsFor(report.value.statistics)
  {
    if report.None? {
      return None;
    }
    var entries := report.value.statistics;
    var layout: seq<LayoutItem> := [];
    var views: seq<View> := [];
    var histogramCount := 0;
    var numericCount := 0;
    var i := 0;
    while i < |entries|
      invariant 0 <= i <= |entries|
      invariant layout == LayoutFor(entries[..i]) && views == ViewsFor(entries[..i])
      invariant numericCount == CountOfKind(entries[..i], Numeric)
      invariant histogramCount == CountOfKind(entries[..i], Histogram)
    {
      var e := entries[i];
      assert entries[..i + 1][..i] == entries[..i];
      match e.viewType {
        case Numeric =>
          layout := layout + [LayoutItem(e.name, 2, numericCount, 2, 1)];
          numericCount := numericCount + 1;
          views := views + [Card(e.name, CardTitle(e.title.value), CardValue(e))];
        case Histogram =>
          var datasets := BuildDatasets(e.dataSeries);
          layout := layout + [LayoutItem(e.name, 0, histogramCount, 2, 1)];
          histogramCount := histogramCount + 1;
          views := views + [Chart(e.name, ChartTitle(e.title), datasets)];
        case OtherView =>
      }
      i := i + 1;
    }
    assert entries[..i] == entries;
    r := Some((layout, views));
  }

  /** Layout and views correspond one to one, by key, in entry order. */
  lemma LayoutMatchesViews(entries: seq<Entry>)
    requires forall k :: 0 <= k < |entries| ==> Displayable(entries[k])
    ensures |LayoutFor(entries)| == |ViewsFor(entries)|
    ensures forall k :: 0 <= k < |LayoutFor(entries)| ==> LayoutFor(entries)[k].i == ViewsFor(entries)[k].key
  {
  }
}
