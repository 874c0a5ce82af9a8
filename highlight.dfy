/**
 * The legend-driven highlight of the line chart.
 *
 * The chart keeps one piece of state, the selected legend label. Whenever it
 * changes, every dataset is recoloured in place: the dataset whose label is
 * the selection gets its plain base colour, every other one the base colour
 * followed by the two hex digits "10", a low alpha channel that fades it out.
 */
module Highlight {
  import opened Watersheds
  import opened Series

  /** The alpha suffix of a faded series. */
  const FadedSuffix: string := "10"

  /**
   * `colorsMap[label]` spliced into a template string: a label missing from
   * the table reads as the text "undefined".
   */
  function BaseColour(name: string): (c: string)
    ensures name in ColorsMap ==> c == ColorsMap[name] && HexColour(c)
    ensures name !in ColorsMap ==> c == "undefined"
  {
    ColoursAreHex();
    if name in ColorsMap then ColorsMap[name] else "undefined"
  }

  /**
   * The colour the recolour effect gives one dataset: only the colours change,
   * both start with the base colour, and the dataset keeps full opacity
   * exactly when it is the selected one.
   */
  function Recolour(d: ChartDataset, selected: string): (r: ChartDataset)
    ensures r.name == d.name && r.pointStyle == d.pointStyle && r.data == d.data
    ensures r.borderColor == r.backgroundColor && BaseColour(d.name) <= r.backgroundColor
    ensures FullOpacity(r) <==> d.name == selected
  {
    var faded := d.name != selected;
    var color := BaseColour(d.name) + (if faded then FadedSuffix else "");
    assert faded ==> |color| == |BaseColour(d.name)| + 2;
    d.(backgroundColor := color, borderColor := color)
  }

  /** The effect applied to the whole dataset array. */
  function Recoloured(ds: seq<ChartDataset>, selected: string): (r: seq<ChartDataset>)
    ensures |r| == |ds|
  {
    seq(|ds|, i requires 0 <= i < |ds| => Recolour(ds[i], selected))
  }

  /** A dataset drawn at full opacity: both colours are its plain base colour. */
  predicate FullOpacity(d: ChartDataset) {
    d.backgroundColor == BaseColour(d.name) && d.borderColor == BaseColour(d.name)
  }

  /** Two dataset arrays that differ at most in their colours. */
  predicate SameExceptColours(a: seq<ChartDataset>, b: seq<ChartDataset>) {
    && |a| == |b|
    && forall i :: 0 <= i < |a| ==>
      a[i].name == b[i].name && a[i].pointStyle == b[i].pointStyle && a[i].data == b[i].data
  }

  /** True iff no two datasets share a label. */
  predicate DistinctNames(ds: seq<ChartDataset>) {
    forall i, j :: 0 <= i < j < |ds| ==> ds[i].name != ds[j].name
  }

  /**
   * After the effect, the selected dataset has exactly its base colour, every
   * other dataset its base colour with the alpha suffix, border and
   * background agree, and nothing but the colours has changed.
   */
  lemma RecolouredEmphasis(ds: seq<ChartDataset>, selected: string)
    ensures SameExceptColours(ds, Recoloured(ds, selected))
    ensures forall i :: 0 <= i < |ds| ==>
      var r := Recoloured(ds, selected)[i];
      && r.borderColor == r.backgroundColor
      && (r.name == selected ==> r.backgroundColor == BaseColour(r.name))
      && (r.name != selected ==> r.backgroundColor == BaseColour(r.name) + FadedSuffix)
  {
  }

  /** A dataset is drawn at full opacity exactly when it is the selected one. */
  lemma FullOpacityIffSelected(ds: seq<ChartDataset>, selected: string, i: nat)
    requires i < |ds|
    ensures FullOpacity(Recoloured(ds, selected)[i]) <==> ds[i].name == selected
  {
  }

  /** With distinct labels, at most one dataset is drawn at full opacity. */
  lemma AtMostOneFullOpacity(ds: seq<ChartDataset>, selected: string)
    requires DistinctNames(ds)
    ensures forall i, j ::
      (0 <= i < |ds| && 0 <= j < |ds| &&
       FullOpacity(Recoloured(ds, selected)[i]) && FullOpacity(Recoloured(ds, selected)[j])) ==> i == j
  {
    forall i, j | 0 <= i < |ds| && 0 <= j < |ds| &&
      FullOpacity(Recoloured(ds, selected)[i]) && FullOpacity(Recoloured(ds, selected)[j])
      ensures i == j
    {
      FullOpacityIffSelected(ds, selected, i);
      FullOpacityIffSelected(ds, selected, j);
    }
  }

  /** Some dataset is drawn at full opacity exactly when the selection is one of the labels. */
  lemma SomeFullOpacityIffListed(ds: seq<ChartDataset>, selected: string)
    ensures (exists i :: 0 <= i < |ds| && FullOpacity(Recoloured(ds, selected)[i])) <==>
      (exists i :: 0 <= i < |ds| && ds[i].name == selected)
  {
    forall i | 0 <= i < |ds| {
      FullOpacityIffSelected(ds, selected, i);
    }
  }

  /**
   * The effect's result depends only on the labels and the selection, not on
   * the colours the datasets had before.
   */
  lemma RecolouredForgetsColours(a: seq<ChartDataset>, b: seq<ChartDataset>, selected: string)
    requires SameExceptColours(a, b)
    ensures Recoloured(a, selected) == Recoloured(b, selected)
  {
    var ra, rb := Recoloured(a, selected), Recoloured(b, selected);
    forall i | 0 <= i < |a| ensures ra[i] == rb[i] {
      assert ra[i] == Recolour(a[i], selected) && rb[i] == Recolour(b[i], selected);
    }
  }

  /** Recolouring for one selection and then another equals recolouring for the second. */
  lemma RecolouredTwice(ds: seq<ChartDataset>, first: string, second: string)
    ensures Recoloured(Recoloured(ds, first), second) == Recoloured(ds, second)
  {
    RecolouredEmphasis(ds, first);
    RecolouredForgetsColours(Recoloured(ds, first), ds, second);
  }

  /** Applying the effect twice equals applying it once. */
  lemma RecolouredIdempotent(ds: seq<ChartDataset>, selected: string)
    ensures Recoloured(Recoloured(ds, selected), selected) == Recoloured(ds, selected)
  {
    RecolouredTwice(ds, selected, selected);
  }

  /**
   * On the chart built from the dataset file, at most one series is ever at
   * full opacity, and one is exactly when the selection names a series.
   */
  lemma ChartHighlight(raw: RawDataset, selected: string)
    requires WellFormed(raw)
    ensures var r := Recoloured(Datasets(raw), selected);
      && (forall i, j :: 0 <= i < |r| && 0 <= j < |r| && FullOpacity(r[i]) && FullOpacity(r[j]) ==> i == j)
      && ((exists i :: 0 <= i < |r| && FullOpacity(r[i])) <==>
          (exists i :: 0 <= i < |Datasets(raw)| && Datasets(raw)[i].name == selected))
  {
    DatasetNamesDistinct(raw);
    AtMostOneFullOpacity(Datasets(raw), selected);
    SomeFullOpacityIffListed(Datasets(raw), selected);
  }

  /**
   * When the dataset file has the aggregate series, the chart first shows
   * exactly that series at full opacity.
   */
  lemma MountHighlightsAggregate(raw: RawDataset, e: Entry)
    requires WellFormed(raw)
    requires e in raw && e.key == "NYC_percentile"
    ensures var r := Recoloured(Datasets(raw), InitialSelection);
      exists i :: (0 <= i < |r| && FullOpacity(r[i]) && r[i].name == "All Watersheds"
        && forall j :: 0 <= j < |r| && FullOpacity(r[j]) ==> j == i)
  {
    var ds := Datasets(raw);
    InitialSelectionIsAggregate();
    EverySeriesCharted(raw, e);
    var i :| 0 <= i < |ds| && ds[i].name == InitialSelection;
    FullOpacityIffSelected(ds, InitialSelection, i);
    DatasetNamesDistinct(raw);
    AtMostOneFullOpacity(ds, InitialSelection);
    assert Recoloured(ds, InitialSelection)[i].name == ds[i].name;
  }

  /**
   * The `LineChart` component once mounted: its `selectedData` state and the
   * chart's dataset array, whose entries the effect rewrites in place.
   */
  class LineChart {
    var selectedData: string
    const datasets: array<ChartDataset>
    /** The datasets as the transformer built them. */
    ghost const built: seq<ChartDataset>

    /** The colours on screen always reflect the current selection. */
    ghost predicate Valid()
      reads this, datasets
    {
      datasets[..] == Recoloured(built, selectedData)
    }

    /**
     * Mounting: the state starts at the aggregate series' label and the
     * effect runs once.
     */
    constructor (ds: seq<ChartDataset>)
      ensures Valid() && fresh(datasets)
      ensures built == ds && selectedData == InitialSelection
      ensures datasets[..] == Recoloured(ds, InitialSelection)
    {
      built := ds;
      datasets := new ChartDataset[|ds|](i requires 0 <= i < |ds| => ds[i]);
      selectedData := InitialSelection;
      new;
      assert datasets[..] == ds;
      ApplySelection();
    }

    /** The effect: rewrite every dataset's colours for the current selection. */
    method ApplySelection()
      modifies datasets
      ensures datasets[..] == Recoloured(old(datasets[..]), selectedData)
    {
      var i := 0;
      while i < datasets.Length
        invariant 0 <= i <= datasets.Length
        invariant forall k :: 0 <= k < i ==> datasets[k] == Recolour(old(datasets[k]), selectedData)
        invariant forall k :: i <= k < datasets.Length ==> datasets[k] == old(datasets[k])
      {
        var d := datasets[i];
        var faded := d.name != selectedData;
        var color := BaseColour(d.name) + (if faded then FadedSuffix else "");
        datasets[i] := d.(backgroundColor := color, borderColor := color);
        assert datasets[i] == Recolour(d, selectedData);
        i := i + 1;
      }
    }

    /**
     * Hovering a legend item selects its text. Setting the state to the value
     * it already has does not re-run the effect.
     */
    method OnHover(text: string)
      requires Valid()
      modifies this, datasets
      ensures Valid()
      ensures selectedData == text
      ensures datasets[..] == Recoloured(built, text)
    {
      if text != selectedData {
        selectedData := text;
        ApplySelection();
        RecolouredTwice(built, old(selectedData), text);
      }
    }

    /** Clicking a legend item does nothing (the default toggle is switched off). */
    method OnClick(text: string)
      requires Valid()
      ensures Valid()
      ensures selectedData == old(selectedData) && datasets[..] == old(datasets[..])
    {
    }
  }
}
