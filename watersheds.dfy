/**
 * The two fixed tables of the dashboard: raw series key to display label
 * (`friendlyLabels`) and display label to hex colour (`colorsMap`).
 */
module Watersheds {

  /** Raw dataset key to the label shown in the chart legend. */
  const FriendlyLabels: map<string, string> := map[
    "NYC_percentile" := "All Watersheds",
    "Richmond_w_percentile" := "Richmond",
    "Queens_w_percentile" := "Queens",
    "Kings_w_percentile" := "Kings",
    "Bronx_w_percentile" := "Bronx",
    "New York_w_percentile" := "New York"
  ]

  /** Display label to the series' base colour. */
  const ColorsMap: map<string, string> := map[
    "All Watersheds" := "#20104d",
    "Richmond" := "#70ff50",
    "Queens" := "#507fff",
    "Kings" := "#ff5050",
    "Bronx" := "#bc50ff",
    "New York" := "#fff950"
  ]

  /** The label selected when the chart is first shown: the aggregate series. */
  const InitialSelection: string := "All Watersheds"

  /** No two raw keys share a display label. */
  lemma FriendlyLabelsInjective()
    ensures forall k1, k2 :: k1 in FriendlyLabels && k2 in FriendlyLabels && k1 != k2 ==>
      FriendlyLabels[k1] != FriendlyLabels[k2]
  {
  }

  /** Every display label has a colour, and the colour table has no other labels. */
  lemma LabelsHaveColours()
    ensures forall k :: k in FriendlyLabels ==> FriendlyLabels[k] in ColorsMap
    ensures ColorsMap.Keys == FriendlyLabels.Values
  {
    forall k | k in FriendlyLabels.Keys ensures FriendlyLabels[k] in FriendlyLabels.Values {
    }
    assert FriendlyLabels["NYC_percentile"] == "All Watersheds";
    assert FriendlyLabels["Richmond_w_percentile"] == "Richmond";
    assert FriendlyLabels["Queens_w_percentile"] == "Queens";
    assert FriendlyLabels["Kings_w_percentile"] == "Kings";
    assert FriendlyLabels["Bronx_w_percentile"] == "Bronx";
    assert FriendlyLabels["New York_w_percentile"] == "New York";
  }

  /** A CSS colour `#rrggbb`: a hash sign followed by six lower-case hex digits. */
  predicate HexColour(c: string) {
    && |c| == 7 && c[0] == '#'
    && forall i :: 1 <= i < 7 ==> c[i] in "0123456789abcdef"
  }

  /** Every colour of the table is a `#rrggbb` colour. */
  lemma ColoursAreHex()
    ensures forall l :: l in ColorsMap ==> HexColour(ColorsMap[l])
  {
    assert HexColour("#20104d") && HexColour("#70ff50") && HexColour("#507fff");
    assert HexColour("#ff5050") && HexColour("#bc50ff") && HexColour("#fff950");
  }

  /** No two display labels share a colour, so the legend tells the series apart. */
  lemma ColoursDistinct()
    ensures forall l1, l2 :: l1 in ColorsMap && l2 in ColorsMap && l1 != l2 ==>
      ColorsMap[l1] != ColorsMap[l2]
  {
  }

  /** The initial selection is the label of the aggregate `NYC_percentile` series. */
  lemma InitialSelectionIsAggregate()
    ensures "NYC_percentile" in FriendlyLabels && FriendlyLabels["NYC_percentile"] == InitialSelection
  {
  }
}
