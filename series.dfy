/**
 * The series transformer: the imported wastewater JSON becomes the chart's
 * `labels` (the test dates) and `datasets` (one styled record per watershed
 * series).
 *
 * The JSON's top level is an object whose keys iterate in insertion order; it
 * is modelled as a sequence of entries in that order. Each entry's value is an
 * index-keyed object (see ObjectOrder): the reserved entry `test_date` holds
 * date strings, every other entry holds readings that are a number or null.
 */
module Series {
  import opened Wrappers
  import opened ObjectOrder
  import opened Watersheds

  /** The reserved key of the entry holding the dates. */
  const TestDateKey: string := "test_date"

  /** A JSON `number | null` reading of one period. */
  type Reading = Option<real>

  datatype Column =
    | Dates(dates: map<nat, string>)
    | Readings(values: map<nat, Reading>)

  /** One top-level property of the JSON object. */
  datatype Entry = Entry(key: string, column: Column)

  /** The JSON object's properties in insertion order. */
  type RawDataset = seq<Entry>

  /** One Chart.js dataset record; `name` is its `label` property, shown in the legend. */
  datatype ChartDataset = ChartDataset(
    name: string,
    borderColor: string,
    backgroundColor: string,
    pointStyle: bool,
    data: seq<Reading>)

  /** The `data` object handed to the chart. */
  datatype ChartData = ChartData(labels: seq<string>, datasets: seq<ChartDataset>)

  /** A JSON object never has two properties with one key. */
  predicate DistinctKeys(raw: RawDataset) {
    forall i, j :: 0 <= i < j < |raw| ==> raw[i].key != raw[j].key
  }

  /** The `test_date` property is present and holds dates. */
  predicate HasTestDates(raw: RawDataset) {
    && (exists i :: 0 <= i < |raw| && raw[i].key == TestDateKey)
    && (forall e :: e in raw && e.key == TestDateKey ==> e.column.Dates?)
  }

  /** Every other property is a series of readings whose key has a display label. */
  predicate SeriesKnown(raw: RawDataset) {
    forall e :: e in raw && e.key != TestDateKey ==> e.key in FriendlyLabels && e.column.Readings?
  }

  /** The shape of the imported JSON file. */
  predicate WellFormed(raw: RawDataset) {
    DistinctKeys(raw) && HasTestDates(raw) && SeriesKnown(raw)
  }

  /** `wastewaterData.test_date`: the value of the `test_date` property. */
  function TestDates(raw: RawDataset): (dates: map<nat, string>)
    requires DistinctKeys(raw) && HasTestDates(raw)
    ensures exists i :: 0 <= i < |raw| && raw[i].key == TestDateKey && raw[i].column == Dates(dates)
    ensures forall i :: 0 <= i < |raw| && raw[i].key == TestDateKey ==> raw[i].column == Dates(dates)
  {
    if raw[0].key == TestDateKey then raw[0].column.dates
    else
      var rest := raw[1..];
      assert DistinctKeys(rest) by {
        forall i, j | 0 <= i < j < |rest| ensures rest[i].key != rest[j].key {
          assert rest[i] == raw[i + 1] && rest[j] == raw[j + 1];
        }
      }
      assert HasTestDates(rest) by {
        var i :| 0 <= i < |raw| && raw[i].key == TestDateKey;
        assert rest[i - 1] == raw[i];
      }
      var dates := TestDates(rest);
      assert forall i :: 0 < i < |raw| ==> raw[i] == rest[i - 1];
      dates
  }

  /** `labels = Object.values(wastewaterData.test_date)`. */
  function Labels(raw: RawDataset): (labels: seq<string>)
    requires DistinctKeys(raw) && HasTestDates(raw)
    ensures forall i :: 0 <= i < |raw| && raw[i].key == TestDateKey ==> (raw[i].column.Dates?
      && var dates := raw[i].column.dates;
      && |labels| == |dates.Keys|
      && forall j :: 0 <= j < |labels| ==> SortedKeys(dates.Keys)[j] in dates && labels[j] == dates[SortedKeys(dates.Keys)[j]])
  {
    ObjectValues(TestDates(raw))
  }

  /** `Object.entries(wastewaterData).filter(([k]) => k !== "test_date")`. */
  function SeriesEntries(raw: RawDataset): (r: seq<Entry>)
    ensures |r| <= |raw|
    ensures forall e :: e in r <==> e in raw && e.key != TestDateKey
  {
    if raw == [] then []
    else if raw[0].key == TestDateKey then SeriesEntries(raw[1..])
    else [raw[0]] + SeriesEntries(raw[1..])
  }

  /** The record built by the `map` callback for one series property. */
  function BuildDataset(e: Entry): (d: ChartDataset)
    requires e.key in FriendlyLabels && e.column.Readings?
    ensures d.name == FriendlyLabels[e.key] && d.name in ColorsMap
    ensures d.borderColor == d.backgroundColor == ColorsMap[d.name] && !d.pointStyle
    ensures InIndexOrder(d.data, e.column.values)
  {
    LabelsHaveColours();
    var name := FriendlyLabels[e.key];
    var color := ColorsMap[name];
    ChartDataset(name, color, color, false, ObjectValues(e.column.values))
  }

  /** `datasets`: the filter followed by the `map` callback. */
  function Datasets(raw: RawDataset): (ds: seq<ChartDataset>)
    requires SeriesKnown(raw)
    ensures |ds| == |SeriesEntries(raw)|
  {
    var entries := SeriesEntries(raw);
    seq(|entries|, i requires 0 <= i < |entries| => BuildDataset(entries[i]))
  }

  /** The chart's `data` object. */
  function Chart(raw: RawDataset): (c: ChartData)
    requires WellFormed(raw)
    ensures |c.labels| == |TestDates(raw).Keys|
    ensures InIndexOrder(c.labels, TestDates(raw))
    ensures |c.datasets| == |SeriesEntries(raw)|
    ensures forall i :: 0 <= i < |c.datasets| ==> c.datasets[i] == BuildDataset(SeriesEntries(raw)[i])
  {
    ChartData(Labels(raw), Datasets(raw))
  }

  // Properties of the transformer

  /**
   * Record i comes from the i-th kept property: its label is that key's
   * display label, border and background are both the label's colour, it
   * draws no points, and its data is the property's values in index order.
   */
  lemma DatasetRecords(raw: RawDataset)
    requires SeriesKnown(raw)
    ensures forall i :: 0 <= i < |Datasets(raw)| ==>
      var e := SeriesEntries(raw)[i];
      var d := Datasets(raw)[i];
      && e in raw && e.key != TestDateKey
      && d.name == FriendlyLabels[e.key]
      && d.borderColor == d.backgroundColor == ColorsMap[d.name]
      && !d.pointStyle
      && d.data == ObjectValues(e.column.values)
  {
    LabelsHaveColours();
  }

  /** Filtering keeps the properties' order: it distributes over concatenation. */
  lemma {:induction false} SeriesEntriesAppend(a: RawDataset, b: RawDataset)
    ensures SeriesEntries(a + b) == SeriesEntries(a) + SeriesEntries(b)
    decreases |a|
  {
    if a == [] {
      assert a + b == b;
    } else {
      assert (a + b)[0] == a[0] && (a + b)[1..] == a[1..] + b;
      SeriesEntriesAppend(a[1..], b);
    }
  }

  /** The records appear in the order of their properties. */
  lemma {:induction false} DatasetsAppend(a: RawDataset, b: RawDataset)
    requires SeriesKnown(a) && SeriesKnown(b)
    ensures SeriesKnown(a + b)
    ensures Datasets(a + b) == Datasets(a) + Datasets(b)
  {
    forall e | e in a + b ensures e in a || e in b {
    }
    SeriesEntriesAppend(a, b);
    var sa, sb := SeriesEntries(a), SeriesEntries(b);
    var lhs, rhs := Datasets(a + b), Datasets(a) + Datasets(b);
    assert |lhs| == |rhs|;
    forall i | 0 <= i < |lhs| ensures lhs[i] == rhs[i] {
      if i < |sa| {
        assert lhs[i] == BuildDataset(sa[i]) == rhs[i];
      } else {
        assert lhs[i] == BuildDataset(sb[i - |sa|]) == rhs[i];
      }
    }
  }

  /** A single property yields no record when it is `test_date` and one record otherwise. */
  lemma DatasetsOfOne(e: Entry)
    requires SeriesKnown([e])
    ensures Datasets([e]) == if e.key == TestDateKey then [] else [BuildDataset(e)]
  {
    assert [e][1..] == [];
  }

  /**
   * There is one record per property other than `test_date`: with `test_date`
   * present, one fewer record than properties.
   */
  lemma {:induction false} SeriesCount(raw: RawDataset)
    requires DistinctKeys(raw)
    ensures |SeriesEntries(raw)| ==
      if exists i :: 0 <= i < |raw| && raw[i].key == TestDateKey then |raw| - 1 else |raw|
  {
    if raw != [] {
      var rest := raw[1..];
      assert DistinctKeys(rest) by {
        forall i, j | 0 <= i < j < |rest| ensures rest[i].key != rest[j].key {
          assert rest[i] == raw[i + 1] && rest[j] == raw[j + 1];
        }
      }
      SeriesCount(rest);
      var inRest := exists i :: 0 <= i < |rest| && rest[i].key == TestDateKey;
      if inRest {
        var i :| 0 <= i < |rest| && rest[i].key == TestDateKey;
        assert raw[i + 1] == rest[i];
        assert raw[0].key != TestDateKey;
      }
      if exists i :: 0 <= i < |raw| && raw[i].key == TestDateKey {
        var i :| 0 <= i < |raw| && raw[i].key == TestDateKey;
        assert i > 0 ==> rest[i - 1] == raw[i];
      }
    }
  }

  /** Filtering keeps the keys distinct. */
  lemma {:induction false} SeriesEntriesDistinct(raw: RawDataset)
    requires DistinctKeys(raw)
    ensures DistinctKeys(SeriesEntries(raw))
  {
    if raw != [] {
      var rest := raw[1..];
      assert DistinctKeys(rest) by {
        forall i, j | 0 <= i < j < |rest| ensures rest[i].key != rest[j].key {
          assert rest[i] == raw[i + 1] && rest[j] == raw[j + 1];
        }
      }
      SeriesEntriesDistinct(rest);
      if raw[0].key != TestDateKey {
        var r := SeriesEntries(rest);
        forall j | 0 <= j < |r| ensures raw[0].key != r[j].key {
          assert r[j] in rest;
          var k :| 0 <= k < |rest| && rest[k] == r[j];
          assert raw[k + 1] == rest[k];
        }
        assert SeriesEntries(raw) == [raw[0]] + r;
      }
    }
  }

  /** No two records share a legend label. */
  lemma DatasetNamesDistinct(raw: RawDataset)
    requires DistinctKeys(raw) && SeriesKnown(raw)
    ensures forall i, j :: 0 <= i < j < |Datasets(raw)| ==> Datasets(raw)[i].name != Datasets(raw)[j].name
  {
    SeriesEntriesDistinct(raw);
    FriendlyLabelsInjective();
    DatasetRecords(raw);
  }

  /** Every property other than `test_date` is charted, under its display label. */
  lemma EverySeriesCharted(raw: RawDataset, e: Entry)
    requires SeriesKnown(raw)
    requires e in raw && e.key != TestDateKey
    ensures exists i :: (0 <= i < |Datasets(raw)| && Datasets(raw)[i].name == FriendlyLabels[e.key]
      && Datasets(raw)[i].data == ObjectValues(e.column.values))
  {
    DatasetRecords(raw);
    var entries := SeriesEntries(raw);
    assert e in entries;
    var i :| 0 <= i < |entries| && entries[i] == e;
    assert Datasets(raw)[i].name == FriendlyLabels[e.key];
  }

  /**
   * A series over the same indices as `test_date` has as many points as there
   * are labels, and its j-th point is the reading of the period whose date is
   * the j-th label.
   */
  lemma DataAlignedWithLabels(raw: RawDataset, i: nat, j: nat)
    requires WellFormed(raw)
    requires i < |Datasets(raw)|
    requires SeriesEntries(raw)[i].column.values.Keys == TestDates(raw).Keys
    ensures |Datasets(raw)[i].data| == |Labels(raw)|
    ensures j < |Labels(raw)| ==> exists idx ::
      && idx in TestDates(raw) && idx in SeriesEntries(raw)[i].column.values
      && Labels(raw)[j] == TestDates(raw)[idx]
      && Datasets(raw)[i].data[j] == SeriesEntries(raw)[i].column.values[idx]
  {
    DatasetRecords(raw);
    var values := SeriesEntries(raw)[i].column.values;
    if j < |Labels(raw)| {
      ObjectValuesAligned(TestDates(raw), values, j);
    }
  }

  /**
   * The listed readings of one series keep its nulls: point j is null exactly
   * when the reading of the j-th smallest index is, each null reading occurs
   * among the points, and every point is one of the readings.
   */
  lemma ReadingsListed(values: map<nat, Reading>, data: seq<Reading>)
    requires InIndexOrder(data, values)
    ensures |data| == |values.Keys|
    ensures forall idx :: idx in values && values[idx] == None ==> None in data
    ensures forall p :: p in data ==> p in values.Values
    ensures forall j :: 0 <= j < |data| ==> (data[j] == None <==> values[SortedKeys(values.Keys)[j]] == None)
  {
    var keys := SortedKeys(values.Keys);
    forall idx | idx in values && values[idx] == None ensures None in data {
      assert idx in keys;
      var j :| 0 <= j < |keys| && keys[j] == idx;
      assert data[j] == None;
    }
    forall p | p in data ensures p in values.Values {
      var j :| 0 <= j < |data| && data[j] == p;
      assert keys[j] in values;
    }
  }

  /**
   * A null reading is kept as a null point at its period, not dropped or
   * zeroed, and every point is the reading of some period.
   */
  lemma NullsPreserved(raw: RawDataset, i: nat)
    requires SeriesKnown(raw)
    requires i < |Datasets(raw)|
    ensures var values := SeriesEntries(raw)[i].column.values;
      && |Datasets(raw)[i].data| == |values.Keys|
      && (forall idx :: idx in values && values[idx] == None ==> None in Datasets(raw)[i].data)
      && (forall p :: p in Datasets(raw)[i].data ==> p in values.Values)
      && (forall j :: 0 <= j < |Datasets(raw)[i].data| ==>
            (Datasets(raw)[i].data[j] == None <==> values[SortedKeys(values.Keys)[j]] == None))
  {
    DatasetRecords(raw);
    var values := SeriesEntries(raw)[i].column.values;
    assert Datasets(raw)[i].data == ObjectValues(values);
    ReadingsListed(values, Datasets(raw)[i].data);
  }
}
