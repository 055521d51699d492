/**
 * The columnar dataset: one array of float columns, one array of string
 * columns, a map from metric name to its descriptor, and the record count.
 *
 * Go's Dataset is used both through a pointer (AddMetric updates it in place)
 * and by value (Correlation and the insights work on a copy). The class
 * `Dataset` is the former; `DatasetValue` is the copy.
 */
module Datasets {
  import opened Wrappers
  import opened DataTypes
  import opened Errors

  /**
   * The untyped `data` argument of AddMetric: a []float64, a []string, or a
   * value of any other dynamic type.
   */
  datatype ColumnData = FloatData(floats: seq<real>) | StringData(strings: seq<string>) | OtherData

  /**
   * What the weighted-correlation library routine does on given inputs:
   * returns a coefficient or faults (a Go panic). The routine itself is not
   * part of this model; every operation that needs it takes it as a parameter.
   */
  datatype PrimitiveOutcome = Coefficient(value: real) | Fault

  type Primitive = (seq<real>, seq<real>, seq<real>) -> PrimitiveOutcome

  /** The (float64, error) pair returned by Correlation. */
  datatype CorrelationResult = CorrelationResult(coefficient: real, err: Option<Error>)

  /** What AddMetric does to a dataset: the new dataset, or the error it returns. */
  datatype AddResult = Added(after: DatasetValue) | Rejected(error: Error)

  /** The data type tags AddMetric accepts. */
  predicate Supported(dataType: string) {
    dataType == Float || dataType == String
  }

  /** True when `data` has the dynamic type the tag asks for. */
  predicate KindMatches(dataType: string, data: ColumnData) {
    (dataType == Float && data.FloatData?) || (dataType == String && data.StringData?)
  }

  /** The number of records in `data`, for the data kinds AddMetric stores. */
  function DataLength(data: ColumnData): nat
    requires !data.OtherData?
  {
    match data
    case FloatData(fs) => |fs|
    case StringData(ss) => |ss|
  }

  datatype DatasetValue = DatasetValue(
    dataF: seq<seq<real>>,
    dataS: seq<seq<string>>,
    metrics: map<string, Metric>,
    length: int)
  {
    /**
     * The dataset invariant kept by NewDataset and AddMetric: no column
     * before the first metric, every column holds `length` records, and every
     * registered metric is stored under its own name with a supported type
     * and an index into the array for that type.
     */
    predicate Valid() {
      && length >= 0
      && (metrics == map[] ==> dataF == [] && dataS == [])
      && (forall i :: 0 <= i < |dataF| ==> |dataF[i]| == length)
      && (forall i :: 0 <= i < |dataS| ==> |dataS[i]| == length)
      && (forall k :: k in metrics ==> Registered(k, metrics[k]))
    }

    predicate Registered(name: string, m: Metric) {
      && m.name == name
      && ((m.dataType == Float && 0 <= m.index < |dataF|)
          || (m.dataType == String && 0 <= m.index < |dataS|))
    }

    /**
     * AddMetric as a function of the dataset: the type tag selects the
     * expected data kind, the record count is checked once a metric exists,
     * then the column is appended, the stored metric gets the new column's
     * index, and the record count is fixed when the map holds one entry.
     */
    function AddMetric(m: Metric, data: ColumnData): (r: AddResult)
      ensures r.Added? <==> Supported(m.dataType) && KindMatches(m.dataType, data)
                            && (|metrics| == 0 || length == DataLength(data))
      ensures r.Rejected? ==> r.error.code in {ErrCDataTypeMismatch, ErrCUnsupportedDataType, ErrCMetricSizeMismatch}
    {
      if m.dataType == Float then
        if !data.FloatData? then
          Rejected(Error(ErrMDAddMetricFloatMismatch, ErrCDataTypeMismatch))
        else if |metrics| != 0 && length != |data.floats| then
          Rejected(Error(ErrMMetricsDatasizeIncorrect, ErrCMetricSizeMismatch))
        else
          var metrics' := metrics[m.name := m.(index := |dataF|)];
          Added(DatasetValue(dataF + [data.floats], dataS, metrics',
                             if |metrics'| == 1 then |data.floats| else length))
      else if m.dataType == String then
        if !data.StringData? then
          Rejected(Error(ErrMDAddMetricStringMismatch, ErrCDataTypeMismatch))
        else if |metrics| != 0 && length != |data.strings| then
          Rejected(Error(ErrMMetricsDatasizeIncorrect, ErrCMetricSizeMismatch))
        else
          var metrics' := metrics[m.name := m.(index := |dataS|)];
          Added(DatasetValue(dataF, dataS + [data.strings], metrics',
                             if |metrics'| == 1 then |data.strings| else length))
      else
        Rejected(Error(ErrMDAddMetricUnsupportedType + m.dataType, ErrCUnsupportedDataType))
    }

    /**
     * The correlation of two registered Float variables. Lookup failures and
     * type errors return 0 with a typed error. A fault while reading a column
     * (an index out of range) or inside the primitive is recovered and yields
     * (0, no error), because the Go function's results are unnamed.
     */
    function Correlation(var1: string, var2: string, weights: seq<real>, correlate: Primitive): (r: CorrelationResult)
      ensures r.err.Some? ==> r.coefficient == 0.0
      ensures r.err.None? <==> (var1 in metrics && var2 in metrics
                                && metrics[var1].dataType == Float && metrics[var2].dataType == Float)
      ensures (r.err.Some? && r.err.value.code == ErrCGeneric) <==> (var1 !in metrics || var2 !in metrics)
      ensures (r.err.Some? && r.err.value.code == ErrCDataTypeMismatch)
              <==> (var1 in metrics && var2 in metrics && metrics[var1].dataType != metrics[var2].dataType)
      ensures (r.err.Some? && r.err.value.code == ErrCUnsupportedDataType)
              <==> (var1 in metrics && var2 in metrics && metrics[var1].dataType == metrics[var2].dataType
                    && metrics[var1].dataType != Float)
    {
      if var1 !in metrics || var2 !in metrics then
        CorrelationResult(0.0, Some(Error(ErrMDCorrelationNoVaraible, ErrCGeneric)))
      else
        var m1, m2 := metrics[var1], metrics[var2];
        if m1.dataType != m2.dataType then
          CorrelationResult(0.0, Some(Error(ErrMDCorrelationDatatypeMismatch + m1.name + "(" + m1.dataType
                                            + ") and " + m2.name + "(" + m2.dataType + ")", ErrCDataTypeMismatch)))
        else if m1.dataType != Float then
          CorrelationResult(0.0, Some(Error(ErrMDCorrelationNonFloat + m1.dataType, ErrCUnsupportedDataType)))
        else if !(0 <= m1.index < |dataF|) || !(0 <= m2.index < |dataF|) then
          CorrelationResult(0.0, None)
        else
          match correlate(dataF[m1.index], dataF[m2.index], weights)
          case Coefficient(c) => CorrelationResult(c, None)
          case Fault => CorrelationResult(0.0, None)
    }
  }

  /** NewDataset: empty column arrays, an empty map and no records. */
  function NewDataset(): (d: DatasetValue)
    ensures d.Valid() && d.metrics == map[] && d.dataF == [] && d.dataS == []
  {
    DatasetValue([], [], map[], 0)
  }

  /** The dataset as Go code holds it through a pointer. */
  class Dataset {
    var dataF: seq<seq<real>>
    var dataS: seq<seq<string>>
    var metrics: map<string, Metric>
    var length: int

    /** The value a copy of this dataset would hold. */
    function Value(): DatasetValue
      reads this
    {
      DatasetValue(dataF, dataS, metrics, length)
    }

    /** NewDataset. */
    constructor ()
      ensures Value() == NewDataset()
    {
      dataF, dataS, metrics, length := [], [], map[], 0;
    }

    /**
     * Registers a metric with its column. On an error nothing changes;
     * otherwise the dataset becomes what DatasetValue.AddMetric describes.
     */
    method AddMetric(m: Metric, data: ColumnData) returns (err: Option<Error>)
      modifies this
      ensures old(Value()).AddMetric(m, data).Rejected? ==>
                err == Some(old(Value()).AddMetric(m, data).error) && Value() == old(Value())
      ensures old(Value()).AddMetric(m, data).Added? ==>
                err == None && Value() == old(Value()).AddMetric(m, data).after
    {
      if m.dataType == Float {
        if !data.FloatData? {
          return Some(Error(ErrMDAddMetricFloatMismatch, ErrCDataTypeMismatch));
        }
        var df := data.floats;
        if |metrics| != 0 && length != |df| {
          return Some(Error(ErrMMetricsDatasizeIncorrect, ErrCMetricSizeMismatch));
        }
        dataF := dataF + [df];
        var stored := m.(index := |dataF| - 1);
        metrics := metrics[m.name := stored];
        if |metrics| == 1 {
          length := |df|;
        }
      } else if m.dataType == String {
        if !data.StringData? {
          return Some(Error(ErrMDAddMetricStringMismatch, ErrCDataTypeMismatch));
        }
        var ds := data.strings;
        if |metrics| != 0 && length != |ds| {
          return Some(Error(ErrMMetricsDatasizeIncorrect, ErrCMetricSizeMismatch));
        }
        dataS := dataS + [ds];
        var stored := m.(index := |dataS| - 1);
        metrics := metrics[m.name := stored];
        if |metrics| == 1 {
          length := |ds|;
        }
      } else {
        return Some(Error(ErrMDAddMetricUnsupportedType + m.dataType, ErrCUnsupportedDataType));
      }
      return None;
    }
  }

  // ---------------------------------------------------------------------
  // AddMetric

  /** Data of the wrong dynamic type is refused with code 1 and the tag's message. */
  lemma AddMetricRejectsWrongKind(d: DatasetValue, m: Metric, data: ColumnData)
    requires Supported(m.dataType) && !KindMatches(m.dataType, data)
    ensures d.AddMetric(m, data)
            == Rejected(Error(if m.dataType == Float then ErrMDAddMetricFloatMismatch
                              else ErrMDAddMetricStringMismatch, ErrCDataTypeMismatch))
  {
  }

  /** A tag other than Float and String is refused with code 2, naming the tag. */
  lemma AddMetricRejectsUnsupported(d: DatasetValue, m: Metric, data: ColumnData)
    requires !Supported(m.dataType)
    ensures d.AddMetric(m, data)
            == Rejected(Error("Unsupported datatype. Got " + m.dataType, ErrCUnsupportedDataType))
  {
  }

  /** Once a metric exists, data of another length is refused with code 3. */
  lemma AddMetricRejectsSize(d: DatasetValue, m: Metric, data: ColumnData)
    requires KindMatches(m.dataType, data) && d.metrics != map[] && d.length != DataLength(data)
    ensures d.AddMetric(m, data) == Rejected(Error(ErrMMetricsDatasizeIncorrect, ErrCMetricSizeMismatch))
  {
  }

  /**
   * A successful insert appends the column to the array for its type and
   * leaves the other array alone, stores the metric under its name with the
   * index of the new column, and sets the record count to the data's length
   * exactly when the map then holds one entry.
   */
  lemma AddMetricStores(d: DatasetValue, m: Metric, data: ColumnData)
    requires d.AddMetric(m, data).Added?
    ensures var a := d.AddMetric(m, data).after;
      && (data.FloatData? ==> a.dataF == d.dataF + [data.floats] && a.dataS == d.dataS
                              && a.metrics[m.name].index == |d.dataF|)
      && (data.StringData? ==> a.dataS == d.dataS + [data.strings] && a.dataF == d.dataF
                               && a.metrics[m.name].index == |d.dataS|)
      && a.metrics == d.metrics[m.name := m.(index := a.metrics[m.name].index)]
      && a.length == (if |a.metrics| == 1 then DataLength(data) else d.length)
  {
  }

  /** AddMetric keeps the dataset invariant. */
  lemma AddMetricPreservesValid(d: DatasetValue, m: Metric, data: ColumnData)
    requires d.Valid() && d.AddMetric(m, data).Added?
    ensures d.AddMetric(m, data).after.Valid()
  {
    var a := d.AddMetric(m, data).after;
    var n := DataLength(data);
    if d.metrics == map[] {
      assert |a.metrics| == 1;
      assert a.length == n;
    } else {
      assert d.length == n;
    }
    forall k | k in a.metrics
      ensures a.Registered(k, a.metrics[k])
    {
      if k != m.name {
        assert d.Registered(k, d.metrics[k]);
      }
    }
  }

  /**
   * Once a metric is registered, the record count never changes again, so
   * every later column has the same length as the first.
   */
  lemma AddMetricKeepsLength(d: DatasetValue, m: Metric, data: ColumnData)
    requires d.metrics != map[] && d.AddMetric(m, data).Added?
    ensures d.AddMetric(m, data).after.length == d.length
  {
  }

  // ---------------------------------------------------------------------
  // Correlation

  /** The exact messages of the three refusals. */
  lemma CorrelationMessages(d: DatasetValue, var1: string, var2: string, w: seq<real>, correlate: Primitive)
    ensures var r := d.Correlation(var1, var2, w, correlate);
      && (var1 !in d.metrics || var2 !in d.metrics ==>
            r.err == Some(Error("Variables doesn't exist in the dataset", ErrCGeneric)))
      && (var1 in d.metrics && var2 in d.metrics && d.metrics[var1].dataType != d.metrics[var2].dataType ==>
            var m1, m2 := d.metrics[var1], d.metrics[var2];
            r.err == Some(Error("Datatype mismatch Got " + m1.name + "(" + m1.dataType + ") and "
                                + m2.name + "(" + m2.dataType + ")", ErrCDataTypeMismatch)))
      && (var1 in d.metrics && var2 in d.metrics && d.metrics[var1].dataType == d.metrics[var2].dataType
          && d.metrics[var1].dataType != Float ==>
            r.err == Some(Error("Only float64 datatype supported. Got" + d.metrics[var1].dataType,
                                ErrCUnsupportedDataType)))
  {
    assert ErrMDCorrelationNonFloat == "Only float64 datatype supported. Got";
  }

  /**
   * When every check passes, the result is the primitive's coefficient on
   * the two columns the map's metrics index, with no error; a fault, in the
   * primitive or in reading a column, gives 0 and no error.
   */
  lemma CorrelationDelegates(d: DatasetValue, var1: string, var2: string, w: seq<real>, correlate: Primitive)
    requires var1 in d.metrics && var2 in d.metrics
    requires d.metrics[var1].dataType == Float && d.metrics[var2].dataType == Float
    ensures var r := d.Correlation(var1, var2, w, correlate);
      var i1, i2 := d.metrics[var1].index, d.metrics[var2].index;
      if 0 <= i1 < |d.dataF| && 0 <= i2 < |d.dataF| && correlate(d.dataF[i1], d.dataF[i2], w).Coefficient? then
        r == CorrelationResult(correlate(d.dataF[i1], d.dataF[i2], w).value, None)
      else
        r == CorrelationResult(0.0, None)
  {
  }

  /**
   * On a valid dataset the two columns of registered Float metrics exist and
   * hold `length` records each, so with `length` weights the primitive is
   * given inputs of one common length: a fault cannot come from reading a
   * column.
   */
  lemma ValidCorrelationInputs(d: DatasetValue, var1: string, var2: string)
    requires d.Valid()
    requires var1 in d.metrics && var2 in d.metrics
    requires d.metrics[var1].dataType == Float && d.metrics[var2].dataType == Float
    ensures 0 <= d.metrics[var1].index < |d.dataF| && 0 <= d.metrics[var2].index < |d.dataF|
    ensures |d.dataF[d.metrics[var1].index]| == |d.dataF[d.metrics[var2].index]| == d.length
  {
    assert d.Registered(var1, d.metrics[var1]);
    assert d.Registered(var2, d.metrics[var2]);
  }

  // ---------------------------------------------------------------------
  // The cases of insights/dataset_test.go

  /** AddMetric on the seven cases of the Go test table. */
  lemma AddMetricTestCases()
    ensures NewDataset().AddMetric(Metric("Cars", 0, Float, ""), FloatData([0.0])).Added?
    ensures NewDataset().AddMetric(Metric("Cars", 0, String, ""), StringData(["Tesla"])).Added?
    ensures NewDataset().AddMetric(Metric("Cars", 0, Float, ""), OtherData)
            == Rejected(Error(ErrMDAddMetricFloatMismatch, ErrCDataTypeMismatch))
    ensures NewDataset().AddMetric(Metric("Cars", 0, String, ""), OtherData)
            == Rejected(Error(ErrMDAddMetricStringMismatch, ErrCDataTypeMismatch))
    ensures NewDataset().AddMetric(Metric("Cars", 0, "notfloat", ""), OtherData)
            == Rejected(Error("Unsupported datatype. Got notfloat", ErrCUnsupportedDataType))
    ensures var d := DatasetValue([], [], map["Company" := Metric("Company", 0, "", "")], 2);
      && d.AddMetric(Metric("Cars", 0, String, ""), StringData(["CX100"]))
         == Rejected(Error(ErrMMetricsDatasizeIncorrect, ErrCMetricSizeMismatch))
      && d.AddMetric(Metric("Cars", 0, Float, ""), FloatData([1.1]))
         == Rejected(Error(ErrMMetricsDatasizeIncorrect, ErrCMetricSizeMismatch))
  {
  }

  /** The datasets the Correlation test table builds, step by step. */
  function AgeFloat(): (d: DatasetValue)
    ensures d == DatasetValue([[10.0, 20.0, 30.0]], [], map["age" := Metric("age", 0, Float, "")], 3)
  {
    NewDataset().AddMetric(Metric("age", 0, Float, ""), FloatData([10.0, 20.0, 30.0])).after
  }

  function CorrelationTableDataset(heightType: string, heights: ColumnData): (d: DatasetValue)
    requires (heightType == Float && heights == FloatData([140.0, 178.0, 190.0]))
          || (heightType == String && heights == StringData(["140", "178", "190"]))
    ensures d.metrics == map["age" := Metric("age", 0, Float, ""),
                             "height" := Metric("height", if heightType == Float then 1 else 0, heightType, "")]
    ensures d.dataF == if heightType == Float then [[10.0, 20.0, 30.0], [140.0, 178.0, 190.0]] else [[10.0, 20.0, 30.0]]
  {
    var r := AgeFloat().AddMetric(Metric("height", 0, heightType, ""), heights);
    assert r.Added?;
    r.after
  }

  /** Two registered Float columns: the primitive's coefficient is returned as is. */
  lemma CorrelationTestFloat(correlate: Primitive)
    ensures var r := CorrelationTableDataset(Float, FloatData([140.0, 178.0, 190.0])).Correlation("age", "height", [1.0, 1.0, 1.0], correlate);
      && r.err == None
      && r.coefficient == match correlate([10.0, 20.0, 30.0], [140.0, 178.0, 190.0], [1.0, 1.0, 1.0])
                          case Coefficient(c) => c
                          case Fault => 0.0
  {
  }

  /** Only "age" registered: the lookup of "height" fails with the generic code. */
  lemma CorrelationTestMissing(correlate: Primitive)
    ensures AgeFloat().Correlation("age", "height", [1.0, 1.0, 1.0], correlate)
            == CorrelationResult(0.0, Some(Error("Variables doesn't exist in the dataset", ErrCGeneric)))
  {
  }

  /** A Float and a String variable: a mismatch naming both. */
  lemma CorrelationTestMismatch(correlate: Primitive)
    ensures CorrelationTableDataset(String, StringData(["140", "178", "190"])).Correlation("age", "height", [1.0, 1.0, 1.0], correlate)
            == CorrelationResult(0.0, Some(Error("Datatype mismatch Got age(float64) and height(string)",
                                                 ErrCDataTypeMismatch)))
  {
    assert ErrMDCorrelationDatatypeMismatch + "age" + "(" + Float + ") and " + "height" + "(" + String + ")"
           == "Datatype mismatch Got age(float64) and height(string)";
  }

  /** Two String variables: unsupported, with the type glued to the message. */
  lemma CorrelationTestStrings(correlate: Primitive)
    ensures var d := DatasetValue([], [["10", "20", "30"], ["140", "178", "190"]],
                                  map["age" := Metric("age", 0, String, ""), "height" := Metric("height", 1, String, "")], 3);
      d.Correlation("age", "height", [1.0, 1.0, 1.0], correlate)
      == CorrelationResult(0.0, Some(Error("Only float64 datatype supported. Gotstring", ErrCUnsupportedDataType)))
  {
    assert ErrMDCorrelationNonFloat == "Only float64 datatype supported. Got";
    assert ErrMDCorrelationNonFloat + String == "Only float64 datatype supported. Gotstring";
  }

  /**
   * The corrupt dataset of the test table: the map says "age" is column 2
   * of a one-column array. Reading it panics, and the recovered call returns
   * 0 with no error, whatever the primitive.
   */
  lemma CorrelationTestCorrupt(correlate: Primitive)
    ensures var d := DatasetValue([], [], map["age" := Metric("age", 2, Float, "")], 3)
                       .AddMetric(Metric("height", 0, Float, ""), FloatData([140.0, 178.0, 190.0])).after;
      d.Correlation("age", "height", [1.0, 1.0, 1.0], correlate) == CorrelationResult(0.0, None)
  {
  }
}
