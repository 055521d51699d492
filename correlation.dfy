/**
 * The correlation insight: a pair of Float metrics over a dataset, screened
 * by FSFA, computed by Generate (weighted correlation against a threshold,
 * then a scatter plot of the two columns), and proposed for every pair of
 * Float metrics of a dataset.
 */
module Correlations {
  import opened Wrappers
  import opened DataTypes
  import opened Datasets
  import V = Visualizations

  /** Type string of the correlation insight (declared in insights/insights.go). */
  const CORRELATION: string := "CORRELATION"

  /** Coefficients below this value make the insight irrelevant. */
  const Threshold: real := 0.7

  /**
   * The two library routines Generate relies on: the weighted correlation
   * and the decimal rendering of a float used in the description.
   */
  datatype Numerics = Numerics(correlate: Primitive, formatFloat: real -> string)

  /** The part of an insight that FSFA and Generate change. */
  datatype Status = Status(relevant: bool, visual: Option<V.ScatterPlot>)

  /** A candidate insight together with the metrics it is meant to use. */
  datatype ProposedInsight = ProposedInsight(I: Correlation, M: seq<Metric>)

  // ---------------------------------------------------------------------
  // FSFA and Generate as functions of the insight's state

  /** FSFA's verdict: exactly two metrics, both Float. */
  predicate Screened(ms: seq<Metric>) {
    |ms| == 2 && ms[0].dataType == Float && ms[1].dataType == Float
  }

  /**
   * Generate's bounds check as written: at least two metrics, and neither
   * index greater than the number of float columns. It lets through an index
   * equal to that number, and negative indices.
   */
  predicate GuardPasses(columns: nat, ms: seq<Metric>) {
    |ms| >= 2 && !(columns < ms[0].index) && !(columns < ms[1].index)
  }

  /** A weight vector of `n` ones. */
  function Ones(n: nat): (w: seq<real>)
    ensures |w| == n && forall i :: 0 <= i < n ==> w[i] == 1.0
  {
    seq(n, _ => 1.0)
  }

  /**
   * The dataset's answer to Generate's question: the correlation of the two
   * metrics' names, with equal weights sized to the first metric's column.
   */
  function Consulted(dt: DatasetValue, ms: seq<Metric>, num: Numerics): CorrelationResult
    requires |ms| >= 2 && 0 <= ms[0].index < |dt.dataF|
  {
    dt.Correlation(ms[0].name, ms[1].name, Ones(|dt.dataF[ms[0].index]|), num.correlate)
  }

  /** The acceptance rule: no error, and a signed coefficient of at least 0.7. */
  predicate Accepts(c: CorrelationResult) {
    c.err.None? && !(c.coefficient < Threshold)
  }

  /**
   * The inputs on which Generate runs to completion in Go instead of
   * panicking: past the guard, the first metric's column must exist, and on
   * acceptance the second metric's column must exist and be no longer than
   * the first (its values are written into rows sized by the first).
   */
  predicate GenerateDefined(dt: DatasetValue, ms: seq<Metric>, relevant: bool, num: Numerics) {
    relevant && GuardPasses(|dt.dataF|, ms) ==>
      && 0 <= ms[0].index < |dt.dataF|
      && (Accepts(Consulted(dt, ms, num)) ==>
            0 <= ms[1].index < |dt.dataF| && |dt.dataF[ms[1].index]| <= |dt.dataF[ms[0].index]|)
  }

  function Title(ms: seq<Metric>): string
    requires |ms| >= 2
  {
    ms[0].displayName + " and " + ms[1].displayName
  }

  function Description(coefficient: real, num: Numerics): string {
    "have a correlation of " + num.formatFloat(coefficient)
  }

  /** The metric roles: the first metric on dimension 0, the second on 1, both Float. */
  function Roles(ms: seq<Metric>): seq<V.Metric>
    requires |ms| >= 2
  {
    [V.Metric(ms[0].name, ms[0].displayName, Float, 0, "", ""),
     V.Metric(ms[1].name, ms[1].displayName, Float, 1, "", "")]
  }

  /** Row `i`: the first column's value, then the second's when it has one. */
  function Row(name0: string, col0: seq<real>, name1: string, col1: seq<real>, i: nat): V.Row
    requires i < |col0|
  {
    if i < |col1| then map[name0 := col0[i]][name1 := col1[i]] else map[name0 := col0[i]]
  }

  /** The row table: one row per value of the first column. */
  function Rows(name0: string, col0: seq<real>, name1: string, col1: seq<real>): seq<V.Row> {
    seq(|col0|, i requires 0 <= i < |col0| => Row(name0, col0, name1, col1, i))
  }

  /**
   * Generate's effect on the insight's state. Nothing happens to an
   * irrelevant insight; a failed bounds check, an error from the dataset or
   * a coefficient below the threshold make it irrelevant and keep its visual;
   * otherwise it becomes relevant with a fresh scatter plot.
   */
  function GenerateOutcome(dt: DatasetValue, ms: seq<Metric>, s: Status, num: Numerics): Status
    requires GenerateDefined(dt, ms, s.relevant, num)
  {
    if !s.relevant then s
    else if !GuardPasses(|dt.dataF|, ms) then Status(false, s.visual)
    else
      var c := Consulted(dt, ms, num);
      if !Accepts(c) then Status(false, s.visual)
      else
        Status(true, Some(V.ScatterPlot(Roles(ms), Title(ms), Description(c.coefficient, num),
                                        Rows(ms[0].name, dt.dataF[ms[0].index], ms[1].name, dt.dataF[ms[1].index]))))
  }

  // ---------------------------------------------------------------------
  // Proposals as a function of the dataset

  /** `order` lists every key of `metrics` exactly once (Go's map iteration). */
  predicate Enumerates(order: seq<string>, metrics: map<string, Metric>) {
    && (forall i, j :: 0 <= i < j < |order| ==> order[i] != order[j])
    && (forall k :: k in order ==> k in metrics)
    && (forall k :: k in metrics ==> k in order)
  }

  /** The Float metrics of `metrics`, in the order of `order`. */
  function FloatMetrics(metrics: map<string, Metric>, order: seq<string>): seq<Metric>
    requires forall k :: k in order ==> k in metrics
  {
    if order == [] then []
    else
      var v := metrics[order[|order| - 1]];
      FloatMetrics(metrics, order[..|order| - 1]) + (if v.dataType == Float then [v] else [])
  }

  /** The names of the Float metrics of a map. */
  function FloatNames(metrics: map<string, Metric>): set<string> {
    set k | k in metrics && metrics[k].dataType == Float
  }

  /** The pairs whose first element is at position `i`, in order of the second. */
  function PairsWith(s: seq<Metric>, i: nat): seq<seq<Metric>>
    requires i < |s|
  {
    seq(|s| - 1 - i, t requires 0 <= t < |s| - 1 - i => [s[i], s[i + 1 + t]])
  }

  /** The pairs whose first element is at a position below `i`. */
  function PairsBefore(s: seq<Metric>, i: nat): seq<seq<Metric>>
    requires i <= |s|
  {
    if i == 0 then [] else PairsBefore(s, i - 1) + PairsWith(s, i - 1)
  }

  /** Every pair of positions i < j of `s`, ordered by i and then j. */
  function Pairs(s: seq<Metric>): seq<seq<Metric>> {
    PairsBefore(s, |s|)
  }

  /** The metric lists of a sequence of proposals. */
  function Ms(ps: seq<ProposedInsight>): seq<seq<Metric>> {
    seq(|ps|, k requires 0 <= k < |ps| => ps[k].M)
  }

  /** A proposal as Propose returns it: New(d, pair), with no verdict yet. */
  ghost predicate Unstarted(p: ProposedInsight, d: DatasetValue)
    reads p.I
  {
    p.I.dt == d && p.I.ms == p.M && !p.I.relevant && p.I.visual == None
  }

  /** No two proposals share an insight object. */
  predicate Distinct(ps: seq<ProposedInsight>) {
    forall a, b :: 0 <= a < b < |ps| ==> ps[a].I != ps[b].I
  }

  // ---------------------------------------------------------------------
  // The insight object

  class Correlation {
    var visual: Option<V.ScatterPlot>
    var relevant: bool
    const dt: DatasetValue
    const ms: seq<Metric>

    /** New: an insight over `d` and `ms`, not yet relevant and without a visual. */
    constructor New(d: DatasetValue, ms: seq<Metric>)
      ensures dt == d && this.ms == ms && !relevant && visual == None
    {
      dt := d;
      this.ms := ms;
      relevant := false;
      visual := None;
    }

    /** The visual Generate attached, if any. */
    function Visual(): (v: Option<V.ScatterPlot>)
      reads this
      ensures v == visual
    {
      visual
    }

    /** The insight's type string. */
    function Type(): (t: string)
      ensures t == "CORRELATION"
    {
      CORRELATION
    }

    /** The current verdict of FSFA and Generate. */
    function Relevant(): (b: bool)
      reads this
      ensures b == relevant
    {
      relevant
    }

    /** The fast feasibility check: relevant iff two Float metrics. */
    method FSFA()
      modifies this
      ensures relevant == Screened(ms) && visual == old(visual)
    {
      if |ms| != 2 {
        relevant := false;
        return;
      }
      if ms[0].dataType != Float || ms[1].dataType != Float {
        relevant := false;
        return;
      }
      relevant := true;
    }

    /** Computes the correlation and, when it is strong enough, the scatter plot. */
    method Generate(num: Numerics)
      requires GenerateDefined(dt, ms, relevant, num)
      modifies this
      ensures Status(relevant, visual) == GenerateOutcome(dt, ms, old(Status(relevant, visual)), num)
    {
      if !relevant {
        return;
      }
      if |ms| < 2 || |dt.dataF| < ms[0].index || |dt.dataF| < ms[1].index {
        relevant := false;
        return;
      }

      var col0 := dt.dataF[ms[0].index];
      var weights := new real[|col0|];
      for i := 0 to weights.Length
        modifies weights
        invariant forall k :: 0 <= k < i ==> weights[k] == 1.0
      {
        weights[i] := 1.0;
      }
      assert weights[..] == Ones(|col0|);

      var c := dt.Correlation(ms[0].name, ms[1].name, weights[..], num.correlate);
      if c.err.Some? {
        relevant := false;
        return;
      }
      if c.coefficient < Threshold {
        relevant := false;
        return;
      }

      relevant := true;
      var col1 := dt.dataF[ms[1].index];
      var data := new V.Row[|col0|];
      for i := 0 to |col0|
        modifies data
        invariant forall k :: 0 <= k < i ==> data[k] == map[ms[0].name := col0[k]]
      {
        data[i] := map[ms[0].name := col0[i]];
      }
      for i := 0 to |col1|
        modifies data
        invariant forall k :: 0 <= k < i ==> data[k] == Row(ms[0].name, col0, ms[1].name, col1, k)
        invariant forall k :: i <= k < |col0| ==> data[k] == map[ms[0].name := col0[k]]
      {
        data[i] := data[i][ms[1].name := col1[i]];
      }
      assert data[..] == Rows(ms[0].name, col0, ms[1].name, col1);
      visual := Some(V.ScatterPlot(Roles(ms), Title(ms), Description(c.coefficient, num), data[..]));
    }

    /**
     * Proposes one insight for every pair of Float metrics of `d`, where
     * `order` is the order in which the map of metrics is visited.
     */
    static method Propose(d: DatasetValue, order: seq<string>) returns (result: seq<ProposedInsight>)
      requires Enumerates(order, d.metrics)
      ensures Ms(result) == Pairs(FloatMetrics(d.metrics, order))
      ensures forall k :: 0 <= k < |result| ==> fresh(result[k].I) && Unstarted(result[k], d)
      ensures Distinct(result)
    {
      result := [];
      var svars: seq<Metric> := [];
      for i := 0 to |order|
        invariant svars == FloatMetrics(d.metrics, order[..i])
      {
        assert order[..i + 1][..i] == order[..i];
        var v := d.metrics[order[i]];
        if v.dataType == Float {
          svars := svars + [v];
        }
      }
      assert order[..|order|] == order;

      var i := 0;
      while i < |svars| - 1
        invariant 0 <= i <= |svars|
        invariant Ms(result) == PairsBefore(svars, i)
        invariant forall k :: 0 <= k < |result| ==> fresh(result[k].I) && Unstarted(result[k], d)
        invariant Distinct(result)
      {
        var j := i + 1;
        while j < |svars|
          invariant i + 1 <= j <= |svars|
          invariant Ms(result) == PairsBefore(svars, i) + PairsWith(svars, i)[..j - i - 1]
          invariant forall k :: 0 <= k < |result| ==> fresh(result[k].I) && Unstarted(result[k], d)
          invariant Distinct(result)
        {
          var metrics := [svars[i], svars[j]];
          var c := new Correlation.New(d, metrics);
          assert PairsWith(svars, i)[..j - i] == PairsWith(svars, i)[..j - i - 1] + [metrics];
          assert Ms(result + [ProposedInsight(c, metrics)]) == Ms(result) + [metrics];
          result := result + [ProposedInsight(c, metrics)];
          j := j + 1;
        }
        assert PairsWith(svars, i)[..j - i - 1] == PairsWith(svars, i);
        i := i + 1;
      }
      if |svars| > 0 {
        assert PairsWith(svars, |svars| - 1) == [];
      }
    }
  }

  // ---------------------------------------------------------------------
  // Generate

  /** Generate leaves an irrelevant insight exactly as it is. */
  lemma GenerateSkipsIrrelevant(dt: DatasetValue, ms: seq<Metric>, s: Status, num: Numerics)
    requires !s.relevant
    ensures GenerateOutcome(dt, ms, s, num) == s
  {
  }

  /** Fewer than two metrics, or an index past the guard, make it irrelevant with its visual kept. */
  lemma GenerateRejectsOnGuard(dt: DatasetValue, ms: seq<Metric>, s: Status, num: Numerics)
    requires s.relevant && !GuardPasses(|dt.dataF|, ms)
    ensures GenerateOutcome(dt, ms, s, num) == Status(false, s.visual)
  {
  }

  /**
   * Past the guard, the verdict is the dataset's correlation of the two
   * names with a weight of one per record of the first metric's column: the
   * insight stays relevant iff that returns no error and at least 0.7, and a
   * rejected insight keeps its visual.
   */
  lemma GenerateVerdict(dt: DatasetValue, ms: seq<Metric>, s: Status, num: Numerics)
    requires GenerateDefined(dt, ms, s.relevant, num)
    requires s.relevant && GuardPasses(|dt.dataF|, ms)
    ensures 0 <= ms[0].index < |dt.dataF|
    ensures var r := GenerateOutcome(dt, ms, s, num);
      var w := dt.dataF[ms[0].index];
      var c := dt.Correlation(ms[0].name, ms[1].name, seq(|w|, _ => 1.0), num.correlate);
      && (r.relevant <==> c.err.None? && c.coefficient >= 0.7)
      && (!r.relevant ==> r.visual == s.visual)
  {
    assert Ones(|dt.dataF[ms[0].index]|) == seq(|dt.dataF[ms[0].index]|, _ => 1.0);
  }

  /**
   * An accepted insight carries a scatter plot titled "<first> and <second>"
   * (display names), describing the coefficient, with the first metric on
   * dimension 0 and the second on dimension 1, both Float, and one row per
   * value of the first metric's column: row i maps the first name to that
   * column's i-th value and the second name to the second column's.
   */
  lemma GenerateAcceptedVisual(dt: DatasetValue, ms: seq<Metric>, s: Status, num: Numerics)
    requires GenerateDefined(dt, ms, s.relevant, num)
    requires GenerateOutcome(dt, ms, s, num).relevant
    ensures s.relevant && |ms| >= 2 && 0 <= ms[0].index < |dt.dataF| && 0 <= ms[1].index < |dt.dataF|
    ensures var v := GenerateOutcome(dt, ms, s, num).visual;
      var col0, col1 := dt.dataF[ms[0].index], dt.dataF[ms[1].index];
      && v.Some?
      && v.value.Type() == "SCATTERPLOT"
      && v.value.Title() == ms[0].displayName + " and " + ms[1].displayName
      && v.value.Description() == "have a correlation of " + num.formatFloat(Consulted(dt, ms, num).coefficient)
      && v.value.Metrics() == [V.Metric(ms[0].name, ms[0].displayName, "float64", 0, "", ""),
                               V.Metric(ms[1].name, ms[1].displayName, "float64", 1, "", "")]
      && |v.value.Data()| == |col0|
      && (forall i :: 0 <= i < |col1| ==> v.value.Data()[i][ms[1].name] == col1[i])
      && (ms[0].name != ms[1].name ==> forall i :: 0 <= i < |col0| ==> v.value.Data()[i][ms[0].name] == col0[i])
      && (forall i :: 0 <= i < |col0| ==>
            v.value.Data()[i].Keys == {ms[0].name} + (if i < |col1| then {ms[1].name} else {}))
  {
    if !s.relevant {
      GenerateSkipsIrrelevant(dt, ms, s, num);
    }
  }

  /**
   * When the two columns are equally long and the names differ, every row
   * holds exactly the two metric names and the two columns' values at that
   * row.
   */
  lemma RowsPairColumns(name0: string, col0: seq<real>, name1: string, col1: seq<real>)
    requires |col0| == |col1| && name0 != name1
    ensures |Rows(name0, col0, name1, col1)| == |col0|
    ensures forall i :: 0 <= i < |col0| ==>
      Rows(name0, col0, name1, col1)[i] == map[name0 := col0[i], name1 := col1[i]]
      && Rows(name0, col0, name1, col1)[i].Keys == {name0, name1}
  {
  }

  /**
   * The threshold compares the signed coefficient: a strong negative
   * correlation makes the insight irrelevant.
   */
  lemma NegativeCorrelationRejected(dt: DatasetValue, ms: seq<Metric>, s: Status, num: Numerics)
    requires GenerateDefined(dt, ms, s.relevant, num)
    requires s.relevant && GuardPasses(|dt.dataF|, ms) && 0 <= ms[0].index < |dt.dataF|
    requires Consulted(dt, ms, num).coefficient <= -0.7
    ensures !GenerateOutcome(dt, ms, s, num).relevant
  {
  }

  /** Running Generate again on its own result changes nothing. */
  lemma GenerateIdempotent(dt: DatasetValue, ms: seq<Metric>, s: Status, num: Numerics)
    requires GenerateDefined(dt, ms, s.relevant, num)
    ensures GenerateDefined(dt, ms, GenerateOutcome(dt, ms, s, num).relevant, num)
    ensures GenerateOutcome(dt, ms, GenerateOutcome(dt, ms, s, num), num) == GenerateOutcome(dt, ms, s, num)
  {
  }

  /**
   * The bounds guard lets through an index equal to the number of float
   * columns, and a negative one, although neither names a column.
   */
  lemma GuardAdmitsOutOfRange(columns: nat, ms: seq<Metric>)
    requires |ms| >= 2 && (ms[0].index == columns || ms[0].index < 0) && ms[1].index <= columns
    ensures GuardPasses(columns, ms) && !(0 <= ms[0].index < columns)
  {
  }

  /**
   * The correlation is computed on the columns the dataset's map indexes,
   * while the rows are read from the columns the insight's own metric
   * records index. With stale records the plotted data is not the data that
   * was correlated: here "a" is correlated on column 0 and plotted from
   * column 1.
   */
  lemma IndexSourcesDisagree()
    ensures var dt := DatasetValue([[1.0], [2.0]], [],
                                   map["a" := Metric("a", 0, Float, "A"), "b" := Metric("b", 1, Float, "B")], 1);
      var ms := [Metric("a", 1, Float, "A"), Metric("b", 0, Float, "B")];
      var num := Numerics((x, y, w) => if x == [1.0] then Coefficient(1.0) else Fault, _ => "1");
      && GenerateDefined(dt, ms, true, num)
      && GenerateOutcome(dt, ms, Status(true, None), num).relevant
      && GenerateOutcome(dt, ms, Status(true, None), num).visual.value.Data()[0]["a"] == 2.0
      && dt.dataF[dt.metrics["a"].index][0] == 1.0
  {
    var dt := DatasetValue([[1.0], [2.0]], [],
                           map["a" := Metric("a", 0, Float, "A"), "b" := Metric("b", 1, Float, "B")], 1);
    var ms := [Metric("a", 1, Float, "A"), Metric("b", 0, Float, "B")];
    var num := Numerics((x, y, w) => if x == [1.0] then Coefficient(1.0) else Fault, _ => "1");
    assert Consulted(dt, ms, num) == CorrelationResult(1.0, None);
    var rows := Rows("a", [2.0], "b", [1.0]);
    assert rows[0] == map["a" := 2.0]["b" := 1.0];
  }

  // ---------------------------------------------------------------------
  // Pair enumeration

  predicate IsPairOf(p: seq<Metric>, s: seq<Metric>, a: int, b: int) {
    0 <= a < b < |s| && p == [s[a], s[b]]
  }

  lemma {:induction false} PairsBeforeLength(s: seq<Metric>, i: nat)
    requires i <= |s|
    ensures 2 * |PairsBefore(s, i)| == i * (2 * |s| - i - 1)
  {
    if i > 0 {
      PairsBeforeLength(s, i - 1);
      assert |PairsWith(s, i - 1)| == |s| - i;
    }
  }

  /** A list of n metrics has n(n-1)/2 pairs. */
  lemma PairsCount(s: seq<Metric>)
    ensures 2 * |Pairs(s)| == |s| * (|s| - 1)
  {
    PairsBeforeLength(s, |s|);
  }

  lemma {:induction false} PairsBeforeSound(s: seq<Metric>, i: nat)
    requires i <= |s|
    ensures forall p :: p in PairsBefore(s, i) ==> exists a, b :: IsPairOf(p, s, a, b) && a < i
  {
    if i > 0 {
      PairsBeforeSound(s, i - 1);
      var last := PairsWith(s, i - 1);
      forall t | 0 <= t < |last|
        ensures exists a, b :: IsPairOf(last[t], s, a, b) && a < i
      {
        assert IsPairOf(last[t], s, i - 1, i + t);
      }
    }
  }

  lemma {:induction false} PairsBeforeComplete(s: seq<Metric>, i: nat, a: nat, b: nat)
    requires a < i <= |s| && a < b < |s|
    ensures [s[a], s[b]] in PairsBefore(s, i)
  {
    if a == i - 1 {
      assert PairsWith(s, a)[b - a - 1] == [s[a], s[b]];
    } else {
      PairsBeforeComplete(s, i - 1, a, b);
    }
  }

  /** The pairs are exactly the lists [s[a], s[b]] with a < b. */
  lemma PairsAreAllPairs(s: seq<Metric>)
    ensures forall p :: p in Pairs(s) <==> exists a, b :: IsPairOf(p, s, a, b)
  {
    PairsBeforeSound(s, |s|);
    forall p, a, b | IsPairOf(p, s, a, b)
      ensures p in Pairs(s)
    {
      PairsBeforeComplete(s, |s|, a, b);
    }
  }

  // ---------------------------------------------------------------------
  // The Float filter

  /** The filter keeps only Float metrics, each one a metric of the map. */
  lemma {:induction false} FloatMetricsSound(metrics: map<string, Metric>, order: seq<string>)
    requires forall k :: k in order ==> k in metrics
    ensures forall m :: m in FloatMetrics(metrics, order) ==>
      m.dataType == Float && exists k :: k in order && metrics[k] == m
  {
    if order != [] {
      var init := order[..|order| - 1];
      FloatMetricsSound(metrics, init);
      forall m | m in FloatMetrics(metrics, order)
        ensures m.dataType == Float && exists k :: k in order && metrics[k] == m
      {
        if m in FloatMetrics(metrics, init) {
          var k :| k in init && metrics[k] == m;
          assert k in order;
        } else {
          assert metrics[order[|order| - 1]] == m;
        }
      }
    }
  }

  lemma {:induction false} FloatMetricsPrefixCount(metrics: map<string, Metric>, order: seq<string>)
    requires forall k :: k in order ==> k in metrics
    requires forall i, j :: 0 <= i < j < |order| ==> order[i] != order[j]
    ensures |FloatMetrics(metrics, order)| == |set k | k in order && metrics[k].dataType == Float|
  {
    if order != [] {
      var init, last := order[..|order| - 1], order[|order| - 1];
      FloatMetricsPrefixCount(metrics, init);
      var before := set k | k in init && metrics[k].dataType == Float;
      var after := set k | k in order && metrics[k].dataType == Float;
      assert last !in init;
      assert order == init + [last];
      if metrics[last].dataType == Float {
        assert after == before + {last};
      } else {
        assert after == before;
      }
    }
  }

  /** Over an enumeration of the map, the filter has one entry per Float metric. */
  lemma FloatMetricsCount(metrics: map<string, Metric>, order: seq<string>)
    requires Enumerates(order, metrics)
    ensures |FloatMetrics(metrics, order)| == |FloatNames(metrics)|
  {
    FloatMetricsPrefixCount(metrics, order);
    assert (set k | k in order && metrics[k].dataType == Float) == FloatNames(metrics);
  }

  /** No two entries of `ms` share a name. */
  predicate NamesDistinct(ms: seq<Metric>) {
    forall a, b :: 0 <= a < b < |ms| ==> ms[a].name != ms[b].name
  }

  lemma {:induction false} FloatMetricsNames(metrics: map<string, Metric>, order: seq<string>)
    requires forall k :: k in order ==> k in metrics && metrics[k].name == k
    requires forall i, j :: 0 <= i < j < |order| ==> order[i] != order[j]
    ensures forall m :: m in FloatMetrics(metrics, order) ==> m.name in order
    ensures NamesDistinct(FloatMetrics(metrics, order))
  {
    if order != [] {
      var init, last := order[..|order| - 1], order[|order| - 1];
      FloatMetricsNames(metrics, init);
      assert order == init + [last];
      assert last !in init;
      var before := FloatMetrics(metrics, init);
      var fm := FloatMetrics(metrics, order);
      if metrics[last].dataType == Float {
        assert fm == before + [metrics[last]];
        forall a, b | 0 <= a < b < |fm|
          ensures fm[a].name != fm[b].name
        {
          if b == |before| {
            assert fm[a] == before[a] && before[a] in before;
            assert fm[a].name in init;
            assert fm[b].name == last;
          } else {
            assert fm[a] == before[a] && fm[b] == before[b];
            assert NamesDistinct(before);
          }
        }
      } else {
        assert fm == before;
      }
    }
  }

  // ---------------------------------------------------------------------
  // What Propose's proposals are

  /** A dataset with k Float metrics gets k(k-1)/2 proposals. */
  lemma ProposalCount(d: DatasetValue, order: seq<string>)
    requires Enumerates(order, d.metrics)
    ensures var k := |FloatNames(d.metrics)|;
      2 * |Pairs(FloatMetrics(d.metrics, order))| == k * (k - 1)
  {
    FloatMetricsCount(d.metrics, order);
    PairsCount(FloatMetrics(d.metrics, order));
  }

  /** With exactly two Float metrics there is exactly one proposal. */
  lemma TwoFloatMetricsOneProposal(d: DatasetValue, order: seq<string>)
    requires Enumerates(order, d.metrics) && |FloatNames(d.metrics)| == 2
    ensures |Pairs(FloatMetrics(d.metrics, order))| == 1
  {
    ProposalCount(d, order);
  }

  /**
   * Every proposal pairs two Float metrics of the dataset taken from two
   * positions i < j of the filtered list, so FSFA always accepts it.
   */
  lemma ProposalsScreened(d: DatasetValue, order: seq<string>)
    requires Enumerates(order, d.metrics)
    ensures var fm := FloatMetrics(d.metrics, order);
      forall p :: p in Pairs(fm) ==>
        Screened(p) && p[0] in d.metrics.Values && p[1] in d.metrics.Values
        && exists a, b :: IsPairOf(p, fm, a, b)
  {
    var fm := FloatMetrics(d.metrics, order);
    FloatMetricsSound(d.metrics, order);
    PairsAreAllPairs(fm);
    forall p | p in Pairs(fm)
      ensures Screened(p) && p[0] in d.metrics.Values && p[1] in d.metrics.Values
    {
      var a, b :| IsPairOf(p, fm, a, b);
      assert fm[a] in fm && fm[b] in fm;
    }
  }

  /**
   * On a valid dataset each proposal names two distinct metrics exactly as
   * the map stores them, so the correlation and the rows read the same
   * columns, and Generate cannot panic on it.
   */
  lemma ProposalsSafe(d: DatasetValue, order: seq<string>, num: Numerics)
    requires d.Valid() && Enumerates(order, d.metrics)
    ensures forall p: seq<Metric> :: p in Pairs(FloatMetrics(d.metrics, order)) ==>
      && |p| == 2
      && p[0].name != p[1].name
      && p[0].name in d.metrics && d.metrics[p[0].name] == p[0]
      && p[1].name in d.metrics && d.metrics[p[1].name] == p[1]
      && GenerateDefined(d, p, true, num)
  {
    var fm := FloatMetrics(d.metrics, order);
    assert forall k :: k in order ==> d.Registered(k, d.metrics[k]);
    FloatMetricsSound(d.metrics, order);
    FloatMetricsNames(d.metrics, order);
    PairsAreAllPairs(fm);
    forall p: seq<Metric> | p in Pairs(fm)
      ensures && |p| == 2
              && p[0].name != p[1].name
              && p[0].name in d.metrics && d.metrics[p[0].name] == p[0]
              && p[1].name in d.metrics && d.metrics[p[1].name] == p[1]
              && GenerateDefined(d, p, true, num)
    {
      var a, b :| IsPairOf(p, fm, a, b);
      assert fm[a] in fm && fm[b] in fm;
      assert NamesDistinct(fm);
      assert fm[a].name != fm[b].name;
      var ka :| ka in order && d.metrics[ka] == fm[a];
      var kb :| kb in order && d.metrics[kb] == fm[b];
      assert d.Registered(ka, fm[a]) && d.Registered(kb, fm[b]);
    }
  }
}
