/**
 * The insight pipeline: every registered insight type proposes candidates
 * for a dataset, each candidate is screened (FSFA) and computed (Generate),
 * and the candidates still relevant afterwards are returned in order.
 */
module Insights {
  import opened Wrappers
  import opened DataTypes
  import opened Datasets
  import opened Correlations

  /** The insight types the system knows. Correlation is the only one. */
  datatype InsightType = CorrelationType

  /** The registry, in the order the pipeline consults it. */
  function Insights(): seq<InsightType> {
    [CorrelationType]
  }

  /** The metric groupings one insight type proposes for a dataset. */
  function TypeProposals(t: InsightType, d: DatasetValue, order: seq<string>): seq<seq<Metric>>
    requires forall k :: k in order ==> k in d.metrics
  {
    match t
    case CorrelationType => Pairs(FloatMetrics(d.metrics, order))
  }

  /** The proposals of several types, concatenated in registry order. */
  function AllProposals(types: seq<InsightType>, d: DatasetValue, order: seq<string>): seq<seq<Metric>>
    requires forall k :: k in order ==> k in d.metrics
  {
    if types == [] then []
    else AllProposals(types[..|types| - 1], d, order) + TypeProposals(types[|types| - 1], d, order)
  }

  /** The insight objects of a sequence of proposals. */
  function Insts(ps: seq<ProposedInsight>): seq<Correlation> {
    seq(|ps|, k requires 0 <= k < |ps| => ps[k].I)
  }

  /**
   * What the pipeline makes of a fresh insight over `ms`: FSFA sets the
   * relevance, and Generate runs only when FSFA accepted.
   */
  function Evaluate(d: DatasetValue, ms: seq<Metric>, num: Numerics): Status
    requires GenerateDefined(d, ms, Screened(ms), num)
  {
    var screened := Status(Screened(ms), None);
    if !screened.relevant then screened else GenerateOutcome(d, ms, screened, num)
  }

  /** Every proposal can be evaluated without a panic. */
  predicate AllDefined(ps: seq<ProposedInsight>, d: DatasetValue, num: Numerics) {
    forall k :: 0 <= k < |ps| ==> GenerateDefined(d, ps[k].M, Screened(ps[k].M), num)
  }

  /** The insights of the proposals that are relevant after evaluation, in order. */
  function Kept(ps: seq<ProposedInsight>, d: DatasetValue, num: Numerics): seq<Correlation>
    requires AllDefined(ps, d, num)
  {
    if ps == [] then []
    else
      var last := ps[|ps| - 1];
      Kept(ps[..|ps| - 1], d, num) + (if Evaluate(d, last.M, num).relevant then [last.I] else [])
  }

  /** Dispatches Propose to the insight type's own implementation. */
  method ProposeFor(t: InsightType, d: DatasetValue, order: seq<string>) returns (ps: seq<ProposedInsight>)
    requires Enumerates(order, d.metrics)
    ensures Ms(ps) == TypeProposals(t, d, order)
    ensures forall k :: 0 <= k < |ps| ==> fresh(ps[k].I) && Unstarted(ps[k], d)
    ensures Distinct(ps)
  {
    match t
    case CorrelationType =>
      ps := Correlation.Propose(d, order);
  }

  /** The proposals of every registered type, concatenated in registry order. */
  method Propose(d: DatasetValue, order: seq<string>) returns (result: seq<ProposedInsight>)
    requires Enumerates(order, d.metrics)
    ensures Ms(result) == AllProposals(Insights(), d, order)
    ensures forall k :: 0 <= k < |result| ==> fresh(result[k].I) && Unstarted(result[k], d)
    ensures Distinct(result)
  {
    result := [];
    var ins := Insights();
    for i := 0 to |ins|
      invariant Ms(result) == AllProposals(ins[..i], d, order)
      invariant forall k :: 0 <= k < |result| ==> fresh(result[k].I) && Unstarted(result[k], d)
      invariant Distinct(result)
    {
      var ps := ProposeFor(ins[i], d, order);
      assert ins[..i + 1][..i] == ins[..i];
      assert Ms(result + ps) == Ms(result) + Ms(ps);
      result := result + ps;
    }
    assert ins[..|ins|] == ins;
  }

  /**
   * One step of the pipeline on a fresh insight: FSFA, then Generate when
   * FSFA accepted. `keep` is the relevance at the end.
   */
  method Screen(insight: Correlation, num: Numerics) returns (keep: bool)
    requires !insight.relevant && insight.visual == None
    requires GenerateDefined(insight.dt, insight.ms, Screened(insight.ms), num)
    modifies insight
    ensures Status(insight.relevant, insight.visual) == Evaluate(insight.dt, insight.ms, num)
    ensures keep == insight.relevant
  {
    insight.FSFA();
    keep := insight.Relevant();
    if keep {
      insight.Generate(num);
      keep := insight.Relevant();
    }
  }

  /**
   * Proposes, screens and computes every candidate, and returns the
   * insights still relevant at the end, in proposal order. `proposals`
   * names the candidates the run worked on.
   */
  method GenerateInsights(d: DatasetValue, order: seq<string>, num: Numerics)
    returns (result: seq<Correlation>, ghost proposals: seq<ProposedInsight>)
    requires d.Valid() && Enumerates(order, d.metrics)
    ensures Ms(proposals) == AllProposals(Insights(), d, order)
    ensures AllDefined(proposals, d, num)
    ensures forall k :: 0 <= k < |proposals| ==>
      Status(proposals[k].I.relevant, proposals[k].I.visual) == Evaluate(d, proposals[k].M, num)
    ensures result == Kept(proposals, d, num)
    ensures forall k :: 0 <= k < |result| ==> result[k].Relevant()
  {
    var ps := Propose(d, order);
    proposals := ps;
    ProposalsDefined(ps, d, order, num);

    result := [];
    for i := 0 to |ps|
      invariant result == Kept(ps[..i], d, num)
      invariant forall k :: 0 <= k < i ==>
        Status(ps[k].I.relevant, ps[k].I.visual) == Evaluate(d, ps[k].M, num)
      invariant forall k :: i <= k < |ps| ==> Unstarted(ps[k], d)
    {
      assert ps[..i + 1][..i] == ps[..i];
      var keep := Screen(ps[i].I, num);
      if keep {
        result := result + [ps[i].I];
      }
    }
    assert ps[..|ps|] == ps;
    ghost var kept := KeptIsSubsequence(ps, d, num);
  }

  // ---------------------------------------------------------------------
  // Lemmas

  /** The registry holds exactly one insight type, the correlation. */
  lemma RegistryIsCorrelation()
    ensures |Insights()| == 1 && Insights()[0] == CorrelationType
  {
  }

  /** With only the correlation registered, the proposals are its pairs of Float metrics. */
  lemma ProposalsAreCorrelationPairs(d: DatasetValue, order: seq<string>)
    requires forall k :: k in order ==> k in d.metrics
    ensures AllProposals(Insights(), d, order) == Pairs(FloatMetrics(d.metrics, order))
  {
    assert Insights()[..0] == [];
  }

  /**
   * Every proposal passes FSFA, and on a valid dataset none makes Generate
   * panic; so all the filtering is Generate's.
   */
  lemma ProposalsAreGeneratable(d: DatasetValue, order: seq<string>, num: Numerics)
    requires d.Valid() && Enumerates(order, d.metrics)
    ensures forall ms :: ms in AllProposals(Insights(), d, order) ==>
      && Screened(ms)
      && GenerateDefined(d, ms, Screened(ms), num)
      && Evaluate(d, ms, num) == GenerateOutcome(d, ms, Status(true, None), num)
  {
    ProposalsAreCorrelationPairs(d, order);
    ProposalsScreened(d, order);
    ProposalsSafe(d, order, num);
  }

  /** The pipeline's proposals can all be evaluated without a panic. */
  lemma ProposalsDefined(ps: seq<ProposedInsight>, d: DatasetValue, order: seq<string>, num: Numerics)
    requires d.Valid() && Enumerates(order, d.metrics)
    requires Ms(ps) == AllProposals(Insights(), d, order)
    ensures AllDefined(ps, d, num)
  {
    ProposalsAreGeneratable(d, order, num);
    forall k | 0 <= k < |ps|
      ensures GenerateDefined(d, ps[k].M, Screened(ps[k].M), num)
    {
      assert Ms(ps)[k] == ps[k].M;
    }
  }

  /**
   * The kept insights are a subsequence of the proposals' insights, in
   * proposal order: `idx` lists the positions kept, strictly increasing, and
   * a position is kept iff its evaluation leaves the insight relevant.
   */
  lemma {:induction false} KeptIsSubsequence(ps: seq<ProposedInsight>, d: DatasetValue, num: Numerics)
    returns (idx: seq<nat>)
    requires AllDefined(ps, d, num)
    ensures |idx| == |Kept(ps, d, num)|
    ensures forall a, b :: 0 <= a < b < |idx| ==> idx[a] < idx[b]
    ensures forall k :: 0 <= k < |idx| ==>
      idx[k] < |ps| && Kept(ps, d, num)[k] == ps[idx[k]].I && Evaluate(d, ps[idx[k]].M, num).relevant
    ensures forall j :: 0 <= j < |ps| && Evaluate(d, ps[j].M, num).relevant ==> j in idx
  {
    if ps == [] {
      idx := [];
    } else {
      var n := |ps| - 1;
      var init := ps[..n];
      assert AllDefined(init, d, num) by {
        forall k | 0 <= k < |init| ensures GenerateDefined(d, init[k].M, Screened(init[k].M), num) {
          assert init[k] == ps[k];
        }
      }
      var prev := KeptIsSubsequence(init, d, num);
      if Evaluate(d, ps[n].M, num).relevant {
        idx := prev + [n];
      } else {
        idx := prev;
      }
      forall j | 0 <= j < |ps| && Evaluate(d, ps[j].M, num).relevant
        ensures j in idx
      {
        if j < n {
          assert init[j] == ps[j];
        }
      }
    }
  }

  // ---------------------------------------------------------------------
  // The runs of insights/insights_test.go

  /**
   * The test table's runs: "Age" = [10, 20, 30] and "Height" added to a new
   * dataset as Float metrics, then GenerateInsights. `order` is the order
   * in which Go happens to visit the two map keys. The run yields one
   * insight exactly when the primitive reports a coefficient of at least
   * 0.7 for the first and second visited columns, and none otherwise; the
   * kept insight is titled by the two display names and has one row per
   * record.
   */
  method AgeHeightInsights(heights: seq<real>, order: seq<string>, num: Numerics) returns (result: seq<Correlation>)
    requires |heights| == 3
    requires order == ["Age", "Height"] || order == ["Height", "Age"]
    ensures var c := num.correlate(Column(heights, order[0]), Column(heights, order[1]), [1.0, 1.0, 1.0]);
      |result| == (if c.Coefficient? && c.value >= Threshold then 1 else 0)
    ensures |result| == 1 ==>
      && result[0].Relevant()
      && result[0].Visual().Some?
      && result[0].Visual().value.Title() == order[0] + " and " + order[1]
      && |result[0].Visual().value.Data()| == 3
  {
    var ds := new Dataset();
    var _ := ds.AddMetric(Metric("Age", 0, Float, "Age"), FloatData(Column(heights, "Age")));
    var _ := ds.AddMetric(Metric("Height", 0, Float, "Height"), FloatData(heights));
    AgeHeightBuilt(heights);
    var d := ds.Value();
    AgeHeightValid(heights);
    AgeHeightProposals(heights, order);
    ghost var proposals;
    result, proposals := GenerateInsights(d, order, num);
    var ms := AgeHeightPair(order);
    assert Ms(proposals) == [ms];
    assert |proposals| == 1 && Ms(proposals)[0] == proposals[0].M;
    AgeHeightEvaluate(heights, order, num);
    assert Kept(proposals, d, num) == if Evaluate(d, ms, num).relevant then [proposals[0].I] else [];
  }

  /** The test's columns: "Age" is [10, 20, 30], "Height" is `heights`. */
  function Column(heights: seq<real>, name: string): seq<real> {
    if name == "Age" then [10.0, 20.0, 30.0] else heights
  }

  /** The dataset the test builds. */
  function AgeHeight(heights: seq<real>): (d: DatasetValue)
    requires |heights| == 3
    ensures d.metrics.Keys == {"Age", "Height"}
  {
    DatasetValue([Column(heights, "Age"), heights], [],
                 map["Age" := Metric("Age", 0, Float, "Age"), "Height" := Metric("Height", 1, Float, "Height")], 3)
  }

  /** Adding the two metrics to a new dataset succeeds twice and builds AgeHeight. */
  lemma AgeHeightBuilt(heights: seq<real>)
    requires |heights| == 3
    ensures var r1 := NewDataset().AddMetric(Metric("Age", 0, Float, "Age"), FloatData(Column(heights, "Age")));
      && r1.Added?
      && var r2 := r1.after.AddMetric(Metric("Height", 0, Float, "Height"), FloatData(heights));
      && r2.Added?
      && r2.after == AgeHeight(heights)
  {
    var r1 := NewDataset().AddMetric(Metric("Age", 0, Float, "Age"), FloatData(Column(heights, "Age")));
    assert r1.after.metrics == map["Age" := Metric("Age", 0, Float, "Age")];
  }

  lemma AgeHeightValid(heights: seq<real>)
    requires |heights| == 3
    ensures AgeHeight(heights).Valid()
  {
    var d := AgeHeight(heights);
    forall k | k in d.metrics ensures d.Registered(k, d.metrics[k]) {
      assert k == "Age" || k == "Height";
    }
  }

  /** The registered metrics, in visiting order. */
  function AgeHeightPair(order: seq<string>): seq<Metric>
    requires |order| == 2
  {
    var age, height := Metric("Age", 0, Float, "Age"), Metric("Height", 1, Float, "Height");
    if order[0] == "Age" then [age, height] else [height, age]
  }

  /** The test's dataset yields a single proposal: its two metrics, in visiting order. */
  lemma AgeHeightProposals(heights: seq<real>, order: seq<string>)
    requires |heights| == 3
    requires order == ["Age", "Height"] || order == ["Height", "Age"]
    ensures Enumerates(order, AgeHeight(heights).metrics)
    ensures AllProposals(Insights(), AgeHeight(heights), order) == [AgeHeightPair(order)]
  {
    var d, ms := AgeHeight(heights), AgeHeightPair(order);
    assert FloatMetrics(d.metrics, order[..0]) == [];
    assert FloatMetrics(d.metrics, order[..1]) == [ms[0]];
    assert order[..|order| - 1] == order[..1];
    assert FloatMetrics(d.metrics, order) == ms;
    assert PairsWith(ms, 0) == [ms];
    assert PairsWith(ms, 1) == [];
    assert PairsBefore(ms, 1) == [ms];
    assert Pairs(ms) == [ms];
    assert TypeProposals(CorrelationType, d, order) == [ms];
  }

  /** The single proposal is kept iff the coefficient of the visited columns reaches 0.7. */
  lemma AgeHeightEvaluate(heights: seq<real>, order: seq<string>, num: Numerics)
    requires |heights| == 3
    requires order == ["Age", "Height"] || order == ["Height", "Age"]
    ensures GenerateDefined(AgeHeight(heights), AgeHeightPair(order), Screened(AgeHeightPair(order)), num)
    ensures var c := num.correlate(Column(heights, order[0]), Column(heights, order[1]), [1.0, 1.0, 1.0]);
      var e := Evaluate(AgeHeight(heights), AgeHeightPair(order), num);
      && (e.relevant <==> c.Coefficient? && c.value >= Threshold)
      && (e.relevant ==> e.visual.Some? && e.visual.value.Title() == order[0] + " and " + order[1]
                         && |e.visual.value.Data()| == 3)
  {
    var d, ms := AgeHeight(heights), AgeHeightPair(order);
    assert Ones(3) == [1.0, 1.0, 1.0];
    assert d.dataF[ms[0].index] == Column(heights, order[0]);
    assert d.dataF[ms[1].index] == Column(heights, order[1]);
  }
}
