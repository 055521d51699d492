/**
 * The visualization descriptors: the scatter plot produced by the
 * correlation insight and the metric record that describes its axes.
 */
module Visualizations {

  /** Type string of the scatter plot visualization. */
  const SCATTERPLOT: string := "SCATTERPLOT"

  /**
   * A metric as a visualization sees it. `dimension` tells the renderer
   * which axis to use (0 for x, 1 for y).
   */
  datatype Metric = Metric(
    name: string,
    displayName: string,
    dataType: string,
    dimension: int,
    preplacementUnit: string,
    postplacementUnit: string)

  /** One row of plotted data: metric name to the value at that row. */
  type Row = map<string, real>

  /**
   * The scatter plot record: metric roles M, title T, description D and the
   * rows Dt. Its accessors only read the record.
   */
  datatype ScatterPlot = ScatterPlot(M: seq<Metric>, T: string, D: string, Dt: seq<Row>) {

    function Type(): string { SCATTERPLOT }

    function Metrics(): seq<Metric> { M }

    function Title(): string { T }

    function Description(): string { D }

    function Data(): seq<Row> { Dt }
  }

  /**
   * Reading a scatter plot built from four parts gives back those parts,
   * and its type string is SCATTERPLOT.
   */
  lemma AccessorsReturnFields(m: seq<Metric>, t: string, d: string, dt: seq<Row>)
    ensures ScatterPlot(m, t, d, dt).Type() == "SCATTERPLOT"
    ensures ScatterPlot(m, t, d, dt).Metrics() == m
    ensures ScatterPlot(m, t, d, dt).Title() == t
    ensures ScatterPlot(m, t, d, dt).Description() == d
    ensures ScatterPlot(m, t, d, dt).Data() == dt
  {
  }
}
