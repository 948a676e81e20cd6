/**
 * The linear-regression animation (animations/src/components/LinearRegression.jsx):
 * on every tick the slope `m` and intercept `b` take one online gradient step per
 * point of a fixed six-point dataset, in dataset order, and the fitted line and the
 * per-point error lines are redrawn through two affine scales. The arithmetic is
 * modelled exactly over `real`.
 */
module LinearRegression {

  /** One data point; `bmi` is part of the data but takes no part in the fit. */
  datatype DataPoint = DataPoint(age: int, bmi: int, charges: int)

  /** The slope and the intercept of the fitted line `charges = m·age + b`. */
  datatype Params = Params(m: real, b: real)

  function Dataset(): seq<DataPoint> {
    [ DataPoint(18, 20, 2000),
      DataPoint(22, 25, 3000),
      DataPoint(30, 27, 4500),
      DataPoint(35, 30, 6000),
      DataPoint(40, 32, 7200),
      DataPoint(50, 35, 9000) ]
  }

  const LearningRate: real := 0.00001

  /** `let m = 100, b = 2000`. */
  const InitialParams: Params := Params(100.0, 2000.0)

  function Predict(p: Params, age: real): real {
    p.m * age + p.b
  }

  /** `error = charges - (m·age + b)`. */
  function Error(p: Params, pt: DataPoint): real {
    pt.charges as real - Predict(p, pt.age as real)
  }

  /**
   * One point's update: `m += lr·error·age`, `b += lr·error`. The slope therefore moves
   * by exactly the intercept's move times the age, and a point on the line changes nothing.
   */
  function Step(p: Params, pt: DataPoint): (r: Params)
    ensures r.b - p.b == LearningRate * Error(p, pt)
    ensures r.m - p.m == (r.b - p.b) * pt.age as real
    ensures Error(p, pt) == 0.0 ==> r == p
  {
    var e := Error(p, pt);
    Params(p.m + LearningRate * e * pt.age as real, p.b + LearningRate * e)
  }

  /** A tick: a left fold of `Step` over the points, each seeing the previous point's result. */
  function Epoch(p: Params, pts: seq<DataPoint>): Params
    decreases pts
  {
    if pts == [] then p else Epoch(Step(p, pts[0]), pts[1..])
  }

  /** Folding over one more point is one more step on the fold so far. */
  lemma {:induction false} EpochSnoc(p: Params, pts: seq<DataPoint>, pt: DataPoint)
    ensures Epoch(p, pts + [pt]) == Step(Epoch(p, pts), pt)
    decreases pts
  {
    if pts != [] {
      assert (pts + [pt])[1..] == pts[1..] + [pt];
      EpochSnoc(Step(p, pts[0]), pts[1..], pt);
    }
  }

  /** Every point lies on the line of `p`. */
  predicate AllOnLine(p: Params, pts: seq<DataPoint>) {
    forall i :: 0 <= i < |pts| ==> Error(p, pts[i]) == 0.0
  }

  /** When every point lies on the current line the tick leaves the parameters unchanged. */
  lemma {:induction false} EpochFixedPoint(p: Params, pts: seq<DataPoint>)
    requires AllOnLine(p, pts)
    ensures Epoch(p, pts) == p
  {
    if pts != [] {
      assert Error(p, pts[0]) == 0.0;
      assert AllOnLine(p, pts[1..]) by {
        forall i | 0 <= i < |pts[1..]| ensures Error(p, pts[1..][i]) == 0.0 {
          assert pts[1..][i] == pts[i + 1];
        }
      }
      EpochFixedPoint(p, pts[1..]);
    }
  }

  /** Two datasets that agree on every age and charge. */
  predicate SameFitData(xs: seq<DataPoint>, ys: seq<DataPoint>) {
    |xs| == |ys| && forall i :: 0 <= i < |xs| ==> xs[i].age == ys[i].age && xs[i].charges == ys[i].charges
  }

  /** `bmi` has no effect: datasets that differ only in bmi give the same tick. */
  lemma {:induction false} EpochIgnoresBmi(p: Params, xs: seq<DataPoint>, ys: seq<DataPoint>)
    requires SameFitData(xs, ys)
    ensures Epoch(p, xs) == Epoch(p, ys)
    decreases xs
  {
    if xs != [] {
      assert Step(p, xs[0]) == Step(p, ys[0]);
      assert SameFitData(xs[1..], ys[1..]) by {
        forall i | 0 <= i < |xs[1..]| ensures xs[1..][i].age == ys[1..][i].age && xs[1..][i].charges == ys[1..][i].charges {
          assert xs[1..][i] == xs[i + 1] && ys[1..][i] == ys[i + 1];
        }
      }
      EpochIgnoresBmi(Step(p, xs[0]), xs[1..], ys[1..]);
    }
  }

  /** The errors met along a tick, each measured against the parameters left by the previous point. */
  function TickErrors(p: Params, pts: seq<DataPoint>): (es: seq<real>)
    ensures |es| == |pts|
    decreases pts
  {
    if pts == [] then [] else [Error(p, pts[0])] + TickErrors(Step(p, pts[0]), pts[1..])
  }

  function Sum(xs: seq<real>): real {
    if xs == [] then 0.0 else xs[0] + Sum(xs[1..])
  }

  function WeightedSum(xs: seq<real>, pts: seq<DataPoint>): real
    requires |xs| == |pts|
  {
    if xs == [] then 0.0 else xs[0] * pts[0].age as real + WeightedSum(xs[1..], pts[1..])
  }

  /**
   * Over a whole tick `b` moves by `lr·Σ error_i` and `m` by `lr·Σ error_i·age_i`, the
   * errors taken along the tick's own trajectory.
   */
  lemma {:induction false} EpochAccumulates(p: Params, pts: seq<DataPoint>)
    ensures Epoch(p, pts).b == p.b + LearningRate * Sum(TickErrors(p, pts))
    ensures Epoch(p, pts).m == p.m + LearningRate * WeightedSum(TickErrors(p, pts), pts)
    decreases pts
  {
    if pts != [] {
      var q := Step(p, pts[0]);
      EpochAccumulates(q, pts[1..]);
      var e := Error(p, pts[0]);
      var rest := TickErrors(q, pts[1..]);
      assert TickErrors(p, pts) == [e] + rest;
      assert ([e] + rest)[1..] == rest;
      assert q.m == p.m + LearningRate * (e * pts[0].age as real);
    }
  }

  // ---------------------------------------------------------------------------
  // Drawing geometry

  /** The plot area inside the 600×400 canvas: margins 50 left, 30 right, 20 top, 40 bottom. */
  const PlotWidth: real := 600.0 - 50.0 - 30.0
  const PlotHeight: real := 400.0 - 20.0 - 40.0

  /** `d3.scaleLinear().domain([15, 55]).range([0, width])`. */
  function XScale(x: real): real {
    (x - 15.0) / (55.0 - 15.0) * PlotWidth
  }

  /** `d3.scaleLinear().domain([1000, 10000]).range([height, 0])`. */
  function YScale(y: real): real {
    PlotHeight + (y - 1000.0) / (10000.0 - 1000.0) * (0.0 - PlotHeight)
  }

  /** The scales send their domain ends to the plot edges; x grows rightwards, y upwards. */
  lemma ScalesMapDomainToRange(u: real, v: real)
    ensures XScale(15.0) == 0.0 && XScale(55.0) == PlotWidth
    ensures YScale(1000.0) == PlotHeight && YScale(10000.0) == 0.0
    ensures u < v ==> XScale(u) < XScale(v) && YScale(u) > YScale(v)
  {
  }

  datatype Segment = Segment(x1: real, y1: real, x2: real, y2: real)

  /** The red fitted line, between the model's values at ages 15 and 55. */
  function FittedLine(p: Params): (s: Segment)
    ensures s.x1 == 0.0 && s.x2 == PlotWidth
    ensures s.y1 == YScale(Predict(p, 15.0)) && s.y2 == YScale(Predict(p, 55.0))
  {
    Segment(XScale(15.0), YScale(p.m * 15.0 + p.b), XScale(55.0), YScale(p.m * 55.0 + p.b))
  }

  /** A point's dashed error line: vertical at its age, from its charge to the prediction. */
  function ErrorLine(p: Params, pt: DataPoint): (s: Segment)
    ensures s.x1 == s.x2 == XScale(pt.age as real)
    ensures s.y1 == YScale(pt.charges as real) && s.y2 == YScale(Predict(p, pt.age as real))
  {
    Segment(XScale(pt.age as real), YScale(pt.charges as real),
            XScale(pt.age as real), YScale(p.m * pt.age as real + p.b))
  }

  /** An error line has zero length exactly when the point lies on the current line. */
  lemma ErrorLineDegenerate(p: Params, pt: DataPoint)
    ensures ErrorLine(p, pt).y1 == ErrorLine(p, pt).y2 <==> Error(p, pt) == 0.0
  {
    var s := ErrorLine(p, pt);
    if s.y1 == s.y2 {
      assert (pt.charges as real - 1000.0) / 9000.0 * PlotHeight
          == (Predict(p, pt.age as real) - 1000.0) / 9000.0 * PlotHeight;
    }
  }

  /** Each error line ends on the drawn fitted line: its lower-or-upper end is collinear with it. */
  lemma ErrorLineMeetsFittedLine(p: Params, pt: DataPoint)
    ensures var l, e := FittedLine(p), ErrorLine(p, pt);
            (e.y2 - l.y1) * (l.x2 - l.x1) == (l.y2 - l.y1) * (e.x2 - l.x1)
  {
    var a := pt.age as real;
    var k := PlotHeight / 9000.0;
    assert YScale(Predict(p, a)) == PlotHeight - (p.m * a + p.b - 1000.0) * k;
    assert YScale(Predict(p, 15.0)) == PlotHeight - (p.m * 15.0 + p.b - 1000.0) * k;
    assert YScale(Predict(p, 55.0)) == PlotHeight - (p.m * 55.0 + p.b - 1000.0) * k;
    assert XScale(a) == (a - 15.0) * (PlotWidth / 40.0);
  }

  // ---------------------------------------------------------------------------
  // The component's closure state and its interval callback

  class RegressionView {
    const points: seq<DataPoint>
    var m: real
    var b: real
    var line: Segment
    var errorLines: seq<Segment>

    function Parameters(): Params
      reads this
    {
      Params(m, b)
    }

    /**
     * The effect's set-up: the dataset, `m = 100`, `b = 2000`, the fitted line and one
     * error line per point created but not yet positioned (every coordinate still 0).
     */
    constructor ()
      ensures points == Dataset() && Parameters() == InitialParams
      ensures line == Segment(0.0, 0.0, 0.0, 0.0)
      ensures |errorLines| == |points| && forall i :: 0 <= i < |errorLines| ==> errorLines[i] == Segment(0.0, 0.0, 0.0, 0.0)
    {
      points := Dataset();
      m, b := 100.0, 2000.0;
      line := Segment(0.0, 0.0, 0.0, 0.0);
      errorLines := seq(|Dataset()|, _ => Segment(0.0, 0.0, 0.0, 0.0));
    }

    /**
     * `updateLine`: one gradient step per point in dataset order, then the fitted line
     * and one error line per point redrawn from the new parameters.
     */
    method UpdateLine()
      modifies this
      ensures Parameters() == Epoch(old(Parameters()), points)
      ensures line == FittedLine(Parameters())
      ensures |errorLines| == |points|
      ensures forall i :: 0 <= i < |points| ==> errorLines[i] == ErrorLine(Parameters(), points[i])
    {
      ghost var start := Parameters();
      var i := 0;
      while i < |points|
        invariant 0 <= i <= |points|
        invariant Params(m, b) == Epoch(start, points[..i])
      {
        var pt := points[i];
        var yPred := Predict(Params(m, b), pt.age as real);
        var error := pt.charges as real - yPred;
        m := m + LearningRate * error * pt.age as real;
        b := b + LearningRate * error;
        assert points[..i + 1] == points[..i] + [pt];
        EpochSnoc(start, points[..i], pt);
        i := i + 1;
      }
      assert points[..|points|] == points;
      var p := Params(m, b);
      line := FittedLine(p);
      errorLines := seq(|points|, j requires 0 <= j < |points| => ErrorLine(p, points[j]));
    }
  }

  /** The first tick's parameters are the fold of the six steps from `m = 100`, `b = 2000`. */
  method FirstTick() returns (p: Params)
    ensures p == Epoch(InitialParams, Dataset())
    ensures p.b == 2000.0 + LearningRate * Sum(TickErrors(InitialParams, Dataset()))
  {
    var view := new RegressionView();
    view.UpdateLine();
    p := view.Parameters();
    EpochAccumulates(InitialParams, Dataset());
  }
}
