/** The field-line tracer: from a seed pixel, repeatedly step about five pixels
    along the local field direction until the field vanishes, the line leaves
    the render surface or the step budget is spent.

    The magnitude `sqrt(Ex^2 + Ey^2)` is taken as the parameter `norm`; the
    field itself comes from the field evaluator with its distance parameter
    `dist`. The conversion of each step to whole pixels (truncation toward
    zero) is modelled exactly. */
module Tracer {
  import opened Charges
  import opened Field

  /** Upper bound on the number of steps from one seed. */
  const MAX_STEPS: nat := 100
  /** Nominal step length in pixels. */
  const STEP_LENGTH: real := 5.0

  /** Why a field line ended. */
  datatype Stop = NullField | LeftDomain | StepLimit

  /** The points a field line visits (the seed itself is not among them) and why it ended. */
  datatype Line = Line(points: seq<Point>, stop: Stop)

  /** Conversion of a real to an integer by truncation toward zero. */
  function Trunc(r: real): (n: int)
    ensures r >= 0.0 ==> 0 <= n && n as real <= r < n as real + 1.0
    ensures r < 0.0 ==> n <= 0 && n as real - 1.0 < r <= n as real
  {
    if r >= 0.0 then r.Floor else -((-r).Floor)
  }

  /** A step of a field component `e` scaled by a magnitude `m` no smaller than
      it moves at most STEP_LENGTH whole pixels along that axis. */
  lemma StepWithinFive(e: real, m: real)
    requires m > 0.0 && -m <= e <= m
    ensures -5 <= Trunc(e / m * STEP_LENGTH) <= 5
  {
  }

  /** The pixel reached from `p` by a step along field `e` of magnitude `m`,
      each coordinate moved by the truncated component of the scaled unit vector. */
  function Moved(p: Point, e: Vec, m: real): Point
    requires m != 0.0
  {
    Point(p.x + Trunc(e.ex / m * STEP_LENGTH), p.y + Trunc(e.ey / m * STEP_LENGTH))
  }

  /** One step of the tracer from `p`: None when the field magnitude there is
      0, otherwise the pixel reached by the truncated step. */
  function Advance(cs: seq<Charge>, dist: (int, int) -> real, norm: (real, real) -> real, p: Point): Option<Point>
  {
    var e := FieldAt(cs, p.x, p.y, dist);
    var m := norm(e.ex, e.ey);
    if m == 0.0 then None else Some(Moved(p, e, m))
  }

  /** The field line from `p` with `budget` steps left. */
  function Traced(cs: seq<Charge>, dist: (int, int) -> real, norm: (real, real) -> real, p: Point, budget: nat): Line
    decreases budget
  {
    if budget == 0 then Line([], StepLimit)
    else match Advance(cs, dist, norm, p)
      case None => Line([], NullField)
      case Some(q) =>
        if !InDomain(q) then Line([], LeftDomain)
        else
          var rest := Traced(cs, dist, norm, q, budget - 1);
          Line([q] + rest.points, rest.stop)
  }

  /** Every emitted point is on the surface, there are at most `budget` of
      them, and the line uses its whole budget exactly when it ends by the
      step limit. */
  lemma {:induction false} TracedStaysOnSurface(cs: seq<Charge>, dist: (int, int) -> real, norm: (real, real) -> real, p: Point, budget: nat)
    ensures var r := Traced(cs, dist, norm, p, budget);
      && |r.points| <= budget
      && (forall i :: 0 <= i < |r.points| ==> InDomain(r.points[i]))
      && (r.stop == StepLimit <==> |r.points| == budget)
    decreases budget
  {
    if budget > 0 {
      var next := Advance(cs, dist, norm, p);
      if next.Some? && InDomain(next.value) {
        TracedStaysOnSurface(cs, dist, norm, next.value, budget - 1);
      }
    }
  }

  /** Each of `points` is one tracer step from the one before it, the first from `p`. */
  predicate Follows(cs: seq<Charge>, dist: (int, int) -> real, norm: (real, real) -> real, p: Point, points: seq<Point>)
    decreases |points|
  {
    points == [] || (Advance(cs, dist, norm, p) == Some(points[0]) && Follows(cs, dist, norm, points[0], points[1..]))
  }

  /** The last point a line reached: its final emitted point, or the seed. */
  function Last(seed: Point, points: seq<Point>): Point {
    if points == [] then seed else points[|points| - 1]
  }

  /** Each emitted point is one tracer step from the one before it (the first
      from the seed); a line ends by a null field only where the field
      vanishes, and by leaving the surface only where the next step lands
      outside it. */
  lemma {:induction false} TracedFollowsField(cs: seq<Charge>, dist: (int, int) -> real, norm: (real, real) -> real, p: Point, budget: nat)
    ensures var r := Traced(cs, dist, norm, p, budget);
      && Follows(cs, dist, norm, p, r.points)
      && (r.stop == NullField ==> Advance(cs, dist, norm, Last(p, r.points)) == None)
      && (r.stop == LeftDomain ==>
            var next := Advance(cs, dist, norm, Last(p, r.points)); next.Some? && !InDomain(next.value))
    decreases budget
  {
    if budget > 0 {
      var next := Advance(cs, dist, norm, p);
      if next.Some? && InDomain(next.value) {
        var q := next.value;
        TracedFollowsField(cs, dist, norm, q, budget - 1);
        var rest := Traced(cs, dist, norm, q, budget - 1);
        assert ([q] + rest.points)[1..] == rest.points;
      }
    }
  }

  /** A seed placed exactly on the charges ends its line at once, with no
      point: each charge is skipped at distance 0, so the field there is (0, 0). */
  lemma NullSeedEmitsNothing(cs: seq<Charge>, dist: (int, int) -> real, norm: (real, real) -> real, seed: Point)
    requires norm(0.0, 0.0) == 0.0 && dist(0, 0) == 0.0
    requires forall i :: 0 <= i < |cs| ==> cs[i].x == seed.x && cs[i].y == seed.y
    ensures Traced(cs, dist, norm, seed, MAX_STEPS) == Line([], NullField)
  {
    SilentStore(FieldX, cs, seed.x, seed.y, dist);
    SilentStore(FieldY, cs, seed.x, seed.y, dist);
  }

  /** `points` followed by the rest of a line. */
  function Prefixed(points: seq<Point>, rest: Line): Line {
    Line(points + rest.points, rest.stop)
  }

  /** One unfolding of `Traced` when budget remains. */
  lemma TracedStep(cs: seq<Charge>, dist: (int, int) -> real, norm: (real, real) -> real, p: Point, budget: nat)
    requires budget > 0
    ensures Advance(cs, dist, norm, p) == None ==> Traced(cs, dist, norm, p, budget) == Line([], NullField)
    ensures Advance(cs, dist, norm, p).Some? && !InDomain(Advance(cs, dist, norm, p).value) ==>
      Traced(cs, dist, norm, p, budget) == Line([], LeftDomain)
    ensures Advance(cs, dist, norm, p).Some? && InDomain(Advance(cs, dist, norm, p).value) ==>
      Traced(cs, dist, norm, p, budget)
        == Prefixed([Advance(cs, dist, norm, p).value], Traced(cs, dist, norm, Advance(cs, dist, norm, p).value, budget - 1))
  {
  }

  /** The tracer loop for one seed, with its two early exits. */
  method Trace(cs: seq<Charge>, dist: (int, int) -> real, norm: (real, real) -> real, seed: Point) returns (line: Line)
    ensures line == Traced(cs, dist, norm, seed, MAX_STEPS)
  {
    var p := seed;
    var points: seq<Point> := [];
    var stop := StepLimit;
    var i := 0;
    while i < MAX_STEPS
      invariant 0 <= i <= MAX_STEPS && |points| == i
      invariant stop == StepLimit
      invariant Traced(cs, dist, norm, seed, MAX_STEPS) == Prefixed(points, Traced(cs, dist, norm, p, MAX_STEPS - i))
    {
      TracedStep(cs, dist, norm, p, MAX_STEPS - i);
      var e := ComputeField(cs, p.x, p.y, dist);
      var m := norm(e.ex, e.ey);
      if m == 0.0 {
        assert points + [] == points;
        assert Traced(cs, dist, norm, seed, MAX_STEPS) == Line(points, NullField);
        stop := NullField;
        break;
      }
      p := Moved(p, e, m);
      if !InDomain(p) {
        assert points + [] == points;
        assert Traced(cs, dist, norm, seed, MAX_STEPS) == Line(points, LeftDomain);
        stop := LeftDomain;
        break;
      }
      assert points + ([p] + Traced(cs, dist, norm, p, MAX_STEPS - (i + 1)).points)
          == (points + [p]) + Traced(cs, dist, norm, p, MAX_STEPS - (i + 1)).points;
      points := points + [p];
      i := i + 1;
    }
    line := Line(points, stop);
  }
}
