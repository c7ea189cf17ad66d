/**
 * The exact-arithmetic skeleton of the deliberative tack planner.
 *
 * Points are north/east offsets in metres from the leg's origin; a line
 * `y = slope * x + intercept` is stored as the pair (slope, intercept), as the
 * source stores it in a two-element vector.  The first tack point, the number
 * of tack points and the geodetic offset of the origin come from trigonometry,
 * square roots and the geodetic library, and are parameters here.
 */
module TackPlanner {
  import opened Angles

  datatype Vec = Vec(x: real, y: real)

  /** The line y = slope * x + intercept. */
  datatype Line = Line(slope: real, intercept: real)

  /** A geodetic location, in the units of the geodetic library. */
  datatype Location = Location(lat: int, lng: int, alt: int)

  /** Slopes and intercepts smaller than this are raised to it before projecting. */
  const ProjectionEpsilon: real := 0.0000000001
  /** A leg whose north extent is smaller than this is treated as vertical. */
  const VerticalEpsilon: real := 0.000000000001
  /** The finite slope that stands for a vertical leg. */
  const VerticalSlope: real := 100000000.0

  predicate OnLine(p: Vec, l: Line)
  {
    p.y == l.slope * p.x + l.intercept
  }

  function Add(a: Vec, b: Vec): (r: Vec) { Vec(a.x + b.x, a.y + b.y) }

  function Scale(k: real, a: Vec): (r: Vec) { Vec(k * a.x, k * a.y) }

  /** The guard of `projection`: a magnitude below the epsilon becomes +epsilon. */
  function Clamp(v: real): (r: real)
    ensures Abs(r) >= ProjectionEpsilon
    ensures Abs(v) >= ProjectionEpsilon ==> r == v
  {
    if Abs(v) < ProjectionEpsilon then ProjectionEpsilon else v
  }

  function ClampLine(l: Line): (r: Line)
  {
    Line(Clamp(l.slope), Clamp(l.intercept))
  }

  /**
   * projection(): the foot of the perpendicular from `point` to the clamped
   * line, found by intersecting the line with the normal through the point.
   */
  function Projection(point: Vec, line: Line): (out: Vec)
    ensures OnLine(out, ClampLine(line))
    ensures (out.x - point.x) + ClampLine(line).slope * (out.y - point.y) == 0.0
  {
    var m := Clamp(line.slope);
    var b := Clamp(line.intercept);
    var auxSlope := -1.0 / m;
    var auxIntercept := -auxSlope * point.x + point.y;
    NormalCrossesLine(m, auxSlope);
    var x := (auxIntercept - b) / (m - auxSlope);
    var out := Vec(x, m * x + b);
    FootIsPerpendicular(point, m, b, auxSlope, auxIntercept, x);
    out
  }

  /** The normal slope -1/m never equals m, so the two lines cross. */
  lemma NormalCrossesLine(m: real, auxSlope: real)
    requires m != 0.0 && auxSlope == -1.0 / m
    ensures m - auxSlope != 0.0
  {
    assert auxSlope * m == -1.0;
    assert (m - auxSlope) * m == m * m + 1.0;
  }

  lemma FootIsPerpendicular(point: Vec, m: real, b: real, auxSlope: real, auxIntercept: real, x: real)
    requires m != 0.0 && auxSlope == -1.0 / m && m - auxSlope != 0.0
    requires auxIntercept == -auxSlope * point.x + point.y
    requires x == (auxIntercept - b) / (m - auxSlope)
    ensures (x - point.x) + m * ((m * x + b) - point.y) == 0.0
  {
    assert x * (m - auxSlope) == auxIntercept - b;
    // the foot lies on the normal through the point as well
    assert (m * x + b) - point.y == auxSlope * (x - point.x);
    assert m * auxSlope == -1.0;
    calc {
      (x - point.x) + m * ((m * x + b) - point.y);
      (x - point.x) + m * (auxSlope * (x - point.x));
      (x - point.x) + (m * auxSlope) * (x - point.x);
      0.0;
    }
  }

  /** Line A: the line from the origin `p0` towards the destination `p1`. */
  function LineA(p0: Vec, p1: Vec): (l: Line)
    ensures OnLine(p0, l)
    ensures Abs(p1.x - p0.x) >= VerticalEpsilon ==> OnLine(p1, l)
    ensures Abs(p1.x - p0.x) < VerticalEpsilon ==> l.slope == VerticalSlope
  {
    var slope := if Abs(p1.x - p0.x) < VerticalEpsilon then VerticalSlope else (p1.y - p0.y) / (p1.x - p0.x);
    assert Abs(p1.x - p0.x) >= VerticalEpsilon ==> slope * (p1.x - p0.x) == p1.y - p0.y;
    Line(slope, p0.y - slope * p0.x)
  }

  /** Rail L1: the parallel to line A through the first tack point. */
  function RailL1(a: Line, t: Vec): (l1: Line)
    ensures l1.slope == a.slope && OnLine(t, l1)
  {
    Line(a.slope, -a.slope * t.x + t.y)
  }

  /** Rail L2: the mirror image of L1 about line A. */
  function RailL2(a: Line, l1: Line): (l2: Line)
    ensures l2.slope == a.slope
    ensures l2.intercept == 2.0 * a.intercept - l1.intercept
    ensures l2.intercept - a.intercept == a.intercept - l1.intercept
  {
    var intercept := if l1.intercept > a.intercept then a.intercept - (l1.intercept - a.intercept)
                     else a.intercept + (a.intercept - l1.intercept);
    Line(a.slope, intercept)
  }

  /** The z-th tack point after the first: on rail L1 for even z, on L2 for odd z, z steps along the leg. */
  function RailPoint(p0L1: Vec, p0L2: Vec, step: Vec, z: int): (r: Vec)
    ensures Add(r, Scale(-(z as real), step)) == (if z % 2 == 0 then p0L1 else p0L2)
  {
    Add(if z % 2 == 0 then p0L1 else p0L2, Scale(z as real, step))
  }

  /** Moving along a line's own direction stays on the line. */
  lemma ShiftAlongLine(p: Vec, l: Line, v: Vec, k: real)
    requires OnLine(p, l) && v.y == l.slope * v.x
    ensures OnLine(Add(p, Scale(k, v)), l)
  {
    assert k * v.y == l.slope * (k * v.x);
  }

  /**
   * When the step runs parallel to the rails and the first points of the rails
   * lie on them, every even tack point lies on L1 and every odd one on L2.
   */
  lemma TackPointsOnRails(l1: Line, l2: Line, p0L1: Vec, p0L2: Vec, step: Vec, z: int)
    requires l1.slope == l2.slope && step.y == l1.slope * step.x
    requires OnLine(p0L1, l1) && OnLine(p0L2, l2)
    ensures z % 2 == 0 ==> OnLine(RailPoint(p0L1, p0L2, step, z), l1)
    ensures z % 2 != 0 ==> OnLine(RailPoint(p0L1, p0L2, step, z), l2)
  {
    if z % 2 == 0 {
      ShiftAlongLine(p0L1, l1, step, z as real);
    } else {
      ShiftAlongLine(p0L2, l2, step, z as real);
    }
  }

  /** Two tack points two indices apart lie on the same rail, two steps apart. */
  lemma SameRailTwoStepsApart(p0L1: Vec, p0L2: Vec, step: Vec, z: int)
    ensures RailPoint(p0L1, p0L2, step, z + 2) == Add(RailPoint(p0L1, p0L2, step, z), Scale(2.0, step))
  {
    assert (z + 2) % 2 == z % 2;
  }

  /** The rails, the first points on them and the step of calc_deliberative_tack_points_NE. */
  datatype Rails = Rails(l1: Line, l2: Line, p0L1: Vec, p0L2: Vec, step: Vec)

  /** The rail construction for a leg from (0, 0) to `destination` with first tack point `t`. */
  function RailsFor(destination: Vec, t: Vec): (r: Rails)
    ensures r.l1.slope == r.l2.slope == LineA(Vec(0.0, 0.0), destination).slope
    ensures OnLine(t, r.l1)
    ensures r.l2.intercept == 2.0 * LineA(Vec(0.0, 0.0), destination).intercept - r.l1.intercept
    ensures r.step == Scale(2.0, Projection(t, LineA(Vec(0.0, 0.0), destination)))
    ensures OnLine(r.p0L1, ClampLine(r.l1)) && OnLine(r.p0L2, ClampLine(r.l2))
  {
    var a := LineA(Vec(0.0, 0.0), destination);
    var pp := Projection(t, a);
    var l1 := RailL1(a, t);
    var l2 := RailL2(a, l1);
    Rails(l1, l2, Projection(pp, l1), Projection(pp, l2), Vec((pp.x - 0.0) * 2.0, (pp.y - 0.0) * 2.0))
  }

  /**
   * Line A passes through the origin, so its intercept 0 is raised to the
   * projection guard: the projection lands 1e-10 above line A, and the step
   * (twice the projection, as `RailsFor` builds it) leaves the direction of
   * the rails by exactly twice the guard per step.
   */
  lemma StepLeavesRails(t: Vec, a: Line)
    requires a.intercept == 0.0 && Abs(a.slope) >= ProjectionEpsilon
    ensures Projection(t, a).y - a.slope * Projection(t, a).x == ProjectionEpsilon
    ensures Scale(2.0, Projection(t, a)).y - a.slope * Scale(2.0, Projection(t, a)).x == 2.0 * ProjectionEpsilon
  {
    assert ClampLine(a) == Line(a.slope, ProjectionEpsilon);
  }

  /**
   * The waypoint loop of calc_deliberative_tack_points_NE: `t` followed by the
   * tack points z = 1 .. nT - 1, alternating between the rails, where `nT` is
   * the whole number of leg spacings that fit into the leg.
   */
  method TackPointsAlongRails(t: Vec, p0L1: Vec, p0L2: Vec, step: Vec, nT: int) returns (local: seq<Vec>)
    ensures |local| == if nT > 1 then nT else 1
    ensures local[0] == t
    ensures forall z :: 1 <= z < |local| ==> local[z] == RailPoint(p0L1, p0L2, step, z)
  {
    local := [t];
    var z := 1;
    while z < nT
      invariant 1 <= z <= (if nT > 1 then nT else 1)
      invariant |local| == z
      invariant local[0] == t
      invariant forall k :: 1 <= k < z ==> local[k] == RailPoint(p0L1, p0L2, step, k)
    {
      var stepTmp := Vec(z as real * step.x, z as real * step.y);
      var pTmp: Vec;
      if z % 2 == 0 {
        pTmp := Vec(p0L1.x + stepTmp.x, p0L1.y + stepTmp.y);
      } else {
        pTmp := Vec(p0L2.x + stepTmp.x, p0L2.y + stepTmp.y);
      }
      local := local + [pTmp];
      z := z + 1;
    }
  }

  /**
   * calc_deliberative_tack_points_NE(), from the first tack point on: the
   * rails of the leg from (0, 0) to `destination` through `t`, then the
   * tack points along them.
   */
  method DeliberativeTackPointsNE(destination: Vec, t: Vec, nT: int) returns (local: seq<Vec>)
    ensures |local| == if nT > 1 then nT else 1
    ensures local[0] == t
    ensures forall z :: 1 <= z < |local| ==>
              local[z] == RailPoint(RailsFor(destination, t).p0L1, RailsFor(destination, t).p0L2,
                                    RailsFor(destination, t).step, z)
  {
    var rails := RailsFor(destination, t);
    local := TackPointsAlongRails(t, rails.p0L1, rails.p0L2, rails.step, nT);
  }

  /**
   * calc_location_from_NE(): each planar point as the origin moved by that
   * offset, in order, then the destination twice.
   */
  method LocationsFromNE(pointsNE: seq<Vec>, origin: Location, destination: Location,
                         offset: (Location, real, real) -> Location)
    returns (locs: seq<Location>)
    ensures |locs| == |pointsNE| + 2
    ensures forall i :: 0 <= i < |pointsNE| ==> locs[i] == offset(origin, pointsNE[i].x, pointsNE[i].y)
    ensures locs[|pointsNE|] == destination && locs[|pointsNE| + 1] == destination
  {
    locs := [];
    var i := 0;
    while i < |pointsNE|
      invariant 0 <= i <= |pointsNE|
      invariant |locs| == i
      invariant forall j :: 0 <= j < i ==> locs[j] == offset(origin, pointsNE[j].x, pointsNE[j].y)
    {
      var tmp := origin;
      tmp := offset(tmp, pointsNE[i].x, pointsNE[i].y);
      locs := locs + [tmp];
      i := i + 1;
    }
    locs := locs + [destination];
    locs := locs + [destination];
  }

  /**
   * calc_tack_points(): the geodetic tack points of a leg: the first tack
   * point, the alternating rail points, then the destination twice.
   */
  method CalcTackPoints(destinationNE: Vec, t: Vec, nT: int, origin: Location, destination: Location,
                        offset: (Location, real, real) -> Location)
    returns (locs: seq<Location>)
    ensures |locs| == (if nT > 1 then nT else 1) + 2
    ensures locs[0] == offset(origin, t.x, t.y)
    ensures locs[|locs| - 2] == destination && locs[|locs| - 1] == destination
    ensures forall z :: 1 <= z < |locs| - 2 ==>
              var r := RailsFor(destinationNE, t);
              var q := RailPoint(r.p0L1, r.p0L2, r.step, z);
              locs[z] == offset(origin, q.x, q.y)
  {
    var pointsNE := DeliberativeTackPointsNE(destinationNE, t, nT);
    locs := LocationsFromNE(pointsNE, origin, destination, offset);
  }
}
