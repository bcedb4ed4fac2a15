/** The quintic blend's bounds, and what they mean for every run of the engine. */
module KinematicProofs {
  import opened Prelude
  import opened Model
  import opened KinematicSteps

  // The blend. With y = u - 1/2, its slope is 30 (1/4 - y^2)^2; p and q are the symmetric functions of two points.

  /** The mean slope of the blend between two points, in p = y1^2 + y2^2 and q = y1 y2. */
  function MeanSlope(p: real, q: real): real {
    30.0 * (0.0625 - (p + q) / 6.0 + (p * p + p * q - q * q) / 5.0)
  }

  lemma MeanSlopeBounds(p: real, q: real)
    requires 0.0 <= p <= 0.5 && -p <= 2.0 * q <= p
    ensures 0.0 <= MeanSlope(p, q) <= SLOPE
  {
    MeanSlopeAbove(p, q);
    MeanSlopeBelow(p, q);
  }

  lemma MeanSlopeAbove(p: real, q: real)
    requires 0.0 <= p <= 0.5 && -p <= 2.0 * q <= p
    ensures MeanSlope(p, q) <= SLOPE
  {
    ProductOrder(p + q, p, 0.5);
    SquareNonnegative(q);
    SlopeNamed(p, q, p * p, p * q, q * q);
    PairProduct(p, q, p * p, p * q);
    hide MeanSlope;
    LinearAbove(p + q, p * p + p * q, q * q);
  }

  lemma SlopeNamed(p: real, q: real, pp: real, pq: real, qq: real)
    requires pp == p * p && pq == p * q && qq == q * q
    ensures MeanSlope(p, q) == 30.0 * (0.0625 - (p + q) / 6.0 + (pp + pq - qq) / 5.0)
  {
  }

  lemma PairProduct(p: real, q: real, pp: real, pq: real)
    requires pp == p * p && pq == p * q
    ensures (p + q) * p == pp + pq
  {
  }

  lemma LinearAbove(sum: real, product: real, qq: real)
    requires sum >= 0.0 && product <= sum * 0.5 && qq >= 0.0
    ensures 30.0 * (0.0625 - sum / 6.0 + (product - qq) / 5.0) <= SLOPE
  {
  }

  lemma MeanSlopeBelow(p: real, q: real)
    requires 0.0 <= p <= 0.5 && -p <= 2.0 * q <= p
    ensures MeanSlope(p, q) >= 0.0
  {
    var a := 1.0 - 2.0 * p;
    var b := p / 2.0 - q;
    var c := p / 2.0 + q;
    SquareNonnegative(a);
    NonnegativeProduct(b, 40.0 - 48.0 * p);
    NonnegativeProduct(b, c);
    SlopeCertificate(p, q, a * a, b * (40.0 - 48.0 * p), b * c);
  }

  lemma NonnegativeProduct(x: real, y: real)
    requires x >= 0.0 && y >= 0.0
    ensures x * y >= 0.0
  {
  }

  /** 240 times a thirtieth of the mean slope, as a sum of nonnegative terms. */
  lemma SlopeCertificate(p: real, q: real, aa: real, bk: real, bc: real)
    requires aa == (1.0 - 2.0 * p) * (1.0 - 2.0 * p)
    requires bk == (p / 2.0 - q) * (40.0 - 48.0 * p) && bc == (p / 2.0 - q) * (p / 2.0 + q)
    requires aa >= 0.0 && bk >= 0.0 && bc >= 0.0
    ensures MeanSlope(p, q) >= 0.0
  {
    Expansion(p, q);
    var inner := 0.0625 - (p + q) / 6.0 + (p * p + p * q - q * q) / 5.0;
    assert inner * 240.0 == 15.0 * aa + bk + 48.0 * bc;
  }

  lemma Expansion(p: real, q: real)
    ensures 15.0 - 40.0 * (p + q) + 48.0 * (p * p + p * q - q * q)
            == 15.0 * ((1.0 - 2.0 * p) * (1.0 - 2.0 * p)) + (p / 2.0 - q) * (40.0 - 48.0 * p)
               + 48.0 * ((p / 2.0 - q) * (p / 2.0 + q))
  {
  }

  /** The blend's difference is its mean slope times the distance. */
  lemma BlendDifference(x: real, y: real)
    ensures var p, q := x * x + y * y, x * y;
            Blend(y + 0.5) - Blend(x + 0.5) == (y - x) * MeanSlope(p, q)
  {
    BlendCentred(x);
    BlendCentred(y);
    Telescope(x, y);
  }

  /** The blend about its middle. */
  function Centred(y: real): real {
    0.5 + 1.875 * y - 5.0 * (y * y * y) + 6.0 * (y * y * y * y * y)
  }

  lemma BlendCentred(y: real)
    ensures Blend(y + 0.5) == Centred(y)
  {
  }

  lemma Telescope(x: real, y: real)
    ensures Centred(y) - Centred(x) == (y - x) * MeanSlope(x * x + y * y, x * y)
  {
    hide Centred, MeanSlope;
    var d, p, q := y - x, x * x + y * y, x * y;
    var cubes, fifths := y * y * y - x * x * x, y * y * y * y * y - x * x * x * x * x;
    CentredGap(x, y, cubes, fifths);
    Cubes(x, y, d, p, q, cubes);
    Fifths(x, y, d, p, q, fifths);
    SlopeProduct(d, p, q, cubes, fifths);
  }

  lemma CentredGap(x: real, y: real, cubes: real, fifths: real)
    requires cubes == y * y * y - x * x * x && fifths == y * y * y * y * y - x * x * x * x * x
    ensures Centred(y) - Centred(x) == 1.875 * (y - x) - 5.0 * cubes + 6.0 * fifths
  {
  }

  lemma SlopeProduct(d: real, p: real, q: real, cubes: real, fifths: real)
    requires cubes == d * (p + q) && fifths == d * (p * p + p * q - q * q)
    ensures d * MeanSlope(p, q) == 1.875 * d - 5.0 * cubes + 6.0 * fifths
  {
    Spread(d, p + q, p * p + p * q - q * q);
  }

  lemma Cubes(x: real, y: real, d: real, p: real, q: real, cubes: real)
    requires d == y - x && p == x * x + y * y && q == x * y && cubes == y * y * y - x * x * x
    ensures cubes == d * (p + q)
  {
    assert y * y * y - x * x * x == (y - x) * (x * x + y * y + x * y);
  }

  lemma Fifths(x: real, y: real, d: real, p: real, q: real, fifths: real)
    requires d == y - x && p == x * x + y * y && q == x * y && fifths == y * y * y * y * y - x * x * x * x * x
    ensures fifths == d * (p * p + p * q - q * q)
  {
    Quartic(x, y);
    Fifth(x, y);
  }

  lemma Quartic(x: real, y: real)
    ensures var p, q := x * x + y * y, x * y;
            p * p + p * q - q * q
            == y * y * y * y + y * y * y * x + y * y * x * x + y * x * x * x + x * x * x * x
  {
  }

  lemma Fifth(x: real, y: real)
    ensures y * y * y * y * y - x * x * x * x * x
            == (y - x) * (y * y * y * y + y * y * y * x + y * y * x * x + y * x * x * x + x * x * x * x)
  {
  }

  lemma Spread(d: real, s: real, t: real)
    ensures d * (30.0 * (0.0625 - s / 6.0 + t / 5.0)) == 1.875 * d - 5.0 * (d * s) + 6.0 * (d * t)
  {
  }

  /** On [0, 1] the blend never decreases and never grows faster than 15/8. */
  lemma BlendPaced(u: real, v: real)
    requires 0.0 <= u <= v <= 1.0
    ensures 0.0 <= Blend(v) - Blend(u) <= SLOPE * (v - u)
  {
    hide *;
    var slope, rise := BlendGap(u, v);
    Rise(v - u, slope, rise);
  }

  /** The rise of the blend between two points, and its mean slope, by name. */
  lemma BlendGap(u: real, v: real) returns (slope: real, rise: real)
    requires 0.0 <= u <= v <= 1.0
    ensures rise == Blend(v) - Blend(u) && rise == (v - u) * slope && 0.0 <= slope <= SLOPE
  {
    hide Blend, MeanSlope;
    var x, y := u - 0.5, v - 0.5;
    var p, q := x * x + y * y, x * y;
    Squares(x, y, p, q);
    MeanSlopeBounds(p, q);
    BlendDifference(x, y);
    assert y + 0.5 == v && x + 0.5 == u && y - x == v - u;
    slope, rise := MeanSlope(p, q), Blend(v) - Blend(u);
  }

  lemma Rise(k: real, slope: real, rise: real)
    requires k >= 0.0 && 0.0 <= slope <= SLOPE && rise == k * slope
    ensures 0.0 <= rise <= SLOPE * k
  {
    ProductOrder(k, 0.0, slope);
    ProductOrder(k, slope, 1.875);
  }

  lemma Squares(x: real, y: real, p: real, q: real)
    requires -0.5 <= x <= 0.5 && -0.5 <= y <= 0.5 && p == x * x + y * y && q == x * y
    ensures 0.0 <= p <= 0.5 && -p <= 2.0 * q <= p
  {
    HalfSquare(x);
    HalfSquare(y);
    assert (x - y) * (x - y) == p - 2.0 * q;
    assert (x + y) * (x + y) == p + 2.0 * q;
    SquareNonnegative(x - y);
    SquareNonnegative(x + y);
  }

  lemma SquareNonnegative(x: real)
    ensures x * x >= 0.0
  {
  }

  lemma HalfSquare(x: real)
    requires -0.5 <= x <= 0.5
    ensures 0.0 <= x * x <= 0.25
  {
    SquareNonnegative(x);
    NonnegativeProduct(0.5 - x, 0.5 + x);
    assert (0.5 - x) * (0.5 + x) == 0.25 - x * x;
  }

  lemma BlendEnds()
    ensures Blend(0.0) == 0.0 && Blend(1.0) == 1.0
  {
  }

  lemma BlendWithin(u: real)
    requires 0.0 <= u <= 1.0
    ensures 0.0 <= Blend(u) <= 1.0
  {
    hide Blend;
    BlendEnds();
    BlendPaced(0.0, u);
    BlendPaced(u, 1.0);
  }

  // Its curvature.

  /** The second difference of the blend about y, over h^2. */
  function Curve(y: real, h: real): real {
    y * (120.0 * (y * y) - 30.0 + 60.0 * (h * h))
  }

  lemma SecondDifference(y: real, h: real)
    ensures Centred(y + h) - 2.0 * Centred(y) + Centred(y - h) == h * h * Curve(y, h)
  {
    var hh := h * h;
    assert (y + h) * (y + h) * (y + h) + (y - h) * (y - h) * (y - h) == 2.0 * (y * y * y) + 6.0 * (y * hh);
    assert (y + h) * (y + h) * (y + h) * (y + h) * (y + h) + (y - h) * (y - h) * (y - h) * (y - h) * (y - h)
        == 2.0 * (y * y * y * y * y) + 20.0 * (y * y * y * hh) + 10.0 * (y * (hh * hh));
  }

  lemma CurveAhead(y: real, h: real)
    requires 0.0 <= y && 0.0 <= h && y + h <= 0.5
    ensures -CURVATURE <= Curve(y, h) <= 0.0
  {
    var g := 0.5 - y;
    ProductOrder(h, h, g);
    ProductOrder(g, h, g);
    assert h * h <= g * g;
    var k := 60.0 * (h * h);
    CurveUpper(y, h * h);
    CurveLower(y, h * h);
  }

  lemma CurveUpper(y: real, hh: real)
    requires 0.0 <= y <= 0.5 && hh <= (0.5 - y) * (0.5 - y)
    ensures y * (120.0 * (y * y) - 30.0 + 60.0 * hh) <= 0.0
  {
    CurveInner(y, hh);
    NonpositiveProduct(y, 120.0 * (y * y) - 30.0 + 60.0 * hh);
  }

  lemma NonpositiveProduct(x: real, y: real)
    requires x >= 0.0 && y <= 0.0
    ensures x * y <= 0.0
  {
  }

  /** At most 15 (2y - 1) (6y + 1). */
  lemma CurveInner(y: real, hh: real)
    requires 0.0 <= y <= 0.5 && hh <= (0.5 - y) * (0.5 - y)
    ensures 120.0 * (y * y) - 30.0 + 60.0 * hh <= 0.0
  {
    var root := (1.0 - 2.0 * y) * (6.0 * y + 1.0);
    NonnegativeProduct(1.0 - 2.0 * y, 6.0 * y + 1.0);
    assert (0.5 - y) * (0.5 - y) == 0.25 - y + y * y;
    assert root == 1.0 + 4.0 * y - 12.0 * (y * y);
  }

  /** Least near y = 1/sqrt(12), where the cubic still exceeds -5.774. */
  lemma CurveLower(y: real, hh: real)
    requires 0.0 <= y <= 0.5 && hh >= 0.0
    ensures y * (120.0 * (y * y) - 30.0 + 60.0 * hh) >= -CURVATURE
  {
    var inner := 120.0 * (y * y) - 30.0;
    ProductOrder(y, inner, inner + 60.0 * hh);
    var z := 0.28868;
    var d := y - z;
    SquareNonnegative(d);
    ProductOrder(d * d, 0.0, y + 2.0 * z);
    assert d * d * (y + 2.0 * z) == y * y * y - 3.0 * (z * z) * y + 2.0 * (z * z * z);
    assert y * inner == 120.0 * (y * y * y) - 30.0 * y;
  }

  /** Behind the middle the curve mirrors. */
  lemma CurveWithin(y: real, h: real)
    requires 0.0 <= h && -0.5 <= y - h && y + h <= 0.5
    ensures -CURVATURE <= Curve(y, h) <= CURVATURE
  {
    hide Curve;
    if y >= 0.0 {
      CurveAhead(y, h);
    } else {
      CurveAhead(-y, h);
      CurveMirror(y, h);
    }
  }

  lemma CurveMirror(y: real, h: real)
    ensures Curve(-y, h) == -Curve(y, h)
  {
  }

  /** On [0, 1] the blend's second difference is at most 5.774 h^2. */
  lemma BlendCurved(u: real, h: real)
    requires 0.0 <= h && 0.0 <= u - h && u + h <= 1.0
    ensures Abs(Blend(u + h) - 2.0 * Blend(u) + Blend(u - h)) <= CURVATURE * (h * h)
  {
    hide Blend, Curve, Centred;
    var y := u - 0.5;
    var hh, curve := h * h, Curve(y, h);
    BlendCentred(y + h);
    BlendCentred(y);
    BlendCentred(y - h);
    assert y + h + 0.5 == u + h && y - h + 0.5 == u - h && y + 0.5 == u;
    SecondDifference(y, h);
    CurveWithin(y, h);
    SquareNonnegative(h);
    Scaled(hh, curve);
    Product(h, hh, curve, Blend(u + h) - 2.0 * Blend(u) + Blend(u - h));
  }

  lemma Product(h: real, hh: real, curve: real, difference: real)
    requires hh == h * h && difference == h * h * curve && Abs(hh * curve) <= CURVATURE * hh
    ensures Abs(difference) <= CURVATURE * (h * h)
  {
    assert h * h * curve == hh * curve;
  }

  lemma Scaled(k: real, curve: real)
    requires k >= 0.0 && -CURVATURE <= curve <= CURVATURE
    ensures Abs(k * curve) <= CURVATURE * k
  {
    ProductOrder(k, -5.774, curve);
    ProductOrder(k, curve, 5.774);
  }

  // Routes.

  /** A duration with room for a gap at the requested speed and acceleration. */
  ghost predicate Room(gap: real, speed: real, acceleration: real, duration: real) {
    SLOPE * gap <= speed * duration && CURVATURE * gap <= acceleration * (duration * duration)
  }

  /** The duration leaves room for the requested speed and acceleration on every joint. */
  ghost predicate Roomy(r: Route, speed: real, acceleration: real) {
    r.duration > 0.0 && forall j :: 0 <= j < 6 ==> Room(Abs(r.goal[j] - r.start[j]), speed, acceleration, r.duration)
  }

  lemma RoomForLess(gap: real, distance: real, speed: real, acceleration: real, duration: real)
    requires Room(distance, speed, acceleration, duration) && gap <= distance
    ensures Room(gap, speed, acceleration, duration)
  {
  }

  lemma RouteIsRoomy(sqrt: real -> real, from: Joints, to: Joints, now: real, speed: real, acceleration: real)
    requires IsSqrt(sqrt) && speed > 0.0 && acceleration > 0.0
    ensures Roomy(NewRoute(sqrt, from, to, now, speed, acceleration), speed, acceleration)
  {
    var r := NewRoute(sqrt, from, to, now, speed, acceleration);
    var distance := Distance(from, to);
    DistanceWithin(from, to, distance);
    hide Distance, IsSqrt, Duration, Room;
    DurationRoom(sqrt, distance, speed, acceleration, r.duration);
    forall j | 0 <= j < 6
      ensures Room(Abs(r.goal[j] - r.start[j]), speed, acceleration, r.duration)
    {
      assert Abs(from[j] - to[j]) <= distance;
      RoomForLess(Abs(r.goal[j] - r.start[j]), distance, speed, acceleration, r.duration);
    }
  }

  lemma DurationRoom(sqrt: real -> real, distance: real, speed: real, acceleration: real, duration: real)
    requires IsSqrt(sqrt) && speed > 0.0 && acceleration > 0.0 && distance >= 0.0
    requires duration == Duration(sqrt, distance, speed, acceleration)
    ensures duration > 0.0 && Room(distance, speed, acceleration, duration)
  {
    var x, y := SLOPE * distance / speed, CURVATURE * distance / acceleration;
    NonnegativeQuotient(CURVATURE * distance, acceleration);
    var root := sqrt(y);
    assert root >= 0.0 && root * root == y;
    hide IsSqrt, Duration;
    DurationAtLeast(x, root, duration) by {
      DurationIs(sqrt, distance, speed, acceleration);
    }
    QuotientRoom(SLOPE * distance, speed, x, duration);
    SquareOrder(root, duration);
    QuotientRoom(CURVATURE * distance, acceleration, y, duration * duration);
  }

  lemma DurationIs(sqrt: real -> real, distance: real, speed: real, acceleration: real)
    requires speed != 0.0 && acceleration != 0.0
    ensures Duration(sqrt, distance, speed, acceleration)
            == Max(SHORTEST_SECONDS, Max(SLOPE * distance / speed, sqrt(CURVATURE * distance / acceleration)))
  {
  }

  lemma DurationAtLeast(x: real, root: real, duration: real)
    requires duration == Max(SHORTEST_SECONDS, Max(x, root))
    ensures duration >= 0.001 && duration >= x && duration >= root
  {
  }

  lemma NonnegativeQuotient(x: real, d: real)
    requires x >= 0.0 && d > 0.0
    ensures x / d >= 0.0
  {
  }

  /** A bound on a quotient is a bound on its dividend. */
  lemma QuotientRoom(x: real, d: real, quotient: real, bound: real)
    requires d > 0.0 && quotient == x / d && quotient <= bound
    ensures x <= d * bound
  {
    ProductOrder(d, quotient, bound);
    assert d * quotient == x;
  }

  function PoseAt(r: Route, now: real): Joints
    requires r.duration != 0.0
  {
    OnRoute(r, Blend(Progress(r, now)))
  }

  lemma ProgressPaced(r: Route, now: real, later: real)
    requires r.duration > 0.0 && now <= later
    ensures 0.0 <= Progress(r, now) <= Progress(r, later) <= 1.0
    ensures (Progress(r, later) - Progress(r, now)) * r.duration <= later - now
  {
    var x, y := (now - r.began) / r.duration, (later - r.began) / r.duration;
    assert x * r.duration == now - r.began && y * r.duration == later - r.began;
    QuotientOrder(now - r.began, later - r.began, r.duration);
    var a, b := Progress(r, now), Progress(r, later);
    assert 0.0 <= b - a <= y - x;
    ProductOrder(r.duration, b - a, y - x);
    assert r.duration * (y - x) == y * r.duration - x * r.duration;
  }

  lemma QuotientOrder(x: real, y: real, d: real)
    requires d > 0.0 && x <= y
    ensures x / d <= y / d
  {
    NonnegativeQuotient(y - x, d);
    assert (y - x) / d == y / d - x / d;
  }

  lemma PaceChain(gap: real, rise: real, du: real, dt: real, speed: real, duration: real)
    requires gap >= 0.0 && speed > 0.0 && 0.0 <= rise <= SLOPE * du && du >= 0.0
    requires SLOPE * gap <= speed * duration && du * duration <= dt
    ensures gap * rise <= speed * dt
  {
    ProductOrder(gap, rise, 1.875 * du);
    assert gap * (1.875 * du) == du * (1.875 * gap);
    ProductOrder(du, 1.875 * gap, speed * duration);
    assert du * (speed * duration) == speed * (du * duration);
    ProductOrder(speed, du * duration, dt);
  }

  lemma AlongGap(from: real, to: real, b: real, c: real)
    requires b <= c
    ensures Abs(Along(from, to, c) - Along(from, to, b)) == Abs(to - from) * (c - b)
  {
    assert Along(from, to, c) - Along(from, to, b) == (to - from) * (c - b);
    AbsProduct(to - from, c - b);
    assert Abs(c - b) == c - b;
  }

  /** Between any two times, a route moves each joint by at most the requested speed times the elapsed time. */
  lemma PosePaced(r: Route, speed: real, acceleration: real, now: real, later: real, j: nat)
    requires Roomy(r, speed, acceleration) && speed > 0.0 && now <= later && j < 6
    ensures Abs(PoseAt(r, later)[j] - PoseAt(r, now)[j]) <= speed * (later - now)
  {
    hide *;
    RoomAt(r, speed, acceleration, j);
    PoseElement(r, now, j);
    PoseElement(r, later, j);
    var du, dt := ElapsedShare(r, now, later);
    var b, c := Blend(Progress(r, now)), Blend(Progress(r, later));
    BlendRise(Progress(r, now), Progress(r, later), du);
    AlongPaced(r.start[j], r.goal[j], b, c, du, dt, speed, acceleration, r.duration);
  }

  lemma RoomAt(r: Route, speed: real, acceleration: real, j: nat)
    requires Roomy(r, speed, acceleration) && j < 6
    ensures r.duration > 0.0 && Room(Abs(r.goal[j] - r.start[j]), speed, acceleration, r.duration)
  {
    hide Room;
  }

  /** The share of a route that passes, by name. */
  lemma ElapsedShare(r: Route, now: real, later: real) returns (du: real, dt: real)
    requires r.duration > 0.0 && now <= later
    ensures du == Progress(r, later) - Progress(r, now) && dt == later - now
    ensures 0.0 <= Progress(r, now) <= Progress(r, later) <= 1.0
    ensures 0.0 <= du && du * r.duration <= dt
  {
    hide Progress;
    du, dt := Progress(r, later) - Progress(r, now), later - now;
    ProgressPaced(r, now, later);
  }

  lemma BlendRise(u: real, v: real, du: real)
    requires 0.0 <= u <= v <= 1.0 && du == v - u
    ensures 0.0 <= Blend(v) - Blend(u) <= SLOPE * du
  {
    hide Blend;
    BlendPaced(u, v);
  }

  lemma AlongPaced(
    from: real, to: real, b: real, c: real, du: real, dt: real, speed: real, acceleration: real, duration: real
  )
    requires 0.0 <= c - b <= SLOPE * du && 0.0 <= du && du * duration <= dt && speed > 0.0
    requires Room(Abs(to - from), speed, acceleration, duration)
    ensures Abs(Along(from, to, c) - Along(from, to, b)) <= speed * dt
  {
    hide *;
    var gap := Abs(to - from);
    AlongGap(from, to, b, c);
    GapNonnegative(to - from);
    RoomSpeed(gap, speed, acceleration, duration);
    PaceChain(gap, c - b, du, dt, speed, duration);
  }

  lemma PoseElement(r: Route, now: real, j: nat)
    requires r.duration != 0.0 && j < 6
    ensures PoseAt(r, now)[j] == Along(r.start[j], r.goal[j], Blend(Progress(r, now)))
  {
    hide Blend, Progress, Along;
  }

  lemma GapNonnegative(x: real)
    ensures Abs(x) >= 0.0
  {
  }

  lemma RoomSpeed(gap: real, speed: real, acceleration: real, duration: real)
    requires Room(gap, speed, acceleration, duration)
    ensures SLOPE * gap <= speed * duration
    ensures CURVATURE * gap <= acceleration * (duration * duration)
  {
  }

  /** Every pose of a route lies between its ends, so inside the limits. */
  lemma PoseAdmitted(limits: Limits, r: Route, now: real)
    requires r.duration > 0.0 && limits.Admits(r.start) && limits.Admits(r.goal)
    ensures limits.Admits(PoseAt(r, now))
  {
    var u := Progress(r, now);
    ProgressPaced(r, now, now);
    BlendWithin(u);
    hide Blend, Progress;
    forall j | 0 <= j < 6
      ensures limits.lower[j] <= PoseAt(r, now)[j] <= limits.upper[j]
    {
      AlongWithin(r.start[j], r.goal[j], Blend(u), limits.lower[j], limits.upper[j]);
    }
  }

  lemma AlongWithin(from: real, to: real, b: real, low: real, high: real)
    requires 0.0 <= b <= 1.0 && low <= from <= high && low <= to <= high
    ensures low <= Along(from, to, b) <= high
  {
    if to >= from {
      NonnegativeProduct(to - from, b);
      NonnegativeProduct(to - from, 1.0 - b);
      assert (to - from) * (1.0 - b) == (to - from) - (to - from) * b;
    } else {
      NonnegativeProduct(from - to, b);
      NonnegativeProduct(from - to, 1.0 - b);
      assert (from - to) * (1.0 - b) == (from - to) - (from - to) * b;
      assert (to - from) * b == -((from - to) * b);
    }
  }

  /** A pose inside a route's time, without the clamping. */
  lemma ProgressInside(r: Route, now: real)
    requires r.duration > 0.0 && r.began <= now <= r.began + r.duration
    ensures Progress(r, now) == (now - r.began) / r.duration
  {
    var x := (now - r.began) / r.duration;
    NonnegativeQuotient(now - r.began, r.duration);
    QuotientOrder(now - r.began, r.duration, r.duration);
    assert r.duration / r.duration == 1.0;
  }

  /** While a route runs, its second differences stay within the requested acceleration. */
  lemma PoseCurved(r: Route, speed: real, acceleration: real, now: real, h: real, j: nat)
    requires Roomy(r, speed, acceleration) && acceleration > 0.0 && 0.0 <= h && j < 6
    requires r.began <= now - h && now + h <= r.began + r.duration
    ensures Abs(PoseAt(r, now + h)[j] - 2.0 * PoseAt(r, now)[j] + PoseAt(r, now - h)[j]) <= acceleration * (h * h)
  {
    hide *;
    RoomAt(r, speed, acceleration, j);
    PoseElement(r, now, j);
    PoseElement(r, now + h, j);
    PoseElement(r, now - h, j);
    var u, k := Shares(r, now, h);
    BlendCurved(u, k);
    AlongCurved(r.start[j], r.goal[j], Blend(u + k), Blend(u), Blend(u - k), k, h, speed, acceleration, r.duration);
  }

  lemma Shares(r: Route, now: real, h: real) returns (u: real, k: real)
    requires r.duration > 0.0 && 0.0 <= h && r.began <= now - h && now + h <= r.began + r.duration
    ensures Progress(r, now) == u && Progress(r, now + h) == u + k && Progress(r, now - h) == u - k
    ensures 0.0 <= k && 0.0 <= u - k && u + k <= 1.0 && k * r.duration == h
  {
    hide Progress;
    u, k := (now - r.began) / r.duration, h / r.duration;
    ProgressInside(r, now);
    ProgressInside(r, now + h);
    ProgressInside(r, now - h);
    NonnegativeQuotient(h, r.duration);
    ProgressPaced(r, now - h, now + h);
    QuotientSum(now - r.began, h, now + h - r.began, r.duration);
    QuotientSum(now - h - r.began, h, now - r.began, r.duration);
  }

  lemma QuotientSum(x: real, h: real, sum: real, d: real)
    requires d != 0.0 && sum == x + h
    ensures sum / d == x / d + h / d
  {
  }

  lemma AlongCurved(
    from: real, to: real, a: real, b: real, c: real, k: real, h: real, speed: real, acceleration: real, duration: real
  )
    requires Abs(a - 2.0 * b + c) <= CURVATURE * (k * k) && 0.0 <= k && k * duration == h && acceleration > 0.0
    requires Room(Abs(to - from), speed, acceleration, duration)
    ensures Abs(Along(from, to, a) - 2.0 * Along(from, to, b) + Along(from, to, c)) <= acceleration * (h * h)
  {
    hide *;
    var gap := Abs(to - from);
    var curve := a - 2.0 * b + c;
    RoomSpeed(gap, speed, acceleration, duration);
    GapNonnegative(to - from);
    SecondAlong(from, to, a, b, c, curve);
    SquareNonnegative(k);
    SquareOf(k, duration, h);
    CurveChain(gap, Abs(curve), k * k, acceleration, duration * duration, h * h);
  }

  lemma SquareOf(k: real, duration: real, h: real)
    requires k * duration == h
    ensures (k * k) * (duration * duration) == h * h
  {
    assert (k * k) * (duration * duration) == (k * duration) * (k * duration);
  }

  lemma SecondAlong(from: real, to: real, a: real, b: real, c: real, curve: real)
    requires curve == a - 2.0 * b + c
    ensures Abs(Along(from, to, a) - 2.0 * Along(from, to, b) + Along(from, to, c)) == Abs(to - from) * Abs(curve)
  {
    var gap := to - from;
    AlongIs(from, to, a, gap, gap * a);
    AlongIs(from, to, b, gap, gap * b);
    AlongIs(from, to, c, gap, gap * c);
    hide Along;
    ThreeProducts(gap, a, b, c, curve, gap * curve);
    AbsProduct(gap, curve);
    hide Abs;
  }

  lemma AlongIs(from: real, to: real, blend: real, gap: real, product: real)
    requires gap == to - from && product == gap * blend
    ensures Along(from, to, blend) == from + product
  {
  }

  lemma ThreeProducts(gap: real, a: real, b: real, c: real, curve: real, product: real)
    requires curve == a - 2.0 * b + c && product == gap * curve
    ensures gap * a - 2.0 * (gap * b) + gap * c == product
  {
  }

  lemma AbsProduct(x: real, y: real)
    ensures Abs(x * y) == Abs(x) * Abs(y)
  {
    if x >= 0.0 && y >= 0.0 {
      NonnegativeProduct(x, y);
    } else if x >= 0.0 {
      NonnegativeProduct(x, -y);
      assert x * -y == -(x * y);
    } else if y >= 0.0 {
      NonnegativeProduct(-x, y);
      assert -x * y == -(x * y);
    } else {
      NonnegativeProduct(-x, -y);
      assert -x * -y == x * y;
    }
  }

  lemma CurveChain(gap: real, curve: real, kk: real, acceleration: real, dd: real, hh: real)
    requires gap >= 0.0 && kk >= 0.0 && curve <= CURVATURE * kk && CURVATURE * gap <= acceleration * dd && kk * dd == hh
    ensures gap * curve <= acceleration * hh
  {
    ProductOrder(gap, curve, 5.774 * kk);
    assert gap * (5.774 * kk) == kk * (5.774 * gap);
    ProductOrder(kk, 5.774 * gap, acceleration * dd);
    assert kk * (acceleration * dd) == acceleration * (kk * dd);
  }

  // Runs of the engine.

  /** A command from the owner, or one render update. */
  datatype Event = Told(command: Command, now: real) | Rendered(now: real)

  predicate Safe(limits: Limits, s: State) {
    && limits.Admits(s.q) && limits.Admits(s.target)
    && (s.route.Some? ==>
          s.route.value.duration > 0.0 && limits.Admits(s.route.value.start) && limits.Admits(s.route.value.goal))
  }

  function Act(sqrt: real -> real, limits: Limits, gripperSpeed: real, s: State, e: Event): State
    requires Safe(limits, s)
  {
    match e
    case Told(command, now) => Commanded(sqrt, limits, s, command, now).1
    case Rendered(now) => Updated(gripperSpeed, s, now)
  }

  lemma CommandSafe(sqrt: real -> real, limits: Limits, s: State, c: Command, now: real)
    requires IsSqrt(sqrt) && Safe(limits, s)
    ensures Safe(limits, Commanded(sqrt, limits, s, c, now).1)
  {
    hide NewRoute, IsSqrt;
    if c.Move? && c.speed > 0.0 && c.acceleration > 0.0 {
      RouteEnds(sqrt, s.q, c.q, now, c.speed, c.acceleration);
    }
  }

  lemma RouteEnds(sqrt: real -> real, from: Joints, to: Joints, now: real, speed: real, acceleration: real)
    requires IsSqrt(sqrt) && speed > 0.0 && acceleration > 0.0
    ensures var r := NewRoute(sqrt, from, to, now, speed, acceleration);
            r.start == from && r.goal == to && r.began == now && r.duration > 0.0 && Roomy(r, speed, acceleration)
  {
    hide Duration, IsSqrt;
    RouteIsRoomy(sqrt, from, to, now, speed, acceleration);
    hide Room;
  }

  lemma AdvanceSafe(limits: Limits, gripperSpeed: real, s: State, now: real)
    requires Safe(limits, s)
    ensures Safe(limits, Advanced(gripperSpeed, s, now))
  {
    hide Blend, Progress, Slewed, Rates, OnRoute;
    if s.route.Some? {
      PoseAdmitted(limits, s.route.value, now);
    }
  }

  lemma UpdateSafe(limits: Limits, gripperSpeed: real, s: State, now: real)
    requires Safe(limits, s)
    ensures Safe(limits, Updated(gripperSpeed, s, now))
  {
    hide Advanced;
    AdvanceSafe(limits, gripperSpeed, s, now);
    AdvanceSafe(limits, gripperSpeed, Held(s).(faulted := true), now);
  }

  lemma ActSafe(sqrt: real -> real, limits: Limits, gripperSpeed: real, s: State, e: Event)
    requires IsSqrt(sqrt) && Safe(limits, s)
    ensures Safe(limits, Act(sqrt, limits, gripperSpeed, s, e))
  {
    hide Commanded, Updated, Safe;
    match e
    case Told(command, now) => CommandSafe(sqrt, limits, s, command, now);
    case Rendered(now) => UpdateSafe(limits, gripperSpeed, s, now);
  }

  function Run(sqrt: real -> real, limits: Limits, gripperSpeed: real, s: State, events: seq<Event>): State
    requires IsSqrt(sqrt) && Safe(limits, s)
    decreases |events|
  {
    if events == [] then s
    else
      ActSafe(sqrt, limits, gripperSpeed, s, events[0]);
      Run(sqrt, limits, gripperSpeed, Act(sqrt, limits, gripperSpeed, s, events[0]), events[1..])
  }

  /** Whatever the commands and update times, refused commands and expired heartbeats included, the joints never
      leave their limits. */
  lemma {:induction false} AlwaysInsideLimits(
    sqrt: real -> real, limits: Limits, gripperSpeed: real, s: State, events: seq<Event>
  )
    requires IsSqrt(sqrt) && Safe(limits, s)
    ensures Safe(limits, Run(sqrt, limits, gripperSpeed, s, events))
    decreases |events|
  {
    hide Act, Safe, IsSqrt;
    if events != [] {
      ActSafe(sqrt, limits, gripperSpeed, s, events[0]);
      AlwaysInsideLimits(sqrt, limits, gripperSpeed, Act(sqrt, limits, gripperSpeed, s, events[0]), events[1..]);
    }
  }

  lemma InitialSafe(limits: Limits, now: real)
    requires limits.Valid()
    ensures Safe(limits, Initial(limits, now))
  {
  }

  /** From construction on, whatever it is told and whenever it updates, an engine stays inside its limits. */
  lemma EngineStaysInside(sqrt: real -> real, limits: Limits, gripperSpeed: real, now: real, events: seq<Event>)
    requires IsSqrt(sqrt) && limits.Valid()
    ensures Safe(limits, Initial(limits, now))
            && limits.Admits(Run(sqrt, limits, gripperSpeed, Initial(limits, now), events).q)
  {
    InitialSafe(limits, now);
    AlwaysInsideLimits(sqrt, limits, gripperSpeed, Initial(limits, now), events);
    hide Run, IsSqrt;
  }

  /** Following a route, or finished with it, or stopped by the watchdog. */
  ghost predicate OnWay(s: State, r: Route) {
    && r.duration > 0.0
    && (s.active && !s.faulted ==>
          && s.q == PoseAt(r, s.previous) && s.target == r.goal
          && (s.route == Some(r) || (s.route.None? && Progress(r, s.previous) == 1.0)))
  }

  /** How far a joint may move at a speed between two times. */
  function Travel(speed: real, before: real, after: real): real {
    speed * (after - before)
  }

  ghost predicate Within(a: Joints, b: Joints, bound: real) {
    forall j :: 0 <= j < 6 ==> Abs(a[j] - b[j]) <= bound
  }

  lemma PoseWithin(r: Route, speed: real, acceleration: real, before: real, after: real)
    requires Roomy(r, speed, acceleration) && speed > 0.0 && before <= after
    ensures r.duration > 0.0 && Within(PoseAt(r, after), PoseAt(r, before), Travel(speed, before, after))
  {
    hide PoseAt, Room;
    forall j | 0 <= j < 6
      ensures Abs(PoseAt(r, after)[j] - PoseAt(r, before)[j]) <= Travel(speed, before, after)
    {
      PosePaced(r, speed, acceleration, before, after, j);
    }
  }

  lemma TravelNonnegative(speed: real, before: real, after: real)
    requires speed > 0.0 && before <= after
    ensures Travel(speed, before, after) >= 0.0
  {
    NonnegativeProduct(speed, after - before);
  }

  lemma StillWithin(q: Joints, bound: real)
    requires bound >= 0.0
    ensures Within(q, q, bound)
  {
    assert Abs(0.0) == 0.0;
  }

  /** One update on the way: nothing moves faster than the route's requested speed. */
  lemma UpdateOnWay(limits: Limits, gripperSpeed: real, s: State, r: Route, speed: real, acceleration: real, now: real)
    requires Safe(limits, s) && OnWay(s, r) && Roomy(r, speed, acceleration) && speed > 0.0 && s.previous <= now
    ensures var t := Updated(gripperSpeed, s, now);
            && OnWay(t, r) && t.previous == now
            && Within(t.q, s.q, Travel(speed, s.previous, now))
  {
    UpdatedPose(limits, gripperSpeed, s, r, now);
    hide *;
    PoseWithin(r, speed, acceleration, s.previous, now);
    TravelNonnegative(speed, s.previous, now);
    StillWithin(s.q, Travel(speed, s.previous, now));
    var t := Updated(gripperSpeed, s, now);
    if t.q == s.q {
      assert Within(t.q, s.q, Travel(speed, s.previous, now));
    } else {
      assert t.q == PoseAt(r, now) && s.q == PoseAt(r, s.previous);
    }
  }

  lemma UpdatedPose(limits: Limits, gripperSpeed: real, s: State, r: Route, now: real)
    requires Safe(limits, s) && OnWay(s, r) && s.previous <= now
    ensures var t := Updated(gripperSpeed, s, now);
            && OnWay(t, r) && t.previous == now
            && (t.q == s.q || (s.q == PoseAt(r, s.previous) && t.q == PoseAt(r, now)))
  {
    hide Blend, Slewed, Rates, OnRoute;
    ProgressPaced(r, s.previous, now);
    hide Progress;
    FinishedPose(r, now);
  }

  /** Past its end a route stands at its goal. */
  lemma FinishedPose(r: Route, now: real)
    requires r.duration > 0.0
    ensures Progress(r, now) == 1.0 ==> PoseAt(r, now) == r.goal
  {
    hide Blend, Progress;
    BlendEnds();
    if Progress(r, now) == 1.0 {
      forall j | 0 <= j < 6
        ensures PoseAt(r, now)[j] == r.goal[j]
      {
      }
    }
  }

  /** Heartbeats and updates at nondecreasing times, as they come while a route runs. */
  ghost predicate Rendering(previous: real, events: seq<Event>)
    decreases |events|
  {
    events == [] ||
    match events[0]
    case Told(command, _) => command.Heartbeat? && Rendering(previous, events[1..])
    case Rendered(now) => previous <= now && Rendering(now, events[1..])
  }

  lemma {:induction false} RunOnWay(
    sqrt: real -> real, limits: Limits, gripperSpeed: real, s: State, r: Route, speed: real, acceleration: real,
    events: seq<Event>
  )
    requires IsSqrt(sqrt) && Safe(limits, s) && OnWay(s, r) && Roomy(r, speed, acceleration) && speed > 0.0
    requires Rendering(s.previous, events)
    ensures var t := Run(sqrt, limits, gripperSpeed, s, events); OnWay(t, r) && Safe(limits, t)
    decreases |events|
  {
    hide Safe, OnWay, Roomy, IsSqrt, Updated;
    if events != [] {
      ActSafe(sqrt, limits, gripperSpeed, s, events[0]);
      match events[0] {
        case Told(command, now) => HeartbeatOnWay(sqrt, limits, s, r, now);
        case Rendered(now) => UpdateOnWay(limits, gripperSpeed, s, r, speed, acceleration, now);
      }
      RunOnWay(sqrt, limits, gripperSpeed, Act(sqrt, limits, gripperSpeed, s, events[0]), r, speed, acceleration,
          events[1..]);
    }
  }

  lemma HeartbeatOnWay(sqrt: real -> real, limits: Limits, s: State, r: Route, now: real)
    requires OnWay(s, r)
    ensures var t := Commanded(sqrt, limits, s, Heartbeat, now).1; OnWay(t, r) && t.previous == s.previous
  {
    hide Blend, Progress, PoseAt;
  }

  /**
   * After any accepted move, over any heartbeats and any updates at nondecreasing times: between two consecutive
   * updates no joint moves more than the requested speed times the elapsed time, and every joint stays inside the
   * limits.
   */
  lemma RouteIsPaced(
    sqrt: real -> real, limits: Limits, gripperSpeed: real, s: State, c: Command, now: real, events: seq<Event>,
    next: real
  )
    requires IsSqrt(sqrt) && Safe(limits, s) && s.previous <= now && c.Move?
    requires Commanded(sqrt, limits, s, c, now).0.None? && Rendering(s.previous, events)
    ensures var moving := Commanded(sqrt, limits, s, c, now).1;
            Safe(limits, moving)
            && var t := Run(sqrt, limits, gripperSpeed, moving, events);
               Safe(limits, t)
               && (t.previous <= next ==>
                     && Safe(limits, Updated(gripperSpeed, t, next))
                     && Within(Updated(gripperSpeed, t, next).q, t.q, Travel(c.speed, t.previous, next)))
  {
    CommandSafe(sqrt, limits, s, c, now);
    var moving := Commanded(sqrt, limits, s, c, now).1;
    MoveStarts(sqrt, limits, s, c, now);
    hide *;
    var r := NewRoute(sqrt, s.q, c.q, now, c.speed, c.acceleration);
    RunOnWay(sqrt, limits, gripperSpeed, moving, r, c.speed, c.acceleration, events);
    var t := Run(sqrt, limits, gripperSpeed, moving, events);
    if t.previous <= next {
      UpdateOnWay(limits, gripperSpeed, t, r, c.speed, c.acceleration, next);
      UpdateSafe(limits, gripperSpeed, t, next);
    }
  }

  lemma MoveStarts(sqrt: real -> real, limits: Limits, s: State, c: Command, now: real)
    requires IsSqrt(sqrt) && s.previous <= now && c.Move? && Commanded(sqrt, limits, s, c, now).0.None?
    ensures c.speed > 0.0 && c.acceleration > 0.0
    ensures var r := NewRoute(sqrt, s.q, c.q, now, c.speed, c.acceleration);
            var t := Commanded(sqrt, limits, s, c, now).1;
            OnWay(t, r) && Roomy(r, c.speed, c.acceleration) && t.previous == s.previous
  {
    var r := NewRoute(sqrt, s.q, c.q, now, c.speed, c.acceleration);
    RouteEnds(sqrt, s.q, c.q, now, c.speed, c.acceleration);
    BeforeBegin(r, s.previous);
    hide NewRoute, PoseAt, Roomy, Progress, IsSqrt;
  }

  /** Before it begins, a route stands at its start. */
  lemma BeforeBegin(r: Route, now: real)
    requires r.duration > 0.0 && now <= r.began
    ensures PoseAt(r, now) == r.start
  {
    NonnegativeQuotient(r.began - now, r.duration);
    assert (now - r.began) / r.duration == -((r.began - now) / r.duration);
    assert Progress(r, now) == 0.0;
    BlendEnds();
    hide Blend, Progress;
    forall j | 0 <= j < 6
      ensures PoseAt(r, now)[j] == r.start[j]
    {
    }
  }

  /** Once its time has passed, an unexpired route has arrived exactly and is over. */
  lemma ArrivesOnWay(limits: Limits, gripperSpeed: real, s: State, r: Route, now: real)
    requires Safe(limits, s) && OnWay(s, r) && s.active && !s.faulted && now - s.heartbeatAt <= WATCHDOG_SECONDS
    requires r.began + r.duration <= now
    ensures Updated(gripperSpeed, s, now).q == r.goal && Updated(gripperSpeed, s, now).route.None?
  {
    hide Blend, Slewed, Rates, OnRoute;
    QuotientOrder(r.duration, now - r.began, r.duration);
    assert r.duration / r.duration == 1.0;
    assert Progress(r, now) == 1.0;
    hide Progress;
    FinishedPose(r, now);
  }

  /**
   * After any accepted move, over any heartbeats and updates at nondecreasing times, an engine that still follows and
   * whose heartbeat has not expired stands exactly at the goal, its route over, from the route's end on.
   */
  lemma RouteArrives(
    sqrt: real -> real, limits: Limits, gripperSpeed: real, s: State, c: Command, now: real, events: seq<Event>,
    next: real
  )
    requires IsSqrt(sqrt) && Safe(limits, s) && s.previous <= now && c.Move?
    requires Commanded(sqrt, limits, s, c, now).0.None? && Rendering(s.previous, events)
    requires c.speed != 0.0 && c.acceleration != 0.0
             && now + Duration(sqrt, Distance(s.q, c.q), c.speed, c.acceleration) <= next
    ensures var moving := Commanded(sqrt, limits, s, c, now).1;
            Safe(limits, moving)
            && var t := Run(sqrt, limits, gripperSpeed, moving, events);
               Safe(limits, t)
               && (t.active && !t.faulted && next - t.heartbeatAt <= WATCHDOG_SECONDS ==>
                     Updated(gripperSpeed, t, next).q == c.q && Updated(gripperSpeed, t, next).route.None?)
  {
    CommandSafe(sqrt, limits, s, c, now);
    var moving := Commanded(sqrt, limits, s, c, now).1;
    MoveStarts(sqrt, limits, s, c, now);
    var r := NewRoute(sqrt, s.q, c.q, now, c.speed, c.acceleration);
    RouteEnds(sqrt, s.q, c.q, now, c.speed, c.acceleration);
    assert r.duration == Duration(sqrt, Distance(s.q, c.q), c.speed, c.acceleration);
    hide *;
    RunOnWay(sqrt, limits, gripperSpeed, moving, r, c.speed, c.acceleration, events);
    var t := Run(sqrt, limits, gripperSpeed, moving, events);
    if t.active && !t.faulted && next - t.heartbeatAt <= WATCHDOG_SECONDS {
      ArrivesOnWay(limits, gripperSpeed, t, r, next);
    }
  }

  /** A move refused only for its route limits has still replaced the target: the next update jumps there at once. */
  lemma RefusedMoveJumps(
    sqrt: real -> real, limits: Limits, gripperSpeed: real, s: State, c: Command, now: real, next: real
  )
    requires Safe(limits, s) && c.Move? && Commanded(sqrt, limits, s, c, now).0 == Some(RouteLimits)
    requires next - s.heartbeatAt <= WATCHDOG_SECONDS
    ensures var t := Commanded(sqrt, limits, s, c, now).1;
            t.route.None? && Updated(gripperSpeed, t, next).q == c.q
  {
    hide Slewed, Rates;
  }

  /** The guard a move must pass beyond the joint and gripper checks. */
  predicate Admissible(limits: Limits, c: Command)
    requires c.Move?
  {
    0.0 < c.speed <= limits.speed && 0.0 < c.acceleration <= limits.acceleration
  }

  lemma WithinDistance(a: Joints, b: Joints, bound: real)
    requires bound >= 0.0
    ensures Within(a, b, bound) <==> Distance(a, b) <= bound
  {
    hide Distance;
    DistanceWithin(a, b, bound);
  }

  /** A move's next update, when the move is accepted: a route at the requested speed, or a held engine. */
  lemma AcceptedMoveWithin(
    sqrt: real -> real, limits: Limits, gripperSpeed: real, s: State, c: Command, now: real, next: real
  )
    requires IsSqrt(sqrt) && Safe(limits, s) && s.previous <= now <= next && c.Move?
    requires Commanded(sqrt, limits, s, c, now).0.None?
    ensures c.speed > 0.0
    ensures var t := Commanded(sqrt, limits, s, c, now).1;
            Safe(limits, t) && t.q == s.q && t.previous == s.previous
            && Within(Updated(gripperSpeed, t, next).q, s.q, Travel(c.speed, s.previous, next))
  {
    CommandSafe(sqrt, limits, s, c, now);
    var t := Commanded(sqrt, limits, s, c, now).1;
    MoveStarts(sqrt, limits, s, c, now);
    assert t.q == s.q && t.previous == s.previous;
    hide *;
    UpdateOnWay(limits, gripperSpeed, t, NewRoute(sqrt, s.q, c.q, now, c.speed, c.acceleration), c.speed,
        c.acceleration, next);
  }

  lemma TravelOrder(slow: real, fast: real, before: real, after: real)
    requires slow <= fast && before <= after
    ensures Travel(slow, before, after) <= Travel(fast, before, after)
  {
    ProductOrder(after - before, slow, fast);
  }

  lemma WithinMore(a: Joints, b: Joints, bound: real, larger: real)
    requires Within(a, b, bound) && bound <= larger
    ensures Within(a, b, larger)
  {
  }

  /**
   * Told a move that passes the joint and gripper checks, an engine by itself keeps every joint within the speed limit
   * at its next update if and only if the move's own limits are admissible or its goal is that near.
   */
  lemma MoveKeepsPaceExactly(
    sqrt: real -> real, limits: Limits, gripperSpeed: real, s: State, c: Command, now: real, next: real
  )
    requires IsSqrt(sqrt) && limits.Valid() && Safe(limits, s) && s.active && !s.faulted
    requires s.previous <= now <= next && next - s.heartbeatAt <= WATCHDOG_SECONDS
    requires c.Move? && AimRefusal(limits, c.q, c.gripper).None?
    ensures var t := Commanded(sqrt, limits, s, c, now).1;
            var bound := Travel(limits.speed, s.previous, next);
            Safe(limits, t)
            && (Within(Updated(gripperSpeed, t, next).q, s.q, bound)
                <==> Admissible(limits, c) || Distance(c.q, s.q) <= bound)
  {
    CommandSafe(sqrt, limits, s, c, now);
    var bound := Travel(limits.speed, s.previous, next);
    SpeedPositive(limits);
    TravelNonnegative(limits.speed, s.previous, next);
    MoveAnswered(sqrt, limits, s, c, now);
    if Admissible(limits, c) {
      AcceptedMoveWithin(sqrt, limits, gripperSpeed, s, c, now, next);
      TravelOrder(c.speed, limits.speed, s.previous, next);
      hide *;
      WithinMore(Updated(gripperSpeed, Commanded(sqrt, limits, s, c, now).1, next).q, s.q,
                 Travel(c.speed, s.previous, next), bound);
    } else {
      RefusedMoveJumps(sqrt, limits, gripperSpeed, s, c, now, next);
      WithinDistance(c.q, s.q, bound);
      hide *;
    }
  }

  lemma SpeedPositive(limits: Limits)
    requires limits.Valid()
    ensures limits.speed > 0.0
  {
  }

  lemma MoveAnswered(sqrt: real -> real, limits: Limits, s: State, c: Command, now: real)
    requires s.active && !s.faulted && c.Move? && AimRefusal(limits, c.q, c.gripper).None?
    ensures Commanded(sqrt, limits, s, c, now).0 == if Admissible(limits, c) then None else Some(RouteLimits)
    ensures Admissible(limits, c) ==> c.speed <= limits.speed
  {
    hide NewRoute, AimRefusal;
  }

  /** The gripper moves toward its target by at most its speed times the elapsed time, and never past it. */
  lemma GripperSlews(gripper: real, goal: real, speed: real, dt: real)
    requires speed > 0.0 && dt >= 0.0
    ensures var after := Slewed(gripper, goal, speed, dt);
            && Abs(after - gripper) <= speed * dt
            && (gripper <= after <= goal || goal <= after <= gripper)
            && (Abs(goal - gripper) <= speed * dt ==> after == goal)
  {
    NonnegativeProduct(speed, dt);
  }
}
