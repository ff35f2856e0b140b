/**
 * One fish of the shoal (fish.py): the nearest-neighbour choice, the relative angle, the
 * turning and acceleration rules, the edge handling and the per-tick update.
 * The rules that only compute a value are functions; `Fish` is a class whose methods
 * overwrite its position, velocity, closest neighbour and edge vector in place.
 */
module Fishes {
  import opened Wrappers
  import opened Vectors

  // ------------------------------------------------------------------
  // Relative angle and turning
  // ------------------------------------------------------------------

  /**
   * The correction step of get_angle_with_neighbor, as the source writes it: a difference
   * above PI loses PI and one below -PI gains PI (a shift by PI, not by a full turn).
   */
  function NormaliseAngle(a: real): (r: real)
    ensures -2.0 * PI < a < 2.0 * PI ==> -PI <= r <= PI
    ensures -PI <= a <= PI ==> r == a
  {
    if a > PI then a - PI else if a < -PI then a + PI else a
  }

  /** get_angle_with_neighbor: heading of the direction to the neighbour minus own heading. */
  function AngleWithNeighbor(m: Maths, position: Vec, velocity: Vec, neighbor: Vec): (r: real)
    requires m.Valid()
    ensures -PI <= r <= PI
  {
    NormaliseAngle(Heading(m, Sub(neighbor, position)) - Heading(m, velocity))
  }

  /** get_turning_angle: the fitted sine response to the relative angle. */
  function TurningAngle(m: Maths, angle: real): (r: real)
    requires m.Valid()
    ensures -0.5610 <= r <= 0.4572
  {
    0.5091 * m.sin(0.9987 * angle + 0.0071) - 0.0519
  }

  // ------------------------------------------------------------------
  // Acceleration
  // ------------------------------------------------------------------

  /** The speed-homeostasis line -0.24 * speed + 1.54. */
  function BaselineAcceleration(speed: real): real { -0.24 * speed + 1.54 }

  /**
   * The "close enough" test of get_acceleration as written: the neighbour's y must lie
   * strictly between y0 -+ 0.7 * sqrt(729 - (x - x0)^2). When the radicand is negative,
   * np.sqrt gives nan and both comparisons are false.
   */
  function CloseEnough(m: Maths, self: Vec, neighbor: Vec): (close: bool)
    ensures close ==> Sq(neighbor.x - self.x) <= 729.0
  {
    var x0, y0 := self.x, self.y;
    var x, y := neighbor.x, neighbor.y;
    var radicand := -1.0 * (x0 * x0) + 2.0 * x0 * x - x * x + 729.0;
    assert radicand == 729.0 - Sq(x - x0);
    if radicand < 0.0 then false
    else
      var y1 := 0.1 * (10.0 * y0 - 7.0 * m.sqrt(radicand));
      var y2 := 0.1 * (10.0 * y0 + 7.0 * m.sqrt(radicand));
      StrictlyBetween(y, y1, y2)
  }

  /** y lies strictly between the larger (top) and the smaller (bottom) of y1 and y2. */
  predicate StrictlyBetween(y: real, y1: real, y2: real) {
    var top := if y1 >= y2 then y1 else y2;
    var bottom := if y1 < y2 then y1 else y2;
    bottom < y < top
  }

  /** The ellipse of half-axes 27 (along x) and 18.9 (along y) around the fish, squared out. */
  predicate InEllipse(self: Vec, neighbor: Vec) {
    Sq(neighbor.x - self.x) + Sq(neighbor.y - self.y) / 0.49 < 729.0
  }

  /** get_acceleration, given the neighbour's position. */
  function Acceleration(m: Maths, position: Vec, velocity: Vec, neighbor: Vec): (a: real)
    requires m.Valid()
    ensures var angle := AngleWithNeighbor(m, position, velocity, neighbor);
            -0.194 <= angle <= 0.194 ==> a == BaselineAcceleration(Magnitude(m, velocity))
    ensures a == 2.0 || a == -1.2 || a == -0.8 || a == 0.4 || a == BaselineAcceleration(Magnitude(m, velocity))
    ensures var distance := Distance(m, position, neighbor);
            !(CloseEnough(m, position, neighbor) && distance > 7.9) && distance >= 4.06 ==>
              a == BaselineAcceleration(Magnitude(m, velocity))
  {
    var distance := Distance(m, position, neighbor);
    var angle := AngleWithNeighbor(m, position, velocity, neighbor);
    var inFront := -PI / 2.0 < angle < PI / 2.0;
    var baseline := BaselineAcceleration(Magnitude(m, velocity));
    if angle > 0.194 || angle < -0.194 then
      if CloseEnough(m, position, neighbor) && distance > 7.9 then
        (if inFront then 2.0 else -1.2)
      else if distance < 4.06 then
        (if inFront then -0.8 else 0.4)
      else baseline
    else baseline
  }

  /** For t >= 0, d lies strictly between -t and t exactly when d^2 < t^2. */
  lemma BetweenIffSquareBelow(d: real, t: real)
    requires 0.0 <= t
    ensures (-t < d < t) <==> Sq(d) < Sq(t)
  {
    SqNeg(d);
    if -t < d < t {
      if 0.0 <= d { SqLt(d, t); } else { SqLt(-d, t); }
    } else {
      if t <= d { SqLe(t, d); } else { SqLe(t, -d); }
    }
  }

  /** The square-root form of the test is exactly the squared ellipse. */
  lemma CloseEnoughIsEllipse(m: Maths, self: Vec, neighbor: Vec)
    requires m.Valid()
    ensures CloseEnough(m, self, neighbor) <==> InEllipse(self, neighbor)
  {
    var x0, y0 := self.x, self.y;
    var x, y := neighbor.x, neighbor.y;
    var dx, dy := x - x0, y - y0;
    var radicand := -1.0 * (x0 * x0) + 2.0 * x0 * x - x * x + 729.0;
    assert radicand == 729.0 - Sq(dx);
    assert 0.0 <= Sq(dy);
    if 0.0 <= radicand {
      var s := m.sqrt(radicand);
      assert 0.0 <= s && s * s == radicand;
      var t := 0.7 * s;
      assert Sq(t) == 0.49 * radicand;
      var y1 := 0.1 * (10.0 * y0 - 7.0 * s);
      var y2 := 0.1 * (10.0 * y0 + 7.0 * s);
      assert y1 == y0 - t && y2 == y0 + t;
      BetweenIffSquareBelow(dy, t);
      if t == 0.0 {
        assert !CloseEnough(m, self, neighbor);
      } else {
        assert y1 < y2;
        assert CloseEnough(m, self, neighbor) == StrictlyBetween(y, y1, y2);
      }
      assert Sq(dy) < 0.49 * radicand <==> Sq(dy) / 0.49 < radicand;
    }
  }

  /** A neighbour more than 27 away along x is never close enough: the radicand is negative. */
  lemma FarAlongXIsNotClose(m: Maths, self: Vec, neighbor: Vec)
    requires neighbor.x - self.x > 27.0 || neighbor.x - self.x < -27.0
    ensures !CloseEnough(m, self, neighbor)
  {
    var dx := neighbor.x - self.x;
    SqNeg(dx);
    if dx > 0.0 { SqLt(27.0, dx); } else { SqLt(27.0, -dx); }
    assert -1.0 * (self.x * self.x) + 2.0 * self.x * neighbor.x - neighbor.x * neighbor.x + 729.0
      == 729.0 - Sq(dx);
  }

  /** The case split of get_acceleration, with the test stated as the ellipse. */
  lemma AccelerationCases(m: Maths, position: Vec, velocity: Vec, neighbor: Vec)
    requires m.Valid()
    ensures var angle := AngleWithNeighbor(m, position, velocity, neighbor);
            var distance := Distance(m, position, neighbor);
            var inFront := -PI / 2.0 < angle < PI / 2.0;
            var baseline := BaselineAcceleration(Magnitude(m, velocity));
            Acceleration(m, position, velocity, neighbor)
              == if -0.194 <= angle <= 0.194 then baseline
                 else if InEllipse(position, neighbor) && distance > 7.9 then (if inFront then 2.0 else -1.2)
                 else if distance < 4.06 then (if inFront then -0.8 else 0.4)
                 else baseline
  {
    CloseEnoughIsEllipse(m, position, neighbor);
  }

  // ------------------------------------------------------------------
  // Speed change and speed cap
  // ------------------------------------------------------------------

  /** The acceleration step of update: v + v * acceleration / |v|. */
  function Accelerate(m: Maths, v: Vec, acceleration: real): Vec
    requires Magnitude(m, v) != 0.0
  {
    var speed := Magnitude(m, v);
    Vec(v.x + v.x * acceleration / speed, v.y + v.y * acceleration / speed)
  }

  /** The acceleration step scales the velocity by 1 + acceleration / |v|. */
  lemma AccelerateIsScale(m: Maths, v: Vec, acceleration: real)
    requires Magnitude(m, v) != 0.0
    ensures Accelerate(m, v, acceleration) == Scale(v, 1.0 + acceleration / Magnitude(m, v))
  {
    var speed := Magnitude(m, v);
    var q := acceleration / speed;
    assert v.x * acceleration / speed == q * v.x && v.y * acceleration / speed == q * v.y;
  }

  /** The acceleration step changes the speed by the acceleration (up to the sign of the result). */
  lemma AccelerateSpeed(m: Maths, v: Vec, acceleration: real)
    requires m.Valid() && Magnitude(m, v) != 0.0
    ensures var speed := Magnitude(m, v);
            Magnitude(m, Accelerate(m, v, acceleration))
              == if speed + acceleration >= 0.0 then speed + acceleration else -(speed + acceleration)
  {
    var speed := Magnitude(m, v);
    var k := 1.0 + acceleration / speed;
    var s := speed + acceleration;
    assert Accelerate(m, v, acceleration) == Scale(v, k) by { AccelerateIsScale(m, v, acceleration); }
    assert Magnitude(m, Scale(v, k)) == (if 0.0 <= k then k else -k) * speed by { MagnitudeScaleAbs(m, v, k); }
    assert 0.0 < speed by { MagnitudeNonNegative(m, v); }
    assert k * speed == s by { QuotientFactor(acceleration, speed); }
    assert (if 0.0 <= k then k else -k) * speed == (if 0.0 <= s then s else -s) by { AbsMul(k, speed); }
  }

  lemma QuotientFactor(a: real, s: real)
    requires s != 0.0
    ensures (1.0 + a / s) * s == s + a
  {
    assert (a / s) * s == a;
  }

  /** The speed cap of update: a velocity faster than maxSpeed is scaled back to maxSpeed. */
  function CapSpeed(m: Maths, v: Vec, maxSpeed: real): Vec
    requires 0.0 <= maxSpeed
  {
    var speed := Magnitude(m, v);
    if speed > maxSpeed then Vec(maxSpeed * v.x / speed, maxSpeed * v.y / speed) else v
  }

  lemma CapSpeedBound(m: Maths, v: Vec, maxSpeed: real)
    requires m.Valid() && 0.0 <= maxSpeed
    ensures Magnitude(m, CapSpeed(m, v, maxSpeed)) <= maxSpeed
    ensures Magnitude(m, v) <= maxSpeed ==> CapSpeed(m, v, maxSpeed) == v
    ensures Magnitude(m, v) > maxSpeed ==>
              Magnitude(m, CapSpeed(m, v, maxSpeed)) == maxSpeed
              && CapSpeed(m, v, maxSpeed) == Scale(v, maxSpeed / Magnitude(m, v))
  {
    var speed := Magnitude(m, v);
    if speed > maxSpeed {
      var k := maxSpeed / speed;
      assert CapSpeed(m, v, maxSpeed) == Scale(v, k) by {
        assert maxSpeed * v.x / speed == k * v.x && maxSpeed * v.y / speed == k * v.y;
      }
      assert 0.0 <= k by { QuotientSign(maxSpeed, speed); }
      assert Magnitude(m, Scale(v, k)) == k * speed by { MagnitudeScale(m, v, k); }
      assert k * speed == maxSpeed;
    }
  }

  // ------------------------------------------------------------------
  // Edges
  // ------------------------------------------------------------------

  /** One coordinate of bounce_from_edge_2: leaving one side re-enters from the other. */
  function Wrap(c: real, bound: real): (r: real)
    ensures 0.0 <= bound ==> 0.0 <= r <= bound
    ensures 0.0 <= c <= bound ==> r == c
  {
    if c > bound then 0.0 else if c < 0.0 then bound else c
  }

  function WrapPosition(p: Vec, width: real, height: real): Vec {
    Vec(Wrap(p.x, width), Wrap(p.y, height))
  }

  /** One coordinate of calculate_edge_vector's position: clamped to the wall it crossed. */
  function Clamp(c: real, bound: real): (r: real)
    ensures 0.0 <= bound ==> 0.0 <= r <= bound
    ensures 0.0 <= c <= bound ==> r == c
  {
    if c < 0.0 then 0.0 else if c > bound then bound else c
  }

  /** One component of calculate_edge_vector's edge vector: +1 off the low wall, -1 off the high. */
  function EdgePush(c: real, bound: real): (r: real)
    ensures r == -1.0 || r == 0.0 || r == 1.0
    ensures r == 1.0 <==> c < 0.0
    ensures 0.0 <= bound ==> (r == -1.0 <==> c > bound)
  {
    if c < 0.0 then 1.0 else if c > bound then -1.0 else 0.0
  }

  /** The edge vector is non-zero along an axis exactly when that coordinate was moved, and it
      points the way the coordinate was moved. */
  lemma EdgePushFollowsClamp(c: real, bound: real)
    ensures EdgePush(c, bound) == 0.0 <==> Clamp(c, bound) == c
    ensures EdgePush(c, bound) * (Clamp(c, bound) - c) >= 0.0
  {
  }

  /** A vector whose components are -1, 0 or 1 has squared magnitude zero only when it is zero. */
  lemma UnitNormZero(e: Vec)
    requires e.x == -1.0 || e.x == 0.0 || e.x == 1.0
    requires e.y == -1.0 || e.y == 0.0 || e.y == 1.0
    ensures NormSq(e) == 0.0 <==> e == Vec(0.0, 0.0)
  {
    assert Sq(e.x) == if e.x == 0.0 then 0.0 else 1.0;
    assert Sq(e.y) == if e.y == 0.0 then 0.0 else 1.0;
  }

  /** An edge vector whose components are -1, 0 or 1 has magnitude zero only when it is zero. */
  lemma EdgeVectorMagnitude(m: Maths, e: Vec)
    requires m.Valid()
    requires e.x == -1.0 || e.x == 0.0 || e.x == 1.0
    requires e.y == -1.0 || e.y == 0.0 || e.y == 1.0
    ensures Magnitude(m, e) == 0.0 <==> e == Vec(0.0, 0.0)
  {
    MagnitudeZero(m, e);
    UnitNormZero(e);
  }

  /** The formula of reflect: v - 2 (v . e) e. */
  function Mirror(v: Vec, e: Vec): Vec {
    Sub(v, Scale(e, 2.0 * Dot(v, e)))
  }

  lemma MirrorZero(v: Vec)
    ensures Mirror(v, Vec(0.0, 0.0)) == v
  {
  }

  /** For a unit edge vector, reflect flips the component along it, keeps the speed and undoes itself. */
  lemma MirrorUnit(v: Vec, e: Vec)
    requires Dot(e, e) == 1.0
    ensures Dot(Mirror(v, e), e) == -Dot(v, e)
    ensures NormSq(Mirror(v, e)) == NormSq(v)
    ensures Mirror(Mirror(v, e), e) == v
  {
    var d := Dot(v, e);
    var r := Mirror(v, e);
    assert Dot(r, e) == d - 2.0 * d * Dot(e, e);
    assert NormSq(r) == NormSq(v) - 4.0 * d * d + 4.0 * d * d * Dot(e, e);
  }

  // ------------------------------------------------------------------
  // Nearest neighbour
  // ------------------------------------------------------------------

  /**
   * The scan of set_closest_neighbor over ps[..n]: the index of the first position nearest to p
   * among those not marked in skip (the fish itself), or None when every one is skipped.
   */
  function NearestAmong(m: Maths, p: Vec, ps: seq<Vec>, skip: seq<bool>, n: nat): (r: Option<nat>)
    requires |skip| == |ps| && n <= |ps|
    ensures r.Some? ==> r.value < n && !skip[r.value]
  {
    if n == 0 then None
    else
      var best := NearestAmong(m, p, ps, skip, n - 1);
      if skip[n - 1] then best
      else if best.None? || Distance(m, p, ps[n - 1]) < Distance(m, p, ps[best.value]) then Some(n - 1)
      else best
  }

  /** None exactly when every candidate is skipped. */
  lemma {:induction false} NearestNoneIff(m: Maths, p: Vec, ps: seq<Vec>, skip: seq<bool>, n: nat)
    requires |skip| == |ps| && n <= |ps|
    ensures NearestAmong(m, p, ps, skip, n).None? <==> forall j :: 0 <= j < n ==> skip[j]
  {
    if n > 0 {
      NearestNoneIff(m, p, ps, skip, n - 1);
    }
  }

  /** The chosen candidate is at least as near as every other one, and strictly nearer than
      every earlier one: ties go to the first in list order. */
  lemma {:induction false} NearestIsFirstMinimum(m: Maths, p: Vec, ps: seq<Vec>, skip: seq<bool>, n: nat)
    requires |skip| == |ps| && n <= |ps|
    ensures var r := NearestAmong(m, p, ps, skip, n);
            r.Some? ==>
              && (forall j :: 0 <= j < n && !skip[j] ==> Distance(m, p, ps[r.value]) <= Distance(m, p, ps[j]))
              && (forall j :: 0 <= j < r.value && !skip[j] ==> Distance(m, p, ps[r.value]) < Distance(m, p, ps[j]))
  {
    if n > 0 {
      var best := NearestAmong(m, p, ps, skip, n - 1);
      NearestIsFirstMinimum(m, p, ps, skip, n - 1);
      if skip[n - 1] {
      } else if best.None? {
        NearestNoneIff(m, p, ps, skip, n - 1);
      } else if Distance(m, p, ps[n - 1]) < Distance(m, p, ps[best.value]) {
      } else {
      }
    }
  }

  /**
   * The loop of set_closest_neighbor: scan the positions in order, skip the fish itself and keep
   * the first one strictly nearer than the best so far.
   */
  method ScanNearest(m: Maths, p: Vec, ps: seq<Vec>, skip: seq<bool>) returns (best: Option<nat>)
    requires |skip| == |ps|
    ensures best == NearestAmong(m, p, ps, skip, |ps|)
  {
    var closestDistance := 0.0;  // stands for np.inf while best is None
    best := None;
    for i := 0 to |ps|
      invariant best == NearestAmong(m, p, ps, skip, i)
      invariant best.Some? ==> closestDistance == Distance(m, p, ps[best.value])
    {
      if skip[i] {
        continue;
      }
      var distance := Distance(m, p, ps[i]);
      if best.None? || distance < closestDistance {
        closestDistance := distance;
        best := Some(i);
      }
    }
  }

  /** The positions of a list of fish. */
  function Positions(fishes: seq<Fish>): (ps: seq<Vec>)
    reads fishes
    ensures |ps| == |fishes|
    ensures forall j :: 0 <= j < |fishes| ==> ps[j] == fishes[j].position
  {
    if fishes == [] then [] else [fishes[0].position] + Positions(fishes[1..])
  }

  function FishAt(fishes: seq<Fish>, r: Option<nat>): Fish? {
    if r.Some? && r.value < |fishes| then fishes[r.value] else null
  }

  /** What one call of Fish.update reports. */
  datatype Outcome =
    | Moved
      /** closest_neighbor is None (the fish is alone): the source fails reading its position */
    | NoNeighbor
      /** the turned velocity has magnitude zero: the source divides by zero */
    | DegenerateVelocity

  /** The random initial speed of the constructor, (np.random.rand(2) - 0.5) * 10, from the
      two draws r0, r1: draws in [0, 1) give each component in [-5, 5). */
  function InitialVelocity(r0: real, r1: real): (v: Vec)
    ensures 0.0 <= r0 < 1.0 && 0.0 <= r1 < 1.0 ==>
              -5.0 <= v.x < 5.0 && -5.0 <= v.y < 5.0
  {
    Vec((r0 - 0.5) * 10.0, (r1 - 0.5) * 10.0)
  }

  class Fish {
    var position: Vec
    var velocity: Vec
    const maxSpeed: real := 17.0
    const width: real
    const height: real
    var closestNeighbor: Fish?
    var edgeVector: Vec

    /** The initial velocity is (np.random.rand(2) - 0.5) * 10, given here as the draws r0, r1. */
    constructor (x: real, y: real, width: real, height: real, r0: real, r1: real)
      ensures position == Vec(x, y)
      ensures velocity == Vec((r0 - 0.5) * 10.0, (r1 - 0.5) * 10.0)
      ensures this.width == width && this.height == height
      ensures closestNeighbor == null && edgeVector == Vec(0.0, 0.0)
    {
      position := Vec(x, y);
      velocity := InitialVelocity(r0, r1);
      this.width := width;
      this.height := height;
      closestNeighbor := null;
      edgeVector := Vec(0.0, 0.0);
    }

    function SelfMask(fishes: seq<Fish>): (mask: seq<bool>)
      ensures |mask| == |fishes|
      ensures forall j :: 0 <= j < |fishes| ==> (mask[j] <==> fishes[j] == this)
    {
      seq(|fishes|, j requires 0 <= j < |fishes| => fishes[j] == this)
    }

    /** set_closest_neighbor: the first fish of the list nearest to this one, itself excluded. */
    method SetClosestNeighbor(fishes: seq<Fish>, m: Maths)
      modifies this`closestNeighbor
      ensures closestNeighbor
              == FishAt(fishes, NearestAmong(m, position, old(Positions(fishes)), SelfMask(fishes), |fishes|))
      ensures closestNeighbor != this
      ensures closestNeighbor == null <==> forall j :: 0 <= j < |fishes| ==> fishes[j] == this
      ensures closestNeighbor != null ==> closestNeighbor in fishes
    {
      var ps := Positions(fishes);
      var mask := SelfMask(fishes);
      var best := ScanNearest(m, position, ps, mask);
      NearestNoneIff(m, position, ps, mask, |fishes|);
      closestNeighbor := FishAt(fishes, best);
    }

    /** reflect: mirror a vector in the current edge vector. No wall crossed leaves it alone;
        a unit edge vector flips the component along it and keeps the speed (MirrorUnit). */
    function Reflect(v: Vec): (r: Vec)
      reads this`edgeVector
      ensures edgeVector == Vec(0.0, 0.0) ==> r == v
      ensures Dot(edgeVector, edgeVector) == 1.0 ==>
                Dot(r, edgeVector) == -Dot(v, edgeVector) && NormSq(r) == NormSq(v)
    {
      var e := edgeVector;
      if e == Vec(0.0, 0.0) then
        MirrorZero(v);
        Mirror(v, e)
      else if Dot(e, e) == 1.0 then
        MirrorUnit(v, e);
        Mirror(v, e)
      else
        Mirror(v, e)
    }

    /** calculate_edge_vector: clamp the position into the box and record which walls were crossed. */
    method CalculateEdgeVector()
      modifies this`position, this`edgeVector
      ensures position == Vec(Clamp(old(position).x, width), Clamp(old(position).y, height))
      ensures edgeVector == Vec(EdgePush(old(position).x, width), EdgePush(old(position).y, height))
      ensures 0.0 <= width && 0.0 <= height ==>
                0.0 <= position.x <= width && 0.0 <= position.y <= height
    {
      var delta := 0.0;
      var edge := Vec(0.0, 0.0);
      if position.x < 0.0 + delta {
        position := position.(x := 0.0);
        edge := edge.(x := 1.0);
      } else if position.x > width - delta {
        position := position.(x := width);
        edge := edge.(x := -1.0);
      }
      if position.y < 0.0 + delta {
        position := position.(y := 0.0);
        edge := edge.(y := 1.0);
      } else if position.y > height - delta {
        position := position.(y := height);
        edge := edge.(y := -1.0);
      }
      edgeVector := edge;
    }

    /** bounce_from_edge: after clamping, reflect the velocity when a wall was crossed. */
    method BounceFromEdge(m: Maths) returns (bounced: bool)
      requires m.Valid()
      modifies this`position, this`edgeVector, this`velocity
      ensures position == Vec(Clamp(old(position).x, width), Clamp(old(position).y, height))
      ensures edgeVector == Vec(EdgePush(old(position).x, width), EdgePush(old(position).y, height))
      ensures bounced <==> edgeVector != Vec(0.0, 0.0)
      ensures velocity == if bounced then Mirror(old(velocity), edgeVector) else old(velocity)
    {
      ghost var v0 := velocity;
      CalculateEdgeVector();
      assert velocity == v0;
      var edge := edgeVector;
      var magnitude := Magnitude(m, edge);
      assert magnitude == 0.0 <==> edge == Vec(0.0, 0.0) by {
        EdgeVectorMagnitude(m, edge);
      }
      if magnitude != 0.0 {
        velocity := Reflect(velocity);
        return true;
      }
      return false;
    }

    /** bounce_from_edge_2: wrap the position around the box; it never reports a bounce. */
    method BounceFromEdge2() returns (bounced: bool)
      modifies this`position
      ensures !bounced
      ensures position == WrapPosition(old(position), width, height)
      ensures 0.0 <= width && 0.0 <= height ==>
                0.0 <= position.x <= width && 0.0 <= position.y <= height
    {
      if position.x > width {
        position := position.(x := 0.0);
      } else if position.x < 0.0 {
        position := position.(x := width);
      }
      if position.y > height {
        position := position.(y := 0.0);
      } else if position.y < 0.0 {
        position := position.(y := height);
      }
      return false;
    }

    /**
     * update: choose the nearest neighbour, wrap around the edges, turn and accelerate relative
     * to the neighbour, cap the speed at maxSpeed and move by the velocity.
     */
    method Update(fishes: seq<Fish>, m: Maths) returns (outcome: Outcome)
      requires m.Valid()
      modifies this`closestNeighbor, this`position, this`velocity
      ensures edgeVector == old(edgeVector)
      ensures closestNeighbor
              == FishAt(fishes, NearestAmong(m, old(position), old(Positions(fishes)), SelfMask(fishes), |fishes|))
      ensures outcome == NoNeighbor <==> closestNeighbor == null
      ensures closestNeighbor == null ==>
                position == WrapPosition(old(position), width, height) && velocity == old(velocity)
      ensures closestNeighbor != null ==>
                var start := WrapPosition(old(position), width, height);
                var neighbor := closestNeighbor.position;
                var turned := Rotate(m, old(velocity), TurningAngle(m, AngleWithNeighbor(m, start, old(velocity), neighbor)));
                if Magnitude(m, turned) == 0.0 then
                  outcome == DegenerateVelocity && position == start && velocity == turned
                else
                  && outcome == Moved
                  && velocity == CapSpeed(m, Accelerate(m, turned, Acceleration(m, start, old(velocity), neighbor)), maxSpeed)
                  && position == Add(start, velocity)
      ensures outcome == Moved ==> Magnitude(m, velocity) <= maxSpeed
    {
      SetClosestNeighbor(fishes, m);
      var bounced := BounceFromEdge2();
      if !bounced {
        if closestNeighbor == null {
          return NoNeighbor;
        }
        var neighbor := closestNeighbor.position;
        var turningAngle := TurningAngle(m, AngleWithNeighbor(m, position, velocity, neighbor));
        var acceleration := Acceleration(m, position, velocity, neighbor);
        var turned := Rotate(m, velocity, turningAngle);
        if Magnitude(m, turned) == 0.0 {
          velocity := turned;
          return DegenerateVelocity;
        }
        velocity := Accelerate(m, turned, acceleration);
      }
      CapSpeedBound(m, velocity, maxSpeed);
      velocity := CapSpeed(m, velocity, maxSpeed);
      position := Add(position, velocity);
      return Moved;
    }
  }
}
