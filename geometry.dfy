/** Plane geometry of the arena: points, axis-aligned boxes, the clamp and the
    easing step, angle arithmetic, and the <cmath> functions the game calls,
    which the model takes as parameters instead of interpreting them. */
module Geometry {

  /** A point or a displacement (sf::Vector2f with `real` in place of `float`). */
  datatype Vec = Vec(x: real, y: real) {
    function Plus(o: Vec): Vec { Vec(x + o.x, y + o.y) }
    function Minus(o: Vec): Vec { Vec(x - o.x, y - o.y) }
    function Scale(k: real): Vec { Vec(x * k, y * k) }
  }

  const Zero: Vec := Vec(0.0, 0.0)

  /** The arena: `worldW` x `worldH` world units. */
  const WorldW: real := 1920.0
  const WorldH: real := 1080.0

  /** Squared Euclidean distance; the source compares distances with constants,
      and over the reals sqrt(d) > c holds exactly when d > c * c for c >= 0. */
  function SqDist(a: Vec, b: Vec): real {
    (a.x - b.x) * (a.x - b.x) + (a.y - b.y) * (a.y - b.y)
  }

  /** An axis-aligned rectangle (sf::FloatRect as left/top/right/bottom). */
  datatype Box = Box(left: real, top: real, right: real, bottom: real)

  /** The bounds of a shape whose origin is its centre and whose half extents are hw, hh. */
  function CenteredBox(c: Vec, hw: real, hh: real): Box {
    Box(c.x - hw, c.y - hh, c.x + hw, c.y + hh)
  }

  function Max(a: real, b: real): real { if a < b then b else a }
  function Min(a: real, b: real): real { if a < b then a else b }

  /** `a.findIntersection(b)` is non-empty: the intersection has positive width and height. */
  predicate Overlaps(a: Box, b: Box) {
    Max(a.left, b.left) < Min(a.right, b.right) && Max(a.top, b.top) < Min(a.bottom, b.bottom)
  }

  /** Overlap is a symmetric relation, whichever shape asks. */
  lemma OverlapsSymmetric(a: Box, b: Box)
    ensures Overlaps(a, b) == Overlaps(b, a)
  {
  }

  function Abs(v: real): real { if v < 0.0 then -v else v }

  /** Distance between two points of the real line. */
  function Dist(a: real, b: real): real { Abs(a - b) }

  /** std::clamp(v, lo, hi): the point of [lo, hi] nearest to v. */
  function Clamp(v: real, lo: real, hi: real): (r: real)
    requires lo <= hi
    ensures lo <= r <= hi
    ensures lo <= v <= hi ==> r == v
    ensures forall w :: lo <= w <= hi ==> Dist(r, v) <= Dist(w, v)
  {
    if v < lo then lo else if hi < v then hi else v
  }

  /** Keep a disc of the given radius inside a width x height arena. */
  function ClampToArena(p: Vec, width: real, height: real, radius: real): (q: Vec)
    requires 2.0 * radius <= width && 2.0 * radius <= height
    ensures radius <= q.x <= width - radius && radius <= q.y <= height - radius
    ensures radius <= p.x <= width - radius && radius <= p.y <= height - radius ==> q == p
  {
    Vec(Clamp(p.x, radius, width - radius), Clamp(p.y, radius, height - radius))
  }

  /** The easing rates the game uses: 5 % of the remaining way per frame
      toward a survival stage or the centre, 8 % toward a phase's staging
      point, 1.5 % for the centre that follows the player. */
  datatype Gain = StageGain | WarningGain | HomingGain

  function Rate(g: Gain): (r: real)
    ensures 0.0 < r < 1.0
  {
    match g
    case StageGain => 0.05
    case WarningGain => 0.08
    case HomingGain => 0.015
  }

  /** The share of v that one easing step covers. Each rate is written as
      its own numeral, which keeps the step linear arithmetic. */
  function Part(g: Gain, v: real): (r: real)
    ensures r == v * Rate(g)
  {
    match g
    case StageGain => v * 0.05
    case WarningGain => v * 0.08
    case HomingGain => v * 0.015
  }

  /** One exponential-easing step, `p += (target - p) * gain`. */
  function Ease(p: Vec, target: Vec, g: Gain): Vec {
    Vec(p.x + Part(g, target.x - p.x), p.y + Part(g, target.y - p.y))
  }

  /** Each easing step leaves the fraction 1 - gain of the offset from the
      target, so the squared distance shrinks by (1 - gain)^2, and the step
      lands on the target only from the target itself. */
  lemma EaseShrinksOffset(p: Vec, target: Vec, g: Gain)
    ensures Ease(p, target, g).Minus(target) == p.Minus(target).Scale(1.0 - Rate(g))
    ensures SqDist(Ease(p, target, g), target) == (1.0 - Rate(g)) * (1.0 - Rate(g)) * SqDist(p, target)
    ensures Ease(p, target, g) == target <==> p == target
  {
    var d := p.Minus(target);
    var k := 1.0 - Rate(g);
    assert Ease(p, target, g).Minus(target) == d.Scale(k);
    calc {
      SqDist(Ease(p, target, g), target);
      (d.x * k) * (d.x * k) + (d.y * k) * (d.y * k);
      k * k * (d.x * d.x + d.y * d.y);
    }
    if Ease(p, target, g) == target {
      match g
      case StageGain => assert d.x * 0.95 == 0.0 && d.y * 0.95 == 0.0;
      case WarningGain => assert d.x * 0.92 == 0.0 && d.y * 0.92 == 0.0;
      case HomingGain => assert d.x * 0.985 == 0.0 && d.y * 0.985 == 0.0;
    }
  }

  /** The <cmath> functions the game calls, left uninterpreted: a model of the
      game is given any four functions for them. Angles for cos, sin and atan2
      are in radians, as in C. */
  datatype Trig = Trig(cos: real -> real, sin: real -> real, atan2: (real, real) -> real, sqrt: real -> real)

  /** The single-precision constant the source declares as PI. */
  const PI: real := 3.14159265

  /** A velocity of the given speed along a heading in degrees (the Bullet constructor's
      `radians = angle * (PI / 180)` and `{cos(radians) * speed, sin(radians) * speed}`). */
  function Polar(env: Trig, angleDeg: real, speed: real): Vec {
    var radians := angleDeg * (PI / 180.0);
    Vec(env.cos(radians) * speed, env.sin(radians) * speed)
  }

  /** The heading in degrees from `from` to `to`: `atan2(dy, dx) * 180 / PI`. */
  function BearingDeg(env: Trig, from: Vec, to: Vec): real {
    env.atan2(to.y - from.y, to.x - from.x) * 180.0 / PI
  }

  /** Truncation toward zero, as a C cast from float to int. */
  function Trunc(v: real): int {
    if v >= 0.0 then v.Floor else -((-v).Floor)
  }

  /** C's fmod(v, 360): the remainder of truncating division, with the sign of v. */
  function FMod360(v: real): (r: real)
    ensures v >= 0.0 ==> 0.0 <= r < 360.0
    ensures v < 0.0 ==> -360.0 < r <= 0.0
  {
    v - 360.0 * Trunc(v / 360.0) as real
  }

  /** The angle v reduced into [0, 360). */
  function Wrap360(v: real): (r: real)
    ensures 0.0 <= r < 360.0
  {
    v - 360.0 * (v / 360.0).Floor as real
  }

  /** The angle between two headings in degrees, measured the short way round. */
  function CircularDistance(a: real, b: real): (r: real)
    ensures 0.0 <= r <= 180.0
  {
    var d := Wrap360(a - b);
    if d <= 180.0 then d else 360.0 - d
  }

  /** Floor is the unique integer k with k <= v < k + 1. */
  lemma FloorUnique(v: real, k: int)
    requires k as real <= v < k as real + 1.0
    ensures v.Floor == k
  {
  }

  /** The aimed-gap ring's filter `|fmod(i - aP + 540, 360) - 180|` is the circular
      distance between heading i and the player bearing aP, whenever the dividend
      is non-negative (atan2 gives bearings of at most 180 degrees, and i >= 0). */
  lemma {:induction false} GapFilterIsCircularDistance(i: real, aP: real)
    requires i - aP + 540.0 >= 0.0
    ensures Abs(FMod360(i - aP + 540.0) - 180.0) == CircularDistance(i, aP)
  {
    var e := i - aP;
    var k := (e / 360.0).Floor;
    var d := Wrap360(e);
    assert e == d + 360.0 * k as real;
    var x := e + 540.0;
    assert Trunc(x / 360.0) == (x / 360.0).Floor;
    if d < 180.0 {
      FloorUnique(x / 360.0, k + 1);
      assert FMod360(x) == d + 180.0;
    } else {
      FloorUnique(x / 360.0, k + 2);
      assert FMod360(x) == d - 180.0;
    }
  }
}
