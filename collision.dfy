/**
 * SimpleCollisionSystem of src/framework/systems/physics/collision/collision_system.cpp:
 * the box-box overlap test, the circle-box contact test, the compass
 * classification of a contact vector, and the per-frame pass Breakout runs
 * over the current level's bricks, the ball and the paddle.
 *
 * Coordinates are exact reals. A length is compared through its square, and
 * VectorDirection works on the target itself rather than on its normalised
 * copy: DirectionScaleInvariant shows that scaling by a positive factor
 * never changes the direction chosen.
 */
module Collision {
  import opened Common
  import opened GameObjects
  import BreakoutGame

  /** The compass directions. NoMatch is the value the unsigned -1 that
   *  VectorDirection starts from turns into when no direction wins; every
   *  branch of doCollisions treats it like DOWN. */
  datatype Direction = Up | Right | Down | Left | NoMatch

  /** The (hit, direction, difference) tuple of checkCollision2. */
  datatype Collision = Collision(hit: bool, dir: Direction, diff: Vec2)

  function Abs(x: real): real { if x < 0.0 then -x else x }

  function Max(a: real, b: real): real { if a < b then b else a }

  // ---------------------------------------------------------------------
  // checkCollision1: box against box
  // ---------------------------------------------------------------------

  /** Point p lies in the closed box from o's translation to translation + scale. */
  predicate InBox(p: Vec2, o: GameObject)
  {
    var t, s := o.transform2d.translation, o.transform2d.scale;
    t.x <= p.x <= t.x + s.x && t.y <= p.y <= t.y + s.y
  }

  /** checkCollision1: the boxes overlap on the x axis and on the y axis. */
  predicate CheckCollision1(one: GameObject, two: GameObject)
  {
    var a, sa := one.transform2d.translation, one.transform2d.scale;
    var b, sb := two.transform2d.translation, two.transform2d.scale;
    var collisionX := a.x + sa.x >= b.x && b.x + sb.x >= a.x;
    var collisionY := a.y + sa.y >= b.y && b.y + sb.y >= a.y;
    collisionX && collisionY
  }

  lemma CheckCollision1Symmetric(one: GameObject, two: GameObject)
    ensures CheckCollision1(one, two) == CheckCollision1(two, one)
  {
  }

  /** For boxes of non-negative size, the test holds exactly when the two
   *  boxes share a point. */
  lemma CheckCollision1CommonPoint(one: GameObject, two: GameObject)
    requires one.transform2d.scale.x >= 0.0 && one.transform2d.scale.y >= 0.0
    requires two.transform2d.scale.x >= 0.0 && two.transform2d.scale.y >= 0.0
    ensures CheckCollision1(one, two) <==> exists p :: InBox(p, one) && InBox(p, two)
  {
    if CheckCollision1(one, two) {
      var a, b := one.transform2d.translation, two.transform2d.translation;
      var p := Vec2(Max(a.x, b.x), Max(a.y, b.y));
      assert InBox(p, one) && InBox(p, two);
    }
  }

  // ---------------------------------------------------------------------
  // checkCollision2: circle against box
  // ---------------------------------------------------------------------

  /** glm::clamp on one component: min(max(v, lo), hi). */
  function Clamp(v: real, lo: real, hi: real): (c: real)
    ensures lo <= hi ==> lo <= c <= hi
    ensures lo <= v <= hi ==> c == v
  {
    var low := if v < lo then lo else v;
    if hi < low then hi else low
  }

  lemma SquareMonotone(a: real, b: real)
    requires 0.0 <= a <= b
    ensures a * a <= b * b
  {
    assert a * a <= a * b;
    assert a * b <= b * b;
  }

  /** Multiplying by a positive factor keeps the sign. */
  lemma PositiveFactor(k: real, x: real)
    requires k > 0.0
    ensures (k * x > 0.0 <==> x > 0.0) && (k * x < 0.0 <==> x < 0.0) && (k * x == 0.0 <==> x == 0.0)
  {
    if x > 0.0 {
      assert k * x > 0.0;
    } else if x < 0.0 {
      assert k * (-x) > 0.0;
    }
  }

  lemma SquareStrictlyMonotone(a: real, b: real)
    requires 0.0 <= a < b
    ensures a * a < b * b
  {
    PositiveFactor(b, b - a);
    assert b * b - a * b == b * (b - a);
    if a > 0.0 {
      PositiveFactor(a, b - a);
      assert a * b - a * a == a * (b - a);
    }
  }

  /** Dividing by a positive number keeps the sign. */
  lemma PositiveDivisor(x: real, d: real)
    requires d > 0.0
    ensures (x / d > 0.0 <==> x > 0.0) && (x / d < 0.0 <==> x < 0.0)
  {
    assert x == d * (x / d);
    PositiveFactor(d, x / d);
  }

  /** A component of a vector within radius r is at most r in size. */
  lemma ComponentWithin(a: real, b: real, r: real)
    requires r >= 0.0 && a * a + b * b <= r * r
    ensures Abs(a) <= r
  {
    if Abs(a) > r {
      SquareStrictlyMonotone(r, Abs(a));
    }
  }

  /** The clamped value is a point of [lo, hi] nearest to v. */
  lemma ClampNearest(v: real, lo: real, hi: real, q: real)
    requires lo <= q <= hi
    ensures (Clamp(v, lo, hi) - v) * (Clamp(v, lo, hi) - v) <= (q - v) * (q - v)
  {
    var c := Clamp(v, lo, hi);
    if v < lo {
      SquareMonotone(c - v, q - v);
    } else if hi < v {
      SquareMonotone(v - c, v - q);
      assert (c - v) * (c - v) == (v - c) * (v - c);
      assert (q - v) * (q - v) == (v - q) * (v - q);
    } else {
      assert c == v;
      assert (q - v) * (q - v) >= 0.0;
    }
  }

  /** The centre of the ball: its translation moved by the radius on both axes. */
  function BallCenter(ball: GameObject): Vec2
    requires ball.ball.Some?
  {
    var t, r := ball.transform2d.translation, ball.ball.value.radius;
    Vec2(t.x + r, t.y + r)
  }

  function HalfExtents(box: GameObject): Vec2
  {
    Vec2(box.transform2d.scale.x / 2.0, box.transform2d.scale.y / 2.0)
  }

  function BoxCenter(box: GameObject): Vec2
  {
    var t, h := box.transform2d.translation, HalfExtents(box);
    Vec2(t.x + h.x, t.y + h.y)
  }

  /** checkCollision2 for a ball `one` and a box `two`: the box point nearest
   *  the ball's centre is found by clamping, and the contact holds when it is
   *  within the radius; the length test is made on squares. */
  function CheckCollision2(one: GameObject, two: GameObject): (c: Collision)
    requires one.ball.Some?
    ensures !c.hit ==> c == Collision(false, Up, Zero2)
    ensures c.hit ==> c.dir == DirectionOf(c.diff) && one.ball.value.radius >= 0.0 &&
                      c.diff.LengthSquared() <= one.ball.value.radius * one.ball.value.radius
  {
    var center, r := BallCenter(one), one.ball.value.radius;
    var h, boxCenter := HalfExtents(two), BoxCenter(two);
    var difference := center.Minus(boxCenter);
    var clamped := Vec2(Clamp(difference.x, -h.x, h.x), Clamp(difference.y, -h.y, h.y));
    var closest := boxCenter.Plus(clamped);
    var diff := closest.Minus(center);
    if r >= 0.0 && diff.LengthSquared() <= r * r then Collision(true, DirectionOf(diff), diff)
    else Collision(false, Up, Zero2)
  }

  /** The clamped offset stays within the half extents of a box of non-negative size. */
  lemma ClampedWithinHalfExtents(d: Vec2, box: GameObject)
    requires box.transform2d.scale.x >= 0.0 && box.transform2d.scale.y >= 0.0
    ensures var h := HalfExtents(box);
      -h.x <= Clamp(d.x, -h.x, h.x) <= h.x && -h.y <= Clamp(d.y, -h.y, h.y) <= h.y
  {
  }

  /** The box point checkCollision2 measures: the box centre moved by the clamped difference. */
  function ClosestPoint(one: GameObject, two: GameObject): (p: Vec2)
    requires one.ball.Some?
    ensures two.transform2d.scale.x >= 0.0 && two.transform2d.scale.y >= 0.0 ==> InBox(p, two)
  {
    var h, boxCenter := HalfExtents(two), BoxCenter(two);
    var d := BallCenter(one).Minus(boxCenter);
    Vec2(boxCenter.x + Clamp(d.x, -h.x, h.x), boxCenter.y + Clamp(d.y, -h.y, h.y))
  }

  lemma {:induction false} ClosestIsDiff(one: GameObject, two: GameObject)
    requires one.ball.Some?
    ensures var r := one.ball.value.radius;
      CheckCollision2(one, two).hit <==>
      r >= 0.0 && ClosestPoint(one, two).Minus(BallCenter(one)).LengthSquared() <= r * r
  {
  }

  /** No box point is nearer the ball's centre than the one checkCollision2 measures. */
  lemma ClosestIsNearest(one: GameObject, two: GameObject, p: Vec2)
    requires one.ball.Some? && InBox(p, two)
    ensures ClosestPoint(one, two).Minus(BallCenter(one)).LengthSquared() <= p.Minus(BallCenter(one)).LengthSquared()
  {
    var center, h, boxCenter := BallCenter(one), HalfExtents(two), BoxCenter(two);
    var d := center.Minus(boxCenter);
    var q := p.Minus(boxCenter);
    ClampNearest(d.x, -h.x, h.x, q.x);
    ClampNearest(d.y, -h.y, h.y, q.y);
    var cx, cy := Clamp(d.x, -h.x, h.x) - d.x, Clamp(d.y, -h.y, h.y) - d.y;
    assert ClosestPoint(one, two).Minus(center) == Vec2(cx, cy);
    assert p.Minus(center) == Vec2(q.x - d.x, q.y - d.y);
  }

  /** A hit is witnessed by the point checkCollision2 measures. */
  lemma ReachFromHit(one: GameObject, two: GameObject)
    requires one.ball.Some? && two.transform2d.scale.x >= 0.0 && two.transform2d.scale.y >= 0.0
    requires CheckCollision2(one, two).hit
    ensures var r, p := one.ball.value.radius, ClosestPoint(one, two);
      r >= 0.0 && InBox(p, two) && p.Minus(BallCenter(one)).LengthSquared() <= r * r
  {
    ClosestIsDiff(one, two);
  }

  /** Any box point within the radius makes checkCollision2 report a hit. */
  lemma HitFromReach(one: GameObject, two: GameObject, p: Vec2)
    requires one.ball.Some? && InBox(p, two)
    requires var r := one.ball.value.radius; r >= 0.0 && p.Minus(BallCenter(one)).LengthSquared() <= r * r
    ensures CheckCollision2(one, two).hit
  {
    ClosestIsNearest(one, two, p);
    ClosestIsDiff(one, two);
  }

  /** Some point of the box lies within the radius of the ball's centre. */
  ghost predicate WithinReach(one: GameObject, two: GameObject)
    requires one.ball.Some?
  {
    var r := one.ball.value.radius;
    r >= 0.0 && exists p :: InBox(p, two) && p.Minus(BallCenter(one)).LengthSquared() <= r * r
  }

  /** Every hit checkCollision2 reports is a real contact. */
  lemma CheckCollision2Sound(one: GameObject, two: GameObject)
    requires one.ball.Some? && two.transform2d.scale.x >= 0.0 && two.transform2d.scale.y >= 0.0
    ensures CheckCollision2(one, two).hit ==> WithinReach(one, two)
  {
    var r := one.ball.value.radius;
    if CheckCollision2(one, two).hit {
      ReachFromHit(one, two);
      var p := ClosestPoint(one, two);
      assert InBox(p, two) && p.Minus(BallCenter(one)).LengthSquared() <= r * r;
    }
  }
  /** Every real contact is reported as a hit. */
  lemma CheckCollision2Complete(one: GameObject, two: GameObject)
    requires one.ball.Some? && two.transform2d.scale.x >= 0.0 && two.transform2d.scale.y >= 0.0
    ensures WithinReach(one, two) ==> CheckCollision2(one, two).hit
  {
    var r := one.ball.value.radius;
    if WithinReach(one, two) {
      var p :| InBox(p, two) && p.Minus(BallCenter(one)).LengthSquared() <= r * r;
      HitFromReach(one, two, p);
    }
  }

  /** For a box of non-negative size, the ball touches the box exactly when
   *  some point of the box lies within the radius of the ball's centre. */
  lemma CheckCollision2Reach(one: GameObject, two: GameObject)
    requires one.ball.Some? && two.transform2d.scale.x >= 0.0 && two.transform2d.scale.y >= 0.0
    ensures CheckCollision2(one, two).hit <==> WithinReach(one, two)
  {
    CheckCollision2Sound(one, two);
    CheckCollision2Complete(one, two);
  }

  // ---------------------------------------------------------------------
  // VectorDirection: the compass entry best aligned with a vector
  // ---------------------------------------------------------------------

  /** The compass of VectorDirection: up, right, down, left. */
  const Compass: seq<Vec2> := [Vec2(0.0, 1.0), Vec2(1.0, 0.0), Vec2(0.0, -1.0), Vec2(-1.0, 0.0)]

  /** The dot product of a vector with compass entry i, written out: the
   *  compass entries are unit axis vectors. */
  function CompassDot(t: Vec2, i: nat): real
    requires i < 4
  {
    if i == 0 then t.y else if i == 1 then t.x else if i == 2 then -t.y else -t.x
  }

  lemma CompassDotIsDot(t: Vec2, i: nat)
    requires i < 4
    ensures t.Dot(Compass[i]) == CompassDot(t, i)
  {
    var c := Compass[i];
    assert t.Dot(c) == t.x * c.x + t.y * c.y;
  }

  function DirectionAt(i: nat): (d: Direction)
    requires i < 4
    ensures d != NoMatch && Index(d) == i
  {
    [Up, Right, Down, Left][i]
  }

  /** The compass position of a direction. */
  function Index(d: Direction): nat
    requires d != NoMatch
  {
    match d
    case Up => 0
    case Right => 1
    case Down => 2
    case Left => 3
  }

  /** The direction VectorDirection holds and its running maximum. */
  datatype Best = Best(dir: Direction, max: real)

  /** The best match and the running maximum after the first n compass
   *  entries: an entry replaces the best only with a strictly larger dot
   *  product, starting from 0 and no match. */
  function Scan(target: Vec2, n: nat): Best
    requires n <= 4
  {
    if n == 0 then Best(NoMatch, 0.0)
    else
      Step(Scan(target, n - 1), CompassDot(target, n - 1), n - 1)
  }

  /** One iteration of VectorDirection's loop, at compass entry i. */
  function Step(prev: Best, dot: real, i: nat): Best
    requires i < 4
  {
    if dot > prev.max then Best(DirectionAt(i), dot) else prev
  }

  lemma CompassDotScaled(t: Vec2, i: nat, k: real)
    requires i < 4
    ensures CompassDot(t.Scaled(k), i) == k * CompassDot(t, i)
  {
    if i == 2 {
      assert -(k * t.y) == k * -t.y;
    } else if i == 3 {
      assert -(k * t.x) == k * -t.x;
    }
  }

  function DirectionOf(target: Vec2): Direction
  {
    Scan(target, 4).dir
  }

  /** After n entries the running maximum is at least every dot product seen
   *  and at least 0; no match is held exactly while none was positive, and a
   *  held direction is the first entry reaching the maximum. */
  lemma {:induction false} ScanArgmax(target: Vec2, n: nat)
    requires n <= 4
    ensures var best, max := Scan(target, n).dir, Scan(target, n).max;
      max >= 0.0 &&
      (forall j :: 0 <= j < n ==> CompassDot(target, j) <= max) &&
      (best == NoMatch <==> max == 0.0) &&
      (best != NoMatch ==>
        Index(best) < n && CompassDot(target, Index(best)) == max &&
        forall j :: 0 <= j < Index(best) ==> CompassDot(target, j) < max)
  {
    if n > 0 {
      ScanArgmax(target, n - 1);
    }
  }

  /** The sign of the contact vector on the axis its direction names. */
  lemma DirectionSign(v: Vec2)
    ensures DirectionOf(v) == Up ==> v.y > 0.0
    ensures DirectionOf(v) == Right ==> v.x > 0.0
    ensures DirectionOf(v) == Down ==> v.y < 0.0
    ensures DirectionOf(v) == Left ==> v.x < 0.0
    ensures DirectionOf(v) == NoMatch ==> v == Zero2
  {
    ScanArgmax(v, 4);
    if DirectionOf(v) == NoMatch {
      assert CompassDot(v, 0) <= 0.0 && CompassDot(v, 1) <= 0.0;
      assert CompassDot(v, 2) <= 0.0 && CompassDot(v, 3) <= 0.0;
    }
  }

  /** VectorDirection finds no match exactly for the zero vector. */
  lemma DirectionNoMatch(target: Vec2)
    ensures DirectionOf(target) == NoMatch <==> target == Zero2
  {
    DirectionSign(target);
  }

  /** A direction found has a positive dot product with the target, beats
   *  every earlier compass entry strictly and every later one at least
   *  weakly. */
  lemma DirectionOfArgmax(target: Vec2)
    ensures DirectionOf(target) != NoMatch ==>
      var k := Index(DirectionOf(target));
      target.Dot(Compass[k]) > 0.0 &&
      (forall j :: 0 <= j < k ==> target.Dot(Compass[j]) < target.Dot(Compass[k])) &&
      (forall j :: k < j < 4 ==> target.Dot(Compass[j]) <= target.Dot(Compass[k]))
  {
    ScanArgmax(target, 4);
    forall j | 0 <= j < 4
      ensures target.Dot(Compass[j]) == CompassDot(target, j)
    {
      CompassDotIsDot(target, j);
    }
  }

  lemma ScaledCompare(x: real, y: real, a: real, b: real, k: real)
    requires k > 0.0 && x == k * a && y == k * b
    ensures x > y <==> a > b
  {
    PositiveFactor(k, a - b);
    assert k * a - k * b == k * (a - b);
  }

  /** Two vectors whose compass dot products compare alike, with each other
   *  and with 0. */
  predicate SameOrder(t: Vec2, u: Vec2)
  {
    (forall i, j | 0 <= i < 4 && 0 <= j < 4 :: CompassDot(t, i) > CompassDot(t, j) <==> CompassDot(u, i) > CompassDot(u, j)) &&
    (forall i | 0 <= i < 4 :: CompassDot(t, i) > 0.0 <==> CompassDot(u, i) > 0.0)
  }

  /** The scan only compares dot products, so vectors in the same order find
   *  the same direction. */
  lemma {:induction false} ScanSameOrder(t: Vec2, u: Vec2, n: nat)
    requires n <= 4 && SameOrder(t, u)
    ensures Scan(t, n).dir == Scan(u, n).dir
  {
    if n > 0 {
      ScanSameOrder(t, u, n - 1);
      ScanArgmax(t, n - 1);
      ScanArgmax(u, n - 1);
    }
  }

  lemma ScaledOrder(t: Vec2, k: real, i: nat, j: nat)
    requires k > 0.0 && i < 4 && j < 4
    ensures CompassDot(t.Scaled(k), i) > CompassDot(t.Scaled(k), j) <==> CompassDot(t, i) > CompassDot(t, j)
  {
    CompassDotScaled(t, i, k);
    CompassDotScaled(t, j, k);
    ScaledCompare(CompassDot(t.Scaled(k), i), CompassDot(t.Scaled(k), j), CompassDot(t, i), CompassDot(t, j), k);
  }

  lemma ScaledSign(t: Vec2, k: real, i: nat)
    requires k > 0.0 && i < 4
    ensures CompassDot(t.Scaled(k), i) > 0.0 <==> CompassDot(t, i) > 0.0
  {
    CompassDotScaled(t, i, k);
    ScaledCompare(CompassDot(t.Scaled(k), i), 0.0, CompassDot(t, i), 0.0, k);
  }

  /** Normalising the target first, as the engine does, scales it by a
   *  positive factor and so leaves the direction unchanged. */
  lemma DirectionScaleInvariant(target: Vec2, k: real)
    requires k > 0.0
    ensures DirectionOf(target.Scaled(k)) == DirectionOf(target)
  {
    var scaled := target.Scaled(k);
    forall i, j | 0 <= i < 4 && 0 <= j < 4
      ensures CompassDot(scaled, i) > CompassDot(scaled, j) <==> CompassDot(target, i) > CompassDot(target, j)
    {
      ScaledOrder(target, k, i, j);
    }
    forall i | 0 <= i < 4
      ensures CompassDot(scaled, i) > 0.0 <==> CompassDot(target, i) > 0.0
    {
      ScaledSign(target, k, i);
    }
    ScanSameOrder(scaled, target, 4);
  }

  /** VectorDirection: the loop over the four compass entries. */
  method VectorDirection(target: Vec2) returns (d: Direction)
    ensures d == DirectionOf(target)
  {
    var max := 0.0;
    d := NoMatch;
    for i := 0 to 4
      invariant Best(d, max) == Scan(target, i)
    {
      var dotProduct := target.Dot(Compass[i]);
      CompassDotIsDot(target, i);
      if dotProduct > max {
        max := dotProduct;
        d := DirectionAt(i);
      }
    }
  }

  // ---------------------------------------------------------------------
  // doCollisions
  // ---------------------------------------------------------------------

  /** Collision resolution for the ball: a horizontal contact reverses the x
   *  velocity and pushes the ball back along x by the penetration, any other
   *  contact does the same along y. */
  function Bounce(ball: GameObject, c: Collision): (b: GameObject)
    requires ball.ball.Some?
    ensures MovedOnly(ball, b)
    ensures b.rigidBody2d.velocity.LengthSquared() == ball.rigidBody2d.velocity.LengthSquared()
    ensures c.dir == Left || c.dir == Right ==>
      b.rigidBody2d.velocity == Vec2(-ball.rigidBody2d.velocity.x, ball.rigidBody2d.velocity.y) &&
      b.transform2d.translation.y == ball.transform2d.translation.y
    ensures !(c.dir == Left || c.dir == Right) ==>
      b.rigidBody2d.velocity == Vec2(ball.rigidBody2d.velocity.x, -ball.rigidBody2d.velocity.y) &&
      b.transform2d.translation.x == ball.transform2d.translation.x
  {
    var v, t, r := ball.rigidBody2d.velocity, ball.transform2d.translation, ball.ball.value.radius;
    if c.dir == Left || c.dir == Right then
      var penetration := r - Abs(c.diff.x);
      var x := if c.dir == Left then t.x + penetration else t.x - penetration;
      ball.(rigidBody2d := ball.rigidBody2d.(velocity := Vec2(-v.x, v.y)),
            transform2d := ball.transform2d.(translation := Vec3(x, t.y, t.z)))
    else
      var penetration := r - Abs(c.diff.y);
      var y := if c.dir == Up then t.y - penetration else t.y + penetration;
      ball.(rigidBody2d := ball.rigidBody2d.(velocity := Vec2(v.x, -v.y)),
            transform2d := ball.transform2d.(translation := Vec3(t.x, y, t.z)))
  }

  /** A contact as checkCollision2 reports it pushes the ball away from the
   *  box: along the axis of the contact direction it moves against the sign
   *  of the contact vector, by the penetration, which is not negative. */
  lemma BounceAway(ball: GameObject, c: Collision)
    requires ball.ball.Some? && ball.ball.value.radius >= 0.0
    requires c.dir == DirectionOf(c.diff) && c.diff.LengthSquared() <= ball.ball.value.radius * ball.ball.value.radius
    ensures var b, t, r := Bounce(ball, c).transform2d.translation, ball.transform2d.translation, ball.ball.value.radius;
      if c.dir == Left || c.dir == Right then
        (c.diff.x > 0.0 ==> b.x <= t.x) && (c.diff.x < 0.0 ==> b.x >= t.x) &&
        Abs(b.x - t.x) == r - Abs(c.diff.x) >= 0.0
      else
        (c.diff.y > 0.0 ==> b.y <= t.y) && (c.diff.y < 0.0 ==> b.y >= t.y) &&
        Abs(b.y - t.y) == r - Abs(c.diff.y) >= 0.0
  {
    WithinRadius(c.diff, ball.ball.value.radius);
    DirectionSign(c.diff);
  }

  /** Both components of a vector of length at most r are at most r in size. */
  lemma WithinRadius(v: Vec2, r: real)
    requires r >= 0.0 && v.LengthSquared() <= r * r
    ensures Abs(v.x) <= r && Abs(v.y) <= r
  {
    ComponentWithin(v.x, v.y, r);
    ComponentWithin(v.y, v.x, r);
  }

  /** Bouncing twice off the same contact restores the velocity. */
  lemma BounceVelocityInvolution(ball: GameObject, c: Collision)
    requires ball.ball.Some?
    ensures Bounce(Bounce(ball, c), c).rigidBody2d.velocity == ball.rigidBody2d.velocity
  {
  }

  /** `after` differs from `before` at most in velocity and translation. */
  predicate MovedOnly(before: GameObject, after: GameObject)
  {
    after == before.(rigidBody2d := before.rigidBody2d.(velocity := after.rigidBody2d.velocity),
                     transform2d := before.transform2d.(translation := after.transform2d.translation))
  }

  /** `after` is `before`, or a non-solid brick that was standing and is now destroyed. */
  predicate DestroyedOnly(before: GameObject, after: GameObject)
  {
    after == before || (!before.isSolid && !before.destroyed && after == before.(destroyed := true))
  }

  predicate HasBall(objects: map<Id, GameObject>, ballId: Id)
  {
    ballId in objects && objects[ballId].ball.Some?
  }

  /** What a collision pass may do to the object map: the same ids, the ball
   *  only moved and turned, every other object kept or a brick destroyed. */
  predicate Resolved(before: map<Id, GameObject>, after: map<Id, GameObject>, ballId: Id)
  {
    before.Keys == after.Keys && ballId in before &&
    MovedOnly(before[ballId], after[ballId]) &&
    forall k :: k in after && k != ballId ==> DestroyedOnly(before[k], after[k])
  }

  lemma ResolvedTrans(a: map<Id, GameObject>, b: map<Id, GameObject>, c: map<Id, GameObject>, ballId: Id)
    requires Resolved(a, b, ballId) && Resolved(b, c, ballId)
    ensures Resolved(a, c, ballId)
  {
    forall k | k in c && k != ballId
      ensures DestroyedOnly(a[k], c[k])
    {
      assert DestroyedOnly(a[k], b[k]) && DestroyedOnly(b[k], c[k]);
    }
  }

  /** One pass of the brick loop over the brick `id`: a destroyed brick is
   *  skipped; on contact a non-solid brick is destroyed and the ball, read
   *  again after that write, bounces. */
  function CollideWith(objects: map<Id, GameObject>, ballId: Id, id: Id): (m: map<Id, GameObject>)
    requires HasBall(objects, ballId) && id in objects
    ensures m.Keys == objects.Keys && HasBall(m, ballId)
    ensures forall k :: k in objects ==> m[k].transform2d.scale == objects[k].transform2d.scale
    ensures forall k :: k in m && k != id && k != ballId ==> m[k] == objects[k]
  {
    var obj := objects[id];
    if obj.destroyed then objects
    else
      var c := CheckCollision2(objects[ballId], obj);
      if !c.hit then objects
      else
        var afterBrick := if obj.isSolid then objects else objects[id := obj.(destroyed := true)];
        afterBrick[ballId := Bounce(afterBrick[ballId], c)]
  }

  /** What one brick does: nothing when it is destroyed or out of reach;
   *  otherwise a non-solid brick is destroyed, a solid one stays, and the
   *  ball bounces off the contact. */
  lemma CollideWithEffect(objects: map<Id, GameObject>, ballId: Id, id: Id)
    requires HasBall(objects, ballId) && id in objects && id != ballId
    ensures var m, c := CollideWith(objects, ballId, id), CheckCollision2(objects[ballId], objects[id]);
      (objects[id].destroyed || !c.hit ==> m == objects) &&
      Resolved(objects, m, ballId) &&
      (m[id].destroyed <==> objects[id].destroyed || (!objects[id].isSolid && c.hit)) &&
      (!objects[id].destroyed && c.hit ==> m[ballId] == Bounce(objects[ballId], c))
  {
    var m := CollideWith(objects, ballId, id);
    forall k | k in m && k != ballId
      ensures DestroyedOnly(objects[k], m[k])
    {
    }
  }

  /** The brick loop over `bricks`; map::at throws at the first id the map
   *  does not hold, so the pass stops there. */
  function BrickPass(objects: map<Id, GameObject>, ballId: Id, bricks: seq<Id>): (m: map<Id, GameObject>)
    requires HasBall(objects, ballId)
    ensures m.Keys == objects.Keys && HasBall(m, ballId)
    ensures forall k :: k in objects ==> m[k].transform2d.scale == objects[k].transform2d.scale
    decreases |bricks|
  {
    if bricks == [] || bricks[0] !in objects then objects
    else BrickPass(CollideWith(objects, ballId, bricks[0]), ballId, bricks[1..])
  }

  /** Over a whole pass, the ball only moves and turns, destroyed and solid
   *  bricks stay as they were, and a standing non-solid brick is at most
   *  destroyed. */
  lemma {:induction false} BrickPassResolved(objects: map<Id, GameObject>, ballId: Id, bricks: seq<Id>)
    requires HasBall(objects, ballId) && ballId !in bricks
    ensures Resolved(objects, BrickPass(objects, ballId, bricks), ballId)
    decreases |bricks|
  {
    if bricks == [] || bricks[0] !in objects {
    } else {
      var next := CollideWith(objects, ballId, bricks[0]);
      CollideWithEffect(objects, ballId, bricks[0]);
      assert ballId !in bricks[1..];
      BrickPassResolved(next, ballId, bricks[1..]);
      ResolvedTrans(objects, next, BrickPass(next, ballId, bricks[1..]), ballId);
    }
  }

  /** Objects that are neither the ball nor in the brick list are untouched. */
  lemma {:induction false} BrickPassFrame(objects: map<Id, GameObject>, ballId: Id, bricks: seq<Id>, k: Id)
    requires HasBall(objects, ballId) && k in objects && k != ballId && k !in bricks
    ensures BrickPass(objects, ballId, bricks)[k] == objects[k]
    decreases |bricks|
  {
    if bricks == [] || bricks[0] !in objects {
    } else {
      BrickPassFrame(CollideWith(objects, ballId, bricks[0]), ballId, bricks[1..], k);
    }
  }

  /** The paddle response: unless the ball is stuck, a contact with the
   *  player sets the x velocity from where on the board the ball hit and
   *  reverses the y velocity. Renormalising to the old speed is the factor
   *  `lengthRatio`, |old velocity| / |new velocity|, an input here. */
  function PaddleResponse(objects: map<Id, GameObject>, ballId: Id, playerId: Id, lengthRatio: real): (m: map<Id, GameObject>)
    requires HasBall(objects, ballId) && playerId in objects && objects[playerId].transform2d.scale.x != 0.0
    ensures m.Keys == objects.Keys && HasBall(m, ballId)
    ensures forall k :: k in m && k != ballId ==> m[k] == objects[k]
    ensures MovedOnly(objects[ballId], m[ballId])
    ensures m[ballId].transform2d == objects[ballId].transform2d
    ensures objects[ballId].ball.value.stuck || !CheckCollision2(objects[ballId], objects[playerId]).hit ==> m == objects
  {
    var ball, player := objects[ballId], objects[playerId];
    if !ball.ball.value.stuck && CheckCollision2(ball, player).hit then
      var half := player.transform2d.scale.x / 2.0;
      var centerBoard := player.transform2d.translation.x + half;
      var distance := (ball.transform2d.translation.x + ball.ball.value.radius) - centerBoard;
      var percentage := distance / half;
      var strength := 2.0;
      var velocity := Vec2(0.05 * percentage * strength, -ball.rigidBody2d.velocity.y);
      objects[ballId := ball.(rigidBody2d := ball.rigidBody2d.(velocity := velocity.Scaled(lengthRatio)))]
    else objects
  }

  /** Off a paddle of positive width, the ball leaves to the side of the
   *  board's centre it hit (straight up from the centre) and with its
   *  vertical velocity reversed. */
  lemma PaddleDeflection(objects: map<Id, GameObject>, ballId: Id, playerId: Id, lengthRatio: real)
    requires HasBall(objects, ballId) && playerId in objects && objects[playerId].transform2d.scale.x > 0.0
    requires lengthRatio > 0.0
    requires !objects[ballId].ball.value.stuck && CheckCollision2(objects[ballId], objects[playerId]).hit
    ensures var ball, player := objects[ballId], objects[playerId];
      var v := PaddleResponse(objects, ballId, playerId, lengthRatio)[ballId].rigidBody2d.velocity;
      var hitAt := ball.transform2d.translation.x + ball.ball.value.radius;
      var centerBoard := player.transform2d.translation.x + player.transform2d.scale.x / 2.0;
      (v.x > 0.0 <==> hitAt > centerBoard) && (v.x < 0.0 <==> hitAt < centerBoard) &&
      (v.y > 0.0 <==> ball.rigidBody2d.velocity.y < 0.0) && (v.y < 0.0 <==> ball.rigidBody2d.velocity.y > 0.0)
  {
    var ball, player := objects[ballId], objects[playerId];
    var half := player.transform2d.scale.x / 2.0;
    var distance := (ball.transform2d.translation.x + ball.ball.value.radius) - (player.transform2d.translation.x + half);
    var percentage := distance / half;
    PositiveDivisor(distance, half);
    var vx := 0.05 * percentage * 2.0;
    PositiveFactor(lengthRatio, vx);
    PositiveFactor(lengthRatio, -ball.rigidBody2d.velocity.y);
  }

  /** The body of the brick loop for the brick `id`, on the manager's map. */
  method CollideBrick(gom: GameObjectManager, ballId: Id, id: Id)
    requires gom.Valid() && HasBall(gom.gameObjects, ballId) && id in gom.gameObjects
    modifies gom`gameObjects
    ensures gom.Valid() && gom.gameObjects == CollideWith(old(gom.gameObjects), ballId, id)
  {
    var obj := gom.gameObjects[id];
    if !obj.destroyed {
      var collision := CheckCollision2(gom.gameObjects[ballId], obj);
      if collision.hit {
        if !obj.isSolid {
          gom.Update(obj.(destroyed := true));
        }
        gom.Update(Bounce(gom.gameObjects[ballId], collision));
      }
    }
  }

  /** The paddle step after the brick loop, on the manager's map. */
  method CollidePaddle(gom: GameObjectManager, ballId: Id, playerId: Id, lengthRatio: real)
    requires gom.Valid() && HasBall(gom.gameObjects, ballId) && playerId in gom.gameObjects
    requires gom.gameObjects[playerId].transform2d.scale.x != 0.0
    modifies gom`gameObjects
    ensures gom.Valid() && gom.gameObjects == PaddleResponse(old(gom.gameObjects), ballId, playerId, lengthRatio)
  {
    var ball, player := gom.gameObjects[ballId], gom.gameObjects[playerId];
    var result := CheckCollision2(ball, player);
    if !ball.ball.value.stuck && result.hit {
      var centerBoard := player.transform2d.translation.x + player.transform2d.scale.x / 2.0;
      var distance := (ball.transform2d.translation.x + ball.ball.value.radius) - centerBoard;
      var percentage := distance / (player.transform2d.scale.x / 2.0);
      var strength := 2.0;
      var velocity := Vec2(0.05 * percentage * strength, -ball.rigidBody2d.velocity.y);
      gom.Update(ball.(rigidBody2d := ball.rigidBody2d.(velocity := velocity.Scaled(lengthRatio))));
    }
  }

  /** The brick loop's invariant after i bricks: the same ids, a ball, the
   *  paddle's size kept, the first i ids present, and the rest of the pass
   *  leading to `target`. */
  ghost predicate Colliding(objects: map<Id, GameObject>, objects0: map<Id, GameObject>, ballId: Id, playerId: Id,
                            bricks: seq<Id>, i: nat, target: map<Id, GameObject>)
  {
    i <= |bricks| && HasBall(objects, ballId) && objects.Keys == objects0.Keys &&
    playerId in objects0 && objects[playerId].transform2d.scale == objects0[playerId].transform2d.scale &&
    (forall j :: 0 <= j < i ==> bricks[j] in objects0) &&
    BrickPass(objects, ballId, bricks[i..]) == target
  }

  /** One turn of the brick loop, for a brick the map holds. */
  method CollideNext(gom: GameObjectManager, ballId: Id, playerId: Id, bricks: seq<Id>, i: nat,
                     ghost objects0: map<Id, GameObject>, ghost target: map<Id, GameObject>)
    requires gom.Valid() && i < |bricks| && bricks[i] in gom.gameObjects
    requires Colliding(gom.gameObjects, objects0, ballId, playerId, bricks, i, target)
    modifies gom`gameObjects
    ensures gom.Valid() && Colliding(gom.gameObjects, objects0, ballId, playerId, bricks, i + 1, target)
  {
    assert bricks[i] in objects0;
    assert bricks[i..][1..] == bricks[i + 1..];
    CollideBrick(gom, ballId, bricks[i]);
  }

  /** doCollisions for level `level`: the brick loop over a copy of that
   *  level's brick ids, then the paddle response. An id the object map does
   *  not hold makes map::at throw; the writes before it stay. */
  method DoCollisions(gom: GameObjectManager, ballId: Id, playerId: Id,
                      levels: seq<BreakoutGame.GameLevel>, level: nat, lengthRatio: real)
    returns (r: Result<()>)
    requires gom.Valid() && HasBall(gom.gameObjects, ballId) && playerId in gom.gameObjects
    requires gom.gameObjects[playerId].transform2d.scale.x != 0.0
    requires level < |levels|
    modifies gom`gameObjects
    ensures gom.Valid()
    ensures r.Err? <==> exists k :: 0 <= k < |levels[level].bricks| && levels[level].bricks[k] !in old(gom.gameObjects)
    ensures var afterBricks := BrickPass(old(gom.gameObjects), ballId, levels[level].bricks);
      gom.gameObjects == if r.Ok? then PaddleResponse(afterBricks, ballId, playerId, lengthRatio) else afterBricks
  {
    var bricks := levels[level].bricks;
    ghost var objects0 := gom.gameObjects;
    ghost var target := BrickPass(objects0, ballId, bricks);
    var i := 0;
    while i < |bricks|
      invariant gom.Valid() && Colliding(gom.gameObjects, objects0, ballId, playerId, bricks, i, target)
    {
      if bricks[i] !in gom.gameObjects {
        return Err("std::out_of_range");
      }
      CollideNext(gom, ballId, playerId, bricks, i, objects0, target);
      i := i + 1;
    }
    CollidePaddle(gom, ballId, playerId, lengthRatio);
    r := Ok(());
  }
}
