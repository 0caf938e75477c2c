/** World-space geometry of the enemy: squared distances, the detection radius,
    the node-reached tolerance, the clamped per-axis step and the facing chosen
    from the dominant axis of travel. Floats are modelled as reals. */
module Geometry {
  import opened Grid

  /** Radius within which the player is detected: four tiles, in world units. */
  const DETECTION_RADIUS: real := (TILE_SIZE * 4) as real

  /** Squared distance under which a path node counts as reached. */
  const REACHED_NODE_TOLERANCE: real := 2.0

  /** Movement speed while following a path, in world units per second. */
  const SPEED: real := 40.0

  function Abs(r: real): real { if r < 0.0 then -r else r }

  /** `b` lies on the closed segment between `a` and `c`. */
  predicate Between(a: real, b: real, c: real) {
    (a <= b <= c) || (c <= b <= a)
  }

  /** `move` points the same way as `diff` (or is zero). */
  predicate SameSign(move: real, diff: real) {
    (diff > 0.0 ==> move >= 0.0) && (diff < 0.0 ==> move <= 0.0)
  }

  /** Squared Euclidean distance between (x1, y1) and (x2, y2): never negative,
      and zero from a point to itself. */
  function DistanceSquared(x1: real, y1: real, x2: real, y2: real): (d: real)
    ensures d >= 0.0
    ensures x1 == x2 && y1 == y2 ==> d == 0.0
  {
    var dx := x2 - x1;
    var dy := y2 - y1;
    SquareNonNegative(dx);
    SquareNonNegative(dy);
    dx * dx + dy * dy
  }

  lemma SquareNonNegative(a: real)
    ensures a * a >= 0.0
  {
    if a < 0.0 {
      assert a * a == (-a) * (-a);
    }
  }

  /** Whether the player at (px, py) is within the detection radius of the enemy
      at (ex, ey); the comparison is inclusive. */
  predicate PlayerEntersGrid(ex: real, ey: real, px: real, py: real)
    ensures ex == px && ey == py ==> PlayerEntersGrid(ex, ey, px, py)
  {
    DistanceSquared(ex, ey, px, py) <= DETECTION_RADIUS * DETECTION_RADIUS
  }

  /** A square of `a` is at most the square of a larger magnitude. */
  lemma SquareMonotone(a: real, b: real)
    requires Abs(a) <= Abs(b)
    ensures a * a <= b * b
  {
    var p, q := Abs(a), Abs(b);
    assert a * a == p * p && b * b == q * q;
    assert p * p <= p * q <= q * q;
  }

  /** Detection is inclusive and exact at the radius: a player exactly four tiles
      away along either axis, in either direction, is detected; one any amount
      further is not. */
  lemma DetectionBoundary(ex: real, ey: real, eps: real)
    requires eps > 0.0
    ensures PlayerEntersGrid(ex, ey, ex + DETECTION_RADIUS, ey)
    ensures PlayerEntersGrid(ex, ey, ex - DETECTION_RADIUS, ey)
    ensures PlayerEntersGrid(ex, ey, ex, ey + DETECTION_RADIUS)
    ensures PlayerEntersGrid(ex, ey, ex, ey - DETECTION_RADIUS)
    ensures !PlayerEntersGrid(ex, ey, ex + DETECTION_RADIUS + eps, ey)
    ensures !PlayerEntersGrid(ex, ey, ex - DETECTION_RADIUS - eps, ey)
    ensures !PlayerEntersGrid(ex, ey, ex, ey + DETECTION_RADIUS + eps)
    ensures !PlayerEntersGrid(ex, ey, ex, ey - DETECTION_RADIUS - eps)
  {
    var r := DETECTION_RADIUS;
    assert (r + eps) * (r + eps) == r * r + eps * (2.0 * r + eps);
    assert eps * (2.0 * r + eps) > 0.0;
    assert (-r - eps) * (-r - eps) == (r + eps) * (r + eps);
  }

  /** The detection region lies between two squares centred on the enemy: it
      contains every player whose offsets add up to at most the radius, and a
      detected player is at most the radius away along each axis. */
  lemma DetectionRegion(ex: real, ey: real, px: real, py: real)
    ensures Abs(px - ex) + Abs(py - ey) <= DETECTION_RADIUS ==> PlayerEntersGrid(ex, ey, px, py)
    ensures PlayerEntersGrid(ex, ey, px, py) ==>
      Abs(px - ex) <= DETECTION_RADIUS && Abs(py - ey) <= DETECTION_RADIUS
  {
    var dx, dy, r := px - ex, py - ey, DETECTION_RADIUS;
    var a, b := Abs(dx), Abs(dy);
    assert dx * dx == a * a && dy * dy == b * b;
    assert DistanceSquared(ex, ey, px, py) == a * a + b * b;
    assert a * b >= 0.0 && a * a >= 0.0 && b * b >= 0.0;
    if a + b <= r {
      assert (a + b) * (a + b) == a * a + b * b + 2.0 * (a * b);
      SquareMonotone(a + b, r);
    }
    if a > r {
      assert r * r < a * a by {
        assert r * r <= r * a < a * a;
      }
      assert !PlayerEntersGrid(ex, ey, px, py);
    }
    if b > r {
      assert r * r < b * b by {
        assert r * r <= r * b < b * b;
      }
      assert !PlayerEntersGrid(ex, ey, px, py);
    }
  }

  /** Whether the enemy at (ex, ey) has reached the node position (tx, ty): the
      squared distance is strictly below the tolerance. */
  predicate ReachedNode(ex: real, ey: real, tx: real, ty: real)
    ensures ex == tx && ey == ty ==> ReachedNode(ex, ey, tx, ty)
  {
    DistanceSquared(ex, ey, tx, ty) < REACHED_NODE_TOLERANCE
  }

  /** Standing on the node counts as reached, and a reached node is less than
      two units away along each axis. */
  lemma ReachedNodeIsNear(ex: real, ey: real, tx: real, ty: real)
    ensures ex == tx && ey == ty ==> ReachedNode(ex, ey, tx, ty)
    ensures ReachedNode(ex, ey, tx, ty) ==> Abs(tx - ex) < 2.0 && Abs(ty - ey) < 2.0
  {
    var dx, dy := tx - ex, ty - ey;
    SquareNonNegative(dx);
    SquareNonNegative(dy);
    assert DistanceSquared(ex, ey, tx, ty) == dx * dx + dy * dy;
    if Abs(dx) >= 2.0 {
      SquareMonotone(2.0, dx);
      assert !ReachedNode(ex, ey, tx, ty);
    }
    if Abs(dy) >= 2.0 {
      SquareMonotone(2.0, dy);
      assert !ReachedNode(ex, ey, tx, ty);
    }
  }

  /** The overshoot clamp of one axis: a step longer than the remaining
      distance `diff` is replaced by `diff`, so it lands on the target's
      coordinate. The result never exceeds the remaining distance, a step that
      fits is kept, and a step pointing toward the target stops on the segment
      between here and the target. */
  function ClampStep(move: real, diff: real): (step: real)
    ensures Abs(step) <= Abs(diff)
    ensures Abs(move) <= Abs(diff) ==> step == move
    ensures Abs(move) > Abs(diff) ==> step == diff
    ensures SameSign(move, diff) ==> Between(0.0, step, diff)
  {
    if Abs(move) > Abs(diff) then diff else move
  }

  /** The facing after a move by (diffX, diffY): horizontal exactly when the
      horizontal offset strictly dominates, and then RIGHT exactly when it is
      positive; otherwise UP exactly when the vertical offset is positive.
      The facing never points away from the target. */
  function Facing(diffX: real, diffY: real): (d: Direction)
    ensures (d == Left || d == Right) <==> Abs(diffX) > Abs(diffY)
    ensures d == Right <==> Abs(diffX) > Abs(diffY) && diffX > 0.0
    ensures d == Up <==> Abs(diffX) <= Abs(diffY) && diffY > 0.0
    ensures DX(d) as real * diffX + DY(d) as real * diffY >= 0.0
    ensures (diffX != 0.0 || diffY != 0.0) ==> DX(d) as real * diffX + DY(d) as real * diffY > 0.0
  {
    if Abs(diffX) > Abs(diffY) then
      (if diffX > 0.0 then Right else Left)
    else
      (if diffY > 0.0 then Up else Down)
  }

  /** A step `k * (diff / mag)` with a positive norm `mag` points the same
      way as `diff` whenever the factor `k` is non-negative. */
  lemma ScaledStepSameSign(k: real, diff: real, mag: real)
    requires mag > 0.0
    ensures k >= 0.0 ==> SameSign(k * (diff / mag), diff)
  {
    if k < 0.0 {
    } else if diff > 0.0 {
      assert diff / mag > 0.0;
    } else if diff < 0.0 {
      assert diff / mag < 0.0;
      assert k * (diff / mag) == -(k * (-diff / mag));
    }
  }
}
