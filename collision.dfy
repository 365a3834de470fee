/** The stepped collision resolver of `scripts/core/collision.js`: a point is
    moved by a displacement in the horizontal (x, z) plane against axis-aligned
    boxes, each grown outward by the body radius. */
module Collision {
  import opened Common

  /** An axis-aligned box (`THREE.Box3`). */
  datatype Box = Box(min: Vec3, max: Vec3)

  /** An entry of the obstacle list, `{ box }`; entries without a box are skipped. */
  datatype Obstacle = Obstacle(box: Option<Box>)

  /** The names pushed onto `blockedAxes`. */
  datatype Axis = X | Z

  /** The resolver's answer `{ position, blockedAxes }`. */
  datatype Movement = Movement(position: Vec3, blockedAxes: seq<Axis>)

  /** `p` lies in the box of `o` grown by `radius` in x and z, bounds included;
      the y coordinate plays no part. */
  predicate InPaddedBox(p: Vec3, o: Obstacle, radius: real) {
    && o.box.Some?
    && o.box.value.min.x - radius <= p.x <= o.box.value.max.x + radius
    && o.box.value.min.z - radius <= p.z <= o.box.value.max.z + radius
  }

  /** `positionIntersectsObstacles`: some obstacle's padded box holds `p`. */
  function IntersectsObstacles(p: Vec3, obstacles: seq<Obstacle>, radius: real): (r: bool)
    ensures r <==> exists i :: 0 <= i < |obstacles| && InPaddedBox(p, obstacles[i], radius)
  {
    if obstacles == [] then false
    else if InPaddedBox(p, obstacles[0], radius) then true
    else
      var rest := IntersectsObstacles(p, obstacles[1..], radius);
      assert forall i :: 1 <= i < |obstacles| ==> obstacles[i] == obstacles[1..][i - 1];
      rest
  }

  /** The intersection test never looks at y. */
  lemma IntersectionIgnoresHeight(p: Vec3, h: real, obstacles: seq<Obstacle>, radius: real)
    ensures IntersectsObstacles(p, obstacles, radius) == IntersectsObstacles(p.(y := h), obstacles, radius)
  {
    forall i | 0 <= i < |obstacles|
      ensures InPaddedBox(p, obstacles[i], radius) == InPaddedBox(p.(y := h), obstacles[i], radius)
    {
    }
  }

  /** `Math.max(0.1, radius * 0.5)`. */
  function StepSize(radius: real): (s: real)
    ensures s >= 0.1 && s >= radius * 0.5
    ensures s == 0.1 || s == radius * 0.5
  {
    if 0.1 >= radius * 0.5 then 0.1 else radius * 0.5
  }

  /** The planar length covered by `k` steps of size `s`. */
  function Reach(k: nat, s: real): real {
    k as real * s
  }

  /** With steps of at least 0.1, `k` steps reach at least sqrt(k / 100). */
  lemma ReachLowerBound(k: nat, s: real)
    requires k >= 1 && s >= 0.1
    ensures Reach(k, s) * Reach(k, s) >= k as real / 100.0
  {
    var kr := k as real;
    var a, b := Reach(k, s), kr * 0.1;
    assert a >= b >= 0.0 by { assert kr * s - kr * 0.1 == kr * (s - 0.1); }
    assert a * a >= a * b by { assert a * a - a * b == a * (a - b); }
    assert a * b >= b * b by { assert a * b - b * b == b * (a - b); }
    assert (kr * 0.1) * (kr * 0.1) == kr * kr / 100.0;
    assert kr * kr >= kr;
  }

  /** The least k >= n with k * s >= sqrt(d2), found without square roots by
      comparing squares (both sides are non-negative). */
  function CeilSteps(d2: real, s: real, n: nat): (k: nat)
    requires s >= 0.1 && n >= 1
    ensures k >= n
    ensures Reach(k, s) * Reach(k, s) >= d2
    ensures forall j: nat :: n <= j < k ==> Reach(j, s) * Reach(j, s) < d2
    decreases (d2 * 100.0).Floor + 1 - n
  {
    if Reach(n, s) * Reach(n, s) >= d2 then n
    else
      ReachLowerBound(n, s);
      CeilSteps(d2, s, n + 1)
  }

  /** `Math.max(1, Math.ceil(Math.hypot(move.x, move.z) / stepSize))`. */
  function StepCount(move: Vec3, radius: real): (steps: nat)
    ensures steps >= 1
    // the least such count whose steps cover the planar length
    ensures Reach(steps, StepSize(radius)) * Reach(steps, StepSize(radius)) >= move.x * move.x + move.z * move.z
    ensures forall j: nat :: 1 <= j < steps ==>
              Reach(j, StepSize(radius)) * Reach(j, StepSize(radius)) < move.x * move.x + move.z * move.z
  {
    CeilSteps(move.x * move.x + move.z * move.z, StepSize(radius), 1)
  }

  /** One more step adds one planar increment. */
  lemma AlongNext(start: Vec3, move: Vec3, k: nat, steps: nat)
    requires steps >= 1
    ensures Along(start, move, k + 1, steps)
         == Add(Along(start, move, k, steps), Vec3(move.x / steps as real, 0.0, move.z / steps as real))
  {
    var a, b := move.x / steps as real, move.z / steps as real;
    assert (k + 1) as real * a == k as real * a + a;
    assert (k + 1) as real * b == k as real * b + b;
  }

  /** All the steps together reach the planar target. */
  lemma AlongEnd(start: Vec3, move: Vec3, steps: nat)
    requires steps >= 1
    ensures Along(start, move, steps, steps) == Vec3(start.x + move.x, start.y, start.z + move.z)
  {
    var n := steps as real;
    assert n * (move.x / n) == move.x;
    assert n * (move.z / n) == move.z;
  }

  /** The point reached from `start` after `k` of `steps` equal planar increments
      of `move`; the height stays that of `start`. */
  function Along(start: Vec3, move: Vec3, k: nat, steps: nat): Vec3
    requires steps >= 1
  {
    Vec3(start.x + k as real * (move.x / steps as real), start.y,
         start.z + k as real * (move.z / steps as real))
  }

  /** The axes reported when the walk is stopped: those along which `move` has a component. */
  function AxesOf(move: Vec3): seq<Axis> {
    (if move.x != 0.0 then [X] else []) + (if move.z != 0.0 then [Z] else [])
  }

  /** Of the `StepCount` increments of the walk from `current`, the first `k`
      land clear of every obstacle and the next one does not. */
  predicate StopsAfter(current: Vec3, move: Vec3, obstacles: seq<Obstacle>, radius: real, k: nat) {
    var steps := StepCount(move, radius);
    && k < steps
    && (forall j: nat :: 1 <= j <= k ==> !IntersectsObstacles(Along(current, move, j, steps), obstacles, radius))
    && IntersectsObstacles(Along(current, move, k + 1, steps), obstacles, radius)
  }

  /** `applyMovementWithCollisions(currentPosition, moveVector, obstacles, radius)`. */
  method ApplyMovementWithCollisions(current: Vec3, move: Vec3, obstacles: seq<Obstacle>, radius: real)
    returns (r: Movement)
    // the height never changes, on any path
    ensures r.position.y == current.y
    // a move with no planar length is a no-op
    ensures move.x == 0.0 && move.z == 0.0 ==> r == Movement(current, [])
    // a clear target is reached in full
    ensures (move.x != 0.0 || move.z != 0.0) && !IntersectsObstacles(Add(current, move), obstacles, radius)
            ==> r == Movement(Vec3(current.x + move.x, current.y, current.z + move.z), [])
    // never beyond the target: a whole number of steps along the move
    ensures exists k: nat :: k <= StepCount(move, radius) && r.position == Along(current, move, k, StepCount(move, radius))
    // the result is the start or a clear position
    ensures r.position == current || !IntersectsObstacles(r.position, obstacles, radius)
    // axes are reported exactly when the stepped walk ran, and then once per moving axis
    ensures r.blockedAxes != [] <==> (move.x != 0.0 || move.z != 0.0) && IntersectsObstacles(Add(current, move), obstacles, radius)
    ensures r.blockedAxes != [] ==> r.blockedAxes == AxesOf(move)
    // the walk commits clear steps only and stops at the first intersecting one
    ensures r.blockedAxes != [] ==> exists k: nat :: StopsAfter(current, move, obstacles, radius, k) && r.position == Along(current, move, k, StepCount(move, radius))
  {
    var steps := StepCount(move, radius);
    // Math.hypot(move.x, move.z) === 0 exactly when both planar components are 0
    if move.x == 0.0 && move.z == 0.0 {
      assert current == Along(current, move, 0, steps);
      return Movement(current, []);
    }
    var target := Add(current, move);
    if !IntersectsObstacles(target, obstacles, radius) {
      var position := Vec3(target.x, current.y, target.z);
      AlongEnd(current, move, steps);
      return Movement(position, []);
    }
    var increment := Vec3(move.x / steps as real, 0.0, move.z / steps as real);
    var resolved := current;
    var blocked: seq<Axis> := [];
    var i := 0;
    while i < steps
      invariant 0 <= i <= steps
      invariant resolved == Along(current, move, i, steps)
      invariant forall j: nat :: 1 <= j <= i ==> !IntersectsObstacles(Along(current, move, j, steps), obstacles, radius)
      invariant blocked == []
    {
      var next := Add(resolved, increment);
      AlongNext(current, move, i, steps);
      if IntersectsObstacles(next, obstacles, radius) {
        if move.x != 0.0 { blocked := blocked + [X]; }
        if move.z != 0.0 { blocked := blocked + [Z]; }
        assert StopsAfter(current, move, obstacles, radius, i);
        break;
      }
      resolved := next;
      i := i + 1;
    }
    if blocked == [] {
      // every step was clear, yet the last one lands on the target, which is not
      AlongEnd(current, move, steps);
      IntersectionIgnoresHeight(target, current.y, obstacles, radius);
      assert false;
    }
    r := Movement(resolved.(y := current.y), blocked);
  }
}
