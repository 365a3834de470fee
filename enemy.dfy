/** The enemy agent of `scripts/enemy/enemy.js`: health with a latched death
    flag, and a planar step toward a target point. */
module EnemyAgent {
  import opened Common

  /** Squared distance from `p` to `target` in the horizontal plane. */
  function PlanarDistanceSquared(p: Vec3, target: Vec3): real {
    (target.x - p.x) * (target.x - p.x) + (target.z - p.z) * (target.z - p.z)
  }

  /** The position after moving `step` along the unit planar direction from `p`
      toward `target`, where `distance` is the planar distance between them. */
  function SeekStep(p: Vec3, target: Vec3, step: real, distance: real): Vec3
    requires distance > 0.0
  {
    Vec3(p.x + (target.x - p.x) / distance * step, p.y, p.z + (target.z - p.z) / distance * step)
  }

  /** The seek step covers exactly `step` in the plane, keeps the height, and
      stays on the line to the target: the remaining planar offset is the old
      one scaled by `1 - step / distance`. */
  lemma SeekStepGeometry(p: Vec3, target: Vec3, step: real, distance: real)
    requires distance > 0.0 && distance * distance == PlanarDistanceSquared(p, target)
    ensures var q := SeekStep(p, target, step, distance);
      && q.y == p.y
      && (q.x - p.x) * (q.x - p.x) + (q.z - p.z) * (q.z - p.z) == step * step
      && target.x - q.x == (target.x - p.x) * (1.0 - step / distance)
      && target.z - q.z == (target.z - p.z) * (1.0 - step / distance)
  {
    var q := SeekStep(p, target, step, distance);
    var dx, dz, k := target.x - p.x, target.z - p.z, step / distance;
    assert q.x - p.x == dx * k && q.z - p.z == dz * k;
    calc {
      (dx * k) * (dx * k) + (dz * k) * (dz * k);
      (dx * dx + dz * dz) * (k * k);
      (distance * distance) * (k * k);
      (distance * k) * (distance * k);
      { assert distance * k == step; }
      step * step;
    }
  }

  class Enemy {
    /** `config.enemies.speed`. */
    const speed: real
    /** `mesh.position`. */
    var position: Vec3
    var health: real
    var isDead: bool

    /** `new Enemy(position, config)` with `speed` = `config.enemies.speed`. */
    constructor (position: Vec3, speed: real)
      ensures this.position == position && this.speed == speed
      ensures health == 1.0 && !isDead
    {
      this.speed := speed;
      this.position := position;
      health := 1.0;
      isDead := false;
    }

    /** `update(targetPosition, delta)`; `distance` is the planar length of the
        offset to the target (the `direction.length()` of the source). */
    method Update(target: Vec3, delta: real, distance: real)
      requires distance >= 0.0 && distance * distance == PlanarDistanceSquared(position, target)
      modifies this`position
      ensures old(isDead) ==> position == old(position)
      ensures !old(isDead) && distance > 0.001 ==> position == SeekStep(old(position), target, speed * delta, distance)
      ensures distance <= 0.001 ==> position == old(position)
      ensures position.y == old(position.y)
    {
      if isDead {
        return;
      }
      if distance > 0.001 {
        position := SeekStep(position, target, speed * delta, distance);
      }
    }

    /** `hit(damage)`. */
    method Hit(damage: real)
      modifies this`health, this`isDead
      ensures health == old(health) - damage
      // death is latched: set when health reaches 0, never cleared
      ensures isDead == (old(isDead) || health <= 0.0)
    {
      health := health - damage;
      if health <= 0.0 {
        isDead := true;
      }
    }
  }
}
