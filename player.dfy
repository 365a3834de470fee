/** The player controller of `scripts/player/playerController.js`: velocity
    integration from the held movement keys, fire-cooldown gating, and the
    projectile pass that expires shots, damages the first enemy in reach and
    scores kills.

    The camera is reduced to what `update` needs from it: the world vectors of
    its local x and z axes (`translateX`/`translateZ` move along them) and the
    normalised aim direction (`getWorldDirection`), all given as inputs. */
module Player {
  import opened Common
  import opened EnemyAgent

  /** A shot in flight: `mesh.position`, `userData.velocity`, `userData.spawnedAt`. */
  datatype Projectile = Projectile(position: Vec3, velocity: Vec3, spawnedAt: real)

  /** `THREE.MathUtils.clamp(value, lo, hi)`, that is `max(lo, min(hi, value))`. */
  function ClampTo(value: real, lo: real, hi: real): (r: real)
    ensures lo <= hi ==> lo <= r <= hi
    ensures lo <= value <= hi ==> r == value
    ensures value < lo ==> r == lo
    ensures lo <= hi < value ==> r == hi
  {
    var m := if value < hi then value else hi;
    if lo < m then m else lo
  }

  /** One direction component before normalisation: -1 for the negative key,
      +1 for the positive key, both cancelling. */
  function KeyAxis(negative: bool, positive: bool): (d: real)
    ensures d == 0.0 <==> negative == positive
    ensures d == -1.0 || d == 0.0 || d == 1.0
  {
    (if negative then -1.0 else 0.0) + (if positive then 1.0 else 0.0)
  }

  /** The key direction after `normalize()`: a zero vector stays zero, an axis
      direction is already unit, and a diagonal is scaled by `diag` = 1/sqrt(2). */
  function Normalized(dx: real, dz: real, diag: real): (n: (real, real))
  {
    if dx != 0.0 && dz != 0.0 then (dx * diag, dz * diag) else (dx, dz)
  }

  /** A held key direction normalises to a unit vector; no key to the zero vector. */
  lemma NormalizedIsUnit(neg_x: bool, pos_x: bool, neg_z: bool, pos_z: bool, diag: real)
    requires diag > 0.0 && diag * diag == 0.5
    ensures var n := Normalized(KeyAxis(neg_x, pos_x), KeyAxis(neg_z, pos_z), diag);
            if KeyAxis(neg_x, pos_x) == 0.0 && KeyAxis(neg_z, pos_z) == 0.0 then n == (0.0, 0.0)
            else n.0 * n.0 + n.1 * n.1 == 1.0
  {
    var dx, dz := KeyAxis(neg_x, pos_x), KeyAxis(neg_z, pos_z);
    if dx != 0.0 && dz != 0.0 {
      assert dx * dx == 1.0 && dz * dz == 1.0;
      assert (dx * diag) * (dx * diag) == (dx * dx) * (diag * diag);
      assert (dz * diag) * (dz * diag) == (dz * dz) * (diag * diag);
    }
  }

  /** The projectile after `addScaledVector(velocity, delta)`. */
  function Moved(p: Projectile, delta: real): Projectile {
    p.(position := Add(p.position, Scale(p.velocity, delta)))
  }

  /** The lifetime test: a shot older than `lifetime` at `now` is removed. */
  predicate Expired(p: Projectile, now: real, lifetime: real) {
    now - p.spawnedAt > lifetime
  }

  /** The projectiles that survive a pass over an empty enemy list: the
      unexpired ones, moved, in their order. */
  function Flight(ps: seq<Projectile>, delta: real, now: real, lifetime: real): seq<Projectile> {
    if ps == [] then []
    else (if Expired(ps[0], now, lifetime) then [] else [Moved(ps[0], delta)]) + Flight(ps[1..], delta, now, lifetime)
  }

  /** The flight keeps exactly the unexpired shots, one for one, each moved. */
  lemma {:induction false} FlightKeepsUnexpired(ps: seq<Projectile>, delta: real, now: real, lifetime: real)
    ensures var r := Flight(ps, delta, now, lifetime);
            && |r| == |Filter(ps, p => !Expired(p, now, lifetime))|
            && (forall q :: q in r ==> exists p :: p in ps && !Expired(p, now, lifetime) && q == Moved(p, delta))
            && forall p :: p in ps && !Expired(p, now, lifetime) ==> Moved(p, delta) in r
  {
    if ps != [] {
      FlightKeepsUnexpired(ps[1..], delta, now, lifetime);
      assert forall p :: p in ps ==> p == ps[0] || p in ps[1..];
    }
  }

  /** Shots never outlive their lifetime: if every shot is already too old,
      a pass leaves none, and if none is, every shot flies on. */
  lemma {:induction false} FlightExpiry(ps: seq<Projectile>, delta: real, now: real, lifetime: real)
    ensures (forall p :: p in ps ==> Expired(p, now, lifetime)) ==> Flight(ps, delta, now, lifetime) == []
    ensures (forall p :: p in ps ==> !Expired(p, now, lifetime)) ==> |Flight(ps, delta, now, lifetime)| == |ps|
  {
    if ps != [] {
      assert forall p :: p in ps[1..] ==> p in ps;
      FlightExpiry(ps[1..], delta, now, lifetime);
    }
  }

  /** The flight of one more shot is the flight so far, then that shot's. */
  lemma {:induction false} FlightSnoc(ps: seq<Projectile>, p: Projectile, delta: real, now: real, lifetime: real)
    ensures Flight(ps + [p], delta, now, lifetime)
            == Flight(ps, delta, now, lifetime) + (if Expired(p, now, lifetime) then [] else [Moved(p, delta)])
    decreases |ps|
  {
    if ps == [] {
      assert [p][1..] == [];
    } else {
      assert (ps + [p])[1..] == ps[1..] + [p];
      FlightSnoc(ps[1..], p, delta, now, lifetime);
    }
  }

  /** `enemies.splice(j, 1)`. */
  function RemoveAt<T>(s: seq<T>, j: nat): (r: seq<T>)
    requires j < |s|
    ensures |r| == |s| - 1
    ensures forall k :: 0 <= k < j ==> r[k] == s[k]
    ensures forall k :: j <= k < |r| ==> r[k] == s[k + 1]
  {
    s[..j] + s[j + 1..]
  }

  /** Splicing out one element loses exactly one copy of it. */
  lemma RemoveAtCounts<T>(s: seq<T>, j: nat)
    requires j < |s|
    ensures multiset(s) == multiset(RemoveAt(s, j)) + multiset{s[j]}
  {
    assert s == s[..j] + [s[j]] + s[j + 1..];
  }

  /** Splicing out one element keeps a subsequence of the original list. */
  lemma {:induction false} RemoveAtSubsequence<T>(s: seq<T>, j: nat, orig: seq<T>)
    requires j < |s| && IsSubsequence(s, orig)
    ensures IsSubsequence(RemoveAt(s, j), orig)
    decreases |orig|
  {
    if orig == [] {
    } else if s[0] == orig[0] && IsSubsequence(s[1..], orig[1..]) {
      if j == 0 {
        assert RemoveAt(s, j) == s[1..];
        SubsequenceDropHead(s[1..], orig);
      } else {
        RemoveAtSubsequence(s[1..], j - 1, orig[1..]);
        assert RemoveAt(s, j) == [s[0]] + RemoveAt(s[1..], j - 1);
        assert RemoveAt(s, j)[1..] == RemoveAt(s[1..], j - 1);
      }
    } else {
      RemoveAtSubsequence(s, j, orig[1..]);
    }
  }

  /** A subsequence of `b[1..]` is a subsequence of `b`. */
  lemma {:induction false} SubsequenceDropHead<T>(a: seq<T>, b: seq<T>)
    requires b != [] && IsSubsequence(a, b[1..])
    ensures IsSubsequence(a, b)
  {
  }

  /** The per-frame inputs of the projectile pass: `delta`, the clock read
      by `updateProjectiles`, and `config.combat.projectileLifetime` and
      `damage`. */
  datatype Rules = Rules(delta: real, now: real, lifetime: real, damage: real)

  /** What the pass reads of one enemy as the frame starts: its mesh
      position, its health and its death flag. */
  datatype Sight = Sight(position: Vec3, health: real, dead: bool)

  /** An enemy's start state as `view` records it. The pass starts from the
      enemies' own state (`Sighting`), so it never meets an enemy `view`
      leaves out; such an enemy would read as standing at the origin with
      health 0, alive. */
  function SeenAs(view: map<Enemy, Sight>, e: Enemy): Sight {
    if e in view then view[e] else Sight(Vec3(0.0, 0.0, 0.0), 0.0, false)
  }

  /** The health after `n` calls of `hit(damage)`. */
  function Worn(health: real, damage: real, n: nat): real {
    if n == 0 then health else Worn(health, damage, n - 1) - damage
  }

  /** The death flag after `n` calls of `hit(damage)` on an enemy that
      started with `dead` and `health`: set by the first hit that leaves the
      health at or below 0, and never cleared. */
  function Downed(dead: bool, health: real, damage: real, n: nat): bool {
    if n == 0 then dead else Downed(dead, health, damage, n - 1) || Worn(health, damage, n) <= 0.0
  }

  /** `n` hits take `n` times the damage. */
  lemma {:induction false} WornIsLinear(health: real, damage: real, n: nat)
    ensures Worn(health, damage, n) == health - damage * (n as real)
  {
    if n > 0 {
      WornIsLinear(health, damage, n - 1);
      assert damage * ((n - 1) as real) + damage == damage * (n as real);
    }
  }

  /** Health only falls under non-negative damage. */
  lemma {:induction false} WornFalls(health: real, damage: real, m: nat, n: nat)
    requires damage >= 0.0 && m <= n
    ensures Worn(health, damage, n) <= Worn(health, damage, m)
    decreases n
  {
    if m < n {
      WornFalls(health, damage, m, n - 1);
    }
  }

  /** With non-negative damage an enemy is dead after `n` hits exactly when
      it started dead, or was hit and its health is at or below 0. */
  lemma {:induction false} DownedLatches(dead: bool, health: real, damage: real, n: nat)
    requires damage >= 0.0
    ensures Downed(dead, health, damage, n) <==> dead || (n > 0 && Worn(health, damage, n) <= 0.0)
  {
    if n > 0 {
      DownedLatches(dead, health, damage, n - 1);
      WornFalls(health, damage, n - 1, n);
    }
  }

  /** Death is never cleared by further hits. */
  lemma {:induction false} DownedStays(dead: bool, health: real, damage: real, m: nat, n: nat)
    requires m <= n
    ensures Downed(dead, health, damage, m) ==> Downed(dead, health, damage, n)
    decreases n
  {
    if m < n {
      DownedStays(dead, health, damage, m, n - 1);
    }
  }

  /** The index of the first listed enemy within distance 1 of `p`. */
  function Reach(p: Vec3, list: seq<Enemy>, view: map<Enemy, Sight>): (r: Option<nat>)
    ensures r.Some? ==> r.value < |list| && DistanceSquared(p, SeenAs(view, list[r.value]).position) < 1.0
    ensures r.Some? ==> forall k :: 0 <= k < r.value ==> DistanceSquared(p, SeenAs(view, list[k]).position) >= 1.0
    ensures r.None? ==> forall k :: 0 <= k < |list| ==> DistanceSquared(p, SeenAs(view, list[k]).position) >= 1.0
    decreases |list|
  {
    if list == [] then None
    else if DistanceSquared(p, SeenAs(view, list[0]).position) < 1.0 then Some(0)
    else
      var rest := Reach(p, list[1..], view);
      if rest.None? then None else Some(rest.value + 1)
  }

  /** The state of a pass after some shots: the shots that fly on, the enemy
      list after the splices, the score, and the enemy struck by each spent
      shot, in turn order. An enemy's health and death flag follow from its
      start state and its count in `hits` (`Worn`, `Downed`), so an enemy
      listed twice is one enemy. */
  datatype Volley = Volley(shots: seq<Projectile>, list: seq<Enemy>, score: int, hits: seq<Enemy>)

  /** The `filter` callback of `updateProjectiles` for one shot: it moves; an
      expired shot is dropped; otherwise the first enemy in reach takes the
      damage, is spliced out for 100 points if it is then dead, and the shot
      is spent; a shot with nobody in reach flies on. */
  function Turn(p: Projectile, rules: Rules, view: map<Enemy, Sight>, v: Volley): Volley {
    var moved := Moved(p, rules.delta);
    if Expired(p, rules.now, rules.lifetime) then v
    else
      var first := Reach(moved.position, v.list, view);
      if first.None? then v.(shots := v.shots + [moved])
      else
        var e := v.list[first.value];
        var hits := v.hits + [e];
        var s := SeenAs(view, e);
        if Downed(s.dead, s.health, rules.damage, multiset(hits)[e]) then
          v.(list := RemoveAt(v.list, first.value), score := v.score + 100, hits := hits)
        else v.(hits := hits)
  }

  /** `this.projectiles.filter(...)` over the enemy list `list` and the score
      `score`: every shot in order takes its turn against the list as the
      earlier shots have left it. */
  function Pass(ps: seq<Projectile>, rules: Rules, view: map<Enemy, Sight>, list: seq<Enemy>, score: int): Volley
    decreases |ps|
  {
    if ps == [] then Volley([], list, score, [])
    else Turn(ps[|ps| - 1], rules, view, Pass(ps[..|ps| - 1], rules, view, list, score))
  }

  /** The pass over one more shot of `ps`. */
  lemma PassNext(ps: seq<Projectile>, i: nat, rules: Rules, view: map<Enemy, Sight>, list: seq<Enemy>, score: int)
    requires i < |ps|
    ensures Pass(ps[..i + 1], rules, view, list, score) == Turn(ps[i], rules, view, Pass(ps[..i], rules, view, list, score))
  {
    assert ps[..i + 1][..i] == ps[..i];
  }

  /** The pass over every shot of `ps`. */
  lemma PassWhole(ps: seq<Projectile>, rules: Rules, view: map<Enemy, Sight>, list: seq<Enemy>, score: int)
    ensures Pass(ps[..|ps|], rules, view, list, score) == Pass(ps, rules, view, list, score)
  {
    assert ps[..|ps|] == ps;
  }

  /** A turn keeps the shots flying on so far, adding at most its own. */
  lemma TurnKeepsShots(p: Projectile, rules: Rules, view: map<Enemy, Sight>, v: Volley)
    ensures var t := Turn(p, rules, view, v);
            t.shots == v.shots || t.shots == v.shots + [Moved(p, rules.delta)]
  {
  }

  /** The shots flying on after the first `i` shots stay, in order, at the
      head of those flying on after the whole pass. */
  lemma {:induction false} PassShotsGrow(ps: seq<Projectile>, i: nat, rules: Rules, view: map<Enemy, Sight>,
                                         list: seq<Enemy>, score: int)
    requires i <= |ps|
    ensures Pass(ps[..i], rules, view, list, score).shots <= Pass(ps, rules, view, list, score).shots
    decreases |ps|
  {
    if i == |ps| {
      assert ps[..i] == ps;
    } else {
      var init := ps[..|ps| - 1];
      PassShotsGrow(init, i, rules, view, list, score);
      assert init[..i] == ps[..i];
      TurnKeepsShots(ps[|ps| - 1], rules, view, Pass(init, rules, view, list, score));
    }
  }

  /** The fate of the shot at `i`: unexpired and clear of every enemy still
      listed at its turn, it flies on, moved, at its place among the
      survivors; otherwise it is spent. */
  lemma PassKeepsClearShots(ps: seq<Projectile>, i: nat, rules: Rules, view: map<Enemy, Sight>,
                            list: seq<Enemy>, score: int)
    requires i < |ps|
    ensures var before := Pass(ps[..i], rules, view, list, score);
            var moved := Moved(ps[i], rules.delta);
            var clear := !Expired(ps[i], rules.now, rules.lifetime)
                         && forall e :: e in before.list ==> DistanceSquared(moved.position, SeenAs(view, e).position) >= 1.0;
            var r := Pass(ps, rules, view, list, score);
            && (clear ==> |before.shots| < |r.shots| && r.shots[|before.shots|] == moved)
            && (!clear ==> Pass(ps[..i + 1], rules, view, list, score).shots == before.shots)
  {
    var before := Pass(ps[..i], rules, view, list, score);
    var moved := Moved(ps[i], rules.delta);
    PassNext(ps, i, rules, view, list, score);
    PassShotsGrow(ps, i + 1, rules, view, list, score);
    var first := Reach(moved.position, before.list, view);
    if first.Some? {
      assert before.list[first.value] in before.list;
    }
  }

  /** A splice keeps every enemy it leaves listed. */
  lemma RemoveAtMembers<T>(s: seq<T>, j: nat, x: T)
    requires j < |s| && x in RemoveAt(s, j)
    ensures x in s
  {
    var k :| 0 <= k < |RemoveAt(s, j)| && RemoveAt(s, j)[k] == x;
    assert x == s[if k < j then k else k + 1];
  }

  /** A turn keeps every shot flying on clear of the enemies still listed:
      the shot it adds is clear of them, and a splice only removes
      enemies. */
  lemma TurnKeepsClear(p: Projectile, rules: Rules, view: map<Enemy, Sight>, v: Volley)
    requires forall q, e :: q in v.shots && e in v.list ==> DistanceSquared(q.position, SeenAs(view, e).position) >= 1.0
    ensures var t := Turn(p, rules, view, v);
            && (forall q, e :: q in t.shots && e in t.list ==> DistanceSquared(q.position, SeenAs(view, e).position) >= 1.0)
            && forall q :: q in t.shots ==> q in v.shots || (!Expired(p, rules.now, rules.lifetime) && q == Moved(p, rules.delta))
  {
    var t := Turn(p, rules, view, v);
    var moved := Moved(p, rules.delta);
    if !Expired(p, rules.now, rules.lifetime) {
      var first := Reach(moved.position, v.list, view);
      if first.None? {
        forall q, e | q in t.shots && e in t.list
          ensures DistanceSquared(q.position, SeenAs(view, e).position) >= 1.0
        {
          if q !in v.shots {
            var k :| 0 <= k < |v.list| && v.list[k] == e;
          }
        }
      } else if t.list != v.list {
        forall q, e | q in t.shots && e in t.list
          ensures DistanceSquared(q.position, SeenAs(view, e).position) >= 1.0
        {
          RemoveAtMembers(v.list, first.value, e);
        }
      }
    }
  }

  /** Every shot that flies on is one of the flight's (an unexpired shot of
      the pass, moved; see `FlightKeepsUnexpired`), and is clear of every
      enemy still listed at the end. */
  lemma {:induction false} PassShotsAreClear(ps: seq<Projectile>, rules: Rules, view: map<Enemy, Sight>,
                                             list: seq<Enemy>, score: int)
    ensures var r := Pass(ps, rules, view, list, score);
            && (forall q :: q in r.shots ==> q in Flight(ps, rules.delta, rules.now, rules.lifetime))
            && forall q, e :: q in r.shots && e in r.list ==> DistanceSquared(q.position, SeenAs(view, e).position) >= 1.0
    decreases |ps|
  {
    if ps != [] {
      var init := ps[..|ps| - 1];
      var last := ps[|ps| - 1];
      PassShotsAreClear(init, rules, view, list, score);
      TurnKeepsClear(last, rules, view, Pass(init, rules, view, list, score));
      assert ps == init + [last];
      FlightSnoc(init, last, rules.delta, rules.now, rules.lifetime);
    }
  }

  /** One turn spends or keeps its shot: an unexpired shot either flies on
      or strikes one enemy still listed. */
  lemma TurnHits(p: Projectile, rules: Rules, view: map<Enemy, Sight>, v: Volley)
    ensures var t := Turn(p, rules, view, v);
            && |t.shots| + |t.hits| == |v.shots| + |v.hits| + (if Expired(p, rules.now, rules.lifetime) then 0 else 1)
            && forall e :: e in t.hits ==> e in v.hits || e in v.list
  {
  }

  /** Every unexpired shot either flies on or strikes exactly one enemy. */
  lemma {:induction false} PassSpendsShots(ps: seq<Projectile>, rules: Rules, view: map<Enemy, Sight>,
                                           list: seq<Enemy>, score: int)
    ensures var r := Pass(ps, rules, view, list, score);
            |r.shots| + |r.hits| == |Flight(ps, rules.delta, rules.now, rules.lifetime)|
    decreases |ps|
  {
    if ps != [] {
      var init := ps[..|ps| - 1];
      PassSpendsShots(init, rules, view, list, score);
      assert ps == init + [ps[|ps| - 1]];
      FlightSnoc(init, ps[|ps| - 1], rules.delta, rules.now, rules.lifetime);
      TurnHits(ps[|ps| - 1], rules, view, Pass(init, rules, view, list, score));
    }
  }

  /** Every enemy struck is one of the listed enemies. */
  lemma {:induction false} PassHitsListed(ps: seq<Projectile>, rules: Rules, view: map<Enemy, Sight>,
                                          list: seq<Enemy>, score: int)
    ensures forall e :: e in Pass(ps, rules, view, list, score).hits ==> e in list
    decreases |ps|
  {
    if ps != [] {
      var init := ps[..|ps| - 1];
      var before := Pass(init, rules, view, list, score);
      PassHitsListed(init, rules, view, list, score);
      TurnHits(ps[|ps| - 1], rules, view, before);
      forall e | e in before.list
        ensures e in list
      {
        PassSplices(init, rules, view, list, score);
        SubsequenceMembers(before.list, list, e);
      }
    }
  }

  /** Only enemies struck dead have left `v.list`: it is an ordered
      subsequence of `list`, every copy it lost belongs to an enemy that is
      dead and is matched by a hit on it, and the score has risen from
      `score` by exactly 100 per enemy spliced out. */
  ghost predicate SplicedFrom(v: Volley, list: seq<Enemy>, score: int, view: map<Enemy, Sight>, damage: real) {
    && IsSubsequence(v.list, list)
    && v.score == score + 100 * (|list| - |v.list|)
    && forall e :: e in list && multiset(v.list)[e] < multiset(list)[e] ==>
         var s := SeenAs(view, e);
         && Downed(s.dead, s.health, damage, multiset(v.hits)[e])
         && multiset(list)[e] - multiset(v.list)[e] <= multiset(v.hits)[e]
  }

  /** A hit that leaves its enemy listed keeps `SplicedFrom`. */
  lemma SpliceWound(v: Volley, w: Volley, x: Enemy, list: seq<Enemy>, score: int, view: map<Enemy, Sight>, damage: real)
    requires SplicedFrom(v, list, score, view, damage)
    requires w.list == v.list && w.score == v.score && w.hits == v.hits + [x]
    ensures SplicedFrom(w, list, score, view, damage)
  {
    assert multiset(w.hits) == multiset(v.hits) + multiset{x};
    forall e | e in list && multiset(w.list)[e] < multiset(list)[e]
      ensures var s := SeenAs(view, e);
              Downed(s.dead, s.health, damage, multiset(w.hits)[e])
    {
      var s := SeenAs(view, e);
      DownedStays(s.dead, s.health, damage, multiset(v.hits)[e], multiset(w.hits)[e]);
    }
  }

  /** A hit that splices out the enemy at `j`, dead, for 100 points keeps
      `SplicedFrom`. */
  lemma SpliceKill(v: Volley, w: Volley, j: nat, list: seq<Enemy>, score: int, view: map<Enemy, Sight>, damage: real)
    requires SplicedFrom(v, list, score, view, damage) && j < |v.list|
    requires w.list == RemoveAt(v.list, j) && w.score == v.score + 100 && w.hits == v.hits + [v.list[j]]
    requires var s := SeenAs(view, v.list[j]); Downed(s.dead, s.health, damage, multiset(w.hits)[v.list[j]])
    ensures SplicedFrom(w, list, score, view, damage)
  {
    var x := v.list[j];
    assert multiset(w.hits) == multiset(v.hits) + multiset{x};
    RemoveAtSubsequence(v.list, j, list);
    RemoveAtCounts(v.list, j);
    forall e | e in list && multiset(w.list)[e] < multiset(list)[e]
      ensures var s := SeenAs(view, e);
              && Downed(s.dead, s.health, damage, multiset(w.hits)[e])
              && multiset(list)[e] - multiset(w.list)[e] <= multiset(w.hits)[e]
    {
      if e != x {
        assert multiset(w.list)[e] == multiset(v.list)[e] && multiset(w.hits)[e] == multiset(v.hits)[e];
      }
    }
  }

  /** A turn splices out only the enemy it struck dead. */
  lemma TurnSplices(p: Projectile, rules: Rules, view: map<Enemy, Sight>, v: Volley, list: seq<Enemy>, score: int)
    requires SplicedFrom(v, list, score, view, rules.damage)
    ensures SplicedFrom(Turn(p, rules, view, v), list, score, view, rules.damage)
  {
    var t := Turn(p, rules, view, v);
    var moved := Moved(p, rules.delta);
    if !Expired(p, rules.now, rules.lifetime) && Reach(moved.position, v.list, view).Some? {
      var j := Reach(moved.position, v.list, view).value;
      if t.list == v.list {
        SpliceWound(v, t, v.list[j], list, score, view, rules.damage);
      } else {
        SpliceKill(v, t, j, list, score, view, rules.damage);
      }
    }
  }

  /** Over a whole pass, only enemies struck dead leave the list, for 100
      points each. */
  lemma {:induction false} PassSplices(ps: seq<Projectile>, rules: Rules, view: map<Enemy, Sight>,
                                       list: seq<Enemy>, score: int)
    ensures SplicedFrom(Pass(ps, rules, view, list, score), list, score, view, rules.damage)
    decreases |ps|
  {
    if ps == [] {
      SubsequenceReflexive(list);
    } else {
      var init := ps[..|ps| - 1];
      PassSplices(init, rules, view, list, score);
      TurnSplices(ps[|ps| - 1], rules, view, Pass(init, rules, view, list, score), list, score);
    }
  }

  /** With no enemy listed the pass is exactly the flight, and the score is
      unchanged. */
  lemma {:induction false} PassWithoutEnemies(ps: seq<Projectile>, rules: Rules, view: map<Enemy, Sight>, score: int)
    ensures Pass(ps, rules, view, [], score) == Volley(Flight(ps, rules.delta, rules.now, rules.lifetime), [], score, [])
    decreases |ps|
  {
    if ps != [] {
      var init := ps[..|ps| - 1];
      PassWithoutEnemies(init, rules, view, score);
      assert ps == init + [ps[|ps| - 1]];
      FlightSnoc(init, ps[|ps| - 1], rules.delta, rules.now, rules.lifetime);
    }
  }

  /** The enemies' start state as the pass reads it. */
  ghost function Sighting(es: seq<Enemy>): map<Enemy, Sight>
    reads set e | e in es
  {
    map e | e in es :: Sight(e.position, e.health, e.isDead)
  }

  /** The enemy objects of `es` are in the state that `v`'s hits leave them
      in, from the start state `view`, under `damage` per hit. */
  ghost predicate Mirrors(es: seq<Enemy>, view: map<Enemy, Sight>, damage: real, v: Volley)
    reads set e | e in es
  {
    forall e :: e in es ==>
      var s := SeenAs(view, e);
      var n := multiset(v.hits)[e];
      e.position == s.position && e.health == Worn(s.health, damage, n) && e.isDead == Downed(s.dead, s.health, damage, n)
  }

  /** The velocity component after decelerating for `delta` seconds: it is
      scaled by `1 - rate * delta`. */
  function Decayed(v: real, rate: real, delta: real): (r: real)
    ensures r == v * (1.0 - rate * delta)
  {
    v - v * rate * delta
  }

  /** The velocity component after `delta` seconds of acceleration `rate`
      along the key direction component `n`, with the source's sign. */
  function Pushed(v: real, n: real, rate: real, delta: real): real {
    v - n * rate * delta
  }

  /** The camera position `p` after `translateX(vx * delta)` and
      `translateZ(vz * delta)` along the world vectors `right` and `back` of
      its local x and z axes, then pinned to eye height 2.4. */
  function Walked(p: Vec3, right: Vec3, back: Vec3, vx: real, vz: real, delta: real): Vec3 {
    Add(Add(p, Scale(right, vx * delta)), Scale(back, vz * delta)).(y := 2.4)
  }

  class PlayerController {
    /** `config.movement`. */
    const acceleration: real
    const deceleration: real
    const maxSpeed: real
    /** `config.combat`. */
    const fireRate: real
    const projectileSpeed: real
    const projectileLifetime: real
    const damage: real

    /** The key state written by the `keydown`/`keyup` listeners. */
    var keys: map<string, bool>
    /** `velocity.x` and `velocity.z`; `velocity.y` is never written. */
    var vx: real
    var vz: real
    /** The camera position (`controls.getObject().position`). */
    var position: Vec3
    var projectiles: seq<Projectile>
    var cooldown: real
    var score: int
    /** Set by a left click, consumed by the next `update`. */
    var queueShot: bool

    ghost predicate Valid()
      reads this
    {
      maxSpeed >= 0.0 && fireRate > 0.0 && score >= 0
    }

    /** `new PlayerController(camera, renderer, scene, hud, config)`. */
    constructor (acceleration: real, deceleration: real, maxSpeed: real,
                 fireRate: real, projectileSpeed: real, projectileLifetime: real, damage: real, start: Vec3)
      requires maxSpeed >= 0.0 && fireRate > 0.0
      ensures Valid()
      ensures this.acceleration == acceleration && this.deceleration == deceleration && this.maxSpeed == maxSpeed
      ensures this.fireRate == fireRate && this.projectileSpeed == projectileSpeed
      ensures this.projectileLifetime == projectileLifetime && this.damage == damage
      ensures keys == map[] && vx == 0.0 && vz == 0.0 && position == start
      ensures projectiles == [] && cooldown == 0.0 && score == 0 && !queueShot
    {
      this.acceleration := acceleration;
      this.deceleration := deceleration;
      this.maxSpeed := maxSpeed;
      this.fireRate := fireRate;
      this.projectileSpeed := projectileSpeed;
      this.projectileLifetime := projectileLifetime;
      this.damage := damage;
      keys := map[];
      vx, vz := 0.0, 0.0;
      position := start;
      projectiles := [];
      cooldown := 0.0;
      score := 0;
      queueShot := false;
    }

    /** A key is held when its last event was a `keydown`. */
    predicate Held(code: string)
      reads this
    {
      code in keys && keys[code]
    }

    /** The `keydown` listener. */
    method KeyDown(code: string)
      modifies this`keys
      ensures keys == old(keys)[code := true]
    {
      keys := keys[code := true];
    }

    /** The `keyup` listener. */
    method KeyUp(code: string)
      modifies this`keys
      ensures keys == old(keys)[code := false]
    {
      keys := keys[code := false];
    }

    /** The `mousedown` listener: only the primary button queues a shot. */
    method MouseDown(button: int)
      modifies this`queueShot
      ensures queueShot == (old(queueShot) || button == 0)
    {
      if button == 0 {
        queueShot := true;
      }
    }

    /** `setPosition(position)`. */
    method SetPosition(p: Vec3)
      modifies this`position
      ensures position == p
    {
      position := p;
    }

    /** The velocity `(vx, vz)` after one `update` with key direction
        `(dx, dz)`: pushed against the normalised direction, or decayed
        when no key direction is held, then clamped to the speed limit.
        `diag` is 1/sqrt(2), for normalising a diagonal. */
    function Steered(vx: real, vz: real, dx: real, dz: real, diag: real, delta: real): (real, real) {
      var n := Normalized(dx, dz, diag);
      if dx != 0.0 || dz != 0.0 then
        (ClampTo(Pushed(vx, n.0, acceleration, delta), -maxSpeed, maxSpeed),
         ClampTo(Pushed(vz, n.1, acceleration, delta), -maxSpeed, maxSpeed))
      else
        (ClampTo(Decayed(vx, deceleration, delta), -maxSpeed, maxSpeed),
         ClampTo(Decayed(vz, deceleration, delta), -maxSpeed, maxSpeed))
    }

    /** The velocity part of `update`: the held keys accelerate the velocity,
        with no key it decays, and each component is clamped to the speed
        limit. */
    method Accelerate(delta: real, diag: real)
      requires Valid() && diag > 0.0 && diag * diag == 0.5
      modifies this`vx, this`vz
      ensures Valid()
      ensures -maxSpeed <= vx <= maxSpeed && -maxSpeed <= vz <= maxSpeed
      ensures (vx, vz) == Steered(old(vx), old(vz), KeyAxis(Held("KeyA"), Held("KeyD")), KeyAxis(Held("KeyW"), Held("KeyS")), diag, delta)
    {
      var dx := KeyAxis(Held("KeyA"), Held("KeyD"));
      var dz := KeyAxis(Held("KeyW"), Held("KeyS"));
      var n := Normalized(dx, dz, diag);
      if dx != 0.0 || dz != 0.0 {
        vx := Pushed(vx, n.0, acceleration, delta);
        vz := Pushed(vz, n.1, acceleration, delta);
      } else {
        vx := Decayed(vx, deceleration, delta);
        vz := Decayed(vz, deceleration, delta);
      }
      vx := ClampTo(vx, -maxSpeed, maxSpeed);
      vz := ClampTo(vz, -maxSpeed, maxSpeed);
    }

    /** The translation part of `update`: the camera moves by the velocity
        along its local x and z axes (`right` and `back` in world terms) and
        is then pinned to eye height. */
    method Translate(delta: real, right: Vec3, back: Vec3)
      modifies this`position
      ensures position == Walked(old(position), right, back, vx, vz, delta)
    {
      position := Add(position, Scale(right, vx * delta));
      position := Add(position, Scale(back, vz * delta));
      position := position.(y := 2.4);
    }

    /** `shoot()`: a new shot leaves the camera position along the aim
        direction at projectile speed, stamped with the clock. */
    method Shoot(aim: Vec3, now: real)
      modifies this`projectiles
      ensures projectiles == old(projectiles) + [Projectile(position, Scale(aim, projectileSpeed), now)]
    {
      projectiles := projectiles + [Projectile(position, Scale(aim, projectileSpeed), now)];
    }

    /** The firing part of `update`: the cooldown runs down, a queued shot fires
        only once it has run out, and the queue is cleared either way. */
    method Fire(delta: real, aim: Vec3, now: real)
      requires Valid()
      modifies this`cooldown, this`queueShot, this`projectiles
      ensures Valid()
      ensures !queueShot
      ensures old(queueShot) && old(cooldown) - delta <= 0.0 ==>
                && cooldown == 1.0 / fireRate
                && projectiles == old(projectiles) + [Projectile(position, Scale(aim, projectileSpeed), now)]
      ensures !(old(queueShot) && old(cooldown) - delta <= 0.0) ==>
                cooldown == old(cooldown) - delta && projectiles == old(projectiles)
    {
      cooldown := cooldown - delta;
      if queueShot && cooldown <= 0.0 {
        Shoot(aim, now);
        cooldown := 1.0 / fireRate;
      }
      queueShot := false;
    }

    /** The rules of this frame's projectile pass. */
    function RulesAt(delta: real, now: real): Rules {
      Rules(delta, now, projectileLifetime, damage)
    }

    /** The inner `for` loop of `updateProjectiles`: the first enemy, in list
        order, within distance 1 of `p`. */
    method FirstHit(p: Vec3, enemies: seq<Enemy>, ghost view: map<Enemy, Sight>) returns (r: Option<nat>)
      requires forall k :: 0 <= k < |enemies| ==> SeenAs(view, enemies[k]).position == enemies[k].position
      ensures r == Reach(p, enemies, view)
    {
      var i := 0;
      while i < |enemies|
        invariant 0 <= i <= |enemies|
        invariant forall k :: 0 <= k < i ==> DistanceSquared(p, enemies[k].position) >= 1.0
      {
        if DistanceSquared(p, enemies[i].position) < 1.0 {
          return Some(i);
        }
        i := i + 1;
      }
      return None;
    }

    /** One projectile's turn in the `filter` of `updateProjectiles`, on the
        enemy objects themselves; `kept` is the shot when it flies on and
        `remaining` the list after a splice. `all` holds every enemy the pass
        may touch, `view` their start state and `v` the pass so far. */
    method StepProjectile(p: Projectile, delta: real, now: real, enemies: seq<Enemy>,
                          ghost all: seq<Enemy>, ghost view: map<Enemy, Sight>, ghost v: Volley)
      returns (kept: Option<Projectile>, remaining: seq<Enemy>)
      requires Valid() && v.list == enemies && v.score == score
      requires (forall e :: e in enemies ==> e in all) && Mirrors(all, view, damage, v)
      modifies this`score, set e | e in enemies
      ensures Valid()
      ensures var t := Turn(p, RulesAt(delta, now), view, v);
              && t.shots == v.shots + kept.AsSeq() && remaining == t.list && score == t.score
              && Mirrors(all, view, damage, t)
    {
      var moved := Moved(p, delta);
      if Expired(p, now, projectileLifetime) {
        return None, enemies;
      }
      var first := FirstHit(moved.position, enemies, view);
      if first.None? {
        return Some(moved), enemies;
      }
      remaining := HitAt(enemies, first.value, all, view, v);
      kept := None;
    }

    /** The hit branch of that turn: `enemies[j]` takes `hit(damage)` and, if
        it is then dead, is spliced out for 100 points. */
    method HitAt(enemies: seq<Enemy>, j: nat, ghost all: seq<Enemy>, ghost view: map<Enemy, Sight>, ghost v: Volley)
      returns (remaining: seq<Enemy>)
      requires j < |enemies| && enemies[j] in all && Mirrors(all, view, damage, v)
      modifies this`score, enemies[j]
      ensures var e := enemies[j];
              var hits := v.hits + [e];
              var s := SeenAs(view, e);
              var dead := Downed(s.dead, s.health, damage, multiset(hits)[e]);
              && remaining == (if dead then RemoveAt(enemies, j) else enemies)
              && score == old(score) + (if dead then 100 else 0)
              && Mirrors(all, view, damage, v.(hits := hits))
    {
      var target := enemies[j];
      ghost var hits := v.hits + [target];
      assert multiset(hits) == multiset(v.hits) + multiset{target};
      ghost var n := multiset(v.hits)[target];
      target.Hit(damage);
      forall e: Enemy | e in all
        ensures var s := SeenAs(view, e);
                var m := multiset(hits)[e];
                e.position == s.position && e.health == Worn(s.health, damage, m) && e.isDead == Downed(s.dead, s.health, damage, m)
      {
        if e != target {
          assert multiset(hits)[e] == multiset(v.hits)[e];
        }
      }
      remaining := enemies;
      if target.isDead {
        remaining := RemoveAt(enemies, j);
        score := score + 100;
      }
    }

    /** `updateProjectiles(delta, enemies)`: every shot in turn, against the
        enemy list as earlier shots have left it. Returns the list after the
        splices; each enemy object has taken `damage` once per shot that
        struck it. */
    method UpdateProjectiles(delta: real, now: real, enemies: seq<Enemy>) returns (remaining: seq<Enemy>)
      requires Valid()
      modifies this`score, this`projectiles, set e | e in enemies
      ensures Valid()
      ensures var r := Pass(old(projectiles), RulesAt(delta, now), old(Sighting(enemies)), enemies, old(score));
              && projectiles == r.shots && remaining == r.list && score == r.score
              && forall e :: e in enemies ==>
                   var n := multiset(r.hits)[e];
                   && e.position == old(e.position)
                   && e.health == Worn(old(e.health), damage, n)
                   && e.isDead == Downed(old(e.isDead), old(e.health), damage, n)
    {
      var ps := projectiles;
      ghost var rules := RulesAt(delta, now);
      ghost var view := Sighting(enemies);
      ghost var start := score;
      var kept: seq<Projectile> := [];
      remaining := enemies;
      var i := 0;
      while i < |ps|
        invariant 0 <= i <= |ps| && Valid()
        invariant var v := Pass(ps[..i], rules, view, enemies, start);
                  && kept == v.shots && remaining == v.list && score == v.score
                  && Mirrors(enemies, view, damage, v)
      {
        ghost var v := Pass(ps[..i], rules, view, enemies, start);
        PassNext(ps, i, rules, view, enemies, start);
        PassSplices(ps[..i], rules, view, enemies, start);
        forall e | e in remaining
          ensures e in enemies
        {
          SubsequenceMembers(remaining, enemies, e);
        }
        var q, rest := StepProjectile(ps[i], delta, now, remaining, enemies, view, v);
        kept := kept + q.AsSeq();
        remaining := rest;
        i := i + 1;
      }
      PassWhole(ps, rules, view, enemies, start);
      projectiles := kept;
    }

    /** `update(delta, enemies)`: steer, move, fire, then run the projectile
        pass; returns the enemy list after the pass's splices. `diag` is
        1/sqrt(2), for normalising a diagonal. */
    method Update(delta: real, enemies: seq<Enemy>, right: Vec3, back: Vec3, diag: real, aim: Vec3, now: real)
      returns (remaining: seq<Enemy>)
      requires Valid() && diag > 0.0 && diag * diag == 0.5
      modifies this`vx, this`vz, this`position, this`cooldown, this`queueShot, this`projectiles, this`score,
               set e | e in enemies
      ensures Valid()
      // the velocity of `Accelerate`
      ensures (vx, vz) == Steered(old(vx), old(vz), KeyAxis(Held("KeyA"), Held("KeyD")), KeyAxis(Held("KeyW"), Held("KeyS")), diag, delta)
      // the move of `Translate`, by the new velocity
      ensures position == Walked(old(position), right, back, vx, vz, delta)
      // the cooldown and queue of `Fire`
      ensures !queueShot
      ensures old(queueShot) && old(cooldown) - delta <= 0.0 ==> cooldown == 1.0 / fireRate
      ensures !(old(queueShot) && old(cooldown) - delta <= 0.0) ==> cooldown == old(cooldown) - delta
      // the pass, over the shots after `Fire`, the new one leaving the new position
      ensures var fired := old(queueShot) && old(cooldown) - delta <= 0.0;
              var shots := old(projectiles) + (if fired then [Projectile(position, Scale(aim, projectileSpeed), now)] else []);
              var r := Pass(shots, RulesAt(delta, now), old(Sighting(enemies)), enemies, old(score));
              && projectiles == r.shots && remaining == r.list && score == r.score
              && forall e :: e in enemies ==>
                   var n := multiset(r.hits)[e];
                   && e.position == old(e.position)
                   && e.health == Worn(old(e.health), damage, n)
                   && e.isDead == Downed(old(e.isDead), old(e.health), damage, n)
    {
      Accelerate(delta, diag);
      ghost var vx1, vz1 := vx, vz;
      assert position == old(position);
      Translate(delta, right, back);
      ghost var moved := position;
      ghost var fired := queueShot && cooldown - delta <= 0.0;
      Fire(delta, aim, now);
      if fired {
        assert projectiles == old(projectiles) + [Projectile(position, Scale(aim, projectileSpeed), now)];
      } else {
        assert projectiles == old(projectiles) + [];
      }
      assert forall e :: e in enemies ==> e.position == old(e.position) && e.health == old(e.health) && e.isDead == old(e.isDead);
      assert Sighting(enemies) == old(Sighting(enemies));
      remaining := UpdateProjectiles(delta, now, enemies);
      assert vx == vx1 && vz == vz1 && position == moved && keys == old(keys);
    }
  }
}
