/** The wave scheduler of `scripts/enemy/enemySpawner.js`: a state machine over
    an ordered list of waves (start, paced spawning, clearance, intermission,
    schedule complete) that asks the difficulty controller to reshape each wave.

    Enemies are tracked as abstract records: their own per-tick behaviour is a
    parameter `advance` that may move them, kill them and set a death timer. */
module Spawner {
  import opened Common
  import opened Collision
  import opened Difficulty

  /** An enemy as the scheduler sees it. `deathTimer` is `None` while the enemy
      has none (`undefined`, which never compares `<= 0`). */
  datatype SpawnedEnemy = SpawnedEnemy(
    id: EnemyId, archetype: string, position: Vec3, spawnedAt: real,
    isDead: bool, deathTimer: Option<real>, killRecorded: bool)

  /** What an enemy's own `update` may change. */
  datatype EnemyTick = EnemyTick(position: Vec3, isDead: bool, deathTimer: Option<real>)

  /** A level obstacle: centre position and size (width, height, depth). */
  datatype ObstacleSpec = ObstacleSpec(position: Vec3, size: Vec3)

  /** The callbacks the scheduler invokes, recorded in call order. */
  datatype SpawnerEvent =
    | WaveStart(waveNumber: int, totalWaves: int, wave: Wave)
    | WaveComplete(waveNumber: int, totalWaves: int)
    | Intermission(nextWave: int, totalWaves: int, remaining: real)
    | ScheduleComplete

  /** `config.enemies`: the fields the scheduler reads (0 and `[]` stand for
      missing). `archetypes` is the key set of the archetype table, `None`
      when the table itself is missing, so that indexing it throws. */
  datatype EnemiesConfig = EnemiesConfig(
    spawnInterval: real,
    maxSimultaneous: int,
    waves: seq<Wave>,
    waveIntermission: real,
    defaultType: string,
    archetypes: Option<set<string>>,
    difficulty: Option<DifficultyConfig>)

  /** A value handed to `new Enemy(position, config)`, by position. */
  datatype EnemyArg = SceneArg | PointArg(point: Vec3) | ConfigArg(config: EnemiesConfig)

  /** `new Enemy(position, config)` of `scripts/enemy/enemy.js`. Its first step
      reads `config.enemies.speed`, which throws (`None`) unless `config` is the
      game configuration; otherwise the new enemy stands at `position`. */
  function ConstructEnemy(position: EnemyArg, config: EnemyArg): (r: Option<EnemyArg>)
    ensures r.Some? <==> config.ConfigArg?
    ensures r.Some? ==> r.value == position
  {
    if config.ConfigArg? then Some(position) else None
  }

  /** `createEnemyInstance(type, spawnPoint)` as written: it calls
      `new Enemy(this.scene, spawnPoint, this.config, type)`, so the scene is
      bound to `position` and the spawn point to `config`. */
  function CreateEnemyInstanceAsWritten(config: EnemiesConfig, archetype: string, point: Vec3): Option<EnemyArg> {
    ConstructEnemy(SceneArg, PointArg(point))
  }

  /** As written, creating an enemy throws whatever the type, point and
      configuration. */
  lemma CreateEnemyInstanceAlwaysThrows(config: EnemiesConfig, archetype: string, point: Vec3)
    ensures CreateEnemyInstanceAsWritten(config, archetype, point).None?
  {
  }

  /** `createEnemyInstance` with the arguments `Enemy` declares,
      `new Enemy(spawnPoint, this.config)`: the enemy is created, at the spawn
      point. */
  function CreateEnemyInstance(config: EnemiesConfig, point: Vec3): (r: Option<EnemyArg>)
    ensures r == Some(PointArg(point))
  {
    ConstructEnemy(PointArg(point), ConfigArg(config))
  }

  /** Difficulty settings under which the modifier can never reach 0, so that
      `applyToWave` never divides by zero. */
  predicate SaneDifficulty(c: DifficultyConfig) {
    && 0.0 < c.minModifier.GetOr(0.85) <= 1.0 <= c.maxModifier.GetOr(1.25)
    && 0.0 <= c.smoothing.GetOr(0.15) <= 1.0
  }


  /** An archetype that exists and passes the allow-list (empty = any). */
  predicate Allowed(archetypes: set<string>, allowedTypes: seq<string>, t: string) {
    t in archetypes && (allowedTypes == [] || t in allowedTypes)
  }

  /** `isTypeAllowed(type)`: `None` when the archetype table is missing and
      reading `archetypes[type]` throws. */
  function IsTypeAllowed(config: EnemiesConfig, allowedTypes: seq<string>, t: string): (r: Option<bool>)
    ensures r.None? <==> config.archetypes.None?
    ensures config.archetypes.Some? && t !in config.archetypes.value ==> r == Some(false)
    ensures config.archetypes.Some? && t in config.archetypes.value && allowedTypes == [] ==> r == Some(true)
    ensures config.archetypes.Some? && t in config.archetypes.value && allowedTypes != [] ==>
              r == Some(t in allowedTypes)
  {
    if config.archetypes.None? then None else Some(Allowed(config.archetypes.value, allowedTypes, t))
  }

  /** The candidates of `pickEnemyType`: the wave's types, or the default type. */
  function AvailableTypes(config: EnemiesConfig, wave: Wave): (r: seq<string>)
    ensures |r| > 0
  {
    if |wave.types| > 0 then wave.types else [config.defaultType]
  }

  /** `pickEnemyType(wave)` with `roll` the `Math.random()` draw. */
  function PickEnemyType(config: EnemiesConfig, allowedTypes: seq<string>, wave: Wave, roll: real): Option<string>
    requires 0.0 <= roll < 1.0
  {
    if config.archetypes.None? then None
    else
      var archetypes := config.archetypes.value;
      var available := AvailableTypes(config, wave);
      var valid := Filter(available, t => Allowed(archetypes, allowedTypes, t));
      var pool := if |valid| > 0 then valid else [config.defaultType];
      Some(pool[PickIndex(roll, |pool|)])
  }

  /** The pick is an allowed candidate, or the default type when no candidate
      is allowed. The filter tests at least one candidate, so a missing
      archetype table throws. */
  lemma PickEnemyTypeChoice(config: EnemiesConfig, allowedTypes: seq<string>, wave: Wave, roll: real)
    requires 0.0 <= roll < 1.0
    ensures var r := PickEnemyType(config, allowedTypes, wave, roll);
      && (r.None? <==> config.archetypes.None?)
      && (r.Some? && (exists t :: t in AvailableTypes(config, wave) && IsTypeAllowed(config, allowedTypes, t) == Some(true)) ==>
            r.value in AvailableTypes(config, wave) && IsTypeAllowed(config, allowedTypes, r.value) == Some(true))
      && (r.Some? && (forall t :: t in AvailableTypes(config, wave) ==> IsTypeAllowed(config, allowedTypes, t) == Some(false)) ==>
            r.value == config.defaultType)
  {
    if config.archetypes.Some? {
      var valid := Filter(AvailableTypes(config, wave), t => Allowed(config.archetypes.value, allowedTypes, t));
      assert |valid| > 0 ==> valid[0] in valid;
    }
  }

  /** The box of an obstacle: its centre minus and plus half its size. */
  function BoxOf(o: ObstacleSpec): (b: Box)
    ensures b.min.x + b.max.x == 2.0 * o.position.x && b.max.x - b.min.x == o.size.x
    ensures b.min.y + b.max.y == 2.0 * o.position.y && b.max.y - b.min.y == o.size.y
    ensures b.min.z + b.max.z == 2.0 * o.position.z && b.max.z - b.min.z == o.size.z
  {
    var half := Vec3(o.size.x / 2.0, o.size.y / 2.0, o.size.z / 2.0);
    Box(Vec3(o.position.x - half.x, o.position.y - half.y, o.position.z - half.z),
        Vec3(o.position.x + half.x, o.position.y + half.y, o.position.z + half.z))
  }

  // ---------------------------------------------------------------- schedule

  /** The scheduler's counters and the callbacks made so far. */
  datatype Schedule = Schedule(waveIndex: int, spawned: int, spawnTimer: real, intermission: real,
                               complete: bool, events: seq<SpawnerEvent>)

  /** What the scheduler is set up with: configuration, waves, spawn points
      and the allow-list. */
  datatype Setup = Setup(config: EnemiesConfig, waves: seq<Wave>, spawnPoints: seq<Vec3>, allowed: seq<string>)

  /** The inputs of one `update` from outside the game state: the two
      `Math.random()` draws, the id a new enemy gets, and the clock. */
  datatype Draw = Draw(typeRoll: real, pointRoll: real, id: EnemyId, now: real)

  predicate Fair(d: Draw) {
    0.0 <= d.typeRoll < 1.0 && 0.0 <= d.pointRoll < 1.0
  }

  /** The callback `startNextWave` makes on reaching index `i`. */
  function StartEvent(i: int, waves: seq<Wave>): seq<SpawnerEvent>
    requires i >= 0
  {
    if i >= |waves| then [ScheduleComplete] else [WaveStart(i + 1, |waves|, waves[i])]
  }

  /** `startNextWave()`. */
  function StartNext(s: Schedule, waves: seq<Wave>): Schedule
    requires s.waveIndex >= -1
  {
    var i := s.waveIndex + 1;
    Schedule(i, 0, 0.0, 0.0, s.complete || i >= |waves|, s.events + StartEvent(i, waves))
  }

  /** The pause after wave `w`: its own, else the configured one (0 when neither is set). */
  function IntermissionOf(w: Wave, config: EnemiesConfig): real {
    if w.intermission != 0.0 then w.intermission else config.waveIntermission
  }

  /** `finishWave()`. */
  function Finish(s: Schedule, waves: seq<Wave>, config: EnemiesConfig): Schedule
    requires 0 <= s.waveIndex < |waves|
  {
    var n := s.waveIndex + 1;
    if n >= |waves| then s.(complete := true, events := s.events + [WaveComplete(n, |waves|), ScheduleComplete])
    else s.(intermission := IntermissionOf(waves[s.waveIndex], config), events := s.events + [WaveComplete(n, |waves|)])
  }

  /** The first update of a schedule that has waves and has not begun. */
  predicate Opens(s: Schedule, waves: seq<Wave>) {
    !s.complete && |waves| > 0 && s.waveIndex == -1
  }

  /** The opening of `update` (before the difficulty update): the spawn timer
      runs down, the first wave starts, and a running intermission counts down. */
  function Advance(s: Schedule, waves: seq<Wave>, delta: real): Schedule
    requires s.waveIndex >= -1
  {
    var timed := s.(spawnTimer := s.spawnTimer - delta);
    var begun := if Opens(s, waves) then StartNext(timed, waves) else timed;
    if begun.intermission > 0.0 then
      var left := begun.intermission - delta;
      var counted := begun.(intermission := left,
                            events := begun.events + [Intermission(begun.waveIndex + 2, |waves|,
                                                                   if left >= 0.0 then left else 0.0)]);
      if left <= 0.0 then StartNext(counted, waves) else counted
    else begun
  }

  /** What the opening of `update` does, case by case. */
  lemma AdvanceCases(s: Schedule, waves: seq<Wave>, delta: real)
    requires s.waveIndex >= -1
    ensures var r := Advance(s, waves, delta);
      // completion is never undone, and the index moves on by at most one wave
      && (s.complete ==> r.complete)
      && s.waveIndex <= r.waveIndex <= s.waveIndex + 1
      // the first update of a fresh schedule starts wave 1
      && (Opens(s, waves) ==> r == Schedule(0, 0, 0.0, 0.0, false, s.events + [WaveStart(1, |waves|, waves[0])]))
      // a running intermission reports the time left, and starts the next wave once it has run out
      && (!Opens(s, waves) && 0.0 < s.intermission && delta < s.intermission ==>
            r == s.(spawnTimer := s.spawnTimer - delta, intermission := s.intermission - delta,
                    events := s.events + [Intermission(s.waveIndex + 2, |waves|, s.intermission - delta)]))
      && (!Opens(s, waves) && 0.0 < s.intermission <= delta ==>
            && r.waveIndex == s.waveIndex + 1 && r.spawned == 0 && r.spawnTimer == 0.0 && r.intermission == 0.0
            && r.complete == (s.complete || s.waveIndex + 1 >= |waves|)
            && r.events == s.events + [Intermission(s.waveIndex + 2, |waves|, 0.0)] + StartEvent(s.waveIndex + 1, waves))
      // otherwise only the spawn timer runs down
      && (!Opens(s, waves) && s.intermission <= 0.0 ==> r == s.(spawnTimer := s.spawnTimer - delta))
  {
  }

  /** The spawn condition for the adjusted wave `w` with `alive` enemies on the field. */
  predicate Due(s: Schedule, w: Wave, alive: nat, config: EnemiesConfig) {
    s.spawnTimer <= 0.0 && s.spawned < w.count && alive < config.maxSimultaneous
  }

  /** `adjustedWave.spawnInterval || config.enemies.spawnInterval`. */
  function IntervalOf(w: Wave, config: EnemiesConfig): real {
    if w.spawnInterval != 0.0 then w.spawnInterval else config.spawnInterval
  }

  /** The schedule, field and spawn-time table after part of an update, and
      whether it threw. */
  datatype SpawnOutcome = SpawnOutcome(schedule: Schedule, enemies: seq<SpawnedEnemy>,
                                       spawnTimes: map<EnemyId, real>, threw: bool)

  /** The spawn attempt for the adjusted wave `w`. */
  function Attempt(u: Setup, s: Schedule, w: Wave, field: seq<SpawnedEnemy>, times: map<EnemyId, real>, d: Draw)
    : SpawnOutcome
    requires Fair(d)
  {
    if !Due(s, w, |field|, u.config) then SpawnOutcome(s, field, times, false)
    else
      var picked := PickEnemyType(u.config, u.allowed, w, d.typeRoll);
      if picked.None? then SpawnOutcome(s, field, times, true)
      else
        var next := s.(spawnTimer := IntervalOf(w, u.config), spawned := s.spawned + 1);
        if u.spawnPoints == [] then SpawnOutcome(next, field, times, false)
        else
          var enemy := SpawnedEnemy(d.id, picked.value, u.spawnPoints[PickIndex(d.pointRoll, |u.spawnPoints|)],
                                    d.now, false, None, false);
          SpawnOutcome(next, field + [enemy], times[d.id := d.now], false)
  }

  /** The type is picked before anything changes, so a missing archetype table
      throws with no effect; without spawn points the attempt still counts but
      adds no enemy; a spawned enemy is new, alive, at the drawn spawn point,
      of the picked type, and timed from now. */
  lemma AttemptOutcome(u: Setup, s: Schedule, w: Wave, field: seq<SpawnedEnemy>, times: map<EnemyId, real>, d: Draw)
    requires Fair(d)
    ensures var r := Attempt(u, s, w, field, times, d);
      && (r.threw <==> Due(s, w, |field|, u.config) && u.config.archetypes.None?)
      && (!Due(s, w, |field|, u.config) || r.threw ==> r == SpawnOutcome(s, field, times, r.threw))
      && (Due(s, w, |field|, u.config) && !r.threw ==>
            r.schedule == s.(spawnTimer := IntervalOf(w, u.config), spawned := s.spawned + 1))
      && (Due(s, w, |field|, u.config) && !r.threw && u.spawnPoints == [] ==> r.enemies == field && r.spawnTimes == times)
      && (Due(s, w, |field|, u.config) && !r.threw && u.spawnPoints != [] ==>
            && |r.enemies| == |field| + 1 && r.enemies[..|field|] == field
            && r.enemies[|field|] == SpawnedEnemy(d.id, PickEnemyType(u.config, u.allowed, w, d.typeRoll).value,
                                                  u.spawnPoints[PickIndex(d.pointRoll, |u.spawnPoints|)],
                                                  d.now, false, None, false)
            && r.spawnTimes == times[d.id := d.now])
  {
    var r := Attempt(u, s, w, field, times, d);
    if Due(s, w, |field|, u.config) && !r.threw && u.spawnPoints != [] {
      assert r.enemies[..|field|] == field;
    }
  }

  /** The clearance check: a wave whose (adjusted) quota has been spawned and
      whose field is empty is finished. */
  function Clear(u: Setup, s: Schedule, count: int, field: seq<SpawnedEnemy>): Schedule
    requires 0 <= s.waveIndex < |u.waves|
  {
    if s.spawned >= count && field == [] then Finish(s, u.waves, u.config) else s
  }

  /** The clearance check leaves the counters alone; it changes nothing unless
      the wave is cleared, and then reports it complete and either completes
      the schedule or starts the wave's intermission. */
  lemma ClearOutcome(u: Setup, s: Schedule, count: int, field: seq<SpawnedEnemy>)
    requires 0 <= s.waveIndex < |u.waves|
    ensures var r := Clear(u, s, count, field);
      && r.waveIndex == s.waveIndex && r.spawned == s.spawned && r.spawnTimer == s.spawnTimer
      && (!(s.spawned >= count && field == []) ==> r == s)
      && (s.spawned >= count && field == [] ==>
            r.events == s.events + [WaveComplete(s.waveIndex + 1, |u.waves|)]
                        + (if s.waveIndex + 1 >= |u.waves| then [ScheduleComplete] else []))
      && (s.spawned >= count && field == [] && s.waveIndex + 1 >= |u.waves| ==>
            r.complete && r.intermission == s.intermission)
      && (s.spawned >= count && field == [] && s.waveIndex + 1 < |u.waves| ==>
            r.complete == s.complete && r.intermission == IntermissionOf(u.waves[s.waveIndex], u.config))
  {
  }

  /** The active wave of `update`: the wave at `s.waveIndex` with the configured
      default interval, reshaped by a difficulty controller at `modifier` in the
      band named `band`; `None` past the waves. */
  function ActiveWave(u: Setup, s: Schedule, bands: seq<Band>, modifier: real, band: string): Option<Wave>
    requires modifier != 0.0
  {
    if 0 <= s.waveIndex < |u.waves|
    then Some(AdjustWave(bands, modifier, band, u.waves[s.waveIndex].(defaultSpawnInterval := u.config.spawnInterval), u.allowed))
    else None
  }

  /** The spawn attempt and clearance check of `update` for the active wave,
      `adjusted` as reshaped by the difficulty controller (`None` when the
      index is past the waves). */
  function SpawnPhase(u: Setup, s: Schedule, adjusted: Option<Wave>, field: seq<SpawnedEnemy>,
                      times: map<EnemyId, real>, d: Draw): SpawnOutcome
    requires Fair(d)
    requires adjusted.Some? ==> 0 <= s.waveIndex < |u.waves|
  {
    if s.complete || adjusted.None? then SpawnOutcome(s, field, times, false)
    else
      var a := Attempt(u, s, adjusted.value, field, times, d);
      if a.threw then a
      else a.(schedule := Clear(u, a.schedule, adjusted.value.count, a.enemies))
  }

  /** Nothing happens once the schedule is complete or when there is no wave;
      only an attempted spawn can throw, and then nothing has changed; at most
      one enemy is spawned; and a wave finishes only with its quota spawned and
      the field empty. */
  lemma SpawnPhaseOutcome(u: Setup, s: Schedule, adjusted: Option<Wave>, field: seq<SpawnedEnemy>,
                          times: map<EnemyId, real>, d: Draw)
    requires Fair(d)
    requires adjusted.Some? ==> 0 <= s.waveIndex < |u.waves|
    ensures var r := SpawnPhase(u, s, adjusted, field, times, d);
      && (s.complete || adjusted.None? ==> r == SpawnOutcome(s, field, times, false))
      && (r.threw ==> !s.complete && adjusted.Some? && Due(s, adjusted.value, |field|, u.config)
                      && u.config.archetypes.None?)
      && (r.threw ==> r.schedule == s && r.enemies == field && r.spawnTimes == times)
      && |field| <= |r.enemies| <= |field| + 1 && r.enemies[..|field|] == field
      && r.schedule.waveIndex == s.waveIndex && s.spawned <= r.schedule.spawned <= s.spawned + 1
      && (s.complete ==> r.schedule.complete)
      && (|r.schedule.events| > |s.events| ==> r.enemies == [] && r.schedule.spawned >= adjusted.value.count)
  {
    if !s.complete && adjusted.Some? {
      var a := Attempt(u, s, adjusted.value, field, times, d);
      AttemptOutcome(u, s, adjusted.value, field, times, d);
      if !a.threw {
        ClearOutcome(u, a.schedule, adjusted.value.count, a.enemies);
      }
    } else {
      assert field[..|field|] == field;
    }
  }

  /** As written, an update during an intermission that its `delta` does not
      cover finishes the cleared wave again: the countdown restarts from the
      full intermission and the wave index does not move. */
  lemma IntermissionRestarts(u: Setup, s: Schedule, adjusted: Wave, delta: real,
                             times: map<EnemyId, real>, d: Draw)
    requires Fair(d)
    requires !s.complete && 0 <= s.waveIndex && s.waveIndex + 1 < |u.waves|
    requires 0.0 < delta < s.intermission
    requires s.spawned >= adjusted.count
    ensures var r := SpawnPhase(u, Advance(s, u.waves, delta), Some(adjusted), [], times, d);
            && r.schedule.waveIndex == s.waveIndex
            && r.schedule.intermission == IntermissionOf(u.waves[s.waveIndex], u.config)
            && r.schedule.events == s.events + [Intermission(s.waveIndex + 2, |u.waves|, s.intermission - delta),
                                                WaveComplete(s.waveIndex + 1, |u.waves|)]
  {
    var s1 := Advance(s, u.waves, delta);
    AdvanceCases(s, u.waves, delta);
    assert !Due(s1, adjusted, 0, u.config);
  }

  // ---------------------------------------------------------------- enemies

  /** An enemy after its own update and the kill bookkeeping of the `forEach`. */
  function Ticked(advance: SpawnedEnemy -> EnemyTick, e: SpawnedEnemy): SpawnedEnemy {
    var t := advance(e);
    e.(position := t.position, isDead := t.isDead, deathTimer := t.deathTimer,
       killRecorded := e.killRecorded || t.isDead)
  }

  /** Every enemy after the `forEach`, in place. */
  function TickAll(advance: SpawnedEnemy -> EnemyTick, es: seq<SpawnedEnemy>): (r: seq<SpawnedEnemy>)
    ensures |r| == |es|
    // identities are kept, and no dead enemy is left unrecorded
    ensures forall i :: 0 <= i < |es| ==> r[i].id == es[i].id && r[i].archetype == es[i].archetype
                                          && r[i].spawnedAt == es[i].spawnedAt
    ensures forall e :: e in r && e.isDead ==> e.killRecorded
  {
    seq(|es|, i requires 0 <= i < |es| => Ticked(advance, es[i]))
  }

  /** The enemies whose kill the `forEach` reports to `trackKill`: dead after
      their update and not yet recorded. */
  predicate Reported(advance: SpawnedEnemy -> EnemyTick, e: SpawnedEnemy) {
    advance(e).isDead && !e.killRecorded
  }

  /** The ids of a list of enemies, in order. */
  function Ids(es: seq<SpawnedEnemy>): (r: seq<EnemyId>)
    ensures |r| == |es| && forall i :: 0 <= i < |es| ==> r[i] == es[i].id
  {
    if es == [] then [] else [es[0].id] + Ids(es[1..])
  }

  /** The ids reported to `trackKill` during one `forEach`. */
  function ReportedIds(advance: SpawnedEnemy -> EnemyTick, es: seq<SpawnedEnemy>): (ids: seq<EnemyId>)
    ensures |ids| <= |es|
  {
    if es == [] then []
    else (if Reported(advance, es[0]) then [es[0].id] else []) + ReportedIds(advance, es[1..])
  }

  /** The reports are exactly the ids of the reported enemies, in list order. */
  lemma {:induction false} ReportedIdsInOrder(advance: SpawnedEnemy -> EnemyTick, es: seq<SpawnedEnemy>)
    ensures ReportedIds(advance, es) == Ids(Filter(es, e => Reported(advance, e)))
  {
    if es != [] {
      ReportedIdsInOrder(advance, es[1..]);
    }
  }

  /** A kill is reported at most once: once reported, the record is latched and
      no later update reports it again, whatever the enemy does. */
  lemma ReportedOnce(advance: SpawnedEnemy -> EnemyTick, later: SpawnedEnemy -> EnemyTick, e: SpawnedEnemy)
    requires Reported(advance, e)
    ensures Ticked(advance, e).killRecorded && !Reported(later, Ticked(advance, e))
  {
  }

  /** The difficulty controller's spawn-time table and its sample history. */
  datatype KillRecord = KillRecord(spawnTimes: map<EnemyId, real>, history: seq<real>)

  /** `trackKill` of `id` at `now`: a (truthy) spawn time becomes a sample and
      its entry is dropped; an unknown enemy is ignored. */
  function RecordKill(k: KillRecord, id: EnemyId, now: real): KillRecord {
    if id in k.spawnTimes && k.spawnTimes[id] != 0.0
    then KillRecord(k.spawnTimes - {id}, k.history + [now - k.spawnTimes[id]])
    else k
  }

  /** The reports of one `forEach`, in order. */
  function RecordKills(k: KillRecord, ids: seq<EnemyId>, now: real): KillRecord
    decreases |ids|
  {
    if ids == [] then k else RecordKills(RecordKill(k, ids[0], now), ids[1..], now)
  }

  /** The reports of a list are those of its parts, one after the other. */
  lemma {:induction false} ReportedIdsAppend(advance: SpawnedEnemy -> EnemyTick, a: seq<SpawnedEnemy>, b: seq<SpawnedEnemy>)
    ensures ReportedIds(advance, a + b) == ReportedIds(advance, a) + ReportedIds(advance, b)
    decreases |a|
  {
    if a != [] {
      assert (a + b)[0] == a[0] && (a + b)[1..] == a[1..] + b;
      ReportedIdsAppend(advance, a[1..], b);
    } else {
      assert a + b == b;
    }
  }

  /** Recording a list of reports is recording its parts, one after the other. */
  lemma {:induction false} RecordKillsAppend(k: KillRecord, a: seq<EnemyId>, b: seq<EnemyId>, now: real)
    ensures RecordKills(k, a + b, now) == RecordKills(RecordKills(k, a, now), b, now)
    decreases |a|
  {
    if a != [] {
      assert (a + b)[0] == a[0] && (a + b)[1..] == a[1..] + b;
      RecordKillsAppend(RecordKill(k, a[0], now), a[1..], b, now);
    } else {
      assert a + b == b;
    }
  }

  /** Recording kills only appends samples, at most one per report, and only
      removes spawn times; afterwards no reported enemy still has a truthy
      spawn time, so a repeated report adds nothing. */
  lemma {:induction false} RecordKillsEffect(k: KillRecord, ids: seq<EnemyId>, now: real)
    ensures var r := RecordKills(k, ids, now);
            && k.history <= r.history && |r.history| <= |k.history| + |ids|
            && r.spawnTimes.Keys <= k.spawnTimes.Keys
            && (forall id :: id in r.spawnTimes ==> r.spawnTimes[id] == k.spawnTimes[id])
            && (forall id :: id in ids && id in r.spawnTimes ==> r.spawnTimes[id] == 0.0)
    decreases |ids|
  {
    if ids != [] {
      var k1 := RecordKill(k, ids[0], now);
      RecordKillsEffect(k1, ids[1..], now);
      var r := RecordKills(k, ids, now);
      assert r == RecordKills(k1, ids[1..], now);
      forall id | id in ids && id in r.spawnTimes
        ensures r.spawnTimes[id] == 0.0
      {
        if id !in ids[1..] {
          assert id == ids[0];
        }
      }
    }
  }

  /** An enemy removed by `cleanupEnemies`: dead and its death timer run out. */
  predicate Expired(e: SpawnedEnemy) {
    e.isDead && e.deathTimer.Some? && e.deathTimer.value <= 0.0
  }

  /** The test `cleanupEnemies` keeps an enemy by. */
  predicate Survives(e: SpawnedEnemy) {
    !Expired(e)
  }

  class EnemySpawner {
    const config: EnemiesConfig
    const difficulty: DifficultyController
    var enemies: seq<SpawnedEnemy>
    var spawnTimer: real
    var spawnPoints: seq<Vec3>
    var obstacles: seq<Obstacle>
    var allowedEnemyTypes: seq<string>
    var waves: seq<Wave>
    var currentWaveIndex: int
    var spawnedThisWave: int
    var intermissionTimer: real
    var scheduleComplete: bool
    var totalWaves: int
    /** The callbacks invoked so far. */
    var events: seq<SpawnerEvent>

    ghost predicate Valid()
      reads this`currentWaveIndex, difficulty`timeToKillSamples, difficulty`history, difficulty`currentModifier
    {
      && difficulty.Valid()
      && difficulty.config == config.difficulty.GetOr(EmptyConfig)
      && SaneDifficulty(difficulty.config)
      && difficulty.config.minModifier.GetOr(0.85) <= difficulty.currentModifier <= difficulty.config.maxModifier.GetOr(1.25)
      && currentWaveIndex >= -1
    }

    /** The scheduler's counters and callbacks. */
    function Snap(): Schedule
      reads this`currentWaveIndex, this`spawnedThisWave, this`spawnTimer, this`intermissionTimer,
            this`scheduleComplete, this`events
    {
      Schedule(currentWaveIndex, spawnedThisWave, spawnTimer, intermissionTimer, scheduleComplete, events)
    }

    function Setting(): Setup
      reads this`waves, this`spawnPoints, this`allowedEnemyTypes
    {
      Setup(config, waves, spawnPoints, allowedEnemyTypes)
    }

    function Outcome(threw: bool): SpawnOutcome
      reads this`currentWaveIndex, this`spawnedThisWave, this`spawnTimer, this`intermissionTimer,
            this`scheduleComplete, this`events, this`enemies, difficulty`spawnTimes
    {
      SpawnOutcome(Snap(), enemies, difficulty.spawnTimes, threw)
    }

    ghost function Tally(): KillRecord
      reads difficulty`spawnTimes, difficulty`history
    {
      KillRecord(difficulty.spawnTimes, difficulty.history)
    }

    /** The active wave for the schedule `s`, as the controller now reshapes it. */
    function Adjusted(s: Schedule): Option<Wave>
      reads this`waves, this`spawnPoints, this`allowedEnemyTypes, difficulty`currentModifier, difficulty`currentBand
      requires difficulty.currentModifier != 0.0
    {
      ActiveWave(Setting(), s, difficulty.config.bands, difficulty.currentModifier, difficulty.currentBand)
    }

    /** `new EnemySpawner(scene, config)` with `config` = `config.enemies`. */
    constructor (config: EnemiesConfig)
      requires SaneDifficulty(config.difficulty.GetOr(EmptyConfig))
      ensures Valid() && fresh(difficulty)
      ensures this.config == config
      ensures enemies == [] && spawnTimer == 0.0 && spawnPoints == [] && obstacles == []
      ensures allowedEnemyTypes == [] && waves == [] && currentWaveIndex == -1
      ensures spawnedThisWave == 0 && intermissionTimer == 0.0 && !scheduleComplete && totalWaves == 0
      ensures events == []
      ensures difficulty.currentModifier == 1.0 && difficulty.timeToKillSamples == []
    {
      this.config := config;
      difficulty := new DifficultyController(config.difficulty.GetOr(EmptyConfig));
      enemies := [];
      spawnTimer := 0.0;
      spawnPoints := [];
      obstacles := [];
      allowedEnemyTypes := [];
      waves := [];
      currentWaveIndex := -1;
      spawnedThisWave := 0;
      intermissionTimer := 0.0;
      scheduleComplete := false;
      totalWaves := 0;
      events := [];
    }

    /** `loadSpawnPoints(points)`. */
    method LoadSpawnPoints(points: seq<Vec3>)
      modifies this`spawnPoints
      ensures spawnPoints == points
    {
      spawnPoints := points;
    }

    /** `setObstacles(obstacles)`: one box per obstacle, centred on its position. */
    method SetObstacles(specs: seq<ObstacleSpec>)
      modifies this`obstacles
      ensures |obstacles| == |specs|
      ensures forall i :: 0 <= i < |specs| ==> obstacles[i] == Obstacle(Some(BoxOf(specs[i])))
    {
      obstacles := seq(|specs|, i requires 0 <= i < |specs| => Obstacle(Some(BoxOf(specs[i]))));
    }

    /** `setAllowedTypes(types)`. */
    method SetAllowedTypes(types: seq<string>)
      modifies this`allowedEnemyTypes
      ensures allowedEnemyTypes == types
    {
      allowedEnemyTypes := types;
    }

    /** `configureWaves(waves)`: the given waves, or the configured ones when
        the list is empty, with the schedule reset to before its first wave. */
    method ConfigureWaves(newWaves: seq<Wave>)
      requires Valid()
      modifies this`waves, this`currentWaveIndex, this`spawnedThisWave, this`scheduleComplete,
               this`intermissionTimer, this`totalWaves
      ensures Valid()
      ensures waves == if |newWaves| > 0 then newWaves else config.waves
      ensures currentWaveIndex == -1 && spawnedThisWave == 0 && intermissionTimer == 0.0
      ensures !scheduleComplete && totalWaves == |waves|
    {
      waves := if |newWaves| > 0 then newWaves else config.waves;
      currentWaveIndex := -1;
      spawnedThisWave := 0;
      scheduleComplete := false;
      intermissionTimer := 0.0;
      totalWaves := |waves|;
    }

    /** `startNextWave()`: advance the index and reset the per-wave counters;
        running past the last wave completes the schedule. */
    method StartNextWave()
      requires Valid()
      modifies this`currentWaveIndex, this`spawnedThisWave, this`spawnTimer, this`intermissionTimer,
               this`scheduleComplete, this`events
      ensures Valid()
      ensures currentWaveIndex == old(currentWaveIndex) + 1
      ensures spawnedThisWave == 0 && spawnTimer == 0.0 && intermissionTimer == 0.0
      ensures scheduleComplete == (old(scheduleComplete) || currentWaveIndex >= |waves|)
      ensures events == old(events) + if currentWaveIndex >= |waves| then [ScheduleComplete]
                                      else [WaveStart(currentWaveIndex + 1, |waves|, waves[currentWaveIndex])]
    {
      currentWaveIndex := currentWaveIndex + 1;
      spawnedThisWave := 0;
      spawnTimer := 0.0;
      intermissionTimer := 0.0;
      if currentWaveIndex >= |waves| {
        scheduleComplete := true;
        events := events + [ScheduleComplete];
        return;
      }
      events := events + [WaveStart(currentWaveIndex + 1, |waves|, waves[currentWaveIndex])];
    }

    /** `finishWave()`: the last wave completes the schedule, any other starts
        an intermission of the wave's or the configured length. */
    method FinishWave()
      requires 0 <= currentWaveIndex < |waves|
      modifies this`scheduleComplete, this`intermissionTimer, this`events
      ensures currentWaveIndex + 1 >= |waves| ==>
                scheduleComplete && intermissionTimer == old(intermissionTimer)
                && events == old(events) + [WaveComplete(currentWaveIndex + 1, |waves|), ScheduleComplete]
      ensures currentWaveIndex + 1 < |waves| ==>
                && scheduleComplete == old(scheduleComplete)
                && intermissionTimer == IntermissionOf(waves[currentWaveIndex], config)
                && events == old(events) + [WaveComplete(currentWaveIndex + 1, |waves|)]
    {
      var waveNumber := currentWaveIndex + 1;
      events := events + [WaveComplete(waveNumber, |waves|)];
      if waveNumber >= |waves| {
        scheduleComplete := true;
        events := events + [ScheduleComplete];
      } else {
        var currentWave := waves[currentWaveIndex];
        intermissionTimer := if currentWave.intermission != 0.0 then currentWave.intermission
                             else config.waveIntermission;
      }
    }

    /** `spawnEnemy(type)` with `pointRoll` the `Math.random()` draw, `id` the
        generated id and `now` the clock: nothing without spawn points. The
        enemy is made by the corrected `CreateEnemyInstance`, which never fails. */
    method SpawnEnemy(archetype: string, pointRoll: real, id: EnemyId, now: real)
      requires difficulty.Valid() && 0.0 <= pointRoll < 1.0
      modifies this`enemies, difficulty`spawnTimes, difficulty`initialAmmo
      ensures difficulty.initialAmmo == old(difficulty.initialAmmo)
      ensures spawnPoints == [] ==> enemies == old(enemies) && difficulty.spawnTimes == old(difficulty.spawnTimes)
      ensures spawnPoints != [] ==>
                && enemies == old(enemies) + [SpawnedEnemy(id, archetype, spawnPoints[PickIndex(pointRoll, |spawnPoints|)],
                                                            now, false, None, false)]
                && difficulty.spawnTimes == old(difficulty.spawnTimes)[id := now]
    {
      if |spawnPoints| == 0 {
        return;
      }
      var point := spawnPoints[PickIndex(pointRoll, |spawnPoints|)];
      var made := CreateEnemyInstance(config, point);
      var enemy := SpawnedEnemy(id, archetype, made.value.point, now, false, None, false);
      // the abstract enemy has no `config.combat`, so the ammo baseline is not touched
      difficulty.TrackSpawn(id, now, None);
      enemies := enemies + [enemy];
    }

    /** The spawn attempt of `update` for the active wave, already adjusted by
        the difficulty controller; `threw` is the error `pickEnemyType` throws
        when the archetype table is missing. */
    method TrySpawn(adjusted: Wave, d: Draw) returns (threw: bool)
      requires difficulty.Valid() && Fair(d)
      modifies this`enemies, this`spawnTimer, this`spawnedThisWave, difficulty`spawnTimes, difficulty`initialAmmo
      ensures difficulty.initialAmmo == old(difficulty.initialAmmo)
      ensures Outcome(threw) == Attempt(Setting(), old(Snap()), adjusted, old(enemies), old(difficulty.spawnTimes), d)
      // a throw leaves the field and the spawn times as they were
      ensures threw ==> enemies == old(enemies) && difficulty.spawnTimes == old(difficulty.spawnTimes)
    {
      var spawnInterval := if adjusted.spawnInterval != 0.0 then adjusted.spawnInterval else config.spawnInterval;
      if spawnTimer <= 0.0 && spawnedThisWave < adjusted.count && |enemies| < config.maxSimultaneous {
        var picked := PickEnemyType(config, allowedEnemyTypes, adjusted, d.typeRoll);
        if picked.None? {
          return true;
        }
        ghost var s := Snap();
        SpawnEnemy(picked.value, d.pointRoll, d.id, d.now);
        spawnTimer := spawnInterval;
        spawnedThisWave := spawnedThisWave + 1;
        assert Snap() == s.(spawnTimer := IntervalOf(adjusted, config), spawned := s.spawned + 1);
      }
      threw := false;
    }

    /** The clearance check of `update`: the wave finishes once its (adjusted)
        quota has been spawned and no enemy is left on the field. */
    method CheckClearance(count: int)
      requires 0 <= currentWaveIndex < |waves|
      modifies this`scheduleComplete, this`intermissionTimer, this`events
      ensures Snap() == Clear(Setting(), old(Snap()), count, enemies)
    {
      if spawnedThisWave >= count && |enemies| == 0 {
        FinishWave();
      }
    }

    /** One turn of the `forEach` of `update`: the enemy runs its own update
        and, when newly dead, is reported to `trackKill` and latched. */
    method TickOne(e: SpawnedEnemy, now: real, advance: SpawnedEnemy -> EnemyTick) returns (updated: SpawnedEnemy)
      requires difficulty.Valid()
      modifies difficulty`timeToKillSamples, difficulty`spawnTimes, difficulty`history
      ensures difficulty.Valid()
      ensures updated == Ticked(advance, e)
      ensures Tally() == if Reported(advance, e) then RecordKill(old(Tally()), e.id, now) else old(Tally())
    {
      var t := advance(e);
      updated := e.(position := t.position, isDead := t.isDead, deathTimer := t.deathTimer);
      if updated.isDead && !updated.killRecorded {
        difficulty.TrackKill(updated.id, now);
        updated := updated.(killRecorded := true);
      }
    }

    /** The `forEach` of `update`: every enemy is updated in place, and the
        newly dead ones are reported to `trackKill` in list order. */
    method TickEnemies(now: real, advance: SpawnedEnemy -> EnemyTick) returns (reported: seq<EnemyId>)
      requires difficulty.Valid()
      modifies this`enemies, difficulty`timeToKillSamples, difficulty`spawnTimes, difficulty`history
      ensures difficulty.Valid()
      ensures enemies == TickAll(advance, old(enemies))
      ensures reported == ReportedIds(advance, old(enemies))
      ensures Tally() == RecordKills(old(Tally()), reported, now)
    {
      var es := enemies;
      ghost var start := Tally();
      var ticked: seq<SpawnedEnemy> := [];
      reported := [];
      var i := 0;
      while i < |es|
        invariant 0 <= i <= |es| && |ticked| == i
        invariant difficulty.Valid()
        invariant forall j :: 0 <= j < i ==> ticked[j] == Ticked(advance, es[j])
        invariant reported == ReportedIds(advance, es[..i])
        invariant Tally() == RecordKills(start, reported, now)
      {
        var updated := TickOne(es[i], now, advance);
        assert es[..i + 1] == es[..i] + [es[i]];
        ReportedIdsAppend(advance, es[..i], [es[i]]);
        if Reported(advance, es[i]) {
          RecordKillsAppend(start, reported, [es[i].id], now);
          reported := reported + [es[i].id];
        }
        ticked := ticked + [updated];
        i := i + 1;
      }
      assert es[..|es|] == es;
      enemies := ticked;
    }

    /** `cleanupEnemies()`: drop exactly the expired enemies, keeping the order. */
    method CleanupEnemies()
      modifies this`enemies
      ensures enemies == Filter(old(enemies), Survives)
      ensures IsSubsequence(enemies, old(enemies))
      ensures forall e :: e in enemies ==> e in old(enemies) && !Expired(e)
      ensures forall e :: e in old(enemies) && !Expired(e) ==> e in enemies
      // every copy of a surviving enemy is kept
      ensures forall e :: multiset(enemies)[e] == if Expired(e) then 0 else multiset(old(enemies))[e]
    {
      ghost var before := enemies;
      enemies := Filter(enemies, Survives);
      forall e | true
        ensures multiset(enemies)[e] == if Expired(e) then 0 else multiset(before)[e]
      {
        FilterCounts(before, Survives, e);
      }
    }

    /** The opening of `update`: the spawn timer runs down, the first wave
        starts, and a running intermission counts down, reporting the time
        left and starting the next wave when it runs out. */
    method AdvanceSchedule(delta: real)
      requires Valid()
      modifies this`spawnTimer, this`currentWaveIndex, this`spawnedThisWave, this`intermissionTimer,
               this`scheduleComplete, this`events
      ensures Valid()
      ensures Snap() == Advance(old(Snap()), waves, delta)
    {
      spawnTimer := spawnTimer - delta;
      if !scheduleComplete && |waves| > 0 && currentWaveIndex == -1 {
        StartNextWave();
      }
      if intermissionTimer > 0.0 {
        intermissionTimer := intermissionTimer - delta;
        events := events + [Intermission(currentWaveIndex + 2, |waves|,
                                         if intermissionTimer >= 0.0 then intermissionTimer else 0.0)];
        if intermissionTimer <= 0.0 {
          StartNextWave();
        }
      }
    }

    /** The spawn attempt and clearance check of `update`, for the active
        wave as the difficulty controller now reshapes it. */
    method SpawnAndClear(d: Draw) returns (threw: bool)
      requires Valid() && Fair(d)
      modifies this`spawnTimer, this`spawnedThisWave, this`intermissionTimer, this`scheduleComplete, this`events,
               this`enemies, difficulty`spawnTimes, difficulty`initialAmmo
      ensures difficulty.initialAmmo == old(difficulty.initialAmmo)
      ensures Outcome(threw) == SpawnPhase(Setting(), old(Snap()), Adjusted(old(Snap())), old(enemies),
                                           old(difficulty.spawnTimes), d)
      ensures threw ==> enemies == old(enemies) && difficulty.spawnTimes == old(difficulty.spawnTimes)
    {
      threw := false;
      if !scheduleComplete && 0 <= currentWaveIndex < |waves| {
        var adjusted := difficulty.ApplyToWave(waves[currentWaveIndex].(defaultSpawnInterval := config.spawnInterval),
                                               allowedEnemyTypes);
        ghost var u, s := Setting(), Snap();
        assert Adjusted(s) == Some(adjusted);
        ghost var a := Attempt(u, s, adjusted, enemies, difficulty.spawnTimes, d);
        threw := TrySpawn(adjusted, d);
        assert Outcome(threw) == a;
        if !threw {
          CheckClearance(adjusted.count);
          assert Snap() == Clear(u, a.schedule, adjusted.count, a.enemies);
        }
      }
    }

    /** The first part of `update`: the schedule advances, the difficulty
        controller re-rates the player, and the active wave, reshaped by the
        controller, gets its spawn attempt and clearance check. */
    method ScheduleAndSpawn(delta: real, player: PlayerStats, d: Draw)
      returns (threw: bool, ghost step: SpawnOutcome, ghost rating: UpdateResult)
      requires Valid() && Fair(d)
      modifies this`spawnTimer, this`currentWaveIndex, this`spawnedThisWave, this`intermissionTimer,
               this`scheduleComplete, this`events, this`enemies,
               difficulty`initialAmmo, difficulty`currentModifier, difficulty`currentBand, difficulty`spawnTimes
      ensures Valid()
      ensures var s := Advance(old(Snap()), waves, delta);
              step == SpawnPhase(Setting(), s, Adjusted(s), old(enemies), old(difficulty.spawnTimes), d)
      ensures Outcome(threw) == step
      ensures threw ==> enemies == old(enemies) && difficulty.spawnTimes == old(difficulty.spawnTimes)
      // the re-rating: the player's metrics against the latched ammo baseline, the
      // modifier smoothed toward its target, and the band of the raw score
      ensures rating.metrics == Metrics(AverageTimeToKill(old(difficulty.timeToKillSamples), difficulty.config),
                                        HealthRatio(player),
                                        AmmoSpentRatio(LatchedAmmo(old(difficulty.initialAmmo), player), player,
                                                       difficulty.config))
      ensures difficulty.currentModifier == rating.modifier
              == Rerated(difficulty.config, old(difficulty.currentModifier), rating.metrics)
      ensures rating.band == ResolveBand(difficulty.config.bands, RawScore(difficulty.config, rating.metrics))
              && difficulty.currentBand == rating.band.name
      // the re-rating captures the ammo baseline and leaves the samples alone
      ensures difficulty.initialAmmo == LatchedAmmo(old(difficulty.initialAmmo), player)
      ensures difficulty.timeToKillSamples == old(difficulty.timeToKillSamples)
      ensures difficulty.history == old(difficulty.history)
    {
      AdvanceSchedule(delta);
      rating := difficulty.Update(player);
      threw := SpawnAndClear(d);
      step := Outcome(threw);
    }

    /** The end of `update`: every enemy runs its own update, the newly dead
        are reported to `trackKill`, and the expired ones are cleaned up. */
    method SettleField(now: real, advance: SpawnedEnemy -> EnemyTick)
      requires difficulty.Valid()
      modifies this`enemies, difficulty`timeToKillSamples, difficulty`spawnTimes, difficulty`history
      ensures difficulty.Valid()
      // the field is every enemy after its update, minus the expired ones, in order
      ensures enemies == Filter(TickAll(advance, old(enemies)), Survives)
      ensures Tally() == RecordKills(old(Tally()), ReportedIds(advance, old(enemies)), now)
      // no expired enemy remains, and every dead enemy has been reported
      ensures forall e :: e in enemies ==> !Expired(e) && (e.isDead ==> e.killRecorded)
    {
      var _ := TickEnemies(now, advance);
      ghost var ticked := enemies;
      CleanupEnemies();
      assert forall e :: e in ticked && e.isDead ==> e.killRecorded;
    }

    /** `update(delta, player)`. `d` holds the random draws, the id a spawn
        would get and the clock, and `advance` is each enemy's own update;
        `threw` is an error escaping from the spawn attempt, which skips the
        rest of the update. */
    method Update(delta: real, player: PlayerStats, d: Draw, advance: SpawnedEnemy -> EnemyTick)
      returns (threw: bool, ghost step: SpawnOutcome, ghost rating: UpdateResult)
      requires Valid() && Fair(d)
      modifies this`spawnTimer, this`currentWaveIndex, this`spawnedThisWave, this`intermissionTimer,
               this`scheduleComplete, this`events, this`enemies,
               difficulty`initialAmmo, difficulty`currentModifier, difficulty`currentBand,
               difficulty`timeToKillSamples, difficulty`spawnTimes, difficulty`history
      ensures Valid()
      // the re-rating: the player's metrics against the latched ammo baseline, the
      // modifier smoothed toward its target, and the band of the raw score
      ensures rating.metrics == Metrics(AverageTimeToKill(old(difficulty.timeToKillSamples), difficulty.config),
                                        HealthRatio(player),
                                        AmmoSpentRatio(LatchedAmmo(old(difficulty.initialAmmo), player), player,
                                                       difficulty.config))
      ensures difficulty.currentModifier == rating.modifier
              == Rerated(difficulty.config, old(difficulty.currentModifier), rating.metrics)
      ensures rating.band == ResolveBand(difficulty.config.bands, RawScore(difficulty.config, rating.metrics))
              && difficulty.currentBand == rating.band.name
      ensures difficulty.initialAmmo == LatchedAmmo(old(difficulty.initialAmmo), player)
      // `step` is the schedule, field and spawn-time table after the spawn attempt and clearance check
      ensures var s := Advance(old(Snap()), waves, delta);
              step == SpawnPhase(Setting(), s, Adjusted(s), old(enemies), old(difficulty.spawnTimes), d)
      ensures threw == step.threw && Snap() == step.schedule
      ensures threw ==> enemies == old(enemies) && Tally() == old(Tally())
      // the field is every enemy after its update, minus the expired ones, in order
      ensures !threw ==> enemies == Filter(TickAll(advance, step.enemies), Survives)
      ensures !threw ==> Tally() == RecordKills(KillRecord(step.spawnTimes, old(difficulty.history)),
                                                ReportedIds(advance, step.enemies), d.now)
      // no expired enemy remains, and every dead enemy has been reported
      ensures !threw ==> forall e :: e in enemies ==> !Expired(e) && (e.isDead ==> e.killRecorded)
    {
      threw, step, rating := ScheduleAndSpawn(delta, player, d);
      if !threw {
        SettleField(d.now, advance);
      }
    }
  }
}
