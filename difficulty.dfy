/** The closed-loop difficulty controller of `scripts/enemy/difficultyController.js`.
    It keeps a FIFO window of time-to-kill samples and the spawn time of every
    live enemy, scores the player's performance, smooths the resulting modifier,
    picks a score band, and rewrites waves with the modifier and the band.

    Numbers that the source reads with `x || d` are modelled with 0 standing for
    a missing entry (both are falsy); settings read with a destructuring default
    (`minModifier = 0.85`) are `Option`s, because only a missing one is replaced. */
module Difficulty {
  import opened Common

  type EnemyId = string

  /** `config.targets`; 0 stands for a missing entry. */
  datatype Targets = Targets(averageTimeToKill: real, healthRatio: real, ammoSpentRatio: real)

  /** `config.scaling`; 0 stands for a missing entry. */
  datatype Scaling = Scaling(timeToKill: real, health: real, ammo: real)

  /** A named score range `[minScore, maxScore)`, either end optional. */
  datatype Band = Band(name: string, minScore: Option<real>, maxScore: Option<real>, allowedArchetypes: seq<string>)

  /** The controller's configuration (`config.enemies.difficulty`). */
  datatype DifficultyConfig = DifficultyConfig(
    maxTtkSamples: nat,          // 0 stands for missing
    targets: Targets,
    scaling: Scaling,
    minModifier: Option<real>,
    maxModifier: Option<real>,
    smoothing: Option<real>,
    bands: seq<Band>)

  /** The configuration used when none is given (`config || {}`). */
  const EmptyConfig := DifficultyConfig(0, Targets(0.0, 0.0, 0.0), Scaling(0.0, 0.0, 0.0), None, None, None, [])

  /** The player fields that `calculateMetrics` reads. */
  datatype PlayerStats = PlayerStats(
    health: real, armor: real, maxHealth: real, maxArmor: real,
    magazineSize: real, reserveAmmo: real, ammoInMagazine: real)

  /** `enemy.config.combat` of a spawned enemy, when it has one. */
  datatype Combat = Combat(magazineSize: real, reserveAmmo: real)

  datatype Metrics = Metrics(averageTimeToKill: real, healthRatio: real, ammoSpentRatio: real)

  /** The log notice `update` emits: a band shift, a modifier move over 0.05, or nothing. */
  datatype Notice = BandShifted(bandFrom: string, bandTo: string) | ModifierAdjusted | Quiet

  datatype UpdateResult = UpdateResult(modifier: real, band: Band, metrics: Metrics, notice: Notice)

  /** A wave template; `spawnInterval`, `defaultSpawnInterval` and `intermission`
      use 0 for missing, `types` the empty list. */
  datatype Wave = Wave(count: int, spawnInterval: real, defaultSpawnInterval: real, intermission: real, types: seq<string>)

  /** The baseline band returned when no configured band matches. */
  const Baseline := Band("baseline", None, None, [])

  /** `clamp(value, min, max)` = `Math.min(Math.max(value, min), max)`. */
  function Clamp(value: real, lo: real, hi: real): (r: real)
    ensures r <= hi
    ensures lo <= hi ==> lo <= r
    ensures lo <= value <= hi ==> r == value
    ensures r == value || r == lo || r == hi
  {
    var m := if value >= lo then value else lo;
    if m <= hi then m else hi
  }

  function Abs(x: real): real {
    if x >= 0.0 then x else -x
  }

  /** `Math.round`, which rounds halves up. */
  function Round(x: real): (n: int)
    ensures x - 0.5 < n as real <= x + 0.5
  {
    (x + 0.5).Floor
  }

  /** `config.maxTtkSamples || 24`. */
  function SampleLimit(config: DifficultyConfig): (n: nat)
    ensures n >= 1
  {
    if config.maxTtkSamples == 0 then 24 else config.maxTtkSamples
  }

  function Sum(s: seq<real>): real {
    if s == [] then 0.0 else Sum(s[..|s| - 1]) + s[|s| - 1]
  }

  /** The band test: `score >= minScore` when there is a minimum and
      `score < maxScore` when there is a maximum. */
  predicate InBand(band: Band, score: real) {
    && (band.minScore.None? || score >= band.minScore.value)
    && (band.maxScore.None? || score < band.maxScore.value)
  }

  /** `resolveBand(score)`: the first band in list order that holds the score,
      else the baseline band. */
  function ResolveBand(bands: seq<Band>, score: real): (r: Band)
    ensures (forall i :: 0 <= i < |bands| ==> !InBand(bands[i], score)) ==> r == Baseline
    ensures forall i :: (0 <= i < |bands| && InBand(bands[i], score)
                         && (forall j :: 0 <= j < i ==> !InBand(bands[j], score))) ==> r == bands[i]
  {
    if bands == [] then Baseline
    else if InBand(bands[0], score) then bands[0]
    else
      var r := ResolveBand(bands[1..], score);
      assert forall i :: 1 <= i < |bands| ==> bands[i] == bands[1..][i - 1];
      r
  }

  /** With half-open ranges, a score on the boundary shared by two adjacent
      bands belongs to the upper one. */
  lemma BoundaryBelongsToUpperBand(bands: seq<Band>, i: nat, score: real)
    requires i + 1 < |bands|
    requires forall j :: 0 <= j < i ==> !InBand(bands[j], score)
    requires bands[i].maxScore == Some(score) && bands[i + 1].minScore == Some(score)
    requires bands[i + 1].maxScore.None? || bands[i + 1].maxScore.value > score
    ensures ResolveBand(bands, score) == bands[i + 1]
  {
  }

  /** `current + (target - current) * smoothing`: exponential smoothing. */
  function Smooth(current: real, target: real, smoothing: real): real {
    current + (target - current) * smoothing
  }

  /** A smoothed step between two points of a range stays in that range and
      covers at most the `smoothing` fraction of the distance. */
  lemma SmoothStaysInRange(current: real, target: real, smoothing: real, lo: real, hi: real)
    requires 0.0 <= smoothing <= 1.0
    requires lo <= current <= hi && lo <= target <= hi
    ensures lo <= Smooth(current, target, smoothing) <= hi
    ensures Abs(Smooth(current, target, smoothing) - current) == smoothing * Abs(target - current)
  {
    var d := target - current;
    assert Smooth(current, target, smoothing) - current == d * smoothing;
    if d >= 0.0 {
      ProductNonNegative(d, smoothing);
      assert d - d * smoothing == d * (1.0 - smoothing);
      ProductNonNegative(d, 1.0 - smoothing);
    } else {
      ProductNonNegative(-d, smoothing);
      assert -(d * smoothing) == (-d) * smoothing;
      assert d * smoothing - d == (-d) * (1.0 - smoothing);
      ProductNonNegative(-d, 1.0 - smoothing);
      assert Abs(d * smoothing) == smoothing * (-d);
    }
  }

  lemma ProductNonNegative(a: real, b: real)
    requires a >= 0.0 && b >= 0.0
    ensures a * b >= 0.0
  {
  }

  /** The modifier after a run of updates whose raw scores are `scores`: each
      step smooths toward `1 + score` clamped to `[lo, hi]`. */
  function Settle(current: real, scores: seq<real>, lo: real, hi: real, smoothing: real): real
    decreases |scores|
  {
    if scores == [] then current
    else Settle(Smooth(current, Clamp(1.0 + scores[0], lo, hi), smoothing), scores[1..], lo, hi, smoothing)
  }

  /** Whatever the scores, a modifier that starts inside `[lo, hi]` never leaves
      it, provided `smoothing` is a fraction. */
  lemma {:induction false} SettleStaysInRange(current: real, scores: seq<real>, lo: real, hi: real, smoothing: real)
    requires 0.0 <= smoothing <= 1.0
    requires lo <= current <= hi
    ensures lo <= Settle(current, scores, lo, hi, smoothing) <= hi
    decreases |scores|
  {
    if scores != [] {
      var target := Clamp(1.0 + scores[0], lo, hi);
      SmoothStaysInRange(current, target, smoothing, lo, hi);
      SettleStaysInRange(Smooth(current, target, smoothing), scores[1..], lo, hi, smoothing);
    }
  }

  /** The raw score of `update`: each metric's signed distance from its target,
      relative to the target and weighted by its scaling. */
  function RawScore(config: DifficultyConfig, m: Metrics): real {
    var targets, scaling := config.targets, config.scaling;
    var ttkTarget := if targets.averageTimeToKill != 0.0 then targets.averageTimeToKill
                     else if m.averageTimeToKill != 0.0 then m.averageTimeToKill else 1.0;
    var ttkScore := ((ttkTarget - m.averageTimeToKill) / ttkTarget) * scaling.timeToKill;
    var healthTarget := if targets.healthRatio != 0.0 then targets.healthRatio else 0.5;
    var healthScore := ((m.healthRatio - healthTarget) / (if healthTarget >= 0.01 then healthTarget else 0.01)) * scaling.health;
    var ammoTarget := if targets.ammoSpentRatio != 0.0 then targets.ammoSpentRatio else 0.5;
    var ammoScore := ((ammoTarget - m.ammoSpentRatio) / (if ammoTarget >= 0.01 then ammoTarget else 0.01)) * scaling.ammo;
    ttkScore + healthScore + ammoScore
  }

  /** The modifier `update` moves to from `current` for the metrics `m`: a
      `smoothing` step toward `1 + rawScore` clamped to the modifier bounds. */
  function Rerated(config: DifficultyConfig, current: real, m: Metrics): real {
    Smooth(current, Clamp(1.0 + RawScore(config, m), config.minModifier.GetOr(0.85), config.maxModifier.GetOr(1.25)),
           config.smoothing.GetOr(0.15))
  }

  /** `(player.health + player.armor) / (maxHealth + maxArmor || 1)` clamped to [0, 1],
      with `maxHealth = player.maxHealth || 1` and `maxArmor = player.maxArmor || 0`. */
  function HealthRatio(p: PlayerStats): (r: real)
    ensures 0.0 <= r <= 1.0
  {
    var maxHealth := if p.maxHealth != 0.0 then p.maxHealth else 1.0;
    var total := maxHealth + p.maxArmor;
    Clamp((p.health + p.armor) / (if total != 0.0 then total else 1.0), 0.0, 1.0)
  }

  /** `calculateMetrics`' average time-to-kill: the mean of the sample window,
      or the configured target (`|| 0`) when the window is empty. */
  function AverageTimeToKill(samples: seq<real>, config: DifficultyConfig): (r: real)
    ensures samples == [] ==> r == config.targets.averageTimeToKill
    ensures samples != [] ==> r * |samples| as real == Sum(samples)
  {
    if |samples| > 0 then Sum(samples) / |samples| as real else config.targets.averageTimeToKill
  }

  /** The ammo baseline after `calculateMetrics`' one-time capture: a falsy
      baseline becomes the player's magazine plus reserve. */
  function LatchedAmmo(initialAmmo: real, p: PlayerStats): (r: real)
    ensures initialAmmo != 0.0 ==> r == initialAmmo
    ensures initialAmmo == 0.0 ==> r == p.magazineSize + p.reserveAmmo
  {
    if initialAmmo == 0.0 then p.magazineSize + p.reserveAmmo else initialAmmo
  }

  /** `calculateMetrics`' ammo ratio against the baseline `baseline`: the spent
      fraction clamped to [0, 1], or the configured target (`|| 0`) without a baseline. */
  function AmmoSpentRatio(baseline: real, p: PlayerStats, config: DifficultyConfig): (r: real)
    ensures baseline == 0.0 ==> r == config.targets.ammoSpentRatio
    ensures baseline != 0.0 ==> 0.0 <= r <= 1.0
    // the exact spent fraction whenever the remaining ammo is within the baseline
    ensures baseline > 0.0 && 0.0 <= p.ammoInMagazine + p.reserveAmmo <= baseline
            ==> r * baseline == baseline - (p.ammoInMagazine + p.reserveAmmo)
  {
    var remaining := p.ammoInMagazine + p.reserveAmmo;
    if baseline != 0.0 then
      var spent := (baseline - remaining) / baseline;
      assert baseline > 0.0 && 0.0 <= remaining <= baseline ==> 0.0 <= spent <= 1.0 by {
        if baseline > 0.0 && 0.0 <= remaining <= baseline {
          SpentFractionInRange(baseline, remaining);
        }
      }
      Clamp(spent, 0.0, 1.0)
    else config.targets.ammoSpentRatio
  }

  lemma SpentFractionInRange(baseline: real, remaining: real)
    requires baseline > 0.0 && 0.0 <= remaining <= baseline
    ensures 0.0 <= (baseline - remaining) / baseline <= 1.0
  {
    var f := (baseline - remaining) / baseline;
    assert f * baseline == baseline - remaining;
  }

  /** The adjusted enemy count `Math.max(1, Math.round(count * modifier))`. */
  function AdjustedCount(count: int, modifier: real): (n: int)
    ensures count as real * modifier < 0.5 ==> n == 1
    ensures count as real * modifier >= 0.5 ==> count as real * modifier - 0.5 < n as real <= count as real * modifier + 0.5
    ensures n >= 1
  {
    var k := Round(count as real * modifier);
    if k >= 1 then k else 1
  }

  /** A higher modifier never yields fewer enemies. */
  lemma {:induction false} AdjustedCountMonotone(count: nat, m1: real, m2: real)
    requires 0.0 <= m1 <= m2
    ensures AdjustedCount(count, m1) <= AdjustedCount(count, m2)
  {
    var c := count as real;
    assert c * m2 - c * m1 == c * (m2 - m1);
    ProductNonNegative(c, m2 - m1);
    FloorMonotone(c * m1 + 0.5, c * m2 + 0.5);
  }

  lemma FloorMonotone(x: real, y: real)
    requires x <= y
    ensures x.Floor <= y.Floor
  {
  }

  /** The source list of `applyToWave`: the wave's own types, or `allowedTypes`. */
  function SourceTypes(wave: Wave, allowedTypes: seq<string>): seq<string> {
    if |wave.types| > 0 then wave.types else allowedTypes
  }

  /** `applyToWave`'s type filter: keep the source types on `allowed` (everything
      when `allowed` is empty); when that keeps nothing, the source as it is. */
  function FilterTypes(source: seq<string>, allowed: seq<string>): (r: seq<string>)
    ensures IsSubsequence(r, source)
    ensures (forall t :: t in source ==> |allowed| > 0 && t !in allowed) ==> r == source
    ensures (exists t :: t in source && (|allowed| == 0 || t in allowed)) ==>
              (forall t :: t in r <==> t in source && (|allowed| == 0 || t in allowed))
  {
    var kept := Filter(source, t => |allowed| == 0 || t in allowed);
    SubsequenceReflexive(source);
    assert |kept| > 0 ==> kept[0] in kept;
    if |kept| > 0 then kept else source
  }

  /** When some source type is allowed, every allowed type keeps all its copies
      (which weight the random pick of a spawn) and every other type loses them. */
  lemma FilterTypesKeepsCopies(source: seq<string>, allowed: seq<string>, kept: string, t: string)
    requires kept in source && (|allowed| == 0 || kept in allowed)
    ensures multiset(FilterTypes(source, allowed))[t] == if |allowed| == 0 || t in allowed then multiset(source)[t] else 0
  {
    var keep := (u: string) => |allowed| == 0 || u in allowed;
    assert kept in Filter(source, keep);
    FilterCounts(source, keep, t);
  }

  /** The index `bands.find` stops at for the name `name`: the first band
      with that name, or `|bands|` when there is none. */
  function FirstNamed(bands: seq<Band>, name: string): (i: nat)
    ensures i <= |bands|
    ensures i < |bands| ==> bands[i].name == name
    ensures forall j :: 0 <= j < i ==> bands[j].name != name
  {
    if bands == [] || bands[0].name == name then 0
    else 1 + FirstNamed(bands[1..], name)
  }

  /** The `allowedArchetypes` of the first band named `name`, `[]` when there is none. */
  function BandAllowed(bands: seq<Band>, name: string): (r: seq<string>)
    ensures (forall i :: 0 <= i < |bands| ==> bands[i].name != name) ==> r == []
    ensures forall i :: (0 <= i < |bands| && bands[i].name == name
                         && (forall j :: 0 <= j < i ==> bands[j].name != name)) ==> r == bands[i].allowedArchetypes
  {
    var i := FirstNamed(bands, name);
    if i < |bands| then bands[i].allowedArchetypes else []
  }

  /** An example of the archetype filter: wave types `[brute, grunt]` under a band allowing
      `[grunt, ranger]` give `[grunt]`. */
  lemma ArchetypeFilterExample()
    ensures FilterTypes(["brute", "grunt"], ["grunt", "ranger"]) == ["grunt"]
  {
    var keep := (t: string) => |["grunt", "ranger"]| == 0 || t in ["grunt", "ranger"];
    assert !keep("brute") && keep("grunt");
    assert Filter(["brute", "grunt"], keep) == Filter(["grunt"], keep);
    assert Filter(["grunt"], keep) == ["grunt"] + Filter([], keep);
  }

  /** The wave `applyToWave` makes under `modifier` and the band named `band`. */
  function AdjustWave(bands: seq<Band>, modifier: real, band: string, wave: Wave, allowedTypes: seq<string>): (r: Wave)
    requires modifier != 0.0
    ensures r.count >= 1 && r.count == AdjustedCount(wave.count, modifier)
    // the interval is divided by the modifier
    ensures r.spawnInterval * modifier
            == if wave.spawnInterval != 0.0 then wave.spawnInterval
               else if wave.defaultSpawnInterval != 0.0 then wave.defaultSpawnInterval else 1.0
    // every other field is copied
    ensures r.defaultSpawnInterval == wave.defaultSpawnInterval && r.intermission == wave.intermission
    ensures r.types == FilterTypes(SourceTypes(wave, allowedTypes),
                                   if |BandAllowed(bands, band)| > 0 then BandAllowed(bands, band) else allowedTypes)
    ensures IsSubsequence(r.types, SourceTypes(wave, allowedTypes))
  {
    var types := SourceTypes(wave, allowedTypes);
    var bandAllowed := BandAllowed(bands, band);
    var combinedAllowed := if |bandAllowed| > 0 then bandAllowed else allowedTypes;
    var base := if wave.spawnInterval != 0.0 then wave.spawnInterval
                else if wave.defaultSpawnInterval != 0.0 then wave.defaultSpawnInterval else 1.0;
    var interval := base / modifier;
    assert interval * modifier == base;
    var filtered := FilterTypes(types, combinedAllowed);
    assert IsSubsequence(filtered, types);
    wave.(count := AdjustedCount(wave.count, modifier), spawnInterval := interval, types := filtered)
  }

  class DifficultyController {
    const config: DifficultyConfig
    var currentModifier: real
    var currentBand: string
    var timeToKillSamples: seq<real>
    var spawnTimes: map<EnemyId, real>
    /** The ammo baseline; 0 stands for `null` (both are falsy). */
    var initialAmmo: real
    /** Every time-to-kill sample ever recorded, oldest first. */
    ghost var history: seq<real>

    /** The sample window holds the latest samples, at most `SampleLimit` of them. */
    ghost predicate Valid()
      reads this`timeToKillSamples, this`history
    {
      timeToKillSamples == LastN(history, SampleLimit(config))
    }

    constructor (config: DifficultyConfig)
      ensures Valid()
      ensures this.config == config
      ensures currentModifier == 1.0 && currentBand == "baseline"
      ensures timeToKillSamples == [] && spawnTimes == map[] && initialAmmo == 0.0
    {
      this.config := config;
      currentModifier := 1.0;
      currentBand := "baseline";
      timeToKillSamples := [];
      spawnTimes := map[];
      initialAmmo := 0.0;
      history := [];
    }

    /** `trackSpawn(enemy)` at time `now`; `combat` is `enemy.config?.combat`. */
    method TrackSpawn(id: EnemyId, now: real, combat: Option<Combat>)
      requires Valid()
      modifies this`spawnTimes, this`initialAmmo
      ensures Valid()
      ensures spawnTimes == old(spawnTimes)[id := now]
      ensures initialAmmo == if old(initialAmmo) == 0.0 && combat.Some?
                             then combat.value.magazineSize + combat.value.reserveAmmo
                             else old(initialAmmo)
    {
      spawnTimes := spawnTimes[id := now];
      if initialAmmo == 0.0 && combat.Some? {
        initialAmmo := combat.value.magazineSize + combat.value.reserveAmmo;
      }
    }

    /** `trackKill(enemy)` at time `now`: an enemy with a (truthy) spawn time adds
        its time-to-kill to the window and loses its spawn-time entry. */
    method TrackKill(id: EnemyId, now: real)
      requires Valid()
      modifies this`timeToKillSamples, this`spawnTimes, this`history
      ensures Valid()
      ensures |timeToKillSamples| <= SampleLimit(config)
      ensures id in old(spawnTimes) && old(spawnTimes)[id] != 0.0 ==>
                && history == old(history) + [now - old(spawnTimes)[id]]
                && timeToKillSamples == Slide(old(timeToKillSamples), now - old(spawnTimes)[id], SampleLimit(config))
                && spawnTimes == old(spawnTimes) - {id}
      ensures !(id in old(spawnTimes) && old(spawnTimes)[id] != 0.0) ==>
                history == old(history) && timeToKillSamples == old(timeToKillSamples) && spawnTimes == old(spawnTimes)
    {
      if id in spawnTimes && spawnTimes[id] != 0.0 {
        var ttk := now - spawnTimes[id];
        var limit := SampleLimit(config);
        ghost var window := Slide(timeToKillSamples, ttk, limit);
        SlideKeepsLatest(history, ttk, limit);
        timeToKillSamples := timeToKillSamples + [ttk];
        if |timeToKillSamples| > limit {
          timeToKillSamples := timeToKillSamples[1..];
        }
        assert timeToKillSamples == window;
        history := history + [ttk];
        spawnTimes := spawnTimes - {id};
      }
    }

    /** `calculateMetrics(player)`, including the one-time capture of the ammo baseline. */
    method CalculateMetrics(player: PlayerStats) returns (m: Metrics)
      requires Valid()
      modifies this`initialAmmo
      ensures Valid()
      ensures initialAmmo == LatchedAmmo(old(initialAmmo), player)
      ensures m == Metrics(AverageTimeToKill(timeToKillSamples, config), HealthRatio(player),
                           AmmoSpentRatio(initialAmmo, player, config))
    {
      var average := AverageTimeToKill(timeToKillSamples, config);
      var healthRatio := HealthRatio(player);
      if initialAmmo == 0.0 {
        initialAmmo := player.magazineSize + player.reserveAmmo;
      }
      m := Metrics(average, healthRatio, AmmoSpentRatio(initialAmmo, player, config));
    }

    /** `update(player)`: score the player, move the modifier a `smoothing`
        fraction toward the clamped target, and pick the band of the raw score. */
    method Update(player: PlayerStats) returns (res: UpdateResult)
      requires Valid()
      modifies this`initialAmmo, this`currentModifier, this`currentBand
      ensures Valid()
      // the metrics are those of the player, against the (possibly just captured) ammo baseline
      ensures initialAmmo == LatchedAmmo(old(initialAmmo), player)
      ensures res.metrics == Metrics(AverageTimeToKill(timeToKillSamples, config), HealthRatio(player),
                                     AmmoSpentRatio(initialAmmo, player, config))
      ensures res.modifier == currentModifier
      ensures currentModifier == Rerated(config, old(currentModifier), res.metrics)
      // the band follows the raw score, not the modifier
      ensures res.band == ResolveBand(config.bands, RawScore(config, res.metrics)) && currentBand == res.band.name
      // a modifier inside its bounds stays there
      ensures 0.0 <= config.smoothing.GetOr(0.15) <= 1.0
              && config.minModifier.GetOr(0.85) <= old(currentModifier) <= config.maxModifier.GetOr(1.25)
              ==> config.minModifier.GetOr(0.85) <= currentModifier <= config.maxModifier.GetOr(1.25)
      ensures res.notice == if res.band.name != old(currentBand) then BandShifted(old(currentBand), res.band.name)
                            else if Abs(currentModifier - old(currentModifier)) > 0.05 then ModifierAdjusted
                            else Quiet
    {
      var metrics := CalculateMetrics(player);
      var lo, hi, smoothing := config.minModifier.GetOr(0.85), config.maxModifier.GetOr(1.25), config.smoothing.GetOr(0.15);
      var rawScore := RawScore(config, metrics);
      var clamped := Clamp(1.0 + rawScore, lo, hi);
      var nextModifier := Smooth(currentModifier, clamped, smoothing);
      if 0.0 <= smoothing <= 1.0 && lo <= currentModifier <= hi {
        SmoothStaysInRange(currentModifier, clamped, smoothing, lo, hi);
      }
      var band := ResolveBand(config.bands, rawScore);
      var notice := if band.name != currentBand then BandShifted(currentBand, band.name)
                    else if Abs(nextModifier - currentModifier) > 0.05 then ModifierAdjusted
                    else Quiet;
      currentModifier := nextModifier;
      currentBand := band.name;
      res := UpdateResult(currentModifier, band, metrics, notice);
    }

    /** `applyToWave(wave, allowedTypes)`. */
    function ApplyToWave(wave: Wave, allowedTypes: seq<string>): Wave
      reads this`currentModifier, this`currentBand
      requires currentModifier != 0.0
    {
      AdjustWave(config.bands, currentModifier, currentBand, wave, allowedTypes)
    }
  }
}
