/** EnemySpawner.cs: a table of waves advanced frame by frame, one spawn per
    interval, with the intervals shortened every time the table wraps round. */
module Spawning {
  import opened Wrappers

  const SpawnAreaWidth: real := 32.0
  const SpawnOffsetY: real := 10.0
  const MinSpawnInterval: real := 0.5
  const DifficultyMultiplier: real := 0.9
  const InitialWaveNumber: nat := 1

  /** One wave of the table: its configuration and its two runtime counters.
      `hasPrefab` stands for `enemyPrefab != null`. */
  datatype Spawner = Spawner(
    hasPrefab: bool,
    enemyHealth: int,
    enemyDamage: int,
    spawnInterval: real,
    enemiesPerWave: int,
    timer: real,
    spawnedEnemies: int)

  datatype Position = Position(x: real, y: real, z: real)

  /** The two random draws of GenerateSpawnPosition: `Random.Range(-16f, 16f)`
      for x, whose float overload includes both ends, and `Random.Range(0, 2)`
      for the side, whose int overload excludes the upper end. */
  datatype SpawnDraw = SpawnDraw(x: real, side: int)

  predicate IsRangeDraw(d: SpawnDraw) {
    -SpawnAreaWidth * 0.5 <= d.x <= SpawnAreaWidth * 0.5 && 0 <= d.side < 2
  }

  /** Where an enemy may appear: anywhere along the band x in [-16, 16],
      ten units above or below the camera. */
  predicate InSpawnBand(p: Position, cameraY: real) {
    -16.0 <= p.x <= 16.0 && (p.y == cameraY - 10.0 || p.y == cameraY + 10.0) && p.z == 0.0
  }

  function GenerateSpawnPosition(d: SpawnDraw, cameraY: real): (p: Position)
    requires IsRangeDraw(d)
    ensures InSpawnBand(p, cameraY)
  {
    Position(d.x, cameraY + (if d.side == 0 then -SpawnOffsetY else SpawnOffsetY), 0.0)
  }

  /** Every point of the band is the outcome of some draw. */
  lemma SpawnBandIsReachable(p: Position, cameraY: real)
    requires InSpawnBand(p, cameraY)
    ensures exists d :: IsRangeDraw(d) && GenerateSpawnPosition(d, cameraY) == p
  {
    var d := SpawnDraw(p.x, if p.y == cameraY - 10.0 then 0 else 1);
    assert GenerateSpawnPosition(d, cameraY) == p;
  }

  /** `Mathf.Max(MIN_SPAWN_INTERVAL, interval * difficultyMultiplier)`. */
  function AdjustedInterval(interval: real): (r: real)
    ensures r >= MinSpawnInterval && r >= DifficultyMultiplier * interval
    ensures r == MinSpawnInterval || r == DifficultyMultiplier * interval
  {
    if MinSpawnInterval > interval * DifficultyMultiplier then MinSpawnInterval
    else interval * DifficultyMultiplier
  }

  /** Above the floor an interval strictly shrinks; at or below it, it becomes the floor. */
  lemma AdjustedIntervalApproachesFloor(interval: real)
    ensures interval > MinSpawnInterval ==> MinSpawnInterval <= AdjustedInterval(interval) < interval
    ensures interval <= MinSpawnInterval ==> AdjustedInterval(interval) == MinSpawnInterval
  {
  }

  function AdjustSpawnerDifficulty(s: Spawner): Spawner {
    s.(spawnInterval := AdjustedInterval(s.spawnInterval))
  }

  /** The table after one difficulty increase: every non-null wave adjusted. */
  function Escalated(spawners: seq<Option<Spawner>>): (r: seq<Option<Spawner>>)
    ensures |r| == |spawners|
  {
    seq(|spawners|, k requires 0 <= k < |spawners| =>
      if spawners[k].Some? then Some(AdjustSpawnerDifficulty(spawners[k].value)) else None)
  }

  /** After an increase every wave's interval is max(0.5, 0.9 x old), hence at
      least 0.5, and nothing else about any wave has changed. */
  lemma EscalationFloorsEveryInterval(spawners: seq<Option<Spawner>>)
    ensures |Escalated(spawners)| == |spawners|
    ensures forall k :: 0 <= k < |spawners| ==>
      var r := Escalated(spawners)[k];
      (r.Some? <==> spawners[k].Some?) &&
      (r.Some? ==>
        r.value.spawnInterval >= MinSpawnInterval &&
        r.value.spawnInterval == AdjustedInterval(spawners[k].value.spawnInterval) &&
        r.value == spawners[k].value.(spawnInterval := r.value.spawnInterval))
  {
  }

  function Pow(b: real, n: nat): real {
    if n == 0 then 1.0 else b * Pow(b, n - 1)
  }

  function RealMax(a: real, b: real): real {
    if a > b then a else b
  }

  /** The interval of a wave after n rollovers. */
  function IntervalAfterRollovers(interval: real, n: nat): real {
    if n == 0 then interval else AdjustedInterval(IntervalAfterRollovers(interval, n - 1))
  }

  /** 0.9^n x interval: the interval multiplied n times by the damping factor, with no floor. */
  function Damped(interval: real, n: nat): real {
    Pow(DifficultyMultiplier, n) * interval
  }

  lemma DampedStep(interval: real, n: nat)
    requires n >= 1
    ensures Damped(interval, n) == DifficultyMultiplier * Damped(interval, n - 1)
  {
    var p := Pow(DifficultyMultiplier, n - 1);
    assert Pow(DifficultyMultiplier, n) * interval == (DifficultyMultiplier * p) * interval;
  }

  /** Closed form: after n >= 1 rollovers an interval is max(0.5, 0.9^n x interval),
      so it approaches the floor geometrically and never goes below it. */
  lemma {:induction false} RolloversClosedForm(interval: real, n: nat)
    requires n >= 1
    ensures IntervalAfterRollovers(interval, n) == RealMax(MinSpawnInterval, Damped(interval, n))
  {
    DampedStep(interval, n);
    if n > 1 {
      RolloversClosedForm(interval, n - 1);
    }
  }

  /** The spawner's state: the wave table and the index of the current wave. */
  datatype WaveState = WaveState(spawners: seq<Option<Spawner>>, waveNumber: nat)

  /** `IsValidSpawnerConfiguration`. */
  predicate ValidConfiguration(w: WaveState) {
    |w.spawners| > 0 && w.waveNumber < |w.spawners|
  }

  /** `CanSpawnEnemy`: a prefab and a camera are present. */
  predicate CanSpawnEnemy(s: Spawner, cameraY: Option<real>) {
    s.hasPrefab && cameraY.Some?
  }

  datatype SpawnOutcome = SpawnOutcome(spawner: Spawner, spawnedAt: Option<Position>)

  /** `CheckForSpawn` with `SpawnEnemy` inside it. */
  function SpawnCheck(s: Spawner, cameraY: Option<real>, draw: SpawnDraw): SpawnOutcome
    requires IsRangeDraw(draw)
  {
    if s.timer >= s.spawnInterval then
      if CanSpawnEnemy(s, cameraY) then
        SpawnOutcome(s.(spawnedEnemies := s.spawnedEnemies + 1, timer := 0.0),
                     Some(GenerateSpawnPosition(draw, cameraY.value)))
      else
        SpawnOutcome(s.(timer := 0.0), None)
    else
      SpawnOutcome(s, None)
  }

  /** `IncreaseDifficulty`, guarded by the configuration check. */
  function DifficultyIncreased(w: WaveState): seq<Option<Spawner>> {
    if ValidConfiguration(w) then Escalated(w.spawners) else w.spawners
  }

  /** `HandleWaveRollover`. */
  function Rollover(w: WaveState): WaveState {
    if w.waveNumber >= |w.spawners| then
      WaveState(DifficultyIncreased(WaveState(w.spawners, 0)), 0)
    else w
  }

  /** `ResetNewWaveSpawnCount`. */
  function ResetNewWave(w: WaveState): WaveState {
    if w.waveNumber < |w.spawners| && w.spawners[w.waveNumber].Some? then
      WaveState(w.spawners[w.waveNumber := Some(w.spawners[w.waveNumber].value.(spawnedEnemies := 0))],
                w.waveNumber)
    else w
  }

  /** `AdvanceToNextWave`. */
  function Advanced(w: WaveState): WaveState {
    if !ValidConfiguration(w) then w
    else ResetNewWave(Rollover(WaveState(w.spawners, w.waveNumber + 1)))
  }

  datatype TickOutcome = TickOutcome(state: WaveState, spawnedAt: Option<Position>)

  /** `ProcessSpawning`: one frame of `dt` seconds. */
  function Tick(w: WaveState, cameraY: Option<real>, dt: real, draw: SpawnDraw): TickOutcome
    requires IsRangeDraw(draw)
  {
    if !ValidConfiguration(w) || w.spawners[w.waveNumber].None? then TickOutcome(w, None)
    else
      var s := w.spawners[w.waveNumber].value;
      var out := SpawnCheck(s.(timer := s.timer + dt), cameraY, draw);
      var w1 := WaveState(w.spawners[w.waveNumber := Some(out.spawner)], w.waveNumber);
      TickOutcome(if out.spawner.spawnedEnemies >= out.spawner.enemiesPerWave then Advanced(w1) else w1,
                  out.spawnedAt)
  }

  /** A frame does nothing on an empty table, an out-of-range wave number or a null wave. */
  lemma TickGuard(w: WaveState, cameraY: Option<real>, dt: real, draw: SpawnDraw)
    requires IsRangeDraw(draw)
    requires !ValidConfiguration(w) || w.spawners[w.waveNumber].None?
    ensures Tick(w, cameraY, dt, draw) == TickOutcome(w, None)
  {
  }

  /** A frame spawns at most one enemy, exactly when the accumulated timer has
      reached the interval and a prefab and a camera are present, and then in
      the spawn band; the timer is reset whenever the interval was reached. */
  lemma TickSpawnsAtMostOnce(w: WaveState, cameraY: Option<real>, dt: real, draw: SpawnDraw)
    requires IsRangeDraw(draw)
    requires ValidConfiguration(w) && w.spawners[w.waveNumber].Some?
    ensures var s := w.spawners[w.waveNumber].value;
      var out := SpawnCheck(s.(timer := s.timer + dt), cameraY, draw);
      (Tick(w, cameraY, dt, draw).spawnedAt.Some? <==>
         s.timer + dt >= s.spawnInterval && CanSpawnEnemy(s, cameraY)) &&
      (Tick(w, cameraY, dt, draw).spawnedAt.Some? ==>
         InSpawnBand(Tick(w, cameraY, dt, draw).spawnedAt.value, cameraY.value)) &&
      out.spawner.spawnedEnemies ==
        s.spawnedEnemies + (if Tick(w, cameraY, dt, draw).spawnedAt.Some? then 1 else 0) &&
      out.spawner.timer == (if s.timer + dt >= s.spawnInterval then 0.0 else s.timer + dt) &&
      out.spawner == s.(timer := out.spawner.timer, spawnedEnemies := out.spawner.spawnedEnemies)
  {
  }

  /** The completion check runs after the spawn check: the wave advances in the
      same frame exactly when the post-spawn count has reached the target. */
  lemma TickCompletesWave(w: WaveState, cameraY: Option<real>, dt: real, draw: SpawnDraw)
    requires IsRangeDraw(draw)
    requires ValidConfiguration(w) && w.spawners[w.waveNumber].Some?
    ensures var s := w.spawners[w.waveNumber].value;
      var out := SpawnCheck(s.(timer := s.timer + dt), cameraY, draw);
      var w1 := WaveState(w.spawners[w.waveNumber := Some(out.spawner)], w.waveNumber);
      Tick(w, cameraY, dt, draw).state ==
        if out.spawner.spawnedEnemies >= out.spawner.enemiesPerWave then Advanced(w1) else w1
  {
  }

  /** Advancing keeps the wave number in range: it moves to the next wave and wraps to 0 after the last. */
  lemma AdvanceStaysInRange(w: WaveState)
    requires ValidConfiguration(w)
    ensures var a := Advanced(w);
      ValidConfiguration(a) && |a.spawners| == |w.spawners| &&
      a.waveNumber == (w.waveNumber + 1) % |w.spawners| &&
      (a.waveNumber == 0 <==> w.waveNumber == |w.spawners| - 1)
  {
    EscalationFloorsEveryInterval(w.spawners);
  }

  /** Without a wrap, advancing resets the new current wave's count to zero and
      touches nothing else: not its timer, not any other wave. */
  lemma AdvanceResetsOnlyNewWave(w: WaveState)
    requires ValidConfiguration(w) && w.waveNumber + 1 < |w.spawners|
    ensures var a := Advanced(w); var n := w.waveNumber + 1;
      a.waveNumber == n &&
      (forall k :: 0 <= k < |w.spawners| && k != n ==> a.spawners[k] == w.spawners[k]) &&
      (a.spawners[n].Some? <==> w.spawners[n].Some?) &&
      (w.spawners[n].Some? ==> a.spawners[n].value == w.spawners[n].value.(spawnedEnemies := 0))
  {
  }

  /** On a wrap to wave 0 every non-null wave's interval becomes max(0.5, 0.9 x interval);
      wave 0 also has its count reset, and no other field of any wave changes. */
  lemma RolloverEscalatesEveryWave(w: WaveState)
    requires ValidConfiguration(w) && w.waveNumber + 1 == |w.spawners|
    ensures var a := Advanced(w);
      a.waveNumber == 0 && |a.spawners| == |w.spawners| &&
      (forall k :: 0 <= k < |w.spawners| ==>
        (a.spawners[k].Some? <==> w.spawners[k].Some?) &&
        (a.spawners[k].Some? ==>
          a.spawners[k].value.spawnInterval == AdjustedInterval(w.spawners[k].value.spawnInterval) &&
          a.spawners[k].value.spawnInterval >= MinSpawnInterval &&
          a.spawners[k].value == w.spawners[k].value.(
            spawnInterval := a.spawners[k].value.spawnInterval,
            spawnedEnemies := if k == 0 then 0 else w.spawners[k].value.spawnedEnemies)))
  {
    EscalationFloorsEveryInterval(w.spawners);
  }

  /** The spawner as it starts: wave 1, so a one-wave table never runs and
      wave 0 is reached only after the first rollover. */
  lemma OneWaveTableNeverSpawns(spawners: seq<Option<Spawner>>, cameraY: Option<real>, dt: real, draw: SpawnDraw)
    requires IsRangeDraw(draw) && |spawners| <= 1
    ensures Tick(WaveState(spawners, InitialWaveNumber), cameraY, dt, draw) ==
      TickOutcome(WaveState(spawners, InitialWaveNumber), None)
  {
  }

  /** `k` frames of the same length. */
  function RunTicks(w: WaveState, cameraY: Option<real>, dt: real, draw: SpawnDraw, k: nat): (r: TickOutcome)
    requires IsRangeDraw(draw)
    decreases k
  {
    if k == 0 then TickOutcome(w, None)
    else Tick(RunTicks(w, cameraY, dt, draw, k - 1).state, cameraY, dt, draw)
  }

  /** A wave whose frames are exactly one interval long spawns once per frame:
      after k frames short of its target it is still current and has spawned k more. */
  lemma {:induction false} SteadyWaveSpawnsEveryFrame(
    w: WaveState, cameraY: Option<real>, dt: real, draw: SpawnDraw, k: nat)
    requires IsRangeDraw(draw) && ValidConfiguration(w) && w.spawners[w.waveNumber].Some?
    requires var s := w.spawners[w.waveNumber].value;
      s.timer == 0.0 && s.spawnInterval == dt && CanSpawnEnemy(s, cameraY) &&
      s.spawnedEnemies + k < s.enemiesPerWave
    ensures var r := RunTicks(w, cameraY, dt, draw, k).state; var s := w.spawners[w.waveNumber].value;
      r.waveNumber == w.waveNumber &&
      r.spawners == w.spawners[w.waveNumber := Some(s.(spawnedEnemies := s.spawnedEnemies + k))]
  {
    if k > 0 {
      SteadyWaveSpawnsEveryFrame(w, cameraY, dt, draw, k - 1);
      var s := w.spawners[w.waveNumber].value;
      SteadyFrame(w, cameraY, dt, draw, s.spawnedEnemies + k - 1);
    }
  }

  /** One frame exactly one interval long on the current wave, whose count is `c`:
      it spawns, the count becomes `c + 1`, and the wave advances exactly when that reaches the target. */
  lemma SteadyFrame(w: WaveState, cameraY: Option<real>, dt: real, draw: SpawnDraw, c: int)
    requires IsRangeDraw(draw) && ValidConfiguration(w) && w.spawners[w.waveNumber].Some?
    requires var s := w.spawners[w.waveNumber].value;
      s.timer == 0.0 && s.spawnInterval == dt && CanSpawnEnemy(s, cameraY)
    ensures var s := w.spawners[w.waveNumber].value; var wn := w.waveNumber;
      var m := WaveState(w.spawners[wn := Some(s.(spawnedEnemies := c))], wn);
      var m1 := WaveState(w.spawners[wn := Some(s.(spawnedEnemies := c + 1))], wn);
      Tick(m, cameraY, dt, draw).spawnedAt.Some? &&
      Tick(m, cameraY, dt, draw).state == (if c + 1 >= s.enemiesPerWave then Advanced(m1) else m1)
  {
    var s := w.spawners[w.waveNumber].value;
    var wn := w.waveNumber;
    var m := WaveState(w.spawners[wn := Some(s.(spawnedEnemies := c))], wn);
    assert m.spawners[wn].value.(timer := dt) == s.(spawnedEnemies := c, timer := dt);
    assert m.spawners[wn := Some(s.(spawnedEnemies := c + 1))] == w.spawners[wn := Some(s.(spawnedEnemies := c + 1))];
  }

  /** Starting a fresh wave on frames one interval long, the wave emits exactly
      its target number of enemies, one per frame, and advances on the last of them. */
  lemma FreshWaveEmitsItsTarget(w: WaveState, cameraY: Option<real>, dt: real, draw: SpawnDraw)
    requires IsRangeDraw(draw) && ValidConfiguration(w) && w.spawners[w.waveNumber].Some?
    requires var s := w.spawners[w.waveNumber].value;
      s.timer == 0.0 && s.spawnInterval == dt && CanSpawnEnemy(s, cameraY) &&
      s.spawnedEnemies == 0 && s.enemiesPerWave >= 1
    ensures var s := w.spawners[w.waveNumber].value; var n := s.enemiesPerWave;
      (forall j :: 1 <= j <= n ==> RunTicks(w, cameraY, dt, draw, j).spawnedAt.Some?) &&
      RunTicks(w, cameraY, dt, draw, n - 1).state.waveNumber == w.waveNumber &&
      RunTicks(w, cameraY, dt, draw, n).state ==
        Advanced(WaveState(w.spawners[w.waveNumber := Some(s.(spawnedEnemies := n))], w.waveNumber))
  {
    var s := w.spawners[w.waveNumber].value;
    var n := s.enemiesPerWave;
    forall j | 1 <= j <= n
      ensures RunTicks(w, cameraY, dt, draw, j).spawnedAt.Some?
    {
      FreshWaveFrame(w, cameraY, dt, draw, j - 1);
    }
    FreshWaveFrame(w, cameraY, dt, draw, n - 1);
  }

  /** Frame `c + 1` of a fresh wave as in `FreshWaveEmitsItsTarget`, for `c` short of the target. */
  lemma FreshWaveFrame(w: WaveState, cameraY: Option<real>, dt: real, draw: SpawnDraw, c: nat)
    requires IsRangeDraw(draw) && ValidConfiguration(w) && w.spawners[w.waveNumber].Some?
    requires var s := w.spawners[w.waveNumber].value;
      s.timer == 0.0 && s.spawnInterval == dt && CanSpawnEnemy(s, cameraY) &&
      s.spawnedEnemies == 0 && c < s.enemiesPerWave
    ensures var s := w.spawners[w.waveNumber].value; var wn := w.waveNumber;
      var m1 := WaveState(w.spawners[wn := Some(s.(spawnedEnemies := c + 1))], wn);
      RunTicks(w, cameraY, dt, draw, c).state.waveNumber == wn &&
      RunTicks(w, cameraY, dt, draw, c + 1).spawnedAt.Some? &&
      RunTicks(w, cameraY, dt, draw, c + 1).state == (if c + 1 >= s.enemiesPerWave then Advanced(m1) else m1)
  {
    var s := w.spawners[w.waveNumber].value;
    var wn := w.waveNumber;
    SteadyWaveSpawnsEveryFrame(w, cameraY, dt, draw, c);
    SteadyFrame(w, cameraY, dt, draw, c);
    var m := WaveState(w.spawners[wn := Some(s.(spawnedEnemies := c))], wn);
    assert RunTicks(w, cameraY, dt, draw, c).state == m;
    assert RunTicks(w, cameraY, dt, draw, c + 1) == Tick(m, cameraY, dt, draw);
  }

  class EnemySpawner {
    var spawners: seq<Option<Spawner>>
    var waveNumber: nat
    /** The camera's y coordinate, or None when `mainCamera` is null. */
    var cameraY: Option<real>

    function State(): WaveState
      reads this
    {
      WaveState(spawners, waveNumber)
    }

    constructor (table: seq<Option<Spawner>>, camera: Option<real>)
      ensures State() == WaveState(table, InitialWaveNumber) && cameraY == camera
    {
      spawners := table;
      waveNumber := InitialWaveNumber;
      cameraY := camera;
    }

    method ProcessSpawning(dt: real, draw: SpawnDraw) returns (spawnedAt: Option<Position>)
      requires IsRangeDraw(draw)
      modifies this
      ensures TickOutcome(State(), spawnedAt) == Tick(old(State()), cameraY, dt, draw)
      ensures cameraY == old(cameraY)
    {
      if !ValidConfiguration(State()) || spawners[waveNumber].None? {
        return None;
      }
      var s := spawners[waveNumber].value;
      spawners := spawners[waveNumber := Some(s.(timer := s.timer + dt))];
      spawnedAt := CheckForSpawn(draw);
      CheckForWaveCompletion();
    }

    method CheckForSpawn(draw: SpawnDraw) returns (spawnedAt: Option<Position>)
      requires IsRangeDraw(draw) && ValidConfiguration(State()) && spawners[waveNumber].Some?
      modifies this
      ensures waveNumber == old(waveNumber) && cameraY == old(cameraY)
      ensures var out := SpawnCheck(old(spawners[waveNumber].value), cameraY, draw);
        spawners == old(spawners)[waveNumber := Some(out.spawner)] && spawnedAt == out.spawnedAt
    {
      var s := spawners[waveNumber].value;
      if s.timer >= s.spawnInterval {
        spawnedAt := SpawnEnemy(draw);
        var t := spawners[waveNumber].value;
        spawners := spawners[waveNumber := Some(t.(timer := 0.0))];
      } else {
        spawnedAt := None;
      }
    }

    method SpawnEnemy(draw: SpawnDraw) returns (spawnedAt: Option<Position>)
      requires IsRangeDraw(draw) && ValidConfiguration(State()) && spawners[waveNumber].Some?
      modifies this
      ensures waveNumber == old(waveNumber) && cameraY == old(cameraY)
      ensures var s := old(spawners[waveNumber].value);
        if CanSpawnEnemy(s, cameraY) then
          spawnedAt == Some(GenerateSpawnPosition(draw, cameraY.value)) &&
          spawners == old(spawners)[waveNumber := Some(s.(spawnedEnemies := s.spawnedEnemies + 1))]
        else
          spawnedAt == None && spawners == old(spawners)
    {
      var s := spawners[waveNumber].value;
      if !CanSpawnEnemy(s, cameraY) {
        return None;
      }
      spawnedAt := Some(GenerateSpawnPosition(draw, cameraY.value));
      spawners := spawners[waveNumber := Some(s.(spawnedEnemies := s.spawnedEnemies + 1))];
    }

    method CheckForWaveCompletion()
      requires ValidConfiguration(State()) && spawners[waveNumber].Some?
      modifies this
      ensures var s := old(spawners[waveNumber].value);
        State() == if s.spawnedEnemies >= s.enemiesPerWave then Advanced(old(State())) else old(State())
      ensures cameraY == old(cameraY)
    {
      var s := spawners[waveNumber].value;
      if s.spawnedEnemies >= s.enemiesPerWave {
        AdvanceToNextWave();
      }
    }

    method AdvanceToNextWave()
      modifies this
      ensures State() == Advanced(old(State())) && cameraY == old(cameraY)
    {
      if !ValidConfiguration(State()) {
        return;
      }
      waveNumber := waveNumber + 1;
      HandleWaveRollover();
      ResetNewWaveSpawnCount();
    }

    method HandleWaveRollover()
      modifies this
      ensures State() == Rollover(old(State())) && cameraY == old(cameraY)
    {
      if waveNumber >= |spawners| {
        waveNumber := 0;
        IncreaseDifficulty();
      }
    }

    method ResetNewWaveSpawnCount()
      modifies this
      ensures State() == ResetNewWave(old(State())) && cameraY == old(cameraY)
    {
      if waveNumber < |spawners| && spawners[waveNumber].Some? {
        spawners := spawners[waveNumber := Some(spawners[waveNumber].value.(spawnedEnemies := 0))];
      }
    }

    /** The `foreach` over the table, rewriting every non-null wave's interval in place. */
    method IncreaseDifficulty()
      modifies this
      ensures spawners == DifficultyIncreased(old(State()))
      ensures waveNumber == old(waveNumber) && cameraY == old(cameraY)
    {
      if !ValidConfiguration(State()) {
        return;
      }
      ghost var before := spawners;
      var i := 0;
      while i < |spawners|
        invariant 0 <= i <= |spawners| == |before|
        invariant forall k :: 0 <= k < i ==> spawners[k] == Escalated(before)[k]
        invariant forall k :: i <= k < |spawners| ==> spawners[k] == before[k]
        invariant waveNumber == old(waveNumber) && cameraY == old(cameraY)
      {
        if spawners[i].Some? {
          spawners := spawners[i := Some(AdjustSpawnerDifficulty(spawners[i].value))];
        }
        i := i + 1;
      }
      assert spawners == Escalated(before);
    }
  }
}
