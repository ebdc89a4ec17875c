/** EnemyController.cs: the enemy's integer health, its knockback after a
    hit, and the damage it does to the player on contact. */
module Enemies {
  import opened Wrappers
  import Spawning
  import Players
  import DamageNumbers
  import Armory
  import Game
  import Text

  const DefaultHealth: int := 10

  function Abs(x: real): real {
    if x < 0.0 then -x else x
  }

  datatype Knockback = Knockback(speed: real, counter: real)

  /** `HandleKnockback` for one fixed step: while the counter runs, a positive
      speed is flipped; when the counter runs out the speed is made positive again. */
  function KnockbackStep(k: Knockback, dt: real): (r: Knockback)
    ensures Abs(r.speed) == Abs(k.speed)
    ensures k.counter <= 0.0 ==> r == k
    ensures k.counter > 0.0 ==>
      r.counter == k.counter - dt &&
      (r.counter > 0.0 ==> r.speed == -Abs(k.speed)) &&
      (r.counter <= 0.0 ==> r.speed == Abs(k.speed))
  {
    if k.counter > 0.0 then
      var counter := k.counter - dt;
      var flipped := if k.speed > 0.0 then -k.speed else k.speed;
      Knockback(if counter <= 0.0 then Abs(flipped) else flipped, counter)
    else k
  }

  function RunKnockback(k: Knockback, dt: real, n: nat): Knockback {
    if n == 0 then k else KnockbackStep(RunKnockback(k, dt, n - 1), dt)
  }

  /** After a hit with push time `pushtime`, constant fixed steps of `dt` move
      the enemy backwards while n * dt < pushtime and forwards at its old
      speed from then on; the magnitude of the speed never changes. */
  lemma {:induction false} KnockbackRecovers(speed: real, pushtime: real, dt: real, n: nat)
    requires dt > 0.0 && pushtime > 0.0
    ensures var r := RunKnockback(Knockback(speed, pushtime), dt, n);
      Abs(r.speed) == Abs(speed) &&
      (n as real * dt < pushtime ==> r.counter == pushtime - n as real * dt) &&
      (n >= 1 && n as real * dt < pushtime ==> r.speed == -Abs(speed)) &&
      (n as real * dt >= pushtime ==> r.speed == Abs(speed) && r.counter <= 0.0)
  {
    if n > 0 {
      KnockbackRecovers(speed, pushtime, dt, n - 1);
      assert n as real * dt == (n - 1) as real * dt + dt;
    }
  }

  /** `IsEnemySpawnerValid`. */
  predicate SpawnerValid(w: Spawning.WaveState) {
    w.waveNumber < |w.spawners|
  }

  /** The source reads a field of the current wave whenever the spawner check
      passes, so a null current wave would throw: callers exclude it. */
  predicate CurrentWaveReadable(spawner: Spawning.EnemySpawner?)
    reads spawner
  {
    spawner != null && SpawnerValid(spawner.State()) ==> spawner.spawners[spawner.waveNumber].Some?
  }

  /** The player's health after `DamagePlayer` and `CheckPlayerDeath`. */
  function HealthAfterContact(health: int, waves: Option<Spawning.WaveState>): (r: int)
    requires waves.Some? && SpawnerValid(waves.value) ==> waves.value.spawners[waves.value.waveNumber].Some?
    ensures r >= 0
    ensures r > 0 <==> health - ContactDamage(waves) > 0
    ensures r > 0 ==> r == health - ContactDamage(waves)
  {
    var damaged := health - ContactDamage(waves);
    if damaged <= 0 then 0 else damaged
  }

  /** The damage `DamagePlayer` subtracts: the current wave's, or none. */
  function ContactDamage(waves: Option<Spawning.WaveState>): int
    requires waves.Some? && SpawnerValid(waves.value) ==> waves.value.spawners[waves.value.waveNumber].Some?
  {
    if waves.Some? && SpawnerValid(waves.value) then waves.value.spawners[waves.value.waveNumber].value.enemyDamage
    else 0
  }

  /** The player, as a frame: empty when there is none. */
  function PlayerFrame(p: Players.PlayerController?): set<Players.PlayerController> {
    if p != null then {p} else {}
  }

  /** The weapon component, as a frame: empty when there is none. */
  function WeaponsFrame(w: Armory.Weapons?): set<Armory.Weapons> {
    if w != null then {w} else {}
  }

  class EnemyController {
    var health: int
    const giveExperience: int
    const pushtime: real
    var pushcounter: real
    var moveSpeed: real
    var position: DamageNumbers.Point
    /** `Destroy(gameObject)` has been called; the engine removes the object at
        the end of the frame, so it can still be hit until then. */
    var destroyed: bool

    function Knock(): Knockback
      reads this
    {
      Knockback(moveSpeed, pushcounter)
    }

    /** `Awake`/`InitializeHealth`: the current wave's health, or 10 when there
        is no usable spawner. */
    constructor (spawner: Spawning.EnemySpawner?, moveSpeed: real, giveExperience: int, pushtime: real,
                 position: DamageNumbers.Point)
      requires CurrentWaveReadable(spawner)
      ensures health ==
        if spawner != null && SpawnerValid(spawner.State()) then spawner.spawners[spawner.waveNumber].value.enemyHealth
        else DefaultHealth
      ensures this.moveSpeed == moveSpeed && this.giveExperience == giveExperience && this.pushtime == pushtime
      ensures pushcounter == 0.0 && !destroyed && this.position == position
    {
      this.moveSpeed := moveSpeed;
      this.giveExperience := giveExperience;
      this.pushtime := pushtime;
      this.position := position;
      pushcounter := 0.0;
      destroyed := false;
      health := 0;
      new;
      InitializeHealth(spawner);
    }

    method InitializeHealth(spawner: Spawning.EnemySpawner?)
      requires CurrentWaveReadable(spawner)
      modifies this`health
      ensures health ==
        if spawner != null && SpawnerValid(spawner.State()) then spawner.spawners[spawner.waveNumber].value.enemyHealth
        else DefaultHealth
    {
      if spawner != null && spawner.waveNumber < |spawner.spawners| {
        health := spawner.spawners[spawner.waveNumber].value.enemyHealth;
      } else {
        health := DefaultHealth;
      }
    }

    /** `TakeDamage`: lose exactly `damage`, show it as a floating number, start
        the knockback, and die on reaching zero or below. Dying gives the
        player this enemy's experience, every time it happens. */
    method TakeDamage(damage: int, player: Players.PlayerController?, numbers: DamageNumbers.DamageNumberController?,
                      weapons: Armory.Weapons?, gm: Game.GameManager?, speedDraw: real)
      requires numbers != null ==> numbers.Valid()
      requires DamageNumbers.MinFloatSpeed <= speedDraw <= DamageNumbers.MaxFloatSpeed
      modifies this, PlayerFrame(player)`experience, PlayerFrame(player)`currentLevel
      modifies WeaponsFrame(weapons)`upgradePanelShown, gm, numbers, if numbers != null then numbers.queue else []
      ensures health == old(health) - damage && pushcounter == pushtime
      ensures moveSpeed == old(moveSpeed) && position == old(position)
      ensures destroyed == (old(destroyed) || health <= 0)
      ensures numbers != null ==> numbers.Valid()
      ensures numbers != null && numbers.hasPrefab ==>
        |numbers.actives| == old(|numbers.actives|) + 1 &&
        numbers.actives[..old(|numbers.actives|)] == old(numbers.actives) &&
        var shown := numbers.actives[|numbers.actives| - 1];
        shown.active && shown.position == position &&
        (shown.hasText ==> shown.text == Text.IntToString(damage))
      ensures numbers != null && !numbers.hasPrefab ==> unchanged(numbers) && unchanged(old(numbers.queue))
      ensures health <= 0 && player != null ==>
        player.Progression() == Players.Gain(old(player.Progression()), old(player.playersLevel), giveExperience)
      ensures health > 0 && player != null ==> unchanged(player)
      ensures var levelled := player != null && player.currentLevel != old(player.currentLevel);
        (levelled && weapons != null ==>
          weapons.upgradePanelShown == (weapons.hasUpgradePanel || old(weapons.upgradePanelShown)) &&
          (gm != null ==> gm.isPaused && gm.PausedBy(Some(true)))) &&
        (!levelled || weapons == null ==> (weapons != null ==> unchanged(weapons)) && (gm != null ==> unchanged(gm)))
      ensures weapons != null && old(weapons.Valid()) ==> weapons.Valid()
    {
      health := health - damage;
      ShowDamageNumber(damage, numbers, speedDraw);
      ApplyKnockback();
      if health <= 0 {
        Die(player, weapons, gm);
      }
    }

    method ShowDamageNumber(damage: int, numbers: DamageNumbers.DamageNumberController?, speedDraw: real)
      requires numbers != null ==> numbers.Valid()
      requires DamageNumbers.MinFloatSpeed <= speedDraw <= DamageNumbers.MaxFloatSpeed
      modifies numbers, if numbers != null then numbers.queue else []
      ensures numbers != null ==> numbers.Valid()
      ensures numbers != null && !numbers.hasPrefab ==> unchanged(numbers) && unchanged(old(numbers.queue))
      ensures numbers != null && numbers.hasPrefab ==>
        |numbers.actives| == old(|numbers.actives|) + 1 &&
        numbers.actives[..old(|numbers.actives|)] == old(numbers.actives) &&
        var shown := numbers.actives[|numbers.actives| - 1];
        shown.active && shown.position == position &&
        (shown.hasText ==> shown.text == Text.IntToString(damage))
    {
      if numbers != null {
        numbers.CreateNumber(damage as real, position, speedDraw);
        DamageNumbers.RoundingKeepsWholeValues(damage);
      }
    }

    method ApplyKnockback()
      modifies this`pushcounter
      ensures pushcounter == pushtime
    {
      pushcounter := pushtime;
    }

    /** `Die`: the experience, the destroy effect (not modelled) and `Destroy`. */
    method Die(player: Players.PlayerController?, weapons: Armory.Weapons?, gm: Game.GameManager?)
      modifies this`destroyed, PlayerFrame(player)`experience, PlayerFrame(player)`currentLevel
      modifies WeaponsFrame(weapons)`upgradePanelShown, gm
      ensures destroyed
      ensures player != null ==>
        player.Progression() == Players.Gain(old(player.Progression()), old(player.playersLevel), giveExperience) &&
        player.playersLevel == old(player.playersLevel)
      ensures var levelled := player != null && player.currentLevel != old(player.currentLevel);
        (levelled && weapons != null ==>
          weapons.upgradePanelShown == (weapons.hasUpgradePanel || old(weapons.upgradePanelShown)) &&
          (gm != null ==> gm.isPaused && gm.PausedBy(Some(true)))) &&
        (!levelled || weapons == null ==> (weapons != null ==> unchanged(weapons)) && (gm != null ==> unchanged(gm)))
      ensures weapons != null && old(weapons.Valid()) ==> weapons.Valid()
    {
      if player != null {
        player.Experience(giveExperience, weapons, gm);
      }
      destroyed := true;
    }

    /** `HandleKnockback`, run from `FixedUpdate` only while the player exists. */
    method HandleMovement(fixedDt: real, playerPresent: bool)
      modifies this`moveSpeed, this`pushcounter
      ensures Knock() == if playerPresent then KnockbackStep(old(Knock()), fixedDt) else old(Knock())
    {
      if !playerPresent {
        return;
      }
      HandleKnockback(fixedDt);
    }

    method HandleKnockback(fixedDt: real)
      modifies this`moveSpeed, this`pushcounter
      ensures Knock() == KnockbackStep(old(Knock()), fixedDt)
    {
      if pushcounter > 0.0 {
        pushcounter := pushcounter - fixedDt;
        if moveSpeed > 0.0 {
          moveSpeed := -moveSpeed;
        }
        if pushcounter <= 0.0 {
          moveSpeed := Abs(moveSpeed);
        }
      }
    }

    /** `HandlePlayerCollision` (from `OnCollisionStay2D`): only a non-immune
        "Player" with a spawner present is hurt. The current wave's damage is
        subtracted, immunity starts, and at zero or below the health is clamped
        to 0, the game paused and the player deactivated. */
    method HandlePlayerCollision(tag: string, player: Players.PlayerController?, spawner: Spawning.EnemySpawner?,
                                 gm: Game.GameManager?)
      requires CurrentWaveReadable(spawner)
      modifies PlayerFrame(player)`playerHealth, PlayerFrame(player)`active, PlayerFrame(player)`tinted
      modifies PlayerFrame(player)`isImmune, PlayerFrame(player)`currentImmuneTime, gm
      ensures var hurt := tag == "Player" && player != null && spawner != null && !old(player.isImmune);
        (!hurt ==> (player != null ==> unchanged(player)) && (gm != null ==> unchanged(gm))) &&
        (hurt ==>
          var waves := Some(spawner.State());
          player.playerHealth == HealthAfterContact(old(player.playerHealth), waves) &&
          player.ImmunityState() == Players.Immunity(true, Players.ImmuneTime) && player.tinted &&
          player.active == (old(player.active) && player.playerHealth > 0) &&
          (player.playerHealth == 0 && gm != null ==> gm.isPaused && gm.PausedBy(Some(true))) &&
          (player.playerHealth > 0 && gm != null ==> unchanged(gm)) &&
          player.Progression() == old(player.Progression()))
    {
      if !(tag == "Player" && player != null && spawner != null && !player.isImmune) {
        return;
      }
      DamagePlayer(player, spawner);
      player.ActivateImmune();
      CheckPlayerDeath(player, gm);
    }

    method DamagePlayer(player: Players.PlayerController, spawner: Spawning.EnemySpawner?)
      requires CurrentWaveReadable(spawner)
      modifies player`playerHealth
      ensures player.playerHealth ==
        old(player.playerHealth) - ContactDamage(if spawner != null then Some(spawner.State()) else None)
    {
      if spawner != null && spawner.waveNumber < |spawner.spawners| {
        var damage := spawner.spawners[spawner.waveNumber].value.enemyDamage;
        player.playerHealth := player.playerHealth - damage;
      }
    }

    method CheckPlayerDeath(player: Players.PlayerController, gm: Game.GameManager?)
      modifies player`playerHealth, player`active, gm
      ensures player.playerHealth == if old(player.playerHealth) <= 0 then 0 else old(player.playerHealth)
      ensures player.active == (old(player.active) && old(player.playerHealth) > 0)
      ensures old(player.playerHealth) <= 0 && gm != null ==> gm.isPaused && gm.PausedBy(Some(true))
      ensures old(player.playerHealth) > 0 && gm != null ==> unchanged(gm)
    {
      if player.playerHealth <= 0 {
        player.playerHealth := 0;
        if gm != null {
          gm.Pause(Some(true));
        }
        player.active := false;
      }
    }
  }
}
