/** Weapons.cs, the stateful half: the component that owns the weapon table,
    the enemies in range, the damage counter and the running lifecycle. */
module Armory {
  import opened Wrappers
  import opened WeaponRules
  import opened Lists
  import Game

  class Weapons {
    var weapons: seq<Weapon>
    var enemiesInRange: seq<EnemyRef>
    var currentWeaponIndex: nat
    /** `MonoBehaviour.enabled`: a disabled component gets no more frames. */
    var enabled: bool
    /** `currentWeapon != null`. */
    var hasWeapon: bool
    var initialDuration: real
    var damageCounter: real
    var hasUpgradePanel: bool
    var upgradePanelShown: bool
    var phase: Phase
    var scale: Vec3
    var weaponShown: bool
    var isHiding: bool
    var waited: real
    var waitFor: real
    var scaleTarget: Vec3

    function Life(): Lifecycle
      reads this
    {
      Lifecycle(phase, scale, weaponShown, isHiding, waited, waitFor, scaleTarget)
    }

    ghost predicate Valid()
      reads this
    {
      PhaseFlags(Life()) &&
      (phase != Idle ==> hasWeapon && currentWeaponIndex < |weapons|) &&
      0.0 <= damageCounter <= DamageInterval
    }

    /** `Awake`: the table and index as configured, nothing in range, no weapon yet. */
    constructor (table: seq<Weapon>, configuredIndex: nat, hasUpgradePanel: bool)
      ensures Valid()
      ensures weapons == table && currentWeaponIndex == configuredIndex && this.hasUpgradePanel == hasUpgradePanel
      ensures enemiesInRange == [] && enabled && !hasWeapon && phase == Idle
      ensures damageCounter == 0.0 && !isHiding && !upgradePanelShown
    {
      weapons := table;
      enemiesInRange := [];
      currentWeaponIndex := configuredIndex;
      enabled := true;
      hasWeapon := false;
      initialDuration := 0.0;
      damageCounter := 0.0;
      this.hasUpgradePanel := hasUpgradePanel;
      upgradePanelShown := false;
      phase := Idle;
      scale := Vec3(0.0, 0.0, 0.0);
      weaponShown := false;
      isHiding := false;
      waited := 0.0;
      waitFor := 0.0;
      scaleTarget := Vec3(0.0, 0.0, 0.0);
    }

    /** `IsValidWeaponConfiguration`, including the index reset of `IsValidWeaponIndex`
        (which only runs on a non-empty table). */
    method IsValidWeaponConfiguration() returns (ok: bool)
      modifies this`currentWeaponIndex
      ensures currentWeaponIndex == if |weapons| > 0 then CheckedIndex(old(currentWeaponIndex), |weapons|)
                                    else old(currentWeaponIndex)
      ensures ok <==> |weapons| > 0 && weapons[currentWeaponIndex].hasPrefab
    {
      if |weapons| == 0 {
        return false;
      }
      currentWeaponIndex := CheckedIndex(currentWeaponIndex, |weapons|);
      IndexCheckIffNonEmpty(old(currentWeaponIndex), |weapons|);
      ok := weapons[currentWeaponIndex].hasPrefab;
    }

    /** The bounded wait for the player: a poll every 0.1 time units while the
        elapsed time is below 5. `playerAt(k)` says whether the player exists at
        the k-th poll. The result is the first poll that finds it, if any of the
        first 51 does; otherwise the wait gives up after 50 intervals. */
    method WaitForPlayerController(playerAt: nat -> bool) returns (polls: nat, found: bool)
      ensures polls <= MaxPolls && found == playerAt(polls)
      ensures forall k :: 0 <= k < polls ==> !playerAt(k)
      ensures !found ==> polls == MaxPolls
    {
      var elapsed := 0.0;
      polls := 0;
      while !playerAt(polls) && elapsed < PlayerControllerTimeout
        invariant polls <= MaxPolls
        invariant elapsed == polls as real * PollInterval
        invariant forall k :: 0 <= k < polls ==> !playerAt(k)
        decreases MaxPolls - polls
      {
        elapsed := elapsed + PollInterval;
        polls := polls + 1;
      }
      found := playerAt(polls);
    }

    /** `CreateInitialWeapon`: capture the duration once, create the instance at
        the configured scale and start the lifecycle. */
    method CreateInitialWeapon()
      requires Valid() && currentWeaponIndex < |weapons|
      modifies this
      ensures Valid()
      ensures weapons == old(weapons) && currentWeaponIndex == old(currentWeaponIndex)
      ensures initialDuration == weapons[currentWeaponIndex].duration
      ensures hasWeapon && phase == Active && weaponShown && !isHiding
      ensures scale == weapons[currentWeaponIndex].scale
      ensures enemiesInRange == old(enemiesInRange) && enabled == old(enabled)
      ensures damageCounter == old(damageCounter) && upgradePanelShown == old(upgradePanelShown)
      ensures hasUpgradePanel == old(hasUpgradePanel)
    {
      initialDuration := weapons[currentWeaponIndex].duration;
      hasWeapon := true;
      scale := weapons[currentWeaponIndex].scale;
      weaponShown := true;
      isHiding := false;
      phase := Active;
    }

    /** `Start`/`InitializeWeaponSystem`: disable on a bad table, otherwise create
        the weapon as soon as the player exists, waiting for it if need be. */
    method Start(playerAt: nat -> bool)
      requires Valid() && enabled && !hasWeapon && phase == Idle
      modifies this
      ensures Valid()
      ensures weapons == old(weapons) && enemiesInRange == old(enemiesInRange)
      ensures currentWeaponIndex == if |weapons| > 0 then CheckedIndex(old(currentWeaponIndex), |weapons|)
                                    else old(currentWeaponIndex)
      ensures var configured := |weapons| > 0 && weapons[currentWeaponIndex].hasPrefab;
        (!configured ==> !enabled && phase == Idle) &&
        (configured ==> (enabled <==> exists k :: 0 <= k <= MaxPolls && playerAt(k))) &&
        (enabled ==>
          phase == Active && hasWeapon && scale == weapons[currentWeaponIndex].scale &&
          initialDuration == weapons[currentWeaponIndex].duration) &&
        (!enabled ==> phase == Idle && !hasWeapon)
    {
      var ok := IsValidWeaponConfiguration();
      if !ok {
        enabled := false;
        return;
      }
      if !playerAt(0) {
        var polls, found := WaitForPlayerController(playerAt);
        if found {
          CreateInitialWeapon();
        } else {
          enabled := false;
          assert forall k :: 0 <= k <= MaxPolls ==> !playerAt(k) by {
            forall k | 0 <= k <= MaxPolls ensures !playerAt(k) {
              if k == polls {
              }
            }
          }
        }
        return;
      }
      CreateInitialWeapon();
    }

    /** One frame: `Update` runs `ProcessWeaponBehavior`, then the lifecycle
        coroutine resumes. `lerped` is the engine's interpolated scale and
        `destroyed` the enemies that no longer exist. */
    method Update(dt: real, lerped: Vec3, destroyed: set<EnemyRef>) returns (hits: seq<Hit>)
      requires Valid() && dt >= 0.0
      modifies this
      ensures Valid()
      ensures !old(enabled) ==> unchanged(this) && hits == []
      ensures old(enabled) ==>
        var i := old(currentWeaponIndex);
        var counted := CountdownCurrent(old(weapons), i, dt);
        currentWeaponIndex == i && enabled &&
        initialDuration == old(initialDuration) && hasWeapon == old(hasWeapon) &&
        hasUpgradePanel == old(hasUpgradePanel) && upgradePanelShown == old(upgradePanelShown) &&
        (i >= |old(weapons)| ==>
           hits == [] && enemiesInRange == old(enemiesInRange) && damageCounter == old(damageCounter)) &&
        (i < |old(weapons)| ==>
           var step := DamageCounterStep(old(damageCounter), dt);
           damageCounter == step.counter &&
           hits == (if step.sweep then SweepHits(old(enemiesInRange), destroyed, old(weapons)[i].damage) else []) &&
           enemiesInRange == (if step.sweep then Survivors(old(enemiesInRange), destroyed) else old(enemiesInRange))) &&
        (old(phase) == Idle ==> Life() == old(Life()) && weapons == counted) &&
        (old(phase) != Idle ==>
           LifecycleOutcome(Life(), weapons) == Resume(old(Life()), counted, i, old(initialDuration), dt, lerped))
    {
      if !enabled {
        return [];
      }
      hits := ProcessWeaponBehavior(dt, destroyed);
      if phase != Idle {
        ResumeLifecycle(dt, lerped);
      }
    }

    method ProcessWeaponBehavior(dt: real, destroyed: set<EnemyRef>) returns (hits: seq<Hit>)
      requires Valid() && dt >= 0.0
      modifies this
      ensures Valid()
      ensures Life() == old(Life()) && currentWeaponIndex == old(currentWeaponIndex)
      ensures enabled == old(enabled) && initialDuration == old(initialDuration) && hasWeapon == old(hasWeapon)
      ensures hasUpgradePanel == old(hasUpgradePanel) && upgradePanelShown == old(upgradePanelShown)
      ensures weapons == CountdownCurrent(old(weapons), currentWeaponIndex, dt)
      ensures currentWeaponIndex >= |weapons| ==>
        hits == [] && enemiesInRange == old(enemiesInRange) && damageCounter == old(damageCounter)
      ensures currentWeaponIndex < |weapons| ==>
        var step := DamageCounterStep(old(damageCounter), dt);
        damageCounter == step.counter &&
        hits == (if step.sweep then SweepHits(old(enemiesInRange), destroyed, weapons[currentWeaponIndex].damage) else []) &&
        enemiesInRange == (if step.sweep then Survivors(old(enemiesInRange), destroyed) else old(enemiesInRange))
    {
      if currentWeaponIndex >= |weapons| {
        return [];
      }
      hits := ProcessDamageCounter(dt, destroyed);
      UpdateWeaponDuration(dt);
    }

    method UpdateWeaponDuration(dt: real)
      requires currentWeaponIndex < |weapons|
      modifies this`weapons
      ensures weapons == CountdownCurrent(old(weapons), currentWeaponIndex, dt)
    {
      if weapons[currentWeaponIndex].duration > 0.0 {
        weapons := weapons[currentWeaponIndex :=
          weapons[currentWeaponIndex].(duration := weapons[currentWeaponIndex].duration - dt)];
      }
    }

    method ProcessDamageCounter(dt: real, destroyed: set<EnemyRef>) returns (hits: seq<Hit>)
      requires currentWeaponIndex < |weapons| && 0.0 <= damageCounter <= DamageInterval && dt >= 0.0
      modifies this`damageCounter, this`enemiesInRange
      ensures 0.0 <= damageCounter <= DamageInterval
      ensures var step := DamageCounterStep(old(damageCounter), dt);
        damageCounter == step.counter &&
        hits == (if step.sweep then SweepHits(old(enemiesInRange), destroyed, weapons[currentWeaponIndex].damage) else []) &&
        enemiesInRange == (if step.sweep then Survivors(old(enemiesInRange), destroyed) else old(enemiesInRange))
    {
      DamageCounterStaysInInterval(damageCounter, dt);
      damageCounter := damageCounter - dt;
      if damageCounter <= 0.0 {
        damageCounter := DamageInterval;
        hits := DamageAllEnemiesInRange(destroyed);
      } else {
        hits := [];
      }
    }

    /** The reverse `for` loop: hit every live enemy, `RemoveAt` every destroyed one. */
    method DamageAllEnemiesInRange(destroyed: set<EnemyRef>) returns (hits: seq<Hit>)
      requires currentWeaponIndex < |weapons|
      modifies this`enemiesInRange
      ensures enemiesInRange == Survivors(old(enemiesInRange), destroyed)
      ensures hits == SweepHits(old(enemiesInRange), destroyed, weapons[currentWeaponIndex].damage)
    {
      ghost var s := enemiesInRange;
      var damage := weapons[currentWeaponIndex].damage;
      var i := |enemiesInRange| - 1;
      hits := [];
      while i >= 0
        invariant -1 <= i < |s|
        invariant enemiesInRange == s[..i + 1] + Survivors(s[i + 1..], destroyed)
        invariant hits == SweepHits(s[i + 1..], destroyed, damage)
      {
        assert enemiesInRange[i] == s[i];
        assert s[i..][1..] == s[i + 1..];
        assert s[..i + 1] == s[..i] + [s[i]];
        if enemiesInRange[i] !in destroyed {
          hits := hits + [Hit(enemiesInRange[i], damage)];
        } else {
          enemiesInRange := enemiesInRange[..i] + enemiesInRange[i + 1..];
        }
        i := i - 1;
      }
      assert s[0..] == s;
    }

    /** `OnTriggerEnter2D`: an "Enemy"-tagged collider with an EnemyController is
        appended (duplicates allowed) and hit once with the current weapon's damage. */
    method HandleEnemyEnter(collision: Collider) returns (hits: seq<Hit>)
      modifies this`enemiesInRange
      ensures if collision.tag == "Enemy" && collision.enemy.Some? && currentWeaponIndex < |weapons| then
          enemiesInRange == old(enemiesInRange) + [collision.enemy.value] &&
          hits == [Hit(collision.enemy.value, weapons[currentWeaponIndex].damage)]
        else
          enemiesInRange == old(enemiesInRange) && hits == []
    {
      if collision.tag != "Enemy" {
        return [];
      }
      if collision.enemy.Some? && currentWeaponIndex < |weapons| {
        enemiesInRange := enemiesInRange + [collision.enemy.value];
        hits := [Hit(collision.enemy.value, weapons[currentWeaponIndex].damage)];
      } else {
        hits := [];
      }
    }

    /** `OnTriggerExit2D`: `List.Remove` of the enemy, a no-op when absent. */
    method HandleEnemyExit(collision: Collider)
      modifies this`enemiesInRange
      ensures enemiesInRange ==
        if collision.tag == "Enemy" && collision.enemy.Some? then RemoveFirst(old(enemiesInRange), collision.enemy.value)
        else old(enemiesInRange)
    {
      if collision.tag != "Enemy" {
        return;
      }
      if collision.enemy.Some? {
        enemiesInRange := RemoveFirst(enemiesInRange, collision.enemy.value);
      }
    }

    method ScaleWeaponTo(target: Vec3, lerped: Vec3) returns (done: bool)
      modifies this`scale
      ensures done == !ShouldContinueScaling(old(scale), target)
      ensures scale == if done then target else lerped
    {
      if ShouldContinueScaling(scale, target) {
        scale := lerped;
        done := false;
      } else {
        scale := target;
        done := true;
      }
    }

    /** `HideWeapon`, then the start of `WeaponCooldown` once the scale has arrived. */
    method HideWeapon(lerped: Vec3)
      requires currentWeaponIndex < |weapons|
      modifies this`scale, this`phase, this`isHiding, this`weaponShown, this`waited, this`waitFor
      ensures LifecycleOutcome(Life(), weapons) == HideFrom(old(Life()), weapons, currentWeaponIndex, lerped)
    {
      var done := ScaleWeaponTo(MinScale, lerped);
      if done {
        isHiding := true;
        weaponShown := false;
        phase := Cooldown;
        waited := 0.0;
        waitFor := weapons[currentWeaponIndex].stayTime;
      } else {
        phase := Hiding;
      }
    }

    /** The scaling loop of `ShowWeapon`, then `isHiding = false`. */
    method ShowWeapon(lerped: Vec3)
      modifies this`scale, this`phase, this`isHiding
      ensures LifecycleOutcome(Life(), weapons) == ShowFrom(old(Life()), weapons, lerped)
    {
      var done := ScaleWeaponTo(scaleTarget, lerped);
      if done {
        isHiding := false;
        phase := Active;
      } else {
        phase := Showing;
      }
    }

    method ResetWeaponDuration()
      requires currentWeaponIndex < |weapons|
      modifies this`weapons
      ensures weapons == old(weapons)[currentWeaponIndex := old(weapons)[currentWeaponIndex].(duration := initialDuration)]
    {
      weapons := weapons[currentWeaponIndex := weapons[currentWeaponIndex].(duration := initialDuration)];
    }

    /** One resumption of `ManageWeaponLifecycle`. */
    method ResumeLifecycle(dt: real, lerped: Vec3)
      requires Valid() && phase != Idle && dt >= 0.0
      modifies this
      ensures Valid()
      ensures currentWeaponIndex == old(currentWeaponIndex) && initialDuration == old(initialDuration)
      ensures LifecycleOutcome(Life(), weapons) ==
        Resume(old(Life()), old(weapons), currentWeaponIndex, initialDuration, dt, lerped)
      ensures enemiesInRange == old(enemiesInRange) && damageCounter == old(damageCounter)
      ensures enabled == old(enabled) && hasWeapon == old(hasWeapon)
      ensures hasUpgradePanel == old(hasUpgradePanel) && upgradePanelShown == old(upgradePanelShown)
    {
      ResumeKeepsPhaseFlags(Life(), weapons, currentWeaponIndex, initialDuration, dt, lerped);
      match phase
      case Active =>
        if weapons[currentWeaponIndex].duration <= 0.0 && !isHiding {
          HideWeapon(lerped);
        }
      case Hiding =>
        HideWeapon(lerped);
      case Cooldown =>
        if waited + dt >= waitFor {
          weaponShown := true;
          var target := weapons[currentWeaponIndex].scale;
          ResetWeaponDuration();
          scaleTarget := target;
          ShowWeapon(lerped);
        } else {
          waited := waited + dt;
        }
      case Showing =>
        ShowWeapon(lerped);
    }

    /** `UpgradePanel`: show the panel and pause the game. */
    method UpgradePanel(gm: Game.GameManager?)
      modifies this`upgradePanelShown, gm
      ensures upgradePanelShown == (if hasUpgradePanel then true else old(upgradePanelShown))
      ensures gm != null ==> gm.isPaused && gm.PausedBy(Some(true))
    {
      if hasUpgradePanel {
        upgradePanelShown := true;
      }
      if gm != null {
        gm.Pause(Some(true));
      }
    }

    /** `UpgradeWeapon`: advance the index (clamped), hide the panel, resume the game.
        The running instance keeps the previous weapon's prefab and scale. */
    method UpgradeWeapon(gm: Game.GameManager?)
      requires Valid()
      modifies this`currentWeaponIndex, this`upgradePanelShown, gm
      ensures Valid()
      ensures currentWeaponIndex ==
        if |weapons| > 0 then AdvancedIndex(old(currentWeaponIndex), |weapons|) else old(currentWeaponIndex)
      ensures upgradePanelShown == (if hasUpgradePanel then false else old(upgradePanelShown))
      ensures weapons == old(weapons) && Life() == old(Life()) && enemiesInRange == old(enemiesInRange)
      ensures damageCounter == old(damageCounter) && initialDuration == old(initialDuration)
      ensures enabled == old(enabled) && hasWeapon == old(hasWeapon) && hasUpgradePanel == old(hasUpgradePanel)
      ensures gm != null ==> !gm.isPaused && gm.PausedBy(Some(false))
    {
      if |weapons| > 0 {
        if phase != Idle {
          UpgradeIsClampedAndMonotone(currentWeaponIndex, |weapons|);
        }
        currentWeaponIndex := AdvancedIndex(currentWeaponIndex, |weapons|);
      }
      if hasUpgradePanel {
        upgradePanelShown := false;
      }
      if gm != null {
        gm.Pause(Some(false));
      }
    }
  }
}
