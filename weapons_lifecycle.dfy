/** Weapons.cs, the pure half: the validity checks, the index arithmetic,
    the enemy-list operations and the weapon's hide/cooldown/show lifecycle
    written as one resumable step per frame. */
module WeaponRules {
  import opened Wrappers
  import opened Lists

  const PlayerControllerTimeout: real := 5.0
  const PollInterval: real := 0.1
  const MaxPolls: nat := 50
  const DamageInterval: real := 0.5
  const ScaleThreshold: real := 0.01

  datatype Vec3 = Vec3(x: real, y: real, z: real)

  const MinScale: Vec3 := Vec3(0.05, 0.05, 0.05)

  /** One entry of the weapon table. `hasPrefab` stands for `weaponPrefab != null`;
      `duration` is both the configured active time and the live countdown. */
  datatype Weapon = Weapon(hasPrefab: bool, scale: Vec3, damage: int, duration: real, stayTime: real)

  /** An enemy as the weapon sees it: an identity it can compare and damage. */
  type EnemyRef = nat

  /** The command `enemy.TakeDamage(amount)`. */
  datatype Hit = Hit(enemy: EnemyRef, amount: int)

  /** A trigger collider: its tag and the EnemyController on it, if any. */
  datatype Collider = Collider(tag: string, enemy: Option<EnemyRef>)

  function DistanceSquared(a: Vec3, b: Vec3): real {
    (a.x - b.x) * (a.x - b.x) + (a.y - b.y) * (a.y - b.y) + (a.z - b.z) * (a.z - b.z)
  }

  /** `Vector3.Distance(scale, target) > scaleThreshold`, compared on squares
      (both sides are non-negative, so the comparison is the same). */
  predicate ShouldContinueScaling(scale: Vec3, target: Vec3) {
    DistanceSquared(scale, target) > ScaleThreshold * ScaleThreshold
  }

  /** `IsValidWeaponIndex`: the index it leaves behind. */
  function CheckedIndex(index: int, count: nat): (r: int)
    ensures 0 <= index < count ==> r == index
    ensures (index >= count || index < 0) ==> r == 0
  {
    if index >= count || index < 0 then 0 else index
  }

  /** What `IsValidWeaponIndex` returns. */
  predicate IndexCheckPasses(index: int, count: nat) {
    CheckedIndex(index, count) < count
  }

  /** The check passes exactly on a non-empty table, and afterwards the index is in range. */
  lemma IndexCheckIffNonEmpty(index: int, count: nat)
    ensures IndexCheckPasses(index, count) <==> count > 0
    ensures count > 0 ==> 0 <= CheckedIndex(index, count) < count
  {
  }

  /** `AdvanceWeaponIndex`: `Mathf.Min(index + 1, count - 1)`. */
  function AdvancedIndex(index: int, count: nat): int
    requires count > 0
  {
    if index + 1 < count - 1 then index + 1 else count - 1
  }

  /** An upgrade never lowers an in-range index, never leaves the table, and
      moves up by exactly one until the last weapon. */
  lemma UpgradeIsClampedAndMonotone(index: int, count: nat)
    requires 0 <= index < count
    ensures index <= AdvancedIndex(index, count) < count
    ensures index + 1 < count ==> AdvancedIndex(index, count) == index + 1
    ensures index == count - 1 ==> AdvancedIndex(index, count) == index
  {
  }

  /** From index 0 of a three-weapon table, three upgrades give 1, 2, 2. */
  lemma ThreeUpgradesFromZero()
    ensures AdvancedIndex(0, 3) == 1
    ensures AdvancedIndex(AdvancedIndex(0, 3), 3) == 2
    ensures AdvancedIndex(AdvancedIndex(AdvancedIndex(0, 3), 3), 3) == 2
  {
  }

  /** Entering adds a duplicate-allowing entry; exiting straight away takes
      one copy out again, so the tracked multiset is back where it was. */
  lemma EnterThenExitRestoresRange(s: seq<EnemyRef>, e: EnemyRef)
    ensures multiset(RemoveFirst(s + [e], e)) == multiset(s)
    ensures e !in s ==> RemoveFirst(s + [e], e) == s
  {
    RemoveFirstMultiset(s + [e], e);
    if e !in s {
      assert e in s + [e];
      var k := IndexOf(s + [e], e);
      assert (s + [e])[..|s|] == s;
      assert k == |s|;
      RemoveFirstAt(s + [e], e);
    }
  }

  /** The entries the reverse sweep keeps: the ones not destroyed, in their order. */
  function Survivors(s: seq<EnemyRef>, destroyed: set<EnemyRef>): seq<EnemyRef> {
    if s == [] then [] else (if s[0] in destroyed then [] else [s[0]]) + Survivors(s[1..], destroyed)
  }

  /** The hits the reverse sweep emits, last entry first. */
  function SweepHits(s: seq<EnemyRef>, destroyed: set<EnemyRef>, damage: int): seq<Hit> {
    if s == [] then []
    else SweepHits(s[1..], destroyed, damage) + (if s[0] in destroyed then [] else [Hit(s[0], damage)])
  }

  /** The sweep keeps no destroyed entry and every other one with its multiplicity. */
  lemma {:induction false} SurvivorsSpec(s: seq<EnemyRef>, destroyed: set<EnemyRef>)
    ensures forall e :: e in Survivors(s, destroyed) ==> e !in destroyed
    ensures forall e :: e !in destroyed ==> multiset(Survivors(s, destroyed))[e] == multiset(s)[e]
  {
    if s != [] {
      SurvivorsSpec(s[1..], destroyed);
      assert s == [s[0]] + s[1..];
    }
  }

  /** The sweep hits every survivor once, last entry first. */
  lemma {:induction false} SweepHitsSurvivorsInReverse(s: seq<EnemyRef>, destroyed: set<EnemyRef>, damage: int)
    ensures |SweepHits(s, destroyed, damage)| == |Survivors(s, destroyed)|
    ensures forall k :: 0 <= k < |Survivors(s, destroyed)| ==>
      SweepHits(s, destroyed, damage)[k] ==
        Hit(Survivors(s, destroyed)[|Survivors(s, destroyed)| - 1 - k], damage)
  {
    if s != [] {
      SweepHitsSurvivorsInReverse(s[1..], destroyed, damage);
      var tail := Survivors(s[1..], destroyed);
      var hs := SweepHits(s[1..], destroyed, damage);
      if s[0] !in destroyed {
        var all := Survivors(s, destroyed);
        var hits := SweepHits(s, destroyed, damage);
        assert all == [s[0]] + tail;
        assert hits == hs + [Hit(s[0], damage)];
        forall k | 0 <= k < |all|
          ensures hits[k] == Hit(all[|all| - 1 - k], damage)
        {
          if k < |tail| {
            assert hits[k] == hs[k];
            assert all[|all| - 1 - k] == tail[|tail| - 1 - k];
          }
        }
      }
    }
  }

  /** `UpdateWeaponDuration`: the countdown runs only while positive. */
  function CountedDown(duration: real, dt: real): real {
    if duration > 0.0 then duration - dt else duration
  }

  /** A non-positive duration stays put; a positive one drops by exactly dt. */
  lemma CountdownOnlyWhilePositive(duration: real, dt: real)
    requires dt >= 0.0
    ensures CountedDown(duration, dt) <= duration
    ensures duration <= 0.0 ==> CountedDown(duration, dt) == duration
    ensures duration > 0.0 ==> CountedDown(duration, dt) == duration - dt
  {
  }

  /** The table after `UpdateWeaponDuration` on a valid index. */
  function CountdownCurrent(weapons: seq<Weapon>, index: nat, dt: real): (r: seq<Weapon>)
    ensures |r| == |weapons|
  {
    if index < |weapons| then weapons[index := weapons[index].(duration := CountedDown(weapons[index].duration, dt))]
    else weapons
  }

  datatype CounterStep = CounterStep(counter: real, sweep: bool)

  /** `ProcessDamageCounter`: tick down, and on reaching 0 reset to 0.5 and sweep. */
  function DamageCounterStep(counter: real, dt: real): CounterStep {
    if counter - dt <= 0.0 then CounterStep(DamageInterval, true) else CounterStep(counter - dt, false)
  }

  /** The counter stays within (0, 0.5], and a sweep happens exactly on the
      frame it reaches 0, whatever the weapon is doing. */
  lemma DamageCounterStaysInInterval(counter: real, dt: real)
    requires 0.0 <= counter <= DamageInterval && dt >= 0.0
    ensures var r := DamageCounterStep(counter, dt);
      0.0 < r.counter <= DamageInterval &&
      (r.sweep <==> counter <= dt) &&
      (r.sweep ==> r.counter == DamageInterval) &&
      (!r.sweep ==> r.counter == counter - dt)
  {
  }

  /** The lifecycle coroutine's states; Idle while no coroutine runs. */
  datatype Phase = Idle | Active | Hiding | Cooldown | Showing

  /** What the lifecycle reads and writes besides the weapon table:
      the instance's scale and visibility, `isHiding`, the time waited in
      the cooldown, the wait it was started with and the target of the show. */
  datatype Lifecycle = Lifecycle(
    phase: Phase, scale: Vec3, shown: bool, isHiding: bool,
    waited: real, waitFor: real, target: Vec3)

  /** Which flags hold in which phase. */
  predicate PhaseFlags(l: Lifecycle) {
    match l.phase
    case Idle => true
    case Active => !l.isHiding && l.shown
    case Hiding => !l.isHiding && l.shown
    case Cooldown => l.isHiding && !l.shown && l.waited >= 0.0
    case Showing => l.isHiding && l.shown
  }

  datatype LifecycleOutcome = LifecycleOutcome(life: Lifecycle, weapons: seq<Weapon>)

  /** `HideWeapon` from wherever its scaling loop stands: one more lerp, or the
      snap to the minimal scale, the deactivation and the start of the cooldown. */
  function HideFrom(l: Lifecycle, weapons: seq<Weapon>, index: nat, lerped: Vec3): LifecycleOutcome
    requires index < |weapons|
  {
    if ShouldContinueScaling(l.scale, MinScale) then
      LifecycleOutcome(l.(phase := Hiding, scale := lerped), weapons)
    else
      LifecycleOutcome(l.(phase := Cooldown, scale := MinScale, isHiding := true, shown := false,
                          waited := 0.0, waitFor := weapons[index].stayTime), weapons)
  }

  /** `ShowWeapon`'s scaling loop: one more lerp, or the snap to the target and
      `isHiding = false`, after which the main loop yields once and is Active. */
  function ShowFrom(l: Lifecycle, weapons: seq<Weapon>, lerped: Vec3): LifecycleOutcome {
    if ShouldContinueScaling(l.scale, l.target) then
      LifecycleOutcome(l.(phase := Showing, scale := lerped), weapons)
    else
      LifecycleOutcome(l.(phase := Active, scale := l.target, isHiding := false), weapons)
  }

  /** One resumption of `ManageWeaponLifecycle` and the coroutines it waits on,
      up to its next `yield`. `lerped` is the engine's `Vector3.Lerp` result. */
  function Resume(l: Lifecycle, weapons: seq<Weapon>, index: nat, initialDuration: real,
                  dt: real, lerped: Vec3): LifecycleOutcome
    requires index < |weapons|
  {
    match l.phase
    case Idle => LifecycleOutcome(l, weapons)
    case Active =>
      if weapons[index].duration <= 0.0 && !l.isHiding then HideFrom(l, weapons, index, lerped)
      else LifecycleOutcome(l, weapons)
    case Hiding => HideFrom(l, weapons, index, lerped)
    case Cooldown =>
      if l.waited + dt >= l.waitFor then
        ShowFrom(l.(shown := true, target := weapons[index].scale),
                 weapons[index := weapons[index].(duration := initialDuration)], lerped)
      else
        LifecycleOutcome(l.(waited := l.waited + dt), weapons)
    case Showing => ShowFrom(l, weapons, lerped)
  }

  /** Every resumption keeps the phase flags, and the table changes at most in
      the current weapon's duration, which is then the captured initial duration. */
  lemma ResumeKeepsPhaseFlags(l: Lifecycle, weapons: seq<Weapon>, index: nat, initialDuration: real,
                              dt: real, lerped: Vec3)
    requires index < |weapons| && PhaseFlags(l) && dt >= 0.0
    ensures var r := Resume(l, weapons, index, initialDuration, dt, lerped);
      PhaseFlags(r.life) &&
      (r.weapons == weapons ||
       r.weapons == weapons[index := weapons[index].(duration := initialDuration)])
  {
  }

  /** Active leaves for the hide exactly when the current weapon's duration is
      not positive; a weapon configured with a non-positive duration hides at once. */
  lemma ActiveHidesIffExpired(l: Lifecycle, weapons: seq<Weapon>, index: nat, initialDuration: real,
                              dt: real, lerped: Vec3)
    requires index < |weapons| && l.phase == Active && PhaseFlags(l)
    ensures var r := Resume(l, weapons, index, initialDuration, dt, lerped);
      (r.life.phase == Active <==> weapons[index].duration > 0.0) &&
      (r.life.phase != Active ==> r.life.phase == Hiding || r.life.phase == Cooldown) &&
      r.weapons == weapons
  {
  }

  /** The hide ends exactly when the scale is within 0.01 of the minimal scale;
      it then is the minimal scale exactly, the weapon is inactive and `isHiding` holds. */
  lemma HideEndsSnapped(l: Lifecycle, weapons: seq<Weapon>, index: nat, initialDuration: real,
                        dt: real, lerped: Vec3)
    requires index < |weapons| && l.phase == Hiding
    ensures var r := Resume(l, weapons, index, initialDuration, dt, lerped);
      (r.life.phase == Cooldown <==> !ShouldContinueScaling(l.scale, MinScale)) &&
      (r.life.phase == Cooldown ==>
        r.life.scale == MinScale && !r.life.shown && r.life.isHiding &&
        r.life.waited == 0.0 && r.life.waitFor == weapons[index].stayTime) &&
      (r.life.phase != Cooldown ==> r.life.phase == Hiding && r.life.scale == lerped) &&
      r.weapons == weapons
  {
  }

  /** The cooldown lasts until the accumulated time reaches the stay time it was
      started with; leaving it reactivates the weapon and writes the captured
      initial duration into whichever weapon is current. */
  lemma CooldownWaitsStayTime(l: Lifecycle, weapons: seq<Weapon>, index: nat, initialDuration: real,
                              dt: real, lerped: Vec3)
    requires index < |weapons| && l.phase == Cooldown
    ensures var r := Resume(l, weapons, index, initialDuration, dt, lerped);
      (r.life.phase == Cooldown <==> l.waited + dt < l.waitFor) &&
      (r.life.phase == Cooldown ==> r.life == l.(waited := l.waited + dt) && r.weapons == weapons) &&
      (r.life.phase != Cooldown ==>
        r.life.shown && r.life.target == weapons[index].scale &&
        r.weapons == weapons[index := weapons[index].(duration := initialDuration)])
  {
  }

  /** The show ends exactly when the scale is within 0.01 of its target; the scale
      is then the target exactly and `isHiding` is cleared. */
  lemma ShowEndsSnapped(l: Lifecycle, weapons: seq<Weapon>, index: nat, initialDuration: real,
                        dt: real, lerped: Vec3)
    requires index < |weapons| && l.phase == Showing && PhaseFlags(l)
    ensures var r := Resume(l, weapons, index, initialDuration, dt, lerped);
      (r.life.phase == Active <==> !ShouldContinueScaling(l.scale, l.target)) &&
      (r.life.phase == Active ==> r.life.scale == l.target && !r.life.isHiding && r.life.shown) &&
      (r.life.phase != Active ==> r.life.phase == Showing && r.life.scale == lerped) &&
      r.weapons == weapons
  {
  }
}
