/** PlayerController.cs: health, experience and the level table, the
    immunity timer after a hit, and the button/keyboard input switch. */
module Players {
  import opened Wrappers
  import Armory
  import Game

  const ImmuneTime: real := 2.0
  const DefaultMaxHealth: int := 10
  const BaseExperienceRequirement: int := 100
  const LevelExperienceMultiplier: real := 3.0

  /** `Mathf.CeilToInt`. */
  function CeilToInt(r: real): (n: int)
    ensures r <= n as real < r + 1.0
  {
    -((-r).Floor)
  }

  /** `CalculateNextLevelRequirement` on the table as it stands: the ceiling of
      three times the last entry, or the base requirement for an empty table. */
  function NextLevelRequirement(table: seq<int>): (r: int)
    ensures |table| == 0 ==> r == BaseExperienceRequirement
    ensures |table| > 0 ==> r == 3 * table[|table| - 1]
  {
    if |table| > 0 then CeilToInt(table[|table| - 1] as real * LevelExperienceMultiplier)
    else BaseExperienceRequirement
  }

  /** `Mathf.Max(0, maxLevel - playersLevel.Count + 1)`. */
  function LevelsToAdd(maxLevel: int, count: nat): nat {
    if maxLevel - count + 1 > 0 then maxLevel - count + 1 else 0
  }

  /** The table after `k` rounds of `GenerateAdditionalLevels`' loop body. */
  function Extended(table: seq<int>, k: nat): (r: seq<int>)
    ensures |r| == |table| + k && r[..|table|] == table
  {
    if k == 0 then table
    else
      var previous := Extended(table, k - 1);
      assert previous[..|table|] == table;
      previous + [NextLevelRequirement(previous)]
  }

  /** Generation leaves existing entries alone and ends with
      max(old length, maxLevel + 1) entries. */
  lemma GeneratedLength(table: seq<int>, maxLevel: int)
    ensures var r := Extended(table, LevelsToAdd(maxLevel, |table|));
      r[..|table|] == table &&
      |r| == if maxLevel + 1 > |table| then maxLevel + 1 else |table|
  {
  }

  function Pow3(j: nat): (p: nat)
    ensures p >= 1
  {
    if j == 0 then 1 else 3 * Pow3(j - 1)
  }

  /** Every generated entry is three times the one before it, so the entry
      `j` places after the last configured one is that entry times 3^j. */
  lemma {:induction false} ExtendedClosedForm(table: seq<int>, k: nat)
    requires |table| > 0
    ensures var r := Extended(table, k);
      forall j :: 0 <= j <= k ==> r[|table| - 1 + j] == table[|table| - 1] * Pow3(j)
  {
    if k > 0 {
      ExtendedClosedForm(table, k - 1);
      var p := Extended(table, k - 1);
      var r := Extended(table, k);
      assert r == p + [NextLevelRequirement(p)];
      forall j | 0 <= j <= k
        ensures r[|table| - 1 + j] == table[|table| - 1] * Pow3(j)
      {
        if j < k {
          assert r[|table| - 1 + j] == p[|table| - 1 + j];
        } else {
          assert r[|table| - 1 + k] == 3 * p[|table| - 1 + (k - 1)];
        }
      }
    }
  }

  predicate StrictlyIncreasing(s: seq<int>) {
    forall i :: 0 <= i < |s| - 1 ==> s[i] < s[i + 1]
  }

  predicate AllPositive(s: seq<int>) {
    forall i :: 0 <= i < |s| ==> s[i] > 0
  }

  /** From a positive, strictly increasing table, generation keeps both. */
  lemma {:induction false} ExtendedStaysIncreasing(table: seq<int>, k: nat)
    requires StrictlyIncreasing(table) && AllPositive(table)
    ensures StrictlyIncreasing(Extended(table, k)) && AllPositive(Extended(table, k))
  {
    if k > 0 {
      ExtendedStaysIncreasing(table, k - 1);
      var p := Extended(table, k - 1);
      var r := Extended(table, k);
      assert r == p + [NextLevelRequirement(p)];
      if |p| > 0 {
        assert r[|p|] == 3 * p[|p| - 1];
      }
    }
  }

  /** `CanLevelUp`. */
  predicate CanLevelUp(level: nat, table: seq<int>, experience: int) {
    level < |table| && experience >= table[level]
  }

  datatype Progress = Progress(experience: int, level: nat)

  /** One `Experience(exp)` call: the gain is added, then at most one level check runs. */
  function Gain(p: Progress, table: seq<int>, exp: int): (r: Progress)
    ensures r.experience == p.experience + exp
    ensures r.level == p.level || r.level == p.level + 1
    ensures r.level == p.level + 1 <==> CanLevelUp(p.level, table, p.experience + exp)
  {
    var e := p.experience + exp;
    Progress(e, if CanLevelUp(p.level, table, e) then p.level + 1 else p.level)
  }

  /** A run of `Experience` calls, in order. */
  function Gains(p: Progress, table: seq<int>, exps: seq<int>): Progress
    decreases |exps|
  {
    if exps == [] then p else Gains(Gain(p, table, exps[0]), table, exps[1..])
  }

  function Sum(s: seq<int>): int {
    if s == [] then 0 else s[0] + Sum(s[1..])
  }

  /** Experience only accumulates, and n calls raise the level by at most n and
      never past the end of the table. */
  lemma {:induction false} GainsAccumulate(p: Progress, table: seq<int>, exps: seq<int>)
    ensures var r := Gains(p, table, exps);
      r.experience == p.experience + Sum(exps) &&
      p.level <= r.level <= p.level + |exps| &&
      (p.level <= |table| ==> r.level <= |table|)
    decreases |exps|
  {
    if exps != [] {
      GainsAccumulate(Gain(p, table, exps[0]), table, exps[1..]);
    }
  }

  /** A gain worth several levels still counts for one: with requirements
      100 and 300, 1000 experience from scratch reaches level 1 only. */
  lemma BigGainLevelsOnce()
    ensures Gain(Progress(0, 0), [100, 300], 1000) == Progress(1000, 1)
    ensures Gains(Progress(0, 0), [100, 300], [1000, 0]) == Progress(1000, 2)
  {
  }

  datatype Immunity = Immunity(immune: bool, timer: real)

  /** `ProcessImmunity`: the timer runs only while immune, and immunity ends
      on the frame it reaches zero. */
  function ImmunityStep(s: Immunity, dt: real): (r: Immunity)
    ensures !s.immune ==> r == s
    ensures s.immune ==> r.timer == s.timer - dt && (r.immune <==> r.timer > 0.0)
  {
    if s.immune then
      var t := s.timer - dt;
      Immunity(t > 0.0, t)
    else s
  }

  function RunImmunity(s: Immunity, dt: real, n: nat): Immunity {
    if n == 0 then s else ImmunityStep(RunImmunity(s, dt, n - 1), dt)
  }

  /** With constant frames of length dt, immunity that starts with `timer`
      lasts exactly while n * dt < timer. */
  lemma {:induction false} ImmunityLasts(timer: real, dt: real, n: nat)
    requires dt > 0.0 && timer > 0.0
    ensures var r := RunImmunity(Immunity(true, timer), dt, n);
      (r.immune <==> n as real * dt < timer) &&
      (r.immune ==> r.timer == timer - n as real * dt)
  {
    if n > 0 {
      ImmunityLasts(timer, dt, n - 1);
      assert n as real * dt == (n - 1) as real * dt + dt;
    }
  }

  /** After a hit the player is immune for two time units, frame-exact. */
  lemma ImmunityLastsTwoSeconds(dt: real, n: nat)
    requires dt > 0.0
    ensures RunImmunity(Immunity(true, ImmuneTime), dt, n).immune <==> n as real * dt < 2.0
  {
    ImmunityLasts(ImmuneTime, dt, n);
  }

  datatype Direction = Direction(x: real, y: real)

  const Zero: Direction := Direction(0.0, 0.0)
  const Up: Direction := Direction(0.0, 1.0)
  const Down: Direction := Direction(0.0, -1.0)
  const Left: Direction := Direction(-1.0, 0.0)
  const Right: Direction := Direction(1.0, 0.0)

  class PlayerController {
    var playerHealth: int
    var maxHealth: int
    var isImmune: bool
    var currentImmuneTime: real
    /** The sprite is tinted red while immune. */
    var tinted: bool
    var experience: int
    var currentLevel: nat
    const maxLevel: int
    var playersLevel: seq<int>
    var useButtonInput: bool
    var moveDirection: Direction
    /** `gameObject.activeSelf`. */
    var active: bool

    function Progression(): Progress
      reads this
    {
      Progress(experience, currentLevel)
    }

    function ImmunityState(): Immunity
      reads this
    {
      Immunity(isImmune, currentImmuneTime)
    }

    /** `Awake`: `configuredTable` is the serialized level table and `maxLevel`
        the serialized top level. */
    constructor (configuredTable: seq<int>, maxLevel: int)
      ensures playersLevel == if configuredTable == [] then [BaseExperienceRequirement] else configuredTable
      ensures this.maxLevel == maxLevel
      ensures maxHealth == DefaultMaxHealth && playerHealth == maxHealth
      ensures experience == 0 && currentLevel == 0
      ensures !isImmune && !tinted && active && !useButtonInput && moveDirection == Zero
    {
      playersLevel := configuredTable;
      this.maxLevel := maxLevel;
      isImmune := false;
      currentImmuneTime := 0.0;
      tinted := false;
      useButtonInput := false;
      moveDirection := Zero;
      active := true;
      playerHealth := 0;
      maxHealth := 0;
      experience := 0;
      currentLevel := 0;
      new;
      InitializePlayerStats();
    }

    method InitializePlayerStats()
      modifies this`playersLevel, this`maxHealth, this`playerHealth, this`experience, this`currentLevel
      ensures playersLevel == if old(playersLevel) == [] then [BaseExperienceRequirement] else old(playersLevel)
      ensures maxHealth == DefaultMaxHealth && playerHealth == maxHealth
      ensures experience == 0 && currentLevel == 0
    {
      InitializeLevelSystem();
      maxHealth := DefaultMaxHealth;
      playerHealth := maxHealth;
      experience := 0;
      currentLevel := 0;
    }

    /** A missing or empty table becomes the single base requirement. */
    method InitializeLevelSystem()
      modifies this`playersLevel
      ensures playersLevel == if old(playersLevel) == [] then [BaseExperienceRequirement] else old(playersLevel)
      ensures |playersLevel| > 0
    {
      if |playersLevel| == 0 {
        playersLevel := playersLevel + [BaseExperienceRequirement];
      }
    }

    /** `Start`/`SetupLevelProgression`. */
    method Start()
      modifies this`playersLevel
      ensures playersLevel == Extended(old(playersLevel), LevelsToAdd(maxLevel, |old(playersLevel)|))
    {
      GenerateAdditionalLevels();
    }

    method GenerateAdditionalLevels()
      modifies this`playersLevel
      ensures playersLevel == Extended(old(playersLevel), LevelsToAdd(maxLevel, |old(playersLevel)|))
    {
      ghost var start := playersLevel;
      var levelsToAdd := LevelsToAdd(maxLevel, |playersLevel|);
      for i := 0 to levelsToAdd
        invariant playersLevel == Extended(start, i)
      {
        var nextLevelExp := NextLevelRequirement(playersLevel);
        playersLevel := playersLevel + [nextLevelExp];
      }
    }

    /** `Experience`: add the gain, then level up at most once; a level-up
        opens the upgrade panel, which pauses the game. */
    method Experience(exp: int, weapons: Armory.Weapons?, gm: Game.GameManager?)
      modifies this`experience, this`currentLevel, (if weapons != null then {weapons} else {})`upgradePanelShown, gm
      ensures Progression() == Gain(old(Progression()), playersLevel, exp)
      ensures currentLevel != old(currentLevel) && weapons != null ==>
        weapons.upgradePanelShown == (weapons.hasUpgradePanel || old(weapons.upgradePanelShown)) &&
        (gm != null ==> gm.isPaused && gm.PausedBy(Some(true)))
      ensures weapons != null && old(weapons.Valid()) ==> weapons.Valid()
      ensures currentLevel == old(currentLevel) || weapons == null ==>
        (weapons != null ==> unchanged(weapons)) && (gm != null ==> unchanged(gm))
    {
      experience := experience + exp;
      if CanLevelUp(currentLevel, playersLevel, experience) {
        currentLevel := currentLevel + 1;
        if weapons != null {
          weapons.UpgradePanel(gm);
        }
      }
    }

    /** `ActivateImmune`: tint the sprite and start the two-unit timer. */
    method ActivateImmune()
      modifies this`tinted, this`isImmune, this`currentImmuneTime
      ensures ImmunityState() == Immunity(true, ImmuneTime) && tinted
    {
      tinted := true;
      isImmune := true;
      currentImmuneTime := ImmuneTime;
    }

    method ProcessImmunity(dt: real)
      modifies this`tinted, this`isImmune, this`currentImmuneTime
      ensures ImmunityState() == ImmunityStep(old(ImmunityState()), dt)
      ensures tinted == if old(isImmune) && !isImmune then false else old(tinted)
    {
      if isImmune {
        currentImmuneTime := currentImmuneTime - dt;
        if currentImmuneTime <= 0.0 {
          isImmune := false;
          tinted := false;
        }
      }
    }

    /** `SetDirectionalInput`: a button takes over from the keyboard. */
    method SetDirectionalInput(direction: Direction)
      modifies this`useButtonInput, this`moveDirection
      ensures useButtonInput && moveDirection == direction
    {
      useButtonInput := true;
      moveDirection := direction;
    }

    method ButtonUp()
      modifies this`useButtonInput, this`moveDirection
      ensures useButtonInput && moveDirection == Up
    {
      SetDirectionalInput(Up);
    }

    method ButtonDown()
      modifies this`useButtonInput, this`moveDirection
      ensures useButtonInput && moveDirection == Down
    {
      SetDirectionalInput(Down);
    }

    method ButtonLeft()
      modifies this`useButtonInput, this`moveDirection
      ensures useButtonInput && moveDirection == Left
    {
      SetDirectionalInput(Left);
    }

    method ButtonRight()
      modifies this`useButtonInput, this`moveDirection
      ensures useButtonInput && moveDirection == Right
    {
      SetDirectionalInput(Right);
    }

    /** `ReleaseDirectionalInput`: stop, and hand control back to the keyboard. */
    method ButtonRelease()
      modifies this`useButtonInput, this`moveDirection
      ensures !useButtonInput && moveDirection == Zero
    {
      moveDirection := Zero;
      useButtonInput := false;
    }

    /** One frame: keyboard input (`keyboard` is the normalised axis
        direction) unless a button is held, then the immunity timer. */
    method Update(dt: real, keyboard: Direction)
      modifies this`moveDirection, this`tinted, this`isImmune, this`currentImmuneTime
      ensures moveDirection == if useButtonInput then old(moveDirection) else keyboard
      ensures ImmunityState() == ImmunityStep(old(ImmunityState()), dt)
      ensures tinted == if old(isImmune) && !isImmune then false else old(tinted)
    {
      if !useButtonInput {
        moveDirection := keyboard;
      }
      ProcessImmunity(dt);
    }
  }
}
