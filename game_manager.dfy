/** GameManager.cs: pausing, the global time scale and the elapsed-time clock. */
module Game {
  import opened Wrappers
  import opened Text

  const GameScene: string := "Game"
  const MainMenuScene: string := "MainMenu"

  /** The scene load a menu action asks the engine for. */
  datatype SceneRequest = ReloadActiveScene | LoadScene(name: string)

  /** `Mathf.FloorToInt(elapsedTime / 60f)`. */
  function Minutes(t: real): int {
    (t / 60.0).Floor
  }

  /** `Mathf.FloorToInt(elapsedTime % 60f)`. C#'s `%` truncates toward zero;
      the clock is never negative, where truncation and flooring agree. */
  function Seconds(t: real): int {
    (t - 60.0 * (t / 60.0).Floor as real).Floor
  }

  /** The two fields of the display split the whole seconds elapsed. */
  lemma ClockSplitsWholeSeconds(t: real)
    requires t >= 0.0
    ensures Minutes(t) >= 0
    ensures 0 <= Seconds(t) < 60
    ensures Minutes(t) * 60 + Seconds(t) == t.Floor
  {
    var m := (t / 60.0).Floor;
    assert m as real <= t / 60.0 < m as real + 1.0;
    assert 60.0 * m as real <= t < 60.0 * m as real + 60.0;
    var r := t - 60.0 * m as real;
    assert 0.0 <= r < 60.0;
    assert (r + (60 * m) as real).Floor == r.Floor + 60 * m;
  }

  /** `$"{minutes:00}:{seconds:00}"`. */
  function FormatTime(t: real): (s: string)
    requires t >= 0.0
    ensures |s| >= 5 && s[|s| - 3] == ':'
    ensures IsDigits(s[..|s| - 3]) && IsDigits(s[|s| - 2..])
  {
    ClockSplitsWholeSeconds(t);
    Pad2(Minutes(t)) + ":" + Pad2(Seconds(t))
  }

  /** Reading the display back gives the minutes and the seconds. */
  lemma FormatTimeReadsBack(t: real)
    requires t >= 0.0
    ensures var s := FormatTime(t);
      ParseDigits(s[..|s| - 3]) == Minutes(t) && ParseDigits(s[|s| - 2..]) == Seconds(t)
  {
    ClockSplitsWholeSeconds(t);
    var s := FormatTime(t);
    var mm := Pad2(Minutes(t));
    var ss := Pad2(Seconds(t));
    assert |ss| == 2;
    assert s[..|s| - 3] == mm;
    assert s[|s| - 2..] == ss;
    Pad2RoundTrip(Minutes(t));
    Pad2RoundTrip(Seconds(t));
  }

  /** What `Pause` reads and writes: the flag, `Time.timeScale` and the panel. */
  datatype PauseView = PauseView(isPaused: bool, timeScale: real, panelShown: bool)

  /** `Pause(forcePause)`: the new state is the forced one, or the opposite of
      the current one; nothing is touched when it equals the current one. */
  function PauseStep(v: PauseView, forcePause: Option<bool>, hasPausePanel: bool): (r: PauseView)
    ensures r.isPaused == if forcePause.Some? then forcePause.value else !v.isPaused
  {
    var paused := if forcePause.Some? then forcePause.value else !v.isPaused;
    if paused == v.isPaused then v
    else PauseView(paused, if paused then 0.0 else 1.0, if hasPausePanel then paused else v.panelShown)
  }

  /** The time scale is 0 exactly when paused, and an attached panel shows exactly when paused. */
  predicate Consistent(v: PauseView, hasPausePanel: bool) {
    v.timeScale == (if v.isPaused then 0.0 else 1.0) && (hasPausePanel ==> v.panelShown == v.isPaused)
  }

  /** Forcing leaves the forced state; forcing the current state changes
      nothing, so forcing twice is forcing once. */
  lemma ForcedPauseIsIdempotent(v: PauseView, b: bool, hasPausePanel: bool)
    ensures PauseStep(v, Some(b), hasPausePanel).isPaused == b
    ensures v.isPaused == b ==> PauseStep(v, Some(b), hasPausePanel) == v
    ensures PauseStep(PauseStep(v, Some(b), hasPausePanel), Some(b), hasPausePanel) == PauseStep(v, Some(b), hasPausePanel)
  {
  }

  /** Every change of state leaves the view consistent, whatever it was before,
      and a consistent view stays consistent. */
  lemma PauseChangeIsConsistent(v: PauseView, forcePause: Option<bool>, hasPausePanel: bool)
    ensures var r := PauseStep(v, forcePause, hasPausePanel);
      (r.isPaused != v.isPaused ==> Consistent(r, hasPausePanel)) &&
      (Consistent(v, hasPausePanel) ==> Consistent(r, hasPausePanel))
  {
  }

  /** Toggling twice from a consistent view is the identity. */
  lemma ToggleTwiceRestores(v: PauseView, hasPausePanel: bool)
    requires Consistent(v, hasPausePanel)
    ensures PauseStep(v, None, hasPausePanel).isPaused == !v.isPaused
    ensures PauseStep(PauseStep(v, None, hasPausePanel), None, hasPausePanel) == v
  {
  }

  class GameManager {
    var isPaused: bool
    /** `Time.timeScale`, a global of the engine, kept here. */
    var timeScale: real
    var elapsedTime: real
    var hasTimerText: bool
    var timerText: string
    var hasPausePanel: bool
    var pausePanelShown: bool

    ghost predicate Valid()
      reads this
    {
      elapsedTime >= 0.0
    }

    function View(): PauseView
      reads this
    {
      PauseView(isPaused, timeScale, pausePanelShown)
    }

    /** The state moved from the previous one as `Pause(forcePause)` moves it:
        the pause view follows `PauseStep` and the clock and the attachments are untouched. */
    twostate predicate PausedBy(forcePause: Option<bool>)
      reads this
    {
      View() == PauseStep(old(View()), forcePause, hasPausePanel) &&
      elapsedTime == old(elapsedTime) && timerText == old(timerText) &&
      hasTimerText == old(hasTimerText) && hasPausePanel == old(hasPausePanel)
    }

    constructor (hasTimerText: bool, hasPausePanel: bool)
      ensures Valid()
      ensures !isPaused && timeScale == 1.0 && elapsedTime == 0.0
      ensures this.hasTimerText == hasTimerText && this.hasPausePanel == hasPausePanel
      ensures timerText == [] && !pausePanelShown
    {
      isPaused := false;
      timeScale := 1.0;
      elapsedTime := 0.0;
      this.hasTimerText := hasTimerText;
      timerText := [];
      this.hasPausePanel := hasPausePanel;
      pausePanelShown := false;
    }

    /** `Pause(bool? forcePause = null)`: toggles when no value is given,
        forces the given state otherwise; a no-op when the state would not change. */
    method Pause(forcePause: Option<bool>)
      modifies this
      ensures PausedBy(forcePause)
      ensures isPaused == (if forcePause.Some? then forcePause.value else !old(isPaused))
      ensures isPaused == old(isPaused) ==> unchanged(this)
      ensures elapsedTime == old(elapsedTime) && timerText == old(timerText)
      ensures hasTimerText == old(hasTimerText) && hasPausePanel == old(hasPausePanel)
    {
      var newPauseState := if forcePause.Some? then forcePause.value else !isPaused;
      if newPauseState == isPaused {
        return;
      }
      isPaused := newPauseState;
      UpdateTimeScale();
      UpdatePauseUI();
    }

    method UpdateTimeScale()
      modifies this`timeScale
      ensures timeScale == (if isPaused then 0.0 else 1.0)
    {
      timeScale := if isPaused then 0.0 else 1.0;
    }

    method UpdatePauseUI()
      modifies this`pausePanelShown
      ensures pausePanelShown == (if hasPausePanel then isPaused else old(pausePanelShown))
    {
      if hasPausePanel {
        pausePanelShown := isPaused;
      }
    }

    method ResetTimeScale()
      modifies this`timeScale
      ensures timeScale == 1.0
    {
      timeScale := 1.0;
    }

    method RestartGame() returns (scene: SceneRequest)
      modifies this`timeScale
      ensures timeScale == 1.0 && scene == ReloadActiveScene
    {
      ResetTimeScale();
      scene := ReloadActiveScene;
    }

    method PlayGame() returns (scene: SceneRequest)
      modifies this`timeScale
      ensures timeScale == 1.0 && scene == LoadScene(GameScene)
    {
      ResetTimeScale();
      scene := LoadScene(GameScene);
    }

    method MainMenu() returns (scene: SceneRequest)
      modifies this`timeScale
      ensures timeScale == 1.0 && scene == LoadScene(MainMenuScene)
    {
      ResetTimeScale();
      scene := LoadScene(MainMenuScene);
    }

    /** The clock runs only while a timer text is attached and then shows "MM:SS". */
    method UpdateGameTimer(dt: real)
      requires Valid() && dt >= 0.0
      modifies this`elapsedTime, this`timerText
      ensures Valid()
      ensures !hasTimerText ==> elapsedTime == old(elapsedTime) && timerText == old(timerText)
      ensures hasTimerText ==> elapsedTime == old(elapsedTime) + dt && timerText == FormatTime(elapsedTime)
    {
      if !hasTimerText {
        return;
      }
      elapsedTime := elapsedTime + dt;
      DisplayFormattedTime();
    }

    method DisplayFormattedTime()
      requires Valid()
      modifies this`timerText
      ensures timerText == FormatTime(elapsedTime)
    {
      var minutes := Minutes(elapsedTime);
      var seconds := Seconds(elapsedTime);
      ClockSplitsWholeSeconds(elapsedTime);
      timerText := Pad2(minutes) + ":" + Pad2(seconds);
    }

    /** One frame: Escape toggles the pause while a player exists, then the clock runs. */
    method Update(dt: real, escapePressed: bool, playerPresent: bool)
      requires Valid() && dt >= 0.0
      modifies this
      ensures Valid()
      ensures isPaused == (if escapePressed && playerPresent then !old(isPaused) else old(isPaused))
      ensures View() == if escapePressed && playerPresent then PauseStep(old(View()), None, hasPausePanel) else old(View())
      ensures hasTimerText == old(hasTimerText) && hasPausePanel == old(hasPausePanel)
      ensures elapsedTime == if hasTimerText then old(elapsedTime) + dt else old(elapsedTime)
      ensures timerText == if hasTimerText then FormatTime(elapsedTime) else old(timerText)
    {
      if escapePressed && playerPresent {
        Pause(None);
      }
      UpdateGameTimer(dt);
    }
  }
}
