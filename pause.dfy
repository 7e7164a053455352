/** PauseMenuManager: Escape toggles between playing and paused; pausing
    stops time and shows the menu, resuming does the opposite; the restart
    and main-menu buttons put time back to normal before loading. */
module Pause {
  import opened Host

  /** What the pause menu controls: its own flag, the engine's time scale
      and whether the menu panel is shown. */
  datatype PauseView = PauseView(paused: bool, timeScale: real, menuVisible: bool)

  const Playing: PauseView := PauseView(false, 1.0, false)
  const PausedView: PauseView := PauseView(true, 0.0, true)

  /** The two states Start, PauseGame and ResumeGame leave behind. */
  predicate Coherent(v: PauseView) {
    v == Playing || v == PausedView
  }

  /** In a coherent state the game is paused exactly when time is stopped
      and the menu is shown. */
  lemma PausedIffStoppedAndShown(v: PauseView)
    requires Coherent(v)
    ensures v.paused <==> v.timeScale == 0.0 && v.menuVisible
  {
  }

  /** Update with or without an Escape press this frame. */
  function EscapeStep(v: PauseView, escapePressed: bool): PauseView {
    if !escapePressed then v else if v.paused then Playing else PausedView
  }

  /** Updates over several frames, each with or without an Escape press. */
  function EscapeSteps(v: PauseView, presses: seq<bool>): PauseView
    decreases |presses|
  {
    if presses == [] then v else EscapeSteps(EscapeStep(v, presses[0]), presses[1..])
  }

  function PressCount(presses: seq<bool>): nat
    decreases |presses|
  {
    if presses == [] then 0 else (if presses[0] then 1 else 0) + PressCount(presses[1..])
  }

  /** After a run of frames the game is paused exactly when the number of
      Escape presses and the starting flag disagree in parity, and if there
      was any press the state is one of the two coherent ones. */
  lemma {:induction false} EscapeParity(v: PauseView, presses: seq<bool>)
    ensures EscapeSteps(v, presses).paused <==> (v.paused <==> PressCount(presses) % 2 == 0)
    ensures PressCount(presses) > 0 || Coherent(v) ==> Coherent(EscapeSteps(v, presses))
    ensures PressCount(presses) == 0 ==> EscapeSteps(v, presses) == v
    decreases |presses|
  {
    if presses != [] {
      EscapeParity(EscapeStep(v, presses[0]), presses[1..]);
    }
  }

  /** From a coherent state two presses give back the state. */
  lemma EscapeTwiceRestores(v: PauseView)
    requires Coherent(v)
    ensures EscapeStep(EscapeStep(v, true), true) == v
  {
  }

  class PauseMenuManager {
    const mainMenuSceneName: string
    var isPaused: bool
    /** pauseMenuUI.activeSelf */
    var menuVisible: bool

    constructor (mainMenuSceneName: string, menuVisible: bool)
      ensures this.mainMenuSceneName == mainMenuSceneName
      ensures !isPaused && this.menuVisible == menuVisible
    {
      this.mainMenuSceneName := mainMenuSceneName;
      isPaused := false;
      this.menuVisible := menuVisible;
    }

    function View(engine: Engine): PauseView
      reads this, engine
    {
      PauseView(isPaused, engine.timeScale, menuVisible)
    }

    method Start(engine: Engine)
      modifies this, engine
      ensures View(engine) == Playing
      ensures engine.requests == old(engine.requests) + [TimeScaleSet(1.0)]
      ensures engine.trace == old(engine.trace) + [TimeScaleChanged(1.0)]
    {
      menuVisible := false;
      engine.SetTimeScale(1.0);
      isPaused := false;
    }

    method Update(engine: Engine, escapePressed: bool)
      modifies this, engine
      ensures View(engine) == EscapeStep(old(View(engine)), escapePressed)
      ensures !escapePressed ==> engine.requests == old(engine.requests)
      ensures escapePressed ==> engine.requests == old(engine.requests) + [TimeScaleSet(View(engine).timeScale)]
      ensures !escapePressed ==> engine.trace == old(engine.trace)
      ensures escapePressed ==> engine.trace == old(engine.trace) + [TimeScaleChanged(View(engine).timeScale)]
    {
      if escapePressed {
        if isPaused {
          ResumeGame(engine);
        } else {
          PauseGame(engine);
        }
      }
    }

    method ResumeGame(engine: Engine)
      modifies this, engine
      ensures View(engine) == Playing
      ensures engine.requests == old(engine.requests) + [TimeScaleSet(1.0)]
      ensures engine.trace == old(engine.trace) + [TimeScaleChanged(1.0)]
    {
      menuVisible := false;
      engine.SetTimeScale(1.0);
      isPaused := false;
    }

    method PauseGame(engine: Engine)
      modifies this, engine
      ensures View(engine) == PausedView
      ensures engine.requests == old(engine.requests) + [TimeScaleSet(0.0)]
      ensures engine.trace == old(engine.trace) + [TimeScaleChanged(0.0)]
    {
      menuVisible := true;
      engine.SetTimeScale(0.0);
      isPaused := true;
    }

    /** `activeSceneName` is SceneManager.GetActiveScene().name. */
    method RestartLevel(engine: Engine, activeSceneName: string)
      modifies engine
      ensures engine.timeScale == 1.0
      ensures engine.requests == old(engine.requests) + [TimeScaleSet(1.0), SceneLoad(activeSceneName)]
      ensures engine.trace == old(engine.trace) + [TimeScaleChanged(1.0), SceneRequested(activeSceneName)]
    {
      engine.SetTimeScale(1.0);
      engine.LoadScene(activeSceneName);
    }

    method LoadMainMenu(engine: Engine)
      modifies engine
      ensures engine.timeScale == 1.0
      ensures engine.requests == old(engine.requests) + [TimeScaleSet(1.0), SceneLoad(mainMenuSceneName)]
      ensures engine.trace == old(engine.trace) + [TimeScaleChanged(1.0), SceneRequested(mainMenuSceneName)]
    {
      engine.SetTimeScale(1.0);
      engine.LoadScene(mainMenuSceneName);
    }
  }
}
