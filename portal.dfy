/** SceneTransitionPortal: what happens, and in which order, when the player
    enters a portal. Which collaborators exist (a level timer in the scene,
    the game manager, the audio manager) decides which steps run. */
module Portal {
  import opened Host
  import opened Progress
  import opened Timing

  const PortalEnterClip: string := "PortalEnter"

  /** The time-scale reset that opens the completion sequence. */
  const TimeScaleReset: Step := TimeScaleChanged(1.0)

  /** A step that touches the timer or the stored progress, not the engine. */
  predicate IsProgressStep(step: Step) {
    step.TimerStopped? || step.FinalTimeSaved? || step.LevelUnlocked?
  }

  /** SaveTimeAndComplete: stop the timer if there is one, and record its
      time and unlock the next level if the manager exists too. */
  function SaveSteps(hasTimer: bool, elapsed: real, hasManager: bool, levelIndex: int): seq<Step> {
    if !hasTimer then []
    else [TimerStopped(elapsed)] + (if hasManager then [FinalTimeSaved(elapsed), LevelUnlocked(levelIndex)] else [])
  }

  lemma SaveStepsTouchProgressOnly(hasTimer: bool, elapsed: real, hasManager: bool, levelIndex: int)
    ensures var steps := SaveSteps(hasTimer, elapsed, hasManager, levelIndex);
      forall k :: 0 <= k < |steps| ==> IsProgressStep(steps[k])
  {
  }

  /** The part of LoadNextScene after the empty-name check: nothing for an
      empty name, otherwise the portal sound if audio exists, then the load. */
  function LoadSteps(sceneToLoad: string, hasAudio: bool): seq<Step> {
    if sceneToLoad == "" then []
    else (if hasAudio then [SfxRequested(PortalEnterClip)] else []) + [SceneRequested(sceneToLoad)]
  }

  /** The load steps touch neither progress nor the time scale; a scene,
      the configured one, is requested exactly when the name is not empty,
      and the portal sound exactly when audio exists as well. */
  lemma LoadStepsRequestScene(sceneToLoad: string, hasAudio: bool)
    ensures var steps := LoadSteps(sceneToLoad, hasAudio);
      && (forall k :: 0 <= k < |steps| ==> !IsProgressStep(steps[k]) && steps[k] != TimeScaleReset)
      && ((exists k :: 0 <= k < |steps| && steps[k].SceneRequested?) <==> sceneToLoad != "")
      && (forall k :: 0 <= k < |steps| && steps[k].SceneRequested? ==> steps[k].name == sceneToLoad)
      && ((exists k :: 0 <= k < |steps| && steps[k].SfxRequested?) <==> sceneToLoad != "" && hasAudio)
  {
    var steps := LoadSteps(sceneToLoad, hasAudio);
    if sceneToLoad != "" {
      assert steps[|steps| - 1].SceneRequested?;
      assert hasAudio ==> steps[0].SfxRequested?;
    }
  }

  /** LoadNextScene: reset the time scale, save, then the load steps. */
  function CompletionSteps(sceneToLoad: string, levelIndex: int, hasTimer: bool, elapsed: real,
                           hasManager: bool, hasAudio: bool): (steps: seq<Step>)
    ensures |steps| >= 1 && steps[0] == TimeScaleReset
  {
    [TimeScaleReset] + SaveSteps(hasTimer, elapsed, hasManager, levelIndex) + LoadSteps(sceneToLoad, hasAudio)
  }

  /** Where the parts of a completion sit in it: the reset at 0, the save
      steps next and the load steps last. */
  lemma CompletionParts(sceneToLoad: string, levelIndex: int, hasTimer: bool, elapsed: real,
                        hasManager: bool, hasAudio: bool)
    ensures var steps := CompletionSteps(sceneToLoad, levelIndex, hasTimer, elapsed, hasManager, hasAudio);
      var save := SaveSteps(hasTimer, elapsed, hasManager, levelIndex);
      var tail := LoadSteps(sceneToLoad, hasAudio);
      && steps == [TimeScaleReset] + save + tail
      && (forall k :: 1 <= k < 1 + |save| ==> steps[k] == save[k - 1] && IsProgressStep(steps[k]))
      && (forall k :: 1 + |save| <= k < |steps| ==> steps[k] == tail[k - 1 - |save|])
      && (forall k :: 0 <= k < |tail| ==> !IsProgressStep(tail[k]) && tail[k] != TimeScaleReset)
  {
    SaveStepsTouchProgressOnly(hasTimer, elapsed, hasManager, levelIndex);
    LoadStepsRequestScene(sceneToLoad, hasAudio);
  }

  /** The time scale is reset first, and only then. */
  lemma CompletionResetsFirstOnly(sceneToLoad: string, levelIndex: int, hasTimer: bool, elapsed: real,
                                  hasManager: bool, hasAudio: bool)
    ensures var steps := CompletionSteps(sceneToLoad, levelIndex, hasTimer, elapsed, hasManager, hasAudio);
      forall k :: 1 <= k < |steps| ==> steps[k] != TimeScaleReset
  {
    var save := SaveSteps(hasTimer, elapsed, hasManager, levelIndex);
    var tail := LoadSteps(sceneToLoad, hasAudio);
    var steps := CompletionSteps(sceneToLoad, levelIndex, hasTimer, elapsed, hasManager, hasAudio);
    CompletionParts(sceneToLoad, levelIndex, hasTimer, elapsed, hasManager, hasAudio);
  }

  /** The timer is stopped exactly when there is one; the final time is
      saved and the level unlocked exactly when the game manager exists
      too. */
  lemma CompletionSavesProgress(sceneToLoad: string, levelIndex: int, hasTimer: bool, elapsed: real,
                                hasManager: bool, hasAudio: bool)
    ensures var steps := CompletionSteps(sceneToLoad, levelIndex, hasTimer, elapsed, hasManager, hasAudio);
      && (TimerStopped(elapsed) in steps <==> hasTimer)
      && (FinalTimeSaved(elapsed) in steps <==> hasTimer && hasManager)
      && (LevelUnlocked(levelIndex) in steps <==> hasTimer && hasManager)
  {
    var save := SaveSteps(hasTimer, elapsed, hasManager, levelIndex);
    var tail := LoadSteps(sceneToLoad, hasAudio);
    var steps := CompletionSteps(sceneToLoad, levelIndex, hasTimer, elapsed, hasManager, hasAudio);
    CompletionParts(sceneToLoad, levelIndex, hasTimer, elapsed, hasManager, hasAudio);
    if hasTimer {
      assert steps[1] == TimerStopped(elapsed);
      if hasManager {
        assert steps[2] == FinalTimeSaved(elapsed);
        assert steps[3] == LevelUnlocked(levelIndex);
      }
    }
  }

  /** Progress is saved before any sound or scene is requested. */
  lemma CompletionSavesBeforeLoading(sceneToLoad: string, levelIndex: int, hasTimer: bool, elapsed: real,
                                     hasManager: bool, hasAudio: bool)
    ensures var steps := CompletionSteps(sceneToLoad, levelIndex, hasTimer, elapsed, hasManager, hasAudio);
      forall i, j :: 0 <= i < j < |steps| && IsProgressStep(steps[j]) ==>
        !steps[i].SceneRequested? && !steps[i].SfxRequested?
  {
    var save := SaveSteps(hasTimer, elapsed, hasManager, levelIndex);
    var tail := LoadSteps(sceneToLoad, hasAudio);
    var steps := CompletionSteps(sceneToLoad, levelIndex, hasTimer, elapsed, hasManager, hasAudio);
    CompletionParts(sceneToLoad, levelIndex, hasTimer, elapsed, hasManager, hasAudio);
  }

  /** A scene, the configured one, is requested exactly when its name is
      not empty; the portal sound exactly when audio exists as well. */
  lemma CompletionLoadsScene(sceneToLoad: string, levelIndex: int, hasTimer: bool, elapsed: real,
                             hasManager: bool, hasAudio: bool)
    ensures var steps := CompletionSteps(sceneToLoad, levelIndex, hasTimer, elapsed, hasManager, hasAudio);
      && ((exists k :: 0 <= k < |steps| && steps[k].SceneRequested?) <==> sceneToLoad != "")
      && (forall k :: 0 <= k < |steps| && steps[k].SceneRequested? ==> steps[k].name == sceneToLoad)
      && ((exists k :: 0 <= k < |steps| && steps[k].SfxRequested?) <==> sceneToLoad != "" && hasAudio)
  {
    var save := SaveSteps(hasTimer, elapsed, hasManager, levelIndex);
    var tail := LoadSteps(sceneToLoad, hasAudio);
    var steps := CompletionSteps(sceneToLoad, levelIndex, hasTimer, elapsed, hasManager, hasAudio);
    CompletionParts(sceneToLoad, levelIndex, hasTimer, elapsed, hasManager, hasAudio);
    assert steps[0] == TimeScaleReset;
    forall k | 0 <= k < |steps| && (steps[k].SceneRequested? || steps[k].SfxRequested?)
      ensures 1 + |save| <= k && steps[k] == tail[k - 1 - |save|]
    {
    }
    if sceneToLoad == "" {
      assert |steps| == 1 + |save|;
      assert forall k :: 0 <= k < |steps| ==> !steps[k].SceneRequested? && !steps[k].SfxRequested?;
    }
    if sceneToLoad != "" {
      var k :| 0 <= k < |tail| && tail[k].SceneRequested?;
      assert steps[1 + |save| + k].SceneRequested?;
    }
    if sceneToLoad != "" && hasAudio {
      var k :| 0 <= k < |tail| && tail[k].SfxRequested?;
      assert steps[1 + |save| + k].SfxRequested?;
    }
  }

  /** The engine request a single step makes, if any. */
  function StepRequests(step: Step): seq<Request> {
    match step
    case TimeScaleChanged(scale) => [TimeScaleSet(scale)]
    case SfxRequested(clip) => [SfxPlay(clip)]
    case SceneRequested(name) => [SceneLoad(name)]
    case _ => []
  }

  /** The engine requests a sequence of steps makes. */
  function EngineRequests(steps: seq<Step>): seq<Request>
    decreases |steps|
  {
    if steps == [] then [] else StepRequests(steps[0]) + EngineRequests(steps[1..])
  }

  lemma {:induction false} ProgressStepsMakeNoRequests(steps: seq<Step>)
    requires forall k :: 0 <= k < |steps| ==> IsProgressStep(steps[k])
    ensures EngineRequests(steps) == []
    decreases |steps|
  {
    if steps != [] {
      ProgressStepsMakeNoRequests(steps[1..]);
    }
  }

  lemma {:induction false} EngineRequestsAppend(a: seq<Step>, b: seq<Step>)
    ensures EngineRequests(a + b) == EngineRequests(a) + EngineRequests(b)
    decreases |a|
  {
    if a == [] {
      assert a + b == b;
    } else {
      assert (a + b)[0] == a[0];
      assert (a + b)[1..] == a[1..] + b;
      EngineRequestsAppend(a[1..], b);
    }
  }

  /** Saving progress makes no engine request: the requests of a completion
      are the time-scale reset followed by those of the load steps. */
  lemma CompletionRequestsSplit(reset: seq<Step>, save: seq<Step>, tail: seq<Step>)
    requires reset == [TimeScaleReset]
    requires forall k :: 0 <= k < |save| ==> IsProgressStep(save[k])
    ensures EngineRequests(reset + save + tail) == [TimeScaleSet(1.0)] + EngineRequests(tail)
  {
    EngineRequestsAppend(reset, save);
    EngineRequestsAppend(reset + save, tail);
    ProgressStepsMakeNoRequests(save);
    assert EngineRequests(reset) == [TimeScaleSet(1.0)];
  }

  /** The trace of a completion, extended part by part, ends as if the
      whole sequence had been appended at once. Stated on its own, since
      the solver finds this regrouping slowly inside LoadNextScene. */
  lemma TraceAppend(trace: seq<Step>, save: seq<Step>, tail: seq<Step>)
    ensures trace + [TimeScaleReset] + save + tail == trace + ([TimeScaleReset] + save + tail)
  {
  }

  /** The request log of a completion, extended part by part, ends with
      exactly the requests of the whole sequence. */
  lemma RequestsAppend(requests: seq<Request>, save: seq<Step>, tail: seq<Step>)
    requires forall k :: 0 <= k < |save| ==> IsProgressStep(save[k])
    ensures requests + [TimeScaleSet(1.0)] + EngineRequests(tail)
         == requests + EngineRequests([TimeScaleReset] + save + tail)
  {
    CompletionRequestsSplit([TimeScaleReset], save, tail);
    assert requests + [TimeScaleSet(1.0)] + EngineRequests(tail)
        == requests + ([TimeScaleSet(1.0)] + EngineRequests(tail));
  }

  /** The requests of the load steps: none for an empty name, otherwise the
      portal sound if audio exists and then the scene. */
  lemma LoadRequests(sceneToLoad: string, hasAudio: bool)
    ensures var r := EngineRequests(LoadSteps(sceneToLoad, hasAudio));
      && (sceneToLoad == "" ==> r == [])
      && (sceneToLoad != "" && hasAudio ==> r == [SfxPlay(PortalEnterClip), SceneLoad(sceneToLoad)])
      && (sceneToLoad != "" && !hasAudio ==> r == [SceneLoad(sceneToLoad)])
  {
    if sceneToLoad != "" {
      if hasAudio {
        EngineRequestsAppend([SfxRequested(PortalEnterClip)], [SceneRequested(sceneToLoad)]);
        assert EngineRequests([SfxRequested(PortalEnterClip)]) == [SfxPlay(PortalEnterClip)];
      }
      assert EngineRequests([SceneRequested(sceneToLoad)]) == [SceneLoad(sceneToLoad)];
    }
  }

  /** The engine-facing part of a completion: the time-scale reset comes
      first, and with an empty scene name it is the only request. */
  lemma CompletionRequests(sceneToLoad: string, levelIndex: int, hasTimer: bool, elapsed: real,
                           hasManager: bool, hasAudio: bool)
    ensures var r := EngineRequests(CompletionSteps(sceneToLoad, levelIndex, hasTimer, elapsed, hasManager, hasAudio));
      && |r| >= 1 && r[0] == TimeScaleSet(1.0)
      && (sceneToLoad == "" ==> r == [TimeScaleSet(1.0)])
      && (sceneToLoad != "" && hasAudio ==> r == [TimeScaleSet(1.0), SfxPlay(PortalEnterClip), SceneLoad(sceneToLoad)])
      && (sceneToLoad != "" && !hasAudio ==> r == [TimeScaleSet(1.0), SceneLoad(sceneToLoad)])
  {
    SaveStepsTouchProgressOnly(hasTimer, elapsed, hasManager, levelIndex);
    CompletionRequestsSplit([TimeScaleReset], SaveSteps(hasTimer, elapsed, hasManager, levelIndex), LoadSteps(sceneToLoad, hasAudio));
    LoadRequests(sceneToLoad, hasAudio);
  }

  class SceneTransitionPortal {
    const sceneToLoad: string
    const currentLevelIndex: int

    constructor (sceneToLoad: string, currentLevelIndex: int)
      ensures this.sceneToLoad == sceneToLoad && this.currentLevelIndex == currentLevelIndex
    {
      this.sceneToLoad := sceneToLoad;
      this.currentLevelIndex := currentLevelIndex;
    }

    /** `timer` is what FindObjectOfType<LevelTimer>() finds, `manager` is
        GameManager.Instance, `audioPresent` whether AudioManager.Instance
        exists. */
    method LoadNextScene(engine: Engine, timer: LevelTimer?, manager: GameManager?, prefs: PlayerPrefs,
                         audioPresent: bool)
      returns (ghost steps: seq<Step>)
      modifies engine, timer, manager, prefs
      ensures steps == CompletionSteps(sceneToLoad, currentLevelIndex, timer != null,
                                       if timer != null then old(timer.TimeElapsed()) else 0.0,
                                       manager != null, audioPresent)
      ensures engine.trace == old(engine.trace) + steps
      ensures engine.timeScale == 1.0
      ensures engine.requests == old(engine.requests) + EngineRequests(steps)
      ensures timer != null ==> timer.State() == Stop(old(timer.State())).0
      ensures timer != null && manager != null ==> GameManager.FinalTime(manager) == old(timer.TimeElapsed())
      ensures timer == null || manager == null ==> GameManager.FinalTime(manager) == old(GameManager.FinalTime(manager))
      ensures timer != null && manager != null ==> prefs.ints == Unlocked(old(prefs.ints), currentLevelIndex)
      ensures timer == null || manager == null ==> prefs.ints == old(prefs.ints)
    {
      engine.SetTimeScale(1.0);
      ghost var saved := SaveTimeAndComplete(engine, timer, manager, prefs);
      ghost var tail := RequestScene(engine, audioPresent);
      steps := [TimeScaleReset] + saved + tail;
      TraceAppend(old(engine.trace), saved, tail);
      RequestsAppend(old(engine.requests), saved, tail);
    }

    /** The rest of LoadNextScene once progress is saved: give up on an
        empty scene name, otherwise request the portal sound, if audio
        exists, and then the scene. */
    method RequestScene(engine: Engine, audioPresent: bool) returns (ghost steps: seq<Step>)
      modifies engine
      ensures steps == LoadSteps(sceneToLoad, audioPresent)
      ensures engine.trace == old(engine.trace) + steps
      ensures engine.timeScale == old(engine.timeScale)
      ensures engine.requests == old(engine.requests) + EngineRequests(steps)
    {
      steps := [];
      if sceneToLoad == "" {
        return;
      }
      if audioPresent {
        engine.PlaySfx(PortalEnterClip);
        steps := [SfxRequested(PortalEnterClip)];
        assert EngineRequests(steps) == [SfxPlay(PortalEnterClip)];
      }
      engine.LoadScene(sceneToLoad);
      EngineRequestsAppend(steps, [SceneRequested(sceneToLoad)]);
      assert EngineRequests([SceneRequested(sceneToLoad)]) == [SceneLoad(sceneToLoad)];
      steps := steps + [SceneRequested(sceneToLoad)];
    }

    /** `engine` only receives the effects in its trace. */
    method SaveTimeAndComplete(engine: Engine, timer: LevelTimer?, manager: GameManager?, prefs: PlayerPrefs)
      returns (ghost steps: seq<Step>)
      modifies timer, manager, prefs, engine`trace
      ensures steps == SaveSteps(timer != null, if timer != null then old(timer.TimeElapsed()) else 0.0,
                                 manager != null, currentLevelIndex)
      ensures engine.trace == old(engine.trace) + steps
      ensures forall k :: 0 <= k < |steps| ==> IsProgressStep(steps[k])
      ensures timer != null ==> timer.State() == Stop(old(timer.State())).0
      ensures timer != null && manager != null ==> GameManager.FinalTime(manager) == old(timer.TimeElapsed())
      ensures timer == null || manager == null ==> GameManager.FinalTime(manager) == old(GameManager.FinalTime(manager))
      ensures timer != null && manager != null ==> prefs.ints == Unlocked(old(prefs.ints), currentLevelIndex)
      ensures timer == null || manager == null ==> prefs.ints == old(prefs.ints)
    {
      steps := [];
      if timer != null {
        var finalTime := timer.StopAndGetTime(engine);
        steps := [TimerStopped(finalTime)];
        if manager != null {
          GameManager.SetFinalTime(manager, finalTime, engine);
          manager.UnlockNextLevel(prefs, currentLevelIndex, engine);
          steps := steps + [FinalTimeSaved(finalTime), LevelUnlocked(currentLevelIndex)];
        }
      }
    }
  }
}
