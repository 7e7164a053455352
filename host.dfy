/** The engine services the scripts call: the global time scale and the
    scene-load and sound requests, recorded in the order they are made,
    together with a ghost trace that also records, in the same order, the
    timer and progress effects of the scripts. */
module Host {

  datatype Request =
    | TimeScaleSet(scale: real)
    | SceneLoad(name: string)
    | SfxPlay(clip: string)

  /** One observable effect, in the order the scripts make them. */
  datatype Step =
    | TimeScaleChanged(scale: real)
    | TimerStopped(time: real)
    | FinalTimeSaved(time: real)
    | LevelUnlocked(index: int)
    | SfxRequested(clip: string)
    | SceneRequested(name: string)

  class Engine {
    /** Time.timeScale */
    var timeScale: real
    /** Every request made so far, oldest first. */
    var requests: seq<Request>
    /** Every effect so far, engine requests and the timer and progress
        effects alike, oldest first. */
    ghost var trace: seq<Step>

    constructor ()
      ensures timeScale == 1.0 && requests == [] && trace == []
    {
      timeScale := 1.0;
      requests := [];
      trace := [];
    }

    method SetTimeScale(scale: real)
      modifies this
      ensures timeScale == scale
      ensures requests == old(requests) + [TimeScaleSet(scale)]
      ensures trace == old(trace) + [TimeScaleChanged(scale)]
    {
      timeScale := scale;
      requests := requests + [TimeScaleSet(scale)];
      trace := trace + [TimeScaleChanged(scale)];
    }

    /** SceneManager.LoadScene(name) */
    method LoadScene(name: string)
      modifies this
      ensures timeScale == old(timeScale)
      ensures requests == old(requests) + [SceneLoad(name)]
      ensures trace == old(trace) + [SceneRequested(name)]
    {
      requests := requests + [SceneLoad(name)];
      trace := trace + [SceneRequested(name)];
    }

    /** AudioManager.Instance.PlaySFX(clip) */
    method PlaySfx(clip: string)
      modifies this
      ensures timeScale == old(timeScale)
      ensures requests == old(requests) + [SfxPlay(clip)]
      ensures trace == old(trace) + [SfxRequested(clip)]
    {
      requests := requests + [SfxPlay(clip)];
      trace := trace + [SfxRequested(clip)];
    }
  }
}
