# GravityShift core rules in Dafny

GravityShift is a small Unity platformer. The player moves left and right and
flips gravity between down and up. A portal ends each level, and a level
select screen, a pause menu and a timer surround the levels. This project
models the discrete rules inside that game and proves what they promise:

- **Progress** (`progress.dfy`, `GameManager`): the highest unlocked level
  in the persistent integer store, and the final time of the last completed
  level. It also models the routing from the stored previous scene index to
  the `Level_<n>` scene, which is looked up case-insensitively among the
  build-settings scenes and falls back to `MainMenu`.
- **Timing** (`timer.dfy`, `LevelTimer`): an accumulator that grows by the
  frame time while the timer runs and is frozen once it is stopped.
- **Portal** (`portal.dfy`, `SceneTransitionPortal`): the completion
  sequence. It resets the time scale, stops the timer, records the final
  time, unlocks the next level, then plays the portal sound and loads the
  scene, or gives up on an empty scene name. Which collaborators exist
  decides which steps run.
- **LevelSelection** (`level_select.dfy`, `LevelSelectManager.Start`): each
  level button is made interactable exactly when its level is unlocked.
- **Pause** (`pause.dfy`, `PauseMenuManager`): Escape toggles between
  playing and paused. Pausing stops time and shows the menu. Restart and
  main-menu put time back to normal before loading.
- **Player** (`player.dfy`, `PlayerController`): the gravity direction
  (straight down or straight up) flips on the switch key behind a cooldown
  flag. A flip drops the vertical velocity. Horizontal movement replaces the
  horizontal velocity and keeps the speed along gravity.

Supporting modules:

- `text.dfy`: the decimal form of an `int`, its parser and ASCII
  ignore-case comparison.
- `vectors.dfy`: Unity's `Vector3` operations over exact reals.
- `host.dfy`: the engine. It holds `Time.timeScale` and a log of the scene
  load, sound and time-scale requests the portal and the pause menu make.
  A ghost trace records the same requests in one ordered record together
  with the timer stop, the final-time save and the level unlock. That
  trace is what fixes the order of the portal's steps.

The singletons (`GameManager.Instance`, `AudioManager.Instance`) and the
scene lookup (`FindObjectOfType<LevelTimer>()`) become parameters: a
nullable reference or a boolean saying whether the object exists. Input
(`GetKeyDown`, `GetAxis`), `Time.deltaTime` and the active scene's name are
parameters too. The delayed `Invoke` of the cooldown reset becomes an event
in the gravity state machine.

## Model

| member | source | states |
|---|---|---|
| Progress.ReachedLevel | Assets/Scripts/GameManager.cs:125-128 | The reached level is the stored `LevelReached` value, or 1 when the key is absent |
| Progress.Unlocked | Assets/Scripts/GameManager.cs:108-120 | After unlocking `c`, the reached level is max(old, c + 1), so it is above `c` and never lower than before. It is exactly c + 1 when c >= old. The store is unchanged when c < old, and no other key ever changes |
| Progress.ReachedNeverDecreases | Assets/Scripts/GameManager.cs:108-120 | Over any sequence of unlocks, the reached level after a prefix is at most the reached level after any longer prefix |
| Progress.ReachedExceedsEveryCompleted | Assets/Scripts/GameManager.cs:113-116 | After a sequence of unlocks, the reached level is above every level completed in it |
| Progress.GameManager.constructor | Assets/Scripts/GameManager.cs:21 | A new manager's final time is 0, so `FinalTime` reads 0 before any save |
| Progress.GameManager.UnlockNextLevel | Assets/Scripts/GameManager.cs:108-120 | The store after the call is `Unlocked(old store, completedLevelIndex)`, and the unlock is appended to the trace |
| Progress.GameManager.GetReachedLevel | Assets/Scripts/GameManager.cs:125-128 | Returns the stored `LevelReached` value, or 1 when the key is absent |
| Progress.GameManager.FinalTime | Assets/Scripts/GameManager.cs:21-22 | The instance's final time, or 0 without an instance |
| Progress.GameManager.SetFinalTime | Assets/Scripts/GameManager.cs:46-55 | With an instance, `FinalTime` then reads the time just set and the save is appended to the trace. Without one, `FinalTime` is 0 and the trace is unchanged |
| Progress.Wrap32 | Assets/Scripts/GameManager.cs:70 | The 32-bit wrap of a result is in the `int` range, differs from the result by a multiple of 2^32, and equals the result whenever that fits |
| Progress.NextLevelNameCarriesIndex | Assets/Scripts/GameManager.cs:69-72 | The target name parses back to `Level_` plus the stored `PreviousSceneIndex` + 1 (below Int32.MaxValue). It is `Level_2` when nothing is stored |
| Progress.NextLevelIsNotMainMenu | Assets/Scripts/GameManager.cs:69-72 | The target name never equals `MainMenu`, so the two outcomes are distinguishable |
| Progress.GameManager.LoadNextLevel | Assets/Scripts/GameManager.cs:60-101 | Without an instance the result is `MainMenu`. With one, the result is the target exactly when some build scene equals it ignoring case, and `MainMenu` otherwise |
| Progress.UnlockedAsWritten | Assets/Scripts/GameManager.cs:113-116 | The compiled unlock: when `c` is at least the reached level, the reached level becomes the 32-bit wrap of c + 1. Otherwise the store is unchanged. No other key changes |
| Progress.UnlockAtInt32MaxLowersReached | Assets/Scripts/GameManager.cs:113-116 | The compiled unlock of level Int32.MaxValue on a fresh store stores Int32.MinValue, below the default reached level 1 |
| Progress.AsWrittenAgreesBelowInt32Max | Assets/Scripts/GameManager.cs:113-116 | Below Int32.MaxValue the compiled unlock equals the one the model uses |
| Text.DecimalRoundTrip | Assets/Scripts/GameManager.cs:72 | Reading back the decimal digits of a natural number gives the number |
| Text.IntRoundTrip | Assets/Scripts/GameManager.cs:72 | Parsing what `$"{i}"` writes gives back `i`, for negative values too |
| Timing.LevelTimer.constructor | Assets/Scripts/LevelTimer.cs:13-14 | A new timer has nothing elapsed and is running |
| Timing.LevelTimer.Update | Assets/Scripts/LevelTimer.cs:21-34 | One update adds the frame time while running and changes nothing once stopped |
| Timing.LevelTimer.TimeElapsed | Assets/Scripts/LevelTimer.cs:19 | The elapsed part of the timer's state |
| Timing.LevelTimer.StopAndGetTime | Assets/Scripts/LevelTimer.cs:39-43 | Stopping returns `TimeElapsed` unchanged, clears the running flag and appends the stop to the trace |
| Timing.RunningAccumulates | Assets/Scripts/LevelTimer.cs:23-26 | A running timer's elapsed time grows by exactly the sum of the frame times, and it stays running |
| Timing.ElapsedNonDecreasing | Assets/Scripts/LevelTimer.cs:23-26 | With non-negative frame times the elapsed time never goes down |
| Timing.FrozenAfterStop | Assets/Scripts/LevelTimer.cs:21-34 | After a stop, no sequence of updates changes the timer |
| Timing.StopTwiceSameTime | Assets/Scripts/LevelTimer.cs:39-43 | Stopping a second time, after any updates, returns the same time |
| Portal.SaveStepsTouchProgressOnly | Assets/Scripts/SceneTransitionPortal.cs:43-65 | Saving only stops the timer, records the time and unlocks progress |
| Portal.LoadStepsRequestScene | Assets/Scripts/SceneTransitionPortal.cs:28-40 | After the empty-name check, a scene (the configured one) is requested exactly when the name is not empty. The portal sound is requested exactly when audio exists as well |
| Portal.CompletionParts | Assets/Scripts/SceneTransitionPortal.cs:20-41 | A completion is the reset, then the save steps (all progress steps), then the load steps (none of them a progress step or a reset) |
| Portal.CompletionResetsFirstOnly | Assets/Scripts/SceneTransitionPortal.cs:24 | The time-scale reset is the first step of a completion and is never repeated |
| Portal.CompletionSavesProgress | Assets/Scripts/SceneTransitionPortal.cs:46-64 | The timer is stopped exactly when there is one. The final time is saved and the level unlocked exactly when the game manager exists too, whatever the scene name |
| Portal.CompletionSavesBeforeLoading | Assets/Scripts/SceneTransitionPortal.cs:26-40 | Every progress step comes before any sound or scene request |
| Portal.CompletionLoadsScene | Assets/Scripts/SceneTransitionPortal.cs:28-40 | A completion requests the configured scene exactly when its name is not empty, and the portal sound exactly when audio exists as well |
| Portal.LoadRequests | Assets/Scripts/SceneTransitionPortal.cs:28-40 | The engine requests after saving: none for an empty name, otherwise the sound (with audio) and then the scene |
| Portal.CompletionRequests | Assets/Scripts/SceneTransitionPortal.cs:20-41 | The engine requests of a whole completion: the time-scale reset first, then nothing, the scene, or the sound and the scene |
| Portal.EngineRequestsAppend | Assets/Scripts/SceneTransitionPortal.cs:20-41 | The requests of consecutive steps are the requests of each part in order |
| Portal.SceneTransitionPortal.constructor | Assets/Scripts/SceneTransitionPortal.cs:12-14 | The portal keeps the configured scene name and level index. The inspector default of 1 for the index is replaced by a parameter |
| Portal.SceneTransitionPortal.LoadNextScene | Assets/Scripts/SceneTransitionPortal.cs:20-41 | The trace grows by exactly the completion sequence for the collaborators present, in its order: reset, stop, save, unlock, sound, scene. The time scale ends at 1 and the request log grows by exactly those steps' requests. The timer is stopped. The final time and the store change as saving prescribes, and not otherwise |
| Portal.SceneTransitionPortal.SaveTimeAndComplete | Assets/Scripts/SceneTransitionPortal.cs:43-65 | Stops the timer if there is one. With the manager too, it records the stopped time and applies `Unlocked`. Otherwise the final time and the store are unchanged. The trace grows by exactly these effects, in this order |
| Portal.SceneTransitionPortal.RequestScene | Assets/Scripts/SceneTransitionPortal.cs:28-40 | Leaves the time scale alone and appends exactly the load steps to the trace and their requests to the request log |
| LevelSelection.FlagsAt | Assets/Scripts/LevelSelect.cs:19-32 | Button `i` is interactable exactly when i + 1 <= reachedLevel |
| LevelSelection.EnabledCount | Assets/Scripts/LevelSelect.cs:19-32 | Exactly min(count, max(0, reachedLevel)) buttons are interactable |
| LevelSelection.EnabledPrefix | Assets/Scripts/LevelSelect.cs:22-32 | The interactable buttons are a prefix, of length min(count, max(0, reachedLevel)) |
| LevelSelection.DefaultEnablesFirstOnly | Assets/Scripts/LevelSelect.cs:13-16 | With reached level 1, the default without a manager, only the first button is interactable |
| LevelSelection.RaisingReachedKeepsEnabled | Assets/Scripts/LevelSelect.cs:24 | A higher reached level never disables a button a lower one enabled |
| LevelSelection.Start | Assets/Scripts/LevelSelect.cs:10-34 | Every button gets its flag: button `i` is interactable exactly when i + 1 <= reached level, which is the stored one with a manager and 1 without |
| Pause.PausedIffStoppedAndShown | Assets/Scripts/PauseMenuManager.cs:50-67 | In the states `Start`, `PauseGame` and `ResumeGame` leave, the game is paused exactly when time is stopped and the menu is shown |
| Pause.EscapeParity | Assets/Scripts/PauseMenuManager.cs:29-45 | After any run of frames, an even number of Escape presses leaves the paused flag as it was and an odd number flips it. After at least one press the state is coherent. Without presses nothing changes |
| Pause.EscapeTwiceRestores | Assets/Scripts/PauseMenuManager.cs:29-45 | From a coherent state, two Escape presses give back the same state |
| Pause.PauseMenuManager.constructor | Assets/Scripts/PauseMenuManager.cs:16-19 | A new pause menu is not paused and keeps the configured main-menu scene name. The menu's initial visibility is a parameter |
| Pause.PauseMenuManager.Start | Assets/Scripts/PauseMenuManager.cs:21-27 | Afterwards: not paused, time scale 1, menu hidden, one time-scale request. The trace grows by the same requests |
| Pause.PauseMenuManager.Update | Assets/Scripts/PauseMenuManager.cs:29-45 | An Escape press toggles between paused and playing. Without one, nothing changes and no request is made. The trace grows by the same requests |
| Pause.PauseMenuManager.ResumeGame | Assets/Scripts/PauseMenuManager.cs:50-56 | Afterwards: not paused, time scale 1, menu hidden. The trace grows by the same requests |
| Pause.PauseMenuManager.PauseGame | Assets/Scripts/PauseMenuManager.cs:61-67 | Afterwards: paused, time scale 0, menu shown. The trace grows by the same requests |
| Pause.PauseMenuManager.RestartLevel | Assets/Scripts/PauseMenuManager.cs:72-80 | Time scale 1 is set before the active scene is requested. The trace grows by the same requests |
| Pause.PauseMenuManager.LoadMainMenu | Assets/Scripts/PauseMenuManager.cs:85-90 | Time scale 1 is set before the main-menu scene is requested. The trace grows by the same requests |
| Vectors.NegatedTwice | Assets/Scripts/PlayerController.cs:129 | Negating twice gives back the vector |
| Vectors.ProjectOnPlaneOrthogonal | Assets/Scripts/PlayerController.cs:143 | A projection on a plane has no component along the plane's normal |
| Vectors.VerticalProjections | Assets/Scripts/PlayerController.cs:91-106 | Along ±Y, the projection keeps only y and the plane projection zeroes y |
| Vectors.Normalized | Assets/Scripts/PlayerController.cs:96 | A unit vector normalises to itself and the zero vector to zero |
| Player.ApproximatelyZero | Assets/Scripts/PlayerController.cs:72-75 | `Mathf.Approximately(a, 0)` holds exactly when abs(a) < 8 * Mathf.Epsilon |
| Player.NegatedStaysVertical | Assets/Scripts/PlayerController.cs:129 | Negating a ±Y direction gives a ±Y direction |
| Player.NegatedDiffers | Assets/Scripts/PlayerController.cs:129 | Negating a ±Y direction changes it |
| Player.SwitchKeepsVertical | Assets/Scripts/PlayerController.cs:126-144 | A switch keeps gravity straight up or straight down |
| Player.SwitchChangesDirection | Assets/Scripts/PlayerController.cs:126-144 | A switch always turns gravity around |
| Player.SwitchTwiceRestores | Assets/Scripts/PlayerController.cs:126-144 | Two switches restore the direction and leave the velocity with no vertical part |
| Player.RunStaysVertical | Assets/Scripts/PlayerController.cs:113-152 | After any sequence of frames and cooldown resets, gravity is still straight up or straight down |
| Player.CoolingDownIgnoresPresses | Assets/Scripts/PlayerController.cs:113-121 | While the flag is down, key presses change nothing until the cooldown reset arrives |
| Player.SwitchGate | Assets/Scripts/PlayerController.cs:113-121 | In a frame, gravity flips exactly when the key is pressed and the flag is up, and the flag is then down. Otherwise the state is unchanged |
| Player.PlaneDirectionIsRight | Assets/Scripts/PlayerController.cs:91-96 | With ±Y gravity, Right projected on gravity's plane is the unit vector Right, and normalising keeps it |
| Player.HorizontalPerpendicular | Assets/Scripts/PlayerController.cs:93-99 | The horizontal velocity is perpendicular to gravity |
| Player.PlayerController.constructor | Assets/Scripts/PlayerController.cs:27-31 | Gravity starts down and the switch flag up |
| Player.PlayerController.HandleGravitySwitchInput | Assets/Scripts/PlayerController.cs:113-121 | The new state is the switch-key step of the gravity state machine, and gravity stays ±Y |
| Player.PlayerController.SwitchGravity | Assets/Scripts/PlayerController.cs:126-144 | Gravity is negated and stays ±Y. The velocity loses its vertical part and keeps the others |
| Player.PlayerController.ResetGravityCooldown | Assets/Scripts/PlayerController.cs:149-152 | The switch flag goes back up and nothing else changes |
| Player.PlayerController.HandleMovement | Assets/Scripts/PlayerController.cs:66-107 | Near-zero input leaves the velocity alone. Otherwise the velocity becomes (input * moveSpeed, old y, 0). Gravity and the flag are untouched |
| Player.PlayerController.MovementVelocity | Assets/Scripts/PlayerController.cs:91-106 | The normalised horizontal direction times the speed, plus the old velocity's projection on gravity, is (speed, old y, 0) |

## Left out

- Audio playback, the camera, the main and final menus, and the `GameManager` singleton's `Awake`/`DontDestroyOnLoad` lifetime are not part of this model. A present audio manager appears only as the boolean that decides whether the portal sound is requested.
- `PlayerPrefs.Save()`, disk persistence and every `Debug.Log` call are left out. The store is a `map<string, int>` with unbounded values.
- The timer's on-screen text (`F2` formatting) is left out: it does not change the timer's state.
- `ApplyGravity` (`rb.AddForce`), `Quaternion.LookRotation`, `freezeRotation` and the physics integration between frames are engine physics and are not modelled.
- `Invoke(nameof(ResetGravityCooldown), 0.5f)` becomes a `CooldownElapsed` event that may arrive at any point. The 0.5-second delay is not modelled.
- Floats are modelled as exact reals, so IEEE rounding in the timer and in velocities is not captured.
- Text.EqualsIgnoreCase: ordinal ignore-case comparison is modelled for ASCII letters only. Other Unicode case mappings are not modelled.
- Progress.GameManager.LoadNextLevel: build scenes are given as file names. Turning a scene path into a name (`GetFileNameWithoutExtension`) is not modelled.
- Portal.SceneTransitionPortal.LoadNextScene: a null `sceneToLoad` is modelled as the empty string, which `string.IsNullOrEmpty` treats the same way.
- Vectors.Normalized: defined only for unit and zero vectors, the only ones the controller normalises. The general square-root case is not modelled.
- A null `pauseMenuUI` or null button (a `NullReferenceException` in the engine) is not modelled.
- LevelSelection.Start: buttons are modelled as an array of their interactable flags, so aliasing between button objects is not modelled.
- `LevelSelectManager.LoadLevel` and `LevelSelectManager.LoadMainMenu` are single scene-load calls with no rule to prove, and are not modelled.
- Portal.SceneTransitionPortal.constructor: the inspector default `currentLevelIndex = 1` is not built in. The index is a constructor parameter, because inspector settings can override it.
- Pause.PauseMenuManager.constructor: the inspector default `mainMenuSceneName = "MainMenu"` is not built in. The name is a constructor parameter, for the same reason.
- Danger-zone collisions and out-of-bounds restarts do not appear in the controller's code and are not modelled.
- Progress.GameManager.UnlockNextLevel: models the corrected, non-wrapping `completedLevelIndex + 1` (see Findings). `Progress.UnlockedAsWritten` keeps the compiled 32-bit behaviour.

## Findings

| source | as written | input that shows it | evidently intended | confidence | as-written member | corrected member |
|---|---|---|---|---|---|---|
| Assets/Scripts/GameManager.cs:113-116 | `reachedLevel = completedLevelIndex + 1` is unchecked 32-bit `int` arithmetic, so it wraps at Int32.MaxValue | `UnlockNextLevel(2147483647)` with no `LevelReached` key stored: the stored level becomes -2147483648, below the default 1, and every level button is then disabled | the reached level never decreases and stays above the completed level | not executed | Progress.UnlockAtInt32MaxLowersReached | Progress.Unlocked |
