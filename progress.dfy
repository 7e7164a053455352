/** GameManager: the level-progress record kept in the persistent integer
    store, the final time of the last completed level, and the routing from
    the stored scene index to the next level's scene. */
module Progress {
  import opened Text
  import opened Host

  const LevelReachedKey: string := "LevelReached"
  const PreviousSceneIndexKey: string := "PreviousSceneIndex"
  const MainMenuScene: string := "MainMenu"
  const LevelPrefix: string := "Level_"

  const Int32Min: int := -0x8000_0000
  const Int32Max: int := 0x7fff_ffff

  /** Two's-complement wrap-around of a 32-bit signed result. */
  function Wrap32(x: int): (w: int)
    ensures Int32Min <= w <= Int32Max
    ensures (w - x) % 0x1_0000_0000 == 0
    ensures Int32Min <= x <= Int32Max ==> w == x
  {
    (x - Int32Min) % 0x1_0000_0000 + Int32Min
  }

  /** PlayerPrefs.GetInt(key, default) */
  function GetInt(store: map<string, int>, key: string, default: int): int {
    if key in store then store[key] else default
  }

  /** The highest unlocked level, as GetReachedLevel reads it. */
  function ReachedLevel(store: map<string, int>): (r: int)
    ensures LevelReachedKey in store ==> r == store[LevelReachedKey]
    ensures LevelReachedKey !in store ==> r == 1
  {
    GetInt(store, LevelReachedKey, 1)
  }

  // The integer helpers the progress and level-select rules share.

  function Max(a: int, b: int): int {
    if a < b then b else a
  }

  function Min(a: int, b: int): int {
    if a < b then a else b
  }

  /** The store after UnlockNextLevel(completed): the reached level becomes
      the larger of what it was and the level after `completed`, and no
      other key changes. */
  function Unlocked(store: map<string, int>, completed: int): (s: map<string, int>)
    ensures ReachedLevel(s) == Max(ReachedLevel(store), completed + 1)
    ensures ReachedLevel(s) > completed && ReachedLevel(s) >= ReachedLevel(store)
    ensures completed >= ReachedLevel(store) ==> ReachedLevel(s) == completed + 1
    ensures completed < ReachedLevel(store) ==> s == store
    ensures forall k :: k != LevelReachedKey ==> (k in s <==> k in store)
    ensures forall k :: k != LevelReachedKey && k in s ==> s[k] == store[k]
  {
    if completed >= ReachedLevel(store) then store[LevelReachedKey := completed + 1] else store
  }

  /** The store after UnlockNextLevel has been called with each of
      `completed`, in order. */
  function UnlockedAll(store: map<string, int>, completed: seq<int>): map<string, int>
    decreases |completed|
  {
    if completed == [] then store
    else Unlocked(UnlockedAll(store, completed[..|completed| - 1]), completed[|completed| - 1])
  }

  /** Over any sequence of unlocks the reached level never goes down. */
  lemma {:induction false} ReachedNeverDecreases(store: map<string, int>, completed: seq<int>, i: nat, j: nat)
    requires i <= j <= |completed|
    ensures ReachedLevel(UnlockedAll(store, completed[..i])) <= ReachedLevel(UnlockedAll(store, completed[..j]))
    decreases j - i
  {
    if i < j {
      ReachedNeverDecreases(store, completed, i, j - 1);
      assert completed[..j][..j - 1] == completed[..j - 1];
    }
  }

  /** After a sequence of unlocks the reached level is above every level
      completed in it. */
  lemma {:induction false} ReachedExceedsEveryCompleted(store: map<string, int>, completed: seq<int>)
    ensures forall k :: 0 <= k < |completed| ==> ReachedLevel(UnlockedAll(store, completed)) > completed[k]
    decreases |completed|
  {
    if completed != [] {
      var n := |completed|;
      var before := UnlockedAll(store, completed[..n - 1]);
      ReachedExceedsEveryCompleted(store, completed[..n - 1]);
      forall k | 0 <= k < n
        ensures ReachedLevel(UnlockedAll(store, completed)) > completed[k]
      {
        if k < n - 1 {
          assert completed[..n - 1][k] == completed[k];
        }
      }
    }
  }

  /** The level number LoadNextLevel looks for: the stored previous scene
      index plus one, in unchecked 32-bit arithmetic. */
  function NextLevelNumber(store: map<string, int>): int {
    Wrap32(GetInt(store, PreviousSceneIndexKey, 1) + 1)
  }

  /** The scene LoadNextLevel looks for: "Level_" and the next level
      number. */
  function NextLevelName(store: map<string, int>): string {
    LevelPrefix + IntToDecimal(NextLevelNumber(store))
  }

  /** The level number a "Level_<n>" scene name carries. */
  function ParseLevelName(name: string): Option<int> {
    if |name| >= |LevelPrefix| && name[..|LevelPrefix|] == LevelPrefix then ParseInt(name[|LevelPrefix|..])
    else None
  }

  /** A next level's name is never the main menu's name. */
  lemma NextLevelIsNotMainMenu(store: map<string, int>)
    ensures NextLevelName(store) != MainMenuScene
  {
    assert NextLevelName(store)[0] != MainMenuScene[0];
  }

  /** The next level's name carries exactly the stored index plus one
      (below Int32.MaxValue), with the default index 1 when nothing is
      stored. */
  lemma NextLevelNameCarriesIndex(store: map<string, int>)
    ensures ParseLevelName(NextLevelName(store)) == Some(NextLevelNumber(store))
    ensures var index := GetInt(store, PreviousSceneIndexKey, 1);
      Int32Min <= index < Int32Max ==> ParseLevelName(NextLevelName(store)) == Some(index + 1)
    ensures PreviousSceneIndexKey !in store ==> ParseLevelName(NextLevelName(store)) == Some(2)
  {
    var n := NextLevelNumber(store);
    var name := NextLevelName(store);
    assert name[..|LevelPrefix|] == LevelPrefix;
    assert name[|LevelPrefix|..] == IntToDecimal(n);
    IntRoundTrip(n);
  }

  /** Some build-settings scene name equals `name` ignoring case. */
  predicate InBuildSettings(buildScenes: seq<string>, name: string) {
    exists i :: 0 <= i < |buildScenes| && EqualsIgnoreCase(buildScenes[i], name)
  }

  /** PlayerPrefs: the engine's persistent integer settings. */
  class PlayerPrefs {
    var ints: map<string, int>

    constructor (initial: map<string, int>)
      ensures ints == initial
    {
      ints := initial;
    }
  }

  class GameManager {
    var finalTime: real

    constructor ()
      ensures finalTime == 0.0
    {
      finalTime := 0.0;
    }

    /** GameManager.FinalTime: the instance's final time, 0 without one. */
    static function FinalTime(instance: GameManager?): (t: real)
      reads instance
      ensures instance != null ==> t == instance.finalTime
      ensures instance == null ==> t == 0.0
    {
      if instance != null then instance.finalTime else 0.0
    }

    /** `log` records the save among the other effects of the scene. */
    static method SetFinalTime(instance: GameManager?, time: real, ghost log: Engine)
      modifies instance, log`trace
      ensures instance != null ==> FinalTime(instance) == time
      ensures instance == null ==> FinalTime(instance) == 0.0
      ensures instance != null ==> log.trace == old(log.trace) + [FinalTimeSaved(time)]
      ensures instance == null ==> log.trace == old(log.trace)
    {
      if instance != null {
        instance.finalTime := time;
        log.trace := log.trace + [FinalTimeSaved(time)];
      }
    }

    /** GameManager.LoadNextLevel, returning the scene it asks the engine
        to load. */
    static method LoadNextLevel(instance: GameManager?, prefs: PlayerPrefs, buildScenes: seq<string>)
      returns (scene: string)
      ensures instance == null ==> scene == MainMenuScene
      ensures instance != null ==>
        (scene == NextLevelName(prefs.ints) <==> InBuildSettings(buildScenes, NextLevelName(prefs.ints)))
      ensures instance != null && !InBuildSettings(buildScenes, NextLevelName(prefs.ints)) ==>
        scene == MainMenuScene
    {
      if instance == null {
        return MainMenuScene;
      }
      var currentSceneIndex := GetInt(prefs.ints, PreviousSceneIndexKey, 1);
      var nextLevelNumber := Wrap32(currentSceneIndex + 1);
      var nextLevelName := LevelPrefix + IntToDecimal(nextLevelNumber);
      var sceneExistsInBuildSettings := false;
      var i := 0;
      while i < |buildScenes|
        invariant 0 <= i <= |buildScenes|
        invariant !sceneExistsInBuildSettings
        invariant forall j :: 0 <= j < i ==> !EqualsIgnoreCase(buildScenes[j], nextLevelName)
      {
        if EqualsIgnoreCase(buildScenes[i], nextLevelName) {
          sceneExistsInBuildSettings := true;
          break;
        }
        i := i + 1;
      }
      if sceneExistsInBuildSettings {
        scene := nextLevelName;
      } else {
        scene := MainMenuScene;
      }
      assert nextLevelName == NextLevelName(prefs.ints);
      NextLevelIsNotMainMenu(prefs.ints);
    }

    /** GameManager.GetReachedLevel */
    function GetReachedLevel(prefs: PlayerPrefs): (level: int)
      reads prefs
      ensures LevelReachedKey in prefs.ints ==> level == prefs.ints[LevelReachedKey]
      ensures LevelReachedKey !in prefs.ints ==> level == 1
    {
      ReachedLevel(prefs.ints)
    }

    /** `log` records the unlock among the other effects of the scene. */
    method UnlockNextLevel(prefs: PlayerPrefs, completedLevelIndex: int, ghost log: Engine)
      modifies prefs, log`trace
      ensures prefs.ints == Unlocked(old(prefs.ints), completedLevelIndex)
      ensures log.trace == old(log.trace) + [LevelUnlocked(completedLevelIndex)]
    {
      log.trace := log.trace + [LevelUnlocked(completedLevelIndex)];
      var reachedLevel := GetInt(prefs.ints, LevelReachedKey, 1);
      if completedLevelIndex >= reachedLevel {
        reachedLevel := completedLevelIndex + 1;
        prefs.ints := prefs.ints[LevelReachedKey := reachedLevel];
      }
    }
  }

  // The unlock as compiled: C# `int` arithmetic is unchecked, so
  // `completedLevelIndex + 1` wraps around at Int32.MaxValue.

  function UnlockedAsWritten(store: map<string, int>, completed: int): (s: map<string, int>)
    ensures completed >= ReachedLevel(store) ==> ReachedLevel(s) == Wrap32(completed + 1)
    ensures completed < ReachedLevel(store) ==> s == store
    ensures forall k :: k != LevelReachedKey ==> (k in s <==> k in store)
    ensures forall k :: k != LevelReachedKey && k in store ==> s[k] == store[k]
  {
    if completed >= ReachedLevel(store) then store[LevelReachedKey := Wrap32(completed + 1)] else store
  }

  /** Below Int32.MaxValue the compiled unlock is the one modelled above. */
  lemma AsWrittenAgreesBelowInt32Max(store: map<string, int>, completed: int)
    requires Int32Min <= completed < Int32Max
    ensures UnlockedAsWritten(store, completed) == Unlocked(store, completed)
  {
  }

  /** Completing level Int32.MaxValue on a fresh store lowers the reached
      level from 1 to Int32.MinValue. */
  lemma UnlockAtInt32MaxLowersReached()
    ensures ReachedLevel(UnlockedAsWritten(map[], Int32Max)) == Int32Min
    ensures ReachedLevel(UnlockedAsWritten(map[], Int32Max)) < ReachedLevel(map[])
  {
  }
}
