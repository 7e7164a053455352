/** LevelSelectManager: on start, each level button is made interactable
    exactly when its level (array index + 1) is unlocked. */
module LevelSelection {
  import opened Progress

  /** Whether the button at `index` is interactable for `reachedLevel`. */
  predicate ButtonEnabled(index: nat, reachedLevel: int) {
    index + 1 <= reachedLevel
  }

  /** The interactable flags of `count` buttons after Start. */
  function Flags(reachedLevel: int, count: nat): (flags: seq<bool>)
    ensures |flags| == count
    decreases count
  {
    if count == 0 then [] else Flags(reachedLevel, count - 1) + [ButtonEnabled(count - 1, reachedLevel)]
  }

  lemma {:induction false} FlagsAt(reachedLevel: int, count: nat)
    ensures forall i :: 0 <= i < count ==> (Flags(reachedLevel, count)[i] <==> i + 1 <= reachedLevel)
    decreases count
  {
    if count > 0 {
      FlagsAt(reachedLevel, count - 1);
    }
  }

  function CountEnabled(flags: seq<bool>): nat
    decreases |flags|
  {
    if flags == [] then 0 else CountEnabled(flags[..|flags| - 1]) + (if flags[|flags| - 1] then 1 else 0)
  }

  function ClampedReached(reachedLevel: int): nat {
    if reachedLevel < 0 then 0 else reachedLevel
  }

  /** Exactly min(count, max(0, reachedLevel)) buttons are enabled. */
  lemma {:induction false} EnabledCount(reachedLevel: int, count: nat)
    ensures CountEnabled(Flags(reachedLevel, count)) == Min(count, ClampedReached(reachedLevel))
    decreases count
  {
    if count > 0 {
      EnabledCount(reachedLevel, count - 1);
      FlagsAt(reachedLevel, count);
      assert Flags(reachedLevel, count)[..count - 1] == Flags(reachedLevel, count - 1);
    }
  }

  /** The enabled buttons are a prefix: every button before an enabled one
      is enabled, and they are the first min(count, max(0, reachedLevel)). */
  lemma EnabledPrefix(reachedLevel: int, count: nat)
    ensures var flags := Flags(reachedLevel, count);
      && (forall i, j :: 0 <= i < j < count && flags[j] ==> flags[i])
      && (forall i :: 0 <= i < count ==> (flags[i] <==> i < Min(count, ClampedReached(reachedLevel))))
  {
    FlagsAt(reachedLevel, count);
  }

  /** With no game manager the reached level is 1: only the first button,
      if there is one, is enabled. */
  lemma DefaultEnablesFirstOnly(count: nat)
    ensures CountEnabled(Flags(1, count)) == Min(1, count)
    ensures count > 0 ==> Flags(1, count)[0]
  {
    EnabledCount(1, count);
    FlagsAt(1, count);
  }

  /** Unlocking more levels never disables a button that was enabled. */
  lemma RaisingReachedKeepsEnabled(lower: int, higher: int, count: nat)
    requires lower <= higher
    ensures forall i :: 0 <= i < count && Flags(lower, count)[i] ==> Flags(higher, count)[i]
  {
    FlagsAt(lower, count);
    FlagsAt(higher, count);
  }

  /** LevelSelectManager.Start over the buttons' interactable flags;
      `manager` is GameManager.Instance. */
  method Start(levelButtons: array<bool>, manager: GameManager?, prefs: PlayerPrefs)
    modifies levelButtons
    ensures var reachedLevel := if manager != null then ReachedLevel(prefs.ints) else 1;
      && levelButtons[..] == Flags(reachedLevel, levelButtons.Length)
      && forall i :: 0 <= i < levelButtons.Length ==> (levelButtons[i] <==> i + 1 <= reachedLevel)
  {
    var reachedLevel := 1;
    if manager != null {
      reachedLevel := manager.GetReachedLevel(prefs);
    }
    for i := 0 to levelButtons.Length
      invariant levelButtons[..i] == Flags(reachedLevel, i)
    {
      var levelNum := i + 1;
      if levelNum > reachedLevel {
        levelButtons[i] := false;
      } else {
        levelButtons[i] := true;
      }
      assert levelButtons[..i + 1] == levelButtons[..i] + [levelButtons[i]];
    }
    assert levelButtons[..] == levelButtons[..levelButtons.Length];
    FlagsAt(reachedLevel, levelButtons.Length);
  }
}
