/** The goals step of onboarding
    (`frontend/src/components/onboarding/IntentStep.tsx`): selecting and
    deselecting goals, with "all of the above" exclusive of the others. */
module IntentStep {
  import opened Onboarding

  /** No goal is listed twice. */
  predicate NoDuplicates(goals: seq<CreatorGoal>) {
    forall i, j :: 0 <= i < j < |goals| ==> goals[i] != goals[j]
  }

  /** A list without duplicates is a head that the tail does not repeat,
      followed by a tail without duplicates. */
  lemma NoDuplicatesSplit(goals: seq<CreatorGoal>)
    requires |goals| > 0
    ensures NoDuplicates(goals) <==> goals[0] !in goals[1..] && NoDuplicates(goals[1..])
  {
    var t := goals[1..];
    assert forall k :: 0 <= k < |t| ==> t[k] == goals[k + 1];
    if goals[0] !in t && NoDuplicates(t) {
      forall i, j | 0 <= i < j < |goals| ensures goals[i] != goals[j] {
        if i == 0 {
          assert goals[j] == t[j - 1];
        } else {
          assert goals[i] == t[i - 1] && goals[j] == t[j - 1];
        }
      }
    }
  }

  /** `goals.filter(x => x !== g)`. */
  function Without(goals: seq<CreatorGoal>, g: CreatorGoal): (r: seq<CreatorGoal>)
    ensures g !in r
    ensures forall x :: x != g ==> (x in r <==> x in goals)
    ensures g !in goals ==> r == goals
    ensures NoDuplicates(goals) ==> NoDuplicates(r)
    decreases |goals|
  {
    if |goals| == 0 then []
    else if goals[0] == g then Without(goals[1..], g)
    else
      var tail := Without(goals[1..], g);
      NoDuplicatesSplit(goals);
      NoDuplicatesSplit([goals[0]] + tail);
      assert ([goals[0]] + tail)[1..] == tail;
      [goals[0]] + tail
  }

  /** `toggleGoal`. Choosing "all of the above" replaces every other choice
      (or clears the list when it was already chosen); choosing any other
      goal first drops "all of the above", then removes the goal if it was
      listed and appends it otherwise. */
  function ToggleGoal(goals: seq<CreatorGoal>, goal: CreatorGoal): (r: seq<CreatorGoal>)
    ensures r == [AllOfAbove] || AllOfAbove !in r
    ensures goal != AllOfAbove ==> AllOfAbove !in r
    ensures goal == AllOfAbove ==> r == (if AllOfAbove in goals then [] else [AllOfAbove])
    ensures goal != AllOfAbove ==> (goal in r <==> goal !in goals)
    ensures goal != AllOfAbove ==>
      forall x :: x != goal && x != AllOfAbove ==> (x in r <==> x in goals)
    ensures NoDuplicates(goals) ==> NoDuplicates(r)
  {
    if goal == AllOfAbove then
      if AllOfAbove in goals then [] else [AllOfAbove]
    else
      var filtered := Without(goals, AllOfAbove);
      if goal in filtered then Without(filtered, goal)
      else
        assert NoDuplicates(filtered) ==> NoDuplicates(filtered + [goal]) by {
          if NoDuplicates(filtered) {
            forall i, j | 0 <= i < j < |filtered + [goal]|
              ensures (filtered + [goal])[i] != (filtered + [goal])[j]
            {
              if j == |filtered| {
                assert (filtered + [goal])[i] == filtered[i];
              }
            }
          }
        }
        filtered + [goal]
  }

  /** `isSelected`: every goal shows as chosen while "all of the above" is
      listed; otherwise a goal is chosen when it is listed. */
  function IsSelected(goals: seq<CreatorGoal>, goal: CreatorGoal): (selected: bool)
    ensures AllOfAbove in goals ==> selected
    ensures AllOfAbove !in goals ==> (selected <==> goal in goals)
  {
    (AllOfAbove in goals && goal != AllOfAbove) || goal in goals
  }

  /** `isValid`: the step may be left once some goal is listed, which is
      exactly when some goal shows as chosen. */
  function IsValid(goals: seq<CreatorGoal>): (valid: bool)
    ensures valid <==> exists g :: IsSelected(goals, g)
  {
    assert |goals| > 0 ==> IsSelected(goals, goals[0]);
    |goals| > 0
  }

  // ---------------------------------------------------------------- properties

  /** Choosing "all of the above" shows every goal as chosen, and choosing
      it again shows none. */
  lemma AllOfAboveSelectsEverything(goals: seq<CreatorGoal>, g: CreatorGoal)
    requires AllOfAbove !in goals
    ensures IsSelected(ToggleGoal(goals, AllOfAbove), g)
    ensures !IsSelected(ToggleGoal(ToggleGoal(goals, AllOfAbove), AllOfAbove), g)
  {
  }

  /** Without "all of the above", toggling `goal` flips whether it shows as
      chosen and leaves every other goal as it was. */
  lemma ToggleFlipsOnlyItsGoal(goals: seq<CreatorGoal>, goal: CreatorGoal, other: CreatorGoal)
    requires AllOfAbove !in goals && goal != AllOfAbove && other != goal
    ensures IsSelected(ToggleGoal(goals, goal), goal) <==> !IsSelected(goals, goal)
    ensures IsSelected(ToggleGoal(goals, goal), other) <==> IsSelected(goals, other)
  {
  }

  /** While "all of the above" is chosen, clicking one goal (which shows as
      chosen) leaves exactly that goal chosen. */
  lemma ToggleFromAllKeepsOne(goal: CreatorGoal)
    requires goal != AllOfAbove
    ensures ToggleGoal([AllOfAbove], goal) == [goal]
  {
    assert Without([AllOfAbove], AllOfAbove) == [];
  }

  /** Toggling a goal that is not listed, and then toggling it again,
      restores the list exactly. */
  lemma ToggleTwiceRestores(goals: seq<CreatorGoal>, goal: CreatorGoal)
    requires AllOfAbove !in goals && goal != AllOfAbove && goal !in goals
    ensures ToggleGoal(ToggleGoal(goals, goal), goal) == goals
  {
    var once := goals + [goal];
    assert ToggleGoal(goals, goal) == once;
    assert Without(once, AllOfAbove) == once;
    WithoutLast(goals, goal);
  }

  /** Dropping a goal that only the last position holds gives the rest. */
  lemma {:induction false} WithoutLast(goals: seq<CreatorGoal>, goal: CreatorGoal)
    requires goal !in goals
    ensures Without(goals + [goal], goal) == goals
    decreases |goals|
  {
    if |goals| == 0 {
      assert goals + [goal] == [goal];
      assert Without([goal], goal) == Without([], goal);
    } else {
      assert (goals + [goal])[1..] == goals[1..] + [goal];
      WithoutLast(goals[1..], goal);
      assert goals == [goals[0]] + goals[1..];
    }
  }

  /** Deselecting the only chosen goal makes the step invalid again. */
  lemma DeselectingLastGoalInvalidates(goal: CreatorGoal)
    requires goal != AllOfAbove
    ensures !IsValid(ToggleGoal([goal], goal))
  {
    assert Without([goal], AllOfAbove) == [goal];
    assert Without([goal], goal) == [];
  }

  /** Toggling a goal that is not chosen makes the step valid. */
  lemma ChoosingMakesValid(goals: seq<CreatorGoal>, goal: CreatorGoal)
    requires !IsSelected(goals, goal)
    ensures IsValid(ToggleGoal(goals, goal))
  {
  }
}
