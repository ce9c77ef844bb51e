/**
 * Properties of the turn engine that relate several calls or intents.
 */
module InteractionLemmas {
  import opened Wrappers
  import opened Text
  import opened ChecklistData
  import opened ChecklistOutput
  import opened InteractionSkill

  /**
   * Marking an item of a checklist that is not in progress has no lasting effect: the advance
   * that follows starts a new run and resets every item, so Complete or Skip then behaves as
   * Query.
   */
  lemma MarkBeforeRestartIsDiscarded(checklistIndex: nat, c: Checklist, newState: ItemState, verbose: bool, now: int)
    requires c.executionState != InProgress
    ensures Advance(checklistIndex, MarkCurrentItem(c, newState, now), verbose, now) == Advance(checklistIndex, c, verbose, now)
  {
    var marked := MarkCurrentItem(c, newState, now);
    assert ResetItems(marked.items, now) == ResetItems(c.items, now) by {
      var a, b := ResetItems(marked.items, now), ResetItems(c.items, now);
      assert |a| == |b|;
      forall j | 0 <= j < |a| ensures a[j] == b[j] {
        assert marked.items[j].itemName == c.items[j].itemName;
      }
    }
    assert ResetRun(marked, now) == ResetRun(c, now);
  }

  lemma CompleteOutsideRunActsAsQuery(s: SkillSettingsChecklist, checklistIndex: nat, now: int, formatTime: int -> string)
    requires checklistIndex < |s.checklists|
    requires s.checklists[checklistIndex].executionState != InProgress
    ensures Interact(s, checklistIndex, ChecklistOk.Complete, now, formatTime) == Interact(s, checklistIndex, Query, now, formatTime)
    ensures Interact(s, checklistIndex, Skip, now, formatTime) == Interact(s, checklistIndex, Query, now, formatTime)
  {
    var c := s.checklists[checklistIndex];
    MarkBeforeRestartIsDiscarded(checklistIndex, c, Completed, false, now);
    MarkBeforeRestartIsDiscarded(checklistIndex, c, Skipped, false, now);
  }

  /**
   * `markCurrentItem` is not idempotent: on a fresh two-item checklist a second call with the
   * same state marks the next item too, and the index moves twice.
   */
  lemma MarkCurrentItemNotIdempotent(now: int)
    ensures
      var c := Checklist("Morning", [DefaultItem, DefaultItem], NotStarted, 0, 0, 0);
      var once := MarkCurrentItem(c, Completed, now);
      var twice := MarkCurrentItem(once, Completed, now);
      once.executionLastIndex == 1 && twice.executionLastIndex == 2 && twice != once
  {
  }

  /**
   * Completing on a checklist that was never started does not complete its first item: the
   * run starts, every item is reset, and item 1 is the one asked.
   */
  lemma CompleteOnFreshChecklistAsksFirstItem(now: int, formatTime: int -> string)
    ensures
      var c := Checklist("", [ChecklistItem("Buy milk", NotAsked, 0), ChecklistItem("Walk dog", NotAsked, 0)],
                         NotStarted, 0, 0, 0);
      var s := SkillSettingsChecklist([c], 0);
      var r := Interact(s, 0, ChecklistOk.Complete, now, formatTime);
      && r.Some?
      && r.value.output == Output("Buy milk", Some(0), true)
      && r.value.settings.checklists[0].items ==
           [ChecklistItem("Buy milk", Asked, now), ChecklistItem("Walk dog", NotAsked, now)]
  {
    var c := Checklist("", [ChecklistItem("Buy milk", NotAsked, 0), ChecklistItem("Walk dog", NotAsked, 0)],
                       NotStarted, 0, 0, 0);
    MarkBeforeRestartIsDiscarded(0, c, Completed, false, now);
    var run := ResetRun(c, now);
    assert run.items[0].executionState == NotAsked;
    assert !AllCompleted(run.items);
    assert !IsBlank("Buy milk") by { assert !IsWhitespace("Buy milk"[0]); }
  }

  /**
   * A skipped item is come back to: with the first item SKIPPED, the second COMPLETED and the
   * index past the end, the next prompt circles back to item 1.
   */
  lemma SkippedItemIsRevisited(now: int)
    ensures
      var c := Checklist("", [ChecklistItem("A", Skipped, 0), ChecklistItem("B", Completed, 0)], InProgress, 0, 0, 2);
      var r := Advance(0, c, false, now);
      && r.1.executionState == InProgress && r.1.executionLastIndex == 0
      && r.0.literal == "Let's circle back to item 1. A"
  {
    var c := Checklist("", [ChecklistItem("A", Skipped, 0), ChecklistItem("B", Completed, 0)], InProgress, 0, 0, 2);
    assert c.items[0].executionState != Completed;
    assert !IsBlank("A") by { assert !IsWhitespace("A"[0]); }
    assert NatToDecimal(1) == "1";
  }

  /**
   * Reset starts a new run from the first item whatever the checklist's state was: every
   * item NOT_ASKED but the first, which is ASKED; an empty checklist completes at once.
   */
  lemma ResetStartsFromFirstItem(s: SkillSettingsChecklist, checklistIndex: nat, now: int, formatTime: int -> string)
    requires checklistIndex < |s.checklists|
    ensures
      var items := s.checklists[checklistIndex].items;
      var r := Interact(s, checklistIndex, Reset, now, formatTime).value;
      var d := r.settings.checklists[checklistIndex];
      && d.executionStartedAt == now && |d.items| == |items|
      && r.output.literal[..|"Okay, let's start from the beginning. "|] == "Okay, let's start from the beginning. "
      && (|items| == 0 ==> d.executionState == ChecklistState.Complete && d.executionEndedAt == now && r.output.NextSkills() == [])
      && (|items| > 0 ==>
            && d.executionState == InProgress && d.executionLastIndex == 0
            && d.items[0] == ChecklistItem(items[0].itemName, Asked, now)
            && (forall j :: 1 <= j < |items| ==> d.items[j] == ChecklistItem(items[j].itemName, NotAsked, now))
            && r.output.NextSkills() == [ChecklistInteraction(checklistIndex)])
  {
    var c := s.checklists[checklistIndex];
    var restarted := c.(executionState := NotStarted);
    var run := ResetRun(restarted, now);
    var intro := "Okay, let's start from the beginning. ";
    var r := Interact(s, checklistIndex, Reset, now, formatTime).value;
    var started := Start(checklistIndex, restarted, intro, now, formatTime);
    assert (r.output, r.settings.checklists[checklistIndex]) == started;
    assert r.output.literal == intro + ItemCountText(|c.items|) + Advance(checklistIndex, restarted, true, now).0.literal;
    if |c.items| > 0 {
      assert run.items[0].executionState == NotAsked;
      AdvanceAsksNextPending(checklistIndex, restarted, true, now);
    } else {
      AdvanceCompletesWhenAllDone(checklistIndex, restarted, true, now);
    }
  }

  /**
   * Query after a prompt, in a later turn, asks the same item again: the checklist is as the
   * prompt left it except that the asked item is stamped with the later time.
   */
  lemma QueryRepeatsCurrentItem(checklistIndex: nat, c: Checklist, verbose: bool, now: int, later: int)
    requires Advance(checklistIndex, c, verbose, now).1.executionState == InProgress
    ensures
      var first := Advance(checklistIndex, c, verbose, now);
      var k := first.1.executionLastIndex;
      var again := Advance(checklistIndex, first.1, verbose, later);
      && k < |first.1.items|
      && again.1 == first.1.(items := first.1.items[k := first.1.items[k].(executionLastChanged := later)])
      && again.0.NextSkills() == first.0.NextSkills()
  {
    if AllCompleted(ResetRun(c, now).items) {
      AdvanceCompletesWhenAllDone(checklistIndex, c, verbose, now);
      assert false;
    }
    AdvanceAsksNextPending(checklistIndex, c, verbose, now);
    var d := Advance(checklistIndex, c, verbose, now).1;
    var k := d.executionLastIndex;
    assert ResetRun(d, later) == d;
    assert ScanFrom(d.items, k) == k;
  }

  /**
   * Complete on a run in progress whose current item exists leaves that item COMPLETED
   * (stamped with the turn's time unless it already was), whatever is asked next.
   */
  lemma CompleteMarksCurrentItem(s: SkillSettingsChecklist, checklistIndex: nat, now: int, formatTime: int -> string)
    requires checklistIndex < |s.checklists|
    requires s.checklists[checklistIndex].executionState == InProgress
    requires s.checklists[checklistIndex].executionLastIndex < |s.checklists[checklistIndex].items|
    ensures
      var c := s.checklists[checklistIndex];
      var k := c.executionLastIndex;
      var d := Interact(s, checklistIndex, ChecklistOk.Complete, now, formatTime).value.settings.checklists[checklistIndex];
      && d.items[k].itemName == c.items[k].itemName
      && d.items[k].executionState == Completed
      && (c.items[k].executionState != Completed ==> d.items[k].executionLastChanged == now)
  {
    var c := s.checklists[checklistIndex];
    var marked := MarkCurrentItem(c, Completed, now);
    assert ResetRun(marked, now) == marked;
    if AllCompleted(marked.items) {
      AdvanceCompletesWhenAllDone(checklistIndex, marked, false, now);
    } else {
      AdvanceAsksNextPending(checklistIndex, marked, false, now);
    }
  }

  /**
   * Skip on a run in progress whose current item exists leaves that item SKIPPED or asks it
   * again at once. When the item was not already SKIPPED, it is asked again exactly when every
   * other item is COMPLETED. An item already SKIPPED is not marked (the index stays), so the
   * fast-forward stops on it and it is simply asked again.
   */
  lemma SkipMarksCurrentItemOrAsksItAgain(s: SkillSettingsChecklist, checklistIndex: nat, now: int, formatTime: int -> string)
    requires checklistIndex < |s.checklists|
    requires s.checklists[checklistIndex].executionState == InProgress
    requires s.checklists[checklistIndex].executionLastIndex < |s.checklists[checklistIndex].items|
    ensures
      var c := s.checklists[checklistIndex];
      var k := c.executionLastIndex;
      var d := Interact(s, checklistIndex, Skip, now, formatTime).value.settings.checklists[checklistIndex];
      && d.executionState == InProgress
      && (d.items[k].executionState == Skipped || (d.executionLastIndex == k && d.items[k].executionState == Asked))
      && (c.items[k].executionState != Skipped ==>
            (d.items[k].executionState == Asked <==>
             forall j :: 0 <= j < |c.items| && j != k ==> c.items[j].executionState == Completed))
      && (c.items[k].executionState == Skipped ==> d.executionLastIndex == k && d.items[k].executionState == Asked)
  {
    var c := s.checklists[checklistIndex];
    var marked := MarkCurrentItem(c, Skipped, now);
    assert ResetRun(marked, now) == marked;
    assert marked.items[c.executionLastIndex].executionState == Skipped;
    AdvanceAsksNextPending(checklistIndex, marked, false, now);
  }
}
