/**
 * The turn engine of a running checklist (`ChecklistInteractionSkill`): marking the current
 * item, advancing to the next item that still needs an answer, starting or restarting a run,
 * and dispatching the six intents a user can say while a checklist is running.
 *
 * `advanceState` works with loops, so it is the method `AdvanceState`, proved equal to the
 * function `Advance`; the methods that call it are proved equal to `Start` and `Interact`.
 * The clock is the parameter `now`; the locale-dependent time formatter is `formatTime`.
 */
module InteractionSkill {
  import opened Wrappers
  import opened Text
  import opened ChecklistData
  import opened ChecklistOutput
  import opened ElapsedTime

  /** The intents of the sentences understood while a checklist is running. */
  datatype ChecklistOk = Complete | Skip | Query | Wait | Abort | Reset

  /** Result of one turn: the answer and the stored collection written back. */
  datatype Turn = Turn(output: ChecklistSkillOutput, settings: SkillSettingsChecklist)

  const NoDescription := "There's no description for it."

  /** The answer when a run completes, with the time it took. */
  function CompletionText(elapsed: int): string {
    "Checklist complete. Time elapsed: " + RenderDuration(elapsed) + "."
  }

  /** The prompt for item `k` (0-based) when the run returns to it. */
  function CircleBackText(k: nat, name: string): string {
    "Let's circle back to item " + NatToDecimal(k + 1) + ". " + IfBlank(name, NoDescription)
  }

  /** The prompt for item `k` (0-based): numbered when verbose, else the bare name. */
  function ItemText(k: nat, name: string, verbose: bool): string {
    if verbose then "Item " + NatToDecimal(k + 1) + ". " + IfBlank(name, NoDescription)
    else IfBlank(name, "Next is Item " + NatToDecimal(k + 1) + ". " + NoDescription)
  }

  function Max(a: nat, b: nat): nat {
    if a < b then b else a
  }

  predicate AllCompleted(items: seq<ChecklistItem>) {
    forall j :: 0 <= j < |items| ==> items[j].executionState == Completed
  }

  /**
   * `markCurrentItem`: when the item at `executionLastIndex` exists and is not yet in
   * `newState`, that item alone gets the new state and timestamp and the index moves one on;
   * otherwise the checklist is returned as it is.
   */
  function MarkCurrentItem(c: Checklist, newState: ItemState, now: int): (r: Checklist)
    ensures var k := c.executionLastIndex;
      if k < |c.items| && c.items[k].executionState != newState then
        && r == c.(items := r.items, executionLastIndex := k + 1)
        && |r.items| == |c.items|
        && r.items[k] == ChecklistItem(c.items[k].itemName, newState, now)
        && (forall j :: 0 <= j < |c.items| && j != k ==> r.items[j] == c.items[j])
      else r == c
  {
    var k := c.executionLastIndex;
    if k < |c.items| && c.items[k].executionState != newState then
      c.(items := c.items[k := c.items[k].(executionState := newState, executionLastChanged := now)],
         executionLastIndex := k + 1)
    else c
  }

  /** Every item back to NOT_ASKED, stamped `now`; names are kept. */
  function ResetItems(items: seq<ChecklistItem>, now: int): (r: seq<ChecklistItem>)
    ensures |r| == |items|
    ensures forall j :: 0 <= j < |r| ==> r[j] == ChecklistItem(items[j].itemName, NotAsked, now)
  {
    seq(|items|, j requires 0 <= j < |items| => items[j].(executionState := NotAsked, executionLastChanged := now))
  }

  /** The first step of `advanceState`: a checklist that is not in progress starts a new run. */
  function ResetRun(c: Checklist, now: int): (r: Checklist)
    ensures r.executionState == InProgress
    ensures r.checklistName == c.checklistName && |r.items| == |c.items|
    ensures r.executionEndedAt == c.executionEndedAt
    ensures c.executionState == InProgress ==> r == c
    ensures c.executionState != InProgress ==>
      && r.executionStartedAt == now && r.executionLastIndex == 0
      && r.items == ResetItems(c.items, now)
  {
    if c.executionState == InProgress then c
    else c.(executionStartedAt := now, executionState := InProgress, executionLastIndex := 0,
            items := ResetItems(c.items, now))
  }

  /** The fast-forward: the first index at or after `k` whose item is not COMPLETED, or `k`
      itself when it is already past the end. */
  function ScanFrom(items: seq<ChecklistItem>, k: nat): (r: nat)
    ensures k <= r
    ensures r < |items| ==> items[r].executionState != Completed
    ensures forall j :: k <= j < r ==> j < |items| && items[j].executionState == Completed
    ensures r >= |items| ==> r == Max(k, |items|)
    decreases |items| - k
  {
    if k < |items| && items[k].executionState == Completed then ScanFrom(items, k + 1) else k
  }

  /** The lowest index whose item is not COMPLETED, if any. */
  function FirstPending(items: seq<ChecklistItem>): (r: Option<nat>)
    ensures r.None? <==> AllCompleted(items)
    ensures r.Some? ==> r.value < |items| && items[r.value].executionState != Completed
    ensures r.Some? ==> forall j :: 0 <= j < r.value ==> items[j].executionState == Completed
  {
    var k := ScanFrom(items, 0);
    if k < |items| then Some(k) else None
  }

  /** Item `k` becomes the one asked: ASKED, stamped, and the run's current index. */
  function Ask(c: Checklist, k: nat, now: int): Checklist
    requires k < |c.items|
  {
    c.(executionLastIndex := k,
       items := c.items[k := c.items[k].(executionState := Asked, executionLastChanged := now)])
  }

  /** The run completes: ended now, with the index where the fast-forward left it. */
  function CompleteRun(run: Checklist, current: nat, now: int): (ChecklistSkillOutput, Checklist) {
    var done := run.(executionEndedAt := now, executionLastIndex := current, executionState := ChecklistState.Complete);
    (Output(CompletionText(now - done.executionStartedAt), None, false), done)
  }

  /** Nothing is pending after the index: item `k`, an earlier one, is asked again. */
  function CircleBack(checklistIndex: nat, run: Checklist, k: nat, now: int): (ChecklistSkillOutput, Checklist)
    requires k < |run.items|
  {
    var asked := Ask(run, k, now);
    (Output(CircleBackText(k, asked.items[k].itemName), Some(checklistIndex)), asked)
  }

  /** Item `k`, the first pending at or after the index, is asked, in the verbose or terse form. */
  function AskItem(checklistIndex: nat, run: Checklist, k: nat, verbose: bool, now: int): (ChecklistSkillOutput, Checklist)
    requires k < |run.items|
  {
    var asked := Ask(run, k, now);
    (Output(ItemText(k, asked.items[k].itemName, verbose), Some(checklistIndex)), asked)
  }

  /**
   * `advanceState` on values: the run is (re)started, the index fast-forwarded past COMPLETED
   * items, and either the run completes or one item is asked. What it guarantees is stated by
   * the two lemmas after it.
   */
  function Advance(checklistIndex: nat, c: Checklist, verbose: bool, now: int): (r: (ChecklistSkillOutput, Checklist))
    ensures r.1.checklistName == c.checklistName && |r.1.items| == |c.items|
    ensures r.1.executionStartedAt == ResetRun(c, now).executionStartedAt
  {
    var run := ResetRun(c, now);
    var current := ScanFrom(run.items, run.executionLastIndex);
    if current >= |run.items| then
      match FirstPending(run.items)
      case None => CompleteRun(run, current, now)
      case Some(k) => CircleBack(checklistIndex, run, k, now)
    else AskItem(checklistIndex, run, current, verbose, now)
  }

  /**
   * When every item of the (re)started run is COMPLETED, including when there are none, the
   * run becomes COMPLETE: ended `now`, the index at the end (or left where it was, if past it),
   * and an answer saying how long the run took, with no continuation.
   */
  lemma AdvanceCompletesWhenAllDone(checklistIndex: nat, c: Checklist, verbose: bool, now: int)
    requires AllCompleted(ResetRun(c, now).items)
    ensures
      var run := ResetRun(c, now);
      var r := Advance(checklistIndex, c, verbose, now);
      && r.1 == run.(executionEndedAt := now, executionLastIndex := Max(run.executionLastIndex, |run.items|),
                     executionState := ChecklistState.Complete)
      && r.0 == Output(CompletionText(now - run.executionStartedAt), None, false)
      && r.0.NextSkills() == [] && !r.0.KeepListening()
  {
    var run := ResetRun(c, now);
    var current := ScanFrom(run.items, run.executionLastIndex);
    assert current >= |run.items|;
    assert FirstPending(run.items).None?;
    assert current == Max(run.executionLastIndex, |run.items|);
  }

  /**
   * Otherwise exactly one item is newly ASKED and becomes the current index: the first not
   * COMPLETED at or after the current index or, when there is none, the lowest not COMPLETED
   * ("circle back"). Every other item is as the (re)started run had it; the answer continues
   * with this checklist and speaks the item's 1-based number, except in the terse form for an
   * item that has a name.
   */
  lemma AdvanceAsksNextPending(checklistIndex: nat, c: Checklist, verbose: bool, now: int)
    requires !AllCompleted(ResetRun(c, now).items)
    ensures
      var run := ResetRun(c, now);
      var r := Advance(checklistIndex, c, verbose, now);
      var k := r.1.executionLastIndex;
      && r.1.executionState == InProgress && r.1.executionEndedAt == c.executionEndedAt
      && k < |r.1.items|
      && run.items[k].executionState != Completed
      && r.1.items[k] == ChecklistItem(run.items[k].itemName, Asked, now)
      && (forall j :: 0 <= j < |r.1.items| && j != k ==> r.1.items[j] == run.items[j])
      && (k >= run.executionLastIndex ==>
            forall j :: run.executionLastIndex <= j < k ==> run.items[j].executionState == Completed)
      && (k < run.executionLastIndex ==>
            && (forall j :: run.executionLastIndex <= j < |run.items| ==> run.items[j].executionState == Completed)
            && (forall j :: 0 <= j < k ==> run.items[j].executionState == Completed))
      && r.0.Output? && r.0.checklistIndex == Some(checklistIndex) && r.0.keepListening
      && r.0.NextSkills() == [ChecklistInteraction(checklistIndex)]
      && r.0.literal ==
         if k < run.executionLastIndex then CircleBackText(k, run.items[k].itemName)
         else ItemText(k, run.items[k].itemName, verbose)
  {
    var run := ResetRun(c, now);
    var current := ScanFrom(run.items, run.executionLastIndex);
    var r := Advance(checklistIndex, c, verbose, now);
    if current >= |run.items| {
      var k := FirstPending(run.items).value;
      assert r.1 == Ask(run, k, now);
      assert k < run.executionLastIndex;
    } else {
      assert r.1 == Ask(run, current, now);
    }
  }

  /** The reset loop of `advanceState`: every item NOT_ASKED, stamped `now`. */
  method ResetAllItems(items: seq<ChecklistItem>, now: int) returns (reset: seq<ChecklistItem>)
    ensures reset == ResetItems(items, now)
  {
    reset := items;
    var index := 0;
    while index < |reset|
      invariant index <= |reset| == |items|
      invariant forall j :: 0 <= j < index ==> reset[j] == ChecklistItem(items[j].itemName, NotAsked, now)
      invariant forall j :: index <= j < |reset| ==> reset[j] == items[j]
    {
      reset := reset[index := reset[index].(executionState := NotAsked, executionLastChanged := now)];
      index := index + 1;
    }
  }

  /** The fast-forward loop of `advanceState`: past the COMPLETED items from `start` on. */
  method FastForward(items: seq<ChecklistItem>, start: nat) returns (currentIndex: nat)
    ensures currentIndex == ScanFrom(items, start)
  {
    currentIndex := start;
    while currentIndex < |items| && items[currentIndex].executionState == Completed
      invariant start <= currentIndex
      invariant ScanFrom(items, currentIndex) == ScanFrom(items, start)
      decreases |items| - currentIndex
    {
      currentIndex := currentIndex + 1;
    }
  }

  /** The second scan, from the start once the first ran past the end: the first index not
      COMPLETED, or `currentIndex` (which is past the end) when there is none. */
  method FindSkipped(items: seq<ChecklistItem>, currentIndex: nat) returns (newIndex: nat)
    requires currentIndex >= |items|
    ensures newIndex == match FirstPending(items) case None => currentIndex case Some(k) => k
  {
    newIndex := currentIndex;
    var index := 0;
    while index < |items|
      invariant index <= |items|
      invariant newIndex == currentIndex ==> forall j :: 0 <= j < index ==> items[j].executionState == Completed
      invariant newIndex != currentIndex ==> newIndex < index && Some(newIndex) == FirstPending(items)
    {
      if items[index].executionState != Completed && newIndex == currentIndex {
        newIndex := index;
      }
      index := index + 1;
    }
  }

  /** `advanceState` as the source runs it, its three loops being the methods above. */
  method AdvanceState(checklistIndex: nat, checklistValue: Checklist, verbose: bool, now: int)
    returns (output: ChecklistSkillOutput, checklist: Checklist)
    ensures (output, checklist) == Advance(checklistIndex, checklistValue, verbose, now)
  {
    checklist := checklistValue;
    if checklist.executionState != InProgress {
      var items := ResetAllItems(checklist.items, now);
      checklist := checklist.(executionStartedAt := now, executionState := InProgress, executionLastIndex := 0,
                              items := items);
    }
    assert checklist == ResetRun(checklistValue, now);
    output, checklist := AskNext(checklistIndex, checklist, verbose, now);
  }

  /** The rest of `advanceState`, once the run is in progress: fast-forward, then complete the
      run or ask one item. */
  method AskNext(checklistIndex: nat, run: Checklist, verbose: bool, now: int)
    returns (output: ChecklistSkillOutput, checklist: Checklist)
    requires run.executionState == InProgress
    ensures (output, checklist) == Advance(checklistIndex, run, verbose, now)
  {
    checklist := run;
    // The first item at or after the current index that still needs an answer, if any.
    var currentIndex := FastForward(checklist.items, checklist.executionLastIndex);
    if currentIndex >= |checklist.items| {
      // None after it: the lowest pending item, or `currentIndex` when every item is done.
      var newIndex := FindSkipped(checklist.items, currentIndex);
      ghost var pending := FirstPending(checklist.items);
      assert pending.None? <==> newIndex == currentIndex;
      if newIndex == currentIndex {
        assert Advance(checklistIndex, run, verbose, now) == CompleteRun(run, currentIndex, now);
        checklist := checklist.(executionEndedAt := now, executionLastIndex := currentIndex,
                                executionState := ChecklistState.Complete);
        output := Output(CompletionText(now - checklist.executionStartedAt), None, false);
        assert (output, checklist) == CompleteRun(run, currentIndex, now);
        return;
      }
      assert Advance(checklistIndex, run, verbose, now) == CircleBack(checklistIndex, run, newIndex, now);
      checklist := checklist.(executionLastIndex := newIndex,
                              items := checklist.items[newIndex := checklist.items[newIndex].(
                                         executionState := Asked, executionLastChanged := now)]);
      var item := checklist.items[newIndex];
      output := Output(CircleBackText(newIndex, item.itemName), Some(checklistIndex));
      assert (output, checklist) == CircleBack(checklistIndex, run, newIndex, now);
      return;
    }
    assert Advance(checklistIndex, run, verbose, now) == AskItem(checklistIndex, run, currentIndex, verbose, now);
    checklist := checklist.(executionLastIndex := currentIndex,
                            items := checklist.items[currentIndex := checklist.items[currentIndex].(
                                       executionState := Asked, executionLastChanged := now)]);
    var item := checklist.items[checklist.executionLastIndex];
    output := Output(ItemText(currentIndex, item.itemName, verbose), Some(checklistIndex));
    assert (output, checklist) == AskItem(checklistIndex, run, currentIndex, verbose, now);
  }

  /** The opening sentence of `startChecklist`: the given intro, or one chosen by the run's state. */
  function IntroText(c: Checklist, intro: string, formatTime: int -> string): (r: string)
    ensures intro != [] ==> r == intro
    ensures intro == [] && c.executionState == NotStarted ==>
      r == "I'll start the checklist for " + IfEmpty(c.checklistName, "Unspecified") + ". "
    ensures intro == [] && c.executionState == InProgress ==>
      r == "Let's continue with the checklist for " + IfEmpty(c.checklistName, "Unspecified") +
           ", which you started at " + formatTime(c.executionStartedAt) + ". "
    ensures intro == [] && c.executionState == ChecklistState.Complete ==>
      r == "I'll restart the checklist for " + IfEmpty(c.checklistName, "Unspecified") +
           ", which you last completed at " + formatTime(c.executionEndedAt) + ". "
  {
    var title := IfEmpty(c.checklistName, "Unspecified");
    IfEmpty(intro,
      match c.executionState
      case InProgress => "Let's continue with the checklist for " + title + ", which you started at " + formatTime(c.executionStartedAt) + ". "
      case Complete => "I'll restart the checklist for " + title + ", which you last completed at " + formatTime(c.executionEndedAt) + ". "
      case NotStarted => "I'll start the checklist for " + title + ". ")
  }

  /** The item count sentence of `startChecklist`. */
  function ItemCountText(count: nat): (r: string)
    ensures r == "There is 1 item in this checklist. " <==> count == 1
    ensures count != 1 ==> |r| > 10 + |NatToDecimal(count)|
    ensures count != 1 ==> r[10..10 + |NatToDecimal(count)|] == NatToDecimal(count)
    ensures count != 1 ==>
      var digits := NatToDecimal(count);
      r[..10] == "There are " && ParseDigits(r[10..10 + |digits|]) == count
  {
    if count == 1 then "There is 1 item in this checklist. "
    else
      var digits := NatToDecimal(count);
      var text := "There are " + digits + " items in this checklist. ";
      assert text[6] == 'a';
      assert text[10..10 + |digits|] == digits;
      NatToDecimalRoundTrip(count);
      text
  }

  /**
   * `startChecklist`: the verbose advance of the checklist, its answer prefixed with the intro
   * and the item count; the checklist result is the advance's.
   */
  function Start(checklistIndex: nat, c: Checklist, intro: string, now: int, formatTime: int -> string)
    : (r: (ChecklistSkillOutput, Checklist))
    ensures r.1 == Advance(checklistIndex, c, true, now).1
    ensures r.0.Output?
    ensures r.0.literal == IntroText(c, intro, formatTime) + ItemCountText(|c.items|) + Advance(checklistIndex, c, true, now).0.literal
    ensures r.0.NextSkills() == Advance(checklistIndex, c, true, now).0.NextSkills()
    ensures r.0.KeepListening() == Advance(checklistIndex, c, true, now).0.KeepListening()
  {
    var outputText := IntroText(c, intro, formatTime) + ItemCountText(|c.items|);
    var (output, advanced) := Advance(checklistIndex, c, true, now);
    (output.UpdateText(text => outputText + text), advanced)
  }

  method StartChecklist(checklistIndex: nat, c: Checklist, intro: string, now: int, formatTime: int -> string)
    returns (output: ChecklistSkillOutput, checklist: Checklist)
    ensures (output, checklist) == Start(checklistIndex, c, intro, now, formatTime)
  {
    var outputText := IntroText(c, intro, formatTime);
    outputText := outputText + ItemCountText(|c.items|);
    var advanced;
    output, advanced := AdvanceState(checklistIndex, c, true, now);
    output := output.UpdateText(text => outputText + text);
    checklist := advanced;
  }

  /**
   * `generateOutput` of the interaction skill: one atomic update of the stored collection.
   * None when `checklistIndex` no longer names a checklist: reading it throws and the
   * collection is left as it was.
   */
  function Interact(s: SkillSettingsChecklist, checklistIndex: nat, intent: ChecklistOk, now: int,
                    formatTime: int -> string): (r: Option<Turn>)
    ensures r.None? <==> checklistIndex >= |s.checklists|
    ensures r.Some? ==>
      && |r.value.settings.checklists| == |s.checklists|
      && r.value.settings.executionLastChecklistIndex == s.executionLastChecklistIndex
      && (forall j :: 0 <= j < |s.checklists| && j != checklistIndex ==> r.value.settings.checklists[j] == s.checklists[j])
    ensures r.Some? && intent == ChecklistOk.Complete ==>
      (r.value.output, r.value.settings.checklists[checklistIndex])
        == Advance(checklistIndex, MarkCurrentItem(s.checklists[checklistIndex], Completed, now), false, now)
    ensures r.Some? && intent == Skip ==>
      (r.value.output, r.value.settings.checklists[checklistIndex])
        == Advance(checklistIndex, MarkCurrentItem(s.checklists[checklistIndex], Skipped, now), false, now)
    ensures r.Some? && intent == Query ==>
      (r.value.output, r.value.settings.checklists[checklistIndex])
        == Advance(checklistIndex, s.checklists[checklistIndex], false, now)
    ensures r.Some? && intent == Wait ==>
      r.value == Turn(Output("Okay!", Some(checklistIndex), false), s)
    ensures r.Some? && intent == Abort ==>
      r.value == Turn(Output("Okay, that's all for now.", None, false), s) && r.value.output.NextSkills() == []
  {
    if checklistIndex >= |s.checklists| then None
    else
      var c := s.checklists[checklistIndex];
      match intent
      case Complete =>
        var (output, d) := Advance(checklistIndex, MarkCurrentItem(c, Completed, now), false, now);
        Some(Turn(output, s.(checklists := s.checklists[checklistIndex := d])))
      case Skip =>
        var (output, d) := Advance(checklistIndex, MarkCurrentItem(c, Skipped, now), false, now);
        Some(Turn(output, s.(checklists := s.checklists[checklistIndex := d])))
      case Query =>
        var (output, d) := Advance(checklistIndex, c, false, now);
        Some(Turn(output, s.(checklists := s.checklists[checklistIndex := d])))
      case Wait =>
        Some(Turn(Output("Okay!", Some(checklistIndex), false), s))
      case Abort =>
        Some(Turn(Output("Okay, that's all for now.", None, false), s))
      case Reset =>
        var (output, d) := Start(checklistIndex, c.(executionState := NotStarted),
                                 "Okay, let's start from the beginning. ", now, formatTime);
        Some(Turn(output, s.(checklists := s.checklists[checklistIndex := d])))
  }

  method GenerateOutput(s: SkillSettingsChecklist, checklistIndex: nat, intent: ChecklistOk, now: int,
                        formatTime: int -> string) returns (r: Option<Turn>)
    ensures r == Interact(s, checklistIndex, intent, now, formatTime)
  {
    if checklistIndex >= |s.checklists| {
      return None;
    }
    var checklists := s.checklists;
    var checklist := checklists[checklistIndex];
    var output: ChecklistSkillOutput;
    match intent {
      case Complete =>
        var next;
        output, next := AdvanceState(checklistIndex, MarkCurrentItem(checklist, Completed, now), false, now);
        checklists := checklists[checklistIndex := next];
      case Skip =>
        var next;
        output, next := AdvanceState(checklistIndex, MarkCurrentItem(checklist, Skipped, now), false, now);
        checklists := checklists[checklistIndex := next];
      case Query =>
        var next;
        output, next := AdvanceState(checklistIndex, checklist, false, now);
        checklists := checklists[checklistIndex := next];
      case Wait =>
        output := Output("Okay!", Some(checklistIndex), false);
      case Abort =>
        output := Output("Okay, that's all for now.", None, false);
      case Reset =>
        var next;
        output, next := StartChecklist(checklistIndex, checklist.(executionState := NotStarted),
                                       "Okay, let's start from the beginning. ", now, formatTime);
        checklists := checklists[checklistIndex := next];
    }
    r := Some(Turn(output, s.(checklists := checklists)));
  }
}
