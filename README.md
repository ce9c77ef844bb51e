# Voice checklist skill — a Dafny model

This project models the checklist feature of the Dicio voice assistant for Android. A user
defines named checklists of items on a settings screen. By voice, the user starts a checklist
and is walked through it item by item. Each answer (complete, skip, repeat, wait, stop,
restart) is one turn. A turn reads the stored collection of checklists, computes the spoken
answer, and writes the collection back in one atomic update.

Modules, each following one source file:

- `ChecklistData` (`checklist_data.dfy`): the stored records. A checklist has a name, items,
  a run state (NOT_STARTED, IN_PROGRESS, COMPLETE), start and end times and a current item
  index. An item has a name, a state (NOT_ASKED, ASKED, COMPLETED, SKIPPED) and the time of
  its last change. The collection also records which checklist was used last.
- `ChecklistOutput` (`checklist_output.dfy`): the spoken answer of a turn and what the next
  turn is routed to.
- `InteractionSkill` (`interaction_skill.dfy`), with `ElapsedTime` (`elapsed_time.dfy`) and
  `InteractionLemmas` (`interaction_lemmas.dfy`): the turn engine of a running checklist.
  `advanceState` loops over the items, so it is the method `AdvanceState`, proved equal to the
  function `Advance`. Every method that calls it is likewise proved equal to a function:
  `StartChecklist` to `Start`, and `GenerateOutput` to `Interact`.
- `ChecklistSkill` (`checklist_skill.dfy`): choosing and starting a checklist, including the
  lookup by spoken name and the yes/no confirmation.
- `SettingsViewModel` (`settings_view_model.dfy`) and `SettingsScreen`
  (`settings_screen.dfy`): classes whose methods edit the stored collection and one
  checklist's items in place. `ListOps` (`list_ops.dfy`) holds the list functions they are
  specified by.
- `Text` (`text.dfy`) and `Wrappers` (`wrappers.dfy`): Kotlin's blank/empty string helpers,
  decimal rendering of numbers with a parser to check it against, and `Option`.

The clock is an integer parameter `now` (epoch seconds). The app's string distance is a
function parameter `distance`. The locale-aware time formatter is a function parameter
`formatTime`. A turn whose checklist index no longer exists throws inside the update in the
app; the model returns `None` for it and leaves the collection unchanged.

Behaviours a reader might not expect, kept as the code has them:

- `markCurrentItem` is not idempotent. A second call with the same state marks the next item
  (`MarkCurrentItemNotIdempotent`).
- Complete or Skip on a checklist that is not in progress does not mark anything. The advance
  that follows resets every item (`CompleteOutsideRunActsAsQuery`). So "Complete" on a fresh
  checklist ["Buy milk", "Walk dog"] asks "Buy milk", not "Walk dog"
  (`CompleteOnFreshChecklistAsksFirstItem`).
- A completed run's index is the item count, or the old index if that was already larger
  (`AdvanceCompletesWhenAllDone`).
- A checklist named by voice starts without confirmation only when the distance is negative.
  With a distance that is never negative, every named start asks first
  (`NamedStartConfirmsUnlessNegative`).

## Model

| member | source | states |
|---|---|---|
| `ChecklistOutput.ChecklistSkillOutput.SpeechOutput` | app/src/main/kotlin/org/stypox/dicio/skills/checklist/ChecklistSkillOutput.kt:13 | the speech output is exactly the stored literal |
| `ChecklistOutput.ChecklistSkillOutput.NextSkills` | app/src/main/kotlin/org/stypox/dicio/skills/checklist/ChecklistSkillOutput.kt:15-21 | a plain output offers exactly one interaction skill bound to index i iff its index is i, and none iff it has no index; the confirmation variant offers the yes/no skill |
| `ChecklistOutput.ChecklistSkillOutput.KeepListening` | app/src/main/kotlin/org/stypox/dicio/skills/checklist/ChecklistSkillOutput.kt:12-23 | the stored flag; true for the confirmation variant, which leaves it at its default |
| `ChecklistOutput.ChecklistSkillOutput.UpdateText` | app/src/main/kotlin/org/stypox/dicio/skills/checklist/ChecklistSkillOutput.kt:25-26 | the new text is `update` of the old; listening flag kept; continuation kept for a plain output, dropped for the confirmation variant (a base-class instance is built) |
| `InteractionSkill.MarkCurrentItem` | app/src/main/kotlin/org/stypox/dicio/skills/checklist/ChecklistInteractionSkill.kt:66-75 | when the current index is in range and that item's state differs, only that item gets the new state and time and the index grows by exactly one; otherwise the checklist is returned unchanged |
| `InteractionSkill.ResetItems` | app/src/main/kotlin/org/stypox/dicio/skills/checklist/ChecklistInteractionSkill.kt:89-94 | same length; every item NOT_ASKED, stamped now, name kept |
| `InteractionSkill.ResetRun` | app/src/main/kotlin/org/stypox/dicio/skills/checklist/ChecklistInteractionSkill.kt:84-96 | a run in progress is kept; any other becomes IN_PROGRESS at index 0, started now, all items reset |
| `InteractionSkill.ScanFrom` | app/src/main/kotlin/org/stypox/dicio/skills/checklist/ChecklistInteractionSkill.kt:98-101 | the fast-forward stops at the first not-COMPLETED index at or after the start, or at max(start, size); everything passed over is COMPLETED |
| `InteractionSkill.FirstPending` | app/src/main/kotlin/org/stypox/dicio/skills/checklist/ChecklistInteractionSkill.kt:104-109 | the lowest not-COMPLETED index, absent exactly when all items are COMPLETED |
| `InteractionSkill.Advance` | app/src/main/kotlin/org/stypox/dicio/skills/checklist/ChecklistInteractionSkill.kt:77-147 | name and item count kept; start time is that of the (re)started run |
| `InteractionSkill.AdvanceCompletesWhenAllDone` | app/src/main/kotlin/org/stypox/dicio/skills/checklist/ChecklistInteractionSkill.kt:102-117 | all items COMPLETED (also none): state COMPLETE, ended now, index max(index, size), items unchanged, elapsed-time answer, no continuation, not listening |
| `InteractionSkill.AdvanceAsksNextPending` | app/src/main/kotlin/org/stypox/dicio/skills/checklist/ChecklistInteractionSkill.kt:118-146 | otherwise IN_PROGRESS with an in-range index whose item alone becomes ASKED; it is the first pending at or after the index, else the lowest pending; answer continues with this checklist and names the 1-based number (circle-back, verbose or unnamed-terse wording) |
| `InteractionSkill.ResetAllItems` | app/src/main/kotlin/org/stypox/dicio/skills/checklist/ChecklistInteractionSkill.kt:89-94 | the reset loop produces `ResetItems` |
| `InteractionSkill.FastForward` | app/src/main/kotlin/org/stypox/dicio/skills/checklist/ChecklistInteractionSkill.kt:98-101 | the while loop stops where `ScanFrom` does |
| `InteractionSkill.FindSkipped` | app/src/main/kotlin/org/stypox/dicio/skills/checklist/ChecklistInteractionSkill.kt:104-110 | the forEachIndexed loop yields the lowest pending index, or the unchanged past-the-end index when there is none |
| `InteractionSkill.AskNext` | app/src/main/kotlin/org/stypox/dicio/skills/checklist/ChecklistInteractionSkill.kt:97-146 | once the run is in progress, the fast-forward, the second scan and the completion or prompt give exactly `Advance`'s answer and checklist |
| `InteractionSkill.AdvanceState` | app/src/main/kotlin/org/stypox/dicio/skills/checklist/ChecklistInteractionSkill.kt:77-147 | the imperative advance returns exactly `Advance`'s answer and checklist |
| `InteractionSkill.IntroText` | app/src/main/kotlin/org/stypox/dicio/skills/checklist/ChecklistInteractionSkill.kt:157-172 | a non-empty intro is used as given; otherwise the continue/restart/start sentence for the state, with "Unspecified" for an empty name |
| `InteractionSkill.ItemCountText` | app/src/main/kotlin/org/stypox/dicio/skills/checklist/ChecklistInteractionSkill.kt:173-177 | "There is 1 item" exactly when the count is 1; otherwise "There are " followed by the count's digits, which read back as the count |
| `InteractionSkill.Start` | app/src/main/kotlin/org/stypox/dicio/skills/checklist/ChecklistInteractionSkill.kt:149-180 | checklist is the verbose advance's; answer text is intro + item count + the advance's text, continuation and listening kept |
| `InteractionSkill.StartChecklist` | app/src/main/kotlin/org/stypox/dicio/skills/checklist/ChecklistInteractionSkill.kt:149-180 | the imperative start equals `Start` |
| `InteractionSkill.Interact` | app/src/main/kotlin/org/stypox/dicio/skills/checklist/ChecklistInteractionSkill.kt:23-63 | fails exactly for an index out of range; only the addressed checklist may change; Complete and Skip mark the current item with the new state and then advance tersely, Query only advances; Wait answers "Okay!" keeping the continuation, Abort ends it, both leave the collection unchanged |
| `InteractionSkill.GenerateOutput` | app/src/main/kotlin/org/stypox/dicio/skills/checklist/ChecklistInteractionSkill.kt:23-63 | the imperative intent dispatch equals `Interact` |
| `InteractionLemmas.MarkBeforeRestartIsDiscarded` | app/src/main/kotlin/org/stypox/dicio/skills/checklist/ChecklistInteractionSkill.kt:84-96 | on a checklist not in progress, marking then advancing equals advancing alone |
| `InteractionLemmas.CompleteOutsideRunActsAsQuery` | app/src/main/kotlin/org/stypox/dicio/skills/checklist/ChecklistInteractionSkill.kt:29-45 | Complete and Skip on a checklist not in progress give the same turn as Query |
| `InteractionLemmas.MarkCurrentItemNotIdempotent` | app/src/main/kotlin/org/stypox/dicio/skills/checklist/ChecklistInteractionSkill.kt:68-73 | two calls with the same state move the index twice |
| `InteractionLemmas.CompleteOnFreshChecklistAsksFirstItem` | app/src/main/kotlin/org/stypox/dicio/skills/checklist/ChecklistInteractionSkill.kt:29-33 | Complete on a fresh ["Buy milk", "Walk dog"] answers "Buy milk", item 1 ASKED, item 2 NOT_ASKED |
| `InteractionLemmas.SkippedItemIsRevisited` | app/src/main/kotlin/org/stypox/dicio/skills/checklist/ChecklistInteractionSkill.kt:102-127 | [SKIPPED, COMPLETED] past the end circles back to item 1 instead of completing |
| `InteractionLemmas.ResetStartsFromFirstItem` | app/src/main/kotlin/org/stypox/dicio/skills/checklist/ChecklistInteractionSkill.kt:54-58 | Reset from any state: started now, item 1 ASKED, all others NOT_ASKED, answer begins with the restart intro; an empty checklist completes at once |
| `InteractionLemmas.QueryRepeatsCurrentItem` | app/src/main/kotlin/org/stypox/dicio/skills/checklist/ChecklistInteractionSkill.kt:41-45 | a Query in a later turn after a prompt asks the same item again: the checklist only gets the asked item re-stamped with the later time, and the continuation is the same |
| `InteractionLemmas.CompleteMarksCurrentItem` | app/src/main/kotlin/org/stypox/dicio/skills/checklist/ChecklistInteractionSkill.kt:29-33 | on a run in progress whose current item exists, Complete leaves that item COMPLETED, stamped now unless it already was |
| `InteractionLemmas.SkipMarksCurrentItemOrAsksItAgain` | app/src/main/kotlin/org/stypox/dicio/skills/checklist/ChecklistInteractionSkill.kt:35-39 | on a run in progress whose current item exists, Skip leaves that item SKIPPED or asks it again at once, and the run stays in progress; an item not yet SKIPPED is asked again exactly when every other item is COMPLETED; an item already SKIPPED is not marked and is asked again |
| `ElapsedTime.Quot` | app/src/main/kotlin/org/stypox/dicio/skills/checklist/ChecklistInteractionSkill.kt:183-188 | Kotlin's integer `/`: the quotient truncated toward zero |
| `ElapsedTime.Rem` | app/src/main/kotlin/org/stypox/dicio/skills/checklist/ChecklistInteractionSkill.kt:184-188 | Kotlin's integer `%`: quotient times divisor plus remainder is the dividend, and the remainder has the dividend's sign and is smaller than the divisor |
| `ElapsedTime.RenderDuration` | app/src/main/kotlin/org/stypox/dicio/skills/checklist/ChecklistInteractionSkill.kt:182-191 | from one day: days and hours of the day; from one hour: hours and the minutes `% 24`; from one minute: minutes and seconds of the minute; below: the seconds alone |
| `ElapsedTime.SplitDuration` | app/src/main/kotlin/org/stypox/dicio/skills/checklist/ChecklistInteractionSkill.kt:182-191 | the unit pair is chosen by the largest unit of which one whole unit elapsed; seconds alone below a minute |
| `ElapsedTime.SplitDurationExactOutsideHours` | app/src/main/kotlin/org/stypox/dicio/skills/checklist/ChecklistInteractionSkill.kt:182-191 | outside the hours branch the spoken pair is the duration truncated to its smaller unit |
| `ElapsedTime.HoursBranchDropsMinutes` | app/src/main/kotlin/org/stypox/dicio/skills/checklist/ChecklistInteractionSkill.kt:186 | 5400 s is spoken "1 hours 18 minutes", which is not the truncated duration |
| `ElapsedTime.SplitDurationIntended` | app/src/main/kotlin/org/stypox/dicio/skills/checklist/ChecklistInteractionSkill.kt:182-191 | with minutes `% 60` the spoken pair is always the duration truncated to its smaller unit |
| `ChecklistSkill.ClosestAmong` | app/src/main/kotlin/org/stypox/dicio/skills/checklist/ChecklistSkill.kt:93-97 | the scan of `minByOrNull`: an index in range with its distance, minimal, and strictly below every earlier one |
| `ChecklistSkill.FindChecklistByName` | app/src/main/kotlin/org/stypox/dicio/skills/checklist/ChecklistSkill.kt:93-97 | on a non-empty list: the first index of minimum distance, and that distance |
| `ChecklistSkill.StartAt` | app/src/main/kotlin/org/stypox/dicio/skills/checklist/ChecklistSkill.kt:67-72 | only the started checklist is replaced, by the `startChecklist` result, and it becomes the last used |
| `ChecklistSkill.StartTurn` | app/src/main/kotlin/org/stypox/dicio/skills/checklist/ChecklistSkill.kt:27-74 | no checklists: explanatory answer; blank name: last used if in range, else "I don't know which checklist you want."; a name: start only on negative distance, else a confirmation naming the closest; every non-start leaves the collection unchanged |
| `ChecklistSkill.GenerateOutput` | app/src/main/kotlin/org/stypox/dicio/skills/checklist/ChecklistSkill.kt:22-79 | the imperative Start handling equals `StartTurn` |
| `ChecklistSkill.ConfirmTurn` | app/src/main/kotlin/org/stypox/dicio/skills/checklist/ChecklistSkill.kt:46-60 | yes starts the candidate as a direct start does (fails if it no longer exists); no answers without change, continuation or listening |
| `ChecklistSkill.ConfirmStart` | app/src/main/kotlin/org/stypox/dicio/skills/checklist/ChecklistSkill.kt:46-60 | the imperative yes/no handler equals `ConfirmTurn` |
| `ChecklistSkill.NamedStartConfirmsUnlessNegative` | app/src/main/kotlin/org/stypox/dicio/skills/checklist/ChecklistSkill.kt:39-65 | with a never-negative distance a named start always asks and changes nothing |
| `ChecklistSkill.ConfirmedStartMatchesDirectStart` | app/src/main/kotlin/org/stypox/dicio/skills/checklist/ChecklistSkill.kt:43-57 | the question names the closest checklist, and yes performs exactly the direct-start update on it |
| `ListOps.RemoveAt` | app/src/main/kotlin/org/stypox/dicio/skills/checklist/ChecklistSettingsViewModel.kt:43 | removes exactly the element at the index, keeping the others in order (multiset minus that element); past the end removes nothing |
| `ListOps.SwapAdjacent` | app/src/main/kotlin/org/stypox/dicio/skills/checklist/ChecklistSettingsScreen.kt:321-326 | exchanges positions i and i+1, touches no other position, keeps length and multiset |
| `ListOps.SwapAdjacentInvolution` | app/src/main/kotlin/org/stypox/dicio/skills/checklist/ChecklistSettingsScreen.kt:319-360 | swapping the same pair twice (move down, then move up) restores the list |
| `SettingsViewModel.MergeImport` | app/src/main/kotlin/org/stypox/dicio/skills/checklist/ChecklistSettingsViewModel.kt:76-81 | existing checklists first, loaded ones after; the shifted last-used index names the same imported checklist |
| `SettingsViewModel.ChecklistSettingsViewModel.constructor` | app/src/main/kotlin/org/stypox/dicio/skills/checklist/ChecklistSettingsViewModel.kt:25-27 | the view model holds the stored collection |
| `SettingsViewModel.ChecklistSettingsViewModel.AddChecklist` | app/src/main/kotlin/org/stypox/dicio/skills/checklist/ChecklistSettingsViewModel.kt:29-35 | appended at the end; length +1; earlier checklists and the last-used index unchanged |
| `SettingsViewModel.ChecklistSettingsViewModel.ReplaceChecklist` | app/src/main/kotlin/org/stypox/dicio/skills/checklist/ChecklistSettingsViewModel.kt:37-47 | a checklist replaces only position i (not applied past the end); none removes exactly position i |
| `SettingsViewModel.ChecklistSettingsViewModel.ImportChecklists` | app/src/main/kotlin/org/stypox/dicio/skills/checklist/ChecklistSettingsViewModel.kt:65-87 | a failed read or parse is reported and changes nothing; otherwise the store becomes `MergeImport` of the old store and the loaded one |
| `SettingsScreen.ChecklistEditor.constructor` | app/src/main/kotlin/org/stypox/dicio/skills/checklist/ChecklistSettingsScreen.kt:159-168 | no dialog open, no delete pending |
| `SettingsScreen.ChecklistEditor.OpenItem` | app/src/main/kotlin/org/stypox/dicio/skills/checklist/ChecklistSettingsScreen.kt:230-237 | tapping item i opens its edit dialog |
| `SettingsScreen.ChecklistEditor.CloseDialog` | app/src/main/kotlin/org/stypox/dicio/skills/checklist/ChecklistSettingsScreen.kt:279-309 | cancel or dismiss closes the dialog and leaves the checklist unchanged |
| `SettingsScreen.ChecklistEditor.MoveDown` | app/src/main/kotlin/org/stypox/dicio/skills/checklist/ChecklistSettingsScreen.kt:319-328 | below the last item: swaps i and i+1 and the selection follows to i+1; otherwise nothing changes; multiset kept |
| `SettingsScreen.ChecklistEditor.MoveUp` | app/src/main/kotlin/org/stypox/dicio/skills/checklist/ChecklistSettingsScreen.kt:351-360 | above the first item: swaps i and i-1 and the selection follows to i-1; otherwise nothing changes; multiset kept |
| `SettingsScreen.ChecklistEditor.RequestDeleteItem` | app/src/main/kotlin/org/stypox/dicio/skills/checklist/ChecklistSettingsScreen.kt:394 | Delete in the edit dialog only asks for confirmation |
| `SettingsScreen.ChecklistEditor.ConfirmDeleteItem` | app/src/main/kotlin/org/stypox/dicio/skills/checklist/ChecklistSettingsScreen.kt:283-292 | removes exactly the open item, others in order; the dialog closes |
| `SettingsScreen.ChecklistEditor.RenameItem` | app/src/main/kotlin/org/stypox/dicio/skills/checklist/ChecklistSettingsScreen.kt:401-410 | only the open item's name changes; its state and time and all other items are kept; the dialog closes |
| `SettingsScreen.ChecklistEditor.AddItem` | app/src/main/kotlin/org/stypox/dicio/skills/checklist/ChecklistSettingsScreen.kt:420-426 | one default item appended; the selection becomes the new last index and its dialog is shown (index below the count) |
| `SettingsScreen.ChecklistEditor.RenameChecklist` | app/src/main/kotlin/org/stypox/dicio/skills/checklist/ChecklistSettingsScreen.kt:185-195 | only the checklist's name changes |
| `Text.IsBlank` | app/src/main/kotlin/org/stypox/dicio/skills/checklist/ChecklistSkill.kt:31 | the empty text is blank (and whitespace means the JVM's set, no-break spaces included) |
| `Text.IsBlankAppend` | app/src/main/kotlin/org/stypox/dicio/skills/checklist/ChecklistSkill.kt:31 | a text is blank exactly when both of its parts are |
| `Text.NoBreakSpacesAreBlank` | app/src/main/kotlin/org/stypox/dicio/skills/checklist/ChecklistInteractionSkill.kt:127-143 | a name of no-break spaces U+00A0, U+2007, U+202F is blank, as is one of space and tab; " x " is not |
| `Text.IfEmpty` | app/src/main/kotlin/org/stypox/dicio/skills/checklist/ChecklistInteractionSkill.kt:157-158 | the empty text is replaced by the fallback; any other text is kept |
| `Text.IntToDecimal` | app/src/main/kotlin/org/stypox/dicio/skills/checklist/ChecklistInteractionSkill.kt:184-190 | a Long in a template: digits, with a leading minus sign exactly for a negative number |
| `Text.NatToDecimal` | app/src/main/kotlin/org/stypox/dicio/skills/checklist/ChecklistInteractionSkill.kt:141 | the number in a template is a non-empty digit string without leading zero |
| `Text.NatToDecimalRoundTrip` | app/src/main/kotlin/org/stypox/dicio/skills/checklist/ChecklistInteractionSkill.kt:141 | the spoken item number reads back as the number |
| `Text.IntToDecimalRoundTrip` | app/src/main/kotlin/org/stypox/dicio/skills/checklist/ChecklistInteractionSkill.kt:184-190 | the spoken duration numbers, negative ones included, read back as the numbers |
| `Text.IfBlank` | app/src/main/kotlin/org/stypox/dicio/skills/checklist/ChecklistInteractionSkill.kt:127-143 | a blank (whitespace-only) item name is replaced by the fallback text |

## Findings

| source | as written | input that shows it | evidently intended | confidence | as-written member | corrected member |
|---|---|---|---|---|---|---|
| app/src/main/kotlin/org/stypox/dicio/skills/checklist/ChecklistInteractionSkill.kt:186 | in the hours branch the minutes are `toMinutes() % 24` | a run of 1 h 30 min (5400 s) is announced as "1 hours 18 minutes" | minutes of the hour, `toMinutes() % 60` ("1 hours 30 minutes") | not executed; high, the other branches use `% 24` for hours and `% 60` for seconds | `ElapsedTime.HoursBranchDropsMinutes` (on `ElapsedTime.SplitDuration`) | `ElapsedTime.SplitDurationIntended` |

The turn engine (`Advance`) keeps the rendering as written, so that its spoken text is the
app's. The corrected rendering is proved exact for all non-negative durations.

## Left out

- Compose rendering of the settings screen (cards, icons, texts, animations) and the main settings screen.
- Persistence: the DataStore file, the protobuf serializer and the corruption handler are library code. A collection that cannot be loaded is the empty default; the view model's constructor takes whatever was loaded.
- Export and JSON: `exportChecklists`, JSON printing and parsing, and content-resolver streams are I/O. An import is modelled from its already parsed result (`Option`).
- Sentence recognition: intents arrive already classified, and the start skill's only intent is Start. The "Internal error." fallback is not modelled; every modelled path sets an answer.
- Clock: time is the parameter `now` in whole epoch seconds. Nanoseconds are dropped. Within one turn, `markCurrentItem` and `advanceState` read the clock separately; the model gives both the same `now`.
- Time formatting and time zone: the parameter `formatTime`, an opaque function.
- String distance: the parameter `distance`, an opaque function; nothing is assumed about it.
- Concurrency: each `updateData` call is one atomic transform. Coroutine launching is not modelled. A settings callback may capture a stale checklist; the editor always edits the current one.
- Integer width: protobuf `int32` indexes are unbounded naturals. The 32-bit overflow of `loaded.executionLastChecklistIndex + checklists.size` is not modelled. Negative indexes, which only a hand-edited import could contain, are not modelled either.
- Unrecognised enum values of the stored states (the "Unknown State" texts of the screen) are not modelled.
- An exception inside an update leaves the store unchanged. The app then goes on to crash or report it; that part is not modelled. For a stale interaction index this is `None`, and for `ReplaceChecklist` past the end it is `applied == false`.
- ComponentEvaluator, DescribedImageView and SkillContextImpl are not part of this model: they are thread scheduling, view inflation and dependency wiring.
