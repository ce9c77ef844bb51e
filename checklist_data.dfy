/**
 * The persisted records of the checklist skill: a collection of checklists, each an ordered
 * list of items with per-item and per-run execution progress. Timestamps are whole epoch
 * seconds.
 */
module ChecklistData {

  /** Progress of one run through a checklist. */
  datatype ChecklistState = NotStarted | InProgress | Complete

  /** Progress of one item within the current run. */
  datatype ItemState = NotAsked | Asked | Completed | Skipped

  datatype ChecklistItem = ChecklistItem(
    itemName: string,
    executionState: ItemState,
    executionLastChanged: int)

  datatype Checklist = Checklist(
    checklistName: string,
    items: seq<ChecklistItem>,
    executionState: ChecklistState,
    executionStartedAt: int,
    executionEndedAt: int,
    executionLastIndex: nat)

  /** The whole stored collection, with the index of the checklist used last. */
  datatype SkillSettingsChecklist = SkillSettingsChecklist(
    checklists: seq<Checklist>,
    executionLastChecklistIndex: nat)

  /** The default instances of the records: empty strings, first enum values, epoch 0. */
  const DefaultItem := ChecklistItem("", NotAsked, 0)
  const DefaultChecklist := Checklist("", [], NotStarted, 0, 0, 0)
}
