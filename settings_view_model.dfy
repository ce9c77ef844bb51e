/**
 * The settings view model (`ChecklistSettingsViewModel`): the stored checklist collection and
 * the edits the settings screen sends to it. Each method is one atomic read-modify-write of
 * the store.
 */
module SettingsViewModel {
  import opened Wrappers
  import opened ChecklistData
  import opened ListOps

  /** The merge step of an import: the loaded checklists after the existing ones, and the
      loaded last-used index shifted by the number of checklists already there. */
  function MergeImport(stored: SkillSettingsChecklist, loaded: SkillSettingsChecklist): (r: SkillSettingsChecklist)
    ensures |r.checklists| == |stored.checklists| + |loaded.checklists|
    ensures r.checklists[..|stored.checklists|] == stored.checklists
    ensures r.checklists[|stored.checklists|..] == loaded.checklists
    ensures loaded.executionLastChecklistIndex < |loaded.checklists| ==>
      r.executionLastChecklistIndex < |r.checklists| &&
      r.checklists[r.executionLastChecklistIndex] == loaded.checklists[loaded.executionLastChecklistIndex]
  {
    SkillSettingsChecklist(stored.checklists + loaded.checklists,
                           loaded.executionLastChecklistIndex + |stored.checklists|)
  }

  class ChecklistSettingsViewModel {
    var checklists: seq<Checklist>
    var executionLastChecklistIndex: nat

    /** The stored value. */
    function Stored(): SkillSettingsChecklist
      reads this
    {
      SkillSettingsChecklist(checklists, executionLastChecklistIndex)
    }

    /** Opens the store holding `stored` (the empty default when the file was unreadable). */
    constructor (stored: SkillSettingsChecklist)
      ensures Stored() == stored
    {
      checklists := stored.checklists;
      executionLastChecklistIndex := stored.executionLastChecklistIndex;
    }

    /** `addChecklist`: appended at the end, everything before it unchanged. */
    method AddChecklist(checklist: Checklist)
      modifies this
      ensures checklists == old(checklists) + [checklist]
      ensures |checklists| == |old(checklists)| + 1
      ensures forall j :: 0 <= j < |old(checklists)| ==> checklists[j] == old(checklists[j])
      ensures executionLastChecklistIndex == old(executionLastChecklistIndex)
    {
      checklists := checklists + [checklist];
    }

    /**
     * `replaceChecklist`: a checklist replaces the one at `index`; none deletes it, the others
     * keeping their order. Replacing at an index past the end throws inside the update, which
     * is then not applied (`applied` is false).
     */
    method ReplaceChecklist(index: nat, checklist: Option<Checklist>) returns (applied: bool)
      modifies this
      ensures applied <==> checklist.None? || index < |old(checklists)|
      ensures executionLastChecklistIndex == old(executionLastChecklistIndex)
      ensures checklist.Some? && applied ==>
        checklists == old(checklists)[index := checklist.value] &&
        (forall j :: 0 <= j < |checklists| && j != index ==> checklists[j] == old(checklists[j]))
      ensures checklist.None? ==> checklists == RemoveAt(old(checklists), index)
      ensures !applied ==> checklists == old(checklists)
    {
      if checklist.Some? {
        if index >= |checklists| {
          return false;
        }
        checklists := checklists[index := checklist.value];
      } else {
        checklists := RemoveAt(checklists, index);
      }
      applied := true;
    }

    /**
     * `importChecklists` once the file is read and parsed: None when reading or parsing failed,
     * which is reported and leaves the store as it was.
     */
    method ImportChecklists(loaded: Option<SkillSettingsChecklist>) returns (errorReported: bool)
      modifies this
      ensures errorReported <==> loaded.None?
      ensures loaded.None? ==> Stored() == old(Stored())
      ensures loaded.Some? ==> Stored() == MergeImport(old(Stored()), loaded.value)
    {
      if loaded.None? {
        return true;
      }
      executionLastChecklistIndex := loaded.value.executionLastChecklistIndex + |checklists|;
      checklists := checklists + loaded.value.checklists;
      errorReported := false;
    }
  }
}
