/**
 * The item-edit callbacks of one checklist's card on the settings screen
 * (`ChecklistSettingsItem`): the checklist shown, which item's edit dialog is open, and
 * whether its delete confirmation is showing. Each edit sends the changed checklist to the
 * store; here it replaces `checklist`.
 */
module SettingsScreen {
  import opened Wrappers
  import opened ChecklistData
  import opened ListOps

  class ChecklistEditor {
    var checklist: Checklist
    var dialogOpenIndex: Option<nat>
    var attemptingItemDelete: bool

    /** The item dialog is shown only for an index below the item count. */
    predicate DialogShown()
      reads this
    {
      dialogOpenIndex.Some? && dialogOpenIndex.value < |checklist.items|
    }

    /** The edit dialog (move, rename, delete) as opposed to the delete confirmation. */
    predicate EditDialogShown()
      reads this
    {
      DialogShown() && !attemptingItemDelete
    }

    constructor (shown: Checklist)
      ensures checklist == shown && dialogOpenIndex == None && !attemptingItemDelete
    {
      checklist := shown;
      dialogOpenIndex := None;
      attemptingItemDelete := false;
    }

    /** A tap on item row `index`. */
    method OpenItem(index: nat)
      requires index < |checklist.items|
      modifies this
      ensures checklist == old(checklist) && dialogOpenIndex == Some(index) && !attemptingItemDelete
      ensures EditDialogShown()
    {
      dialogOpenIndex := Some(index);
      attemptingItemDelete := false;
    }

    /** Cancel or dismiss of either dialog: closes it, nothing is sent to the store. */
    method CloseDialog()
      modifies this
      ensures checklist == old(checklist) && dialogOpenIndex == None && !attemptingItemDelete
    {
      attemptingItemDelete := false;
      dialogOpenIndex := None;
    }

    /** Move Down: swaps the open item with the next one, when there is one, and follows it. */
    method MoveDown()
      requires EditDialogShown()
      modifies this
      ensures var i := old(dialogOpenIndex.value);
        if i < |old(checklist.items)| - 1 then
          checklist == old(checklist).(items := SwapAdjacent(old(checklist.items), i)) &&
          dialogOpenIndex == Some(i + 1)
        else checklist == old(checklist) && dialogOpenIndex == old(dialogOpenIndex)
      ensures multiset(checklist.items) == multiset(old(checklist.items))
      ensures attemptingItemDelete == old(attemptingItemDelete) && EditDialogShown()
    {
      var i := dialogOpenIndex.value;
      if i < |checklist.items| - 1 {
        var items := checklist.items;
        var current := items[i];
        items := items[i := items[i + 1]];
        items := items[i + 1 := current];
        checklist := checklist.(items := items);
        dialogOpenIndex := Some(i + 1);
      }
    }

    /** Move Up: swaps the open item with the previous one, when there is one, and follows it. */
    method MoveUp()
      requires EditDialogShown()
      modifies this
      ensures var i := old(dialogOpenIndex.value);
        if i > 0 then
          checklist == old(checklist).(items := SwapAdjacent(old(checklist.items), i - 1)) &&
          dialogOpenIndex == Some(i - 1)
        else checklist == old(checklist) && dialogOpenIndex == old(dialogOpenIndex)
      ensures multiset(checklist.items) == multiset(old(checklist.items))
      ensures attemptingItemDelete == old(attemptingItemDelete) && EditDialogShown()
    {
      var i := dialogOpenIndex.value;
      if i > 0 {
        var items := checklist.items;
        var current := items[i];
        items := items[i := items[i - 1]];
        items := items[i - 1 := current];
        checklist := checklist.(items := items);
        dialogOpenIndex := Some(i - 1);
      }
    }

    /** OK in the edit dialog: only the open item's name changes; the dialog closes. */
    method RenameItem(value: string)
      requires EditDialogShown()
      modifies this
      ensures var i := old(dialogOpenIndex.value);
        && checklist == old(checklist).(items := old(checklist.items)[i := old(checklist.items[i]).(itemName := value)])
        && checklist.items[i].executionState == old(checklist.items[i].executionState)
        && checklist.items[i].executionLastChanged == old(checklist.items[i].executionLastChanged)
      ensures dialogOpenIndex == None && attemptingItemDelete == old(attemptingItemDelete)
    {
      var i := dialogOpenIndex.value;
      checklist := checklist.(items := checklist.items[i := checklist.items[i].(itemName := value)]);
      dialogOpenIndex := None;
    }

    /** Delete in the edit dialog: asks for confirmation. */
    method RequestDeleteItem()
      requires EditDialogShown()
      modifies this
      ensures checklist == old(checklist) && dialogOpenIndex == old(dialogOpenIndex) && attemptingItemDelete
    {
      attemptingItemDelete := true;
    }

    /** Delete in the confirmation: the open item is removed, the others keep their order. */
    method ConfirmDeleteItem()
      requires DialogShown() && attemptingItemDelete
      modifies this
      ensures checklist == old(checklist).(items := RemoveAt(old(checklist.items), old(dialogOpenIndex.value)))
      ensures |checklist.items| == |old(checklist.items)| - 1
      ensures dialogOpenIndex == None && !attemptingItemDelete
    {
      checklist := checklist.(items := RemoveAt(checklist.items, dialogOpenIndex.value));
      attemptingItemDelete := false;
      dialogOpenIndex := None;
    }

    /** Add item: a default item at the end, whose edit dialog opens. */
    method AddItem()
      modifies this
      ensures checklist == old(checklist).(items := old(checklist.items) + [DefaultItem])
      ensures dialogOpenIndex == Some(|checklist.items| - 1) && !attemptingItemDelete
      ensures EditDialogShown()
    {
      var items := checklist.items + [DefaultItem];
      checklist := checklist.(items := items);
      dialogOpenIndex := Some(|items| - 1);
      attemptingItemDelete := false;
    }

    /** The checklist name setting: only the name changes. */
    method RenameChecklist(newName: string)
      modifies this
      ensures checklist == old(checklist).(checklistName := newName)
      ensures dialogOpenIndex == old(dialogOpenIndex) && attemptingItemDelete == old(attemptingItemDelete)
    {
      checklist := checklist.(checklistName := newName);
    }
  }
}
