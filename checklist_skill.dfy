/**
 * The skill that starts a checklist (`ChecklistSkill`): with no name it resumes the checklist
 * used last, with a spoken name it looks up the closest checklist name and, unless the match
 * is certain, asks for a yes/no confirmation first.
 *
 * The string distance of the app's string utilities is the parameter `distance`; nothing is
 * assumed about it.
 */
module ChecklistSkill {
  import opened Wrappers
  import opened Text
  import opened ChecklistData
  import opened ChecklistOutput
  import opened InteractionSkill

  /**
   * The `minByOrNull` scan over the first `n` checklists: the first index of minimal distance
   * between `name` and a checklist name, with that distance.
   */
  function ClosestAmong(checklists: seq<Checklist>, name: string, distance: (string, string) -> int, n: nat)
    : (r: (nat, int))
    requires 0 < n <= |checklists|
    ensures r.0 < n && r.1 == distance(name, checklists[r.0].checklistName)
    ensures forall j :: 0 <= j < n ==> r.1 <= distance(name, checklists[j].checklistName)
    ensures forall j :: 0 <= j < r.0 ==> r.1 < distance(name, checklists[j].checklistName)
  {
    if n == 1 then (0, distance(name, checklists[0].checklistName))
    else
      var best := ClosestAmong(checklists, name, distance, n - 1);
      var last := distance(name, checklists[n - 1].checklistName);
      if best.1 > last then (n - 1, last) else best
  }

  /** `findChecklistByName`: defined on a non-empty collection only (`!!` of the source). */
  function FindChecklistByName(checklists: seq<Checklist>, name: string, distance: (string, string) -> int)
    : (r: (nat, int))
    requires |checklists| > 0
    ensures r.0 < |checklists| && r.1 == distance(name, checklists[r.0].checklistName)
    ensures forall j :: 0 <= j < |checklists| ==> r.1 <= distance(name, checklists[j].checklistName)
    ensures forall j :: 0 <= j < r.0 ==> r.1 < distance(name, checklists[j].checklistName)
  {
    ClosestAmong(checklists, name, distance, |checklists|)
  }

  /**
   * Starting checklist `index`: it alone is replaced by the `startChecklist` result and it
   * becomes the checklist used last.
   */
  function StartAt(s: SkillSettingsChecklist, index: nat, now: int, formatTime: int -> string): (r: Turn)
    requires index < |s.checklists|
    ensures |r.settings.checklists| == |s.checklists|
    ensures r.settings.executionLastChecklistIndex == index
    ensures (r.output, r.settings.checklists[index]) == Start(index, s.checklists[index], "", now, formatTime)
    ensures forall j :: 0 <= j < |s.checklists| && j != index ==> r.settings.checklists[j] == s.checklists[j]
  {
    var (output, started) := Start(index, s.checklists[index], "", now, formatTime);
    Turn(output, s.(checklists := s.checklists[index := started], executionLastChecklistIndex := index))
  }

  /**
   * `generateOutput` for the Start intent, `list` being the spoken checklist name if any.
   * Every answer that does not start a checklist leaves the collection as it was.
   */
  function StartTurn(s: SkillSettingsChecklist, list: Option<string>, now: int,
                     distance: (string, string) -> int, formatTime: int -> string): (r: Turn)
    ensures |s.checklists| == 0 ==>
      r == Turn(Output("You haven't defined any checklists.", None, false), s)
    ensures |s.checklists| > 0 && (list.None? || IsBlank(list.value)) ==>
      if s.executionLastChecklistIndex < |s.checklists| then r == StartAt(s, s.executionLastChecklistIndex, now, formatTime)
      else r == Turn(Output("I don't know which checklist you want.", None, false), s)
    ensures |s.checklists| > 0 && list.Some? && !IsBlank(list.value) ==>
      var (index, dist) := FindChecklistByName(s.checklists, list.value, distance);
      if dist < 0 then r == StartAt(s, index, now, formatTime)
      else r == Turn(StartConfirmation("Do you want to start the " + s.checklists[index].checklistName + " checklist?", index), s)
    ensures r.settings != s ==> r.settings.executionLastChecklistIndex < |s.checklists|
  {
    if |s.checklists| == 0 then
      Turn(Output("You haven't defined any checklists.", None, false), s)
    else if list.None? || IsBlank(list.value) then
      if s.executionLastChecklistIndex < |s.checklists| then StartAt(s, s.executionLastChecklistIndex, now, formatTime)
      else Turn(Output("I don't know which checklist you want.", None, false), s)
    else
      var (index, dist) := FindChecklistByName(s.checklists, list.value, distance);
      if dist < 0 then StartAt(s, index, now, formatTime)
      else Turn(StartConfirmation("Do you want to start the " + s.checklists[index].checklistName + " checklist?", index), s)
  }

  method GenerateOutput(s: SkillSettingsChecklist, list: Option<string>, now: int,
                        distance: (string, string) -> int, formatTime: int -> string) returns (r: Turn)
    ensures r == StartTurn(s, list, now, distance, formatTime)
  {
    if |s.checklists| == 0 {
      return Turn(Output("You haven't defined any checklists.", None, false), s);
    }
    var checklistIndex: Option<nat>;
    var output: ChecklistSkillOutput := Output("Internal error.", None);
    if list.None? || IsBlank(list.value) {
      if s.executionLastChecklistIndex < |s.checklists| {
        checklistIndex := Some(s.executionLastChecklistIndex);
      } else {
        output := Output("I don't know which checklist you want.", None, false);
        checklistIndex := None;
      }
    } else {
      var (index, dist) := FindChecklistByName(s.checklists, list.value, distance);
      if dist < 0 {
        checklistIndex := Some(index);
      } else {
        output := StartConfirmation("Do you want to start the " + s.checklists[index].checklistName + " checklist?", index);
        checklistIndex := None;
      }
    }
    var settings := s;
    if checklistIndex.Some? {
      var index := checklistIndex.value;
      var started;
      output, started := StartChecklist(index, s.checklists[index], "", now, formatTime);
      settings := settings.(checklists := settings.checklists[index := started], executionLastChecklistIndex := index);
    }
    r := Turn(output, settings);
  }

  /**
   * The yes/no answer to "Do you want to start ...?", against the collection as stored when
   * the answer comes. Yes starts the candidate as a direct start would (None when it no longer
   * exists: the update throws and nothing is written); no only answers and ends the talk.
   */
  function ConfirmTurn(s: SkillSettingsChecklist, candidate: nat, yes: bool, now: int, formatTime: int -> string)
    : (r: Option<Turn>)
    ensures yes ==> (r.Some? <==> candidate < |s.checklists|)
    ensures yes && candidate < |s.checklists| ==> r == Some(StartAt(s, candidate, now, formatTime))
    ensures !yes ==> r == Some(Turn(Output("Okay, I don't know which checklist you want.", None, false), s))
    ensures !yes ==> r.value.output.NextSkills() == [] && !r.value.output.KeepListening()
  {
    if yes then
      if candidate < |s.checklists| then Some(StartAt(s, candidate, now, formatTime)) else None
    else Some(Turn(Output("Okay, I don't know which checklist you want.", None, false), s))
  }

  method ConfirmStart(s: SkillSettingsChecklist, candidate: nat, yes: bool, now: int, formatTime: int -> string)
    returns (r: Option<Turn>)
    ensures r == ConfirmTurn(s, candidate, yes, now, formatTime)
  {
    if !yes {
      return Some(Turn(Output("Okay, I don't know which checklist you want.", None, false), s));
    }
    if candidate >= |s.checklists| {
      return None;
    }
    var output, started := StartChecklist(candidate, s.checklists[candidate], "", now, formatTime);
    r := Some(Turn(output, s.(checklists := s.checklists[candidate := started], executionLastChecklistIndex := candidate)));
  }

  /**
   * Starting by name goes ahead without asking only on a negative distance: with a distance
   * that is never negative, every named start asks for confirmation and changes nothing.
   */
  lemma NamedStartConfirmsUnlessNegative(s: SkillSettingsChecklist, name: string, now: int,
                                         distance: (string, string) -> int, formatTime: int -> string)
    requires |s.checklists| > 0 && !IsBlank(name)
    requires forall a: string, b: string :: distance(a, b) >= 0
    ensures StartTurn(s, Some(name), now, distance, formatTime).settings == s
    ensures StartTurn(s, Some(name), now, distance, formatTime).output.StartConfirmation?
  {
    var (index, dist) := FindChecklistByName(s.checklists, name, distance);
    assert dist == distance(name, s.checklists[index].checklistName);
  }

  /** Confirming with yes performs exactly the update of a direct start of the candidate, and
      the candidate the question names is the one a yes starts. */
  lemma ConfirmedStartMatchesDirectStart(s: SkillSettingsChecklist, name: string, now: int, later: int,
                                         distance: (string, string) -> int, formatTime: int -> string)
    requires |s.checklists| > 0 && !IsBlank(name)
    requires StartTurn(s, Some(name), now, distance, formatTime).output.StartConfirmation?
    ensures
      var asked := StartTurn(s, Some(name), now, distance, formatTime);
      var candidate := asked.output.candidate;
      && candidate == FindChecklistByName(s.checklists, name, distance).0
      && ConfirmTurn(asked.settings, candidate, true, later, formatTime) == Some(StartAt(s, candidate, later, formatTime))
  {
  }
}
