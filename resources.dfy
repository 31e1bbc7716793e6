/**
 * The resource form: the stored list of resources, the draft being entered, the position
 * being edited and the selected configuration, with the handlers that change them.
 */
module Resources {
  import opened Optional
  import opened Positional
  import opened Configs
  import opened StoryPoints
  import opened Capacity

  class ResourceForm {
    var resources: seq<Resource>
    var formData: Resource
    var editIndex: Option<nat>
    var selectedConfigIndex: nat
    /** The stored configurations and table as the form reads them on each render. */
    var configs: seq<Config>
    var mapping: seq<MappingRow>

    /** `configs[selectedConfigIndex]`, absent when the index is outside the stored list. */
    function SelectedConfig(): Option<Config>
      reads this
    {
      if selectedConfigIndex < |configs| then Some(configs[selectedConfigIndex]) else None
    }

    /**
     * The form as it stands once mounted: the first configuration is selected and, when
     * there is one, the effect has seeded the draft from it.
     */
    constructor (storedResources: Option<seq<Resource>>, storedConfigs: seq<Config>, storedMapping: Option<seq<MappingRow>>)
      ensures resources == OrElse(storedResources, [])
      ensures configs == storedConfigs && mapping == MappingOrDefault(storedMapping)
      ensures selectedConfigIndex == 0 && editIndex == None
      ensures formData == if storedConfigs != [] then SeededDraft(storedConfigs[0], mapping) else EmptyDraft
    {
      resources := OrElse(storedResources, []);
      configs := storedConfigs;
      mapping := MappingOrDefault(storedMapping);
      selectedConfigIndex := 0;
      editIndex := None;
      // the `useState` initial value, which the mount effect replaces when a configuration exists
      formData := if storedConfigs != [] then ResetDraft(storedConfigs[0]) else EmptyDraft;
      if storedConfigs != [] {
        formData := SeededDraft(storedConfigs[0], MappingOrDefault(storedMapping));
      }
    }

    /**
     * A re-render after another form has stored new configurations or a new table: when
     * the selected configuration is now a different one, the effect re-seeds the draft.
     */
    method StorageChanged(newConfigs: seq<Config>, newStoredMapping: Option<seq<MappingRow>>)
      modifies this`configs, this`mapping, this`formData
      ensures configs == newConfigs && mapping == MappingOrDefault(newStoredMapping)
      ensures SelectedConfig().Some? && SelectedConfig() != old(SelectedConfig()) ==>
                formData == SeededDraft(SelectedConfig().value, mapping)
      ensures !(SelectedConfig().Some? && SelectedConfig() != old(SelectedConfig())) ==>
                formData == old(formData)
    {
      var before := SelectedConfig();
      configs := newConfigs;
      mapping := MappingOrDefault(newStoredMapping);
      var after := SelectedConfig();
      if after.Some? && after != before {
        formData := SeededDraft(after.value, mapping);
      }
    }

    /** Choosing another configuration in the drop-down selects it and re-seeds the draft from it. */
    method HandleConfigChange(index: nat)
      requires index < |configs|
      modifies this`selectedConfigIndex, this`formData
      ensures selectedConfigIndex == index
      ensures index != old(selectedConfigIndex) ==> formData == SeededDraft(configs[index], mapping)
      ensures index == old(selectedConfigIndex) ==> formData == old(formData)
    {
      var changed := index != selectedConfigIndex;
      selectedConfigIndex := index;
      if changed {
        formData := SeededDraft(configs[index], mapping);
      }
    }

    /**
     * Typing into one input. Leaves below the selected configuration's public holidays are
     * refused and the draft is left as it was; otherwise the field is set and, for the
     * leaves or the hours per day, the four derived fields are recomputed one after another.
     * With no configuration selected those two inputs throw before the draft is stored.
     */
    method HandleChange(e: ResourceEdit) returns (accepted: bool)
      modifies this`formData
      ensures accepted == ChangeDraft(old(formData), SelectedConfig(), mapping, e).Some?
      ensures accepted ==> formData == ChangeDraft(old(formData), SelectedConfig(), mapping, e).value
      ensures !accepted ==> formData == old(formData)
    {
      var selected := SelectedConfig();
      if e.Rederives() && selected.None? {
        return false;
      }
      if e.Leaves? && e.value < selected.value.publicHolidays {
        return false;
      }
      var updated := EditField(formData, e);
      if e.Rederives() {
        var c := selected.value;
        updated := updated.(availableDays := c.availableDaysPerSprint - updated.leaves);
        updated := updated.(totalAvailableHours := updated.availableDays * updated.maxCapacityPerDay);
        updated := updated.(totalAvailableCapacity := RoundedManDays(updated.totalAvailableHours));
        var found := FirstMatch(mapping, updated.totalAvailableCapacity);
        updated := updated.(storyPoints := if found.Some? then mapping[found.value].points else 0);
      }
      formData := updated;
      accepted := true;
    }

    /**
     * Stores the draft (appended, or replacing the edited position), then resets the draft
     * from the selected configuration and ends the edit. With no configuration selected
     * the list is still stored, but the reset throws: `completed` is false and the draft
     * and the edit position stay as they were.
     */
    method HandleSubmit() returns (completed: bool)
      modifies this`resources, this`formData, this`editIndex
      ensures resources == SubmitRecord(old(resources), old(editIndex), old(formData))
      ensures old(editIndex).None? ==> |resources| == |old(resources)| + 1 && resources[..|old(resources)|] == old(resources)
      ensures old(editIndex).Some? ==> |resources| == |old(resources)|
      ensures completed == SelectedConfig().Some?
      ensures completed ==> formData == ResetDraft(SelectedConfig().value) && editIndex == None
      ensures !completed ==> formData == old(formData) && editIndex == old(editIndex)
    {
      resources := SubmitRecord(resources, editIndex, formData);
      var selected := SelectedConfig();
      if selected.None? {
        return false;
      }
      formData := ResetDraft(selected.value);
      editIndex := None;
      completed := true;
    }

    /** Loads the resource at `index` into the draft and remembers the position; the list is untouched. */
    method HandleEdit(index: nat)
      requires index < |resources|
      modifies this`formData, this`editIndex
      ensures formData == resources[index] && editIndex == Some(index)
    {
      formData := resources[index];
      editIndex := Some(index);
    }

    /** Drops the resource at `index`; the draft and the edit position are left as they were. */
    method HandleRemove(index: int)
      modifies this`resources
      ensures resources == RemoveAt(old(resources), index)
      ensures 0 <= index < |old(resources)| ==> resources == old(resources)[..index] + old(resources)[index + 1..]
    {
      resources := RemoveAt(resources, index);
    }
  }
}
