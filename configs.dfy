/**
 * Work-location configurations and the form that keeps their list: add, replace the
 * one being edited, load one into the form, remove by position.
 */
module Configs {
  import opened Optional
  import opened Positional

  /** The parameters of one work location. */
  datatype Config = Config(
    workLocation: string,
    availableDaysPerSprint: int,
    defaultWorkingHoursPerDay: int,
    publicHolidays: int)

  /** The form's contents when it is opened and after every submit. */
  const BlankConfig := Config("", 10, 8, 0)

  /** One input of the form, with the value typed into it. */
  datatype ConfigEdit =
    | WorkLocation(text: string)
    | AvailableDaysPerSprint(n: int)
    | DefaultWorkingHoursPerDay(n: int)
    | PublicHolidays(n: int)

  /** `{...formData, [name]: value}`: the named field takes the new value, every other field keeps its own. */
  function ApplyEdit(c: Config, e: ConfigEdit): (r: Config)
    ensures r.workLocation == (if e.WorkLocation? then e.text else c.workLocation)
    ensures r.availableDaysPerSprint == (if e.AvailableDaysPerSprint? then e.n else c.availableDaysPerSprint)
    ensures r.defaultWorkingHoursPerDay == (if e.DefaultWorkingHoursPerDay? then e.n else c.defaultWorkingHoursPerDay)
    ensures r.publicHolidays == (if e.PublicHolidays? then e.n else c.publicHolidays)
  {
    match e
    case WorkLocation(t) => c.(workLocation := t)
    case AvailableDaysPerSprint(n) => c.(availableDaysPerSprint := n)
    case DefaultWorkingHoursPerDay(n) => c.(defaultWorkingHoursPerDay := n)
    case PublicHolidays(n) => c.(publicHolidays := n)
  }

  /** Whether two edits target the same input. */
  predicate SameField(e1: ConfigEdit, e2: ConfigEdit) {
    (e1.WorkLocation? && e2.WorkLocation?) ||
    (e1.AvailableDaysPerSprint? && e2.AvailableDaysPerSprint?) ||
    (e1.DefaultWorkingHoursPerDay? && e2.DefaultWorkingHoursPerDay?) ||
    (e1.PublicHolidays? && e2.PublicHolidays?)
  }

  /** Typing into the same input twice keeps only the last value; edits of different inputs commute. */
  lemma EditsOverwriteOrCommute(c: Config, e1: ConfigEdit, e2: ConfigEdit)
    ensures SameField(e1, e2) ==> ApplyEdit(ApplyEdit(c, e1), e2) == ApplyEdit(c, e2)
    ensures !SameField(e1, e2) ==> ApplyEdit(ApplyEdit(c, e1), e2) == ApplyEdit(ApplyEdit(c, e2), e1)
  {
  }

  /** The configuration form: the stored list, the form's contents and the position being edited. */
  class ConfigForm {
    var configs: seq<Config>
    var formData: Config
    var editIndex: Option<nat>

    /** Starts from the stored list (empty when nothing is stored) with a blank form. */
    constructor (stored: Option<seq<Config>>)
      ensures configs == OrElse(stored, [])
      ensures formData == BlankConfig && editIndex == None
    {
      configs := OrElse(stored, []);
      formData := BlankConfig;
      editIndex := None;
    }

    /** Typing into one input changes that field of the form and nothing else. */
    method HandleChange(e: ConfigEdit)
      modifies this`formData
      ensures formData == ApplyEdit(old(formData), e)
    {
      formData := ApplyEdit(formData, e);
    }

    /** Stores the form (appended, or replacing the edited position), then resets the form. */
    method HandleSubmit()
      modifies this`configs, this`formData, this`editIndex
      ensures configs == SubmitRecord(old(configs), old(editIndex), old(formData))
      ensures old(editIndex).None? ==> |configs| == |old(configs)| + 1 && configs[..|old(configs)|] == old(configs)
      ensures old(editIndex).Some? ==> |configs| == |old(configs)|
      ensures formData == BlankConfig && editIndex == None
    {
      configs := SubmitRecord(configs, editIndex, formData);
      formData := BlankConfig;
      editIndex := None;
    }

    /** Loads the configuration at `index` into the form and remembers the position; the list is untouched. */
    method HandleEdit(index: nat)
      requires index < |configs|
      modifies this`formData, this`editIndex
      ensures formData == configs[index] && editIndex == Some(index)
    {
      formData := configs[index];
      editIndex := Some(index);
    }

    /** Drops the configuration at `index`; the form and the edit position are left as they were. */
    method HandleRemove(index: int)
      modifies this`configs
      ensures configs == RemoveAt(old(configs), index)
      ensures 0 <= index < |old(configs)| ==> configs == old(configs)[..index] + old(configs)[index + 1..]
    {
      configs := RemoveAt(configs, index);
    }
  }

  /** Removing position 0 of a two-element list leaves the former second element at position 0. */
  lemma RemoveFirstOfTwo(a: Config, b: Config)
    ensures RemoveAt([a, b], 0) == [b]
  {
  }
}
