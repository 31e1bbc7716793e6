/**
 * The capacity derivation of the resource form: from a work-location configuration,
 * a resource's leaves and hours per day, compute its available days, hours, man-day
 * capacity and, through the story-points table, its story points.
 */
module Capacity {
  import opened Optional
  import opened Configs
  import opened StoryPoints

  /** A resource record as the form holds it and the list stores it. */
  datatype Resource = Resource(
    resourceName: string,
    role: string,
    maxCapacityPerDay: int,
    workdaysPerSprint: int,
    leaves: int,
    availableDays: int,
    totalAvailableHours: int,
    totalAvailableCapacity: int,
    storyPoints: int)

  /** The form's contents while no configuration is selected. */
  const EmptyDraft := Resource("", "", 0, 0, 0, 0, 0, 0, 0)

  /**
   * `Math.round(hours / 8)` on integer hours: the nearest whole number of man-days,
   * a tie (hours ending in half a man-day) going up.
   */
  function RoundedManDays(hours: int): (r: int)
    ensures 8 * r - 4 <= hours < 8 * r + 4
  {
    (hours + 4) / 8
  }

  /** Row `k` is the row `find(m => m.days === days)` stops at. */
  predicate FirstMatchAt(mapping: seq<MappingRow>, days: int, k: int) {
    0 <= k < |mapping| && mapping[k].days == days &&
    forall j :: 0 <= j < k ==> mapping[j].days != days
  }

  /** The position of the first row whose `days` equals `days`, or `None` when no row does. */
  function FirstMatch(mapping: seq<MappingRow>, days: int): (r: Option<nat>)
    ensures r.Some? ==> FirstMatchAt(mapping, days, r.value)
    ensures r.None? ==> forall j :: 0 <= j < |mapping| ==> mapping[j].days != days
    decreases |mapping|
  {
    if mapping == [] then None
    else if mapping[0].days == days then Some(0)
    else
      match FirstMatch(mapping[1..], days)
      case Some(k) => Some(k + 1)
      case None => None
  }

  /** `mapping ? mapping.points : 0` after the `find`: exact match on days only, 0 when nothing matches. */
  function StoryPointsFor(mapping: seq<MappingRow>, capacity: int): (p: int)
    ensures forall k :: FirstMatchAt(mapping, capacity, k) ==> p == mapping[k].points
    ensures (forall j :: 0 <= j < |mapping| ==> mapping[j].days != capacity) ==> p == 0
  {
    match FirstMatch(mapping, capacity)
    case Some(k) => mapping[k].points
    case None => 0
  }

  /** With the default table, capacities 1 to 10 get their row's points and every other capacity 0. */
  lemma DefaultMappingLookup(capacity: int)
    ensures 1 <= capacity <= 10 ==> StoryPointsFor(DefaultMapping(), capacity) == DefaultMapping()[capacity - 1].points
    ensures !(1 <= capacity <= 10) ==> StoryPointsFor(DefaultMapping(), capacity) == 0
  {
  }

  /** The fields the user enters or the configuration supplies, as opposed to the derived four. */
  predicate SameInputs(a: Resource, b: Resource) {
    a.resourceName == b.resourceName && a.role == b.role &&
    a.maxCapacityPerDay == b.maxCapacityPerDay && a.workdaysPerSprint == b.workdaysPerSprint &&
    a.leaves == b.leaves
  }

  /**
   * The four derived fields are what the edit handler computes from the configuration,
   * the leaves and the hours per day: available days are the sprint's days less the leaves,
   * hours are days times hours per day, capacity is hours in rounded man-days of 8 hours,
   * and story points are looked up by that capacity.
   */
  predicate Derived(d: Resource, c: Config, mapping: seq<MappingRow>) {
    d.availableDays == c.availableDaysPerSprint - d.leaves &&
    d.totalAvailableHours == d.availableDays * d.maxCapacityPerDay &&
    d.totalAvailableCapacity == RoundedManDays(d.totalAvailableHours) &&
    d.storyPoints == StoryPointsFor(mapping, d.totalAvailableCapacity)
  }

  /** The effect run when a configuration is selected: a blank draft seeded from it, story points looked up. */
  function SeededDraft(c: Config, mapping: seq<MappingRow>): (d: Resource)
    ensures d.resourceName == "" && d.role == ""
    ensures d.maxCapacityPerDay == c.defaultWorkingHoursPerDay
    ensures d.workdaysPerSprint == c.availableDaysPerSprint
    ensures d.leaves == c.publicHolidays
    ensures d.availableDays == c.availableDaysPerSprint - c.publicHolidays
    ensures Derived(d, c, mapping)
  {
    var draft := Resource(
      "", "",
      c.defaultWorkingHoursPerDay,
      c.availableDaysPerSprint,
      c.publicHolidays,
      c.availableDaysPerSprint - c.publicHolidays,
      (c.availableDaysPerSprint - c.publicHolidays) * c.defaultWorkingHoursPerDay,
      RoundedManDays((c.availableDaysPerSprint - c.publicHolidays) * c.defaultWorkingHoursPerDay),
      0);
    draft.(storyPoints := StoryPointsFor(mapping, draft.totalAvailableCapacity))
  }

  /**
   * The draft the form resets to after a submit: seeded like `SeededDraft`, but its story
   * points are left at 0 instead of being looked up.
   */
  function ResetDraft(c: Config): (d: Resource)
    ensures d.storyPoints == 0
    ensures forall mapping :: SeededDraft(c, mapping) == d.(storyPoints := SeededDraft(c, mapping).storyPoints)
  {
    Resource(
      "", "",
      c.defaultWorkingHoursPerDay,
      c.availableDaysPerSprint,
      c.publicHolidays,
      c.availableDaysPerSprint - c.publicHolidays,
      (c.availableDaysPerSprint - c.publicHolidays) * c.defaultWorkingHoursPerDay,
      RoundedManDays((c.availableDaysPerSprint - c.publicHolidays) * c.defaultWorkingHoursPerDay),
      0)
  }

  /** The reset draft keeps its derived fields consistent exactly when its capacity looks up 0 points. */
  lemma ResetDraftDerivedIff(c: Config, mapping: seq<MappingRow>)
    ensures Derived(ResetDraft(c), c, mapping) <==> StoryPointsFor(mapping, ResetDraft(c).totalAvailableCapacity) == 0
  {
  }

  /** Recomputes the four derived fields from the inputs; the inputs themselves are kept. */
  function Rederive(d: Resource, c: Config, mapping: seq<MappingRow>): (r: Resource)
    ensures SameInputs(r, d)
    ensures Derived(r, c, mapping)
  {
    var availableDays := c.availableDaysPerSprint - d.leaves;
    var hours := availableDays * d.maxCapacityPerDay;
    var capacity := RoundedManDays(hours);
    d.(availableDays := availableDays, totalAvailableHours := hours,
       totalAvailableCapacity := capacity, storyPoints := StoryPointsFor(mapping, capacity))
  }

  /** The inputs determine the derived fields: two consistent records with the same inputs are equal. */
  lemma DerivedFieldsDetermined(a: Resource, b: Resource, c: Config, mapping: seq<MappingRow>)
    requires SameInputs(a, b) && Derived(a, c, mapping) && Derived(b, c, mapping)
    ensures a == b
  {
  }

  /** Selecting a configuration seeds the same record as re-deriving its reset draft. */
  lemma SeedIsRederivedReset(c: Config, mapping: seq<MappingRow>)
    ensures SeededDraft(c, mapping) == Rederive(ResetDraft(c), c, mapping)
  {
  }

  /** One input of the resource form, with the value typed into it. */
  datatype ResourceEdit =
    | ResourceName(text: string)
    | Role(text: string)
    | MaxCapacityPerDay(value: int)
    | Leaves(value: int)
  {
    /** Edits of these two inputs re-derive the capacity fields. */
    predicate Rederives() {
      MaxCapacityPerDay? || Leaves?
    }
  }

  /** `{...formData, [name]: value}`: the named field takes the new value, every other field keeps its own. */
  function EditField(d: Resource, e: ResourceEdit): (r: Resource)
    ensures r.resourceName == (if e.ResourceName? then e.text else d.resourceName)
    ensures r.role == (if e.Role? then e.text else d.role)
    ensures r.maxCapacityPerDay == (if e.MaxCapacityPerDay? then e.value else d.maxCapacityPerDay)
    ensures r.leaves == (if e.Leaves? then e.value else d.leaves)
    ensures r.workdaysPerSprint == d.workdaysPerSprint
    ensures r.availableDays == d.availableDays && r.totalAvailableHours == d.totalAvailableHours
    ensures r.totalAvailableCapacity == d.totalAvailableCapacity && r.storyPoints == d.storyPoints
  {
    match e
    case ResourceName(t) => d.(resourceName := t)
    case Role(t) => d.(role := t)
    case MaxCapacityPerDay(n) => d.(maxCapacityPerDay := n)
    case Leaves(n) => d.(leaves := n)
  }

  /**
   * The resource form's edit handler on values. `None` when the edit does not take effect:
   * leaves below the configuration's public holidays are refused, and an edit of the leaves
   * or the hours per day with no configuration selected stops at the null dereference
   * before the draft is stored. Otherwise the new draft, re-derived when the edit was to
   * the leaves or the hours per day.
   */
  function ChangeDraft(d: Resource, selected: Option<Config>, mapping: seq<MappingRow>, e: ResourceEdit): (r: Option<Resource>)
    ensures r.None? <==> (e.Rederives() && selected.None?) || (e.Leaves? && selected.Some? && e.value < selected.value.publicHolidays)
    ensures r.Some? && e.Rederives() ==> selected.Some? && SameInputs(r.value, EditField(d, e)) && Derived(r.value, selected.value, mapping)
    ensures r.Some? && !e.Rederives() ==> r.value == EditField(d, e)
  {
    if e.Rederives() && selected.None? then None
    else if e.Leaves? && e.value < selected.value.publicHolidays then None
    else if e.Rederives() then Some(Rederive(EditField(d, e), selected.value, mapping))
    else Some(EditField(d, e))
  }

  /** Every accepted edit leaves a draft whose derived fields are consistent, if they were before. */
  lemma ChangeKeepsDerived(d: Resource, c: Config, mapping: seq<MappingRow>, e: ResourceEdit)
    requires Derived(d, c, mapping)
    requires ChangeDraft(d, Some(c), mapping, e).Some?
    ensures Derived(ChangeDraft(d, Some(c), mapping, e).value, c, mapping)
  {
  }

  /** Repeating an accepted edit changes nothing further. */
  lemma ChangeIdempotent(d: Resource, selected: Option<Config>, mapping: seq<MappingRow>, e: ResourceEdit)
    requires ChangeDraft(d, selected, mapping, e).Some?
    ensures ChangeDraft(ChangeDraft(d, selected, mapping, e).value, selected, mapping, e) == ChangeDraft(d, selected, mapping, e)
  {
  }

  /** Setting the leaves back to the public holidays on a seeded draft gives the seeded draft again. */
  lemma LeavesAtHolidaysReseeds(c: Config, mapping: seq<MappingRow>)
    ensures ChangeDraft(SeededDraft(c, mapping), Some(c), mapping, Leaves(c.publicHolidays)) == Some(SeededDraft(c, mapping))
  {
  }

  /** A configuration of 10 days, 8 hours per day and 1 public holiday. */
  const TenDaysOneHoliday := Config("Office", 10, 8, 1)

  /** Selecting it: 9 available days, 72 hours, 9 man-days, 8 story points with the default table. */
  lemma SeededScenario()
    ensures var d := SeededDraft(TenDaysOneHoliday, DefaultMapping());
            d.leaves == 1 && d.availableDays == 9 && d.totalAvailableHours == 72 &&
            d.totalAvailableCapacity == 9 && d.storyPoints == 8
  {
  }

  /** Then entering 2 leaves: 8 available days (the holiday is not subtracted again), 64 hours, 8 man-days, 8 points. */
  lemma LeavesEditScenario()
    ensures var r := ChangeDraft(SeededDraft(TenDaysOneHoliday, DefaultMapping()), Some(TenDaysOneHoliday), DefaultMapping(), Leaves(2));
            r.Some? && r.value.availableDays == 8 && r.value.totalAvailableHours == 64 &&
            r.value.totalAvailableCapacity == 8 && r.value.storyPoints == 8
  {
    DefaultMappingLookup(8);
  }

  /** Entering 0 leaves with 1 public holiday is rejected. */
  lemma LeavesBelowHolidaysScenario(d: Resource)
    ensures ChangeDraft(d, Some(TenDaysOneHoliday), DefaultMapping(), Leaves(0)).None?
  {
  }

  /** With 0 hours per day there is no division by zero: 0 hours, 0 man-days, 0 points. */
  lemma ZeroHoursScenario()
    ensures var d := SeededDraft(Config("Remote", 10, 0, 1), DefaultMapping());
            d.totalAvailableHours == 0 && d.totalAvailableCapacity == 0 && d.storyPoints == 0
  {
  }

  /** A capacity of 12 man-days has no row in the default table and scores 0 points. */
  lemma UnmappedCapacityScenario()
    ensures var d := SeededDraft(Config("Long sprint", 12, 8, 0), DefaultMapping());
            d.totalAvailableCapacity == 12 && d.storyPoints == 0
  {
    DefaultMappingLookup(12);
  }

  /** After a submit the reset draft of the same configuration shows 0 points although its 9 man-days look up 8. */
  lemma ResetScenario()
    ensures var d := ResetDraft(TenDaysOneHoliday);
            d.totalAvailableCapacity == 9 && d.storyPoints == 0 &&
            StoryPointsFor(DefaultMapping(), 9) == 8 && !Derived(d, TenDaysOneHoliday, DefaultMapping())
  {
  }
}
