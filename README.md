# Sprint planner: resource capacity model

A Dafny model of the three forms of a browser-based sprint planning tool.

- The configuration form keeps a list of work-location configurations. Each one has days per sprint, hours per day and public holidays.
- The story-points form keeps a table that maps man-days to story points. When nothing is stored it starts from a 10-row default.
- The resource form keeps a roster of resources. For each one it derives available days, total hours, man-day capacity and story points from the selected configuration and the table.

All three forms identify records by position. A submit either appends the form's contents or replaces the position being edited. A remove filters out one position.

Modules, one per component plus one for the shared list operations:

- `Positional` (positional.dfy): `MapAt`, `ReplaceAt` and `RemoveAt` are the `map`/`filter` forms the components use. `SubmitRecord` is submit's append-or-replace.
- `Configs` (configs.dfy): the `Config` record and the `ConfigForm` class.
- `StoryPoints` (story_points.dfy): `MappingRow`, the default table, the cell update and the `StoryPointsForm` class.
- `Capacity` (capacity.dfy): the `Resource` record and the derivation as pure functions.
  - `RoundedManDays` is `Math.round(hours / 8)`.
  - `FirstMatch` and `StoryPointsFor` are the `find` over the table.
  - `SeededDraft` is the selection effect and `ResetDraft` is the post-submit reset.
  - `Rederive` and `ChangeDraft` are the edit handler.
  - `Derived` states the consistency of the four derived fields.
- `Resources` (resources.dfy): the `ResourceForm` class. Its handler methods update `resources`, `formData`, `editIndex` and `selectedConfigIndex`. `HandleChange` recomputes the derived fields one by one, as the component does, and is proved equal to `ChangeDraft`.

`Math.round(h / 8)` on an integer `h` is modelled as `(h + 4) / 8` with floor division. This rounds a tie up, which is what JavaScript's `Math.round` does. The contract states it as `8r - 4 <= h < 8r + 4`.

Behaviours of the code worth stating:

- `leaves` is seeded with the configuration's `publicHolidays` (src/components/ResourceForm.tsx:55).
- After an edit, available days are `availableDaysPerSprint - leaves`. Public holidays are not subtracted a second time (src/components/ResourceForm.tsx:84).
- Hours become man-days by dividing by the literal 8, whatever the configuration's `defaultWorkingHoursPerDay`. So a configuration with 0 hours per day never divides by zero. Its capacity is 0 (`ZeroHoursScenario`).
- With 10 days, 8 hours per day and 1 holiday, setting leaves to 2 gives 8 available days and 8 points (`LeavesEditScenario`).
- Leaves below the public holidays are the only rejected edit. The draft stays unchanged.

The code also makes two behaviours visible:

- The reset after a submit (src/components/ResourceForm.tsx:106-116) sets `storyPoints` to 0 without looking it up. That draft is consistent only when its capacity happens to score 0 (`ResetDraftDerivedIff`, `ResetScenario`). Whether the selection effect then fires again and re-seeds the draft depends on the cookie library. It is not decided here.
- Edit positions are not adjusted when a removal shifts later records. A submit after removing the edited position or an earlier one overwrites the record that followed the one being edited (`StaleEditIndexAfterRemoval`).

## Model

| member | source | states |
|---|---|---|
| `Positional.MapAt` | src/components/StoryPointsForm.tsx:25-27 | a positional map changes only the element at the index, to `f` of it; an index outside the list leaves it identical; length kept |
| `Positional.ReplaceAt` | src/components/ConfigForm.tsx:34 | the element at the index becomes the record, every other position and the length are unchanged |
| `Positional.RemoveAt` | src/components/ConfigForm.tsx:53 | filtering out an in-range index gives the prefix before it followed by the suffix after it; an out-of-range index leaves the list unchanged |
| `Positional.RemoveAtShifts` | src/components/ResourceForm.tsx:126 | removal in range: length drops by one, earlier elements stay, later ones shift down by one, the multiset loses exactly the removed element |
| `Positional.SubmitRecord` | src/components/ResourceForm.tsx:101-103 | with no edit index the record is appended (length + 1, prefix unchanged); with index i only position i is replaced and the length is kept |
| `Positional.StaleEditIndexAfterRemoval` | src/components/ResourceForm.tsx:120-129 | an edit position is not re-resolved after removing the same or an earlier position: the submit overwrites the record that followed the edited one (or nothing, at the end); after an earlier removal the edited one is untouched |
| `Configs.ApplyEdit` | src/components/ConfigForm.tsx:23-28 | the named field takes the typed value and the other three fields keep theirs |
| `Configs.EditsOverwriteOrCommute` | src/components/ConfigForm.tsx:23-28 | two edits to the same input keep only the last value; edits to different inputs commute |
| `Configs.RemoveFirstOfTwo` | src/components/ConfigForm.tsx:52-53 | removing position 0 of a two-element list leaves the former second element at position 0 |
| `Configs.ConfigForm.constructor` | src/components/ConfigForm.tsx:13-21 | the list is the stored one or empty; the form is `{'' , 10, 8, 0}`; no edit in progress |
| `Configs.ConfigForm.HandleChange` | src/components/ConfigForm.tsx:23-29 | only the form changes: it becomes the edit applied to the old form |
| `Configs.ConfigForm.HandleSubmit` | src/components/ConfigForm.tsx:31-45 | the list becomes the append-or-replace of the form; append grows by one keeping the prefix, replace keeps the length; form reset to `{'' , 10, 8, 0}` and edit index null |
| `Configs.ConfigForm.HandleEdit` | src/components/ConfigForm.tsx:47-50 | the form holds `configs[i]` and the edit index is i; the list is not modified |
| `Configs.ConfigForm.HandleRemove` | src/components/ConfigForm.tsx:52-56 | the list loses exactly position i, the rest in order; form and edit index untouched |
| `StoryPoints.DefaultMapping` | src/components/StoryPointsForm.tsx:11-22 | 10 rows with days 1..10, points non-decreasing and all drawn from 1, 3, 5, 8 |
| `StoryPoints.WithField` | src/components/StoryPointsForm.tsx:26 | the named cell takes the value and the other cell is kept |
| `StoryPoints.UpdateMapping` | src/components/StoryPointsForm.tsx:24-27 | row i gets the value in the named cell; every other row and the length are unchanged; an out-of-range i leaves the table identical |
| `StoryPoints.StoryPointsForm.constructor` | src/components/StoryPointsForm.tsx:11 | the table is `MappingOrDefault` of the stored value: the stored table, or the default table when nothing is stored |
| `StoryPoints.StoryPointsForm.HandleChange` | src/components/StoryPointsForm.tsx:24-30 | the table becomes the one-cell update of the old table |
| `StoryPoints.StoryPointsForm.HandleAddRow` | src/components/StoryPointsForm.tsx:32-36 | length grows by one, existing rows unchanged, the new last row is `{days: 0, points: 0}` |
| `StoryPoints.StoryPointsForm.HandleRemoveRow` | src/components/StoryPointsForm.tsx:38-42 | exactly row i is removed with the order kept; length drops by one in range and is unchanged otherwise |
| `Capacity.RoundedManDays` | src/components/ResourceForm.tsx:86 | the result is the integer nearest to hours / 8, ties rounded up (`8r - 4 <= h < 8r + 4`) |
| `Capacity.FirstMatch` | src/components/ResourceForm.tsx:62 | returns a row whose days equal the key and before which no row matches, or none exactly when no row matches |
| `Capacity.StoryPointsFor` | src/components/ResourceForm.tsx:62-63 | the points of the first row whose days equal the capacity; 0 when no row matches |
| `Capacity.DefaultMappingLookup` | src/components/ResourceForm.tsx:21-32 | with the default table, capacities 1..10 score their row's points and every other capacity 0 |
| `Capacity.SeededDraft` | src/components/ResourceForm.tsx:50-63 | blank name and role, leaves = public holidays, hours per day and workdays from the config, available days = days - holidays, and the derived fields consistent (hours = days x hours per day, capacity rounded, points looked up) |
| `Capacity.ResetDraft` | src/components/ResourceForm.tsx:106-116 | the post-submit draft equals the seeded draft except that its story points are 0 |
| `Capacity.ResetDraftDerivedIff` | src/components/ResourceForm.tsx:106-116 | the reset draft is consistent if and only if its capacity looks up 0 points |
| `Capacity.Rederive` | src/components/ResourceForm.tsx:83-90 | inputs kept; available days = days per sprint - leaves, hours = available days x hours per day, capacity = rounded hours / 8, points = lookup of capacity |
| `Capacity.DerivedFieldsDetermined` | src/components/ResourceForm.tsx:83-89 | the inputs and the config determine the four derived fields uniquely |
| `Capacity.SeedIsRederivedReset` | src/components/ResourceForm.tsx:50-63 | selecting a config gives the same record as re-deriving the reset draft |
| `Capacity.EditField` | src/components/ResourceForm.tsx:78-81 | the named field takes the value; every other field, including the four derived ones, is unchanged |
| `Capacity.ChangeDraft` | src/components/ResourceForm.tsx:69-93 | no effect if and only if leaves are set below the public holidays, or a leaves or hours-per-day edit meets no selected config (the null dereference at lines 73 and 84); otherwise a leaves or hours-per-day edit gives the edited inputs with consistent derived fields, and any other edit changes only its field |
| `Capacity.ChangeKeepsDerived` | src/components/ResourceForm.tsx:78-90 | every accepted edit of a consistent draft leaves it consistent |
| `Capacity.ChangeIdempotent` | src/components/ResourceForm.tsx:69-93 | applying the same accepted edit a second time changes nothing |
| `Capacity.LeavesAtHolidaysReseeds` | src/components/ResourceForm.tsx:83-89 | on a seeded draft, setting leaves to the public holidays gives the seeded draft back |
| `Capacity.SeededScenario` | src/components/ResourceForm.tsx:50-63 | config 10 days, 8 h, 1 holiday: 9 days, 72 h, 9 man-days, 8 points |
| `Capacity.LeavesEditScenario` | src/components/ResourceForm.tsx:83-89 | the same config with 2 leaves: 8 days, 64 h, 8 man-days, 8 points |
| `Capacity.LeavesBelowHolidaysScenario` | src/components/ResourceForm.tsx:73-76 | 0 leaves with 1 public holiday is rejected |
| `Capacity.ZeroHoursScenario` | src/components/ResourceForm.tsx:57-58 | 0 hours per day gives 0 hours, 0 man-days and 0 points, with no division by zero |
| `Capacity.UnmappedCapacityScenario` | src/components/ResourceForm.tsx:62-63 | a capacity of 12 man-days has no row in the default table and scores 0 |
| `Capacity.ResetScenario` | src/components/ResourceForm.tsx:106-116 | the reset draft for 10 days, 8 h, 1 holiday shows 0 points though its 9 man-days look up 8 |
| `Resources.ResourceForm.constructor` | src/components/ResourceForm.tsx:18-67 | resources stored or empty; the table is `MappingOrDefault` of the stored one (line 21); index 0 selected, no edit; the mounted draft is seeded from the first config, or empty when there is none |
| `Resources.ResourceForm.StorageChanged` | src/components/ResourceForm.tsx:48-67 | new configs and table are read; the draft is re-seeded exactly when a config is selected and it differs from the one before, and is kept otherwise; the selected config is `SelectedConfig`, the definition of line 20 (`configs[selectedConfigIndex]`, none outside the list) |
| `Resources.ResourceForm.HandleConfigChange` | src/components/ResourceForm.tsx:95-97 | the chosen index is selected; choosing a different one re-seeds the draft from that config |
| `Resources.ResourceForm.HandleChange` | src/components/ResourceForm.tsx:69-93 | accepted exactly when `ChangeDraft` of the draft and `SelectedConfig` (line 20) accepts; then the draft is its result, otherwise the draft is unchanged; nothing else in the form changes |
| `Resources.ResourceForm.HandleSubmit` | src/components/ResourceForm.tsx:99-118 | resources become the append-or-replace of the draft (append: length + 1 and prefix unchanged; replace: length kept) in every case; with a `SelectedConfig` (line 20) the draft is reset and the edit index is null, without one the reset throws and the draft and edit index stay |
| `Resources.ResourceForm.HandleEdit` | src/components/ResourceForm.tsx:120-123 | the draft holds `resources[i]` and the edit index is i; the list is not modified |
| `Resources.ResourceForm.HandleRemove` | src/components/ResourceForm.tsx:125-129 | the list loses exactly position i with the rest in order; the draft and the edit index are untouched |

## Left out

- Browser cookie storage (`useCookies`, `setCookie`) is not modelled. Each form's in-memory list is what the model holds. A stored resource list or table enters as an `Option` parameter (`StoryPoints.MappingOrDefault` supplies the default table). The resource form's stored configurations enter as a plain list, with an absent value given as `[]`: `cookies.configs ? … : null` and an index into an empty list both leave no configuration selected.
- React rendering, JSX markup and event objects are not modelled. Each handler takes the field and value it would read from the event.
- The `alert` on a rejected leaves edit is a UI side effect. It is modelled as `HandleChange` returning `false` with the draft unchanged.
- `parseInt` returning `NaN` on non-numeric input is not modelled. Every numeric input is an integer.
- The configuration form stores typed values as raw strings, which JavaScript later coerces to numbers. This is not modelled: configuration fields are integers.
- JavaScript numbers are doubles. The model uses unbounded integers, so precision loss above 2^53 is not captured. `Math.round` is replaced by its exact integer form.
- The `TypeError` thrown where the resource form dereferences a missing configuration is modelled as the handler stopping at that point. In `HandleChange` (lines 73 and 84) the draft is then not stored. In `HandleSubmit` the list has already been stored and written (lines 101-105), and only the reset at lines 106-117 is lost. The exception itself and what React does with it are not modelled.
- Resources.ResourceForm.StorageChanged: the selection effect is modelled as firing when the selected configuration changes by value. A re-fire caused only by a fresh object with the same value is not modelled. Whether that happens depends on the cookie library, which is not part of this model.
- Resources.ResourceForm.HandleSubmit, Resources.ResourceForm.HandleRemove: both write the resource list to storage (src/components/ResourceForm.tsx:105, 128). If that write hands the form a fresh configuration object and the selection effect re-fires, the page shows a re-seeded draft. `HandleSubmit` promises the `ResetDraft` draft and `HandleRemove` promises the draft untouched; neither models that re-seeding.
- The initial draft of src/components/ResourceForm.tsx:34-44 is overwritten by the mount effect whenever a configuration exists. The constructor therefore states only the mounted state. With no configuration that state is `EmptyDraft`.
- src/components/Sidebar.tsx and src/App.tsx are layout wrappers with no logic and are not part of this model.
