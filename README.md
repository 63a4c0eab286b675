# Photography project planner — a Dafny model

This project models the client-side logic of a photography project planner.
The planner is a React application. A photographer keeps a list of shoot
projects. Each project has tabs for:

- planning, equipment, team, budget and checklist;
- inspiration images, shooting logs, post-production and the client;
- templates that fill a project in one step.

All state lives in the browser's `localStorage`. A small utility class
exports it, imports it, clears it, measures it and migrates it. A sign-in
layer keeps a user table in the same store.

The model covers each of these as its source does it:

- **Tab handlers** are pure functions from a project to a new project,
  because every handler builds a new project with spreads, `map` and
  `filter`. The contracts state what changes and that nothing else does.
  Lemmas pair each add with its remove, each toggle with itself and each
  save with the next reopening.
- **Derived figures and classifiers** are functions with their bounds and
  their if-and-only-if characterisations. These include completion and
  keeper rates, budget totals, readiness lights, maintenance and timeline
  status, and the golden hour.
- **`localStorage`** is a class over a `map<string, string>`.
  - `StorageManager` and the `useLocalStorage` hook are methods that change
    it. They are proved against functions that describe the resulting
    store.
  - The size estimates are loops over the keys. They are proved against a
    sum over the map.
- **JSON** values are a datatype of JavaScript values; numbers are the
  finite IEEE 754 doubles. `JSON.parse` and `JSON.stringify` are a pair of
  function values with stated laws, and a codec that meets those laws is
  constructed and proved to meet them. The date reviver is a prefix matcher
  on that datatype.
- **Sign-in** is a class, `AuthProvider`, holding the stored user table,
  the signed-in user and the error message. The profile panel is a class
  over it.

Times are integer milliseconds since the epoch. `Math.ceil` of a day count
is exact integer division. `Math.round` of a percentage is exact integer
arithmetic that rounds halves up.

Where the type declarations and the component code disagree, the model
follows the code. Two cases:

- The checklist items the components read have `task`, `priority`,
  `category` and `dueDate`. `src/types/project.ts:30-36` declares other,
  snake_case fields.
- The equipment `type` is a free-form text in the components.

Values the program gets from the environment are parameters. These are
the current time, fresh ids from `Date.now()`, the time zone offset,
`parseFloat`, `parseInt`, `new Date(text)`, `toString` and `toISOString`.

## Model

| member | source | states |
|---|---|---|
| App.CreateProject | src/App.tsx:76-86 | the new project is the draft with the given id and both timestamps set to now, placed in front of the unchanged list, and it becomes the selection |
| App.UpdateProject | src/App.tsx:88-95 | the list keeps its length; every project with the update's id becomes the update stamped with now, every other project stays in place; the selection is the stamped update |
| App.DeleteProject | src/App.tsx:97-102 | the remaining projects are, in order, exactly those whose id differs, and there are as many as the projects whose id differs; the selection is cleared exactly when it carries the id |
| App.UpdateKeepsIds | src/App.tsx:88-95 | updating keeps the sequence of ids unchanged |
| App.UpdateIdempotent | src/App.tsx:88-95 | the same update applied twice at the same moment equals applying it once |
| App.CreateThenDelete | src/App.tsx:76-102 | deleting a freshly created project (fresh id) restores the list and leaves nothing selected |
| App.SampleProjectsWellFormed | src/App.tsx:10-70 | the two sample projects have distinct ids and each was updated no earlier than created, for every zone offset |
| Checklist.AddTask | src/components/project/ChecklistManager.tsx:38-58 | a blank (after trim) task text leaves the project unchanged; otherwise only the checklist changes, by one appended open task with the given id, the text as typed, a due date exactly when one was entered and then the parsed entry, the assignee or none, and the chosen priority and category |
| Checklist.AddThenRemove | src/components/project/ChecklistManager.tsx:38-77 | adding a task under a fresh id and removing that id restores the project |
| Checklist.ToggleTask | src/components/project/ChecklistManager.tsx:60-69 | only the checklist changes, keeping its length; each task changes at most its completed flag, which flips exactly when its id matches |
| Checklist.ToggleTwice | src/components/project/ChecklistManager.tsx:60-69 | toggling the same id twice restores the project |
| Checklist.RemoveTask | src/components/project/ChecklistManager.tsx:71-77 | only the checklist changes: the tasks left are, in order, exactly those whose id differs, as many as the checklist has tasks with another id |
| Checklist.FilteredTasks | src/components/project/ChecklistManager.tsx:79-84 | the view is an order-preserving sublist holding exactly the tasks matching priority, category and the completed switch, as many as match; with completed hidden no shown task is done |
| Checklist.FilterAllShowsEverything | src/components/project/ChecklistManager.tsx:79-84 | with both filters on all and completed shown, the view is the whole checklist |
| Checklist.CompletedCount | src/components/project/ChecklistManager.tsx:86 | the number of done tasks, never more than the checklist length |
| Checklist.CompletionRate | src/components/project/ChecklistManager.tsx:86-88 | 0 for no tasks, otherwise the rounded percentage of done tasks; always 0..100, 100 when all are done, 0 when none is |
| Checklist.ToggledTaskNotOverdue | src/components/project/ChecklistManager.tsx:295 | toggling an open task closes it, after which it is not overdue at any time |
| Checklist.AddTemplateTask | src/components/project/ChecklistManager.tsx:102-116 | only the checklist changes, by one appended open task with the preset's text, priority and category and no date or assignee |
| Checklist.TemplateTaskKeepsCompleted | src/components/project/ChecklistManager.tsx:102-116 | adding a preset task leaves the completed count unchanged |
| Budget.AddExpense | src/components/project/BudgetManager.tsx:28-47 | an empty description or amount text leaves the project unchanged; otherwise only the expenses change, by one appended expense with the id, the description, the parsed amount, the category, the status and the current date |
| Budget.RemoveExpense | src/components/project/BudgetManager.tsx:49-54 | only the expenses change: those left are, in order, exactly the ones whose id differs, as many as there are of those |
| Budget.AddThenRemove | src/components/project/BudgetManager.tsx:28-54 | adding an expense under a fresh id and removing that id restores the project |
| Budget.UpdateExpenseStatus | src/components/project/BudgetManager.tsx:56-63 | only the expenses change, keeping their length; each expense with the id takes the new status and no other field changes |
| Budget.LastStatusWins | src/components/project/BudgetManager.tsx:56-63 | two status updates of the same expense equal the second alone |
| Budget.TotalSpendCoversParts | src/components/project/BudgetManager.tsx:65-67 | with non-negative amounts and rates the total is at least the expense sum and at least the team costs, both non-negative |
| Budget.TeamCostsAppend | src/components/project/BudgetManager.tsx:66 | one more member raises the team costs by exactly that member's rate, 0 when absent |
| Budget.BudgetUsage | src/components/project/BudgetManager.tsx:68-69 | 0 without a positive planned budget; otherwise the usage times the budget is 100 times the total spend |
| Budget.CategoryTotal | src/components/project/BudgetManager.tsx:71-76 | the filtered sum of one category equals the sum over all expenses of their amount in that category (0 for other categories) |
| Budget.ExpensesByCategory | src/components/project/BudgetManager.tsx:71-76 | one entry per listed category, in the listed order, paired with that category's total |
| Budget.CategoryTotalsAddUp | src/components/project/BudgetManager.tsx:65-76 | when every expense uses a listed category, the category totals add up to the total of all expenses |
| Team.AddMember | src/components/project/TeamManager.tsx:47-77 | refused unless name, role and contact are all filled; otherwise only team and timestamp change, by one appended member whose unset confirmed, rate and payment fields default to false, 0 and not-applicable |
| Team.AddMemberCost | src/components/project/TeamManager.tsx:47-77 | an accepted member raises the total cost by exactly the member's rate (0 when unset) |
| Team.Merge | src/components/project/TeamManager.tsx:83 | an empty patch changes nothing; each of id, name, role, contact, confirmed, rate and payment status takes the patch's value when the patch sets it and keeps the member's otherwise |
| Team.MergeIdempotent | src/components/project/TeamManager.tsx:83 | merging a patch twice equals merging it once |
| Team.UpdateMember | src/components/project/TeamManager.tsx:79-88 | only team and timestamp change; the team keeps its length, members with the id take the merged patch and the others stay |
| Team.DeleteMember | src/components/project/TeamManager.tsx:90-97 | only team and timestamp change: the members left are, in order, exactly those whose id differs, as many as there are of those |
| Team.ToggleConfirmedTwice | src/components/project/TeamManager.tsx:259 | with unique ids, pressing a member's confirm badge twice restores the team |
| Team.ConfirmedMembers | src/components/project/TeamManager.tsx:99 | an order-preserving sublist of the team holding exactly the confirmed members, as many as the team has confirmed ones |
| Team.UnconfirmedMembers | src/components/project/TeamManager.tsx:100 | an order-preserving sublist of the team holding exactly the unconfirmed members, as many as the team has unconfirmed ones |
| Team.MembersPartition | src/components/project/TeamManager.tsx:99-100 | the two groups' sizes add up to the team size |
| Inspiration.AddImage | src/components/project/InspirationBoard.tsx:31-50 | an empty url or title leaves the project unchanged; otherwise only the images change, by one appended image whose tags are the parsed comma list, each non-empty and trimmed |
| Inspiration.RemoveImage | src/components/project/InspirationBoard.tsx:52-57 | only the images change: those left are, in order, exactly the ones whose id differs, as many as there are of those |
| Inspiration.AddThenRemove | src/components/project/InspirationBoard.tsx:31-57 | adding an image under a fresh id and removing that id restores the project |
| Inspiration.AnyTagMentions | src/components/project/InspirationBoard.tsx:63 | true exactly when some tag contains the term, ignoring case |
| Inspiration.FilteredImages | src/components/project/InspirationBoard.tsx:60-66 | an order-preserving sublist holding exactly the images whose title, description or a tag contains the term and whose category the selection admits, as many as there are of those |
| Inspiration.EmptySearchShowsAll | src/components/project/InspirationBoard.tsx:60-66 | an empty term under all categories shows the whole board |
| Inspiration.AddSampleImage | src/components/project/InspirationBoard.tsx:69-88 | only the images change, by one appended image with the sample's url, title and category, the fixed description and the single tag 示例 |
| Inspiration.SampleImageFoundByTag | src/components/project/InspirationBoard.tsx:60-88 | a sample image added to the board is found by searching for 示例 |
| EquipmentManager.AddEquipment | src/components/project/EnhancedEquipmentManager.tsx:84-106 | refused without a name; otherwise only the equipment changes, by one appended item with the id and name, type defaulting to camera, condition to good, required to false, and every other field copied from the form |
| EquipmentManager.UpdateEquipment | src/components/project/EnhancedEquipmentManager.tsx:143-151 | only the equipment changes, keeping its length; items with the updated item's id become that item, others stay |
| EquipmentManager.UpdateWithStoredItem | src/components/project/EnhancedEquipmentManager.tsx:143-151 | re-saving an item already stored under a unique id leaves the project unchanged |
| EquipmentManager.DeleteEquipment | src/components/project/EnhancedEquipmentManager.tsx:153-158 | only the equipment changes: the items left are, in order, exactly those whose id differs, as many as there are of those |
| EquipmentManager.FindType | src/components/project/EnhancedEquipmentManager.tsx:161 | a found entry is in the table and has the type; none is found only when no entry has it |
| EquipmentManager.EquipmentIcon | src/components/project/EnhancedEquipmentManager.tsx:160-163 | the icon of the type's table entry; 📦 for a type not in the table |
| EquipmentManager.TypeIconsFound | src/components/project/EnhancedEquipmentManager.tsx:161 | every type of the table is found at its own entry |
| EquipmentManager.ListedTypeIcons | src/components/project/EnhancedEquipmentManager.tsx:160-163 | the icons of camera, lens, lighting, tripod, filter, memory and battery |
| EquipmentManager.FindCondition | src/components/project/EnhancedEquipmentManager.tsx:166 | a found entry is in the list and carries the condition; none is found only when no entry carries it |
| EquipmentManager.ConditionEntry | src/components/project/EnhancedEquipmentManager.tsx:165-167 | always a listed entry; the condition's own entry when listed, otherwise the good entry |
| EquipmentManager.FilteredEquipment | src/components/project/EnhancedEquipmentManager.tsx:169-176 | an order-preserving sublist holding exactly the items whose name, brand or model contains the term and whose type and condition the filters admit, as many as there are of those |
| EquipmentManager.EmptySearchShowsAll | src/components/project/EnhancedEquipmentManager.tsx:169-176 | an empty term with both filters on all shows every item |
| EquipmentManager.MaintenanceStatusAt | src/components/project/EnhancedEquipmentManager.tsx:178-187 | unknown exactly without a next service date; otherwise overdue when it lies a whole day or more in the past, due soon up to 30 days ahead, good beyond |
| Calendar.DaysFromCivilKnownValues | src/App.tsx:33-39 | the day count of `new Date(y, m, d)` starts at the epoch and gives 2024-03-01 its known number |
| Calendar.DaysFromCivilNextDay | src/App.tsx:38-39 | the next day of a month is one day later |
| Calendar.DaysFromCivilNextMonth | src/App.tsx:33-39 | from March to November, the first of the next month lies that month's length later |
| Calendar.LocalHour | src/components/project/EnhancedPlanningDetails.tsx:40 | `getHours()`: an hour 0..23 whose hour-long window holds the moment's local time of day |
| Calendar.LocalMidnightHour | src/App.tsx:33-39 | a date built as `new Date(y, m, d)` has local hour 0 in every zone |
| Calendar.LocalMidnightIncreasing | src/App.tsx:38-39 | a later day of the same month is later by whole days |
| Metrics.CeilDiv | src/components/project/EnhancedEquipmentManager.tsx:182 | `Math.ceil(x / d)`: the least integer whose multiple of d reaches x |
| Metrics.DaysUntil | src/components/project/EnhancedEquipmentManager.tsx:182 | the whole days from now to the target, rounded up |
| Metrics.DaysUntilNegative | src/components/project/PostProduction.tsx:175-177 | the day count is negative exactly when the target lies a whole day or more in the past |
| Metrics.DaysUntilZero | src/components/project/PostProduction.tsx:175-178 | the day count is 0 exactly when the target lies within the day ending now |
| Metrics.FloorDiv | src/utils/storageManager.ts:216 | `Math.floor(a / b)` for either sign of b |
| Metrics.RoundPercent | src/components/project/ChecklistManager.tsx:88 | `Math.round(100 * count / total)`: the nearest integer, halves rounded up |
| Metrics.RoundPercentBounds | src/components/project/ChecklistManager.tsx:88 | a share of a positive total rounds into 0..100, nothing to 0, the whole to 100 |
| Metrics.RoundPercentOfNothing | src/components/project/ShootingLogs.tsx:138-146 | nothing out of any non-zero total rounds to 0 |
| Metrics.RoundPercentMonotone | src/components/project/ShootingLogs.tsx:138-146 | a smaller share of the same total never rounds higher |
| Metrics.Percentage | src/components/project/ShootingLogs.tsx:138-146 | 0 for a zero total, otherwise the rounded percentage; within 0..100 for a share, 100 for the whole, 0 for nothing |
| Planning.AddEquipment | src/components/project/PlanningDetails.tsx:17-32 | a blank name leaves the project unchanged; otherwise only the equipment changes, by one appended required camera named as typed, with no other field set; the enhanced tab (EnhancedPlanningDetails.tsx, lines 78-94) also sets condition good |
| Planning.RemoveEquipment | src/components/project/PlanningDetails.tsx:34-39 | only the equipment changes: the items left are, in order, exactly those whose id differs, as many as there are of those |
| Planning.AddThenRemoveEquipment | src/components/project/PlanningDetails.tsx:17-39 | adding quick equipment under a fresh id and removing that id restores the project |
| Planning.AppendEntry | src/components/project/PlanningDetails.tsx:41-49 | a blank entry leaves the list unchanged, any other is appended as typed |
| Planning.AppendThenRemoveIndex | src/components/project/PlanningDetails.tsx:41-56 | removing the entry just appended, by its index, restores the list |
| Planning.AddProp | src/components/project/PlanningDetails.tsx:41-49 | only the props change; a blank prop changes nothing, any other is appended as typed |
| Planning.RemoveProp | src/components/project/PlanningDetails.tsx:51-56 | only the props change: the prop at the index goes, the rest keep their order; an index outside the list removes nothing |
| Planning.AddThenRemoveProp | src/components/project/PlanningDetails.tsx:41-56 | removing the last prop added restores the project |
| Planning.AddWardrobeItem | src/components/project/PlanningDetails.tsx:58-66 | only the wardrobe changes; a blank item changes nothing, any other is appended as typed |
| Planning.RemoveWardrobeItem | src/components/project/PlanningDetails.tsx:68-73 | only the wardrobe changes: the item at the index goes, the rest keep their order |
| Planning.AddThenRemoveWardrobeItem | src/components/project/PlanningDetails.tsx:58-73 | removing the last wardrobe item added restores the project |
| Planning.SaveSettings | src/components/project/PlanningDetails.tsx:75-81 | the settings are replaced and nothing else changes |
| Planning.SaveSettingsLaws | src/components/project/PlanningDetails.tsx:75-81 | saving unchanged settings changes nothing; two saves equal the second |
| Planning.AddSpecialRequirement | src/components/project/PlanningDetails.tsx:83-89 | only the requirements change; a blank one changes nothing, any other is appended as typed |
| Planning.RemoveSpecialRequirement | src/components/project/PlanningDetails.tsx:91-96 | only the requirements change: the one at the index goes, the rest keep their order |
| Planning.AddThenRemoveRequirement | src/components/project/PlanningDetails.tsx:83-96 | removing the requirement just added restores the settings |
| Planning.GoldenHourAt | src/components/project/EnhancedPlanningDetails.tsx:38-49 | golden exactly when morning or evening; morning exactly for local times in [6 h, 9 h), evening in [17 h, 20 h); the advice text of each case |
| Planning.WeatherGoldenHour | src/components/project/EnhancedPlanningDetails.tsx:62 | the hint for the shoot date when set, otherwise for now |
| Planning.MidnightIsNotGolden | src/components/project/EnhancedPlanningDetails.tsx:38-49 | a shoot date built as `new Date(y, m, d)`, local midnight, never gets golden hour |
| Planning.FormDateEightHoursAheadIsMorning | src/components/project/EnhancedPlanningDetails.tsx:38-49 | a shoot date typed into a form is UTC midnight, which in a zone eight hours ahead of UTC gets the morning-light hint |
| Planning.EquipmentTypeIcon | src/components/project/EnhancedPlanningDetails.tsx:160-171 | 📦 for every type the switch does not list |
| Planning.SwitchIcons | src/components/project/EnhancedPlanningDetails.tsx:160-171 | the icon of each type the switch lists |
| Planning.ListedIconsAgree | src/components/project/EnhancedPlanningDetails.tsx:160-171 | for each listed type the planning tab's icon equals the equipment manager's |
| Planning.UnlistedIconsAgree | src/components/project/EnhancedPlanningDetails.tsx:160-171 | every other type gets 📦 from both tables, accessory included |
| Planning.ConditionColor | src/components/project/EnhancedPlanningDetails.tsx:173-181 | grey when no condition is set |
| Planning.ConditionColorsAgree | src/components/project/EnhancedPlanningDetails.tsx:173-181 | for a listed condition the planning colour equals the equipment manager's; any other is grey here but blue (good's) there |
| Planning.ListedConditionColors | src/components/project/EnhancedPlanningDetails.tsx:173-181 | each listed condition's planning colour is its entry's colour |
| PostProduction.DefaultPlan | src/components/project/PostProduction.tsx:74-97 | the fresh plan lists Lightroom alone, six steps, four hours, JPEG at original resolution in sRGB, every milestone at the current time, and no option twice |
| PostProduction.InitialPlan | src/components/project/PostProduction.tsx:74-97 | the tab edits the project's own plan when it has one and the default plan otherwise |
| PostProduction.Save | src/components/project/PostProduction.tsx:99-105 | saving stores the edited plan in the project and changes nothing else |
| PostProduction.SaveThenReopen | src/components/project/PostProduction.tsx:74-105 | reopening the tab after a save edits exactly the saved plan |
| PostProduction.AddWorkflowStep | src/components/project/PostProduction.tsx:107-117 | a blank step leaves the plan unchanged; otherwise only the steps change, by the trimmed step appended |
| PostProduction.RemoveWorkflowStep | src/components/project/PostProduction.tsx:119-127 | only the steps change: the step at the index goes and the others keep their order |
| PostProduction.AddThenRemoveStep | src/components/project/PostProduction.tsx:107-127 | removing the step just added, by its index, restores the plan |
| PostProduction.AddChoice | src/components/project/PostProduction.tsx:129-139 | an empty or already listed value leaves the list as it was, any other is appended, and a list without duplicates keeps none |
| PostProduction.AddSoftware | src/components/project/PostProduction.tsx:129-139 | only the software list changes; a non-empty program is listed afterwards and never twice |
| PostProduction.RemoveSoftware | src/components/project/PostProduction.tsx:141-149 | only the software list changes: the program is gone, every other program stays, in order, and the list keeps exactly as many entries as were other programs |
| PostProduction.AddThenRemoveSoftware | src/components/project/PostProduction.tsx:129-149 | adding an unlisted program and removing it restores the plan |
| PostProduction.AddFormat | src/components/project/PostProduction.tsx:151-161 | only the format list changes; a non-empty format is listed afterwards and never twice |
| PostProduction.RemoveFormat | src/components/project/PostProduction.tsx:163-171 | only the format list changes: the format is gone, every other format stays, in order, and the list keeps exactly as many entries as were other formats |
| PostProduction.AddThenRemoveFormat | src/components/project/PostProduction.tsx:151-171 | adding an unlisted format and removing it restores the plan |
| PostProduction.SetEstimatedTime | src/components/project/PostProduction.tsx:288-293 | only the estimated time changes: to the parsed number, or to 0 for text that is not a number |
| PostProduction.TimelineStatusAt | src/components/project/PostProduction.tsx:173-181 | with days rounded up: overdue exactly when the milestone lies a whole day or more back, today when less than a day back or now, urgent within three days ahead, normal beyond |
| PostProduction.DefaultMilestonesDueToday | src/components/project/PostProduction.tsx:74-97 | every milestone of a fresh default plan shows as due today |
| PostProduction.StatusWorsensOverTime | src/components/project/PostProduction.tsx:173-181 | as time passes an overdue milestone stays overdue and one due today becomes today or overdue |
| ClientManager.InitialEditor | src/components/project/ClientManager.tsx:11-20 | the editor starts open exactly when the project has no client, on the blank client then and on the project's client otherwise |
| ClientManager.Save | src/components/project/ClientManager.tsx:22-30 | without a name or a contact nothing changes; otherwise the edited client becomes the project's, nothing else of the project changes, and the editor closes |
| ClientManager.SaveThenReopen | src/components/project/ClientManager.tsx:11-30 | after a successful save the tab reopens closed on the saved client |
| ClientManager.BlankClientIsRefused | src/components/project/ClientManager.tsx:11-30 | saving the untouched blank client of a project without one changes nothing |
| ClientManager.AddDeliveryFormat | src/components/project/ClientManager.tsx:32-39 | a blank or already listed format leaves the client unchanged; otherwise only the formats change, by the format appended as given, and they stay free of duplicates |
| ClientManager.RemoveDeliveryFormat | src/components/project/ClientManager.tsx:41-46 | only the formats change: the format is gone, every other stays, in order, and the list keeps exactly as many entries as were other formats |
| ClientManager.AddThenRemoveFormat | src/components/project/ClientManager.tsx:32-46 | adding an unlisted format and removing it restores the client |
| ShootingLogs.AddLog | src/components/project/ShootingLogs.tsx:51-109 | without a session or a location the project is unchanged; otherwise only the logs change, by one log under the new id dated now appended, every unset field taking its empty default |
| ShootingLogs.MinimalLogDefaults | src/components/project/ShootingLogs.tsx:51-109 | a log added from only a session and a location starts with ISO 100, no images and no lists |
| ShootingLogs.UpdateLog | src/components/project/ShootingLogs.tsx:111-119 | only the logs change: every log with the id is replaced by the edited log, the others stay in place |
| ShootingLogs.DeleteLog | src/components/project/ShootingLogs.tsx:121-126 | only the logs change: exactly the logs with the id disappear, the rest keep their order, and as many remain as carry another id |
| ShootingLogs.AddThenDelete | src/components/project/ShootingLogs.tsx:51-126 | adding a log under a fresh id and deleting that id restores the logs |
| ShootingLogs.UpdateThenDelete | src/components/project/ShootingLogs.tsx:111-126 | editing a log without changing its id and then deleting it equals deleting it directly |
| ShootingLogs.AddArrayItem | src/components/project/ShootingLogs.tsx:128-132 | a blank entry leaves the list unchanged, any other is appended trimmed |
| ShootingLogs.AddArrayItemKeepsTrimmed | src/components/project/ShootingLogs.tsx:128-132 | a list of non-empty trimmed entries stays one after an addition |
| ShootingLogs.RemoveArrayItem | src/components/project/ShootingLogs.tsx:134-136 | the entry at the index goes and the others keep their order; an index outside the list removes nothing |
| ShootingLogs.AddThenRemoveArrayItem | src/components/project/ShootingLogs.tsx:128-136 | removing the entry just added, by its index, restores the list |
| ShootingLogs.KeeperRate | src/components/project/ShootingLogs.tsx:138-141 | 0 for a log without images, otherwise the keeper share rounded half up to a whole percentage; between 0 and 100 for consistent counts |
| ShootingLogs.FavoriteRate | src/components/project/ShootingLogs.tsx:143-146 | 0 for a log without images, otherwise the favourite share rounded half up to a whole percentage; between 0 and 100 for consistent counts |
| ShootingLogs.FavoritesWithinKeepers | src/components/project/ShootingLogs.tsx:138-146 | when favourites are among the keepers, the favourite rate never exceeds the keeper rate |
| ShootingLogs.EquipmentFromText | src/components/project/ShootingLogs.tsx:207-210 | the equipment field is read by the comma-list parser, so it gives the trimmed non-empty pieces in order, each a non-empty, trimmed, comma-free name |
| ShootingLogs.EquipmentFieldStable | src/components/project/ShootingLogs.tsx:207-210 | showing a parsed list as text and parsing it again gives the same list |
| Templates.PrefixCancel | src/components/project/PhotographyTemplates.tsx:191-207 | ids built on a common prefix differ whenever their suffixes differ |
| Templates.GeneratedIdsDistinct | src/components/project/PhotographyTemplates.tsx:191-207 | the ids generated for two different indices differ, in each of the three id schemes |
| Templates.EquipmentFrom | src/components/project/PhotographyTemplates.tsx:191-197 | one required camera in good condition per template entry, in order, each named after its entry and numbered by its index |
| Templates.TasksFrom | src/components/project/PhotographyTemplates.tsx:198-204 | one open medium-priority creative task per template entry, in order, numbered by its index |
| Templates.ImagesFrom | src/components/project/PhotographyTemplates.tsx:205-212 | one image placeholder without url per template entry, in order, titled and tagged with the entry |
| Templates.ApplyTemplate | src/components/project/PhotographyTemplates.tsx:179-219 | the project takes the template's type, duration and special requirements, its equipment, checklist and images are replaced by the generated lists, the template id is appended to the applied templates, and nothing else changes |
| Templates.AppliedIdsUnique | src/components/project/PhotographyTemplates.tsx:191-212 | after applying a template the ids within each generated list are pairwise distinct |
| Templates.ApplyTwice | src/components/project/PhotographyTemplates.tsx:179-219 | applying the same template twice changes nothing beyond the first application except the applied-template record, which names it twice |
| Templates.AppliedChecklistNotStarted | src/components/project/PhotographyTemplates.tsx:198-204 | a freshly applied checklist has no completed task and a completion rate of 0 |
| ProjectCreation.Photo | src/components/CreateProjectModal.tsx:25-71 | every stock photo address is non-empty |
| ProjectCreation.DefaultCoverImage | src/components/CreateProjectModal.tsx:11-22 | every project type has a non-empty default cover |
| ProjectCreation.CoverImageOptions | src/components/CreateProjectModal.tsx:25-71 | every project type is offered four cover photos |
| ProjectCreation.DefaultCoverIsFirstOption | src/components/CreateProjectModal.tsx:11-71 | the default cover of each type is the first photo offered for it |
| ProjectCreation.Parsed | src/components/CreateProjectModal.tsx:114-117 | an empty field gives no value, any other its parsed value |
| ProjectCreation.Submit | src/components/CreateProjectModal.tsx:97-126 | the project is in planning with every collection empty, the form's texts and type, a budget and date exactly when those fields are filled, the typed cover or else the type's default, and two hours with no special requirements |
| ProjectCreation.SubmittedCover | src/components/CreateProjectModal.tsx:97-126 | a submitted project always has a cover, and without a typed one it is one of the photos offered for its type |
| ProjectCreation.SubmitThenCreate | src/components/CreateProjectModal.tsx:97-126 | submitting and creating puts a planning project under the new id, with the form's title and nothing done, at the head of the list and selected, ahead of the old list |
| ProjectEditing.DateFieldIsDayPart | src/components/project/EditProjectModal.tsx:21 | for an ISO text of the form day, `T`, time, the date field holds exactly the day |
| ProjectEditing.InitialForm | src/components/project/EditProjectModal.tsx:13-23 | the form opens on the project's texts and cover, the budget as text and the shoot date as its ISO day, each empty when the project has none |
| ProjectEditing.ChangeImageUrl | src/components/project/EditProjectModal.tsx:39-44 | only the cover image changes, to the typed url |
| ProjectEditing.Save | src/components/project/EditProjectModal.tsx:46-61 | the project keeps everything but the nine edited fields, which take the form's values; an empty budget or date field clears the value, and the cover is stored as typed |
| ProjectEditing.SaveUnchanged | src/components/project/EditProjectModal.tsx:13-61 | opening the form and saving it untouched gives the project back, when number and date texts read back to what they were made from |
| ProjectEditing.UrlChangeOnlyTouchesCover | src/components/project/EditProjectModal.tsx:39-61 | changing the url and saving differs from saving without the change only in the cover |
| Overview.ProjectStats | src/components/project/ProjectOverview.tsx:25-32 | the counts of done and all tasks and of confirmed and all members, the budget (0 without one) plus every member's rate (0 without one), and the count of open tasks past their due date |
| Overview.OverdueTasksAreOpen | src/components/project/ProjectOverview.tsx:25-32 | overdue and completed tasks together never outnumber the checklist |
| Overview.TotalBudgetCoversBudget | src/components/project/ProjectOverview.tsx:29 | with a non-negative budget and rates the total is non-negative and at least the budget |
| Overview.TaskPercent | src/components/project/ProjectOverview.tsx:242 | 0 without tasks, otherwise the share of done tasks rounded half up; between 0 and 100 for consistent counts, and 100 when every task is done |
| Overview.TeamPercent | src/components/project/ProjectOverview.tsx:253 | 0 without members, otherwise the share of confirmed members rounded half up; between 0 and 100 for consistent counts, and 100 when every member has confirmed |
| Overview.TeamPercentIsConfirmedShare | src/components/project/ProjectOverview.tsx:253 | the team percentage is 0 without members, otherwise the rounded share of the team tab's confirmed members |
| Overview.TaskPercentIsCompletionRate | src/components/project/ProjectOverview.tsx:242 | the overview's task percentage equals the checklist tab's completion rate |
| Overview.StatusLabelsDistinct | src/components/project/ProjectOverview.tsx:44-49 | the four statuses carry four different labels |
| Overview.TeamLight | src/components/project/ProjectOverview.tsx:281-289 | red exactly without members, green exactly when there are members and all have confirmed |
| Overview.TeamLightGreen | src/components/project/ProjectOverview.tsx:281-289 | the team check is green exactly when the team is non-empty and every member has confirmed |
| Overview.EquipmentLight | src/components/project/ProjectOverview.tsx:295-299 | green exactly when equipment is listed, never red |
| Overview.InspirationLight | src/components/project/ProjectOverview.tsx:306-312 | green from three images, yellow for one or two, red for none |
| ProjectList.StatusMapsAgree | src/components/ProjectList.tsx:21-33 | the list gives every status the same colour and label as the overview |
| ProjectList.CardFor | src/components/ProjectList.tsx:66-177 | a card carries the project's id and the overview's statistics; it shows progress exactly when there are tasks, the overdue badge exactly when a task is overdue, the budget line exactly when the total is positive, and the cover exactly when there is one |
| ProjectList.Render | src/components/ProjectList.tsx:35-184 | the empty state exactly for no projects, otherwise one card per project, in order |
| ProjectList.NoTasksNoProgress | src/components/ProjectList.tsx:66-177 | a project without tasks shows neither progress nor an overdue badge |
| ProjectList.CardOverdueWithinOpen | src/components/ProjectList.tsx:68-72 | a card never counts more overdue tasks than open ones |
| Auth.EmailHasOneAt | src/contexts/AuthContext.tsx:78-79 | an accepted address has exactly one `@`, with a non-empty local part before it and a dot inside the domain after it |
| Auth.EmailExamples | src/contexts/AuthContext.tsx:78-79 | the pattern accepts plain addresses and refuses ones without a dotted domain, a local part, a domain name or a top-level part, with a space, or with two `@` |
| Auth.FirstIndex | src/contexts/AuthContext.tsx:145 | no index exactly when nothing qualifies; otherwise the first position that qualifies |
| Auth.LoginOutcome | src/contexts/AuthContext.tsx:22-57 | user not found exactly when no stored user has the email; success exactly when the first user with the email has the password, giving that user stamped with the login time; the only errors are those two messages |
| Auth.RegisterError | src/contexts/AuthContext.tsx:60-95 | the first failing check in the source's order gives its message: password mismatch, under six characters, malformed email, email taken, username taken; no error exactly when all pass |
| Auth.Registered | src/contexts/AuthContext.tsx:96-113 | the table grows by the new account, with its password, after the existing rows unchanged |
| Auth.RegisterKeepsAccountsUnique | src/contexts/AuthContext.tsx:84-113 | a successful registration keeps emails and usernames unique across the table |
| Auth.RegisterThenLogin | src/contexts/AuthContext.tsx:22-124 | a freshly registered account logs in with the password it was registered with |
| Auth.ApplyPatch | src/contexts/AuthContext.tsx:140 | an empty update changes nothing; each of id, username, email, avatar, createdAt, lastLoginAt and preferences takes the update's value when the update sets it and keeps the user's otherwise |
| Auth.ApplyPatchIdempotent | src/contexts/AuthContext.tsx:140 | applying the same update twice is applying it once |
| Auth.UpdateStored | src/contexts/AuthContext.tsx:144-149 | the first row with the user's id takes the update with its password kept, every other row stays; without such a row nothing changes |
| Auth.UpdateKeepsAccountsUnique | src/contexts/AuthContext.tsx:144-149 | an update keeps accounts unique when no other account holds the email or username it sets |
| Auth.PasswordChange | src/contexts/AuthContext.tsx:169-179 | success exactly when the first row with the id carries the old password, and then only that row, the first with the id, gets the new password; every failure is the wrong-old-password message |
| Auth.ChangePasswordThenLogin | src/contexts/AuthContext.tsx:22-188 | after a change the account logs in with the new password and, when they differ, no longer with the old one |
| Auth.AuthProvider.constructor | src/contexts/AuthContext.tsx:11-14 | the provider starts over the stored table and user, with no error |
| Auth.AuthProvider.Login | src/contexts/AuthContext.tsx:22-57 | succeeds exactly when the login outcome does, then signs that user in with no error; otherwise only the error changes, to the outcome's message; the table never changes |
| Auth.AuthProvider.Register | src/contexts/AuthContext.tsx:60-124 | succeeds exactly when no check fails, then appends the account and signs it in; otherwise only the error changes, to the first failing check's message; unique accounts stay unique |
| Auth.AuthProvider.Logout | src/contexts/AuthContext.tsx:127-130 | nobody signed in and no error; the table stays |
| Auth.AuthProvider.UpdateProfile | src/contexts/AuthContext.tsx:133-158 | refused with nothing changed when signed out; otherwise the update is merged into the signed-in user and into its stored row |
| Auth.AuthProvider.ChangePassword | src/contexts/AuthContext.tsx:161-188 | refused with nothing changed when signed out; otherwise succeeds exactly when the stored password change does, with the wrong-old-password message on failure; the signed-in user never changes |
| Auth.AuthProvider.ClearError | src/contexts/AuthContext.tsx:19 | the error is cleared and nothing else changes |
| UserProfile.ProfilePatch | src/components/auth/UserProfile.tsx:27-30 | the update sets the edited username and email and no other field |
| UserProfile.ProfilePanel.constructor | src/components/auth/UserProfile.tsx:11-22 | both forms closed, no message, empty password fields, and the profile form on the user's name and email, empty when signed out |
| UserProfile.ProfilePanel.HandleSaveProfile | src/components/auth/UserProfile.tsx:24-38 | nothing changes when signed out; otherwise the name and email are merged into the user and its stored row, the success message shows and the form closes |
| UserProfile.ProfilePanel.HandleChangePassword | src/components/auth/UserProfile.tsx:40-60 | a mismatched or short new password is refused with its message and the provider untouched; otherwise a successful change stores the new password, clears the provider's error, shows success, clears the fields and closes the form, and a refused one leaves the table, sets the provider's error to the wrong-old-password message (unchanged when signed out), shows the failure and keeps the form |
| StorageManager.GetProjects | src/utils/storageManager.ts:87-101 | an empty list when the key is missing or empty, otherwise the stored text parsed with the date reviver, or an empty list when it is not JSON |
| StorageManager.GetSelectedProjectId | src/utils/storageManager.ts:106-113 | null when the key is missing or empty, otherwise the stored text parsed, or null when it is not JSON |
| StorageManager.ExportDocument | src/utils/storageManager.ts:15-23 | the exported object has exactly the projects, the selected id, the export time and version 1.0.0, the first two as the readers return them |
| StorageManager.OptionalDate | src/utils/storageManager.ts:47 | a date exactly for a truthy value, undefined otherwise |
| StorageManager.RestoreItems | src/utils/storageManager.ts:48-55 | succeeds exactly when no item is null or undefined, keeping every item's fields and rebuilding the date field of each; otherwise it throws on the null item |
| StorageManager.RestoreList | src/utils/storageManager.ts:48-55 | a missing list becomes empty, an array becomes exactly its items restored one by one (`RestoreItems`), and any other value throws for lack of `map` |
| StorageManager.RestoreClient | src/utils/storageManager.ts:56-59 | a falsy client becomes undefined; any other keeps every field but its delivery date, which becomes a date exactly when set |
| StorageManager.RestoreProject | src/utils/storageManager.ts:43-60 | succeeds exactly for a restorable project; then both timestamps become dates, the shoot date a date exactly when set, the client is restored, the checklist is its tasks restored with their due dates and the expenses their items with their dates (empty when missing), and every field the import does not rebuild is kept; a null project throws |
| StorageManager.RestoreAll | src/utils/storageManager.ts:43-60 | succeeds exactly when every project is restorable, restoring each in place |
| StorageManager.ImportDocument | src/utils/storageManager.ts:29-60 | a null document throws on reading the version; a missing or non-array project list is rejected exactly then; import succeeds exactly when every project restores, restoring each and keeping the selected id |
| StorageManager.ImportPlan | src/utils/storageManager.ts:28-73 | text that is not JSON fails with the parse error, any other is judged as a document |
| StorageManager.AfterImport | src/utils/storageManager.ts:62-67 | the projects key holds the restored list, the selection key is written only for a truthy selection, and every other key keeps its value |
| StorageManager.ImportReport | src/utils/storageManager.ts:69-71 | the report succeeds exactly when the import did |
| StorageManager.ImportData | src/utils/storageManager.ts:28-73 | the report is that of the import's outcome; nothing is written unless it succeeds, and then the store is the store after import |
| StorageManager.ImportThenGetProjects | src/utils/storageManager.ts:63-101 | after an import, reading the projects gives the written list as JSON would carry it, with its date texts revived |
| StorageManager.ImportCountsProjects | src/utils/storageManager.ts:43-69 | a successful import reports the number of projects in the document |
| StorageManager.JsonifyKeepsListOfObjects | src/utils/storageManager.ts:48-55 | a list of objects stays one, and restorable, after a JSON round trip |
| StorageManager.JsonifyKeepsExportable | src/utils/storageManager.ts:43-60 | a project whose lists hold objects stays so, and restorable, after a JSON round trip |
| StorageManager.ExportThenImport | src/utils/storageManager.ts:15-73 | importing an export of projects whose lists hold objects succeeds; it restores as many projects as were stored, each the restore of that stored project's JSON form, in order, and the selection as written |
| StorageManager.RestoreKeepsPlainField | src/utils/storageManager.ts:43-60 | a field the import does not rebuild and that holds no date survives writing, restoring and writing again |
| StorageManager.RestoreKeepsPlainItemField | src/utils/storageManager.ts:48-55 | writing and restoring a project keeps the length of its checklist and expense list, keeps each item's date-free fields, and rebuilds its date from the written text |
| StorageManager.ExportImportProject | src/utils/storageManager.ts:15-101 | after export, import into any store and reading the projects back, as many projects come back as were stored, each the written and revived form of the project the import restored from it |
| StorageManager.ExportImportReadBack | src/utils/storageManager.ts:15-73 | after export, import into any store and reading the projects back, the same number of projects comes back and every date-free field the import does not rebuild reads as it was stored |
| StorageManager.ExportImportReadBackItems | src/utils/storageManager.ts:15-73 | after export, import and reading back, each stored checklist and expense list comes back with its length, and every date-free field of each item, such as a task's `completed` flag, reads as it was stored |
| StorageManager.ClearAllData | src/utils/storageManager.ts:78-82 | exactly the two keys are removed and every other entry stays |
| StorageManager.Cleared | src/utils/storageManager.ts:78-82 | the store without the two keys, every other entry kept |
| StorageManager.ClearIdempotent | src/utils/storageManager.ts:78-113 | clearing twice is clearing once, and afterwards the readers give an empty list and null |
| StorageManager.UnitIndex | src/utils/storageManager.ts:216 | the unit index is the exact power of 1024 the byte count lies between |
| StorageManager.FormatBytes | src/utils/storageManager.ts:212-218 | zero is `0 Bytes`; counts below 1024 are in bytes, below 1024 squared in KB, below 1024 cubed in MB, each with the scaled number; from a gigabyte on the unit prints as `undefined` |
| StorageManager.UnitIndexUnique | src/utils/storageManager.ts:216 | the unit index is the only power of 1024 bracketing the count, so it is 0, 1 or 2 in the three ranges and at least 3 beyond |
| StorageManager.PowMonotone | src/utils/storageManager.ts:216 | every power of 1024 is at least 1 |
| StorageManager.PowIncreasing | src/utils/storageManager.ts:216 | powers of 1024 grow with the exponent |
| StorageManager.GetStorageInfo | src/utils/storageManager.ts:118-140 | the total is every key's length plus its value's over the whole store, the count is the number of entries, each of the two sizes is its value's length or 0, never above the total, and the two formatted sizes are `formatBytes` of the total and of the projects size |
| StorageManager.AnyStringDueDate | src/utils/storageManager.ts:154 | true only when some due date is text; false exactly when every item is present and no due date is text |
| StorageManager.ProjectNeedsMigration | src/utils/storageManager.ts:153-154 | a null project throws, and one without `updatedAt` needs migration |
| StorageManager.ProjectNeedsMigrationFalse | src/utils/storageManager.ts:153-154 | a project needs no migration exactly when it has `updatedAt` and no checklist due date is text |
| StorageManager.AnyNeedsMigration | src/utils/storageManager.ts:151-155 | no migration exactly when every project is up to date |
| StorageManager.NeedsMigration | src/utils/storageManager.ts:151-155 | a stored value that is not an array throws; no migration exactly for an array of up-to-date projects |
| StorageManager.DateFromText | src/utils/storageManager.ts:174-176 | a non-empty text becomes a date, anything else stays |
| StorageManager.MigrateItems | src/utils/storageManager.ts:172-177 | succeeds exactly when no item is null, keeping every item's fields and converting its date field |
| StorageManager.MigrateList | src/utils/storageManager.ts:171-178 | succeeds exactly when the list is missing or an array without null items; a missing list leaves the project as it was; otherwise only that list changes, to its items with the date field converted, and no field is added |
| StorageManager.MigrateProject | src/utils/storageManager.ts:162-192 | succeeds exactly when checklist and expenses can be migrated; the project then always has `updatedAt`: its own, else `createdAt`, else now; a present checklist becomes its items with `dueDate` converted and present expenses their items with `date` converted, missing ones stay missing; every other field is kept |
| StorageManager.MigrateAll | src/utils/storageManager.ts:162-192 | succeeds exactly when every project can be migrated, and then every project is migrated in place |
| StorageManager.MigrationPlan | src/utils/storageManager.ts:145-192 | already current exactly when no project needs migration; migrated exactly when some project needs it and every project can be migrated, and then the projects are exactly the migrated ones (`MigrateAll`), each with an `updatedAt`; otherwise it throws the fault of the check or of the migration |
| StorageManager.MigrationReport | src/utils/storageManager.ts:157-206 | the report fails exactly when the migration threw |
| StorageManager.MigrateData | src/utils/storageManager.ts:145-207 | the report is that of the migration's outcome, and the projects key is rewritten only when projects were migrated |
| StorageManager.MigrationCount | src/utils/storageManager.ts:145-200 | with every stored project current nothing is migrated; a migration reports the number of stored projects |
| LocalStorageHook.InitialRead | src/hooks/useLocalStorage.ts:10-36 | the initial value without a window or a stored entry; otherwise the stored text parsed with dates revived, or the initial value when it is not JSON |
| LocalStorageHook.ValueToStore | src/hooks/useLocalStorage.ts:42 | a plain value is stored as given, a function is applied to the current state |
| LocalStorageHook.EventValue | src/hooks/useLocalStorage.ts:58-72 | a new state exactly for an event on this key with a new value that parses, and then that value with dates revived |
| LocalStorageHook.PersistedState.constructor | src/hooks/useLocalStorage.ts:8-36 | the state starts as the initial read of the key |
| LocalStorageHook.PersistedState.SetValue | src/hooks/useLocalStorage.ts:39-54 | an update that throws changes nothing; otherwise the state becomes the new value and, with a window, the key holds its JSON text and no other key changes |
| LocalStorageHook.PersistedState.HandleStorageEvent | src/hooks/useLocalStorage.ts:57-76 | the state takes the event's value when it applies and stays otherwise |
| LocalStorageHook.WriteThenRead | src/hooks/useLocalStorage.ts:10-54 | a value written by `setValue` is what the next initial read returns, with its dates revived |
| LocalStorageHook.EventForOtherKeyIgnored | src/hooks/useLocalStorage.ts:59 | events for other keys and removals leave the state alone |
| LocalStorageHook.ClearLocalStorage | src/hooks/useLocalStorage.ts:85-93 | with a window exactly the key is removed, without one nothing changes |
| LocalStorageHook.GetLocalStorageSize | src/hooks/useLocalStorage.ts:98-108 | every key's length plus its value's, summed over the store, or 0 without a window |
| Storage.LocalStorage.GetItem | src/utils/storageManager.ts:89 | a value exactly for a stored key, and then the stored text |
| Storage.LocalStorage.SetItem | src/utils/storageManager.ts:63 | the key holds the new text and every other entry stays |
| Storage.LocalStorage.RemoveItem | src/utils/storageManager.ts:80 | exactly the key is removed |
| Storage.Restrict | src/utils/storageManager.ts:122-127 | the entries whose keys are in the set, with their values |
| Storage.TotalSizeRemove | src/utils/storageManager.ts:122-127 | the total is one entry's size plus the total of the rest, whichever entry is taken first |
| Storage.TotalSizeAtLeast | src/utils/storageManager.ts:122-130 | every entry's size is part of the total |
| Storage.TotalSizeUpdate | src/hooks/useLocalStorage.ts:98-108 | after writing a key the total is the rest's total plus the new entry's size |
| Json.Read | src/utils/storageManager.ts:45-47 | reading a property throws exactly on null or undefined, with the property's name; otherwise it gives the property |
| Json.Spread | src/utils/storageManager.ts:43-44 | spreading an object copies its fields, an array its elements under their decimal indices, and a number, boolean, null or undefined nothing |
| Json.DecimalKeysInjective | src/utils/storageManager.ts:43-44 | different indices give different keys, so a spread array loses no element |
| Json.MatchesPrefix | src/utils/storageManager.ts:93 | the anchored pattern matches exactly when the text is at least as long and each position is accepted |
| Json.DateTextShape | src/utils/storageManager.ts:93 | the reviver's test holds exactly when the text starts with four digits, a dash, two digits, a dash, two digits, `T`, and three colon-separated pairs of digits |
| Json.DateTextExtends | src/utils/storageManager.ts:93 | anything may follow a matched prefix |
| Json.IsoTextIsDate | src/utils/storageManager.ts:93 | every text in the ISO layout, with any tail, is revived |
| Json.BareDateIsNotDate | src/utils/storageManager.ts:93 | a bare date without time is not revived |
| Json.SlashDateIsNotDate | src/utils/storageManager.ts:93 | a date written with slashes is not revived |
| Json.ReviveRoundTrip | src/utils/storageManager.ts:92-97 | reviving only wraps strings: undoing it gives the parsed value back |
| Json.ReviveLeavesNoDateText | src/utils/storageManager.ts:92-97 | after reviving, no string at any depth still looks like a date |
| Json.ReviveIdempotent | src/utils/storageManager.ts:92-97 | reviving twice is reviving once |
| Json.ParseRevived | src/hooks/useLocalStorage.ts:23-29 | a parse failure is passed on; a parsed value comes back revived |
| Json.WrittenValueReadsBack | src/hooks/useLocalStorage.ts:23-49 | text written by `JSON.stringify` reads back, with the reviver, as the written value with its dates revived, and the written value holds no date |
| Json.JsonifyDateFree | src/utils/storageManager.ts:63 | when dates are written as text or null, what `JSON.stringify` writes holds no date |
| Json.PlainSurvivesJson | src/utils/storageManager.ts:63 | a value with no date, no `undefined` and no date-like text is written and revived unchanged |
| Json.TimeNumber | src/utils/storageManager.ts:167 | the current time, as the `new Date()` that migration stores, is a number of the same value |
| JsonCodec.CodeCodecRoundTrips | src/hooks/useLocalStorage.ts:23-49 | a codec exists that meets every law the model assumes of `JSON.parse` and `JSON.stringify`: it writes a self-delimiting code of the value `JSON.stringify` writes and reads it back |
| Text.Trim | src/components/project/ShootingLogs.tsx:129-130 | the trimmed text is the slice left after whitespace is dropped at both ends, starting and ending with a non-whitespace character |
| Text.TrimIdempotent | src/components/project/ShootingLogs.tsx:129-130 | trimming twice trims nothing more |
| Text.BlankIffAllWhitespace | src/components/project/ChecklistManager.tsx:39 | a text is refused as blank exactly when it is whitespace only |
| Text.Split | src/components/project/InspirationBoard.tsx:39 | at least one piece, and no piece holds the separator |
| Text.JoinSplit | src/components/project/InspirationBoard.tsx:39 | joining the pieces with the separator gives the text back |
| Text.ParseCommaList | src/components/project/InspirationBoard.tsx:39 | the parsed entries are non-empty and trimmed: the trimmed pieces in order, every non-empty one kept and the empty ones dropped |
| Text.ParseSingle | src/components/project/InspirationBoard.tsx:39 | a comma-free text that is not blank parses to its one trimmed entry |
| Text.ParsedListIsClean | src/components/project/InspirationBoard.tsx:39 | whatever was typed, no parsed tag is empty, untrimmed or holds a comma |
| Text.ParseIsStable | src/components/project/ShootingLogs.tsx:207-210 | showing a parsed list joined by a comma and space and parsing it again gives the same list |
| Text.ParseJoinRoundTrip | src/components/project/ShootingLogs.tsx:207-210 | a clean list shown joined by a comma and space parses back to itself |
| Text.ToLower | src/components/project/InspirationBoard.tsx:61-63 | the length is kept, each character is either kept or an ASCII capital moved to lower case, and no ASCII capital is left |
| Text.ToLowerIdempotent | src/components/project/InspirationBoard.tsx:61-63 | lowering a lowered text changes nothing |
| Text.Includes | src/components/project/InspirationBoard.tsx:61-63 | true exactly when the search term occurs at some position |
| Text.IncludesEmpty | src/components/project/InspirationBoard.tsx:61-63 | every text includes the empty search term, so an empty search shows everything |
| Text.DecimalString | src/utils/storageManager.ts:69 | a count renders as a non-empty string of digits |
| Text.DecimalRoundTrip | src/utils/storageManager.ts:69 | reading the digits back gives the count |
| Text.DecimalStringInjective | src/components/project/PhotographyTemplates.tsx:191-207 | different counts render differently |
| Model.TextOr | src/components/project/EnhancedEquipmentManager.tsx:84-106 | a non-empty text is kept, an absent or empty one falls back |
| Model.RemoveById | src/components/project/BudgetManager.tsx:49-54 | exactly the elements with the id are dropped, the rest keep their order, and as many remain as carry another id |
| Model.RemoveByIdAbsent | src/components/project/BudgetManager.tsx:49-54 | removing an id no element carries changes nothing |
| Model.RemoveByIdLast | src/components/project/BudgetManager.tsx:28-54 | an element with the id appended at the end is removed again |
| Model.RemoveIndex | src/components/project/PlanningDetails.tsx:51-56 | the entry at the index goes, the others keep their order; an index outside the list removes nothing |
| Model.RemoveValue | src/components/project/ClientManager.tsx:41-46 | every occurrence of the value goes, every other entry stays, in order, and as many remain as there were other entries |
| Model.RemoveValueAbsent | src/components/project/ClientManager.tsx:41-46 | removing a value the list lacks changes nothing |
| Model.RemoveValueAppended | src/components/project/ClientManager.tsx:32-46 | a value appended to a list that lacked it is removed again by value |
| Model.AppendTrimmed | src/components/project/ShootingLogs.tsx:128-132 | a blank entry leaves the list unchanged, any other is appended trimmed and non-empty |
| Model.AppendTrimmedKeepsClean | src/components/project/ShootingLogs.tsx:128-132 | a list of non-empty trimmed entries stays one |
| Model.AppendTrimmedThenRemove | src/components/project/ShootingLogs.tsx:128-136 | removing the entry just added, by its index, restores the list |
| Model.RemoveByIdHead | src/App.tsx:76-102 | an element with the id at the head of the list is removed along with the others carrying it |
| Lists.Filter | src/components/project/ChecklistManager.tsx:79-84 | the kept elements are exactly those of the list that pass, in order, as many as pass |
| Lists.FilterKeepsAll | src/components/project/InspirationBoard.tsx:39 | filtering a list whose every element passes keeps it whole |
| Lists.FilterPartition | src/components/project/TeamManager.tsx:99-100 | a test and its negation split a list into two parts that add up to it |
| Lists.ReplaceWhere | src/components/project/TeamManager.tsx:79-88 | same length; every selected element is replaced and every other stays in place |
| Lists.ReplaceWhereInvolution | src/components/project/ChecklistManager.tsx:60-69 | a replacement that undoes itself, applied twice, restores the list |
| Lists.RemoveAt | src/components/project/PostProduction.tsx:119-127 | the element at the index goes and the rest keep their order; an index outside the list removes nothing |
| Lists.AppendIfAbsent | src/components/project/PostProduction.tsx:129-139 | the value is in the result, nothing else is added, a listed value changes nothing, and no duplicates appear |
| Lists.Map | src/components/project/PhotographyTemplates.tsx:191-212 | same length, each element transformed in place |
| Lists.SumAppend | src/components/project/BudgetManager.tsx:65-69 | the total of two lists joined is the sum of their totals |
| Lists.SumNonNegative | src/components/project/BudgetManager.tsx:65-69 | non-negative amounts have a non-negative total |
| Lists.SumSplit | src/components/project/BudgetManager.tsx:71-76 | summing two amounts per element is summing each and adding |
| Lists.SumSingle | src/components/project/BudgetManager.tsx:71-76 | over a list without duplicates where only one element counts, the total is that element's amount |
| Wrappers.Override | src/components/project/TeamManager.tsx:83 | a field the update sets takes its value, one it leaves out keeps the old one |

## Left out

- Rendering is not modelled: JSX, CSS classes, icons as components, `toLocaleDateString` and the modal and tab plumbing. Where a component's output carries meaning, the model keeps it as a value: a colour string, a label, a traffic light, or whether a card shows a line.
- The remote backend is not part of this model. That is `src/lib/database/*` and `src/routes/api/projects.ts`, which are pass-throughs to a hosted database. Neither are the seed and query scripts or the build configuration.
- `DataManager.tsx` is not part of this model. It is file download and upload plumbing (`Blob`, `FileReader`, `window.confirm`, timers) around `StorageManager`, which is modelled.
- `JSON.parse` and `JSON.stringify` are parameters with stated laws, not definitions. `stringify`'s indentation, key order and escaping are not modelled. Numbers are the finite doubles: `NaN` and the infinities, which `JSON.stringify` writes as `null`, are out, and `-0` is `0`. Arithmetic on them is exact, so float rounding is out too.
- `Math.round` of a percentage is exact: halves round up, and floating-point error near a half is ignored. Likewise `toFixed(2)` in `formatBytes` is a parameter, and `budgetUsage.toFixed(0)` is not modelled.
- Text.ToLower: lower-casing for search is ASCII-only. JavaScript's `toLowerCase` also folds non-ASCII letters, and the model leaves them unchanged.
- Auth.RegisterError: the password minimum of six counts Unicode scalar values, not UTF-16 code units, so it differs for characters outside the Basic Multilingual Plane.
- UserProfile.ProfilePanel.HandleChangePassword: the new password's minimum of six counts Unicode scalar values, not UTF-16 code units.
- StorageManager.GetStorageInfo: the size sums count Unicode scalar values, not UTF-16 code units.
- LocalStorageHook.GetLocalStorageSize: the size sum counts Unicode scalar values, not UTF-16 code units.
- The time zone is one fixed offset. Daylight-saving changes are not modelled, and a day is always 86 400 000 ms.
- Calendar dates are in range only. `new Date(y, m, d)` with a month outside 0..11 or an overflowing day, which JavaScript normalises, is not modelled.
- Missing collections do not arise: a project's lists are sequences. The `?.length || 0` guards of the overview are therefore always on the present branch. The one exception is the optional shooting logs, templates and post-production, which stay optional as in the source.
- The `|| options.other` fallback of `getCoverImageOptions` is never taken, because every project type has its own list of options.
- Auth.ApplyPatch: an update can set fields but cannot set them to `undefined`. JavaScript's spread would copy an explicit `undefined`, but `Partial<User>` from the profile form never carries one.
- Auth.AuthProvider: persistence is held as two fields, the user table and the signed-in user, and is not composed with storage. Only the signed-in user (`photodesign_user`) goes through `useLocalStorage`, whose JSON round trip with the date reviver `LocalStorageHook` models. The user table (`photodesign_users`) goes through raw `localStorage` with plain `JSON.parse` and `JSON.stringify` and no reviver, so its `createdAt` and `lastLoginAt` read back as ISO text, not dates. The model's `int` timestamps do not capture that, and that round trip is not modelled.
- Auth.AuthProvider.UpdateProfile: like the source, it does not check that a new email or username is unused. `Auth.UpdateKeepsAccountsUnique` states when uniqueness is kept.
- The `isLoading` flag of sign-in and the `catch` branches of the auth methods are not modelled. Those branches handle storage or parse failures, which the model's table cannot have.
- `handleLogout` in the profile panel is `logout` followed by closing the panel. Only `logout` is modelled.
- Weather data is not modelled. `fetchWeather` returns a fixed mock after a timer; only its golden-hour hint is modelled.
- The template table's icon components and feature lists are not modelled. Only what `applyTemplate` writes into a project is.
- EquipmentManager.ListedTypeIcons: states the icons of the seven listed non-accessory types. The accessory icon equals the fallback and is stated by `Planning.UnlistedIconsAgree`.
- Text.SplitJoined: requires only that no tag holds a comma. Tags that do are never produced by the parser (`Text.ParsedListIsClean`).
- StorageManager.FormatBytes: `Math.log` is replaced by the exact unit index. At an exact power of 1024, where floating point may misplace the boundary, the two can differ.
- StorageManager.ExportThenImport: the round trip is proved field by field: for the fields the import does not rebuild and that hold no date (`StorageManager.ExportImportReadBack`), and for the length and the date-free item fields of the checklist and the expenses (`StorageManager.ExportImportReadBackItems`). Dates go through `toJSON`, whose text the model leaves as a parameter, so that a restored date equals the stored one is not stated.
- Planning.MidnightIsNotGolden: covers dates built as `new Date(y, m, d)`. Dates typed into the project forms are UTC midnight, and whether they get the golden-hour hint depends on the zone (`Planning.FormDateEightHoursAheadIsMorning`).
- A handler's separate `new Date()` calls are one moment: the model gives `handleCreateProject` a single `now` for both timestamps, and `handleUpdateProject` one `now` for the stored and the selected copy.
- Console output (`console.warn` for a foreign version, `console.error` in the hook) is left out. Quota errors from `setItem` are left out too: the store is unbounded.
